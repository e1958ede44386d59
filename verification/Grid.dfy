/** Maidenhead grid squares, over exact coordinates. */
module Grid {
  import opened Text

  function Clamp(x: real, bound: real): real {
    if x > bound then bound else if x < -bound then -bound else x
  }

  function Letter(base: Latin1Char, k: int): Latin1Char
    requires 0 <= k < 26 && base as int < 128
  {
    (base as int + k) as char
  }

  /** The cell that holds `offset`; the far edge belongs to the last cell. */
  function Cell(offset: real, width: real, last: int): int
    requires width > 0.0
  {
    var k := (offset / width).Floor;
    if k > last then last else k
  }

  /** The cells of one axis, from the coarsest. */
  datatype Axis = Axis(field: int, square: int, subsquare: int)

  const FIELD_LON := 20.0
  const FIELD_LAT := 10.0
  const SQUARE_LON := 2.0
  const SQUARE_LAT := 1.0
  const SUBSQUARE_LON := SQUARE_LON / 24.0
  const SUBSQUARE_LAT := SQUARE_LAT / 24.0

  /** Splits an offset from the axis' origin into cells of these widths. */
  function Split(offset: real, field: real, square: real, subsquare: real): Axis
    requires field > 0.0 && square > 0.0 && subsquare > 0.0
  {
    var f := Cell(offset, field, 17);
    var inField := offset - f as real * field;
    var q := Cell(inField, square, 9);
    Axis(f, q, Cell(inField - q as real * square, subsquare, 23))
  }

  function SplitLat(offset: real): Axis { Split(offset, FIELD_LAT, SQUARE_LAT, SUBSQUARE_LAT) }

  function SplitLon(offset: real): Axis { Split(offset, FIELD_LON, SQUARE_LON, SUBSQUARE_LON) }

  /** The same, measured in subsquares. */
  function SplitUnits(x: real): Axis { Split(x, 240.0, 24.0, 1.0) }

  predicate InRange(a: Axis) {
    0 <= a.field < 18 && 0 <= a.square < 10 && 0 <= a.subsquare < 24
  }

  /** The south or west edge of a cell, in subsquares from the origin. */
  function Edge(a: Axis, fine: bool): int {
    a.field * 240 + a.square * 24 + if fine then a.subsquare else 0
  }

  /** The width of a cell, in subsquares. */
  function Width(fine: bool): int { if fine then 1 else 24 }

  lemma LatUnits(offset: real)
    ensures SplitLat(offset) == SplitUnits(offset * 24.0)
  {
    var x, f := offset * 24.0, Cell(offset, 10.0, 17);
    assert f == Cell(x, 240.0, 17);
    var q := Cell(offset - f as real * 10.0, 1.0, 9);
    assert q == Cell(x - f as real * 240.0, 24.0, 9);
  }

  lemma LonUnits(offset: real)
    ensures SplitLon(offset) == SplitUnits(offset * 12.0)
  {
    var x, f := offset * 12.0, Cell(offset, 20.0, 17);
    assert f == Cell(x, 240.0, 17);
    var q := Cell(offset - f as real * 20.0, 2.0, 9);
    assert q == Cell(x - f as real * 240.0, 24.0, 9);
  }

  /** Every offset on the axis lies in its cell, edges included. */
  lemma SplitCovers(x: real, fine: bool)
    requires 0.0 <= x <= 4320.0
    ensures var a := SplitUnits(x);
      InRange(a) && Edge(a, fine) as real <= x <= (Edge(a, fine) + Width(fine)) as real
  {
    var f := Cell(x, 240.0, 17);
    assert 0 <= f <= 17 && f as real * 240.0 <= x <= (f as real + 1.0) * 240.0;
    var inField := x - f as real * 240.0;
    var q := Cell(inField, 24.0, 9);
    assert 0 <= q <= 9 && q as real * 24.0 <= inField <= (q as real + 1.0) * 24.0;
    var inSquare := inField - q as real * 24.0;
    var s := Cell(inSquare, 1.0, 23);
    assert 0 <= s <= 23 && s as real <= inSquare <= s as real + 1.0;
  }

  /** A point short of a cell's far edge is given that cell. */
  lemma SplitInverts(a: Axis, rest: real)
    requires InRange(a) && 0.0 <= rest < 1.0
    ensures SplitUnits(Edge(a, true) as real + rest) == a
  {
    var inSquare := a.subsquare as real + rest;
    var inField := a.square as real * 24.0 + inSquare;
    assert Cell(Edge(a, true) as real + rest, 240.0, 17) == a.field;
    assert Cell(inField, 24.0, 9) == a.square;
    assert Cell(inSquare, 1.0, 23) == a.subsquare;
  }

  // ---- Grid strings ----

  function GridOf(lat: Axis, lon: Axis, precision: int): Text
    requires InRange(lat) && InRange(lon)
  {
    [Letter('A', lon.field), Letter('A', lat.field), Letter('0', lon.square), Letter('0', lat.square)]
    + if precision == 4 then [] else [Letter('a', lon.subsquare), Letter('a', lat.subsquare)]
  }

  /** None stands for the ValueError of any other precision. */
  function LatLonToGrid(lat: real, lon: real, precision: int): Option<Text> {
    if precision != 4 && precision != 6 then None
    else
      var latOffset, lonOffset := Clamp(lat, 90.0) + 90.0, Clamp(lon, 180.0) + 180.0;
      LatUnits(latOffset);
      SplitCovers(latOffset * 24.0, true);
      LonUnits(lonOffset);
      SplitCovers(lonOffset * 12.0, true);
      Some(GridOf(SplitLat(latOffset), SplitLon(lonOffset), precision))
  }

  function Lower(c: Latin1Char): Latin1Char {
    if 'A' <= c <= 'Z' || (0xC0 <= c as int <= 0xDE && c as int != 0xD7)
    then (c as int + 32) as char else c
  }

  /** The axes that a grid names, latitude first; none if it is malformed. */
  function ParseGrid(grid: Text): Option<(Axis, Axis)> {
    var g := RStrip(LStrip(grid));
    if |g| != 4 && |g| != 6 then None
    else
      var lon, lat := Upper(g[0]) as int - 'A' as int, Upper(g[1]) as int - 'A' as int;
      if !(0 <= lon < 18 && 0 <= lat < 18) || !IsDecimal(g[2]) || !IsDecimal(g[3]) then None
      else
        var sqLon, sqLat := g[2] as int - '0' as int, g[3] as int - '0' as int;
        if |g| == 4 then Some((Axis(lat, sqLat, 0), Axis(lon, sqLon, 0)))
        else
          var ssLon, ssLat := Lower(g[4]) as int - 'a' as int, Lower(g[5]) as int - 'a' as int;
          if !(0 <= ssLon < 24 && 0 <= ssLat < 24) then None
          else Some((Axis(lat, sqLat, ssLat), Axis(lon, sqLon, ssLon)))
  }

  /** The middle of a cell, in subsquares from the origin. */
  function Centre(a: Axis, fine: bool): real { Edge(a, fine) as real + Width(fine) as real / 2.0 }

  function LatCentre(a: Axis, fine: bool): real {
    -90.0 + a.field as real * FIELD_LAT + a.square as real * SQUARE_LAT
    + if fine then a.subsquare as real * SUBSQUARE_LAT + SUBSQUARE_LAT / 2.0 else 0.5
  }

  function LonCentre(a: Axis, fine: bool): real {
    -180.0 + a.field as real * FIELD_LON + a.square as real * SQUARE_LON
    + if fine then a.subsquare as real * SUBSQUARE_LON + SUBSQUARE_LON / 2.0 else 1.0
  }

  /** The centre of a grid, latitude first; none for the ValueErrors. */
  function GridToLatLonCenter(grid: Text): Option<(real, real)> {
    match ParseGrid(grid)
    case None => None
    case Some((lat, lon)) =>
      var fine := |RStrip(LStrip(grid))| == 6;
      Some((LatCentre(lat, fine), LonCentre(lon, fine)))
  }

  /** Upper-case field, digits, lower-case subsquare. */
  predicate Canonical(g: Text) {
    && (|g| == 4 || |g| == 6)
    && 'A' <= g[0] <= 'R' && 'A' <= g[1] <= 'R' && IsDecimal(g[2]) && IsDecimal(g[3])
    && (|g| == 6 ==> 'a' <= g[4] <= 'x' && 'a' <= g[5] <= 'x')
  }

  lemma CanonicalIsBare(g: Text)
    requires Canonical(g)
    ensures RStrip(LStrip(g)) == g
  {
    assert !IsSpace(g[0]) && !IsSpace(g[|g| - 1]);
  }

  lemma ParseInverts(lat: Axis, lon: Axis, precision: int)
    requires InRange(lat) && InRange(lon) && (precision == 4 || precision == 6)
    ensures Canonical(GridOf(lat, lon, precision))
    ensures ParseGrid(GridOf(lat, lon, precision))
         == if precision == 6 then Some((lat, lon)) else Some((lat.(subsquare := 0), lon.(subsquare := 0)))
  {
    CanonicalIsBare(GridOf(lat, lon, precision));
  }

  /** The centre of a square lies on the edge of one of its subsquares. */
  lemma CentreInAxis(a: Axis, fine: bool)
    requires InRange(a)
    ensures 0.0 <= Centre(a, fine) <= 4320.0
    ensures SplitUnits(Centre(a, fine)) == if fine then a else a.(subsquare := 12)
  {
    if fine { SplitInverts(a, 0.5); } else { SplitInverts(a.(subsquare := 12), 0.0); }
  }

  lemma GridOfParsed(g: Text)
    requires Canonical(g)
    ensures ParseGrid(g).Some?
    ensures var axes := ParseGrid(g).value;
      && InRange(axes.0) && InRange(axes.1)
      && GridOf(if |g| == 6 then axes.0 else axes.0.(subsquare := 12),
                if |g| == 6 then axes.1 else axes.1.(subsquare := 12), |g|) == g
  {
    CanonicalIsBare(g);
  }

  lemma CentreUnits(a: Axis, fine: bool)
    ensures LatCentre(a, fine) == Centre(a, fine) / 24.0 - 90.0
    ensures LonCentre(a, fine) == Centre(a, fine) / 12.0 - 180.0
  {
  }

  lemma CentreOfLat(a: Axis, fine: bool)
    requires InRange(a)
    ensures var lat := LatCentre(a, fine);
      -90.0 <= lat <= 90.0 && SplitLat(Clamp(lat, 90.0) + 90.0) == if fine then a else a.(subsquare := 12)
  {
    CentreInAxis(a, fine);
    CentreUnits(a, fine);
    LatUnits(Centre(a, fine) / 24.0);
  }

  lemma CentreOfLon(a: Axis, fine: bool)
    requires InRange(a)
    ensures var lon := LonCentre(a, fine);
      -180.0 <= lon <= 180.0 && SplitLon(Clamp(lon, 180.0) + 180.0) == if fine then a else a.(subsquare := 12)
  {
    CentreInAxis(a, fine);
    CentreUnits(a, fine);
    LonUnits(Centre(a, fine) / 12.0);
  }

  /** The centre of a grid is in that grid: encoding it gives the grid back. */
  lemma GridRoundTrip(g: Text)
    requires Canonical(g)
    ensures GridToLatLonCenter(g).Some?
    ensures var c := GridToLatLonCenter(g).value; LatLonToGrid(c.0, c.1, |g|) == Some(g)
  {
    CanonicalIsBare(g);
    GridOfParsed(g);
    var (lat, lon) := ParseGrid(g).value;
    CentreOfLat(lat, |g| == 6);
    CentreOfLon(lon, |g| == 6);
  }

  /** A letter and the canonical one it stands for. */
  predicate Spelt(c: Latin1Char, canonical: Latin1Char) {
    c == canonical || ('A' <= canonical <= 'Z' && c as int == canonical as int + 32)
    || ('a' <= canonical <= 'z' && c as int == canonical as int - 32)
  }

  /** The grid, its letters in any case. */
  predicate Spells(text: Text, g: Text)
    requires Canonical(g)
  {
    && |text| == |g| && text[2] == g[2] && text[3] == g[3]
    && Spelt(text[0], g[0]) && Spelt(text[1], g[1])
    && (|g| == 6 ==> Spelt(text[4], g[4]) && Spelt(text[5], g[5]))
  }

  function Canon(text: Text): Text
    requires |text| == 4 || |text| == 6
  {
    [Upper(text[0]), Upper(text[1]), text[2], text[3]]
    + if |text| == 4 then [] else [Lower(text[4]), Lower(text[5])]
  }

  /** A text is read if and only if it spells a canonical grid, whitespace around
      it apart. */
  lemma ReadIff(text: Text)
    ensures var b := RStrip(LStrip(text));
      GridToLatLonCenter(text).Some? <==> (|b| == 4 || |b| == 6) && Canonical(Canon(b)) && Spells(b, Canon(b))
  {
    var b := RStrip(LStrip(text));
    if |b| == 4 || |b| == 6 { CanonLetters(b); }
  }

  lemma CanonLetters(b: Text)
    requires |b| == 4 || |b| == 6
    ensures Canonical(Canon(b)) <==>
      && 'A' <= Upper(b[0]) <= 'R' && 'A' <= Upper(b[1]) <= 'R' && IsDecimal(b[2]) && IsDecimal(b[3])
      && (|b| == 6 ==> 'a' <= Lower(b[4]) <= 'x' && 'a' <= Lower(b[5]) <= 'x')
    ensures Canonical(Canon(b)) ==> Spells(b, Canon(b))
  {
  }

  /** And then it is read as that grid. */
  lemma ReadAs(text: Text, g: Text)
    requires Canonical(g) && Spells(RStrip(LStrip(text)), g)
    ensures GridToLatLonCenter(text) == GridToLatLonCenter(g)
  {
    CanonicalIsBare(g);
    SameAxes(RStrip(LStrip(text)), g);
  }

  lemma SameAxes(b: Text, g: Text)
    requires Canonical(g) && Spells(b, g)
    ensures Upper(b[0]) == g[0] == Upper(g[0]) && Upper(b[1]) == g[1] == Upper(g[1])
    ensures |g| == 6 ==> Lower(b[4]) == g[4] == Lower(g[4]) && Lower(b[5]) == g[5] == Lower(g[5])
  {
  }

  /** Half a cell's height and width, in degrees. */
  function HalfLat(precision: int): real { if precision == 6 then SUBSQUARE_LAT / 2.0 else SQUARE_LAT / 2.0 }

  function HalfLon(precision: int): real { if precision == 6 then SUBSQUARE_LON / 2.0 else SQUARE_LON / 2.0 }

  /** `x` is within `half` of the point of [-bound, bound] nearest to `y`. */
  predicate NearTo(x: real, y: real, bound: real, half: real) {
    var nearest := if y > bound then bound else if y < -bound then -bound else y;
    -half <= x - nearest <= half
  }

  /** A grid is made for precision 4 and 6 only. Every point, clamped to the
      globe, is within half a cell of the centre of its grid, the poles and the
      date line included: half of 1 by 2 degrees, or a 24th of that. */
  lemma CentreIsNear(lat: real, lon: real, precision: int)
    ensures LatLonToGrid(lat, lon, precision).Some? <==> precision == 4 || precision == 6
    ensures precision == 4 || precision == 6 ==>
      var g := LatLonToGrid(lat, lon, precision).value;
      && Canonical(g) && |g| == precision && GridToLatLonCenter(g).Some?
      && var c := GridToLatLonCenter(g).value;
         && NearTo(c.0, lat, 90.0, if precision == 4 then 0.5 else 0.5 / 24.0)
         && NearTo(c.1, lon, 180.0, if precision == 4 then 1.0 else 1.0 / 24.0)
  {
    if precision == 4 || precision == 6 {
      LatIsNear(lat, precision);
      LonIsNear(lon, precision);
      CentreOfGrid(SplitLat(Clamp(lat, 90.0) + 90.0), SplitLon(Clamp(lon, 180.0) + 180.0), precision);
    }
  }

  lemma LatIsNear(lat: real, precision: int)
    requires precision == 4 || precision == 6
    ensures var a := SplitLat(Clamp(lat, 90.0) + 90.0);
      InRange(a) && NearTo(LatCentre(a, precision == 6), lat, 90.0, if precision == 4 then 0.5 else 0.5 / 24.0)
  {
    NearLat(Clamp(lat, 90.0) + 90.0, precision);
  }

  lemma LonIsNear(lon: real, precision: int)
    requires precision == 4 || precision == 6
    ensures var b := SplitLon(Clamp(lon, 180.0) + 180.0);
      InRange(b) && NearTo(LonCentre(b, precision == 6), lon, 180.0, if precision == 4 then 1.0 else 1.0 / 24.0)
  {
    NearLon(Clamp(lon, 180.0) + 180.0, precision);
  }

  lemma CentreOfGrid(lat: Axis, lon: Axis, precision: int)
    requires InRange(lat) && InRange(lon) && (precision == 4 || precision == 6)
    ensures var g := GridOf(lat, lon, precision);
      && Canonical(g) && |g| == precision
      && GridToLatLonCenter(g) == Some((LatCentre(lat, precision == 6), LonCentre(lon, precision == 6)))
  {
    ParseInverts(lat, lon, precision);
    CanonicalIsBare(GridOf(lat, lon, precision));
    assert LatCentre(lat.(subsquare := 0), false) == LatCentre(lat, false);
    assert LonCentre(lon.(subsquare := 0), false) == LonCentre(lon, false);
  }

  lemma NearLat(offset: real, precision: int)
    requires 0.0 <= offset <= 180.0
    ensures InRange(SplitLat(offset))
    ensures -HalfLat(precision) <= LatCentre(SplitLat(offset), precision == 6) + 90.0 - offset <= HalfLat(precision)
  {
    CentreUnits(SplitLat(offset), precision == 6);
    LatUnits(offset);
    SplitCovers(offset * 24.0, precision == 6);
  }

  lemma NearLon(offset: real, precision: int)
    requires 0.0 <= offset <= 360.0
    ensures InRange(SplitLon(offset))
    ensures -HalfLon(precision) <= LonCentre(SplitLon(offset), precision == 6) + 180.0 - offset <= HalfLon(precision)
  {
    CentreUnits(SplitLon(offset), precision == 6);
    LonUnits(offset);
    SplitCovers(offset * 12.0, precision == 6);
  }
}
