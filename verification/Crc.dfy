/** CRC-16/KERMIT: the table-driven loop, the bit-serial register it speeds
    up, the polynomial division both stand for, and the errors it catches. */
module Crc {
  import opened Bits

  /** Reflected form of x^16 + x^12 + x^5 + 1. */
  const POLY_REFLECTED := 0x8408

  /** The generator without its leading term: bit `i` stands for x^(15 - i),
      so x^12, x^5 and 1. */
  function Generator(): (r: seq<bool>)
    ensures |r| == 16 && forall i :: 0 <= i < 16 ==> r[i] == (i in {3, 10, 15})
  {
    seq(16, i => i in {3, 10, 15})
  }

  // ---- The bit-serial register: bit i holds the coefficient of x^(15 - i) ----

  function Shift(r: seq<bool>): (s: seq<bool>)
    requires |r| == 16
    ensures |s| == 16
  {
    if r[0] then Xor(r[1..] + [false], Generator()) else r[1..] + [false]
  }

  function Shifts(r: seq<bool>, n: nat): (s: seq<bool>)
    requires |r| == 16
    ensures |s| == 16
    decreases n, |r|
  {
    if n == 0 then r else Shifts(Shift(r), n - 1)
  }

  /** Feed message bits into the register, first bit first. */
  function Serial(r: seq<bool>, bits: seq<bool>): (s: seq<bool>)
    requires |r| == 16
    ensures |s| == 16
    decreases |bits|
  {
    if bits == [] then r else Serial(Shift(r[0 := r[0] != bits[0]]), bits[1..])
  }

  type byte = b: int | 0 <= b < 256

  /** A byte string on the wire: each byte least significant bit first. */
  function Wire(data: seq<byte>): (r: seq<bool>)
    ensures |r| == 8 * |data|
  {
    if data == [] then [] else BitsOf(data[0], 8) + Wire(data[1..])
  }

  /** The checksum of a byte string, as the register defines it. */
  function Crc16(data: seq<byte>): nat { Value(Serial(Zeros(16), Wire(data))) }

  // ---- The table-driven loop ----

  /** One round of the table's inner loop. */
  function Round(crc: nat): nat {
    if crc % 2 == 1 then XorInt(crc / 2, POLY_REFLECTED) else crc / 2
  }

  function Rounds(crc: nat, n: nat): nat
    decreases n, crc
  {
    if n == 0 then crc else Rounds(Round(crc), n - 1)
  }

  /** The table's first `n` entries. */
  function TableOf(n: nat): (t: seq<nat>)
    ensures |t| == n && forall b :: 0 <= b < n ==> t[b] == Rounds(b, 8)
  {
    if n == 0 then [] else TableOf(n - 1) + [Rounds(n - 1, 8)]
  }

  method BuildTable() returns (table: seq<nat>)
    ensures table == TableOf(256)
  {
    table := [];
    for byte := 0 to 256
      invariant table == TableOf(byte)
    {
      var crc: nat := byte;
      for k := 0 to 8
        invariant Rounds(crc, 8 - k) == Rounds(byte, 8)
      {
        if crc % 2 == 1 {
          crc := XorInt(crc / 2, POLY_REFLECTED);
        } else {
          crc := crc / 2;
        }
      }
      table := table + [crc];
    }
  }

  method Crc16Kermit(table: seq<nat>, data: seq<byte>) returns (crc: nat)
    requires table == TableOf(256)
    ensures crc == Crc16(data) && crc < 0x1_0000
  {
    crc := 0x0000;
    ZeroBits(16);
    for i := 0 to |data|
      invariant crc < 0x1_0000
      invariant Serial(BitsOf(crc, 16), Wire(data[i..])) == Serial(Zeros(16), Wire(data))
    {
      var index := XorInt(crc, data[i]) % 256;
      var next := XorInt(crc / 256, table[index]);
      ByteAtOnce(crc, data[i], index, next);
      assert data[i..][0] == data[i] && data[i..][1..] == data[i + 1..];
      SerialSplits(BitsOf(crc, 16), BitsOf(data[i], 8), Wire(data[i + 1..]));
      crc := next;
    }
    BitsOfInverts(crc, 16) by { WordSize(); }
  }

  lemma {:induction false} ZeroBits(n: nat)
    ensures BitsOf(0, n) == Zeros(n)
  {
    if n > 0 { ZeroBits(n - 1); }
  }

  /** One round of the inner loop is one shift of the register. */
  lemma RoundShifts(crc: nat)
    requires crc < 0x1_0000
    ensures BitsOf(Round(crc), 16) == Shift(BitsOf(crc, 16)) && Round(crc) < 0x1_0000
  {
    WordSize();
    HalfBits(crc, 16);
    XorIntBits(crc / 2, POLY_REFLECTED);
    GeneratorBits();
  }

  lemma {:induction false} RoundsShift(crc: nat, n: nat)
    requires crc < 0x1_0000
    ensures BitsOf(Rounds(crc, n), 16) == Shifts(BitsOf(crc, 16), n) && Rounds(crc, n) < 0x1_0000
    decreases n
  {
    if n > 0 {
      RoundShifts(crc);
      RoundsShift(Round(crc), n - 1);
    }
  }

  function NibbleValue(bits: seq<bool>): nat
    requires |bits| == 4
  {
    (if bits[0] then 1 else 0) + (if bits[1] then 2 else 0) + (if bits[2] then 4 else 0) + (if bits[3] then 8 else 0)
  }

  lemma OneBit(bit: bool, rest: seq<bool>)
    ensures Value([bit] + rest) == (if bit then 1 else 0) + 2 * Value(rest)
  {
    assert ([bit] + rest)[1..] == rest;
  }

  /** Four bits in front of what follows them. */
  lemma Nibble(bits: seq<bool>, rest: seq<bool>)
    requires |bits| == 4
    ensures Value(bits + rest) == NibbleValue(bits) + 16 * Value(rest)
  {
    OneBit(bits[3], rest);
    OneBit(bits[2], [bits[3]] + rest);
    OneBit(bits[1], [bits[2]] + ([bits[3]] + rest));
    OneBit(bits[0], [bits[1]] + ([bits[2]] + ([bits[3]] + rest)));
    assert bits + rest == [bits[0]] + ([bits[1]] + ([bits[2]] + ([bits[3]] + rest)));
  }

  lemma FourNibbles(a: seq<bool>, b: seq<bool>, c: seq<bool>, d: seq<bool>)
    requires |a| == |b| == |c| == |d| == 4
    ensures Value(a + (b + (c + d)))
         == NibbleValue(a) + 16 * (NibbleValue(b) + 16 * (NibbleValue(c) + 16 * NibbleValue(d)))
  {
    assert d + [] == d;
    Nibble(d, []);
    Nibble(c, d);
    Nibble(b, c + d);
    Nibble(a, b + (c + d));
  }

  lemma GeneratorNibbles()
    ensures Generator() == [false, false, false, true] + ([false, false, false, false]
                           + ([false, false, true, false] + [false, false, false, true]))
  {
  }

  lemma GeneratorValue()
    ensures Value(Generator()) == POLY_REFLECTED
  {
    GeneratorNibbles();
    FourNibbles([false, false, false, true], [false, false, false, false],
                [false, false, true, false], [false, false, false, true]);
  }

  lemma GeneratorBits()
    ensures BitsOf(POLY_REFLECTED, 16) == Generator()
  {
    GeneratorValue();
    ValueInverts(Generator());
  }

  lemma {:induction false} SerialSplits(r: seq<bool>, xs: seq<bool>, ys: seq<bool>)
    requires |r| == 16
    ensures Serial(r, xs + ys) == Serial(Serial(r, xs), ys)
    decreases |xs|
  {
    if xs == [] {
      assert xs + ys == ys;
    } else {
      assert (xs + ys)[1..] == xs[1..] + ys;
      SerialSplits(Shift(r[0 := r[0] != xs[0]]), xs[1..], ys);
    }
  }

  // ---- Linearity ----

  lemma ShiftIsLinear(a: seq<bool>, b: seq<bool>)
    requires |a| == |b| == 16
    ensures Shift(Xor(a, b)) == Xor(Shift(a), Shift(b))
  {
    var l, r := Shift(Xor(a, b)), Xor(Shift(a), Shift(b));
    forall i | 0 <= i < 16 ensures l[i] == r[i] {
      assert i < 15 ==> Xor(a, b)[1..][i] == (a[1..][i] != b[1..][i]);
    }
  }

  lemma {:induction false} ShiftsIsLinear(a: seq<bool>, b: seq<bool>, n: nat)
    requires |a| == |b| == 16
    ensures Shifts(Xor(a, b), n) == Xor(Shifts(a, n), Shifts(b, n))
    decreases n
  {
    if n > 0 {
      ShiftIsLinear(a, b);
      ShiftsIsLinear(Shift(a), Shift(b), n - 1);
    }
  }

  lemma {:induction false} SerialIsLinear(a: seq<bool>, b: seq<bool>, xs: seq<bool>, ys: seq<bool>)
    requires |a| == |b| == 16 && |xs| == |ys|
    ensures Serial(Xor(a, b), Xor(xs, ys)) == Xor(Serial(a, xs), Serial(b, ys))
    decreases |xs|
  {
    if xs != [] {
      var a', b' := a[0 := a[0] != xs[0]], b[0 := b[0] != ys[0]];
      var c := Xor(a, b);
      assert c[0 := c[0] != Xor(xs, ys)[0]] == Xor(a', b');
      assert Xor(xs, ys)[1..] == Xor(xs[1..], ys[1..]);
      ShiftIsLinear(a', b');
      SerialIsLinear(Shift(a'), Shift(b'), xs[1..], ys[1..]);
    }
  }

  // ---- Several bits at once ----

  /** Feeding the first `n` bits of `w` one by one, then adding the rest of it,
      is shifting with all of `w` added up front. */
  lemma {:induction false} WordAtOnce(r: seq<bool>, w: seq<bool>, n: nat)
    requires |r| == |w| == 16 && n <= 16
    ensures Shifts(Xor(r, w), n) == Xor(Serial(r, w[..n]), w[n..] + Zeros(n))
    decreases n
  {
    if n == 0 {
      assert w[0..] + Zeros(0) == w;
    } else {
      var r' := r[0 := r[0] != w[0]];
      var w' := w[1..] + [false];
      assert Shift(Xor(r, w)) == Xor(Shift(r'), w') by {
        assert Xor(r, w) == Xor(r', w[0 := false]);
        ShiftIsLinear(r', w[0 := false]);
        assert w[0 := false][1..] == w[1..];
      }
      WordAtOnce(Shift(r'), w', n - 1);
      assert Serial(r, w[..n]) == Serial(Shift(r'), w'[..n - 1]) by {
        assert w'[..n - 1] == w[..n][1..];
      }
      ShiftTwice(w, n);
    }
  }

  lemma {:induction false} ShiftsOfZeros(r: seq<bool>, n: nat)
    requires |r| == 16 && n <= 16 && r[..n] == Zeros(n)
    ensures Shifts(r, n) == r[n..] + Zeros(n)
    decreases n
  {
    if n == 0 {
      assert r[0..] + Zeros(0) == r;
    } else {
      assert !r[..n][0];
      var r' := r[1..] + [false];
      forall i | 0 <= i < n - 1 ensures !r'[i] { assert r'[i] == r[..n][i + 1]; }
      assert r'[..n - 1] == Zeros(n - 1);
      ShiftsOfZeros(r', n - 1);
      ShiftTwice(r, n);
    }
  }

  lemma EightShifts(r: seq<bool>, bits: seq<bool>)
    requires |r| == 16 && |bits| == 8
    ensures Shifts(Xor(r, bits + Zeros(8)), 8) == Serial(r, bits)
  {
    var w := bits + Zeros(8);
    WordAtOnce(r, w, 8);
    assert w[..8] == bits && w[8..] + Zeros(8) == Zeros(16);
    XorCommutes(Serial(r, bits), Zeros(16));
    AddNothing(Serial(r, bits));
  }

  lemma HighByteMoves(x: seq<bool>)
    requires |x| == 16
    ensures Shifts(x, 8) == Xor(x[8..] + Zeros(8), Shifts(x[..8] + Zeros(8), 8))
  {
    var low, high := x[..8] + Zeros(8), Zeros(8) + x[8..];
    assert x == Xor(low, high);
    ShiftsIsLinear(low, high, 8);
    assert high[..8] == Zeros(8) && high[8..] == x[8..];
    ShiftsOfZeros(high, 8);
    XorCommutes(Shifts(low, 8), x[8..] + Zeros(8));
  }

  /** Eight serial steps move the high byte down and shift only the low one. */
  lemma EightSteps(r: seq<bool>, bits: seq<bool>)
    requires |r| == 16 && |bits| == 8
    ensures Serial(r, bits)
         == Xor(r[8..] + Zeros(8), Shifts(Xor(r, bits + Zeros(8))[..8] + Zeros(8), 8))
  {
    var x := Xor(r, bits + Zeros(8));
    EightShifts(r, bits);
    HighByteMoves(x);
    assert x[8..] == r[8..];
  }

  lemma XorCommutes(a: seq<bool>, b: seq<bool>)
    requires |a| == |b|
    ensures Xor(a, b) == Xor(b, a)
  {
  }

  /** The table step is eight serial steps. */
  lemma ByteAtOnce(crc: nat, b: byte, index: nat, next: nat)
    requires crc < 0x1_0000
    requires index == XorInt(crc, b) % 256 && next == XorInt(crc / 256, Rounds(index, 8))
    ensures next < 0x1_0000 && BitsOf(next, 16) == Serial(BitsOf(crc, 16), BitsOf(b, 8))
  {
    WordSize();
    MaskedBits(b, 16, 8);
    XorIntBits(crc, b);
    MaskedBits(index, 16, 8);
    LowBitsAgree(XorInt(crc, b), 16, 8);
    LowBitsOfModulus(XorInt(crc, b), 8);
    EightSteps(BitsOf(crc, 16), BitsOf(b, 8));
    RoundsShift(index, 8);
    HighBits(crc, 16, 8);
    ShrEight(crc);
    XorIntBits(crc / 256, Rounds(index, 8));
  }

  lemma {:induction false} LowBitsOfModulus(v: nat, n: nat)
    ensures BitsOf(v % Exp2(n), n) == BitsOf(v, n)
  {
    if n > 0 {
      LowBitsOfModulus(v / 2, n - 1);
      HalfModulus(v, Exp2(n - 1));
    }
  }

  lemma HalfModulus(v: nat, m: nat)
    requires m > 0
    ensures (v % (2 * m)) % 2 == v % 2 && (v % (2 * m)) / 2 == (v / 2) % m
  {
    var q, h := (v / 2) / m, (v / 2) % m;
    assert v / 2 == m * q + h;
    assert v == (2 * m) * q + (2 * h + v % 2);
    QuotientUnique(v, 2 * m, q, 2 * h + v % 2);
  }

  lemma QuotientUnique(v: nat, d: nat, q: nat, r: nat)
    requires d > 0 && v == d * q + r && r < d
    ensures v % d == r
  {
    var q', r' := v / d, v % d;
    assert v == d * q' + r';
    assert q > q' ==> d * q >= d * (q' + 1);
    assert q < q' ==> d * q' >= d * (q + 1);
  }

  // ---- Polynomial division ----

  /** Add a register to the front of a bit string. */
  function AddToFront(p: seq<bool>, r: seq<bool>): (s: seq<bool>)
    requires |p| >= 16 && |r| == 16
    ensures |s| == |p|
  {
    Xor(p[..16], r) + p[16..]
  }

  /** Long division over GF(2), highest power first: the remainder modulo
      x^16 + x^12 + x^5 + 1 (the generator of ITU-T V.41, section 2). */
  function Remainder(p: seq<bool>): (r: seq<bool>)
    requires |p| >= 16
    ensures |r| == 16
    decreases |p|
  {
    if |p| == 16 then p
    else if p[0] then Remainder(AddToFront(p[1..], Generator()))
    else Remainder(p[1..])
  }

  lemma {:induction false} SerialDivides(r: seq<bool>, m: seq<bool>)
    requires |r| == 16
    ensures Serial(r, m) == Remainder(AddToFront(m + Zeros(16), r))
    decreases |m|
  {
    var p := AddToFront(m + Zeros(16), r);
    if m == [] {
      assert p == r;
    } else {
      var r' := r[0 := r[0] != m[0]];
      var shifted := r'[1..] + [false];
      var q := m[1..] + Zeros(16);
      assert p[0] == r'[0];
      assert p[1..] == AddToFront(q, shifted);
      if p[0] {
        assert AddToFront(AddToFront(q, shifted), Generator()) == AddToFront(q, Xor(shifted, Generator()));
      }
      SerialDivides(Shift(r'), m[1..]);
    }
  }

  /** The checksum is the remainder of message * x^16 modulo the generator. */
  lemma CrcIsRemainder(data: seq<byte>)
    ensures Crc16(data) < 0x1_0000
    ensures BitsOf(Crc16(data), 16) == Remainder(Wire(data) + Zeros(16))
  {
    var m := Wire(data) + Zeros(16);
    SerialDivides(Zeros(16), Wire(data));
    assert AddToFront(m, Zeros(16)) == m;
    ValueInverts(Serial(Zeros(16), Wire(data)));
    WordSize();
  }

  // ---- Error detection ----

  lemma ShiftKeepsNonzero(r: seq<bool>)
    requires |r| == 16 && Shift(r) == Zeros(16)
    ensures r == Zeros(16)
  {
    assert Shift(r)[15] == r[0];
    forall i | 0 < i < 16 ensures !r[i] { assert r[i] == Shift(r)[i - 1]; }
  }

  lemma {:induction false} ShiftsKeepNonzero(r: seq<bool>, n: nat)
    requires |r| == 16 && Shifts(r, n) == Zeros(16)
    ensures r == Zeros(16)
    decreases n
  {
    if n > 0 {
      ShiftsKeepNonzero(Shift(r), n - 1);
      ShiftKeepsNonzero(r);
    }
  }

  lemma {:induction false} SerialOfZeros(r: seq<bool>, n: nat)
    requires |r| == 16
    ensures Serial(r, Zeros(n)) == Shifts(r, n)
    decreases n
  {
    if n > 0 {
      assert Zeros(n)[1..] == Zeros(n - 1);
      SerialOfZeros(Shift(r), n - 1);
    }
  }

  lemma AddNothing(r: seq<bool>)
    ensures Xor(Zeros(|r|), r) == r
  {
  }

  /** At most 16 bits fed into a clear register leave it clear only if all are zero. */
  lemma ShortErrorShows(w: seq<bool>)
    requires |w| <= 16 && Serial(Zeros(16), w) == Zeros(16)
    ensures w == Zeros(|w|)
  {
    var n := |w|;
    var full := w + Zeros(16 - n);
    AddNothing(full);
    assert full[..n] == w && full[n..] + Zeros(n) == Zeros(16);
    assert Shifts(full, n) == Xor(Serial(Zeros(16), w), Zeros(16)) by { WordAtOnce(Zeros(16), full, n); }
    AddNothing(Zeros(16));
    ShiftsKeepNonzero(full, n);
    assert w == full[..n];
  }

  /** A nonzero error of at most 16 bits leaves the register nonzero. */
  lemma BurstShows(p: nat, w: seq<bool>, q: nat)
    requires |w| <= 16 && w != Zeros(|w|)
    ensures Serial(Zeros(16), Zeros(p) + (w + Zeros(q))) != Zeros(16)
  {
    var z := Zeros(16);
    SerialSplits(z, Zeros(p), w + Zeros(q));
    SerialSplits(z, w, Zeros(q));
    SerialOfZeros(z, p);
    ShiftsOfZero(p);
    SerialOfZeros(Serial(z, w), q);
    if Serial(z, Zeros(p) + (w + Zeros(q))) == z {
      ShiftsKeepNonzero(Serial(z, w), q);
      ShortErrorShows(w);
    }
  }

  lemma SameRegister(a: seq<bool>, b: seq<bool>)
    requires |a| == |b| && Serial(Zeros(16), a) == Serial(Zeros(16), b)
    ensures Serial(Zeros(16), Xor(a, b)) == Zeros(16)
  {
    SerialIsLinear(Zeros(16), Zeros(16), a, b);
    AddNothing(Zeros(16));
    SelfCancels(Serial(Zeros(16), a));
  }

  lemma BurstChangesRegister(a: seq<bool>, b: seq<bool>, p: nat, q: nat)
    requires |a| == |b| && a != b && p <= q <= |a| && q - p <= 16
    requires a[..p] == b[..p] && a[q..] == b[q..]
    ensures Serial(Zeros(16), a) != Serial(Zeros(16), b)
  {
    var w := Xor(a, b)[p..q];
    if w == Zeros(q - p) {
      SameWhereNoError(a, b, p, q);
    } else {
      ErrorShape(a, b, p, q);
      BurstShows(p, w, |a| - q);
      if Serial(Zeros(16), a) == Serial(Zeros(16), b) { SameRegister(a, b); }
    }
  }

  lemma SelfCancels(r: seq<bool>)
    ensures Xor(r, r) == Zeros(|r|)
  {
  }

  /** Two byte strings of one length that differ somewhere within 16
      consecutive bits, and nowhere else, have different checksums. */
  lemma BurstChangesCrc(a: seq<byte>, b: seq<byte>, p: nat, q: nat)
    requires |a| == |b| && a != b
    requires p <= q <= 8 * |a| && q - p <= 16
    requires Wire(a)[..p] == Wire(b)[..p] && Wire(a)[q..] == Wire(b)[q..]
    ensures Crc16(a) != Crc16(b)
  {
    if Wire(a) == Wire(b) { WireInjective(a, b); }
    BurstChangesRegister(Wire(a), Wire(b), p, q);
    ValueInverts(Serial(Zeros(16), Wire(a)));
    ValueInverts(Serial(Zeros(16), Wire(b)));
  }

  lemma ErrorShape(a: seq<bool>, b: seq<bool>, p: nat, q: nat)
    requires |a| == |b| && p <= q <= |a| && a[..p] == b[..p] && a[q..] == b[q..]
    ensures Xor(a, b) == Zeros(p) + (Xor(a, b)[p..q] + Zeros(|a| - q))
  {
    forall i | 0 <= i < p ensures a[i] == b[i] { assert a[..p][i] == b[..p][i]; }
    forall i | q <= i < |a| ensures a[i] == b[i] { assert a[q..][i - q] == b[q..][i - q]; }
  }

  lemma SameWhereNoError(a: seq<bool>, b: seq<bool>, p: nat, q: nat)
    requires |a| == |b| && p <= q <= |a| && a[..p] == b[..p] && a[q..] == b[q..]
    requires Xor(a, b)[p..q] == Zeros(q - p)
    ensures a == b
  {
    forall i | p <= i < q ensures a[i] == b[i] { assert Xor(a, b)[p..q][i - p] == Xor(a, b)[i]; }
    forall i | 0 <= i < p ensures a[i] == b[i] { assert a[..p][i] == b[..p][i]; }
    forall i | q <= i < |a| ensures a[i] == b[i] { assert a[q..][i - q] == b[q..][i - q]; }
  }

  lemma {:induction false} ShiftsOfZero(n: nat)
    ensures Shifts(Zeros(16), n) == Zeros(16)
  {
    if n > 0 {
      assert Shift(Zeros(16)) == Zeros(16);
      ShiftsOfZero(n - 1);
    }
  }

  lemma {:induction false} WireInjective(a: seq<byte>, b: seq<byte>)
    requires |a| == |b| && Wire(a) == Wire(b)
    ensures a == b
  {
    if a != [] {
      WordSize();
      BitsOfInverts(a[0], 8);
      BitsOfInverts(b[0], 8);
      assert Wire(a)[..8] == BitsOf(a[0], 8) && Wire(b)[..8] == BitsOf(b[0], 8);
      assert Wire(a)[8..] == Wire(a[1..]) && Wire(b)[8..] == Wire(b[1..]);
      WireInjective(a[1..], b[1..]);
    }
  }
}
