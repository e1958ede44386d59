/** The few Python string operations that the protocol code leans on, over
    the Latin-1 text that the decoder hands over. */
module Text {

  type Latin1Char = c: char | c as int < 256 witness ' '

  type Text = seq<Latin1Char>

  datatype Option<+T> = None | Some(value: T)

  /** A Python `Optional[str]` read as a string: None counts as empty. */
  function OrEmpty(s: Option<Text>): Text {
    match s case Some(t) => t case None => []
  }

  /** `str.isspace` on Latin-1. */
  predicate IsSpace(c: Latin1Char) {
    c == ' ' || 9 <= c as int <= 13 || 28 <= c as int <= 31 || c as int == 0x85 || c as int == 0xA0
  }

  /** The class `\d` of a regular expression. */
  predicate IsDecimal(c: Latin1Char) { '0' <= c <= '9' }

  /** `str.isdigit` on Latin-1: superscripts count. */
  predicate IsDigit(c: Latin1Char) {
    IsDecimal(c) || c as int in {0xB2, 0xB3, 0xB9}
  }

  /** `isalpha() and isupper()` on Latin-1. */
  predicate IsUpperLetter(c: Latin1Char) {
    'A' <= c <= 'Z' || (0xC0 <= c as int <= 0xDE && c as int != 0xD7)
  }

  /** `str.upper`, one character at a time. */
  function Upper(c: Latin1Char): Latin1Char {
    if 'a' <= c <= 'z' || (0xE0 <= c as int <= 0xFE && c as int != 0xF7)
    then (c as int - 32) as char else c
  }

  function UpperText(s: Text): (r: Text)
    ensures |r| == |s|
  {
    seq(|s|, i requires 0 <= i < |s| => Upper(s[i]))
  }

  function LStrip(s: Text): Text {
    if s != [] && IsSpace(s[0]) then LStrip(s[1..]) else s
  }

  function RStrip(s: Text): Text {
    if s != [] && IsSpace(s[|s| - 1]) then RStrip(s[..|s| - 1]) else s
  }

  /** `str.replace(c, "")`. */
  function Without(s: Text, c: Latin1Char): Text {
    if s == [] then [] else (if s[0] == c then [] else [s[0]]) + Without(s[1..], c)
  }

  /** `s.upper().startswith(prefix)` for an upper-case ASCII prefix. */
  predicate StartsWithUpper(s: Text, prefix: Text) {
    |prefix| <= |s| && UpperText(s[..|prefix|]) == prefix
  }

  /** The first whitespace-delimited token of `s`, after leading whitespace. */
  function TokenEnd(s: Text): (n: nat)
    ensures n <= |s|
  {
    if s == [] || IsSpace(s[0]) then 0 else 1 + TokenEnd(s[1..])
  }

  /** A callsign, as the frame grammar delivers it, is a word. */
  predicate IsWord(w: Text) {
    w != [] && forall i :: 0 <= i < |w| ==> !IsSpace(w[i])
  }

  lemma {:induction false} WordEnd(w: Text, rest: Text)
    requires (forall i :: 0 <= i < |w| ==> !IsSpace(w[i])) && (rest != [] ==> IsSpace(rest[0]))
    ensures TokenEnd(w + rest) == |w|
  {
    if w != [] {
      assert (w + rest)[1..] == w[1..] + rest;
      WordEnd(w[1..], rest);
    } else {
      assert w + rest == rest;
    }
  }

  /** `str.split(None)`. */
  function Tokens(s: Text): seq<Text>
    decreases |LStrip(s)|, |s|
  {
    var t := LStrip(s);
    if t == [] then []
    else
      var n := TokenEnd(t);
      LStripShape(s);
      LStripShape(t[n..]);
      [t[..n]] + Tokens(t[n..])
  }

  /** A stripped text is a suffix that starts with no whitespace. */
  lemma {:induction false} LStripShape(s: Text)
    ensures |LStrip(s)| <= |s| && LStrip(s) == s[|s| - |LStrip(s)|..]
    ensures LStrip(s) != [] ==> !IsSpace(LStrip(s)[0])
  {
    if s != [] && IsSpace(s[0]) { LStripShape(s[1..]); }
  }

  lemma {:induction false} RStripShape(s: Text)
    ensures |RStrip(s)| <= |s| && RStrip(s) == s[..|RStrip(s)|]
    ensures RStrip(s) != [] ==> !IsSpace(RStrip(s)[|RStrip(s)| - 1])
  {
    if s != [] && IsSpace(s[|s| - 1]) { RStripShape(s[..|s| - 1]); }
  }

  lemma {:induction false} WithoutAbsent(s: Text, c: Latin1Char)
    requires c !in s
    ensures Without(s, c) == s
  {
    if s != [] { WithoutAbsent(s[1..], c); }
  }

  /** Only whitespace is stripped. */
  lemma {:induction false} StripsSpaces(s: Text)
    ensures |LStrip(s)| <= |s| && forall i :: 0 <= i < |s| - |LStrip(s)| ==> IsSpace(s[i])
    ensures |RStrip(s)| <= |s| && forall i :: |RStrip(s)| <= i < |s| ==> IsSpace(s[i])
  {
    if s != [] {
      StripsSpaces(s[1..]);
      StripsSpaces(s[..|s| - 1]);
    }
  }

  /** Everything but that character is left, in its order. */
  lemma {:induction false} WithoutSplits(s: Text, t: Text, c: Latin1Char)
    ensures Without(s + t, c) == Without(s, c) + Without(t, c)
  {
    if s == [] {
      assert s + t == t;
    } else {
      assert (s + t)[1..] == s[1..] + t;
      WithoutSplits(s[1..], t, c);
    }
  }

  lemma WithoutOne(x: Latin1Char, c: Latin1Char)
    ensures Without([x], c) == if x == c then [] else [x]
  {
    assert [x][1..] == [];
  }

  /** Small letters, of which a capital is 32 codes away. */
  predicate IsSmall(c: Latin1Char) {
    'a' <= c <= 'z' || (0xE0 <= c as int <= 0xFE && c as int != 0xF7)
  }

  /** Two characters are the same in upper case if and only if they are equal or
      one is the other's capital. */
  lemma UpperJoins(c: Latin1Char, d: Latin1Char)
    ensures Upper(c) == Upper(d) <==>
      c == d || (IsSmall(c) && d as int == c as int - 32) || (IsSmall(d) && c as int == d as int - 32)
    ensures !IsSmall(Upper(c)) && Upper(Upper(c)) == Upper(c)
  {
  }

  lemma WordFirst(w: Text, rest: Text)
    requires IsWord(w) && (rest != [] ==> IsSpace(rest[0]))
    ensures Tokens(w + rest) == [w] + Tokens(rest)
  {
    WordEnd(w, rest);
    assert LStrip(w + rest) == w + rest;
    assert (w + rest)[..|w|] == w && (w + rest)[|w|..] == rest;
  }

  lemma SpaceFirst(rest: Text)
    ensures Tokens([' '] + rest) == Tokens(rest)
  {
    assert ([' '] + rest)[1..] == rest;
    assert LStrip([' '] + rest) == LStrip(rest);
  }

  // ---- The wire forms ----

  const MSG: Text := "MSG"

  lemma WordThen(w: Text, rest: Text)
    requires IsWord(w)
    ensures Tokens(w + ([' '] + rest)) == [w] + Tokens(rest)
  {
    WordFirst(w, [' '] + rest);
    SpaceFirst(rest);
  }

  lemma {:induction false} RStripAppend(p: Text, q: Text)
    ensures RStrip(p + q) == if RStrip(q) == [] then RStrip(p) else p + RStrip(q)
    decreases |q|
  {
    if q == [] {
      assert p + q == p;
    } else {
      assert (p + q)[|p + q| - 1] == q[|q| - 1];
      if IsSpace(q[|q| - 1]) {
        assert (p + q)[..|p + q| - 1] == p + q[..|q| - 1];
        RStripAppend(p, q[..|q| - 1]);
      }
    }
  }

  lemma RStripStart(rest: Text)
    requires rest != [] && IsSpace(rest[0]) && RStrip(rest) != []
    ensures IsSpace(RStrip(rest)[0])
  {
    RStripShape(rest);
    assert RStrip(rest)[0] == rest[0];
  }

  lemma TwoWords(a: Text, b: Text, third: Text, words: seq<Text>)
    requires IsWord(a) && IsWord(b) && Tokens(third) == words
    ensures Tokens(a + ([' '] + (b + ([' '] + third)))) == [a, b] + words
  {
    WordThen(b, third);
    WordThen(a, b + ([' '] + third));
    assert [a] + ([b] + words) == [a, b] + words;
  }

  lemma ThreeWords(a: Text, b: Text, c: Text, rest: Text)
    requires IsWord(a) && IsWord(b) && IsWord(c) && (rest != [] ==> IsSpace(rest[0]))
    ensures Tokens(a + ([' '] + (b + ([' '] + (c + rest))))) == [a, b, c] + Tokens(rest)
  {
    WordFirst(c, rest);
    TwoWords(a, b, c + rest, [c] + Tokens(rest));
    JoinThree(a, b, c, Tokens(rest));
  }

  lemma JoinThree(a: Text, b: Text, c: Text, rest: seq<Text>)
    ensures [a, b] + ([c] + rest) == [a, b, c] + rest
  {
  }

  lemma DigitsAreAWord(t: Text)
    requires t != [] && forall i :: 0 <= i < |t| ==> IsDecimal(t[i])
    ensures IsWord(t)
  {
    forall i | 0 <= i < |t| ensures !IsSpace(t[i]) { assert IsDecimal(t[i]); }
  }
}
