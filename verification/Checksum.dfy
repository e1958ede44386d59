/** The three-character checksum that ends a buffered command. */
module Checksum {
  import opened Text
  import opened Bits
  import Crc

  const ALPHABET := "0123456789ABCDEFGHIJKLMNOPQRSTUVWXYZ+-./?"

  /** The base-41 digit `d`, as the alphabet lists it. */
  function Digit(d: nat): (c: Latin1Char)
    requires d < 41
  {
    if d < 10 then ('0' as int + d) as char
    else if d < 36 then ('A' as int + (d - 10)) as char
    else ['+', '-', '.', '/', '?'][d - 36]
  }

  function DigitValue(c: Latin1Char): (d: Option<nat>)
    ensures d.Some? ==> d.value < 41
  {
    if '0' <= c <= '9' then Some(c as int - '0' as int)
    else if 'A' <= c <= 'Z' then Some(c as int - 'A' as int + 10)
    else match c
      case '+' => Some(36) case '-' => Some(37) case '.' => Some(38)
      case '/' => Some(39) case '?' => Some(40) case _ => None
  }

  lemma AlphabetIsDigits()
    ensures |ALPHABET| == 41 && forall d :: 0 <= d < 41 ==> ALPHABET[d] == Digit(d)
  {
  }

  lemma AlphabetMembers(c: Latin1Char)
    ensures c in ALPHABET <==> DigitValue(c).Some?
  {
    AlphabetIsDigits();
    if c in ALPHABET {
      var d :| 0 <= d < |ALPHABET| && ALPHABET[d] == c;
      DigitRoundTrip(d);
    }
    if DigitValue(c).Some? {
      DigitOfValue(c);
      assert ALPHABET[DigitValue(c).value] == c;
    }
  }

  lemma DigitOfValue(c: Latin1Char)
    requires DigitValue(c).Some?
    ensures Digit(DigitValue(c).value) == c
  {
  }

  lemma DigitRoundTrip(d: nat)
    requires d < 41
    ensures DigitValue(Digit(d)) == Some(d) && !IsSpace(Digit(d)) && Digit(d) as int != 4
  {
  }

  // ---- Packing ----

  /** `pack16bits`: values outside 16 bits are truncated first. */
  function Pack16Bits(value: int): (s: Text)
    ensures |s| == 3
  {
    var v := if 0 <= value <= 0xFFFF then value else value % 0x1_0000;
    [Digit(v / 1681), Digit((v - v / 1681 * 1681) / 41), Digit(v % 41)]
  }

  function Unpack(s: Text): Option<nat> {
    if |s| != 3 then None
    else match (DigitValue(s[0]), DigitValue(s[1]), DigitValue(s[2]))
      case (Some(a), Some(b), Some(c)) => Some(1681 * a + 41 * b + c)
      case _ => None
  }

  /** The three base-41 digits of a 16-bit number. */
  lemma BaseFortyOne(v: nat)
    requires v < 0x1_0000
    ensures var a, b := v / 1681, (v - v / 1681 * 1681) / 41;
      a < 41 && 0 <= b < 41 && 1681 * a + 41 * b + v % 41 == v
  {
    var a := v / 1681;
    LowDigits(v - a * 1681);
    SameRemainder(41 * a, v - a * 1681);
  }

  lemma LowDigits(rest: nat)
    requires rest < 1681
    ensures rest / 41 < 41 && rest == 41 * (rest / 41) + rest % 41
  {
  }

  lemma SameRemainder(q: nat, rest: nat)
    ensures (41 * q + rest) % 41 == rest % 41
  {
  }

  lemma UnpackDigits(a: nat, b: nat, c: nat)
    requires a < 41 && b < 41 && c < 41
    ensures Unpack([Digit(a), Digit(b), Digit(c)]) == Some(1681 * a + 41 * b + c)
  {
    DigitRoundTrip(a);
    DigitRoundTrip(b);
    DigitRoundTrip(c);
  }

  lemma WordRoundTrip(v: nat)
    requires v < 0x1_0000
    ensures Unpack(Pack16Bits(v)) == Some(v)
  {
    BaseFortyOne(v);
    UnpackDigits(v / 1681, (v - v / 1681 * 1681) / 41, v % 41);
  }

  /** Three characters give back the low 16 bits of any number. */
  lemma PackRoundTrip(value: int)
    ensures Unpack(Pack16Bits(value)) == Some(value % 0x1_0000)
  {
    var v := value % 0x1_0000;
    WordRoundTrip(v);
    if 0 <= value <= 0xFFFF { assert v == value; }
    assert Pack16Bits(value) == Pack16Bits(v);
  }

  lemma PackedChars(v: nat, i: nat)
    requires v < 0x1_0000 && i < 3
    ensures var c := Pack16Bits(v)[i]; DigitValue(c).Some? && !IsSpace(c) && c as int != 4
  {
    DigitRoundTrip(v / 1681);
    DigitRoundTrip((v - v / 1681 * 1681) / 41);
    DigitRoundTrip(v % 41);
  }

  // ---- Checksums ----

  /** `body.encode("latin-1")`. */
  function Encode(body: Text): (r: seq<Crc.byte>)
    ensures |r| == |body|
  {
    seq(|body|, i requires 0 <= i < |body| => body[i] as int)
  }

  function Checksum16(body: Text): (s: Text)
    ensures |s| == 3
  {
    Pack16Bits(Crc.Crc16(Encode(body)))
  }

  /** The bits of a text: each character's code, least significant bit first. */
  function TextBits(body: Text): (bits: seq<bool>)
    ensures |bits| == 8 * |body|
  {
    seq(8 * |body|, k requires 0 <= k < 8 * |body| => body[k / 8] as int / Exp2(k % 8) % 2 == 1)
  }

  /** They are what goes over the wire. */
  lemma {:induction false} WireIsText(body: Text)
    ensures Crc.Wire(Encode(body)) == TextBits(body)
  {
    var wire, bits := Crc.Wire(Encode(body)), TextBits(body);
    if body != [] {
      assert Encode(body)[1..] == Encode(body[1..]);
      WireIsText(body[1..]);
      forall k | 0 <= k < 8 * |body| ensures wire[k] == bits[k] {
        if k < 8 {
          BitIs(body[0] as int, 8, k);
        } else {
          assert wire[k] == TextBits(body[1..])[k - 8];
          assert (k - 8) / 8 == k / 8 - 1 && (k - 8) % 8 == k % 8;
        }
      }
    }
  }

  /** The checksum of a text is the remainder of its bits, sixteen zeros after
      them, by x^16 + x^12 + x^5 + 1. */
  lemma ChecksumDivides(body: Text)
    ensures var v := Unpack(Checksum16(body));
      v.Some? && v.value < 0x1_0000 && BitsOf(v.value, 16) == Crc.Remainder(TextBits(body) + Zeros(16))
  {
    var crc := Crc.Crc16(Encode(body));
    Crc.CrcIsRemainder(Encode(body));
    WordRoundTrip(crc);
    WireIsText(body);
  }

  /** The trailing checksum of `text`, checked: the body before it, or None. */
  function VerifyChecksum16(text: Text): Option<Text> {
    var t := RStrip(text);
    if |t| < 5 || t[|t| - 4] != ' ' then None
    else
      var checksum, body := t[|t| - 3..], t[..|t| - 4];
      if exists i :: 0 <= i < 3 && DigitValue(checksum[i]).None? then None
      else if Checksum16(body) != checksum then None
      else Some(body)
  }

  /** What is sent for a body. */
  function WithChecksum(body: Text): (r: Text)
    ensures |r| == |body| + 4
  {
    body + [' '] + Checksum16(body)
  }

  lemma ChecksumChars(body: Text)
    ensures forall i :: 0 <= i < 3 ==>
      var c := Checksum16(body)[i]; DigitValue(c).Some? && !IsSpace(c) && c as int != 4
  {
    var v := Crc.Crc16(Encode(body));
    Crc.CrcIsRemainder(Encode(body));
    PackedChars(v, 0);
    PackedChars(v, 1);
    PackedChars(v, 2);
  }

  /** Exactly the texts that end in a non-empty body's own checksum verify. */
  lemma VerifyExactly(text: Text, body: Text)
    ensures VerifyChecksum16(text) == Some(body) <==> body != [] && RStrip(text) == WithChecksum(body)
  {
    var t := RStrip(text);
    if body != [] && t == WithChecksum(body) {
      SplitChecksum(body, Checksum16(body));
      ChecksumChars(body);
    }
    if VerifyChecksum16(text) == Some(body) {
      assert t == t[..|t| - 4] + [t[|t| - 4]] + t[|t| - 3..];
    }
  }

  lemma SplitChecksum(body: Text, checksum: Text)
    requires |checksum| == 3
    ensures var t := body + [' '] + checksum;
      |t| == |body| + 4 && t[..|t| - 4] == body && t[|t| - 4] == ' ' && t[|t| - 3..] == checksum
  {
  }

  lemma NothingToStrip(body: Text, checksum: Text)
    requires |checksum| == 3 && !IsSpace(checksum[2])
    ensures RStrip(body + [' '] + checksum) == body + [' '] + checksum
  {
    var t := body + [' '] + checksum;
    assert t[|t| - 1] == checksum[2];
  }

  lemma ChecksumRoundTrip(body: Text)
    requires body != []
    ensures RStrip(WithChecksum(body)) == WithChecksum(body)
    ensures VerifyChecksum16(WithChecksum(body)) == Some(body)
  {
    ChecksumChars(body);
    NothingToStrip(body, Checksum16(body));
    VerifyExactly(WithChecksum(body), body);
  }

  // ---- Error detection ----

  /** The two bodies differ, but only within their bits [p, q). */
  ghost predicate BurstError(a: Text, b: Text, p: nat, q: nat) {
    && |a| == |b| && a != b && p <= q <= 8 * |a|
    && TextBits(a)[..p] == TextBits(b)[..p] && TextBits(a)[q..] == TextBits(b)[q..]
  }

  lemma EncodeInjective(a: Text, b: Text)
    requires |a| == |b| && Encode(a) == Encode(b)
    ensures a == b
  {
    assert forall i :: 0 <= i < |a| ==> Encode(a)[i] == a[i] as int && Encode(b)[i] == b[i] as int;
  }

  lemma BurstChangesChecksum(a: Text, b: Text, p: nat, q: nat)
    requires BurstError(a, b, p, q) && q - p <= 16
    ensures Checksum16(a) != Checksum16(b)
  {
    var x, y := Encode(a), Encode(b);
    if x == y { EncodeInjective(a, b); }
    WireIsText(a);
    WireIsText(b);
    Crc.BurstChangesCrc(x, y, p, q);
    Crc.CrcIsRemainder(x);
    Crc.CrcIsRemainder(y);
    WordRoundTrip(Crc.Crc16(x));
    WordRoundTrip(Crc.Crc16(y));
  }

  /** A body hit by an error of up to 16 consecutive bits no longer verifies
      against the checksum it was sent with. */
  lemma BurstRejected(sent: Text, received: Text, p: nat, q: nat)
    requires BurstError(sent, received, p, q) && q - p <= 16
    ensures VerifyChecksum16(received + [' '] + Checksum16(sent)) == None
  {
    BurstChangesChecksum(sent, received, p, q);
    ChecksumChars(sent);
    NothingToStrip(received, Checksum16(sent));
    SplitChecksum(received, Checksum16(sent));
  }
}
