/** Integers as bit strings, least significant bit first. */
module Bits {

  function Exp2(n: nat): (r: nat)
    ensures r > 0
  {
    if n == 0 then 1 else 2 * Exp2(n - 1)
  }

  /** The low `n` bits of `v`. */
  function BitsOf(v: nat, n: nat): (r: seq<bool>)
    ensures |r| == n
  {
    if n == 0 then [] else [v % 2 == 1] + BitsOf(v / 2, n - 1)
  }

  function Value(bits: seq<bool>): nat {
    if bits == [] then 0 else (if bits[0] then 1 else 0) + 2 * Value(bits[1..])
  }

  function Zeros(n: nat): (r: seq<bool>)
    ensures |r| == n && forall i {:trigger r[i]} :: 0 <= i < n ==> !r[i]
  {
    seq(n, _ => false)
  }

  function Xor(xs: seq<bool>, ys: seq<bool>): (r: seq<bool>)
    requires |xs| == |ys|
    ensures |r| == |xs| && forall i {:trigger r[i]} :: 0 <= i < |r| ==> r[i] == (xs[i] != ys[i])
  {
    seq(|xs|, i requires 0 <= i < |xs| => xs[i] != ys[i])
  }

  /** `a ^ b` on 16-bit integers. */
  function XorInt(a: nat, b: nat): nat {
    Value(Xor(BitsOf(a, 16), BitsOf(b, 16)))
  }

  lemma {:induction false} ValueInverts(bits: seq<bool>)
    ensures BitsOf(Value(bits), |bits|) == bits
    ensures Value(bits) < Exp2(|bits|)
  {
    if bits != [] { ValueInverts(bits[1..]); }
  }

  lemma {:induction false} BitsOfInverts(v: nat, n: nat)
    requires v < Exp2(n)
    ensures Value(BitsOf(v, n)) == v
  {
    if n > 0 {
      BitsOfInverts(v / 2, n - 1);
      assert BitsOf(v, n)[1..] == BitsOf(v / 2, n - 1);
    }
  }

  lemma XorIntBits(a: nat, b: nat)
    ensures BitsOf(XorInt(a, b), 16) == Xor(BitsOf(a, 16), BitsOf(b, 16))
    ensures XorInt(a, b) < 0x1_0000
  {
    ValueInverts(Xor(BitsOf(a, 16), BitsOf(b, 16)));
    WordSize();
  }

  /** Bit `j` of a number, by division. */
  lemma {:induction false} BitIs(v: nat, n: nat, j: nat)
    requires j < n
    ensures BitsOf(v, n)[j] == (v / Exp2(j) % 2 == 1)
  {
    if j > 0 {
      BitIs(v / 2, n - 1, j - 1);
      DivideTwice(v, Exp2(j - 1));
    }
  }

  lemma DivideTwice(v: nat, m: nat)
    requires m > 0
    ensures v / 2 / m == v / (2 * m)
  {
    var q, r := v / 2 / m, v / 2 % m;
    assert v / 2 == m * q + r;
    assert v == (2 * m) * q + (2 * r + v % 2);
    QuotientIs(v, 2 * m, q, 2 * r + v % 2);
  }

  lemma QuotientIs(v: nat, d: nat, q: nat, r: nat)
    requires d > 0 && v == d * q + r && r < d
    ensures v / d == q
  {
    var q' := v / d;
    assert v == d * q' + v % d;
    if q' < q { OneMore(d, q', q); }
    if q < q' { OneMore(d, q, q'); }
  }

  lemma {:induction false} OneMore(d: nat, a: nat, b: nat)
    requires a < b
    ensures d * a + d <= d * b
    decreases b
  {
    assert d * b == d * (b - 1) + d;
    if a < b - 1 { OneMore(d, a, b - 1); }
  }

  lemma WordSize()
    ensures Exp2(8) == 256 && Exp2(16) == 0x1_0000
  {
    assert Exp2(4) == 16;
    assert Exp2(8) == 16 * Exp2(4);
    assert Exp2(12) == 16 * Exp2(8);
    assert Exp2(16) == 16 * Exp2(12);
  }

  lemma {:induction false} LowBitsAgree(v: nat, n: nat, k: nat)
    requires k <= n
    ensures BitsOf(v, n)[..k] == BitsOf(v, k)
  {
    if k > 0 { LowBitsAgree(v / 2, n - 1, k - 1); }
  }

  /** `v >> k`. */
  function Shr(v: nat, k: nat): nat
    decreases k
  {
    if k == 0 then v else Shr(v / 2, k - 1)
  }

  lemma ShrEight(v: nat)
    ensures Shr(v, 8) == v / 256
  {
    assert Shr(v, 4) == v / 2 / 2 / 2 / 2 == v / 16;
    assert Shr(v, 8) == Shr(v / 16, 4);
    assert Shr(v / 16, 4) == v / 16 / 2 / 2 / 2 / 2;
  }

  lemma {:induction false} HighBits(v: nat, n: nat, k: nat)
    requires v < Exp2(n) && k <= n
    ensures BitsOf(Shr(v, k), n) == BitsOf(v, n)[k..] + Zeros(k)
    decreases k
  {
    if k > 0 {
      HalfBits(v, n);
      HighBits(v / 2, n, k - 1);
      ShiftTwice(BitsOf(v, n), k);
    }
  }

  lemma ShiftTwice(bits: seq<bool>, k: nat)
    requires 0 < k <= |bits|
    ensures (bits[1..] + [false])[k - 1..] + Zeros(k - 1) == bits[k..] + Zeros(k)
  {
    assert (bits[1..] + [false])[k - 1..] == bits[k..] + [false];
    assert [false] + Zeros(k - 1) == Zeros(k);
    assert (bits[k..] + [false]) + Zeros(k - 1) == bits[k..] + ([false] + Zeros(k - 1));
  }

  lemma {:induction false} HalfBits(v: nat, n: nat)
    requires v < Exp2(n)
    ensures BitsOf(v / 2, n) == (if n == 0 then [] else BitsOf(v, n)[1..] + [false])
  {
    if n > 0 {
      HalfBits(v / 2, n - 1);
      if n == 1 { assert BitsOf(v / 2, 1) == [false]; }
    }
  }

  /** `v & 0xFF` and friends. */
  lemma {:induction false} MaskedBits(v: nat, n: nat, k: nat)
    requires k <= n && v < Exp2(k)
    ensures BitsOf(v, n) == BitsOf(v, k) + Zeros(n - k)
  {
    if n == 0 {
    } else if k == 0 {
      MaskedBits(0, n - 1, 0);
    } else {
      MaskedBits(v / 2, n - 1, k - 1);
    }
  }
}
