/**
 Big-endian positional numbers, and the shift, mask and or operators that the codecs
 apply to machine words, as functions on naturals.
 */
module Digits {
  import opened Common

  function Pow(b: nat, e: nat): (r: nat)
    ensures b > 0 ==> r > 0
  {
    if e == 0 then 1 else b * Pow(b, e - 1)
  }

  ghost predicate IsDigits(ds: seq<nat>, b: nat) {
    forall i | 0 <= i < |ds| :: ds[i] < b
  }

  /** The number written by the digits `ds`, most significant first, in base `b`. */
  function Value(ds: seq<nat>, b: nat): nat {
    if ds == [] then 0 else Value(ds[..|ds| - 1], b) * b + ds[|ds| - 1]
  }

  lemma MulMonotone(x: nat, y: nat, b: nat)
    requires x <= y
    ensures x * b <= y * b
  {
  }

  /** Division with remainder is unique. */
  lemma QuotientUnique(q: nat, r: nat, q': nat, r': nat, b: nat)
    requires r < b && r' < b && q * b + r == q' * b + r'
    ensures q == q' && r == r'
  {
    if q < q' {
      MulMonotone(q + 1, q', b);
    } else if q' < q {
      MulMonotone(q' + 1, q, b);
    }
  }

  lemma {:induction false} ValueBound(ds: seq<nat>, b: nat)
    requires IsDigits(ds, b)
    ensures Value(ds, b) < Pow(b, |ds|)
  {
    if ds != [] {
      var hi := ds[..|ds| - 1];
      ValueBound(hi, b);
      BoundStep(Value(hi, b), ds[|ds| - 1], Pow(b, |hi|), b);
    }
  }

  lemma BoundStep(x: nat, d: nat, p: nat, b: nat)
    requires x < p && d < b
    ensures x * b + d < b * p
  {
    MulMonotone(x + 1, p, b);
  }

  /** A number has one representation of each length. */
  lemma {:induction false} ValueInjective(xs: seq<nat>, ys: seq<nat>, b: nat)
    requires |xs| == |ys| && IsDigits(xs, b) && IsDigits(ys, b)
    requires Value(xs, b) == Value(ys, b)
    ensures xs == ys
  {
    if xs != [] {
      var n := |xs| - 1;
      QuotientUnique(Value(xs[..n], b), xs[n], Value(ys[..n], b), ys[n], b);
      ValueInjective(xs[..n], ys[..n], b);
      assert xs == xs[..n] + [xs[n]] && ys == ys[..n] + [ys[n]];
    }
  }

  lemma ValueAppend(ds: seq<nat>, d: nat, b: nat)
    ensures Value(ds + [d], b) == Value(ds, b) * b + d
  {
    assert (ds + [d])[..|ds|] == ds;
  }

  lemma {:induction false} ValueConcat(xs: seq<nat>, ys: seq<nat>, b: nat)
    ensures Value(xs + ys, b) == Value(xs, b) * Pow(b, |ys|) + Value(ys, b)
  {
    if ys == [] {
      assert xs + ys == xs;
    } else {
      var hi := ys[..|ys| - 1];
      ValueConcat(xs, hi, b);
      assert (xs + ys)[..|xs + ys| - 1] == xs + hi;
      ConcatStep(Value(xs, b), Pow(b, |hi|), Value(hi, b), b);
    }
  }

  lemma ConcatStep(x: nat, p: nat, y: nat, b: nat)
    ensures (x * p + y) * b == x * (b * p) + y * b
  {
  }

  // ----- Bit strings -------------------------------------------------------

  /** The lowest `k` bits of `v`, most significant first. */
  function ToBits(v: nat, k: nat): (bs: seq<nat>)
    ensures |bs| == k
    ensures forall i | 0 <= i < k :: bs[i] < 2
  {
    if k == 0 then [] else ToBits(v / 2, k - 1) + [v % 2]
  }

  lemma {:induction false} BitsOfValue(bs: seq<nat>)
    requires IsDigits(bs, 2)
    ensures ToBits(Value(bs, 2), |bs|) == bs
  {
    if bs != [] {
      BitsOfValue(bs[..|bs| - 1]);
    }
  }

  lemma {:induction false} ValueOfBits(v: nat, k: nat)
    requires v < Pow(2, k)
    ensures Value(ToBits(v, k), 2) == v
  {
    if k > 0 {
      ValueOfBits(v / 2, k - 1);
      assert ToBits(v, k)[..k - 1] == ToBits(v / 2, k - 1);
    }
  }

  lemma {:induction false} BitAt(v: nat, k: nat, j: nat)
    requires j < k
    ensures ToBits(v, k)[j] == Shr(v, k - 1 - j) % 2
  {
    if j < k - 1 {
      BitAt(v / 2, k - 1, j);
    }
  }

  /** The bits of the `k`-bit digits `ds`, in reading order. */
  ghost function Bits(ds: seq<nat>, k: nat): (bs: seq<nat>)
    ensures |bs| == k * |ds|
    ensures IsDigits(bs, 2)
  {
    if ds == [] then [] else Bits(ds[..|ds| - 1], k) + ToBits(ds[|ds| - 1], k)
  }

  /** Regrouping bits does not change the number. */
  lemma {:induction false} BitsValue(ds: seq<nat>, k: nat)
    requires IsDigits(ds, Pow(2, k))
    ensures Value(Bits(ds, k), 2) == Value(ds, Pow(2, k))
  {
    if ds != [] {
      var hi, lo := ds[..|ds| - 1], ds[|ds| - 1];
      BitsValue(hi, k);
      ValueConcat(Bits(hi, k), ToBits(lo, k), 2);
      ValueOfBits(lo, k);
    }
  }

  /** The `i`-th group of `k` bits is the `i`-th digit. */
  lemma {:induction false} BitsGroup(ds: seq<nat>, k: nat, i: nat)
    requires i < |ds|
    ensures 0 <= k * i <= k * i + k <= k * |ds|
    ensures Bits(ds, k)[k * i..k * i + k] == ToBits(ds[i], k)
  {
    GroupRange(k, i, |ds|);
    var hi := ds[..|ds| - 1];
    var low, last := Bits(hi, k), ToBits(ds[|hi|], k);
    assert Bits(ds, k) == low + last && |low| == k * |hi| && |last| == k;
    hide Bits, ToBits, IsDigits;
    if i < |hi| {
      GroupRange(k, i, |hi|);
      BitsGroup(hi, k, i);
      var p := k * i;
      SliceOfPrefix(low, last, p, p + k);
    } else {
      SliceOfSuffix(low, last);
    }
  }

  lemma SliceOfSuffix(low: seq<nat>, last: seq<nat>)
    ensures (low + last)[|low|..|low| + |last|] == last
  {
  }

  lemma GroupRange(k: nat, i: nat, n: nat)
    requires i < n
    ensures 0 <= k * i <= k * i + k <= k * n
  {
    MulMonotone(i + 1, n, k);
  }

  lemma SliceOfPrefix<T>(xs: seq<T>, ys: seq<T>, a: nat, b: nat)
    requires a <= b <= |xs|
    ensures (xs + ys)[a..b] == xs[a..b]
  {
  }

  lemma Pow2Values()
    ensures Pow(2, 1) == 2 && Pow(2, 8) == 256 && Pow(2, 11) == 2048
  {
    assert Pow(2, 4) == 16;
    assert Pow(2, 8) == 256;
  }

  // ----- Word operators ----------------------------------------------------

  function Shl(v: nat, n: nat): nat {
    if n == 0 then v else 2 * Shl(v, n - 1)
  }

  lemma {:induction false} ShlIsMul(v: nat, n: nat)
    ensures Shl(v, n) == v * Pow(2, n)
  {
    if n > 0 {
      ShlIsMul(v, n - 1);
      ConcatStep(v, Pow(2, n - 1), 0, 2);
    }
  }

  function Shr(v: nat, n: nat): nat {
    if n == 0 then v else Shr(v / 2, n - 1)
  }

  function Or(a: nat, b: nat): nat
    decreases a + b
  {
    if a + b == 0 then 0
    else 2 * Or(a / 2, b / 2) + if a % 2 + b % 2 == 0 then 0 else 1
  }

  lemma {:induction false} OrZero(a: nat)
    ensures Or(a, 0) == a && Or(0, a) == a
  {
    if a > 0 {
      OrZero(a / 2);
    }
  }

  lemma OrDouble(a: nat, lo: nat)
    ensures Or(2 * a, lo) == 2 * Or(a, lo / 2) + lo % 2
  {
    assert 2 * a / 2 == a;
  }

  /** Or-ing a word into a gap of zero bits below it is addition. */
  lemma {:induction false} OrDisjoint(hi: nat, lo: nat, n: nat)
    requires lo < Pow(2, n)
    ensures Or(Shl(hi, n), lo) == Shl(hi, n) + lo
  {
    if n == 0 {
      OrZero(hi);
    } else {
      var a := Shl(hi, n - 1);
      OrDisjoint(hi, lo / 2, n - 1);
      OrDouble(a, lo);
    }
  }

  /** Shifting a `k`-bit digit in from the right appends it to the number. */
  lemma ShiftIn(v: nat, d: nat, k: nat)
    requires d < Pow(2, k)
    ensures Or(Shl(v, k), d) == v * Pow(2, k) + d
  {
    OrDisjoint(v, d, k);
    ShlIsMul(v, k);
  }

  // ----- Big-endian byte strings -------------------------------------------

  /** The `n` low bytes of `v`, most significant first. */
  function BeBytes(v: nat, n: nat): (bs: Bytes)
    ensures |bs| == n
  {
    if n == 0 then [] else BeBytes(v / 256, n - 1) + [v % 256]
  }

  lemma U64Range()
    ensures Pow(256, 8) == 0x1_0000_0000_0000_0000
  {
    assert Pow(256, 4) == 0x1_0000_0000;
  }

  lemma {:induction false} BeRoundTrip(v: nat, n: nat)
    requires v < Pow(256, n)
    ensures Value(BeBytes(v, n), 256) == v
  {
    if n > 0 {
      BeRoundTrip(v / 256, n - 1);
      ValueAppend(BeBytes(v / 256, n - 1), v % 256, 256);
    }
  }
}
