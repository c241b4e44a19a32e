/** Machine integers, clamping and the finite sums used by several stages. */
module Numeric {

  const U64_MAX := 0xFFFF_FFFF_FFFF_FFFF

  /** `std::uint64_t`. */
  type U64 = x: int | 0 <= x < 0x1_0000_0000_0000_0000

  /** `std::uint32_t`. */
  type U32 = x: int | 0 <= x < 0x1_0000_0000

  /** Addition and subtraction modulo 2^64, written without division. */
  function Add64(x: U64, y: U64): U64 {
    var sum: int := x + y;
    if sum <= U64_MAX then sum else sum - 0x1_0000_0000_0000_0000
  }

  function Sub64(x: U64, y: U64): U64 {
    var difference: int := x - y;
    if difference >= 0 then difference else difference + 0x1_0000_0000_0000_0000
  }

  function Increment32(x: U32): U32 {
    if x < 0xFFFF_FFFF then x + 1 else 0
  }

  /** A counter that wraps is the true count modulo 2^32. */
  lemma IncrementIsModular(count: nat)
    ensures Increment32(count % 0x1_0000_0000) == (count + 1) % 0x1_0000_0000
  {
    var q, r := count / 0x1_0000_0000, count % 0x1_0000_0000;
    assert count == q * 0x1_0000_0000 + r;
    if r == 0xFFFF_FFFF {
      assert count + 1 == (q + 1) * 0x1_0000_0000;
    }
  }

  /** `core::clamp01`. */
  function Clamp01(v: real): (r: real)
    ensures 0.0 <= r <= 1.0
  {
    if v < 0.0 then 0.0 else if v > 1.0 then 1.0 else v
  }

  function Distance(x: real, y: real): real {
    if x < y then y - x else x - y
  }

  /** Clamping moves a value to the nearest point of the unit interval, and no further. */
  lemma Clamp01IsNearest(v: real, y: real)
    requires 0.0 <= y <= 1.0
    ensures Distance(v, Clamp01(v)) <= Distance(v, y)
    ensures Distance(v, Clamp01(v)) == Distance(v, y) ==> y == Clamp01(v)
  {
  }

  function Pow(base: real, n: nat): real {
    if n == 0 then 1.0 else base * Pow(base, n - 1)
  }

  /** Exact sum, taken from the right so that prefixes of a loop extend it by one term. */
  function Sum(xs: seq<int>): int {
    if xs == [] then 0 else Sum(xs[..|xs| - 1]) + xs[|xs| - 1]
  }

  lemma {:induction false} SumAppend(xs: seq<int>, ys: seq<int>)
    ensures Sum(xs + ys) == Sum(xs) + Sum(ys)
  {
    if ys == [] {
      assert xs + ys == xs;
    } else {
      SumAppend(xs, ys[..|ys| - 1]);
      assert (xs + ys)[..|xs + ys| - 1] == xs + ys[..|ys| - 1];
    }
  }

  /** The same sum as the machine accumulates it. */
  function Sum64(xs: seq<U64>): U64 {
    if xs == [] then 0 else Add64(Sum64(xs[..|xs| - 1]), xs[|xs| - 1])
  }

  lemma Sum64Snoc(xs: seq<U64>, x: U64)
    ensures Sum64(xs + [x]) == Add64(Sum64(xs), x)
  {
    assert (xs + [x])[..|xs|] == xs;
  }

  lemma {:induction false} Sum64Append(xs: seq<U64>, ys: seq<U64>)
    ensures Sum64(xs + ys) == Add64(Sum64(xs), Sum64(ys))
  {
    if ys == [] {
      assert xs + ys == xs;
    } else {
      Sum64Append(xs, ys[..|ys| - 1]);
      assert (xs + ys)[..|xs + ys| - 1] == xs + ys[..|ys| - 1];
    }
  }

  /** The machine sum is the exact sum modulo 2^64, hence exact as long as that fits. */
  lemma {:induction false} Sum64IsModular(xs: seq<U64>)
    ensures Sum64(xs) == Sum(xs) % 0x1_0000_0000_0000_0000
    ensures 0 <= Sum(xs) <= U64_MAX ==> Sum64(xs) == Sum(xs)
  {
    if xs != [] {
      var n := |xs| - 1;
      Sum64IsModular(xs[..n]);
      ModuloStep(Sum(xs[..n]), xs[n], 0x1_0000_0000_0000_0000);
    }
  }

  lemma ModuloStep(s: int, x: int, m: int)
    requires 0 <= x < m
    ensures (s + x) % m == if s % m + x < m then s % m + x else s % m + x - m
  {
    var q, r := s / m, s % m;
    assert s + x == q * m + (r + x) == (q + 1) * m + (r + x - m);
    if r + x < m {
      RemainderUnique(s + x, m, q, r + x);
    } else {
      RemainderUnique(s + x, m, q + 1, r + x - m);
    }
  }

  lemma RemainderUnique(x: int, m: int, q: int, r: int)
    requires 0 <= r < m && x == q * m + r
    ensures x % m == r
  {
    var d := x / m - q;
    assert d * m == r - x % m;
  }

  lemma {:induction false} SumNonNegative(xs: seq<int>)
    requires forall i :: 0 <= i < |xs| ==> xs[i] >= 0
    ensures Sum(xs) >= 0
    ensures forall i :: 0 <= i < |xs| ==> xs[i] <= Sum(xs)
  {
    if xs != [] {
      SumNonNegative(xs[..|xs| - 1]);
    }
  }

  function RealSum(xs: seq<real>): real {
    if xs == [] then 0.0 else RealSum(xs[..|xs| - 1]) + xs[|xs| - 1]
  }

  lemma RealSumSnoc(xs: seq<real>, x: real)
    ensures RealSum(xs + [x]) == RealSum(xs) + x
  {
    assert (xs + [x])[..|xs|] == xs;
  }

  lemma RealSumOfOne(x: real)
    ensures RealSum([x]) == x
  {
    RealSumSnoc([], x);
    assert [] + [x] == [x];
  }

  ghost predicate IsScaled(xs': seq<real>, xs: seq<real>, c: real) {
    |xs'| == |xs| && forall i :: 0 <= i < |xs| ==> xs'[i] == c * xs[i]
  }

  lemma {:induction false} RealSumScales(xs': seq<real>, xs: seq<real>, c: real)
    requires IsScaled(xs', xs, c)
    ensures RealSum(xs') == c * RealSum(xs)
  {
    if xs != [] {
      var n := |xs| - 1;
      assert IsScaled(xs'[..n], xs[..n], c);
      RealSumScales(xs'[..n], xs[..n], c);
      Distribute(c, RealSum(xs[..n]), xs[n]);
    }
  }

  lemma TimesNonNegative(x: real, y: real)
    requires x >= 0.0 && y >= 0.0
    ensures x * y >= 0.0
  {
  }

  lemma DivideMonotone(x: real, y: real, d: real)
    requires x <= y && d > 0.0
    ensures x / d <= y / d
  {
    var p, q := x / d, y / d;
    assert p * d == x && q * d == y;
  }

  lemma Distribute(c: real, x: real, y: real)
    ensures c * (x + y) == c * x + c * y
  {
  }

  lemma ScaleOrder(x: real, y: real, d: real)
    requires d > 0.0
    ensures x <= y <==> x * d <= y * d
  {
    if x > y {
      assert (x - y) * d > 0.0;
    } else {
      TimesNonNegative(y - x, d);
    }
  }

  lemma RatioThreshold(x: real, d: real, k: real)
    requires d > 0.0
    ensures x / d <= k <==> x <= k * d
    ensures x / d >= k <==> x >= k * d
  {
    assert (x / d) * d == x;
    ScaleOrder(x / d, k, d);
    ScaleOrder(k, x / d, d);
  }

  lemma RatioMonotone(x: real, dx: real, y: real, dy: real)
    requires dx > 0.0 && dy > 0.0
    requires x * dy <= y * dx
    ensures x / dx <= y / dy
  {
    var q := y / dy;
    assert (q * dx) * dy == (q * dy) * dx == y * dx;
    ScaleOrder(x, q * dx, dy);
    RatioThreshold(x, dx, q);
  }
}
