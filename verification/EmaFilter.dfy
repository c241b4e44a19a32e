/**
 The first-order filter that all eight pressure and risk stages run on their raw score:
 the first sample primes it, every later one moves it by a fraction `alpha`.
 */
module EmaFilter {
  import opened Numeric

  datatype Ema = Ema(value: real, primed: bool) {
    predicate InUnit() {
      0.0 <= value <= 1.0
    }

    /** Same sampling history, no larger value. */
    predicate AtMost(other: Ema) {
      primed == other.primed && value <= other.value
    }
  }

  const FRESH := Ema(0.0, false)

  function Step(alpha: real, e: Ema, raw: real): Ema {
    Ema(if e.primed then (1.0 - alpha) * e.value + alpha * raw else raw, true)
  }

  function Run(alpha: real, e: Ema, raws: seq<real>): Ema {
    if raws == [] then e else Step(alpha, Run(alpha, e, raws[..|raws| - 1]), raws[|raws| - 1])
  }

  /** The share of sample `i` among `n`: the priming sample keeps what the later ones leave over. */
  function Weight(alpha: real, n: nat, i: nat): real
    requires i < n
  {
    if i == 0 then Pow(1.0 - alpha, n - 1) else alpha * Pow(1.0 - alpha, n - 1 - i)
  }

  /** What each sample contributes to the filter's output. */
  function Shares(alpha: real, raws: seq<real>): (shares: seq<real>)
    ensures |shares| == |raws|
  {
    seq(|raws|, i requires 0 <= i < |raws| => Weight(alpha, |raws|, i) * raws[i])
  }

  lemma {:induction false} StepMonotone(alpha: real, e: Ema, f: Ema, x: real, y: real)
    requires 0.0 <= alpha <= 1.0
    requires e.AtMost(f) && x <= y
    ensures Step(alpha, e, x).AtMost(Step(alpha, f, y))
  {
    assert (1.0 - alpha) * (f.value - e.value) >= 0.0;
    assert alpha * (y - x) >= 0.0;
  }

  /** Filters that are fed ordered scores stay ordered. */
  lemma {:induction false} RunMonotone(alpha: real, xs: seq<real>, ys: seq<real>)
    requires 0.0 <= alpha <= 1.0 && |xs| == |ys|
    requires forall i :: 0 <= i < |xs| ==> xs[i] <= ys[i]
    ensures Run(alpha, FRESH, xs).AtMost(Run(alpha, FRESH, ys))
  {
    hide Step;
    if xs != [] {
      var n := |xs| - 1;
      RunMonotone(alpha, xs[..n], ys[..n]);
      StepMonotone(alpha, Run(alpha, FRESH, xs[..n]), Run(alpha, FRESH, ys[..n]), xs[n], ys[n]);
    }
  }

  /** The filter is linear: it can be stepped on the parts of a score one by one. */
  lemma StepIsLinear(alpha: real, e: Ema, f: Ema, g: Ema, x: real, y: real, z: real, c: real)
    requires e.primed == f.primed == g.primed && g.value == e.value + c * f.value && z == x + c * y
    ensures Step(alpha, e, x).primed && Step(alpha, f, y).primed && Step(alpha, g, z).primed
    ensures Step(alpha, g, z).value == Step(alpha, e, x).value + c * Step(alpha, f, y).value
  {
    if e.primed {
      Distribute(1.0 - alpha, e.value, c * f.value);
      Distribute(alpha, x, c * y);
      Distribute(c, (1.0 - alpha) * f.value, alpha * y);
      assert (1.0 - alpha) * (c * f.value) == c * ((1.0 - alpha) * f.value) && alpha * (c * y) == c * (alpha * y);
    }
  }

  lemma WeightDecays(alpha: real, n: nat, i: nat, x: real)
    requires i < n
    ensures Weight(alpha, n + 1, i) * x == (1.0 - alpha) * (Weight(alpha, n, i) * x)
  {
    var c, p := 1.0 - alpha, Pow(1.0 - alpha, n - 1 - i);
    assert Pow(c, n - i) == c * p;
    assert alpha * (c * p) == c * (alpha * p);
    assert (c * p) * x == c * (p * x) && (c * (alpha * p)) * x == c * ((alpha * p) * x);
  }

  /** One more sample: the old shares all shrink by `1 - alpha` and the new sample gets `alpha`. */
  lemma SharesExtend(alpha: real, raws: seq<real>, x: real)
    requires raws != []
    ensures var shares := Shares(alpha, raws + [x]);
            && shares == shares[..|raws|] + [alpha * x]
            && IsScaled(shares[..|raws|], Shares(alpha, raws), 1.0 - alpha)
  {
    var n := |raws|;
    var shares := Shares(alpha, raws + [x]);
    forall i | 0 <= i < n
      ensures shares[i] == (1.0 - alpha) * Shares(alpha, raws)[i]
    {
      WeightDecays(alpha, n, i, raws[i]);
    }
    assert Pow(1.0 - alpha, 0) == 1.0;
    assert shares[n] == alpha * x;
  }

  lemma RunSnoc(alpha: real, e: Ema, raws: seq<real>, x: real)
    ensures Run(alpha, e, raws + [x]) == Step(alpha, Run(alpha, e, raws), x)
  {
    assert (raws + [x])[..|raws|] == raws;
  }

  lemma FirstShare(alpha: real, x: real)
    ensures Shares(alpha, [x]) == [x] && Run(alpha, FRESH, [x]) == Ema(x, true)
  {
    assert Weight(alpha, 1, 0) == 1.0;
  }

  /** A freshly started filter is the explicitly weighted sum of everything it was fed. */
  lemma {:induction false} RunIsWeightedSum(alpha: real, raws: seq<real>)
    requires raws != []
    ensures Run(alpha, FRESH, raws) == Ema(RealSum(Shares(alpha, raws)), true)
  {
    hide RealSum, Run, Shares, IsScaled;
    var n := |raws| - 1;
    assert raws == raws[..n] + [raws[n]];
    if n == 0 {
      FirstShare(alpha, raws[0]);
      RealSumOfOne(raws[0]);
    } else {
      RunIsWeightedSum(alpha, raws[..n]);
      WeightedSumExtends(alpha, raws[..n], raws[n]);
    }
  }

  lemma WeightedSumExtends(alpha: real, raws: seq<real>, x: real)
    requires raws != []
    requires Run(alpha, FRESH, raws) == Ema(RealSum(Shares(alpha, raws)), true)
    ensures Run(alpha, FRESH, raws + [x]) == Ema(RealSum(Shares(alpha, raws + [x])), true)
  {
    hide RealSum, Run, Shares, IsScaled;
    var shares := Shares(alpha, raws + [x]);
    SharesExtend(alpha, raws, x);
    RealSumScales(shares[..|raws|], Shares(alpha, raws), 1.0 - alpha);
    RealSumSnoc(shares[..|raws|], alpha * x);
    RunSnoc(alpha, FRESH, raws, x);
  }

  /** The weights are those of a convex combination: none is negative and they add up to one. */
  lemma {:induction false} WeightsAreConvex(alpha: real, n: nat)
    requires 0.0 <= alpha <= 1.0 && n > 0
    ensures forall i :: 0 <= i < n ==> Weight(alpha, n, i) >= 0.0
    ensures RealSum(seq(n, i requires 0 <= i < n => Weight(alpha, n, i))) == 1.0
  {
    forall i | 0 <= i < n
      ensures Weight(alpha, n, i) >= 0.0
    {
      PowInUnit(1.0 - alpha, n - 1 - i);
      TimesNonNegative(alpha, Pow(1.0 - alpha, n - 1 - i));
    }
    var ones := seq(n, i => 1.0);
    RunIsWeightedSum(alpha, ones);
    RunStaysBetween(alpha, FRESH, ones, 1.0, 1.0);
    assert Shares(alpha, ones) == seq(n, i requires 0 <= i < n => Weight(alpha, n, i));
  }

  lemma {:induction false} PowInUnit(base: real, n: nat)
    requires 0.0 <= base <= 1.0
    ensures 0.0 <= Pow(base, n) <= 1.0
  {
    if n > 0 {
      var p := Pow(base, n - 1);
      PowInUnit(base, n - 1);
      TimesNonNegative(base, p);
      TimesNonNegative(base, 1.0 - p);
      Distribute(base, p, 1.0 - p);
    }
  }

  /** The output never leaves the range of the raw scores (and of the state it started from). */
  lemma {:induction false} RunStaysBetween(alpha: real, e: Ema, raws: seq<real>, lo: real, hi: real)
    requires 0.0 <= alpha <= 1.0
    requires forall i :: 0 <= i < |raws| ==> lo <= raws[i] <= hi
    requires e.primed ==> lo <= e.value <= hi
    ensures raws != [] || e.primed ==> Run(alpha, e, raws).primed && lo <= Run(alpha, e, raws).value <= hi
  {
    hide Step;
    if raws != [] {
      var n := |raws| - 1;
      RunStaysBetween(alpha, e, raws[..n], lo, hi);
      StepBetween(alpha, Run(alpha, e, raws[..n]), raws[n], lo, hi);
    }
  }

  lemma StepBetween(alpha: real, e: Ema, x: real, lo: real, hi: real)
    requires 0.0 <= alpha <= 1.0 && lo <= x <= hi && (e.primed ==> lo <= e.value <= hi)
    ensures Step(alpha, e, x).primed && lo <= Step(alpha, e, x).value <= hi
  {
    if e.primed {
      StepStaysBetween(alpha, e.value, x, lo, hi);
    }
  }

  lemma StepStaysBetween(alpha: real, v: real, x: real, lo: real, hi: real)
    requires 0.0 <= alpha <= 1.0
    requires lo <= v <= hi && lo <= x <= hi
    ensures lo <= (1.0 - alpha) * v + alpha * x <= hi
  {
    var c := 1.0 - alpha;
    TimesNonNegative(c, v - lo);
    TimesNonNegative(alpha, x - lo);
    TimesNonNegative(c, hi - v);
    TimesNonNegative(alpha, hi - x);
    assert c * lo + alpha * lo == lo && c * hi + alpha * hi == hi;
  }

  lemma StepInUnit(alpha: real, e: Ema, x: real)
    requires 0.0 <= alpha <= 1.0 && e.InUnit() && 0.0 <= x <= 1.0
    ensures Step(alpha, e, x).InUnit()
  {
    StepStaysBetween(alpha, e.value, x, 0.0, 1.0);
  }

  /** Two primed filters fed the same scores approach each other by exactly `1 - alpha` a tick. */
  lemma {:induction false} RunsConverge(alpha: real, x: real, y: real, raws: seq<real>)
    ensures Run(alpha, Ema(x, true), raws).primed && Run(alpha, Ema(y, true), raws).primed
    ensures Run(alpha, Ema(x, true), raws).value - Run(alpha, Ema(y, true), raws).value
         == Pow(1.0 - alpha, |raws|) * (x - y)
  {
    hide Run, Step;
    if raws == [] {
      RunEmpty(alpha, Ema(x, true));
      RunEmpty(alpha, Ema(y, true));
    } else {
      var n := |raws| - 1;
      var init := raws[..n];
      RunsConverge(alpha, x, y, init);
      RunSnoc(alpha, Ema(x, true), init, raws[n]);
      RunSnoc(alpha, Ema(y, true), init, raws[n]);
      assert raws == init + [raws[n]];
      GapShrinks(alpha, Run(alpha, Ema(x, true), init), Run(alpha, Ema(y, true), init), raws[n],
                 Pow(1.0 - alpha, n), x - y);
    }
  }

  lemma RunEmpty(alpha: real, e: Ema)
    ensures Run(alpha, e, []) == e
  {
  }

  lemma GapShrinks(alpha: real, u: Ema, v: Ema, raw: real, p: real, gap: real)
    requires u.primed && v.primed && u.value - v.value == p * gap
    ensures Step(alpha, u, raw).primed && Step(alpha, v, raw).primed
    ensures Step(alpha, u, raw).value - Step(alpha, v, raw).value == ((1.0 - alpha) * p) * gap
  {
    assert ((1.0 - alpha) * p) * gap == (1.0 - alpha) * (p * gap);
    assert (1.0 - alpha) * u.value - (1.0 - alpha) * v.value == (1.0 - alpha) * (u.value - v.value);
  }
}
