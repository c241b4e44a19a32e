/**
 The baseline of the softirq sensor over whole runs: it is the first-order filter of the growth of the counters,
 so a lasting change of their rate is a burst for a number of samples that can be said exactly.
 */
module SoftirqBaseline {
  import opened Numeric
  import opened EmaFilter
  import opened Softirqs

  /** How much each total adds to the one before it; a reset adds nothing. */
  function Growths(totals: seq<U64>): seq<real> {
    if |totals| < 2 then [] else
    var n := |totals| - 1;
    Growths(totals[..n]) + [Growth(totals[n - 1], totals[n]) as real]
  }

  /** Growth before the first increase does not count. */
  function FromFirstIncrease(growths: seq<real>): seq<real> {
    if growths != [] && growths[0] <= 0.0 then FromFirstIncrease(growths[1..]) else growths
  }

  lemma {:induction false} FirstIncreaseSnoc(growths: seq<real>, x: real)
    ensures FromFirstIncrease(growths + [x])
         == if FromFirstIncrease(growths) == [] && x <= 0.0 then [] else FromFirstIncrease(growths) + [x]
    decreases |growths|
  {
    if growths == [] {
      assert [x][1..] == [];
    } else if growths[0] <= 0.0 {
      FirstIncreaseSnoc(growths[1..], x);
      assert (growths + [x])[1..] == growths[1..] + [x];
    }
  }

  lemma StepBlends(alpha: real, b: real, x: real)
    ensures Step(alpha, Ema(b, true), x) == Ema((1.0 - alpha) * b + alpha * x, true)
    ensures Step(alpha, FRESH, x) == Ema(x, true)
  {
  }

  /** Over every run, with resets and idle stretches anywhere, the baseline is the filter of the growths. */
  lemma {:induction false} BaselineIsFilter(totals: seq<U64>)
    ensures var s, counted := BurstRun(NO_BURSTS, totals).state, FromFirstIncrease(Growths(totals));
            && s.baselineDelta == EmaFilter.Run(0.2, FRESH, counted).value
            && EmaFilter.Run(0.2, FRESH, counted).primed == (counted != [])
            && (counted != [] <==> s.baselineDelta > 0.0)
            && s.hasPrev == (totals != []) && (totals != [] ==> s.prevTotal == totals[|totals| - 1])
  {
    hide EmaFilter.Run, Step, Growth, Clamp01;
    if totals == [] {
      NothingFiltered();
    } else {
      var n := |totals| - 1;
      var s, init := BurstRun(NO_BURSTS, totals[..n]).state, FromFirstIncrease(Growths(totals[..n]));
      BaselineIsFilter(totals[..n]);
      NothingFiltered();
      if n > 0 {
        var x := Growth(totals[n - 1], totals[n]) as real;
        FirstIncreaseSnoc(Growths(totals[..n]), x);
        RunSnoc(0.2, FRESH, init, x);
        StepBlends(0.2, s.baselineDelta, x);
      }
    }
  }

  lemma NothingFiltered()
    ensures EmaFilter.Run(0.2, FRESH, []) == FRESH && FRESH == Ema(0.0, false)
  {
  }

  /** The last n growths are all the same. */
  predicate EndsAtRate(totals: seq<U64>, n: nat, rate: nat) {
    n < |totals| && forall i :: |totals| - n <= i < |totals| ==> totals[i] == totals[i - 1] + rate
  }

  function BaselineOf(totals: seq<U64>): real {
    BurstRun(NO_BURSTS, totals).state.baselineDelta
  }

  lemma LastGrowth(totals: seq<U64>, rate: nat)
    requires EndsAtRate(totals, 1, rate)
    ensures var n := |totals| - 1;
            var s := BurstRun(NO_BURSTS, totals[..n]).state;
            && s.hasPrev && Growth(s.prevTotal, totals[n]) == rate
            && BurstRun(NO_BURSTS, totals) == BurstStep(s, totals[n])
  {
    hide BurstStep;
    BaselineIsFilter(totals[..|totals| - 1]);
  }

  lemma PowerOfEightTenths(n: nat)
    ensures Pow(0.8, 0) == 1.0 && Pow(0.8, n + 1) == 0.8 * Pow(0.8, n)
  {
  }

  lemma FourFifthsOfTheWay(b: real, d: real, p: real)
    ensures 0.8 * (d + (b - d) * p) + 0.2 * d == d + (b - d) * (0.8 * p)
  {
  }

  /** After n samples at a new rate the baseline has closed all but 0.8^n of its distance to that rate. */
  lemma {:induction false} BaselineFollowsRate(totals: seq<U64>, n: nat, rate: nat)
    requires EndsAtRate(totals, n, rate)
    requires BaselineOf(totals[..|totals| - n]) > 0.0
    ensures var b, d := BaselineOf(totals[..|totals| - n]), rate as real;
            BaselineOf(totals) == d + (b - d) * Pow(0.8, n) && BaselineOf(totals) > 0.0
    decreases n
  {
    hide BurstRun, Pow;
    PowerOfEightTenths(n);
    if n == 0 {
      assert totals[..|totals|] == totals;
    } else {
      var init := totals[..|totals| - 1];
      assert init[..|init| - (n - 1)] == totals[..|totals| - n];
      BaselineFollowsRate(init, n - 1, rate);
      PowerOfEightTenths(n - 1);
      LastGrowth(totals, rate);
      FourFifthsOfTheWay(BaselineOf(totals[..|totals| - n]), rate as real, Pow(0.8, n - 1));
    }
  }

  lemma StaysPositive(totals: seq<U64>, n: nat, rate: nat)
    requires EndsAtRate(totals, n, rate) && BaselineOf(totals[..|totals| - n]) > 0.0
    ensures BaselineOf(totals) > 0.0
  {
    hide BaselineOf, Pow;
    BaselineFollowsRate(totals, n, rate);
  }

  /** The last sample at a rate, with the baseline before it and the one it leaves. */
  lemma LastScore(totals: seq<U64>, n: nat, rate: nat)
    requires n > 0 && EndsAtRate(totals, n, rate) && BaselineOf(totals[..|totals| - n]) > 0.0
    ensures var before, d := BaselineOf(totals[..|totals| - 1]), rate as real;
            var score := BurstRun(NO_BURSTS, totals).softirqs;
            && before > 0.0 && BaselineOf(totals) > 0.0
            && (score == 0.0 <==> 7.0 * d <= 12.0 * before) && (score == 1.0 <==> d >= 16.0 * before)
            && score == Clamp01((d / BaselineOf(totals) - 1.5) / 2.5)
  {
    hide BurstRun, Pow, BurstStep, Clamp01;
    var init := totals[..|totals| - 1];
    assert init[..|init| - (n - 1)] == totals[..|totals| - n];
    StaysPositive(totals, n, rate);
    StaysPositive(init, n - 1, rate);
    LastGrowth(totals, rate);
    var s := BurstRun(NO_BURSTS, init).state;
    BurstThresholds(s, totals[|totals| - 1]);
    ScoreOfRatio(s, totals[|totals| - 1]);
  }

  /**
   A lasting change of rate, exactly. The n-th sample at the new rate scores nothing if and only if twelve times
   what is left of the distance fits five times the rate, and it scores fully if and only if sixteen times what is
   left reaches fifteen times the rate; in between the score is that of the rate over the baseline it has moved.
   */
  lemma {:induction false} ChangeFallsSilentExactly(totals: seq<U64>, n: nat, rate: nat)
    requires n > 0 && EndsAtRate(totals, n, rate) && BaselineOf(totals[..|totals| - n]) > 0.0
    ensures var b, d, score := BaselineOf(totals[..|totals| - n]), rate as real, BurstRun(NO_BURSTS, totals).softirqs;
            && (score == 0.0 <==> 12.0 * ((d - b) * Pow(0.8, n - 1)) <= 5.0 * d)
            && (score == 1.0 <==> 16.0 * ((d - b) * Pow(0.8, n - 1)) >= 15.0 * d)
            && d + (b - d) * Pow(0.8, n) == BaselineOf(totals) > 0.0
            && score == Clamp01((d / BaselineOf(totals) - 1.5) / 2.5)
  {
    hide BurstRun, Pow, BaselineOf, Clamp01;
    var init := totals[..|totals| - 1];
    assert init[..|init| - (n - 1)] == totals[..|totals| - n];
    LastScore(totals, n, rate);
    BaselineFollowsRate(totals, n, rate);
    BaselineFollowsRate(init, n - 1, rate);
    WhatIsLeft(BaselineOf(totals[..|totals| - n]), rate as real, Pow(0.8, n - 1));
  }

  lemma WhatIsLeft(b: real, d: real, p: real)
    ensures 7.0 * d <= 12.0 * (d + (b - d) * p) <==> 12.0 * ((d - b) * p) <= 5.0 * d
    ensures d >= 16.0 * (d + (b - d) * p) <==> 16.0 * ((d - b) * p) >= 15.0 * d
  {
    assert (b - d) * p == -((d - b) * p);
  }

  lemma ScoreOfRatio(s: Bursts, total: U64)
    requires s.hasPrev && s.baselineDelta > 0.0
    ensures var r := BurstStep(s, total);
            && r.state.baselineDelta > 0.0
            && r.softirqs == Clamp01((Growth(s.prevTotal, total) as real / r.state.baselineDelta - 1.5) / 2.5)
  {
  }

  /** A machine that starts to count from nothing takes the first rate it sees for normal. */
  lemma {:induction false} FirstRateIsNormal(totals: seq<U64>, n: nat, rate: nat)
    requires n > 0 && EndsAtRate(totals, n, rate) && BaselineOf(totals[..|totals| - n]) <= 0.0
    ensures BurstRun(NO_BURSTS, totals).softirqs == 0.0 && BaselineOf(totals) == rate as real
    decreases n
  {
    hide BurstRun;
    LastGrowth(totals, rate);
    if n > 1 {
      var init := totals[..|totals| - 1];
      assert init[..|init| - (n - 1)] == totals[..|totals| - n];
      FirstRateIsNormal(init, n - 1, rate);
      if rate > 0 {
        BurstThresholds(BurstRun(NO_BURSTS, init).state, totals[|totals| - 1]);
      }
    }
  }
}
