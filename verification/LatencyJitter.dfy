/**
 Tick-interval dispersion (`src/derived/latency_jitter.cpp`): an eight-slot ring of the last
 intervals, their mean absolute deviation, and the stage's filter.
 */
module LatencyJitter {
  import opened Wrappers
  import opened Numeric
  import opened SignalFrame
  import opened EmaFilter

  const WINDOW := 8

  // ---------------------------------------------------------------- one sample

  function AbsDeviation(xs: seq<int>, mean: real): real {
    if xs == [] then 0.0
    else AbsDeviation(xs[..|xs| - 1], mean) + Distance(xs[|xs| - 1] as real, mean)
  }

  /** The loop adds up in 64 bits. */
  function Mean(w: seq<U64>): real
    requires w != []
  {
    Sum64(w) as real / |w| as real
  }

  /** Mean absolute deviation over mean. */
  function RelativeDeviation(w: seq<U64>): real
    requires w != [] && Mean(w) > 0.0
  {
    AbsDeviation(w, Mean(w)) / |w| as real / Mean(w)
  }

  function TemporalNorm(w: seq<U64>): real {
    if w == [] || Mean(w) <= 0.0 then 0.0 else Clamp01(RelativeDeviation(w) / 0.25)
  }

  function JitterScore(temporal: real, schedulerPressure: real, ioPressure: real): real {
    0.60 * temporal + 0.25 * Clamp01(schedulerPressure) + 0.15 * Clamp01(ioPressure)
  }

  /** What the ring stands for: the retained intervals, oldest first, and the last timestamp. */
  datatype Clock = Clock(window: seq<U64>, last: Option<U64>)

  const NOT_STARTED := Clock([], None)

  function Slide<T>(w: seq<T>, x: T): seq<T> {
    if |w| < WINDOW then w + [x] else w[1..] + [x]
  }

  /** The slots in order of age: a full ring starts at the next slot to be overwritten. */
  function Unroll<T>(slots: seq<T>, count: nat, next: nat): seq<T>
    requires count <= |slots| == WINDOW && next < WINDOW
  {
    if count < WINDOW then slots[..count] else slots[next..] + slots[..next]
  }

  lemma OverwriteSlides<T>(slots: seq<T>, count: nat, next: nat, x: T)
    requires count <= |slots| == WINDOW && next < WINDOW && (count < WINDOW ==> next == count)
    ensures Slide(Unroll(slots, count, next), x)
         == Unroll(slots[next := x], if count < WINDOW then count + 1 else count,
                   if next + 1 == WINDOW then 0 else next + 1)
  {
    if count < WINDOW - 1 || next + 1 == WINDOW {
      assert slots[next := x][..next + 1] == slots[..next] + [x];
    } else {
      assert slots[next := x][next + 1..] + slots[next := x][..next + 1] == (slots[next..] + slots[..next])[1..] + [x];
    }
  }

  function Advance(c: Clock, now: U64): Clock {
    Clock(if c.last.None? then c.window else Slide(c.window, Sub64(now, c.last.value)), Some(now))
  }

  class LatencyJitter {
    const intervals: array<U64>
    var count: nat
    var next: nat
    var prevTimestamp: U64
    var hasPrevTimestamp: bool
    var ema: real
    var hasEma: bool

    ghost predicate Valid()
      reads this
    {
      && intervals.Length == WINDOW && next < WINDOW && count <= WINDOW
      && (count < WINDOW ==> next == count)
      && (!hasPrevTimestamp ==> count == 0)
    }

    ghost function Ring(): Clock
      requires Valid()
      reads this, intervals
    {
      Clock(Unroll(intervals[..], count, next),
            if hasPrevTimestamp then Some(prevTimestamp) else None)
    }

    ghost function Filter(): Ema
      reads this
    {
      Ema(ema, hasEma)
    }

    constructor ()
      ensures Valid() && fresh(intervals)
      ensures Ring() == NOT_STARTED && Filter() == FRESH
    {
      intervals := new U64[WINDOW](i => 0);
      count, next, prevTimestamp, hasPrevTimestamp := 0, 0, 0, false;
      ema, hasEma := 0.0, false;
    }

    /** Overwrites the oldest slot. */
    method Push(interval: U64)
      requires Valid() && hasPrevTimestamp
      modifies this`count, this`next, intervals
      ensures Valid()
      ensures Ring() == old(Ring()).(window := Slide(old(Ring()).window, interval))
      ensures count > 0
    {
      ghost var slots, before := intervals[..], Ring();
      ghost var count' := if count < WINDOW then count + 1 else count;
      ghost var next' := if next + 1 == WINDOW then 0 else next + 1;
      OverwriteSlides(slots, count, next, interval);
      assert Unroll(slots[next := interval], count', next') == Slide(before.window, interval);
      hide Slide, Unroll;
      intervals[next] := interval;
      assert intervals[..] == slots[next := interval];
      next := (next + 1) % 8;
      assert next == next';
      if count < WINDOW {
        count := count + 1;
      }
      assert Ring().window == Unroll(intervals[..], count', next');
    }

    /** The first accumulator loop, in storage order. */
    method SumIntervals() returns (sum: U64)
      requires Valid()
      ensures sum == Sum64(intervals[..count])
    {
      sum := 0;
      var i := 0;
      while i < count
        invariant i <= count
        invariant sum == Sum64(intervals[..i])
      {
        Sum64Snoc(intervals[..i], intervals[i]);
        assert intervals[..i + 1] == intervals[..i] + [intervals[i]];
        sum := Add64(sum, intervals[i]);
        i := i + 1;
      }
    }

    /** The second one. */
    method SumDeviations(mean: real) returns (absDevSum: real)
      requires Valid()
      ensures absDevSum == AbsDeviation(intervals[..count], mean)
    {
      absDevSum := 0.0;
      var i := 0;
      while i < count
        invariant i <= count
        invariant absDevSum == AbsDeviation(intervals[..i], mean)
      {
        DeviationSnoc(intervals[..i], intervals[i], mean);
        assert intervals[..i + 1] == intervals[..i] + [intervals[i]];
        var deviation := intervals[i] as real - mean;
        absDevSum := absDevSum + if deviation < 0.0 then -deviation else deviation;
        i := i + 1;
      }
    }

    method Dispersion() returns (temporalJitterNorm: real)
      requires Valid() && count > 0
      ensures temporalJitterNorm == TemporalNorm(Ring().window)
    {
      temporalJitterNorm := 0.0;
      var sum := SumIntervals();
      RingIsRotation();
      var mean := sum as real / count as real;
      if mean > 0.0 {
        var absDevSum := SumDeviations(mean);
        DeviationOfRotation(intervals[..count], Ring().window, mean, if count < WINDOW then 0 else next);
        var mad := absDevSum / count as real;
        temporalJitterNorm := Clamp01((mad / mean) / 0.25);
      }
    }

    /** The occupied slots are the window, rotated by the write position. */
    lemma RingIsRotation()
      requires Valid()
      ensures var k := if count < WINDOW then 0 else next;
              Ring().window == intervals[..count][k..] + intervals[..count][..k]
      ensures |Ring().window| == count && Sum64(Ring().window) == Sum64(intervals[..count])
    {
      var k := if count < WINDOW then 0 else next;
      var slots := intervals[..count];
      assert intervals[..][..count] == slots;
      Sum64Append(slots[..k], slots[k..]);
      Sum64Append(slots[k..], slots[..k]);
      assert slots == slots[..k] + slots[k..];
    }

    lemma NothingMeasuredYet()
      requires Valid()
      ensures !hasPrevTimestamp ==> TemporalNorm(Ring().window) == 0.0
    {
    }

    method Sample(frame: SignalFrame)
      requires Valid()
      modifies this, intervals, frame
      ensures Valid() && Ring() == Advance(old(Ring()), old(frame.monotonicNs))
      ensures Filter() == Step(0.30, old(Filter()), JitterScore(TemporalNorm(Ring().window),
                               old(frame.schedulerPressure), old(frame.ioPressure)))
      ensures frame.Value() == old(frame.Value()).(latencyJitter := Clamp01(ema))
    {
      hide Slide, TemporalNorm, Unroll;
      NothingMeasuredYet();
      var temporalJitterNorm := 0.0;
      if hasPrevTimestamp {
        Push(Sub64(frame.monotonicNs, prevTimestamp));
        temporalJitterNorm := Dispersion();
      }
      prevTimestamp := frame.monotonicNs;
      hasPrevTimestamp := true;

      var schedNorm := Clamp01(frame.schedulerPressure);
      var ioNorm := Clamp01(frame.ioPressure);
      var rawScore := 0.60 * temporalJitterNorm + 0.25 * schedNorm + 0.15 * ioNorm;
      if !hasEma {
        ema := rawScore;
        hasEma := true;
      } else {
        ema := (1.0 - 0.30) * ema + 0.30 * rawScore;
      }
      frame.latencyJitter := Clamp01(ema);
    }
  }

  // ------------------------------------------------- what the ring holds after n samples

  function Track(stamps: seq<U64>): Clock {
    if stamps == [] then NOT_STARTED else Advance(Track(stamps[..|stamps| - 1]), stamps[|stamps| - 1])
  }

  function Intervals(stamps: seq<U64>): seq<U64> {
    if |stamps| < 2 then []
    else seq(|stamps| - 1, i requires 0 <= i < |stamps| - 1 => Sub64(stamps[i + 1], stamps[i]))
  }

  /** How many intervals n samples leave behind. */
  function Retained(n: nat): nat
    requires n > 0
  {
    if n - 1 < WINDOW then n - 1 else WINDOW
  }

  ghost predicate NonDecreasing(stamps: seq<U64>) {
    forall i, j :: 0 <= i <= j < |stamps| ==> stamps[i] <= stamps[j]
  }

  /** The last eight elements, or all of them. */
  function LastWindow<T>(xs: seq<T>): (w: seq<T>)
    ensures |w| == if |xs| < WINDOW then |xs| else WINDOW
  {
    if |xs| < WINDOW then xs else xs[|xs| - WINDOW..]
  }

  lemma SlideKeepsLast<T>(xs: seq<T>, x: T)
    ensures Slide(LastWindow(xs), x) == LastWindow(xs + [x])
  {
  }

  ghost predicate AreDifferences(diffs: seq<U64>, stamps: seq<U64>) {
    && |stamps| == |diffs| + 1
    && forall i {:trigger diffs[i]} :: 0 <= i < |diffs| ==> diffs[i] == Sub64(stamps[i + 1], stamps[i])
  }

  lemma IntervalsAreDifferences(stamps: seq<U64>)
    requires stamps != []
    ensures AreDifferences(Intervals(stamps), stamps)
  {
  }

  lemma IntervalsSnoc(stamps: seq<U64>, now: U64)
    requires stamps != []
    ensures Intervals(stamps + [now]) == Intervals(stamps) + [Sub64(now, stamps[|stamps| - 1])]
  {
    hide Intervals, Sub64;
    IntervalsAreDifferences(stamps);
    IntervalsAreDifferences(stamps + [now]);
    DifferencesAreUnique(Intervals(stamps + [now]), Intervals(stamps) + [Sub64(now, stamps[|stamps| - 1])],
                         stamps + [now]);
  }

  lemma DifferencesAreUnique(a: seq<U64>, b: seq<U64>, stamps: seq<U64>)
    requires AreDifferences(a, stamps) && AreDifferences(b, stamps)
    ensures a == b
  {
    hide Sub64;
  }

  lemma FirstStamp(now: U64)
    ensures Intervals([now]) == [] && LastWindow<U64>([]) == []
    ensures Track([now]) == Clock([], Some(now))
  {
    assert Track([now][..0]) == NOT_STARTED;
  }

  /** After n samples the ring holds exactly the last min(n - 1, 8) intervals, in order. */
  lemma {:induction false} RingHoldsLastIntervals(stamps: seq<U64>)
    requires stamps != []
    ensures |Intervals(stamps)| == |stamps| - 1
    ensures Track(stamps) == Clock(LastWindow(Intervals(stamps)), Some(stamps[|stamps| - 1]))
    ensures |Track(stamps).window| == if |stamps| <= 9 then |stamps| - 1 else 8
  {
    hide Slide, Intervals, LastWindow;
    var n := |stamps| - 1;
    assert stamps == stamps[..n] + [stamps[n]];
    if n > 0 {
      RingHoldsLastIntervals(stamps[..n]);
      IntervalsSnoc(stamps[..n], stamps[n]);
      SlideKeepsLast(Intervals(stamps[..n]), Sub64(stamps[n], stamps[n - 1]));
    } else {
      FirstStamp(stamps[0]);
    }
  }

  /** The stretch of timestamps the retained intervals lie between. */
  function Spanned(stamps: seq<U64>): seq<U64>
    requires stamps != []
  {
    stamps[|stamps| - 1 - Retained(|stamps|)..]
  }

  lemma SuffixOfDifferences(diffs: seq<U64>, stamps: seq<U64>, k: nat)
    requires AreDifferences(diffs, stamps) && k <= |diffs|
    ensures AreDifferences(diffs[k..], stamps[k..])
  {
  }

  lemma {:induction false} WindowIsDifferences(stamps: seq<U64>)
    requires stamps != []
    ensures |Track(stamps).window| == Retained(|stamps|)
    ensures AreDifferences(Track(stamps).window, Spanned(stamps))
  {
    hide Track, Intervals, AreDifferences;
    RingHoldsLastIntervals(stamps);
    IntervalsAreDifferences(stamps);
    SuffixOfDifferences(Intervals(stamps), stamps, |stamps| - 1 - Retained(|stamps|));
  }

  /**
   The loop's running sum telescopes: whatever the timestamps, it is the 64-bit difference between
   now and the oldest retained timestamp.
   */
  lemma {:induction false} WindowSumTelescopes(stamps: seq<U64>)
    requires stamps != []
    ensures Sum64(Track(stamps).window) == Sub64(stamps[|stamps| - 1], stamps[|stamps| - 1 - Retained(|stamps|)])
  {
    hide Track, AreDifferences, NonDecreasing, Sum64;
    WindowIsDifferences(stamps);
    DifferencesTelescope(Track(stamps).window, Spanned(stamps));
  }

  /** On a clock that never steps back that sum is exact: no addition in the loop wraps. */
  lemma {:induction false} WindowSumNeverWraps(stamps: seq<U64>)
    requires stamps != [] && NonDecreasing(stamps)
    ensures Sum(Track(stamps).window) == stamps[|stamps| - 1] as int - stamps[|stamps| - 1 - Retained(|stamps|)]
    ensures Unwrapped(Track(stamps).window)
  {
    assert NonDecreasing(Spanned(stamps));
    hide Track, AreDifferences, NonDecreasing, Sum;
    WindowIsDifferences(stamps);
    DifferencesTelescope(Track(stamps).window, Spanned(stamps));
  }

  lemma {:induction false} DifferencesTelescope(diffs: seq<U64>, stamps: seq<U64>)
    requires AreDifferences(diffs, stamps)
    ensures |stamps| == |diffs| + 1 && Sum64(diffs) == Sub64(stamps[|diffs|], stamps[0])
    ensures NonDecreasing(stamps) ==> Sum(diffs) == stamps[|diffs|] as int - stamps[0]
  {
    if diffs != [] {
      var n := |diffs| - 1;
      assert AreDifferences(diffs[..n], stamps[..n + 1]);
      DifferencesTelescope(diffs[..n], stamps[..n + 1]);
      TelescopeStep(stamps[0], stamps[n], stamps[n + 1]);
    }
  }

  lemma TelescopeStep(a: U64, b: U64, c: U64)
    ensures Add64(Sub64(b, a), Sub64(c, b)) == Sub64(c, a)
  {
  }

  // ------------------------------------------------------------ dispersion arithmetic

  lemma DeviationSnoc(xs: seq<int>, x: int, mean: real)
    ensures AbsDeviation(xs + [x], mean) == AbsDeviation(xs, mean) + Distance(x as real, mean)
  {
    assert (xs + [x])[..|xs|] == xs;
  }

  lemma {:induction false} DeviationAppend(xs: seq<int>, ys: seq<int>, mean: real)
    ensures AbsDeviation(xs + ys, mean) == AbsDeviation(xs, mean) + AbsDeviation(ys, mean)
  {
    if ys == [] {
      assert xs + ys == xs;
    } else {
      DeviationAppend(xs, ys[..|ys| - 1], mean);
      assert (xs + ys)[..|xs + ys| - 1] == xs + ys[..|ys| - 1];
    }
  }

  lemma {:induction false} DeviationOfRotation(xs: seq<int>, ys: seq<int>, mean: real, k: nat)
    requires k <= |xs| && ys == xs[k..] + xs[..k]
    ensures AbsDeviation(ys, mean) == AbsDeviation(xs, mean)
  {
    DeviationAppend(xs[..k], xs[k..], mean);
    DeviationAppend(xs[k..], xs[..k], mean);
    assert xs == xs[..k] + xs[k..];
  }

  /** The measure does not depend on where in the ring the window starts. */
  lemma {:induction false} TemporalNormIgnoresRotation(w: seq<U64>, k: nat)
    requires k <= |w|
    ensures TemporalNorm(w[k..] + w[..k]) == TemporalNorm(w)
  {
    Sum64Append(w[..k], w[k..]);
    Sum64Append(w[k..], w[..k]);
    assert w == w[..k] + w[k..];
    if w != [] {
      DeviationOfRotation(w, w[k..] + w[..k], Mean(w), k);
    }
  }

  /** The part of the deviation that lies above the mean. */
  function Excess(xs: seq<int>, mean: real): real {
    if xs == [] then 0.0
    else Excess(xs[..|xs| - 1], mean) + if xs[|xs| - 1] as real > mean then xs[|xs| - 1] as real - mean else 0.0
  }

  lemma {:induction false} DeviationFromExcess(xs: seq<int>, mean: real)
    ensures AbsDeviation(xs, mean) == 2.0 * Excess(xs, mean) - (Sum(xs) as real - |xs| as real * mean)
  {
    hide AbsDeviation, Excess, Sum, Distance;
    if xs == [] {
      NothingDeviates(mean);
    } else {
      var n := |xs| - 1;
      DeviationFromExcess(xs[..n], mean);
      OneMoreDeviation(xs, mean);
      OneMoreMean(n, mean);
      DeviationIsTwiceAbove(xs[n] as real, mean);
    }
  }

  lemma NothingDeviates(mean: real)
    ensures AbsDeviation([], mean) == 0.0 && Excess([], mean) == 0.0 && Sum([]) == 0
  {
  }

  lemma OneMoreDeviation(xs: seq<int>, mean: real)
    requires xs != []
    ensures var init, x := xs[..|xs| - 1], xs[|xs| - 1] as real;
            && AbsDeviation(xs, mean) == AbsDeviation(init, mean) + Distance(x, mean)
            && Excess(xs, mean) == Excess(init, mean) + (if x > mean then x - mean else 0.0)
            && Sum(xs) as real == Sum(init) as real + x
  {
    hide Distance;
  }

  lemma DeviationIsTwiceAbove(x: real, mean: real)
    ensures Distance(x, mean) == 2.0 * (if x > mean then x - mean else 0.0) - (x - mean)
  {
  }

  lemma OneMoreMean(n: nat, mean: real)
    ensures (n + 1) as real * mean == n as real * mean + mean
  {
  }

  lemma {:induction false} ExcessBound(xs: seq<int>, mean: real)
    requires mean >= 0.0
    requires forall i :: 0 <= i < |xs| ==> xs[i] >= 0
    ensures Sum(xs) >= 0
    ensures 0.0 <= Excess(xs, mean) <= if Sum(xs) as real > mean then Sum(xs) as real - mean else 0.0
  {
    if xs != [] {
      ExcessBound(xs[..|xs| - 1], mean);
    }
  }

  /** The retained intervals add up without wrapping; `WindowSumTelescopes` says when they do. */
  ghost predicate Unwrapped(w: seq<U64>) {
    Sum(w) <= U64_MAX
  }

  lemma MeanIsExact(w: seq<U64>)
    requires w != [] && Unwrapped(w)
    ensures Sum(w) as real == |w| as real * Mean(w) && Mean(w) >= 0.0
  {
    hide Sum, Sum64;
    SumNonNegative(w);
    Sum64IsModular(w);
    RatioThreshold(Sum(w) as real, |w| as real, 0.0);
  }

  /** The deviations of n intervals add up to at most 2(n - 1) means. */
  lemma {:induction false} DeviationBound(w: seq<U64>)
    requires w != [] && Unwrapped(w)
    ensures 0.0 <= AbsDeviation(w, Mean(w)) <= 2.0 * ((|w| - 1) as real * Mean(w))
  {
    hide AbsDeviation, Excess, Mean, Sum;
    MeanIsExact(w);
    DeviationFromExcess(w, Mean(w));
    ExcessBound(w, Mean(w));
    TwiceExcess(Excess(w, Mean(w)), Sum(w) as real, |w| as real, Mean(w));
  }

  lemma TwiceExcess(excess: real, sum: real, n: real, m: real)
    requires n >= 1.0 && m >= 0.0 && sum == n * m
    requires 0.0 <= excess <= if sum > m then sum - m else 0.0
    ensures 0.0 <= 2.0 * excess - (sum - n * m) <= 2.0 * ((n - 1.0) * m)
  {
    TimesNonNegative(n - 1.0, m);
  }

  /** With at most eight retained intervals the relative deviation never exceeds 7/4. */
  lemma {:induction false} RelativeDeviationBound(w: seq<U64>)
    requires w != [] && |w| <= WINDOW && Unwrapped(w) && Mean(w) > 0.0
    ensures 0.0 <= RelativeDeviation(w) <= 7.0 / 4.0
  {
    hide AbsDeviation, Mean, Sum;
    DeviationBound(w);
    RatioBound(AbsDeviation(w, Mean(w)), |w| as real, Mean(w));
  }

  lemma RatioBound(d: real, n: real, m: real)
    requires 1.0 <= n <= 8.0 && m > 0.0 && 0.0 <= d <= 2.0 * ((n - 1.0) * m)
    ensures 0.0 <= d / n / m <= 7.0 / 4.0
  {
    TimesNonNegative(8.0 - n, m);
    assert 2.0 * ((n - 1.0) * m) <= (7.0 / 4.0 * m) * n;
    RatioThreshold(d, n, 0.0);
    RatioThreshold(d, n, 7.0 / 4.0 * m);
    RatioThreshold(d / n, m, 0.0);
    RatioThreshold(d / n, m, 7.0 / 4.0);
  }

  // ------------------------------------------------------ intervals within a spread

  ghost predicate Within(xs: seq<int>, lo: nat, hi: nat) {
    forall i :: 0 <= i < |xs| ==> lo <= xs[i] <= hi
  }

  /** One summand of the excess lies below the chord over the spread. */
  lemma ChordAbove(x: real, mean: real, lo: real, hi: real)
    requires lo <= x <= hi && lo <= mean <= hi
    ensures (if x > mean then x - mean else 0.0) * (hi - lo) <= (x - lo) * (hi - mean)
  {
    if x > mean {
      TimesNonNegative(hi - x, mean - lo);
      assert (x - lo) * (hi - mean) - (x - mean) * (hi - lo) == (hi - x) * (mean - lo);
    } else {
      TimesNonNegative(x - lo, hi - mean);
    }
  }

  lemma {:induction false} ExcessBelowChords(xs: seq<int>, mean: real, lo: nat, hi: nat)
    requires Within(xs, lo, hi) && lo as real <= mean <= hi as real
    ensures Excess(xs, mean) * (hi - lo) as real
         <= (Sum(xs) as real - |xs| as real * lo as real) * (hi as real - mean)
  {
    hide Excess, Sum, AbsDeviation;
    if xs == [] {
      NothingDeviates(mean);
    } else {
      var n := |xs| - 1;
      ExcessBelowChords(xs[..n], mean, lo, hi);
      OneMoreDeviation(xs, mean);
      OneMoreMean(n, lo as real);
      var x, above := xs[n] as real, if xs[n] as real > mean then xs[n] as real - mean else 0.0;
      ChordAbove(x, mean, lo as real, hi as real);
      AddChord(Excess(xs[..n], mean), above, hi as real - lo as real,
               Sum(xs[..n]) as real - n as real * lo as real, x - lo as real, hi as real - mean);
    }
  }

  lemma AddChord(e: real, a: real, d: real, s: real, x: real, h: real)
    requires e * d <= s * h && a * d <= x * h
    ensures (e + a) * d <= (s + x) * h
  {
  }

  /** Deviations of intervals within a spread add up to at most half the spread each. */
  lemma {:induction false} DeviationInSpread(w: seq<U64>, lo: nat, hi: nat)
    requires w != [] && Unwrapped(w) && Within(w, lo, hi) && lo < hi
    ensures lo as real <= Mean(w) <= hi as real
    ensures 2.0 * AbsDeviation(w, Mean(w)) <= |w| as real * (hi - lo) as real
  {
    hide AbsDeviation, Excess, Mean, Sum, Within;
    var n, m := |w| as real, Mean(w);
    MeanIsExact(w);
    SumWithin(w, lo, hi);
    MeanWithin(n, m, lo as real, hi as real);
    DeviationFromExcess(w, m);
    ExcessBelowChords(w, m, lo, hi);
    HalfTheSpread(Excess(w, m), n, m, lo as real, hi as real);
  }

  function Copies(n: nat, x: real): real {
    n as real * x
  }

  lemma OneMoreWithin(n: nat, sum: real, x: real, lo: real, hi: real)
    requires Copies(n, lo) <= sum <= Copies(n, hi) && lo <= x <= hi
    ensures Copies(n + 1, lo) <= sum + x <= Copies(n + 1, hi)
  {
    OneMoreMean(n, lo);
    OneMoreMean(n, hi);
  }

  lemma NoCopies(x: real)
    ensures Copies(0, x) == 0.0
  {
  }

  lemma {:induction false} SumBetweenCopies(xs: seq<int>, lo: nat, hi: nat)
    requires Within(xs, lo, hi)
    ensures Copies(|xs|, lo as real) <= Sum(xs) as real <= Copies(|xs|, hi as real)
  {
    hide Sum, Copies;
    if xs == [] {
      NothingDeviates(0.0);
      NoCopies(lo as real);
      NoCopies(hi as real);
    } else {
      var n := |xs| - 1;
      SumBetweenCopies(xs[..n], lo, hi);
      assert xs == xs[..n] + [xs[n]];
      SumSnoc(xs[..n], xs[n]);
      OneMoreWithin(n, Sum(xs[..n]) as real, xs[n] as real, lo as real, hi as real);
    }
  }

  lemma SumWithin(xs: seq<int>, lo: nat, hi: nat)
    requires Within(xs, lo, hi)
    ensures |xs| as real * lo as real <= Sum(xs) as real <= |xs| as real * hi as real
  {
    hide Sum, Within;
    SumBetweenCopies(xs, lo, hi);
  }

  lemma MeanWithin(n: real, m: real, lo: real, hi: real)
    requires n > 0.0 && n * lo <= n * m <= n * hi
    ensures lo <= m <= hi
  {
    ScaleOrder(lo, m, n);
    ScaleOrder(m, hi, n);
  }

  lemma HalfTheSpread(excess: real, n: real, m: real, lo: real, hi: real)
    requires lo <= m <= hi && lo < hi && n >= 1.0
    requires excess * (hi - lo) <= (n * m - n * lo) * (hi - m)
    ensures 4.0 * excess <= n * (hi - lo)
  {
    var d, a, b := hi - lo, m - lo, hi - m;
    assert n * m - n * lo == n * a && (n * a) * b == n * (a * b);
    GeometricBelowArithmetic(a, b);
    ScaleOrder(4.0 * (a * b), d * d, n);
    assert n * (d * d) == (n * d) * d && (4.0 * excess) * d == 4.0 * (excess * d);
    ScaleOrder(4.0 * excess, n * d, d);
  }

  lemma GeometricBelowArithmetic(a: real, b: real)
    ensures 4.0 * (a * b) <= (a + b) * (a + b)
  {
    assert (a + b) * (a + b) - 4.0 * (a * b) == (a - b) * (a - b);
    Square(a - b);
  }

  lemma Square(x: real)
    ensures x * x >= 0.0
  {
    if x >= 0.0 {
      TimesNonNegative(x, x);
    } else {
      TimesNonNegative(-x, -x);
      assert x * x == (-x) * (-x);
    }
  }

  /** Intervals that differ by at most a fraction of the shortest one give at most twice that fraction. */
  lemma {:induction false} TemporalNormInSpread(w: seq<U64>, lo: nat, hi: nat)
    requires Unwrapped(w) && Within(w, lo, hi) && 0 < lo < hi
    ensures 0.0 <= TemporalNorm(w) <= 2.0 * ((hi - lo) as real / lo as real)
  {
    hide AbsDeviation, Mean, Sum;
    var spread := (hi - lo) as real;
    RatioThreshold(spread, lo as real, 0.0);
    if w != [] {
      var n, m, d := |w| as real, Mean(w), AbsDeviation(w, Mean(w));
      DeviationInSpread(w, lo, hi);
      RatioThreshold(2.0 * d, n, spread);
      assert 2.0 * (d / n) == 2.0 * d / n;
      RelativeSpread(d / n, m, spread, lo as real);
    }
  }

  lemma RelativeSpread(d: real, m: real, spread: real, lo: real)
    requires 2.0 * d <= spread && 0.0 < lo <= m && spread >= 0.0
    ensures d / m <= 0.5 * (spread / lo)
  {
    var q := spread / lo;
    assert q * lo == spread;
    RatioThreshold(spread, lo, 0.0);
    TimesNonNegative(q, m - lo);
    assert 0.5 * q * m == 0.5 * (q * lo) + 0.5 * (q * (m - lo));
    RatioThreshold(d, m, 0.5 * q);
  }

  lemma {:induction false} ExcessOfOne(xs: seq<int>, mean: real, i: nat)
    requires i < |xs|
    ensures Excess(xs, mean) >= xs[i] as real - mean && Excess(xs, mean) >= 0.0
  {
    var n := |xs| - 1;
    ExcessNonNegative(xs[..n], mean);
    if i < n {
      ExcessOfOne(xs[..n], mean, i);
    }
  }

  lemma {:induction false} ExcessNonNegative(xs: seq<int>, mean: real)
    ensures Excess(xs, mean) >= 0.0
  {
    if xs != [] {
      ExcessNonNegative(xs[..|xs| - 1], mean);
    }
  }

  /** One interval of twice the mean saturates the temporal term, wherever in the ring it is. */
  lemma {:induction false} OutlierSaturates(w: seq<U64>, i: nat)
    requires i < |w| <= WINDOW && Unwrapped(w) && Mean(w) > 0.0 && w[i] as real >= 2.0 * Mean(w)
    ensures TemporalNorm(w) == 1.0
  {
    hide AbsDeviation, Excess, Mean, Sum;
    var n, m := |w| as real, Mean(w);
    MeanIsExact(w);
    DeviationFromExcess(w, m);
    ExcessOfOne(w, m, i);
    QuarterOfMean(AbsDeviation(w, m), n, m);
  }

  lemma QuarterOfMean(d: real, n: real, m: real)
    requires 1.0 <= n <= 8.0 && m > 0.0 && d >= 2.0 * m
    ensures d / n / m >= 0.25
  {
    TimesNonNegative(8.0 - n, m);
    RatioThreshold(d, n, 0.25 * m);
    RatioThreshold(d / n, m, 0.25);
  }

  function Gap(a: int, b: int): nat {
    if a >= b then a - b else b - a
  }

  /** How far each interval, n times, is from the sum of them all: the deviations in whole numbers. */
  function WholeDeviations(xs: seq<int>, n: nat, total: int): (gaps: seq<int>)
    ensures |gaps| == |xs|
  {
    if xs == [] then [] else WholeDeviations(xs[..|xs| - 1], n, total) + [Gap(n * xs[|xs| - 1], total)]
  }

  lemma WholeDistance(x: int, n: nat, m: real, total: int)
    requires n as real * m == total as real
    ensures n as real * Distance(x as real, m) == Gap(n * x, total) as real
  {
    assert n as real * (x as real - m) == (n * x) as real - total as real;
  }

  lemma {:induction false} DeviationInWholes(xs: seq<int>, n: nat, m: real, total: int)
    requires n as real * m == total as real
    ensures n as real * AbsDeviation(xs, m) == Sum(WholeDeviations(xs, n, total)) as real
  {
    hide Distance, Gap, Sum;
    if xs == [] {
      NothingDeviates(m);
    } else {
      var init, x := xs[..|xs| - 1], xs[|xs| - 1];
      DeviationInWholes(init, n, m, total);
      WholeDistance(x, n, m, total);
      SumSnoc(WholeDeviations(init, n, total), Gap(n * x, total));
      Distribute(n as real, AbsDeviation(init, m), Distance(x as real, m));
    }
  }

  lemma SumSnoc(xs: seq<int>, x: int)
    ensures Sum(xs + [x]) == Sum(xs) + x
  {
    assert (xs + [x])[..|xs|] == xs;
  }

  /** The temporal term of any window in whole numbers: four times the deviations over n times the span. */
  lemma {:induction false} TemporalNormInWholes(w: seq<U64>)
    requires w != [] && Unwrapped(w) && Sum(w) > 0
    ensures var n, span := |w|, Sum(w);
            && (n * span) as real > 0.0
            && TemporalNorm(w) == Clamp01(4.0 * (Sum(WholeDeviations(w, n, span)) as real / (n * span) as real))
  {
    hide AbsDeviation, Mean, Sum, WholeDeviations, Clamp01;
    var n, m := |w| as real, Mean(w);
    MeanIsExact(w);
    ScaleOrder(m, 0.0, n);
    DeviationInWholes(w, |w|, m, Sum(w));
    WholeRatio(AbsDeviation(w, m), n, m, Sum(WholeDeviations(w, |w|, Sum(w))) as real, (|w| * Sum(w)) as real);
  }

  lemma WholeRatio(d: real, n: real, m: real, wholes: real, product: real)
    requires n >= 1.0 && m > 0.0 && n * d == wholes && product == n * (n * m)
    ensures product > 0.0 && d / n / m == wholes / product && d / n / m / 0.25 == 4.0 * (wholes / product)
  {
    assert n * m > 0.0 && n * (n * m) > 0.0;
    var q := d / n / m;
    assert d / n == q * m;
    assert d == (q * m) * n;
    assert wholes == q * product by {
      assert n * ((q * m) * n) == q * (n * (n * m));
    }
    assert wholes / product == q;
  }

  lemma {:induction false} NoDeviation(xs: seq<int>, mean: real)
    ensures AbsDeviation(xs, mean) >= 0.0
    ensures AbsDeviation(xs, mean) == 0.0 <==> forall i :: 0 <= i < |xs| ==> xs[i] as real == mean
  {
    if xs != [] {
      var n := |xs| - 1;
      NoDeviation(xs[..n], mean);
      assert forall i :: 0 <= i < n ==> xs[..n][i] == xs[i];
    }
  }

  /** The temporal term vanishes exactly when all retained intervals are equal. */
  lemma {:induction false} TemporalNormZeroIffEqual(w: seq<U64>)
    requires Unwrapped(w)
    ensures TemporalNorm(w) == 0.0 <==> forall i, j :: 0 <= i < |w| && 0 <= j < |w| ==> w[i] == w[j]
  {
    hide AbsDeviation, Mean, Sum;
    if w != [] {
      EqualIffMean(w);
      NoDeviation(w, Mean(w));
      if Mean(w) > 0.0 {
        RatioThreshold(AbsDeviation(w, Mean(w)), |w| as real, 0.0);
        RatioThreshold(AbsDeviation(w, Mean(w)) / |w| as real, Mean(w), 0.0);
      }
    }
  }

  lemma MeanOfEqual(w: seq<U64>)
    requires w != [] && Unwrapped(w) && Within(w, w[0], w[0])
    ensures Mean(w) == w[0] as real
  {
    hide Mean, Sum, Within;
    MeanIsExact(w);
    SumWithin(w, w[0], w[0]);
    MeanWithin(|w| as real, Mean(w), w[0] as real, w[0] as real);
  }

  lemma NoMeanNoIntervals(w: seq<U64>)
    requires w != [] && Unwrapped(w)
    ensures Mean(w) >= 0.0
    ensures Mean(w) == 0.0 ==> forall i :: 0 <= i < |w| ==> w[i] == 0
  {
    hide Mean, Sum;
    MeanIsExact(w);
    SumNonNegative(w);
  }

  /** All retained intervals are equal exactly when each is the mean; a mean of zero leaves only zeros. */
  lemma EqualIffMean(w: seq<U64>)
    requires w != [] && Unwrapped(w)
    ensures (forall i, j :: 0 <= i < |w| && 0 <= j < |w| ==> w[i] == w[j])
       <==> (forall i :: 0 <= i < |w| ==> w[i] as real == Mean(w))
    ensures Mean(w) >= 0.0
    ensures Mean(w) == 0.0 ==> forall i :: 0 <= i < |w| ==> w[i] == 0
  {
    hide Mean, Unwrapped;
    NoMeanNoIntervals(w);
    if forall i, j :: 0 <= i < |w| && 0 <= j < |w| ==> w[i] == w[j] {
      assert Within(w, w[0], w[0]);
      MeanOfEqual(w);
    }
    if forall i :: 0 <= i < |w| ==> w[i] as real == Mean(w) {
      assert forall i :: 0 <= i < |w| ==> w[i] as real == w[0] as real;
    }
  }

  ghost predicate IsMultiple(w': seq<int>, w: seq<int>, c: real) {
    |w'| == |w| && forall i :: 0 <= i < |w| ==> w'[i] as real == c * w[i] as real
  }

  lemma {:induction false} SumScales(w': seq<int>, w: seq<int>, c: real)
    requires IsMultiple(w', w, c)
    ensures Sum(w') as real == c * Sum(w) as real
  {
    hide Sum, Excess, AbsDeviation, Distance;
    if w == [] {
      NothingDeviates(0.0);
    } else {
      var n := |w| - 1;
      SumScales(w'[..n], w[..n], c);
      OneMoreDeviation(w', 0.0);
      OneMoreDeviation(w, 0.0);
      Distribute(c, Sum(w[..n]) as real, w[n] as real);
    }
  }

  ghost predicate DistancesScale(w': seq<int>, mean': real, w: seq<int>, mean: real, k: real) {
    && |w'| == |w|
    && forall i :: 0 <= i < |w| ==> Distance(w'[i] as real, mean') == k * Distance(w[i] as real, mean)
  }

  lemma {:induction false} DeviationScales(w': seq<int>, mean': real, w: seq<int>, mean: real, k: real)
    requires DistancesScale(w', mean', w, mean, k)
    ensures AbsDeviation(w', mean') == k * AbsDeviation(w, mean)
  {
    hide Distance;
    if w != [] {
      var n := |w| - 1;
      assert DistancesScale(w'[..n], mean', w[..n], mean, k);
      DeviationScales(w'[..n], mean', w[..n], mean, k);
      Distribute(k, AbsDeviation(w[..n], mean), Distance(w[n] as real, mean));
    }
  }

  lemma MultipleScalesDistances(w': seq<int>, w: seq<int>, c: real, mean': real, mean: real)
    requires c > 0.0 && IsMultiple(w', w, c) && mean' == c * mean
    ensures DistancesScale(w', mean', w, mean, c)
  {
    forall i | 0 <= i < |w|
      ensures Distance(w'[i] as real, mean') == c * Distance(w[i] as real, mean)
    {
      ScaledDistance(c, w'[i] as real, w[i] as real, mean', mean);
    }
  }

  lemma ScaledDistance(c: real, x': real, x: real, mean': real, mean: real)
    requires c > 0.0 && x' == c * x && mean' == c * mean
    ensures Distance(x', mean') == c * Distance(x, mean)
  {
    ScaleOrder(x, mean, c);
    ScaleOrder(mean, x, c);
    assert c * (x - mean) == c * x - c * mean && c * (mean - x) == c * mean - c * x;
  }

  /** The measure is relative: running every interval slower or faster by one factor changes nothing. */
  lemma {:induction false} TemporalNormScaleFree(w': seq<U64>, w: seq<U64>, c: real)
    requires c > 0.0 && IsMultiple(w', w, c) && Unwrapped(w) && Unwrapped(w')
    ensures TemporalNorm(w') == TemporalNorm(w)
  {
    hide AbsDeviation, Mean, RelativeDeviation;
    if w != [] {
      MeanScales(w', w, c);
      ScaleOrder(Mean(w), 0.0, c);
      if Mean(w) > 0.0 {
        RelativeDeviationScales(w', w, c);
      }
    }
  }

  lemma MultipleKeepsLength(w': seq<int>, w: seq<int>, c: real)
    requires IsMultiple(w', w, c)
    ensures |w'| == |w|
  {
  }

  lemma RelativeDeviationScales(w': seq<U64>, w: seq<U64>, c: real)
    requires w != [] && c > 0.0 && IsMultiple(w', w, c) && Unwrapped(w) && Unwrapped(w')
    requires Mean(w) > 0.0
    ensures Mean(w') > 0.0 && RelativeDeviation(w') == RelativeDeviation(w)
  {
    hide AbsDeviation, Mean, DistancesScale, IsMultiple;
    MultipleKeepsLength(w', w, c);
    MeanScales(w', w, c);
    MultipleScalesDistances(w', w, c, Mean(w'), Mean(w));
    DeviationScales(w', Mean(w'), w, Mean(w), c);
    ScaledRatio(AbsDeviation(w', Mean(w')), AbsDeviation(w, Mean(w)), |w| as real, Mean(w'), Mean(w), c);
  }

  lemma MeanScales(w': seq<U64>, w: seq<U64>, c: real)
    requires w != [] && c > 0.0 && IsMultiple(w', w, c) && Unwrapped(w) && Unwrapped(w')
    ensures Mean(w') == c * Mean(w)
  {
    hide Sum, Sum64;
    SumNonNegative(w);
    SumNonNegative(w');
    SumScales(w', w, c);
    Sum64IsModular(w);
    Sum64IsModular(w');
    ScaledQuotient(Sum(w') as real, Sum(w) as real, |w| as real, c);
  }

  lemma ScaledQuotient(s': real, s: real, n: real, c: real)
    requires n > 0.0 && s' == c * s
    ensures s' / n == c * (s / n)
  {
    var q := s / n;
    assert q * n == s;
    assert (c * q) * n == s';
  }

  lemma ScaledRatio(d': real, d: real, n: real, m': real, m: real, k: real)
    requires n > 0.0 && m > 0.0 && k > 0.0 && d' == k * d && m' == k * m
    ensures m' > 0.0 && d' / n / m' == d / n / m
  {
    var q := d / n / m;
    assert q * m == d / n && (q * m) * n == d;
    assert (k * (q * m)) * n == d';
    assert d' / n == k * (q * m) == q * m';
  }
}
