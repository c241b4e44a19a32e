/**
 The end-to-end deadlines to the tick: twenty-one busy ticks raise CRITICAL from every history and twenty do
 not; eleven idle ticks on an even clock restore STABLE and ten do not.

 Both rest on one fact: a tick is a monotone function of the eight filters, the level and the scores of its
 signals. So a run lies above what its scores make of nothing, and below what they make of the worst there is.
 */
module ExactDeadlines {
  import opened Numeric
  import opened SignalFrame
  import opened EmaFilter
  import opened Pressures
  import opened LatencyJitter
  import opened Risk
  import opened SystemState
  import opened RiskDeadlines
  import opened Pipeline
  import opened PipelineOrder
  import opened PipelineDeadlines

  /** The values of all filters, and the level. */
  datatype Filters = Filters(scheduler: real, memory: real, io: real, thermal: real, power: real, latency: real,
                             realtime: real, saturation: real, level: Level) {
    predicate AtMost(other: Filters) {
      && scheduler <= other.scheduler && memory <= other.memory && io <= other.io && thermal <= other.thermal
      && power <= other.power && latency <= other.latency && realtime <= other.realtime
      && saturation <= other.saturation && level.Rank() <= other.level.Rank()
    }
  }

  const NOTHING := Filters(0.0, 0.0, 0.0, 0.0, 0.0, 0.0, 0.0, 0.0, STABLE)
  const WORST := Filters(1.0, 1.0, 1.0, 1.0, 1.0, 1.0, 1.0, 1.0, CRITICAL)

  /** One tick, with nothing left to clamp. */
  function Move(e: Filters, x: Scores): Filters {
    var scheduler := 0.70 * e.scheduler + 0.30 * x.scheduler;
    var memory := 0.75 * e.memory + 0.25 * x.memory;
    var io := 0.75 * e.io + 0.25 * x.io;
    var thermal := 0.80 * e.thermal + 0.20 * x.thermal;
    var power := 0.75 * e.power + 0.25 * (x.power + 0.10 * thermal);
    var latency := 0.70 * e.latency + 0.30 * (0.60 * x.temporal + 0.25 * scheduler + 0.15 * io);
    var realtime := 0.65 * e.realtime + 0.35 * (0.55 * latency + 0.25 * scheduler + 0.15 * thermal + 0.05 * io);
    var saturation := 0.82 * e.saturation
      + 0.18 * (0.30 * scheduler + 0.25 * memory + 0.20 * io + 0.15 * power + 0.10 * thermal);
    Filters(scheduler, memory, io, thermal, power, latency, realtime, saturation,
            LevelStep(e.level, MaxRisk(realtime, saturation)))
  }

  /** The first tick primes every filter with its score. */
  function First(x: Scores): Filters {
    var power := x.power + 0.10 * x.thermal;
    var latency := 0.60 * x.temporal + 0.25 * x.scheduler + 0.15 * x.io;
    var realtime := 0.55 * latency + 0.25 * x.scheduler + 0.15 * x.thermal + 0.05 * x.io;
    var saturation := 0.30 * x.scheduler + 0.25 * x.memory + 0.20 * x.io + 0.15 * power + 0.10 * x.thermal;
    Filters(x.scheduler, x.memory, x.io, x.thermal, power, latency, realtime, saturation,
            LevelStep(STABLE, MaxRisk(realtime, saturation)))
  }

  function MovedBy(e: Filters, xs: seq<Scores>): Filters {
    if xs == [] then e else Move(MovedBy(e, xs[..|xs| - 1]), xs[|xs| - 1])
  }

  predicate ScoresAtMost(x: Scores, y: Scores) {
    && x.scheduler <= y.scheduler && x.memory <= y.memory && x.io <= y.io && x.thermal <= y.thermal
    && x.power <= y.power && x.temporal <= y.temporal
  }

  const NO_SCORES := Scores(0.0, 0.0, 0.0, 0.0, 0.0, 0.0)
  const FULL_SCORES := Scores(1.0, 1.0, 1.0, 1.0, 0.9, 1.0)

  lemma MoveMonotone(e: Filters, f: Filters, x: Scores, y: Scores)
    requires e.AtMost(f) && ScoresAtMost(x, y)
    ensures Move(e, x).AtMost(Move(f, y))
  {
    hide LevelStep, MaxRisk;
    var p, q := Move(e, x), Move(f, y);
    LevelsOrdered(e.level, f.level, p, q);
  }

  lemma LevelsOrdered(l: Level, m: Level, e: Filters, f: Filters)
    requires l.Rank() <= m.Rank() && e.realtime <= f.realtime && e.saturation <= f.saturation
    ensures LevelStep(l, MaxRisk(e.realtime, e.saturation)).Rank()
         <= LevelStep(m, MaxRisk(f.realtime, f.saturation)).Rank()
  {
    hide LevelStep;
    LevelStepMonotone(l, m, MaxRisk(e.realtime, e.saturation), MaxRisk(f.realtime, f.saturation));
  }

  lemma FirstIsBetween(x: Scores)
    requires ScoresAtMost(NO_SCORES, x) && ScoresAtMost(x, FULL_SCORES)
    ensures Move(NOTHING, x).AtMost(First(x)) && First(x).AtMost(Move(WORST, x))
  {
    hide Move, First, Filters.AtMost;
    FirstAboveNothing(x);
    FirstBelowWorst(x);
  }

  lemma FirstAboveNothing(x: Scores)
    requires ScoresAtMost(NO_SCORES, x)
    ensures Move(NOTHING, x).AtMost(First(x))
  {
    hide LevelStep, MaxRisk;
    var lo, p := Move(NOTHING, x), First(x);
    LevelsOrdered(STABLE, STABLE, lo, p);
  }

  lemma FirstBelowWorst(x: Scores)
    requires ScoresAtMost(x, FULL_SCORES)
    ensures First(x).AtMost(Move(WORST, x))
  {
    hide LevelStep, MaxRisk;
    var p, hi := First(x), Move(WORST, x);
    LevelsOrdered(STABLE, CRITICAL, p, hi);
  }

  // -------------------------------------------------------------- runs are moves

  function View(st: Stages): Filters {
    Filters(st.scheduler.value, st.memory.value, st.io.value, st.thermal.value, st.power.value, st.latency.value,
            st.risk.realtime.value, st.risk.saturation.value, st.risk.level)
  }

  lemma ViewInUnit(t: Tuning, rs: seq<Reading>)
    requires t.warningWindow > 0.0
    ensures NOTHING.AtMost(View(Pipeline.Run(t, POWER_ON, rs).stages))
    ensures View(Pipeline.Run(t, POWER_ON, rs).stages).AtMost(WORST)
  {
    hide Pipeline.Run;
    AllInUnit(t, rs);
  }

  lemma ScoresInUnit(t: Tuning, rs: seq<Reading>)
    requires t.warningWindow > 0.0 && rs != []
    ensures ScoresAtMost(NO_SCORES, ScoresAt(t, rs)) && ScoresAtMost(ScoresAt(t, rs), FULL_SCORES)
  {
    hide SchedulerScore, MemoryScore, IoScore, ThermalScore, BaselineAfter, Track, RelativeDeviation, Mean;
    var raw := rs[|rs| - 1].raw;
    ScoresSpanUnit(t.exp, t.warningWindow, BaselineAfter(Rates(rs)).value, raw, 0.0);
    OwnPowerInUnit(raw);
  }

  lemma OwnPowerInUnit(raw: RawSignals)
    ensures 0.0 <= PowerScore(raw, 0.0) <= 0.9
  {
  }

  /** How a stage moves: blended when it has been primed, set when it has not. */
  lemma StageMoves(t: Tuning, rs: seq<Reading>, s: Stage)
    requires t.warningWindow > 0.0 && rs != []
    ensures var st, f := Pipeline.Run(t, POWER_ON, rs[..|rs| - 1]).stages, Pipeline.Run(t, POWER_ON, rs).frame;
            FilterOf(Pipeline.Run(t, POWER_ON, rs).stages, s).value
            == if |rs| == 1 then ScoreIn(t, st, f, s)
               else (1.0 - Alpha(s)) * FilterOf(st, s).value + Alpha(s) * ScoreIn(t, st, f, s)
  {
    hide Pipeline.Run, ScoreIn, Alpha, FilterOf;
    LastTick(t, rs, s);
    StagePrimed(t, rs[..|rs| - 1], s);
  }

  lemma StagePrimed(t: Tuning, rs: seq<Reading>, s: Stage)
    requires t.warningWindow > 0.0
    ensures FilterOf(Pipeline.Run(t, POWER_ON, rs).stages, s).primed == (rs != [])
  {
    hide Pipeline.Run, EmaFilter.Run, ScoreTrace, FilterOf;
    StageIsFilter(t, rs, s);
    ScoreTraceLength(t, rs, s);
    if rs == [] {
      RunEmpty(Alpha(s), FRESH);
    } else {
      RunStaysBetween(Alpha(s), FRESH, ScoreTrace(t, rs, s), 0.0, 1.0);
    }
  }

  lemma UnclampedScores(temporal: real, s: real, m: real, i: real, th: real, p: real, l: real)
    requires 0.0 <= s <= 1.0 && 0.0 <= m <= 1.0 && 0.0 <= i <= 1.0 && 0.0 <= th <= 1.0
    requires 0.0 <= p <= 1.0 && 0.0 <= l <= 1.0
    ensures JitterScore(temporal, s, i) == 0.60 * temporal + 0.25 * s + 0.15 * i
    ensures RealtimeScore(l, s, th, i) == 0.55 * l + 0.25 * s + 0.15 * th + 0.05 * i
    ensures SaturationScore(s, m, i, p, th) == 0.30 * s + 0.25 * m + 0.20 * i + 0.15 * p + 0.10 * th
  {
  }

  /** The scores of the last tick of a run, all eight, in terms of its signals and what it published. */
  lemma AllScores(t: Tuning, rs: seq<Reading>)
    requires t.warningWindow > 0.0 && rs != []
    ensures var st, x := Pipeline.Run(t, POWER_ON, rs[..|rs| - 1]).stages, ScoresAt(t, rs);
            var f, e := Pipeline.Run(t, POWER_ON, rs).frame, View(Pipeline.Run(t, POWER_ON, rs).stages);
            && ScoreIn(t, st, f, Scheduler) == x.scheduler && ScoreIn(t, st, f, Memory) == x.memory
            && ScoreIn(t, st, f, Io) == x.io && ScoreIn(t, st, f, Thermal) == x.thermal
            && ScoreIn(t, st, f, Power) == x.power + 0.10 * e.thermal
            && ScoreIn(t, st, f, Latency) == 0.60 * x.temporal + 0.25 * e.scheduler + 0.15 * e.io
            && ScoreIn(t, st, f, Realtime)
               == 0.55 * e.latency + 0.25 * e.scheduler + 0.15 * e.thermal + 0.05 * e.io
            && ScoreIn(t, st, f, Saturation)
               == 0.30 * e.scheduler + 0.25 * e.memory + 0.20 * e.io + 0.15 * e.power + 0.10 * e.thermal
  {
    hide Pipeline.Run, ScoreIn, ScoresAt, JitterScore, RealtimeScore, SaturationScore;
    var st := Pipeline.Run(t, POWER_ON, rs).stages;
    LastFrame(t, rs);
    AllInUnit(t, rs);
    ScoresOfRun(t, rs);
    SaturationOfRun(t, rs);
    UnclampedScores(ScoresAt(t, rs).temporal, st.scheduler.value, st.memory.value, st.io.value, st.thermal.value,
                    st.power.value, st.latency.value);
  }

  lemma RunMoves(t: Tuning, rs: seq<Reading>)
    requires t.warningWindow > 0.0 && rs != []
    ensures View(Pipeline.Run(t, POWER_ON, rs).stages)
         == if |rs| == 1 then First(ScoresAt(t, rs))
            else Move(View(Pipeline.Run(t, POWER_ON, rs[..|rs| - 1]).stages), ScoresAt(t, rs))
  {
    hide Pipeline.Run, ScoreIn, ScoresAt, LevelStep, MaxRisk;
    AllScores(t, rs);
    StageMoves(t, rs, Scheduler);
    StageMoves(t, rs, Memory);
    StageMoves(t, rs, Io);
    StageMoves(t, rs, Thermal);
    StageMoves(t, rs, Power);
    StageMoves(t, rs, Latency);
    StageMoves(t, rs, Realtime);
    StageMoves(t, rs, Saturation);
    LastLevel(t, rs);
    LastFrame(t, rs);
    LevelAtPowerOn(t);
    assert |rs| == 1 ==> rs[..|rs| - 1] == [];
  }

  lemma LevelAtPowerOn(t: Tuning)
    requires t.warningWindow > 0.0
    ensures Pipeline.Run(t, POWER_ON, []).stages.risk.level == STABLE
  {
  }

  /** The scores of the last ticks of a run are at least, or at most, these. */
  ghost predicate EndsAbove(t: Tuning, rs: seq<Reading>, xs: seq<Scores>)
    requires t.warningWindow > 0.0
  {
    |xs| <= |rs| && forall i :: 0 <= i < |xs| ==> ScoresAtMost(xs[i], ScoresAt(t, rs[..|rs| - |xs| + i + 1]))
  }

  ghost predicate EndsBelow(t: Tuning, rs: seq<Reading>, xs: seq<Scores>)
    requires t.warningWindow > 0.0
  {
    |xs| <= |rs| && forall i :: 0 <= i < |xs| ==> ScoresAtMost(ScoresAt(t, rs[..|rs| - |xs| + i + 1]), xs[i])
  }

  lemma AboveBefore(t: Tuning, rs: seq<Reading>, xs: seq<Scores>)
    requires t.warningWindow > 0.0 && xs != [] && EndsAbove(t, rs, xs)
    ensures rs != [] && EndsAbove(t, rs[..|rs| - 1], xs[..|xs| - 1])
    ensures ScoresAtMost(xs[|xs| - 1], ScoresAt(t, rs))
  {
    hide ScoresAt, ScoresAtMost;
    var init, ys := rs[..|rs| - 1], xs[..|xs| - 1];
    forall i | 0 <= i < |ys|
      ensures ScoresAtMost(ys[i], ScoresAt(t, init[..|init| - |ys| + i + 1]))
    {
      assert init[..|init| - |ys| + i + 1] == rs[..|rs| - |xs| + i + 1];
    }
    assert rs[..|rs| - |xs| + |ys| + 1] == rs;
  }

  lemma BelowBefore(t: Tuning, rs: seq<Reading>, xs: seq<Scores>)
    requires t.warningWindow > 0.0 && xs != [] && EndsBelow(t, rs, xs)
    ensures rs != [] && EndsBelow(t, rs[..|rs| - 1], xs[..|xs| - 1])
    ensures ScoresAtMost(ScoresAt(t, rs), xs[|xs| - 1])
  {
    hide ScoresAt, ScoresAtMost;
    var init, ys := rs[..|rs| - 1], xs[..|xs| - 1];
    forall i | 0 <= i < |ys|
      ensures ScoresAtMost(ScoresAt(t, init[..|init| - |ys| + i + 1]), ys[i])
    {
      assert init[..|init| - |ys| + i + 1] == rs[..|rs| - |xs| + i + 1];
    }
    assert rs[..|rs| - |xs| + |ys| + 1] == rs;
  }

  /** Whatever the history, a run is at least where its last scores lead from nothing ... */
  lemma {:induction false} RunIsAbove(t: Tuning, rs: seq<Reading>, xs: seq<Scores>)
    requires t.warningWindow > 0.0 && EndsAbove(t, rs, xs)
    ensures MovedBy(NOTHING, xs).AtMost(View(Pipeline.Run(t, POWER_ON, rs).stages))
    decreases |xs|
  {
    hide Pipeline.Run, Move, First, ScoresAt, ScoresAtMost, Filters.AtMost;
    if xs == [] {
      ViewInUnit(t, rs);
    } else {
      var e, x := MovedBy(NOTHING, xs[..|xs| - 1]), xs[|xs| - 1];
      AboveBefore(t, rs, xs);
      RunIsAbove(t, rs[..|rs| - 1], xs[..|xs| - 1]);
      RunMoves(t, rs);
      ScoresInUnit(t, rs);
      FirstIsBetween(ScoresAt(t, rs));
      MoveMonotone(e, View(Pipeline.Run(t, POWER_ON, rs[..|rs| - 1]).stages), x, ScoresAt(t, rs));
      if |rs| == 1 {
        assert xs[..|xs| - 1] == [];
        SameIsAtMost(NOTHING);
        MoveMonotone(NOTHING, NOTHING, x, ScoresAt(t, rs));
        AtMostTrans(Move(NOTHING, x), Move(NOTHING, ScoresAt(t, rs)), First(ScoresAt(t, rs)));
      }
    }
  }

  /** ... and at most where they lead from the worst there is. */
  lemma {:induction false} RunIsBelow(t: Tuning, rs: seq<Reading>, xs: seq<Scores>)
    requires t.warningWindow > 0.0 && EndsBelow(t, rs, xs)
    ensures View(Pipeline.Run(t, POWER_ON, rs).stages).AtMost(MovedBy(WORST, xs))
    decreases |xs|
  {
    hide Pipeline.Run, Move, First, ScoresAt, ScoresAtMost, Filters.AtMost;
    if xs == [] {
      ViewInUnit(t, rs);
    } else {
      var e, x := MovedBy(WORST, xs[..|xs| - 1]), xs[|xs| - 1];
      BelowBefore(t, rs, xs);
      RunIsBelow(t, rs[..|rs| - 1], xs[..|xs| - 1]);
      RunMoves(t, rs);
      ScoresInUnit(t, rs);
      FirstIsBetween(ScoresAt(t, rs));
      MoveMonotone(View(Pipeline.Run(t, POWER_ON, rs[..|rs| - 1]).stages), e, ScoresAt(t, rs), x);
      if |rs| == 1 {
        assert xs[..|xs| - 1] == [];
        SameIsAtMost(WORST);
        MoveMonotone(WORST, WORST, ScoresAt(t, rs), x);
        AtMostTrans(First(ScoresAt(t, rs)), Move(WORST, ScoresAt(t, rs)), Move(WORST, x));
      }
    }
  }

  lemma SameIsAtMost(e: Filters)
    ensures e.AtMost(e)
  {
  }

  lemma AtMostTrans(e: Filters, f: Filters, g: Filters)
    requires e.AtMost(f) && f.AtMost(g)
    ensures e.AtMost(g)
  {
  }

  function Repeated(x: Scores, n: nat): (xs: seq<Scores>)
    ensures |xs| == n
  {
    seq(n, i => x)
  }

  lemma MoveRepeated(e: Filters, x: Scores, n: nat)
    ensures MovedBy(e, Repeated(x, 0)) == e && MovedBy(e, Repeated(x, n + 1)) == Move(MovedBy(e, Repeated(x, n)), x)
  {
    assert Repeated(x, n + 1)[..n] == Repeated(x, n);
  }

  // ------------------------------------------------------------------- escalation

  /** Every signal at its limit; memory and disk at nine tenths of theirs. */
  predicate Busy(t: Tuning, raw: RawSignals) {
    && raw.cpu >= 100.0 && raw.psi >= 10.0 && raw.psiMemory >= 20.0 && raw.psiIo >= 20.0 && raw.softirqs >= 1.0
    && raw.network >= 1.0 && raw.cpuThrottleRatio >= 1.0 && raw.thermal <= 0.0
    && t.exp(-raw.memory / 262144.0) <= 0.1 && t.exp(-raw.disk / 50.0) <= 0.1
  }

  ghost predicate EndsBusy(t: Tuning, rs: seq<Reading>, n: nat) {
    n <= |rs| && forall i :: |rs| - n <= i < |rs| ==> Busy(t, rs[i].raw)
  }

  const BUSY := Scores(0.85, 0.93, 0.93, 1.0, 0.9, 0.0)

  lemma BusyScores(t: Tuning, rs: seq<Reading>)
    requires t.warningWindow > 0.0 && rs != [] && Busy(t, rs[|rs| - 1].raw)
    ensures ScoresAtMost(BUSY, ScoresAt(t, rs))
  {
    hide SchedulerScore, TemporalNorm, BaselineAfter, Track;
    var raw := rs[|rs| - 1].raw;
    RatioThreshold(t.warningWindow - raw.thermal, t.warningWindow, 1.0);
    SchedulerBetween(raw, BaselineAfter(Rates(rs)).value);
    JitterInUnit(Track(Stamps(rs)).window);
  }

  lemma JitterInUnit(w: seq<U64>)
    ensures 0.0 <= TemporalNorm(w) <= 1.0
  {
  }

  /** After k busy ticks from nothing, rounded down ... */
  function BusyAtLeast(k: nat): Filters {
    match k
    case 0 => Filters(0.0000, 0.0000, 0.0000, 0.0000, 0.0000, 0.0000, 0.0000, 0.0000, STABLE)
    case 1 => Filters(0.2550, 0.2325, 0.2325, 0.2000, 0.2300, 0.0295, 0.0425, 0.0424, STABLE)
    case 2 => Filters(0.4335, 0.4068, 0.4068, 0.3600, 0.4065, 0.0714, 0.1053, 0.1085, STABLE)
    case 3 => Filters(0.5584, 0.5376, 0.5376, 0.4880, 0.5420, 0.1160, 0.1746, 0.1860, STABLE)
    case 4 => Filters(0.6458, 0.6357, 0.6357, 0.5904, 0.6462, 0.1582, 0.2425, 0.2669, STABLE)
    case 5 => Filters(0.7070, 0.7092, 0.7092, 0.6723, 0.7264, 0.1956, 0.3048, 0.3462, STABLE)
    case 6 => Filters(0.7499, 0.7644, 0.7644, 0.7378, 0.7882, 0.2275, 0.3596, 0.4208, STABLE)
    case 7 => Filters(0.7799, 0.8058, 0.8058, 0.7902, 0.8359, 0.2540, 0.4064, 0.4892, DEGRADED)
    case 8 => Filters(0.8009, 0.8368, 0.8368, 0.8321, 0.8727, 0.2755, 0.4456, 0.5507, DEGRADED)
    case 9 => Filters(0.8156, 0.8601, 0.8601, 0.8656, 0.9011, 0.2927, 0.4778, 0.6051, DEGRADED)
    case 10 => Filters(0.8259, 0.8775, 0.8775, 0.8924, 0.9231, 0.3063, 0.5040, 0.6528, DEGRADED)
    case 11 => Filters(0.8331, 0.8906, 0.8906, 0.9139, 0.9401, 0.3169, 0.5250, 0.6942, DEGRADED)
    case 12 => Filters(0.8381, 0.9004, 0.9004, 0.9311, 0.9533, 0.3252, 0.5418, 0.7299, UNSTABLE)
    case 13 => Filters(0.8416, 0.9078, 0.9078, 0.9448, 0.9635, 0.3316, 0.5551, 0.7605, UNSTABLE)
    case 14 => Filters(0.8441, 0.9133, 0.9133, 0.9558, 0.9715, 0.3365, 0.5656, 0.7866, UNSTABLE)
    case 15 => Filters(0.8458, 0.9174, 0.9174, 0.9646, 0.9777, 0.3402, 0.5738, 0.8087, UNSTABLE)
    case 16 => Filters(0.8470, 0.9205, 0.9205, 0.9716, 0.9825, 0.3430, 0.5802, 0.8274, UNSTABLE)
    case 17 => Filters(0.8479, 0.9228, 0.9228, 0.9772, 0.9863, 0.3452, 0.5852, 0.8432, UNSTABLE)
    case 18 => Filters(0.8485, 0.9246, 0.9246, 0.9817, 0.9892, 0.3468, 0.5891, 0.8565, UNSTABLE)
    case 19 => Filters(0.8489, 0.9259, 0.9259, 0.9853, 0.9915, 0.3480, 0.5921, 0.8676, UNSTABLE)
    case 20 => Filters(0.8492, 0.9269, 0.9269, 0.9882, 0.9933, 0.3490, 0.5944, 0.8769, UNSTABLE)
    case _ => Filters(0.8494, 0.9276, 0.9276, 0.9905, 0.9947, 0.3497, 0.5962, 0.8847, CRITICAL)
  }

  /** ... and rounded up. */
  function BusyAtMost(k: nat): Filters {
    match k
    case 0 => Filters(0.0000, 0.0000, 0.0000, 0.0000, 0.0000, 0.0000, 0.0000, 0.0000, STABLE)
    case 1 => Filters(0.2550, 0.2325, 0.2325, 0.2000, 0.2300, 0.0296, 0.0426, 0.0425, STABLE)
    case 2 => Filters(0.4335, 0.4069, 0.4069, 0.3600, 0.4065, 0.0716, 0.1055, 0.1087, STABLE)
    case 3 => Filters(0.5585, 0.5377, 0.5377, 0.4880, 0.5421, 0.1162, 0.1749, 0.1863, STABLE)
    case 4 => Filters(0.6460, 0.6358, 0.6358, 0.5904, 0.6464, 0.1584, 0.2429, 0.2673, STABLE)
    case 5 => Filters(0.7072, 0.7094, 0.7094, 0.6724, 0.7267, 0.1959, 0.3052, 0.3466, STABLE)
    case 6 => Filters(0.7501, 0.7646, 0.7646, 0.7380, 0.7885, 0.2278, 0.3600, 0.4213, STABLE)
    case 7 => Filters(0.7801, 0.8060, 0.8060, 0.7904, 0.8362, 0.2543, 0.4068, 0.4897, DEGRADED)
    case 8 => Filters(0.8011, 0.8370, 0.8370, 0.8324, 0.8730, 0.2758, 0.4460, 0.5512, DEGRADED)
    case 9 => Filters(0.8158, 0.8603, 0.8603, 0.8660, 0.9014, 0.2930, 0.4782, 0.6057, DEGRADED)
    case 10 => Filters(0.8261, 0.8778, 0.8778, 0.8928, 0.9234, 0.3066, 0.5044, 0.6534, DEGRADED)
    case 11 => Filters(0.8333, 0.8909, 0.8909, 0.9143, 0.9405, 0.3173, 0.5255, 0.6948, DEGRADED)
    case 12 => Filters(0.8384, 0.9007, 0.9007, 0.9315, 0.9537, 0.3256, 0.5423, 0.7305, UNSTABLE)
    case 13 => Filters(0.8419, 0.9081, 0.9081, 0.9452, 0.9640, 0.3320, 0.5556, 0.7611, UNSTABLE)
    case 14 => Filters(0.8444, 0.9136, 0.9136, 0.9562, 0.9720, 0.3369, 0.5661, 0.7872, UNSTABLE)
    case 15 => Filters(0.8461, 0.9177, 0.9177, 0.9650, 0.9782, 0.3406, 0.5743, 0.8094, UNSTABLE)
    case 16 => Filters(0.8473, 0.9208, 0.9208, 0.9720, 0.9830, 0.3435, 0.5807, 0.8281, UNSTABLE)
    case 17 => Filters(0.8482, 0.9231, 0.9231, 0.9776, 0.9867, 0.3456, 0.5857, 0.8439, UNSTABLE)
    case 18 => Filters(0.8488, 0.9249, 0.9249, 0.9821, 0.9896, 0.3472, 0.5896, 0.8572, UNSTABLE)
    case 19 => Filters(0.8492, 0.9262, 0.9262, 0.9857, 0.9919, 0.3485, 0.5926, 0.8684, UNSTABLE)
    case _ => Filters(0.8495, 0.9272, 0.9272, 0.9886, 0.9937, 0.3494, 0.5949, 0.8777, UNSTABLE)
  }

  lemma BusyRowsUp(k: nat)
    requires k < 21
    ensures BusyAtLeast(k + 1).AtMost(Move(BusyAtLeast(k), BUSY))
  {
    hide LevelStep, MaxRisk;
    var e, f := BusyAtLeast(k), BusyAtLeast(k + 1);
    var p := Move(e, BUSY);
    BusyLevels(k);
    LevelsOrdered(e.level, e.level, f, p);
  }

  lemma BusyRowsDown(k: nat)
    requires k < 20
    ensures Move(BusyAtMost(k), BUSY).AtMost(BusyAtMost(k + 1))
  {
    hide LevelStep, MaxRisk;
    var e, f := BusyAtMost(k), BusyAtMost(k + 1);
    var p := Move(e, BUSY);
    BusyLevels(k);
    LevelsOrdered(e.level, e.level, p, f);
  }

  /** In each row the level follows from its risks and the level of the row before. */
  predicate LevelFollows(e: Filters, f: Filters) {
    f.level == LevelStep(e.level, MaxRisk(f.realtime, f.saturation))
  }

  lemma BusyLevels(k: nat)
    ensures k < 21 ==> LevelFollows(BusyAtLeast(k), BusyAtLeast(k + 1))
    ensures k < 20 ==> LevelFollows(BusyAtMost(k), BusyAtMost(k + 1))
  {
  }

  lemma {:induction false} BusyFromNothing(k: nat)
    ensures k <= 21 ==> BusyAtLeast(k).AtMost(MovedBy(NOTHING, Repeated(BUSY, k)))
    ensures k <= 20 ==> MovedBy(NOTHING, Repeated(BUSY, k)).AtMost(BusyAtMost(k))
  {
    hide Move, MovedBy, BusyAtLeast, BusyAtMost, Filters.AtMost;
    MoveRepeated(NOTHING, BUSY, 0);
    if k == 0 {
      FirstRows();
    } else if k <= 21 {
      var e := MovedBy(NOTHING, Repeated(BUSY, k - 1));
      BusyFromNothing(k - 1);
      MoveRepeated(NOTHING, BUSY, k - 1);
      SameScores(BUSY);
      MoveMonotone(BusyAtLeast(k - 1), e, BUSY, BUSY);
      BusyRowsUp(k - 1);
      AtMostTrans(BusyAtLeast(k), Move(BusyAtLeast(k - 1), BUSY), Move(e, BUSY));
      if k <= 20 {
        MoveMonotone(e, BusyAtMost(k - 1), BUSY, BUSY);
        BusyRowsDown(k - 1);
        AtMostTrans(Move(e, BUSY), Move(BusyAtMost(k - 1), BUSY), BusyAtMost(k));
      }
    }
  }

  lemma FirstRows()
    ensures BusyAtLeast(0).AtMost(NOTHING) && NOTHING.AtMost(BusyAtMost(0)) && WORST.AtMost(IdleAtMost(0))
  {
  }

  lemma SameScores(x: Scores)
    ensures ScoresAtMost(x, x)
  {
  }

  lemma LastRows(k: nat)
    ensures BusyAtLeast(21).level == CRITICAL && (k <= 20 ==> BusyAtMost(k).level != CRITICAL)
  {
  }

  ghost predicate BusyRaisesIn(t: Tuning, n: nat)
    requires t.warningWindow > 0.0
  {
    forall rs :: rs != [] && EndsBusy(t, rs, n) ==> Pipeline.Run(t, POWER_ON, rs).frame.state == CRITICAL
  }

  lemma {:induction false} TwentyOneBusyTicksEndCritical(t: Tuning, rs: seq<Reading>)
    requires t.warningWindow > 0.0 && EndsBusy(t, rs, 21)
    ensures Pipeline.Run(t, POWER_ON, rs).frame.state == CRITICAL
  {
    hide Pipeline.Run, ScoresAt, ScoresAtMost, Busy, MovedBy, BusyAtLeast;
    var xs := Repeated(BUSY, 21);
    forall i | 0 <= i < 21
      ensures ScoresAtMost(xs[i], ScoresAt(t, rs[..|rs| - 21 + i + 1]))
    {
      assert rs[..|rs| - 21 + i + 1][|rs| - 21 + i] == rs[|rs| - 21 + i];
      BusyScores(t, rs[..|rs| - 21 + i + 1]);
    }
    RunIsAbove(t, rs, xs);
    BusyFromNothing(21);
    LastRows(0);
    LastLevel(t, rs);
  }

  /** A resting and a busy reading without interrupt bursts, the busy one with memory and disk on their limits. */
  predicate Extremes(t: Tuning, rest: RawSignals, busy: RawSignals)
    requires t.warningWindow > 0.0
  {
    && Resting(t, rest) && rest.irq <= 1.5 && Busy(t, busy) && busy.irq <= 1.5
    && t.exp(-busy.memory / 262144.0) == 0.1 && t.exp(-busy.disk / 50.0) == 0.1
  }

  lemma RestScores(t: Tuning, rs: seq<Reading>)
    requires t.warningWindow > 0.0 && rs != [] && Resting(t, rs[|rs| - 1].raw) && rs[|rs| - 1].raw.irq <= 1.5
    ensures ScoresAt(t, rs) == NO_SCORES.(temporal := TemporalNorm(Track(Stamps(rs)).window))
  {
    hide SchedulerScore, MemoryScore, IoScore, ThermalScore, PowerScore, TemporalNorm, BaselineAfter, Track, Resting;
    var raw, baseline := rs[|rs| - 1].raw, BaselineAfter(Rates(rs)).value;
    RestingScoresNothing(t, raw, baseline);
    ScoresSpanUnit(t.exp, t.warningWindow, baseline, raw, 0.0);
  }

  lemma ExactBusyScores(t: Tuning, rs: seq<Reading>, rest: RawSignals)
    requires t.warningWindow > 0.0 && rs != [] && Extremes(t, rest, rs[|rs| - 1].raw)
    ensures ScoresAt(t, rs) == BUSY.(temporal := TemporalNorm(Track(Stamps(rs)).window))
  {
    hide SchedulerScore, TemporalNorm, BaselineAfter, Track, IrqNorm;
    var raw, baseline := rs[|rs| - 1].raw, BaselineAfter(Rates(rs)).value;
    RatioThreshold(t.warningWindow - raw.thermal, t.warningWindow, 1.0);
    ScoreSplits(raw, baseline);
    SilentExactly(baseline, raw.irq);
  }

  /** One resting tick, then n busy ones; the clock stands still. */
  function BusyAfterRest(rest: RawSignals, busy: RawSignals, n: nat): (rs: seq<Reading>)
    ensures |rs| == n + 1
  {
    seq(n + 1, i => Reading(0, if i == 0 then rest else busy))
  }

  lemma StillClock(rest: RawSignals, busy: RawSignals, n: nat)
    ensures TemporalNorm(Track(Stamps(BusyAfterRest(rest, busy, n))).window) == 0.0
  {
    hide TemporalNorm, Track, Sum, Sum64;
    var stamps := Stamps(BusyAfterRest(rest, busy, n));
    WindowIsDifferences(stamps);
    WindowSumNeverWraps(stamps);
    StillDifferences(Track(stamps).window, Spanned(stamps));
    TemporalNormZeroIffEqual(Track(stamps).window);
  }

  lemma StillDifferences(diffs: seq<U64>, stamps: seq<U64>)
    requires AreDifferences(diffs, stamps) && forall i :: 0 <= i < |stamps| ==> stamps[i] == 0
    ensures forall i :: 0 <= i < |diffs| ==> diffs[i] == 0
  {
  }

  lemma {:induction false} BusyRunFromRest(t: Tuning, rest: RawSignals, busy: RawSignals, n: nat)
    requires t.warningWindow > 0.0 && Extremes(t, rest, busy)
    ensures View(Pipeline.Run(t, POWER_ON, BusyAfterRest(rest, busy, n)).stages) == MovedBy(NOTHING, Repeated(BUSY, n))
  {
    hide Pipeline.Run, Move, MovedBy, ScoresAt, TemporalNorm, Track, Resting, Busy;
    var rs := BusyAfterRest(rest, busy, n);
    MoveRepeated(NOTHING, BUSY, 0);
    RunMoves(t, rs);
    StillClock(rest, busy, n);
    if n == 0 {
      RestScores(t, rs);
      FirstOfNothing();
    } else {
      assert rs[..n] == BusyAfterRest(rest, busy, n - 1);
      BusyRunFromRest(t, rest, busy, n - 1);
      ExactBusyScores(t, rs, rest);
      MoveRepeated(NOTHING, BUSY, n - 1);
    }
  }

  lemma FirstOfNothing()
    ensures First(NO_SCORES) == NOTHING
  {
    hide LevelStep;
    QuietStaysStable(0.0);
  }

  lemma QuietStaysStable(risk: real)
    requires risk < 0.45
    ensures LevelStep(STABLE, risk) == STABLE
  {
  }

  /**
   The escalation deadline of the whole pipeline, exactly: n busy ticks end in CRITICAL after every history
   if and only if n is at least twenty-one.
   */
  lemma {:induction false} EscalationTakesExactlyTwentyOne(t: Tuning, rest: RawSignals, busy: RawSignals, n: nat)
    requires t.warningWindow > 0.0 && Extremes(t, rest, busy)
    ensures BusyRaisesIn(t, n) <==> n >= 21
  {
    hide Pipeline.Run, Busy, Resting, MovedBy, BusyAtMost;
    if n >= 21 {
      forall rs | rs != [] && EndsBusy(t, rs, n)
        ensures Pipeline.Run(t, POWER_ON, rs).frame.state == CRITICAL
      {
        TwentyOneBusyTicksEndCritical(t, rs);
      }
    } else {
      var rs := BusyAfterRest(rest, busy, n);
      ExtremesAreBusy(t, rest, busy);
      BusyRunFromRest(t, rest, busy, n);
      BusyFromNothing(n);
      LastRows(n);
      LastLevel(t, rs);
      assert EndsBusy(t, rs, n);
      assert Pipeline.Run(t, POWER_ON, rs).frame.state != CRITICAL;
    }
  }

  lemma ExtremesAreBusy(t: Tuning, rest: RawSignals, busy: RawSignals)
    requires t.warningWindow > 0.0 && Extremes(t, rest, busy)
    ensures Busy(t, busy) && Resting(t, rest) && rest.irq <= 1.5
  {
  }

  // --------------------------------------------------------------------- recovery

  /** After k idle ticks from the worst there is, eight of them with the old intervals in the ring, rounded up. */
  function IdleAtMost(k: nat): Filters {
    match k
    case 0 => Filters(1.0000, 1.0000, 1.0000, 1.0000, 1.0000, 1.0000, 1.0000, 1.0000, CRITICAL)
    case 1 => Filters(0.7000, 0.7500, 0.7500, 0.8000, 0.7700, 0.9663, 0.9524, 0.9538, CRITICAL)
    case 2 => Filters(0.4900, 0.5625, 0.5625, 0.6400, 0.5935, 0.9185, 0.8822, 0.8817, CRITICAL)
    case 3 => Filters(0.3430, 0.4219, 0.4219, 0.5120, 0.4580, 0.8677, 0.8048, 0.7973, CRITICAL)
    case 4 => Filters(0.2401, 0.3165, 0.3165, 0.4096, 0.3538, 0.8197, 0.7290, 0.7094, UNSTABLE)
    case 5 => Filters(0.1681, 0.2374, 0.2374, 0.3277, 0.2736, 0.7771, 0.6596, 0.6233, UNSTABLE)
    case 6 => Filters(0.1177, 0.1781, 0.1781, 0.2622, 0.2118, 0.7409, 0.5986, 0.5424, UNSTABLE)
    case 7 => Filters(0.0824, 0.1336, 0.1336, 0.2098, 0.1641, 0.7109, 0.5465, 0.4683, DEGRADED)
    case 8 => Filters(0.0577, 0.1002, 0.1002, 0.1679, 0.1273, 0.6865, 0.5030, 0.4017, DEGRADED)
    case 9 => Filters(0.0404, 0.0752, 0.0752, 0.1344, 0.0989, 0.4870, 0.4326, 0.3428, DEGRADED)
    case 10 => Filters(0.0283, 0.0564, 0.0564, 0.1076, 0.0769, 0.3456, 0.3569, 0.2913, DEGRADED)
    case _ => Filters(0.0199, 0.0423, 0.0423, 0.0861, 0.0599, 0.2454, 0.2862, 0.2466, STABLE)
  }

  /** Three busy ticks, then idle ones behind one long interval, rounded down. */
  function AlarmAtLeast(k: nat): Filters {
    match k
    case 0 => Filters(0.8500, 0.9300, 0.9300, 1.0000, 1.0000, 0.3520, 0.6026, 0.9235, DEGRADED)
    case 1 => Filters(0.8500, 0.9300, 0.9300, 1.0000, 1.0000, 0.3520, 0.6026, 0.9235, UNSTABLE)
    case 2 => Filters(0.8500, 0.9300, 0.9300, 1.0000, 1.0000, 0.3520, 0.6026, 0.9235, CRITICAL)
    case 3 => Filters(0.5950, 0.6975, 0.6975, 0.8000, 0.7700, 0.5024, 0.5946, 0.8810, CRITICAL)
    case 4 => Filters(0.4165, 0.5231, 0.5231, 0.6400, 0.5935, 0.5864, 0.5785, 0.8148, CRITICAL)
    case 5 => Filters(0.2915, 0.3923, 0.3923, 0.5120, 0.4579, 0.6300, 0.5565, 0.7372, UNSTABLE)
    case 6 => Filters(0.2040, 0.2942, 0.2942, 0.4096, 0.3536, 0.6495, 0.5312, 0.6562, UNSTABLE)
    case 7 => Filters(0.1428, 0.2206, 0.2206, 0.3276, 0.2733, 0.6552, 0.5049, 0.5769, UNSTABLE)
    case 8 => Filters(0.0999, 0.1654, 0.1654, 0.2620, 0.2115, 0.6535, 0.4794, 0.5022, DEGRADED)
    case 9 => Filters(0.0699, 0.1240, 0.1240, 0.2096, 0.1638, 0.6482, 0.4556, 0.4338, DEGRADED)
    case 10 => Filters(0.0489, 0.0930, 0.0930, 0.1676, 0.1270, 0.6415, 0.4343, 0.3723, DEGRADED)
    case 11 => Filters(0.0342, 0.0697, 0.0697, 0.1340, 0.0986, 0.4547, 0.3810, 0.3178, DEGRADED)
    case _ => Filters(0.0239, 0.0522, 0.0522, 0.1072, 0.0766, 0.3224, 0.3183, 0.2701, DEGRADED)
  }

  const JITTER_ONLY := NO_SCORES.(temporal := 1.0)

  /** Eight idle ticks while old intervals are still in the ring, then idle ticks without jitter. */
  function IdleScores(k: nat): Scores {
    if k < 8 then JITTER_ONLY else NO_SCORES
  }

  function IdleTicks(n: nat): (xs: seq<Scores>)
    ensures |xs| == n
  {
    seq(n, i requires 0 <= i < n => IdleScores(i))
  }

  lemma IdleRows(k: nat)
    requires k < 11
    ensures Move(IdleAtMost(k), IdleScores(k)).AtMost(IdleAtMost(k + 1))
  {
    hide Move, IdleAtMost, Filters.AtMost;
    if k < 8 {
      JitterRows(k);
    } else {
      QuietRows(k);
    }
  }

  lemma JitterRows(k: nat)
    requires k < 8
    ensures Move(IdleAtMost(k), JITTER_ONLY).AtMost(IdleAtMost(k + 1))
  {
    hide LevelStep, MaxRisk;
    var e, f := IdleAtMost(k), IdleAtMost(k + 1);
    IdleLevels(k);
    LevelsOrdered(e.level, e.level, Move(e, JITTER_ONLY), f);
  }

  lemma QuietRows(k: nat)
    requires 8 <= k < 11
    ensures Move(IdleAtMost(k), NO_SCORES).AtMost(IdleAtMost(k + 1))
  {
    hide LevelStep, MaxRisk;
    var e, f := IdleAtMost(k), IdleAtMost(k + 1);
    IdleLevels(k);
    LevelsOrdered(e.level, e.level, Move(e, NO_SCORES), f);
  }

  lemma IdleLevels(k: nat)
    requires k < 11
    ensures LevelFollows(IdleAtMost(k), IdleAtMost(k + 1)) && IdleAtMost(11).level == STABLE
  {
  }

  lemma {:induction false} IdleFromWorst(k: nat)
    requires k <= 11
    ensures MovedBy(WORST, IdleTicks(k)).AtMost(IdleAtMost(k))
  {
    hide Move, IdleAtMost, Filters.AtMost, IdleScores;
    if k == 0 {
      FirstRows();
    } else {
      var e, x := MovedBy(WORST, IdleTicks(k - 1)), IdleScores(k - 1);
      IdleFromWorst(k - 1);
      assert IdleTicks(k)[..k - 1] == IdleTicks(k - 1);
      SameScores(x);
      MoveMonotone(e, IdleAtMost(k - 1), x, x);
      IdleRows(k - 1);
      AtMostTrans(Move(e, x), Move(IdleAtMost(k - 1), x), IdleAtMost(k));
    }
  }

  ghost predicate IdleClearsIn(t: Tuning, n: nat)
    requires t.warningWindow > 0.0
  {
    forall rs, period :: rs != [] && EndsIdle(t, rs, n) && Spaced(rs, n, period, period) ==>
      Pipeline.Run(t, POWER_ON, rs).frame.state == STABLE
  }

  lemma ElevenIdleTicksEndStable(t: Tuning, rs: seq<Reading>, period: nat)
    requires t.warningWindow > 0.0 && EndsIdle(t, rs, 11) && Spaced(rs, 11, period, period)
    ensures Pipeline.Run(t, POWER_ON, rs).frame.state == STABLE
  {
    hide Pipeline.Run, ScoresAt, ScoresAtMost, IsIdle, MovedBy, IdleAtMost, TemporalNorm, Track, IdleScores;
    var xs := IdleTicks(11);
    forall i | 0 <= i < 11
      ensures ScoresAtMost(ScoresAt(t, rs[..|rs| - 11 + i + 1]), xs[i])
    {
      IdleTickScores(t, rs, i, period);
    }
    RunIsBelow(t, rs, xs);
    IdleFromWorst(11);
    IdleLevels(0);
    LastLevel(t, rs);
  }

  lemma IdleTickScores(t: Tuning, rs: seq<Reading>, i: nat, period: nat)
    requires t.warningWindow > 0.0 && i < 11 && EndsIdle(t, rs, 11) && Spaced(rs, 11, period, period)
    ensures ScoresAtMost(ScoresAt(t, rs[..|rs| - 11 + i + 1]), IdleScores(i))
  {
    hide IsIdle, TemporalNorm, Track, SchedulerScore, MemoryScore, IoScore, ThermalScore, PowerScore, BaselineAfter;
    var k := |rs| - 11 + i + 1;
    IdleIsCalm(t, rs[..k]);
    JitterInUnit(Track(Stamps(rs[..k])).window);
    if i >= 8 {
      SpacedPrefix(rs, 3, period, period, k);
      EvenSpacingIsNoJitter(rs[..k], period);
    }
  }

  /** A tenth of a second, and an interval fourteen times as long. */
  const TICK_NS: U64 := 100000000
  const GAP_NS: U64 := 1400000000

  /** Three busy ticks, a gap, then idle ones, all a tenth of a second apart but for the gap. */
  function StampAt(i: nat): nat {
    if i < 3 then i * TICK_NS else 2 * TICK_NS + GAP_NS + (i - 3) * TICK_NS
  }

  function AlarmTrace(rest: RawSignals, busy: RawSignals, m: nat): (rs: seq<Reading>)
    requires m <= 13
    ensures |rs| == m
  {
    seq(m, i requires 0 <= i < m => Reading(StampAt(i), if i < 3 then busy else rest))
  }

  lemma AlarmStamps(rest: RawSignals, busy: RawSignals, m: nat)
    requires 0 < m <= 13
    ensures NonDecreasing(Stamps(AlarmTrace(rest, busy, m)))
    ensures var stamps := Stamps(AlarmTrace(rest, busy, m));
            |stamps| == m && forall i :: 0 <= i < m ==> stamps[i] == StampAt(i)
  {
  }

  /** With the gap in the ring the mean interval is at most half the gap. */
  lemma GapSaturates(rest: RawSignals, busy: RawSignals, m: nat)
    requires 4 <= m <= 11
    ensures TemporalNorm(Track(Stamps(AlarmTrace(rest, busy, m))).window) == 1.0
  {
    hide TemporalNorm, Track, Sum, Mean, StampAt, AreDifferences, NonDecreasing;
    var stamps := Stamps(AlarmTrace(rest, busy, m));
    var w := Track(stamps).window;
    AlarmStamps(rest, busy, m);
    WindowIsDifferences(stamps);
    WindowSumNeverWraps(stamps);
    GapInWindow(w, stamps);
    StampsApart(m);
    HalfTheGap(w);
    OutlierSaturates(w, 2 + |w| - (m - 1));
  }

  lemma StampsApart(m: nat)
    requires 4 <= m <= 11
    ensures 3 <= Retained(m) <= 8 && m - 1 - Retained(m) <= 2
    ensures 0 < StampAt(m - 1) - StampAt(m - 1 - Retained(m)) <= GAP_NS + 7 * TICK_NS
  {
  }

  lemma GapInWindow(w: seq<U64>, stamps: seq<U64>)
    requires 4 <= |stamps| <= 11 && |w| == Retained(|stamps|) && AreDifferences(w, Spanned(stamps))
    requires forall i :: 0 <= i < |stamps| ==> stamps[i] == StampAt(i)
    ensures w[2 + |w| - (|stamps| - 1)] == GAP_NS
  {
    hide Sub64;
    var g := 2 + |w| - (|stamps| - 1);
    assert Spanned(stamps)[g] == stamps[2] && Spanned(stamps)[g + 1] == stamps[3];
    ForwardDifference(stamps[3], stamps[2]);
  }

  lemma ForwardDifference(a: U64, b: U64)
    requires b <= a
    ensures Sub64(a, b) == a - b
  {
  }

  lemma HalfTheGap(w: seq<U64>)
    requires 3 <= |w| <= 8 && 0 < Sum(w) <= GAP_NS + 7 * TICK_NS
    ensures Unwrapped(w) && 0.0 < Mean(w) && 2.0 * Mean(w) <= GAP_NS as real
  {
    hide Sum, Mean;
    MeanIsExact(w);
    HalfOf(GAP_NS as real, |w| as real, Mean(w));
  }

  /** A mean of at least three intervals that add up to at most one and a half gaps. */
  lemma HalfOf(gap: real, n: real, m: real)
    requires n >= 3.0 && 0.0 < n * m <= 1.5 * gap
    ensures 0.0 < m && 2.0 * m <= gap
  {
    ScaleOrder(m, 0.0, n);
    assert (2.0 * m) * n == 2.0 * (n * m);
    TimesNonNegative(n - 3.0, gap);
    ScaleOrder(2.0 * m, gap, n);
  }

  /** What the ticks of that history score: three busy ones, eight idle ones with the gap in the ring, then idle. */
  function AlarmScores(k: nat): Scores {
    if k < 3 then BUSY else if k < 11 then JITTER_ONLY else NO_SCORES
  }

  lemma AlarmRows(k: nat)
    requires k < 12
    ensures AlarmAtLeast(k + 1).AtMost(Move(AlarmAtLeast(k), AlarmScores(k + 1)))
  {
    hide LevelStep, MaxRisk;
    var e, f := AlarmAtLeast(k), AlarmAtLeast(k + 1);
    var p := Move(e, AlarmScores(k + 1));
    AlarmLevels(k);
    LevelsOrdered(e.level, e.level, f, p);
  }

  lemma AlarmLevels(k: nat)
    requires k < 12
    ensures LevelFollows(AlarmAtLeast(k), AlarmAtLeast(k + 1))
    ensures k >= 1 ==> AlarmAtLeast(k + 1).level != STABLE
  {
  }

  lemma AlarmStarts()
    ensures AlarmAtLeast(0).AtMost(First(BUSY))
  {
  }

  lemma AlarmTickScores(t: Tuning, rest: RawSignals, busy: RawSignals, m: nat)
    requires t.warningWindow > 0.0 && Extremes(t, rest, busy) && 0 < m <= 13
    ensures ScoresAtMost(AlarmScores(m - 1), ScoresAt(t, AlarmTrace(rest, busy, m)))
  {
    hide TemporalNorm, Track, Resting, Busy, ScoresAt;
    var rs := AlarmTrace(rest, busy, m);
    JitterInUnit(Track(Stamps(rs)).window);
    if m <= 3 {
      ExactBusyScores(t, rs, rest);
      assert AlarmScores(m - 1) == BUSY;
    } else if m <= 11 {
      RestScores(t, rs);
      GapSaturates(rest, busy, m);
      assert AlarmScores(m - 1) == ScoresAt(t, rs);
    } else {
      RestScores(t, rs);
      assert AlarmScores(m - 1) == NO_SCORES;
    }
  }

  lemma {:induction false} AlarmRunIsAbove(t: Tuning, rest: RawSignals, busy: RawSignals, m: nat)
    requires t.warningWindow > 0.0 && Extremes(t, rest, busy) && 0 < m <= 13
    ensures AlarmAtLeast(m - 1).AtMost(View(Pipeline.Run(t, POWER_ON, AlarmTrace(rest, busy, m)).stages))
  {
    hide Pipeline.Run, Move, First, ScoresAt, ScoresAtMost, Resting, Busy, Filters.AtMost, AlarmAtLeast, AlarmScores;
    var rs := AlarmTrace(rest, busy, m);
    RunMoves(t, rs);
    if m == 1 {
      ExactFirst(t, rs, rest);
    } else {
      var e, x := AlarmAtLeast(m - 2), AlarmScores(m - 1);
      var st := View(Pipeline.Run(t, POWER_ON, AlarmTrace(rest, busy, m - 1)).stages);
      assert rs[..m - 1] == AlarmTrace(rest, busy, m - 1);
      AlarmRunIsAbove(t, rest, busy, m - 1);
      AlarmTickScores(t, rest, busy, m);
      MoveMonotone(e, st, x, ScoresAt(t, rs));
      AlarmRows(m - 2);
      AtMostTrans(AlarmAtLeast(m - 1), Move(e, x), Move(st, ScoresAt(t, rs)));
    }
  }

  lemma ExactFirst(t: Tuning, rs: seq<Reading>, rest: RawSignals)
    requires t.warningWindow > 0.0 && |rs| == 1 && Extremes(t, rest, rs[0].raw)
    ensures AlarmAtLeast(0).AtMost(First(ScoresAt(t, rs)))
  {
    hide First, ScoresAt, TemporalNorm, Resting, Busy, AlarmAtLeast;
    ExactBusyScores(t, rs, rest);
    NoIntervals(rs[0]);
    assert rs == [rs[0]];
    AlarmStarts();
  }

  lemma NoIntervals(r: Reading)
    ensures TemporalNorm(Track(Stamps([r])).window) == 0.0
  {
    assert Stamps([r]) == [r.now];
    FirstStamp(r.now);
  }

  lemma IdleTail(t: Tuning, rest: RawSignals, busy: RawSignals, n: nat)
    requires t.warningWindow > 0.0 && Extremes(t, rest, busy) && n <= 10
    ensures EndsIdle(t, AlarmTrace(rest, busy, n + 3), n)
    ensures Spaced(AlarmTrace(rest, busy, n + 3), n, TICK_NS, TICK_NS)
  {
    hide Resting, Busy;
    ExtremesAreBusy(t, rest, busy);
    RestingEndsIdle(t, AlarmTrace(rest, busy, n + 3), n);
  }

  /**
   The recovery deadline of the whole pipeline on an even clock, exactly: n idle ticks end in STABLE after every
   history if and only if n is at least eleven.
   */
  lemma {:induction false} RecoveryTakesExactlyEleven(t: Tuning, rest: RawSignals, busy: RawSignals, n: nat)
    requires t.warningWindow > 0.0 && Extremes(t, rest, busy)
    ensures IdleClearsIn(t, n) <==> n >= 11
  {
    hide Pipeline.Run, IsIdle, AlarmAtLeast, Resting, Busy;
    if n >= 11 {
      forall rs, period | rs != [] && EndsIdle(t, rs, n) && Spaced(rs, n, period, period)
        ensures Pipeline.Run(t, POWER_ON, rs).frame.state == STABLE
      {
        ElevenIdleTicksEndStable(t, rs, period);
      }
    } else {
      var rs := AlarmTrace(rest, busy, n + 3);
      IdleTail(t, rest, busy, n);
      AlarmRunIsAbove(t, rest, busy, n + 3);
      AlarmLevels(n + 1);
      LastLevel(t, rs);
      assert Pipeline.Run(t, POWER_ON, rs).frame.state != STABLE;
    }
  }
}
