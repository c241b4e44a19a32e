/**
 Deadlines of whole pipeline runs: how many ticks of load drive the published state to CRITICAL, and how
 many calm ticks bring it back to STABLE, whatever the machine went through before.
 */
module PipelineDeadlines {
  import opened Numeric
  import opened SignalFrame
  import opened EmaFilter
  import opened Pressures
  import opened LatencyJitter
  import opened Risk
  import opened SystemState
  import opened RiskDeadlines
  import opened Pipeline
  import opened PipelineOrder

  // ----------------------------------------------------------------- bounds over time

  /** A published load after n ticks whose scores are at most theta: 0.20 is the slowest of the alphas. */
  function Fade(theta: real, n: nat): real {
    if n == 0 then 1.0 else 0.80 * Fade(theta, n - 1) + 0.20 * theta
  }

  /** The saturation risk that follows loads fading like that. */
  function SlowFade(theta: real, n: nat): real {
    if n == 0 then 1.0 else 0.82 * SlowFade(theta, n - 1) + 0.18 * Fade(theta, n)
  }

  /** The same from limit + size towards limit, and the realtime risk that follows a load that fades like that. */
  function Wane(limit: real, size: real, n: nat): real {
    if n == 0 then limit + size else 0.80 * Wane(limit, size, n - 1) + 0.20 * limit
  }

  function FastWane(limit: real, size: real, n: nat): real {
    if n == 0 then limit + size else 0.65 * FastWane(limit, size, n - 1) + 0.35 * Wane(limit, size, n)
  }

  /** How much of its start a risk keeps behind two filters in a row: 0.18 behind 0.20 ... */
  function Lag(n: nat): real {
    8.2 * Pow(0.82, n) - 7.2 * Pow(0.80, n)
  }

  /** ... and 0.35 behind 0.20. */
  function ShortLag(n: nat): real {
    28.0 / 15.0 * Pow(0.80, n) - 13.0 / 15.0 * Pow(0.65, n)
  }

  lemma LagSteps(n: nat)
    ensures Lag(n + 1) == 0.82 * Lag(n) + 0.18 * Pow(0.80, n + 1)
    ensures ShortLag(n + 1) == 0.65 * ShortLag(n) + 0.35 * Pow(0.80, n + 1)
  {
  }

  lemma Mix(c: real, k: real, x: real, y: real)
    ensures k * (c * x) + (1.0 - k) * (c * y) == c * (k * x + (1.0 - k) * y)
  {
    Distribute(c, k * x, (1.0 - k) * y);
    assert c * (k * x) == k * (c * x) && c * ((1.0 - k) * y) == (1.0 - k) * (c * y);
  }

  lemma {:induction false} FadesInClosedForm(theta: real, n: nat)
    ensures Fade(theta, n) == theta + (1.0 - theta) * Pow(0.80, n)
    ensures SlowFade(theta, n) == theta + (1.0 - theta) * Lag(n)
  {
    hide Lag, ShortLag;
    if n == 0 {
      NoLag();
    } else {
      FadesInClosedForm(theta, n - 1);
      LagSteps(n - 1);
      Mix(1.0 - theta, 0.80, Pow(0.80, n - 1), 0.0);
      Mix(1.0 - theta, 0.82, Lag(n - 1), Pow(0.80, n));
    }
  }

  lemma {:induction false} WanesInClosedForm(limit: real, size: real, n: nat)
    ensures Wane(limit, size, n) == limit + size * Pow(0.80, n)
    ensures FastWane(limit, size, n) == limit + size * ShortLag(n)
  {
    hide Lag, ShortLag;
    if n == 0 {
      NoLag();
    } else {
      WanesInClosedForm(limit, size, n - 1);
      LagSteps(n - 1);
      Mix(size, 0.80, Pow(0.80, n - 1), 0.0);
      Mix(size, 0.65, ShortLag(n - 1), Pow(0.80, n));
    }
  }

  lemma NoLag()
    ensures Pow(0.80, 0) == Lag(0) == ShortLag(0) == 1.0
  {
  }

  lemma {:induction false} FadesFall(theta: real, n: nat)
    requires 0.0 <= theta <= 1.0
    ensures theta <= Fade(theta, n + 1) <= Fade(theta, n) <= 1.0
    ensures Fade(theta, n) <= SlowFade(theta, n) <= 1.0
  {
    if n > 0 {
      FadesFall(theta, n - 1);
    }
  }

  lemma {:induction false} WanesFall(limit: real, size: real, n: nat)
    requires limit >= 0.0 && size >= 0.0
    ensures limit <= Wane(limit, size, n) && 0.80 * Wane(limit, size, n) <= Wane(limit, size, n + 1)
    ensures Wane(limit, size, n + 1) <= Wane(limit, size, n) <= FastWane(limit, size, n)
    ensures 15.0 * FastWane(limit, size, n) <= 28.0 * Wane(limit, size, n)
  {
    if n > 0 {
      WanesFall(limit, size, n - 1);
    }
  }

  /** Only the size decides how far above its limit a load still is. */
  lemma {:induction false} WanesAlike(limit: real, other: real, size: real, n: nat)
    ensures Wane(limit, size, n) - limit == Wane(other, size, n) - other
  {
    if n > 0 {
      WanesAlike(limit, other, size, n - 1);
    }
  }

  lemma {:induction false} WaneCoversFade(theta: real, limit: real, size: real, n: nat)
    requires 1.0 - theta <= size
    ensures Fade(theta, n) - theta <= Wane(limit, size, n) - limit
  {
    if n > 0 {
      WaneCoversFade(theta, limit, size, n - 1);
    }
  }

  lemma {:induction false} LaterIsFainter(theta: real, m: nat, n: nat)
    requires 0.0 <= theta <= 1.0 && m <= n
    ensures Fade(theta, n) <= Fade(theta, m) && SlowFade(theta, n) <= SlowFade(theta, m)
  {
    if m < n {
      LaterIsFainter(theta, m, n - 1);
      FadesFall(theta, n - 1);
    }
  }

  // --------------------------------------------------------------- one tick of a run

  lemma {:induction false} StageInUnit(t: Tuning, rs: seq<Reading>, s: Stage)
    requires t.warningWindow > 0.0
    ensures FilterOf(Pipeline.Run(t, POWER_ON, rs).stages, s).InUnit()
  {
    hide Pipeline.Run, EmaFilter.Run, ScoreTrace;
    StageIsFilter(t, rs, s);
    ScoreTraceLength(t, rs, s);
    if rs == [] {
      RunEmpty(Alpha(s), FRESH);
    } else {
      RunStaysBetween(Alpha(s), FRESH, ScoreTrace(t, rs, s), 0.0, 1.0);
    }
  }

  lemma ClampNothing(e: Ema)
    requires e.InUnit()
    ensures Clamp01(e.value) == e.value
  {
  }

  /** One tick of a run, stage by stage: the filter step, and a published value the clamp leaves alone. */
  lemma LastTick(t: Tuning, rs: seq<Reading>, s: Stage)
    requires t.warningWindow > 0.0 && rs != []
    ensures var before, after := Pipeline.Run(t, POWER_ON, rs[..|rs| - 1]), Pipeline.Run(t, POWER_ON, rs);
            && FilterOf(after.stages, s)
               == Step(Alpha(s), FilterOf(before.stages, s), ScoreIn(t, before.stages, after.frame, s))
            && FilterOf(before.stages, s).InUnit() && FilterOf(after.stages, s).InUnit()
            && Published(after.frame, s) == FilterOf(after.stages, s).value
            && after.frame.raw == rs[|rs| - 1].raw && after.frame.monotonicNs == rs[|rs| - 1].now
  {
    hide ScoreIn, Alpha, FilterOf, Step, Published, Clamp01;
    var n := |rs| - 1;
    var before := Pipeline.Run(t, POWER_ON, rs[..n]);
    TickFilters(t, before, rs[n], s);
    TickKeepsReading(t, before, rs[n]);
    StageInUnit(t, rs[..n], s);
    StageInUnit(t, rs, s);
    ClampNothing(FilterOf(Pipeline.Run(t, POWER_ON, rs).stages, s));
  }

  lemma TickKeepsReading(t: Tuning, m: Machine, r: Reading)
    requires t.warningWindow > 0.0
    ensures Tick(t, m, r).frame.raw == r.raw && Tick(t, m, r).frame.monotonicNs == r.now
  {
    hide SchedulerScore, MemoryScore, IoScore, ThermalScore, PowerScore, JitterScore, TemporalNorm, Advance, RiskStep,
      Step, Clamp01, TrackBaseline;
  }

  lemma StepAtMost(alpha: real, e: Ema, x: real, bound: real, c: real)
    requires 0.0 <= alpha <= 1.0 && e.value <= bound && x <= c <= bound
    ensures Step(alpha, e, x).value <= (1.0 - alpha) * bound + alpha * c
  {
    TimesNonNegative(1.0 - alpha, bound - e.value);
    TimesNonNegative(alpha, c - x);
    TimesNonNegative(1.0 - alpha, bound - c);
  }

  lemma StepAtLeast(alpha: real, e: Ema, x: real, bound: real, c: real)
    requires 0.0 <= alpha <= 1.0 && e.value >= bound && x >= c >= bound
    ensures Step(alpha, e, x).value >= (1.0 - alpha) * bound + alpha * c
  {
    TimesNonNegative(1.0 - alpha, e.value - bound);
    TimesNonNegative(alpha, x - c);
    TimesNonNegative(1.0 - alpha, c - bound);
  }

  lemma AlphaInUnit(s: Stage)
    ensures 0.0 <= Alpha(s) <= 1.0
  {
  }

  lemma StageAtMost(t: Tuning, rs: seq<Reading>, s: Stage, bound: real, c: real)
    requires t.warningWindow > 0.0 && rs != []
    requires var before := Pipeline.Run(t, POWER_ON, rs[..|rs| - 1]).stages;
             FilterOf(before, s).value <= bound
             && ScoreIn(t, before, Pipeline.Run(t, POWER_ON, rs).frame, s) <= c <= bound
    ensures FilterOf(Pipeline.Run(t, POWER_ON, rs).stages, s).value <= (1.0 - Alpha(s)) * bound + Alpha(s) * c
  {
    hide ScoreIn, FilterOf, Alpha, Step, Published, Pipeline.Run;
    var before := Pipeline.Run(t, POWER_ON, rs[..|rs| - 1]).stages;
    AlphaInUnit(s);
    LastTick(t, rs, s);
    StepAtMost(Alpha(s), FilterOf(before, s), ScoreIn(t, before, Pipeline.Run(t, POWER_ON, rs).frame, s), bound, c);
  }

  lemma StageAtLeast(t: Tuning, rs: seq<Reading>, s: Stage, bound: real, c: real)
    requires t.warningWindow > 0.0 && rs != []
    requires var before := Pipeline.Run(t, POWER_ON, rs[..|rs| - 1]).stages;
             FilterOf(before, s).value >= bound
             && ScoreIn(t, before, Pipeline.Run(t, POWER_ON, rs).frame, s) >= c >= bound
    ensures FilterOf(Pipeline.Run(t, POWER_ON, rs).stages, s).value >= (1.0 - Alpha(s)) * bound + Alpha(s) * c
  {
    hide ScoreIn, FilterOf, Alpha, Step, Published, Pipeline.Run;
    var before := Pipeline.Run(t, POWER_ON, rs[..|rs| - 1]).stages;
    AlphaInUnit(s);
    LastTick(t, rs, s);
    StepAtLeast(Alpha(s), FilterOf(before, s), ScoreIn(t, before, Pipeline.Run(t, POWER_ON, rs).frame, s), bound, c);
  }

  /** What the last tick of a run published, and from which reading. */
  lemma LastFrame(t: Tuning, rs: seq<Reading>)
    requires t.warningWindow > 0.0 && rs != []
    ensures var m := Pipeline.Run(t, POWER_ON, rs);
            && LoadsOf(m.frame) == Loads(m.stages.scheduler.value, m.stages.memory.value, m.stages.io.value,
                                         m.stages.thermal.value, m.stages.power.value, m.stages.latency.value)
            && m.frame.realtimeRisk == m.stages.risk.realtime.value
            && m.frame.saturationRisk == m.stages.risk.saturation.value
            && m.frame.raw == rs[|rs| - 1].raw && m.frame.monotonicNs == rs[|rs| - 1].now
  {
    hide Pipeline.Run, ScoreIn, Step;
    LastTick(t, rs, Scheduler);
    LastTick(t, rs, Memory);
    LastTick(t, rs, Io);
    LastTick(t, rs, Thermal);
    LastTick(t, rs, Power);
    LastTick(t, rs, Latency);
    LastTick(t, rs, Realtime);
    LastTick(t, rs, Saturation);
  }

  /** Power adds a tenth of the published thermal pressure to what its own signals give. */
  lemma PowerSplits(raw: RawSignals, thermal: real)
    requires 0.0 <= thermal <= 1.0
    ensures PowerScore(raw, thermal) == PowerScore(raw, 0.0) + 0.10 * thermal
  {
  }

  lemma SchedulerBetween(raw: RawSignals, baseline: real)
    requires baseline >= 1.0
    ensures BaseScore(raw) <= SchedulerScore(raw, baseline) <= SchedulerScore(raw, 1.0)
  {
    hide BaseScore, SchedulerScore, IrqNorm;
    ScoreSplits(raw, baseline);
    ScoreSplits(raw, 1.0);
    LowerBaselineScoresHigher(baseline, 1.0, raw.irq);
    NormInUnit(baseline, raw.irq);
  }

  // ------------------------------------------------------------- scores of a run's ticks

  /**
   What the signals of one tick score: the scheduler against the interrupt baseline of the run, power
   without its share of the thermal pressure, and the dispersion of the tick intervals.
   */
  datatype Scores = Scores(scheduler: real, memory: real, io: real, thermal: real, power: real, temporal: real)

  /** The scores of the last tick. */
  function ScoresAt(t: Tuning, rs: seq<Reading>): Scores
    requires t.warningWindow > 0.0 && rs != []
  {
    var raw := rs[|rs| - 1].raw;
    Scores(SchedulerScore(raw, BaselineAfter(Rates(rs)).value), MemoryScore(t.exp, raw), IoScore(t.exp, raw),
           ThermalScore(t.warningWindow, raw), PowerScore(raw, 0.0), TemporalNorm(Track(Stamps(rs)).window))
  }

  /** In a run these are the scores its stages see. */
  lemma ScoresOfRun(t: Tuning, rs: seq<Reading>)
    requires t.warningWindow > 0.0 && rs != []
    ensures var st, f := Pipeline.Run(t, POWER_ON, rs[..|rs| - 1]).stages, Pipeline.Run(t, POWER_ON, rs).frame;
            var x := ScoresAt(t, rs);
            && ScoreIn(t, st, f, Scheduler) == x.scheduler && ScoreIn(t, st, f, Memory) == x.memory
            && ScoreIn(t, st, f, Io) == x.io && ScoreIn(t, st, f, Thermal) == x.thermal
            && ScoreIn(t, st, f, Power) == x.power + 0.10 * f.thermalPressure
            && ScoreIn(t, st, f, Latency) == JitterScore(x.temporal, f.schedulerPressure, f.ioPressure)
  {
    hide Pipeline.Run, SchedulerScore, MemoryScore, IoScore, ThermalScore, PowerScore, JitterScore, TrackBaseline,
      BaselineAfter, TemporalNorm, Track, Advance, Rates;
    var f := Pipeline.Run(t, POWER_ON, rs).frame;
    LastFrame(t, rs);
    AllInUnit(t, rs);
    LastBaseline(t, rs);
    LastClock(t, rs);
    PowerSplits(f.raw, f.thermalPressure);
  }

  lemma LastBaseline(t: Tuning, rs: seq<Reading>)
    requires t.warningWindow > 0.0 && rs != []
    ensures TrackBaseline(Pipeline.Run(t, POWER_ON, rs[..|rs| - 1]).stages.irq, rs[|rs| - 1].raw.irq)
         == BaselineAfter(Rates(rs))
  {
    hide Tick, TrackBaseline, BaselineAfter, Rates;
    var before := Pipeline.Run(t, POWER_ON, rs[..|rs| - 1]);
    SchedulerIsSum(t, rs);
    TickScheduler(t, before, rs[|rs| - 1]);
  }

  lemma LastClock(t: Tuning, rs: seq<Reading>)
    requires t.warningWindow > 0.0 && rs != []
    ensures Advance(Pipeline.Run(t, POWER_ON, rs[..|rs| - 1]).stages.clock, rs[|rs| - 1].now) == Track(Stamps(rs))
  {
    hide Advance, Pipeline.Run;
    ClockFollowsReadings(t, rs[..|rs| - 1]);
    assert Stamps(rs)[..|rs| - 1] == Stamps(rs[..|rs| - 1]);
  }

  // ------------------------------------------------------------------- calm ticks

  /** No stage's own signals score above theta. */
  predicate Calm(x: Scores, theta: real) {
    x.scheduler <= theta && x.memory <= theta && x.io <= theta && x.thermal <= theta && x.power <= 0.90 * theta
  }

  ghost predicate EndsCalm(t: Tuning, rs: seq<Reading>, n: nat, theta: real)
    requires t.warningWindow > 0.0
  {
    n <= |rs| && forall k :: |rs| - n < k <= |rs| ==> Calm(ScoresAt(t, rs[..k]), theta)
  }

  lemma CalmBefore(t: Tuning, rs: seq<Reading>, n: nat, theta: real)
    requires t.warningWindow > 0.0 && n > 0 && EndsCalm(t, rs, n, theta)
    ensures EndsCalm(t, rs[..|rs| - 1], n - 1, theta) && Calm(ScoresAt(t, rs), theta)
  {
    hide ScoresAt, Calm;
    var init := rs[..|rs| - 1];
    forall k | |init| - (n - 1) < k <= |init|
      ensures Calm(ScoresAt(t, init[..k]), theta)
    {
      assert init[..k] == rs[..k];
    }
    assert rs[..|rs|] == rs;
  }

  /** Readings that score at most theta against the lowest baseline there is do so in every run. */
  lemma ReadingsEndCalm(t: Tuning, rs: seq<Reading>, n: nat, theta: real)
    requires t.warningWindow > 0.0 && n <= |rs|
    requires forall i :: |rs| - n <= i < |rs| ==>
               && SchedulerScore(rs[i].raw, 1.0) <= theta && MemoryScore(t.exp, rs[i].raw) <= theta
               && IoScore(t.exp, rs[i].raw) <= theta && ThermalScore(t.warningWindow, rs[i].raw) <= theta
               && PowerScore(rs[i].raw, 0.0) <= 0.90 * theta
    ensures EndsCalm(t, rs, n, theta)
  {
    hide SchedulerScore, MemoryScore, IoScore, ThermalScore, PowerScore, TemporalNorm, Track, BaselineAfter;
    forall k | |rs| - n < k <= |rs|
      ensures Calm(ScoresAt(t, rs[..k]), theta)
    {
      assert rs[..k][k - 1] == rs[k - 1];
      SchedulerBetween(rs[k - 1].raw, BaselineAfter(Rates(rs[..k])).value);
    }
  }

  /** The last n readings were taken at distances between lo and hi. */
  ghost predicate Spaced(rs: seq<Reading>, n: nat, lo: nat, hi: nat) {
    n <= |rs| && forall i :: |rs| - n < i < |rs| ==>
      rs[i - 1].now as int + lo <= rs[i].now as int <= rs[i - 1].now as int + hi
  }

  /** At the last n ticks the dispersion of the tick intervals was at most tau. */
  ghost predicate EndsSteady(rs: seq<Reading>, n: nat, tau: real) {
    n <= |rs| && forall k :: |rs| - n < k <= |rs| ==> TemporalNorm(Track(Stamps(rs[..k])).window) <= tau
  }

  /** Five loads and the saturation risk have faded this far. */
  predicate Faded(st: Stages, theta: real, n: nat) {
    && st.scheduler.value <= Fade(theta, n) && st.memory.value <= Fade(theta, n) && st.io.value <= Fade(theta, n)
    && st.thermal.value <= Fade(theta, n) && st.power.value <= Fade(theta, n)
    && st.risk.saturation.value <= SlowFade(theta, n)
  }

  lemma {:induction false} CalmFades(t: Tuning, rs: seq<Reading>, n: nat, theta: real)
    requires t.warningWindow > 0.0 && 0.0 <= theta <= 1.0 && EndsCalm(t, rs, n, theta)
    ensures Faded(Pipeline.Run(t, POWER_ON, rs).stages, theta, n)
  {
    hide Pipeline.Run, Calm, ScoresAt;
    if n == 0 {
      AllInUnit(t, rs);
    } else {
      CalmBefore(t, rs, n, theta);
      CalmFades(t, rs[..|rs| - 1], n - 1, theta);
      CalmTickFades(t, rs, n, theta);
    }
  }

  lemma AllInUnit(t: Tuning, rs: seq<Reading>)
    requires t.warningWindow > 0.0
    ensures var st := Pipeline.Run(t, POWER_ON, rs).stages;
            && st.scheduler.InUnit() && st.memory.InUnit() && st.io.InUnit() && st.thermal.InUnit()
            && st.power.InUnit() && st.latency.InUnit() && Bounded(st.risk)
  {
    hide Pipeline.Run;
    StageInUnit(t, rs, Scheduler);
    StageInUnit(t, rs, Memory);
    StageInUnit(t, rs, Io);
    StageInUnit(t, rs, Thermal);
    StageInUnit(t, rs, Power);
    StageInUnit(t, rs, Latency);
    StageInUnit(t, rs, Realtime);
    StageInUnit(t, rs, Saturation);
  }

  lemma CalmTickFades(t: Tuning, rs: seq<Reading>, n: nat, theta: real)
    requires t.warningWindow > 0.0 && 0.0 <= theta <= 1.0 && n > 0 && rs != [] && Calm(ScoresAt(t, rs), theta)
    requires Faded(Pipeline.Run(t, POWER_ON, rs[..|rs| - 1]).stages, theta, n - 1)
    ensures Faded(Pipeline.Run(t, POWER_ON, rs).stages, theta, n)
  {
    hide Pipeline.Run, ScoresAt, ScoreIn;
    var st, f := Pipeline.Run(t, POWER_ON, rs[..|rs| - 1]).stages, Pipeline.Run(t, POWER_ON, rs).frame;
    var bound := Fade(theta, n - 1);
    FadesFall(theta, n - 1);
    LastFrame(t, rs);
    AllInUnit(t, rs);
    ScoresOfRun(t, rs);
    StageAtMost(t, rs, Scheduler, bound, theta);
    StageAtMost(t, rs, Memory, bound, theta);
    StageAtMost(t, rs, Io, bound, theta);
    StageAtMost(t, rs, Thermal, bound, theta);
    StageAtMost(t, rs, Power, bound, 0.90 * theta + 0.10 * Fade(theta, n));
    SaturationAtMost(f.schedulerPressure, f.memoryPressure, f.ioPressure, f.powerPressure, f.thermalPressure,
                     Fade(theta, n));
    SaturationOfRun(t, rs);
    StageAtMost(t, rs, Saturation, SlowFade(theta, n - 1), Fade(theta, n));
  }

  lemma SaturationOfRun(t: Tuning, rs: seq<Reading>)
    requires t.warningWindow > 0.0 && rs != []
    ensures var st, f := Pipeline.Run(t, POWER_ON, rs[..|rs| - 1]).stages, Pipeline.Run(t, POWER_ON, rs).frame;
            && ScoreIn(t, st, f, Saturation) == SaturationScore(f.schedulerPressure, f.memoryPressure, f.ioPressure,
                                                                f.powerPressure, f.thermalPressure)
            && ScoreIn(t, st, f, Realtime) == RealtimeScore(f.latencyJitter, f.schedulerPressure, f.thermalPressure,
                                                            f.ioPressure)
  {
    hide Pipeline.Run, SaturationScore, RealtimeScore;
  }

  lemma {:induction false} StepsAscend(stamps: seq<U64>)
    requires forall i :: 0 < i < |stamps| ==> stamps[i - 1] <= stamps[i]
    ensures NonDecreasing(stamps)
  {
    if |stamps| > 1 {
      var n := |stamps| - 1;
      StepsAscend(stamps[..n]);
      forall i, j | 0 <= i <= j < |stamps|
        ensures stamps[i] <= stamps[j]
      {
        if i < j == n {
          assert stamps[..n][i] <= stamps[..n][n - 1] <= stamps[n];
        } else if j < n {
          assert stamps[..n][i] <= stamps[..n][j];
        }
      }
    }
  }

  lemma SpannedOfSpaced(rs: seq<Reading>, lo: nat, hi: nat)
    requires Spaced(rs, 9, lo, hi)
    ensures var last := Spanned(Stamps(rs));
            && |last| == 9
            && forall i :: 0 < i < 9 ==> last[i - 1] as int + lo <= last[i] as int <= last[i - 1] as int + hi
  {
    var stamps, last := Stamps(rs), Spanned(Stamps(rs));
    var m := |stamps| - 9;
    forall i | 0 < i < 9
      ensures last[i - 1] as int + lo <= last[i] as int <= last[i - 1] as int + hi
    {
      assert last[i] == rs[m + i].now && last[i - 1] == rs[m + i - 1].now;
    }
  }

  lemma StepsBoundDifferences(diffs: seq<U64>, stamps: seq<U64>, lo: nat, hi: nat)
    requires AreDifferences(diffs, stamps)
    requires forall i :: 0 < i < |stamps| ==>
               stamps[i - 1] as int + lo <= stamps[i] as int <= stamps[i - 1] as int + hi
    ensures Within(diffs, lo, hi)
  {
    forall i | 0 <= i < |diffs|
      ensures lo <= diffs[i] <= hi
    {
      assert stamps[i + 1 - 1] as int + lo <= stamps[i + 1] as int <= stamps[i + 1 - 1] as int + hi;
    }
  }

  /** Nine readings fill the ring with their eight distances, and nothing else is left in it. */
  lemma {:induction false} WindowOfSpaced(rs: seq<Reading>, lo: nat, hi: nat)
    requires Spaced(rs, 9, lo, hi)
    ensures var w := Track(Stamps(rs)).window;
            |w| == 8 && Unwrapped(w) && Within(w, lo, hi)
  {
    hide Track, Sum, Sum64, Sub64, AreDifferences, NonDecreasing, Spanned, Within;
    var w, last := Track(Stamps(rs)).window, Spanned(Stamps(rs));
    WindowIsDifferences(Stamps(rs));
    SpannedOfSpaced(rs, lo, hi);
    StepsBoundDifferences(w, last, lo, hi);
    StepsAscend(last);
    DifferencesTelescope(w, last);
  }

  /** Nine readings at equal distances leave no jitter at all. */
  lemma {:induction false} EvenSpacingIsNoJitter(rs: seq<Reading>, period: nat)
    requires Spaced(rs, 9, period, period)
    ensures TemporalNorm(Track(Stamps(rs)).window) == 0.0
  {
    hide TemporalNorm, Track;
    WindowOfSpaced(rs, period, period);
    TemporalNormZeroIffEqual(Track(Stamps(rs)).window);
  }

  /** Distances that differ by at most a fraction of the shortest leave a jitter of at most twice that fraction. */
  lemma {:induction false} SpacingBoundsJitter(rs: seq<Reading>, lo: nat, hi: nat)
    requires Spaced(rs, 9, lo, hi) && 0 < lo <= hi
    ensures TemporalNorm(Track(Stamps(rs)).window) <= 2.0 * ((hi - lo) as real / lo as real)
  {
    hide TemporalNorm, Track;
    if lo == hi {
      EvenSpacingIsNoJitter(rs, lo);
    } else {
      WindowOfSpaced(rs, lo, hi);
      TemporalNormInSpread(Track(Stamps(rs)).window, lo, hi);
    }
  }

  lemma SpacedPrefix(rs: seq<Reading>, n: nat, lo: nat, hi: nat, k: nat)
    requires Spaced(rs, n + 8, lo, hi) && |rs| - n < k <= |rs|
    ensures Spaced(rs[..k], 9, lo, hi)
  {
  }

  lemma SpacedIsSteady(rs: seq<Reading>, n: nat, lo: nat, hi: nat)
    requires Spaced(rs, n + 8, lo, hi) && 0 < lo <= hi
    ensures EndsSteady(rs, n, 2.0 * ((hi - lo) as real / lo as real))
  {
    hide TemporalNorm, Track;
    forall k | |rs| - n < k <= |rs|
      ensures TemporalNorm(Track(Stamps(rs[..k])).window) <= 2.0 * ((hi - lo) as real / lo as real)
    {
      SpacedPrefix(rs, n, lo, hi, k);
      SpacingBoundsJitter(rs[..k], lo, hi);
    }
  }

  // Loads at most theta and jitter at most tau: where latency and the realtime risk tend to, and how far
  // above that they start at most.

  function LatencyLimit(theta: real, tau: real): real {
    0.60 * tau + 0.40 * theta
  }

  function RealtimeLimit(theta: real, tau: real): real {
    0.33 * tau + 0.67 * theta
  }

  function Room(theta: real, tau: real): real {
    1.0 - if theta < tau then theta else tau
  }

  /** The larger risk is at most this, m ticks after the clock and n ticks after the loads have calmed down. */
  function RiskCeiling(theta: real, tau: real, m: nat, n: nat): real {
    MaxRisk(FastWane(RealtimeLimit(theta, tau), Room(theta, tau), m), SlowFade(theta, n))
  }

  predicate Settled(st: Stages, theta: real, tau: real, m: nat, n: nat) {
    && st.latency.value <= Wane(LatencyLimit(theta, tau), Room(theta, tau), m)
    && st.risk.realtime.value <= FastWane(RealtimeLimit(theta, tau), Room(theta, tau), m)
    && LoweredBy(RiskCeiling(theta, tau, m, n), st.risk.level)
  }

  predicate Strengths(theta: real, tau: real) {
    0.0 <= theta <= 1.0 && 0.0 <= tau <= 1.0
  }

  /** The loads have been calm for n ticks, the clock steady for the last m of them. */
  lemma {:induction false} CalmSettles(t: Tuning, rs: seq<Reading>, m: nat, n: nat, theta: real, tau: real)
    requires t.warningWindow > 0.0 && Strengths(theta, tau) && m <= n
    requires EndsCalm(t, rs, n, theta) && EndsSteady(rs, m, tau)
    ensures Settled(Pipeline.Run(t, POWER_ON, rs).stages, theta, tau, m, n)
  {
    hide Pipeline.Run, Calm, ScoresAt, TemporalNorm, Track;
    if m == 0 {
      AllInUnit(t, rs);
    } else {
      CalmBefore(t, rs, n, theta);
      SteadyBefore(rs, m, tau);
      CalmSettles(t, rs[..|rs| - 1], m - 1, n - 1, theta, tau);
      CalmTickSettles(t, rs, m, n, theta, tau);
    }
  }

  lemma SteadyBefore(rs: seq<Reading>, m: nat, tau: real)
    requires m > 0 && EndsSteady(rs, m, tau)
    ensures EndsSteady(rs[..|rs| - 1], m - 1, tau) && TemporalNorm(Track(Stamps(rs)).window) <= tau
  {
    hide TemporalNorm, Track;
    var init := rs[..|rs| - 1];
    forall k | |init| - (m - 1) < k <= |init|
      ensures TemporalNorm(Track(Stamps(init[..k])).window) <= tau
    {
      assert init[..k] == rs[..k];
    }
    assert rs[..|rs|] == rs;
  }

  lemma CalmTickSettles(t: Tuning, rs: seq<Reading>, m: nat, n: nat, theta: real, tau: real)
    requires t.warningWindow > 0.0 && Strengths(theta, tau) && 0 < m <= n
    requires rs != [] && EndsCalm(t, rs, n, theta) && TemporalNorm(Track(Stamps(rs)).window) <= tau
    requires Settled(Pipeline.Run(t, POWER_ON, rs[..|rs| - 1]).stages, theta, tau, m - 1, n - 1)
    ensures Settled(Pipeline.Run(t, POWER_ON, rs).stages, theta, tau, m, n)
  {
    hide Pipeline.Run, TemporalNorm, Track, EndsCalm, LoweredBy, RiskCeiling, SlowFade, Fade, Wane, FastWane,
      LatencyLimit, RealtimeLimit, Room, LevelStep, MaxRisk, LoadsOf;
    var before, f := Pipeline.Run(t, POWER_ON, rs[..|rs| - 1]), Pipeline.Run(t, POWER_ON, rs).frame;
    CalmFades(t, rs, n, theta);
    LaterIsFainter(theta, m, n);
    LatencySettles(t, rs, m, theta, tau);
    RealtimeSettles(t, rs, m, theta, tau);
    LastFrame(t, rs);
    LastLevel(t, rs);
    CeilingLowers(theta, tau, m - 1, n - 1, before.stages.risk.level, f.realtimeRisk, f.saturationRisk);
  }

  lemma LatencySettles(t: Tuning, rs: seq<Reading>, m: nat, theta: real, tau: real)
    requires t.warningWindow > 0.0 && Strengths(theta, tau) && 0 < m && rs != []
    requires Faded(Pipeline.Run(t, POWER_ON, rs).stages, theta, m)
    requires TemporalNorm(Track(Stamps(rs)).window) <= tau
    requires Pipeline.Run(t, POWER_ON, rs[..|rs| - 1]).stages.latency.value
          <= Wane(LatencyLimit(theta, tau), Room(theta, tau), m - 1)
    ensures Pipeline.Run(t, POWER_ON, rs).stages.latency.value <= Wane(LatencyLimit(theta, tau), Room(theta, tau), m)
  {
    hide Pipeline.Run, JitterScore, TemporalNorm, Track, Fade, Wane, LatencyLimit, Room, ScoreIn;
    var f := Pipeline.Run(t, POWER_ON, rs).frame;
    LastFrame(t, rs);
    AllInUnit(t, rs);
    ScoresOfRun(t, rs);
    LatencyStep(theta, tau, m - 1);
    LatencyScoreAtMost(TemporalNorm(Track(Stamps(rs)).window), f.schedulerPressure, f.ioPressure, tau, Fade(theta, m));
    StageAtMost(t, rs, Latency, Wane(LatencyLimit(theta, tau), Room(theta, tau), m - 1),
                0.60 * tau + 0.40 * Fade(theta, m));
  }

  lemma RealtimeSettles(t: Tuning, rs: seq<Reading>, m: nat, theta: real, tau: real)
    requires t.warningWindow > 0.0 && Strengths(theta, tau) && 0 < m && rs != []
    requires Faded(Pipeline.Run(t, POWER_ON, rs).stages, theta, m)
    requires Pipeline.Run(t, POWER_ON, rs).stages.latency.value <= Wane(LatencyLimit(theta, tau), Room(theta, tau), m)
    requires Pipeline.Run(t, POWER_ON, rs[..|rs| - 1]).stages.risk.realtime.value
          <= FastWane(RealtimeLimit(theta, tau), Room(theta, tau), m - 1)
    ensures Pipeline.Run(t, POWER_ON, rs).stages.risk.realtime.value
         <= FastWane(RealtimeLimit(theta, tau), Room(theta, tau), m)
  {
    hide Pipeline.Run, RealtimeScore, Fade, Wane, FastWane, LatencyLimit, RealtimeLimit, Room, ScoreIn;
    var f := Pipeline.Run(t, POWER_ON, rs).frame;
    LastFrame(t, rs);
    AllInUnit(t, rs);
    SaturationOfRun(t, rs);
    FadesFall(theta, m);
    RealtimeStep(theta, tau, m - 1);
    RealtimeScoreAtMost(f.latencyJitter, f.schedulerPressure, f.thermalPressure, f.ioPressure,
                        Wane(LatencyLimit(theta, tau), Room(theta, tau), m), Fade(theta, m));
    StageAtMost(t, rs, Realtime, FastWane(RealtimeLimit(theta, tau), Room(theta, tau), m - 1),
                Wane(RealtimeLimit(theta, tau), Room(theta, tau), m));
  }

  lemma LatencyScoreAtMost(temporal: real, scheduler: real, io: real, tau: real, load: real)
    requires temporal <= tau && scheduler <= load && io <= load && 0.0 <= load <= 1.0
    ensures JitterScore(temporal, scheduler, io) <= 0.60 * tau + 0.40 * load
  {
    hide Clamp01;
    ClampAtMost(scheduler, load);
    ClampAtMost(io, load);
  }

  lemma RealtimeScoreAtMost(latency: real, scheduler: real, thermal: real, io: real, top: real, load: real)
    requires 0.0 <= latency <= top && latency <= 1.0 && 0.0 <= load <= 1.0
    requires scheduler <= load && thermal <= load && io <= load
    ensures RealtimeScore(latency, scheduler, thermal, io) <= 0.55 * top + 0.45 * load
  {
    hide Clamp01;
    ClampAtMost(latency, latency);
    ClampAtMost(scheduler, load);
    ClampAtMost(thermal, load);
    ClampAtMost(io, load);
  }

  lemma LatencyStep(theta: real, tau: real, m: nat)
    requires Strengths(theta, tau)
    ensures var limit, room := LatencyLimit(theta, tau), Room(theta, tau);
            && 0.60 * tau + 0.40 * Fade(theta, m + 1) <= Wane(limit, room, m)
            && 0.70 * Wane(limit, room, m) + 0.30 * (0.60 * tau + 0.40 * Fade(theta, m + 1))
               <= Wane(limit, room, m + 1)
            && 0.0 <= Fade(theta, m + 1) <= 1.0
  {
    var limit, room := LatencyLimit(theta, tau), Room(theta, tau);
    FadesFall(theta, m);
    WanesFall(limit, room, m);
    WaneCoversFade(theta, limit, room, m + 1);
  }

  lemma RealtimeStep(theta: real, tau: real, m: nat)
    requires Strengths(theta, tau)
    ensures var limit, room := RealtimeLimit(theta, tau), Room(theta, tau);
            && 0.55 * Wane(LatencyLimit(theta, tau), room, m + 1) + 0.45 * Fade(theta, m + 1)
               <= Wane(limit, room, m + 1)
            && Wane(limit, room, m + 1) <= FastWane(limit, room, m)
            && FastWane(limit, room, m + 1) == 0.65 * FastWane(limit, room, m) + 0.35 * Wane(limit, room, m + 1)
  {
    var limit, room := RealtimeLimit(theta, tau), Room(theta, tau);
    WanesFall(limit, room, m);
    WanesAlike(LatencyLimit(theta, tau), limit, room, m + 1);
    WaneCoversFade(theta, limit, room, m + 1);
  }

  lemma LastLevel(t: Tuning, rs: seq<Reading>)
    requires t.warningWindow > 0.0 && rs != []
    ensures var before, after := Pipeline.Run(t, POWER_ON, rs[..|rs| - 1]), Pipeline.Run(t, POWER_ON, rs);
            && after.frame.state == after.stages.risk.level
            && after.stages.risk.level
               == LevelStep(before.stages.risk.level, MaxRisk(after.frame.realtimeRisk, after.frame.saturationRisk))
  {
    hide Tick, LevelStep, MaxRisk;
    TickRisk(t, Pipeline.Run(t, POWER_ON, rs[..|rs| - 1]), rs[|rs| - 1]);
  }

  /** The ceiling sinks slowly enough for the level to keep up with it, one level a tick. */
  lemma CeilingLowers(theta: real, tau: real, m: nat, n: nat, level: Level, realtime: real, saturation: real)
    requires Strengths(theta, tau) && LoweredBy(RiskCeiling(theta, tau, m, n), level)
    requires realtime <= FastWane(RealtimeLimit(theta, tau), Room(theta, tau), m + 1)
    requires saturation <= SlowFade(theta, n + 1)
    ensures LoweredBy(RiskCeiling(theta, tau, m + 1, n + 1), LevelStep(level, MaxRisk(realtime, saturation)))
  {
    hide Fade, FastWane, SlowFade, RealtimeLimit, Room;
    CeilingSinksSlowly(theta, tau, m, n);
  }

  lemma CeilingSinksSlowly(theta: real, tau: real, m: nat, n: nat)
    requires Strengths(theta, tau)
    ensures 0.80 * RiskCeiling(theta, tau, m, n) <= RiskCeiling(theta, tau, m + 1, n + 1)
  {
    hide Wane, Fade;
    WanesFall(RealtimeLimit(theta, tau), Room(theta, tau), m);
    FadesFall(theta, n);
    FadesFall(theta, n + 1);
  }

  /**
   Recovery, end to end: when the loads of the last n ticks of any run are at most theta, and the tick intervals
   disperse by at most tau at the last m of them, the published state is STABLE once two closed expressions
   have fallen to 0.30. No clock has to be perfect, and nothing is asked of the history.
   */
  lemma {:induction false} CalmEndsStable(t: Tuning, rs: seq<Reading>, m: nat, n: nat, theta: real, tau: real)
    requires t.warningWindow > 0.0 && Strengths(theta, tau) && m <= n
    requires EndsCalm(t, rs, n, theta) && EndsSteady(rs, m, tau)
    requires theta + (1.0 - theta) * Lag(n) <= 0.30
    requires RealtimeLimit(theta, tau) + Room(theta, tau) * ShortLag(m) <= 0.30
    ensures rs != [] && Pipeline.Run(t, POWER_ON, rs).frame.state == STABLE
  {
    hide Pipeline.Run, Calm, Lag, ShortLag, TemporalNorm, Track, RealtimeLimit, LatencyLimit, Room;
    FadesInClosedForm(theta, n);
    WanesInClosedForm(RealtimeLimit(theta, tau), Room(theta, tau), m);
    CalmSettles(t, rs, m, n, theta, tau);
    if n > 0 {
      LastLevel(t, rs);
    }
  }

  /** All signals at rest; an exponential of at least one means a load of at most zero. */
  predicate Resting(t: Tuning, raw: RawSignals) {
    && raw.cpu <= 0.0 && raw.psi <= 0.0 && raw.psiMemory <= 0.0 && raw.psiIo <= 0.0 && raw.softirqs <= 0.0
    && raw.network <= 0.0 && raw.cpuThrottleRatio <= 0.0 && raw.thermal >= t.warningWindow
    && t.exp(-raw.memory / 262144.0) >= 1.0 && t.exp(-raw.disk / 50.0) >= 1.0
  }

  /** The signals rest and interrupts come no faster than the run is used to. */
  predicate IsIdle(t: Tuning, rs: seq<Reading>)
    requires rs != []
  {
    Resting(t, rs[|rs| - 1].raw) && rs[|rs| - 1].raw.irq <= BaselineAfter(Rates(rs)).value + 0.5
  }

  ghost predicate EndsIdle(t: Tuning, rs: seq<Reading>, n: nat) {
    n <= |rs| && forall k :: |rs| - n < k <= |rs| ==> IsIdle(t, rs[..k])
  }

  /** An idle tick is one whose signals score nothing. */
  lemma IdleIsCalm(t: Tuning, rs: seq<Reading>)
    requires t.warningWindow > 0.0 && rs != []
    ensures IsIdle(t, rs) <==> Calm(ScoresAt(t, rs), 0.0)
  {
    hide SchedulerScore, MemoryScore, IoScore, ThermalScore, PowerScore, TemporalNorm, Track, BaselineAfter, Resting;
    RestingScoresNothing(t, rs[|rs| - 1].raw, BaselineAfter(Rates(rs)).value);
  }

  lemma IdleEndsCalm(t: Tuning, rs: seq<Reading>, n: nat)
    requires t.warningWindow > 0.0
    ensures EndsIdle(t, rs, n) <==> EndsCalm(t, rs, n, 0.0)
  {
    hide Calm, ScoresAt, IsIdle;
    forall k | 0 < k <= |rs|
      ensures IsIdle(t, rs[..k]) <==> Calm(ScoresAt(t, rs[..k]), 0.0)
    {
      IdleIsCalm(t, rs[..k]);
    }
  }

  lemma RestingScoresNothing(t: Tuning, raw: RawSignals, baseline: real)
    requires t.warningWindow > 0.0 && baseline >= 1.0
    ensures Resting(t, raw) && raw.irq <= baseline + 0.5
       <==> SchedulerScore(raw, baseline) <= 0.0 && MemoryScore(t.exp, raw) <= 0.0 && IoScore(t.exp, raw) <= 0.0
            && ThermalScore(t.warningWindow, raw) <= 0.0 && PowerScore(raw, 0.0) <= 0.0
  {
    hide SchedulerScore, MemoryScore, IoScore, ThermalScore, PowerScore;
    ScoresSpanUnit(t.exp, t.warningWindow, baseline, raw, 0.0);
  }

  /** With rates up to 1.5 the signals alone decide. */
  lemma RestingEndsIdle(t: Tuning, rs: seq<Reading>, n: nat)
    requires n <= |rs| && forall i :: |rs| - n <= i < |rs| ==> Resting(t, rs[i].raw) && rs[i].raw.irq <= 1.5
    ensures EndsIdle(t, rs, n)
  {
    hide Resting, BaselineAfter;
    forall k | |rs| - n < k <= |rs|
      ensures IsIdle(t, rs[..k])
    {
      assert rs[..k][k - 1] == rs[k - 1];
    }
  }

  /** And at a steady rate, however high, once the baseline has caught up with it. */
  lemma SteadyRestEndsIdle(t: Tuning, rs: seq<Reading>, n: nat, warmup: nat, rate: real)
    requires 0 < warmup && n + warmup <= |rs| && (rate - 1.0) * Pow(0.9, warmup) <= 0.5
    requires forall i :: |rs| - n - warmup <= i < |rs| ==> rs[i].raw.irq == rate
    requires forall i :: |rs| - n <= i < |rs| ==> Resting(t, rs[i].raw)
    ensures EndsIdle(t, rs, n)
  {
    hide Resting, BaselineAfter, Pow, Bursts;
    forall k | |rs| - n < k <= |rs|
      ensures IsIdle(t, rs[..k])
    {
      assert rs[..k][k - 1] == rs[k - 1];
      SteadyRateFallsSilent(Rates(rs[..k]), warmup, rate);
    }
  }

  /**
   Nineteen idle ticks clear every alarm when their distances differ by at most a fifth of the shortest,
   which fills the ring with its own intervals after the first eight.
   */
  lemma {:induction false} NineteenIdleTicksEndStable(t: Tuning, rs: seq<Reading>, n: nat, lo: nat, hi: nat)
    requires t.warningWindow > 0.0 && 19 <= n <= |rs|
    requires Spaced(rs, n, lo, hi) && 0 < lo <= hi && 5 * (hi - lo) <= lo && EndsIdle(t, rs, n)
    ensures Pipeline.Run(t, POWER_ON, rs).frame.state == STABLE
  {
    hide Pipeline.Run, Lag, ShortLag, Spaced, EndsCalm, EndsIdle, TemporalNorm, Track;
    var tau := 2.0 * ((hi - lo) as real / lo as real);
    FifthIsTwoFifths(lo, hi);
    IdleEndsCalm(t, rs, n);
    SpacedIsSteady(rs, n - 8, lo, hi);
    LagsFall(16, n);
    LagsFall(11, n - 8);
    LagValues();
    CalmEndsStable(t, rs, n - 8, n, 0.0, tau);
  }

  lemma FifthIsTwoFifths(lo: nat, hi: nat)
    requires 0 < lo <= hi && 5 * (hi - lo) <= lo
    ensures 0.0 <= 2.0 * ((hi - lo) as real / lo as real) <= 0.40
  {
    RatioThreshold((hi - lo) as real, lo as real, 0.0);
    RatioThreshold((hi - lo) as real, lo as real, 0.20);
  }

  lemma {:induction false} LagsFall(m: nat, n: nat)
    requires m <= n
    ensures Lag(n) <= Lag(m) && ShortLag(n) <= ShortLag(m)
    ensures ShortLag(n) >= 0.0
  {
    hide Lag, ShortLag, Fade, SlowFade, Wane, FastWane, Pow;
    FadesInClosedForm(0.0, m);
    FadesInClosedForm(0.0, n);
    LaterIsFainter(0.0, m, n);
    WanesInClosedForm(0.0, 1.0, m);
    WanesInClosedForm(0.0, 1.0, n);
    LaterWanes(m, n);
  }

  lemma {:induction false} LaterWanes(m: nat, n: nat)
    requires m <= n
    ensures 0.0 <= FastWane(0.0, 1.0, n) <= FastWane(0.0, 1.0, m)
  {
    WanesFall(0.0, 1.0, n);
    if m < n {
      LaterWanes(m, n - 1);
      WanesFall(0.0, 1.0, n - 1);
    }
  }

  lemma LagValues()
    ensures Lag(16) <= 0.15 && ShortLag(11) <= 0.154
  {
    assert Pow(0.80, 8) >= 0.167772 && Pow(0.82, 8) <= 0.204415;
    assert Pow(0.80, 11) <= 0.085900 && Pow(0.65, 11) >= 0.0087;
    assert Pow(0.80, 12) >= 0.068719 && Pow(0.82, 12) <= 0.092421;
    assert Pow(0.80, 16) >= 0.028147 && Pow(0.82, 16) <= 0.041786;
  }

  // ------------------------------------------------------------------- loaded ticks

  /** Lower bounds on the five scores that feed the saturation risk. */
  datatype Floors = Floors(scheduler: real, memory: real, io: real, power: real, thermal: real) {
    predicate Valid() {
      && 0.0 <= scheduler <= 1.0 && 0.0 <= memory <= 1.0 && 0.0 <= io <= 1.0
      && 0.0 <= power <= 1.0 && 0.0 <= thermal <= 1.0
    }

    /** What they come to in the saturation risk. */
    function Weighted(): real {
      0.30 * scheduler + 0.25 * memory + 0.20 * io + 0.15 * power + 0.10 * thermal
    }
  }

  /** Each stage's own signals score at least its floor. */
  predicate Loaded(x: Scores, fl: Floors) {
    && x.scheduler >= fl.scheduler && x.memory >= fl.memory && x.io >= fl.io && x.power >= fl.power
    && x.thermal >= fl.thermal
  }

  ghost predicate EndsLoaded(t: Tuning, rs: seq<Reading>, n: nat, fl: Floors)
    requires t.warningWindow > 0.0
  {
    n <= |rs| && forall k :: |rs| - n < k <= |rs| ==> Loaded(ScoresAt(t, rs[..k]), fl)
  }

  lemma LoadedBefore(t: Tuning, rs: seq<Reading>, n: nat, fl: Floors)
    requires t.warningWindow > 0.0 && n > 0 && EndsLoaded(t, rs, n, fl)
    ensures EndsLoaded(t, rs[..|rs| - 1], n - 1, fl) && Loaded(ScoresAt(t, rs), fl)
  {
    hide ScoresAt, Loaded;
    var init := rs[..|rs| - 1];
    forall k | |init| - (n - 1) < k <= |init|
      ensures Loaded(ScoresAt(t, init[..k]), fl)
    {
      assert init[..k] == rs[..k];
    }
    assert rs[..|rs|] == rs;
  }

  /** A published load after n ticks with scores of at least theta, and the saturation risk behind it. */
  function Rise(theta: real, n: nat): real {
    if n == 0 then 0.0 else 0.80 * Rise(theta, n - 1) + 0.20 * theta
  }

  function SlowRise(theta: real, n: nat): real {
    if n == 0 then 0.0 else 0.82 * SlowRise(theta, n - 1) + 0.18 * Rise(theta, n)
  }

  lemma {:induction false} RisesInClosedForm(theta: real, n: nat)
    ensures Rise(theta, n) == theta * (1.0 - Pow(0.80, n))
    ensures SlowRise(theta, n) == theta * (1.0 - Lag(n))
  {
    hide Lag;
    if n == 0 {
      NoLag();
    } else {
      RisesInClosedForm(theta, n - 1);
      LagSteps(n - 1);
      Mix(theta, 0.80, 1.0 - Pow(0.80, n - 1), 1.0);
      Mix(theta, 0.82, 1.0 - Lag(n - 1), 1.0 - Pow(0.80, n));
    }
  }

  lemma {:induction false} RisesGrow(theta: real, n: nat)
    requires theta >= 0.0
    ensures 0.0 <= SlowRise(theta, n) <= Rise(theta, n) <= Rise(theta, n + 1) <= theta
  {
    if n > 0 {
      RisesGrow(theta, n - 1);
    }
  }

  lemma {:induction false} RiseOfWeighted(fl: Floors, n: nat)
    ensures Rise(fl.Weighted(), n)
         == 0.30 * Rise(fl.scheduler, n) + 0.25 * Rise(fl.memory, n) + 0.20 * Rise(fl.io, n)
            + 0.15 * Rise(fl.power, n) + 0.10 * Rise(fl.thermal, n)
  {
    if n > 0 {
      RiseOfWeighted(fl, n - 1);
    }
  }

  predicate LoadsRisen(st: Stages, fl: Floors, n: nat) {
    && st.scheduler.value >= Rise(fl.scheduler, n) && st.memory.value >= Rise(fl.memory, n)
    && st.io.value >= Rise(fl.io, n) && st.power.value >= Rise(fl.power, n)
    && st.thermal.value >= Rise(fl.thermal, n)
  }

  predicate RiskRisen(risk: RiskState, fl: Floors, n: nat) {
    risk.saturation.value >= SlowRise(fl.Weighted(), n) && RaisedBy(SlowRise(fl.Weighted(), n), risk.level)
  }

  lemma {:induction false} LoadRises(t: Tuning, rs: seq<Reading>, n: nat, fl: Floors)
    requires t.warningWindow > 0.0 && fl.Valid() && EndsLoaded(t, rs, n, fl)
    ensures LoadsRisen(Pipeline.Run(t, POWER_ON, rs).stages, fl, n)
    ensures RiskRisen(Pipeline.Run(t, POWER_ON, rs).stages.risk, fl, n)
  {
    hide Pipeline.Run, Loaded, ScoresAt;
    if n == 0 {
      AllInUnit(t, rs);
    } else {
      LoadedBefore(t, rs, n, fl);
      LoadRises(t, rs[..|rs| - 1], n - 1, fl);
      LoadedTickRises(t, rs, n, fl);
      LoadedTickRaises(t, rs, n, fl);
    }
  }

  lemma LoadedTickRises(t: Tuning, rs: seq<Reading>, n: nat, fl: Floors)
    requires t.warningWindow > 0.0 && fl.Valid() && n > 0 && rs != [] && Loaded(ScoresAt(t, rs), fl)
    requires LoadsRisen(Pipeline.Run(t, POWER_ON, rs[..|rs| - 1]).stages, fl, n - 1)
    ensures LoadsRisen(Pipeline.Run(t, POWER_ON, rs).stages, fl, n)
  {
    hide Pipeline.Run, ScoresAt, ScoreIn;
    LastFrame(t, rs);
    AllInUnit(t, rs);
    ScoresOfRun(t, rs);
    RisesGrow(fl.scheduler, n - 1);
    StageAtLeast(t, rs, Scheduler, Rise(fl.scheduler, n - 1), fl.scheduler);
    RisesGrow(fl.memory, n - 1);
    StageAtLeast(t, rs, Memory, Rise(fl.memory, n - 1), fl.memory);
    RisesGrow(fl.io, n - 1);
    StageAtLeast(t, rs, Io, Rise(fl.io, n - 1), fl.io);
    RisesGrow(fl.power, n - 1);
    StageAtLeast(t, rs, Power, Rise(fl.power, n - 1), fl.power);
    RisesGrow(fl.thermal, n - 1);
    StageAtLeast(t, rs, Thermal, Rise(fl.thermal, n - 1), fl.thermal);
  }

  lemma LoadedTickRaises(t: Tuning, rs: seq<Reading>, n: nat, fl: Floors)
    requires t.warningWindow > 0.0 && fl.Valid() && n > 0 && rs != []
    requires LoadsRisen(Pipeline.Run(t, POWER_ON, rs).stages, fl, n)
    requires RiskRisen(Pipeline.Run(t, POWER_ON, rs[..|rs| - 1]).stages.risk, fl, n - 1)
    ensures RiskRisen(Pipeline.Run(t, POWER_ON, rs).stages.risk, fl, n)
  {
    hide Pipeline.Run, SaturationScore, Rise, SlowRise, Floors.Weighted, RaisedBy, ScoreIn;
    var st, f := Pipeline.Run(t, POWER_ON, rs[..|rs| - 1]).stages, Pipeline.Run(t, POWER_ON, rs).frame;
    var w := fl.Weighted();
    LastFrame(t, rs);
    AllInUnit(t, rs);
    SaturationOfLoads(f, fl, n);
    SaturationOfRun(t, rs);
    WeightedInUnit(fl);
    RisesGrow(w, n - 1);
    StageAtLeast(t, rs, Saturation, SlowRise(w, n - 1), Rise(w, n));
    SlowRiseUnfolds(w, n - 1);
    LastLevel(t, rs);
    FloorRaises(w, n - 1, st.risk.level, f.realtimeRisk, f.saturationRisk);
  }

  lemma SlowRiseUnfolds(theta: real, n: nat)
    ensures SlowRise(theta, n + 1) == 0.82 * SlowRise(theta, n) + 0.18 * Rise(theta, n + 1)
  {
  }

  lemma WeightedInUnit(fl: Floors)
    requires fl.Valid()
    ensures 0.0 <= fl.Weighted() <= 1.0
  {
  }

  lemma SaturationOfLoads(f: Frame, fl: Floors, n: nat)
    requires fl.Valid()
    requires Rise(fl.scheduler, n) <= f.schedulerPressure <= 1.0 && Rise(fl.memory, n) <= f.memoryPressure <= 1.0
    requires Rise(fl.io, n) <= f.ioPressure <= 1.0 && Rise(fl.power, n) <= f.powerPressure <= 1.0
    requires Rise(fl.thermal, n) <= f.thermalPressure <= 1.0
    ensures SaturationScore(f.schedulerPressure, f.memoryPressure, f.ioPressure, f.powerPressure, f.thermalPressure)
         >= Rise(fl.Weighted(), n)
  {
    hide Rise, Floors.Weighted, Clamp01;
    RiseOfWeighted(fl, n);
    ClampAtLeast(f.schedulerPressure);
    ClampAtLeast(f.memoryPressure);
    ClampAtLeast(f.ioPressure);
    ClampAtLeast(f.powerPressure);
    ClampAtLeast(f.thermalPressure);
  }

  lemma ClampAtLeast(x: real)
    requires x <= 1.0
    ensures Clamp01(x) >= x
  {
  }

  lemma FloorRaises(theta: real, n: nat, level: Level, realtime: real, saturation: real)
    requires 0.0 <= theta <= 1.0 && RaisedBy(SlowRise(theta, n), level)
    requires saturation >= SlowRise(theta, n + 1)
    ensures RaisedBy(SlowRise(theta, n + 1), LevelStep(level, MaxRisk(realtime, saturation)))
  {
    hide Rise, SlowRise;
    SlowRiseUnfolds(theta, n);
    RisesGrow(theta, n);
  }

  /**
   Escalation, end to end: n ticks at the end of any run whose scores keep their floors drive the
   published state to CRITICAL once the weighted floor times what n ticks let through has passed 0.88,
   whatever the timing and the history.
   */
  lemma {:induction false} LoadEndsCritical(t: Tuning, rs: seq<Reading>, n: nat, fl: Floors)
    requires t.warningWindow > 0.0 && fl.Valid() && rs != [] && EndsLoaded(t, rs, n, fl)
    requires fl.Weighted() * (1.0 - Lag(n)) >= 0.88
    ensures Pipeline.Run(t, POWER_ON, rs).frame.state == CRITICAL
  {
    hide Pipeline.Run, ScoresAt, Loaded, Lag, Floors.Weighted;
    RisesInClosedForm(fl.Weighted(), n);
    LoadRises(t, rs, n, fl);
    LastLevel(t, rs);
  }
}
