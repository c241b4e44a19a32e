/**
 Two runs of the pipeline, one under at least as much load: when it never looks better. Interrupts
 need care, because earlier ones raise the baseline that later ones are measured against.
 */
module PipelineOrder {
  import opened Numeric
  import opened SignalFrame
  import opened EmaFilter
  import opened Pressures
  import opened LatencyJitter
  import opened Risk
  import opened SystemState
  import opened RiskDeadlines
  import opened Pipeline

  /** `b` is at least as far gone as `a`, leaving the scheduler stage aside. */
  predicate OthersNoFurther(a: Stages, b: Stages) {
    && a.clock == b.clock && a.memory.AtMost(b.memory) && a.io.AtMost(b.io)
    && a.thermal.AtMost(b.thermal) && a.power.AtMost(b.power) && a.latency.AtMost(b.latency)
    && RiskNoFurther(a.risk, b.risk)
  }

  /** A lower baseline makes later bursts count for more. */
  predicate BaselineNoHigher(b: Baseline, a: Baseline) {
    a.primed == b.primed && (a.primed ==> 1.0 <= b.value <= a.value)
  }

  predicate NoFurther(a: Stages, b: Stages) {
    OthersNoFurther(a, b) && a.scheduler.AtMost(b.scheduler) && BaselineNoHigher(b.irq, a.irq)
  }

  predicate RiskNoFurther(a: RiskState, b: RiskState) {
    && a.realtime.AtMost(b.realtime) && a.saturation.AtMost(b.saturation)
    && a.level.Rank() <= b.level.Rank()
  }

  /** Every published pressure, both risks and the published state are at least as bad in `g`. */
  predicate PublishedAtMost(f: Frame, g: Frame) {
    && LoadsAtMost(LoadsOf(f), LoadsOf(g))
    && f.realtimeRisk <= g.realtimeRisk && f.saturationRisk <= g.saturationRisk
    && f.state.Rank() <= g.state.Rank()
  }

  predicate LoadsAtMost(x: Loads, y: Loads) {
    && x.scheduler <= y.scheduler && x.memory <= y.memory && x.io <= y.io
    && x.thermal <= y.thermal && x.power <= y.power && x.latency <= y.latency
  }

  lemma RiskStepPreservesOrder(a: RiskState, b: RiskState, x: Loads, y: Loads)
    requires RiskNoFurther(a, b) && LoadsAtMost(x, y)
    ensures RiskNoFurther(RiskStep(a, x), RiskStep(b, y))
  {
    hide Step, LevelStep, RealtimeScore, SaturationScore, Clamp01, MaxRisk;
    RiskScoresOrder(x, y);
    StageOrder(0.35, a.realtime, b.realtime, RealtimeScore(x.latency, x.scheduler, x.thermal, x.io),
               RealtimeScore(y.latency, y.scheduler, y.thermal, y.io));
    StageOrder(0.18, a.saturation, b.saturation,
               SaturationScore(x.scheduler, x.memory, x.io, x.power, x.thermal),
               SaturationScore(y.scheduler, y.memory, y.io, y.power, y.thermal));
    var p, q := RiskStep(a, x), RiskStep(b, y);
    MaxRiskOrder(Clamp01(p.realtime.value), Clamp01(p.saturation.value),
                 Clamp01(q.realtime.value), Clamp01(q.saturation.value));
    LevelStepMonotone(a.level, b.level, MaxRisk(Clamp01(p.realtime.value), Clamp01(p.saturation.value)),
                      MaxRisk(Clamp01(q.realtime.value), Clamp01(q.saturation.value)));
  }

  lemma RiskScoresOrder(x: Loads, y: Loads)
    requires LoadsAtMost(x, y)
    ensures RealtimeScore(x.latency, x.scheduler, x.thermal, x.io)
         <= RealtimeScore(y.latency, y.scheduler, y.thermal, y.io)
    ensures SaturationScore(x.scheduler, x.memory, x.io, x.power, x.thermal)
         <= SaturationScore(y.scheduler, y.memory, y.io, y.power, y.thermal)
  {
    hide Clamp01;
    ClampOrder(x.latency, y.latency);
    ClampOrder(x.scheduler, y.scheduler);
    ClampOrder(x.thermal, y.thermal);
    ClampOrder(x.io, y.io);
    ClampOrder(x.memory, y.memory);
    ClampOrder(x.power, y.power);
  }

  lemma MaxRiskOrder(x: real, y: real, x': real, y': real)
    requires x <= x' && y <= y'
    ensures MaxRisk(x, y) <= MaxRisk(x', y')
  {
  }

  /** What a tick does to one filter preserves its order; the clamp then preserves the published order. */
  lemma StageOrder(alpha: real, e: Ema, f: Ema, x: real, y: real)
    requires 0.0 <= alpha <= 1.0 && e.AtMost(f) && x <= y
    ensures Step(alpha, e, x).AtMost(Step(alpha, f, y))
    ensures Clamp01(Step(alpha, e, x).value) <= Clamp01(Step(alpha, f, y).value)
  {
    hide Step;
    StepMonotone(alpha, e, f, x, y);
  }

  /** With the scheduler filters in order after a tick, everything published in it is in order. */
  lemma {:induction false} TickOrderedByScheduler(t: Tuning, a: Machine, b: Machine, x: Reading, y: Reading)
    requires t.Valid() && OthersNoFurther(a.stages, b.stages)
    requires x.now == y.now && NoWorse(x.raw, y.raw)
    requires Tick(t, a, x).stages.scheduler.AtMost(Tick(t, b, y).stages.scheduler)
    ensures PublishedAtMost(Tick(t, a, x).frame, Tick(t, b, y).frame)
    ensures OthersNoFurther(Tick(t, a, x).stages, Tick(t, b, y).stages)
  {
    hide SchedulerScore, MemoryScore, IoScore, ThermalScore, PowerScore, TemporalNorm, Advance, RiskStep, Step, Clamp01,
      JitterScore, NoWorse, Increasing, TrackBaseline;
    var p, q := a.stages, b.stages;
    ReadingsOrder(t, x.raw, y.raw);
    ClampOrder(Tick(t, a, x).stages.scheduler.value, Tick(t, b, y).stages.scheduler.value);
    StageOrder(0.25, p.memory, q.memory, MemoryScore(t.exp, x.raw), MemoryScore(t.exp, y.raw));
    StageOrder(0.25, p.io, q.io, IoScore(t.exp, x.raw), IoScore(t.exp, y.raw));
    StageOrder(0.20, p.thermal, q.thermal, ThermalScore(t.warningWindow, x.raw), ThermalScore(t.warningWindow, y.raw));
    var f, g := Tick(t, a, x).frame, Tick(t, b, y).frame;
    PowerOrder(x.raw, y.raw, f.thermalPressure, g.thermalPressure);
    StageOrder(0.25, p.power, q.power, PowerScore(x.raw, f.thermalPressure), PowerScore(y.raw, g.thermalPressure));
    var temporal := TemporalNorm(Advance(p.clock, x.now).window);
    JitterOrder(temporal, f.schedulerPressure, g.schedulerPressure, f.ioPressure, g.ioPressure);
    StageOrder(0.30, p.latency, q.latency, JitterScore(temporal, f.schedulerPressure, f.ioPressure),
               JitterScore(temporal, g.schedulerPressure, g.ioPressure));
    RiskStepPreservesOrder(p.risk, q.risk, LoadsOf(f), LoadsOf(g));
    ClampOrder(RiskStep(p.risk, LoadsOf(f)).realtime.value, RiskStep(q.risk, LoadsOf(g)).realtime.value);
    ClampOrder(RiskStep(p.risk, LoadsOf(f)).saturation.value, RiskStep(q.risk, LoadsOf(g)).saturation.value);
  }

  lemma ReadingsOrder(t: Tuning, x: RawSignals, y: RawSignals)
    requires t.Valid() && NoWorse(x, y)
    ensures MemoryScore(t.exp, x) <= MemoryScore(t.exp, y)
    ensures IoScore(t.exp, x) <= IoScore(t.exp, y)
    ensures ThermalScore(t.warningWindow, x) <= ThermalScore(t.warningWindow, y)
  {
    ScoresMonotone(t.exp, t.warningWindow, NO_BASELINE, x, y.(irq := x.irq), 0.0, 0.0);
  }

  lemma PowerOrder(x: RawSignals, y: RawSignals, s: real, u: real)
    requires NoWorse(x, y) && s <= u
    ensures PowerScore(x, s) <= PowerScore(y, u)
  {
  }

  lemma JitterOrder(temporal: real, s: real, s': real, u: real, u': real)
    requires s <= s' && u <= u'
    ensures JitterScore(temporal, s, u) <= JitterScore(temporal, s', u')
  {
  }

  lemma ClampOrder(x: real, y: real)
    requires x <= y
    ensures Clamp01(x) <= Clamp01(y)
  {
  }

  lemma TickScheduler(t: Tuning, m: Machine, r: Reading)
    requires t.warningWindow > 0.0
    ensures Tick(t, m, r).stages.irq == TrackBaseline(m.stages.irq, r.raw.irq)
    ensures Tick(t, m, r).stages.scheduler
         == Step(0.30, m.stages.scheduler, SchedulerScore(r.raw, TrackBaseline(m.stages.irq, r.raw.irq).value))
  {
    hide SchedulerScore, MemoryScore, IoScore, ThermalScore, PowerScore, TemporalNorm, Advance, RiskStep, Step, Clamp01,
      JitterScore, TrackBaseline;
  }

  /** The part of the scheduler score that does not depend on interrupts. */
  function BaseScore(raw: RawSignals): real {
    0.40 * Clamp01(raw.cpu / 100.0) + 0.35 * Clamp01(raw.psi / 10.0) + 0.10 * Clamp01(raw.softirqs)
  }

  lemma ScoreSplits(raw: RawSignals, baseline: real)
    requires baseline >= 1.0
    ensures SchedulerScore(raw, baseline) == BaseScore(raw) + 0.15 * IrqNorm(baseline, raw.irq)
  {
    hide IrqNorm, Clamp01;
  }

  lemma BaseOrder(x: RawSignals, y: RawSignals)
    requires NoWorse(x, y)
    ensures BaseScore(x) <= BaseScore(y)
  {
  }

  /** A burst counts for more against a lower baseline and at a higher rate. */
  lemma BurstOrder(a: Baseline, b: Baseline, x: real, y: real)
    requires BaselineNoHigher(b, a) && x <= y
    ensures IrqNorm(TrackBaseline(a, x).value, x) <= IrqNorm(TrackBaseline(b, y).value, y)
  {
    hide IrqNorm;
    LowerBaselineScoresHigher(TrackBaseline(a, x).value, TrackBaseline(b, x).value, x);
    IrqNormMonotone(b, x, y);
  }

  /**
   Worse stages, with a baseline no higher, that meet a worse reading at the same time publish worse
   values; and they stay worse when the baseline is no higher after the tick either.
   */
  lemma {:induction false} TickPreservesOrder(t: Tuning, a: Machine, b: Machine, x: Reading, y: Reading)
    requires t.Valid() && NoFurther(a.stages, b.stages)
    requires x.now == y.now && NoWorse(x.raw, y.raw) && x.raw.irq <= y.raw.irq
    ensures PublishedAtMost(Tick(t, a, x).frame, Tick(t, b, y).frame)
    ensures BaselineNoHigher(Tick(t, b, y).stages.irq, Tick(t, a, x).stages.irq)
        ==> NoFurther(Tick(t, a, x).stages, Tick(t, b, y).stages)
  {
    hide Tick, TrackBaseline, SchedulerScore, BaseScore, IrqNorm, Step, NoWorse, Increasing, PublishedAtMost,
      OthersNoFurther;
    var p, q := a.stages, b.stages;
    var bA, bB := TrackBaseline(p.irq, x.raw.irq).value, TrackBaseline(q.irq, y.raw.irq).value;
    TickScheduler(t, a, x);
    TickScheduler(t, b, y);
    BurstOrder(p.irq, q.irq, x.raw.irq, y.raw.irq);
    BaseOrder(x.raw, y.raw);
    ScoreSplits(x.raw, bA);
    ScoreSplits(y.raw, bB);
    StageOrder(0.30, p.scheduler, q.scheduler, SchedulerScore(x.raw, bA), SchedulerScore(y.raw, bB));
    TickOrderedByScheduler(t, a, b, x, y);
  }

  // ------------------------------------------------------------ interrupt histories

  function Rates(rs: seq<Reading>): (rates: seq<real>)
    ensures |rates| == |rs|
  {
    seq(|rs|, i requires 0 <= i < |rs| => rs[i].raw.irq)
  }

  function BaselineAfter(rates: seq<real>): (b: Baseline)
    ensures b.value >= 1.0 && b.primed == (rates != [])
  {
    if rates == [] then NO_BASELINE else TrackBaseline(BaselineAfter(rates[..|rates| - 1]), rates[|rates| - 1])
  }

  /** The interrupt score of every tick. */
  function Bursts(rates: seq<real>): (bursts: seq<real>)
    ensures |bursts| == |rates|
  {
    if rates == [] then [] else
    Bursts(rates[..|rates| - 1]) + [IrqNorm(BaselineAfter(rates).value, rates[|rates| - 1])]
  }

  /** What an interrupt history adds to the scheduler filter. */
  function BurstShare(rates: seq<real>): real {
    0.15 * EmaFilter.Run(0.30, FRESH, Bursts(rates)).value
  }

  function Bases(rs: seq<Reading>): (scores: seq<real>)
    ensures |scores| == |rs|
  {
    seq(|rs|, i requires 0 <= i < |rs| => BaseScore(rs[i].raw))
  }

  /** The scheduler filter is the filter of the other signals plus the share of the interrupt history. */
  lemma {:induction false} SchedulerIsSum(t: Tuning, rs: seq<Reading>)
    requires t.warningWindow > 0.0
    ensures var st := Pipeline.Run(t, POWER_ON, rs).stages;
            && st.irq == BaselineAfter(Rates(rs)) && st.scheduler.primed == (rs != [])
            && st.scheduler.value == EmaFilter.Run(0.30, FRESH, Bases(rs)).value + BurstShare(Rates(rs))
            && EmaFilter.Run(0.30, FRESH, Bases(rs)).primed == EmaFilter.Run(0.30, FRESH, Bursts(Rates(rs))).primed
               == (rs != [])
  {
    hide Tick, TrackBaseline, SchedulerScore, BaseScore, IrqNorm, Step, EmaFilter.Run, Pipeline.Run, Rates, Bases,
      Bursts, BaselineAfter;
    if rs == [] {
      NothingSampled(t);
    } else {
      var n := |rs| - 1;
      var m, last := Pipeline.Run(t, POWER_ON, rs[..n]), rs[n].raw;
      SchedulerIsSum(t, rs[..n]);
      TickScheduler(t, m, rs[n]);
      OneMoreReading(t, rs[..n], rs[n]);
      assert rs == rs[..n] + [rs[n]];
      var baseline := BaselineAfter(Rates(rs)).value;
      ScoreSplits(last, baseline);
      StepIsLinear(0.30, EmaFilter.Run(0.30, FRESH, Bases(rs[..n])),
                   EmaFilter.Run(0.30, FRESH, Bursts(Rates(rs[..n]))),
                   m.stages.scheduler, BaseScore(last), IrqNorm(baseline, last.irq), SchedulerScore(last, baseline),
                   0.15);
    }
  }

  lemma NothingSampled(t: Tuning)
    requires t.warningWindow > 0.0
    ensures Pipeline.Run(t, POWER_ON, []) == POWER_ON && BaselineAfter(Rates([])) == NO_BASELINE
    ensures EmaFilter.Run(0.30, FRESH, Bases([])) == EmaFilter.Run(0.30, FRESH, Bursts(Rates([]))) == FRESH
  {
    assert Rates([]) == [] && Bases([]) == [] && Bursts([]) == [];
  }

  lemma OneMoreReading(t: Tuning, rs: seq<Reading>, r: Reading)
    requires t.warningWindow > 0.0
    ensures Pipeline.Run(t, POWER_ON, rs + [r]) == Tick(t, Pipeline.Run(t, POWER_ON, rs), r)
    ensures BaselineAfter(Rates(rs + [r])) == TrackBaseline(BaselineAfter(Rates(rs)), r.raw.irq)
    ensures EmaFilter.Run(0.30, FRESH, Bases(rs + [r]))
         == Step(0.30, EmaFilter.Run(0.30, FRESH, Bases(rs)), BaseScore(r.raw))
    ensures EmaFilter.Run(0.30, FRESH, Bursts(Rates(rs + [r])))
         == Step(0.30, EmaFilter.Run(0.30, FRESH, Bursts(Rates(rs))),
                 IrqNorm(BaselineAfter(Rates(rs + [r])).value, r.raw.irq))
  {
    hide Tick, TrackBaseline, BaseScore, IrqNorm, Step;
    var rates, n := Rates(rs + [r]), |rs|;
    assert (rs + [r])[..n] == rs;
    assert rates[..n] == Rates(rs) && rates[n] == r.raw.irq;
    assert Bases(rs + [r])[..n] == Bases(rs) && Bases(rs + [r])[n] == BaseScore(r.raw);
    assert Bursts(rates)[..n] == Bursts(Rates(rs));
  }

  // ------------------------------------------------------------------- whole runs

  /** The second trace is at least as loaded at every tick, interrupts left aside. */
  ghost predicate WorseLoads(xs: seq<Reading>, ys: seq<Reading>) {
    |xs| == |ys| && forall i :: 0 <= i < |xs| ==> xs[i].now == ys[i].now && NoWorse(xs[i].raw, ys[i].raw)
  }

  /** At every tick the second interrupt history adds at least as much. */
  ghost predicate BurstsOrdered(us: seq<real>, vs: seq<real>) {
    |us| == |vs| && forall k :: 0 <= k <= |us| ==> BurstShare(us[..k]) <= BurstShare(vs[..k])
  }

  ghost predicate WorseTrace(xs: seq<Reading>, ys: seq<Reading>) {
    WorseLoads(xs, ys) && BurstsOrdered(Rates(xs), Rates(ys))
  }

  /** At no tick does the second run publish a smaller pressure, a smaller risk or a better state. */
  ghost predicate NeverLooksBetter(t: Tuning, xs: seq<Reading>, ys: seq<Reading>)
    requires t.warningWindow > 0.0 && |xs| == |ys|
  {
    forall k :: 1 <= k <= |xs| ==>
      PublishedAtMost(Pipeline.Run(t, POWER_ON, xs[..k]).frame, Pipeline.Run(t, POWER_ON, ys[..k]).frame)
  }

  lemma SchedulersOrdered(t: Tuning, xs: seq<Reading>, ys: seq<Reading>)
    requires t.warningWindow > 0.0 && WorseLoads(xs, ys) && BurstShare(Rates(xs)) <= BurstShare(Rates(ys))
    ensures Pipeline.Run(t, POWER_ON, xs).stages.scheduler.AtMost(Pipeline.Run(t, POWER_ON, ys).stages.scheduler)
  {
    hide Pipeline.Run, EmaFilter.Run, BurstShare, NoWorse, BaseScore;
    SchedulerIsSum(t, xs);
    SchedulerIsSum(t, ys);
    forall i | 0 <= i < |xs|
      ensures Bases(xs)[i] <= Bases(ys)[i]
    {
      BaseOrder(xs[i].raw, ys[i].raw);
    }
    RunMonotone(0.30, Bases(xs), Bases(ys));
  }

  lemma WorsePrefix(xs: seq<Reading>, ys: seq<Reading>, k: nat)
    requires WorseTrace(xs, ys) && k <= |xs|
    ensures WorseTrace(xs[..k], ys[..k])
  {
    hide BurstShare, NoWorse;
    assert Rates(xs[..k]) == Rates(xs)[..k] && Rates(ys[..k]) == Rates(ys)[..k];
    forall i | 0 <= i <= k
      ensures BurstShare(Rates(xs[..k])[..i]) <= BurstShare(Rates(ys[..k])[..i])
    {
      assert Rates(xs[..k])[..i] == Rates(xs)[..i] && Rates(ys[..k])[..i] == Rates(ys)[..i];
    }
  }

  lemma {:induction false} RunsStayOrdered(t: Tuning, xs: seq<Reading>, ys: seq<Reading>)
    requires t.Valid() && WorseTrace(xs, ys)
    ensures OthersNoFurther(Pipeline.Run(t, POWER_ON, xs).stages, Pipeline.Run(t, POWER_ON, ys).stages)
    ensures xs != [] ==>
              PublishedAtMost(Pipeline.Run(t, POWER_ON, xs).frame, Pipeline.Run(t, POWER_ON, ys).frame)
  {
    hide Tick, NoWorse, Increasing, BurstShare, PublishedAtMost;
    if xs != [] {
      var n := |xs| - 1;
      WorsePrefix(xs, ys, n);
      RunsStayOrdered(t, xs[..n], ys[..n]);
      assert Rates(xs)[..n + 1] == Rates(xs) && Rates(ys)[..n + 1] == Rates(ys);
      SchedulersOrdered(t, xs, ys);
      TickOrderedByScheduler(t, Pipeline.Run(t, POWER_ON, xs[..n]), Pipeline.Run(t, POWER_ON, ys[..n]), xs[n], ys[n]);
    }
  }

  /**
   End to end: a machine that is at least as loaded at every tick never publishes a smaller pressure,
   a smaller risk or a better state, at any tick of the run, as long as its interrupts add as much.
   */
  lemma {:induction false} WorseTraceNeverLooksBetter(t: Tuning, xs: seq<Reading>, ys: seq<Reading>)
    requires t.Valid() && WorseTrace(xs, ys)
    ensures NeverLooksBetter(t, xs, ys)
  {
    hide Pipeline.Run, BurstShare, NoWorse, PublishedAtMost;
    forall k | 1 <= k <= |xs|
      ensures PublishedAtMost(Pipeline.Run(t, POWER_ON, xs[..k]).frame, Pipeline.Run(t, POWER_ON, ys[..k]).frame)
    {
      WorsePrefix(xs, ys, k);
      RunsStayOrdered(t, xs[..k], ys[..k]);
    }
  }

  /** Nothing but interrupts happens. */
  function OnlyRates(rates: seq<real>): (rs: seq<Reading>)
    ensures |rs| == |rates| && Rates(rs) == rates
  {
    seq(|rates|, i requires 0 <= i < |rates| => Reading(0, ZERO_RAW.(irq := rates[i])))
  }

  lemma NothingButBursts(t: Tuning, rates: seq<real>)
    requires t.warningWindow > 0.0 && rates != []
    ensures Pipeline.Run(t, POWER_ON, OnlyRates(rates)).frame.schedulerPressure == BurstShare(rates)
  {
    hide Pipeline.Run, EmaFilter.Run, BurstShare, ScoreTrace, Shares, RealSum;
    var rs := OnlyRates(rates);
    SchedulerIsSum(t, rs);
    forall i | 0 <= i < |rs|
      ensures Bases(rs)[i] == 0.0
    {
    }
    RunStaysBetween(0.30, FRESH, Bases(rs), 0.0, 0.0);
    ScoreTraceLength(t, rs, Scheduler);
    PublishedIsConvexCombination(t, rs, Scheduler, 0.0, 1.0);
  }

  /**
   How far that goes, exactly: of two interrupt histories, the second never looks better under any
   worse loads if and only if at every tick it adds at least as much to the scheduler filter.
   */
  lemma {:induction false} OrderedExactlyWhenBurstsAre(t: Tuning, us: seq<real>, vs: seq<real>)
    requires t.Valid() && |us| == |vs|
    ensures (forall xs, ys :: WorseLoads(xs, ys) && Rates(xs) == us && Rates(ys) == vs ==> NeverLooksBetter(t, xs, ys))
       <==> BurstsOrdered(us, vs)
  {
    hide Pipeline.Run, BurstShare, PublishedAtMost, NoWorse, Increasing;
    if BurstsOrdered(us, vs) {
      forall xs, ys | WorseLoads(xs, ys) && Rates(xs) == us && Rates(ys) == vs
        ensures NeverLooksBetter(t, xs, ys)
      {
        WorseTraceNeverLooksBetter(t, xs, ys);
      }
    }
    if forall xs, ys :: WorseLoads(xs, ys) && Rates(xs) == us && Rates(ys) == vs ==> NeverLooksBetter(t, xs, ys) {
      OnlyRatesCompare(us, vs);
      assert NeverLooksBetter(t, OnlyRates(us), OnlyRates(vs));
      forall k | 0 <= k <= |us|
        ensures BurstShare(us[..k]) <= BurstShare(vs[..k])
      {
        if k > 0 {
          assert OnlyRates(us)[..k] == OnlyRates(us[..k]) && OnlyRates(vs)[..k] == OnlyRates(vs[..k]);
          NothingButBursts(t, us[..k]);
          NothingButBursts(t, vs[..k]);
          SchedulerPublishedOrder(Pipeline.Run(t, POWER_ON, OnlyRates(us[..k])).frame,
                                  Pipeline.Run(t, POWER_ON, OnlyRates(vs[..k])).frame);
        }
      }
    }
  }

  lemma OnlyRatesCompare(us: seq<real>, vs: seq<real>)
    requires |us| == |vs|
    ensures WorseLoads(OnlyRates(us), OnlyRates(vs))
  {
  }

  lemma SchedulerPublishedOrder(f: Frame, g: Frame)
    requires PublishedAtMost(f, g)
    ensures f.schedulerPressure <= g.schedulerPressure
  {
  }

  // -------------------------------------------------- histories that are in order

  lemma {:induction false} BurstAt(rates: seq<real>, i: nat)
    requires i < |rates|
    ensures Bursts(rates)[i] == IrqNorm(BaselineAfter(rates[..i + 1]).value, rates[i])
    ensures Bursts(rates)[i] == IrqNorm(TrackBaseline(BaselineAfter(rates[..i]), rates[i]).value, rates[i])
  {
    hide IrqNorm, TrackBaseline;
    var n := |rates| - 1;
    assert rates[..i + 1][..i] == rates[..i];
    if i < n {
      BurstAt(rates[..n], i);
      assert rates[..n][..i] == rates[..i] && rates[..n][..i + 1] == rates[..i + 1];
    } else {
      assert rates[..i + 1] == rates;
    }
  }

  lemma BurstsOfPrefix(rates: seq<real>, k: nat, i: nat)
    requires i < k <= |rates|
    ensures Bursts(rates[..k])[i] == Bursts(rates)[i]
  {
    hide IrqNorm, TrackBaseline, Bursts;
    BurstAt(rates[..k], i);
    BurstAt(rates, i);
    assert rates[..k][..i] == rates[..i];
  }

  /** It is enough that no burst scores lower. */
  lemma {:induction false} BurstByBurst(us: seq<real>, vs: seq<real>)
    requires |us| == |vs|
    requires forall i :: 0 <= i < |us| ==> Bursts(us)[i] <= Bursts(vs)[i]
    ensures BurstsOrdered(us, vs)
  {
    hide EmaFilter.Run, Bursts;
    forall k | 0 <= k <= |us|
      ensures BurstShare(us[..k]) <= BurstShare(vs[..k])
    {
      forall i | 0 <= i < k
        ensures Bursts(us[..k])[i] <= Bursts(vs[..k])[i]
      {
        BurstsOfPrefix(us, k, i);
        BurstsOfPrefix(vs, k, i);
      }
      RunMonotone(0.30, Bursts(us[..k]), Bursts(vs[..k]));
    }
  }

  /** So higher rates will do where they meet equal baselines ... */
  lemma {:induction false} HigherRatesOnEqualBaselines(us: seq<real>, vs: seq<real>)
    requires |us| == |vs|
    requires forall i :: 0 <= i < |us| ==> us[i] <= vs[i] && BaselineAfter(us[..i]) == BaselineAfter(vs[..i])
    ensures BurstsOrdered(us, vs)
  {
    hide Bursts, BaselineAfter, IrqNorm, TrackBaseline;
    forall i | 0 <= i < |us|
      ensures Bursts(us)[i] <= Bursts(vs)[i]
    {
      BurstAt(us, i);
      BurstAt(vs, i);
      BurstOrder(BaselineAfter(us[..i]), BaselineAfter(vs[..i]), us[i], vs[i]);
    }
    BurstByBurst(us, vs);
  }

  /** ... which covers equal rates on all ticks but the last, where the rate may be higher. */
  lemma {:induction false} EqualRatesButLast(us: seq<real>, vs: seq<real>)
    requires |us| == |vs| > 0
    requires us[..|us| - 1] == vs[..|us| - 1] && us[|us| - 1] <= vs[|us| - 1]
    ensures BurstsOrdered(us, vs)
  {
    hide BaselineAfter;
    var n := |us| - 1;
    forall i | 0 <= i < |us|
      ensures us[i] <= vs[i] && BaselineAfter(vs[..i]) == BaselineAfter(us[..i])
    {
      assert us[..i] == us[..n][..i] && vs[..i] == vs[..n][..i];
      assert i < n ==> us[i] == us[..n][i] && vs[i] == vs[..n][i];
    }
    HigherRatesOnEqualBaselines(us, vs);
  }

  /** Rates up to 1.5 never score at all, so a history of such rates is below every other one. */
  lemma {:induction false} QuietRates(us: seq<real>, vs: seq<real>)
    requires |us| == |vs| && forall i :: 0 <= i < |us| ==> us[i] <= 1.5
    ensures BurstsOrdered(us, vs)
  {
    hide Bursts, IrqNorm, TrackBaseline;
    forall i | 0 <= i < |us|
      ensures Bursts(us)[i] <= Bursts(vs)[i]
    {
      BurstAt(us, i);
      BurstAt(vs, i);
      QuietRateIsSilent(BaselineAfter(us[..i]), us[i]);
      NormInUnit(BaselineAfter(vs[..i + 1]).value, vs[i]);
    }
    BurstByBurst(us, vs);
  }

  lemma NormInUnit(baseline: real, irq: real)
    requires baseline >= 1.0
    ensures 0.0 <= IrqNorm(baseline, irq) <= 1.0
  {
  }

  lemma QuietRateIsSilent(b: Baseline, rate: real)
    requires rate <= 1.5
    ensures IrqNorm(TrackBaseline(b, rate).value, rate) == 0.0
  {
    SilentExactly(TrackBaseline(b, rate).value, rate);
  }

  /** The baseline forgets: whatever came before, after k ticks at one rate all but 0.9^k of the way is made up. */
  lemma {:induction false} BaselineCatchesUp(rates: seq<real>, k: nat, rate: real)
    requires k <= |rates| && rate >= 1.0 && forall i :: |rates| - k <= i < |rates| ==> rates[i] == rate
    ensures BaselineAfter(rates).value >= rate - (rate - 1.0) * Pow(0.9, k)
  {
    hide Pow, TrackBaseline;
    PowerOfNineTenths(k);
    if k > 0 {
      var init := rates[..|rates| - 1];
      BaselineCatchesUp(init, k - 1, rate);
      PowerOfNineTenths(k - 1);
      OneTickCloser(BaselineAfter(init), rate, Pow(0.9, k - 1), Pow(0.9, k));
    }
  }

  lemma PowerOfNineTenths(k: nat)
    ensures Pow(0.9, 0) == 1.0 && Pow(0.9, k + 1) == 0.9 * Pow(0.9, k)
    ensures Pow(0.9, k) >= 0.0
  {
    PowInUnit(0.9, k);
  }

  lemma OneTickCloser(b: Baseline, rate: real, p: real, p': real)
    requires rate >= 1.0 && p >= 0.0 && p' == 0.9 * p && b.value >= rate - (rate - 1.0) * p
    ensures TrackBaseline(b, rate).value >= rate - (rate - 1.0) * p'
  {
    assert (rate - 1.0) * p' == 0.9 * ((rate - 1.0) * p);
    TimesNonNegative(rate - 1.0, p');
  }

  predicate EndsAtRate(rates: seq<real>, k: nat, rate: real) {
    k <= |rates| && forall i :: |rates| - k <= i < |rates| ==> rates[i] == rate
  }

  /** So a steady rate, however high, falls silent. */
  lemma {:induction false} SteadyRateFallsSilent(rates: seq<real>, k: nat, rate: real)
    requires k > 0 && EndsAtRate(rates, k, rate) && (rate - 1.0) * Pow(0.9, k) <= 0.5
    ensures rate <= BaselineAfter(rates).value + 0.5
    ensures Bursts(rates)[|rates| - 1] == 0.0
  {
    hide BaselineAfter, Pow;
    if rate >= 1.0 {
      BaselineCatchesUp(rates, k, rate);
    }
    SilentExactly(BaselineAfter(rates).value, rate);
  }

  lemma SilentExactly(baseline: real, rate: real)
    requires baseline >= 1.0
    ensures IrqNorm(baseline, rate) == 0.0 <==> rate <= baseline + 0.5
  {
    RatioThreshold(rate, 2.0 * baseline + 1.0, 0.5);
  }

  /** Silent after every history that ends in k ticks at the rate. */
  ghost predicate FallsSilentIn(k: nat, rate: real)
    requires k > 0
  {
    forall rates :: EndsAtRate(rates, k, rate) ==> Bursts(rates)[|rates| - 1] == 0.0
  }

  /** The slowest history: the baseline starts at one. */
  function FromOne(k: nat, rate: real): (rates: seq<real>)
    ensures |rates| == k + 1
  {
    seq(k + 1, i => if i == 0 then 1.0 else rate)
  }

  lemma {:induction false} BaselineFromOne(k: nat, rate: real)
    requires rate >= 1.0
    ensures BaselineAfter(FromOne(k, rate)).value == rate - (rate - 1.0) * Pow(0.9, k)
  {
    hide Pow;
    var rates := FromOne(k, rate);
    PowerOfNineTenths(k);
    if k == 0 {
      assert rates == [1.0];
    } else {
      assert rates[..k] == FromOne(k - 1, rate);
      BaselineFromOne(k - 1, rate);
      PowerOfNineTenths(k - 1);
      ExactlyOneTickCloser(BaselineAfter(rates[..k]), rate, Pow(0.9, k - 1), Pow(0.9, k));
    }
  }

  lemma ExactlyOneTickCloser(b: Baseline, rate: real, p: real, p': real)
    requires rate >= 1.0 && b.primed && p' == 0.9 * p && b.value >= 1.0 && b.value == rate - (rate - 1.0) * p
    ensures TrackBaseline(b, rate).value == rate - (rate - 1.0) * p'
  {
    assert (rate - 1.0) * p' == 0.9 * ((rate - 1.0) * p);
  }

  lemma {:induction false} LoudFromOne(k: nat, rate: real)
    requires k > 0 && (rate - 1.0) * Pow(0.9, k) > 0.5
    ensures EndsAtRate(FromOne(k, rate), k, rate) && Bursts(FromOne(k, rate))[k] != 0.0
  {
    hide BaselineAfter, Pow, IrqNorm;
    PowerOfNineTenths(k);
    PositiveFactor(rate - 1.0, Pow(0.9, k));
    BaselineFromOne(k, rate);
    SilentExactly(BaselineAfter(FromOne(k, rate)).value, rate);
  }

  lemma PositiveFactor(x: real, y: real)
    requires x * y > 0.0 && y >= 0.0
    ensures x > 0.0
  {
    if x <= 0.0 {
      TimesNonNegative(-x, y);
    }
  }

  /** k ticks at a rate silence it after every history if and only if 0.9^k of its excess over one is at most 0.5. */
  lemma {:induction false} SilentExactlyFrom(k: nat, rate: real)
    requires k > 0
    ensures FallsSilentIn(k, rate) <==> (rate - 1.0) * Pow(0.9, k) <= 0.5
  {
    hide BaselineAfter, Pow, Bursts;
    if (rate - 1.0) * Pow(0.9, k) > 0.5 {
      LoudFromOne(k, rate);
    } else {
      forall rates | EndsAtRate(rates, k, rate)
        ensures Bursts(rates)[|rates| - 1] == 0.0
      {
        SteadyRateFallsSilent(rates, k, rate);
      }
    }
  }

  /**
   More interrupts alone are not enough: a run with more of them before, and as many now, can publish
   a smaller scheduler pressure, because the burst is measured against the baseline.
   */
  lemma MoreInterruptsCanLookBetter(t: Tuning)
    requires t.Valid()
    ensures var calm, noisy := ZERO_RAW.(irq := 1.0), ZERO_RAW.(irq := 100.0);
            var burst := Reading(1, ZERO_RAW.(irq := 6.0));
            Pipeline.Run(t, POWER_ON, [Reading(0, noisy), burst]).frame.schedulerPressure
            < Pipeline.Run(t, POWER_ON, [Reading(0, calm), burst]).frame.schedulerPressure
  {
    hide SchedulerScore, Pipeline.Run, Step, Clamp01, Pressures.IrqNorm;
    var calm, noisy := Reading(0, ZERO_RAW.(irq := 1.0)), Reading(0, ZERO_RAW.(irq := 100.0));
    var burst := Reading(1, ZERO_RAW.(irq := 6.0));
    SchedulerAfterTwo(t, calm, burst);
    SchedulerAfterTwo(t, noisy, burst);
    OnlyInterrupts(calm.raw, 1.0);
    OnlyInterrupts(burst.raw, 1.5);
    OnlyInterrupts(noisy.raw, 100.0);
    OnlyInterrupts(burst.raw, 90.6);
    FromZero(SchedulerScore(burst.raw, 1.5));
    FromZero(0.0);
  }

  lemma SchedulerAfterTwo(t: Tuning, x: Reading, y: Reading)
    requires t.Valid()
    ensures var b1 := TrackBaseline(NO_BASELINE, x.raw.irq);
            var b2 := TrackBaseline(b1, y.raw.irq);
            Pipeline.Run(t, POWER_ON, [x, y]).frame.schedulerPressure
            == Clamp01(Step(0.30, Step(0.30, FRESH, SchedulerScore(x.raw, b1.value)),
                            SchedulerScore(y.raw, b2.value)).value)
  {
    hide SchedulerScore, TemporalNorm, Advance, RiskStep, Step, Clamp01, TrackBaseline;
    assert [x, y][..1] == [x] && [x][..0] == [];
    assert Pipeline.Run(t, POWER_ON, []) == POWER_ON;
    assert Pipeline.Run(t, POWER_ON, [x]) == Tick(t, POWER_ON, x);
    assert Pipeline.Run(t, POWER_ON, [x, y]) == Tick(t, Pipeline.Run(t, POWER_ON, [x]), y);
  }

  lemma OnlyInterrupts(raw: RawSignals, baseline: real)
    requires raw.cpu == raw.psi == raw.softirqs == 0.0 && baseline >= 1.0
    ensures raw.irq <= baseline + 0.5 ==> SchedulerScore(raw, baseline) == 0.0
    ensures raw.irq > baseline + 0.5 ==> 0.0 < SchedulerScore(raw, baseline) <= 1.0
  {
    ScoresSpanUnit(_ => 0.0, 1.0, baseline, raw, 0.0);
  }

  lemma FromZero(x: real)
    requires 0.0 <= x <= 1.0
    ensures Clamp01(Step(0.30, Step(0.30, FRESH, 0.0), x).value) == 0.30 * x
  {
  }
}
