/**
 One tick of pressure and risk computation, in the order of `Agent::compute_derived` and
 `Agent::compute_risk`, and what holds over whole runs of it.
 */
module Pipeline {
  import opened Numeric
  import opened SignalFrame
  import opened EmaFilter
  import opened Pressures
  import opened LatencyJitter
  import opened Risk
  import opened SystemState
  import opened RiskDeadlines

  /** What the deployment fixes: the exponential of the platform and the configured window. */
  datatype Tuning = Tuning(exp: real -> real, warningWindow: real) {
    ghost predicate Valid() {
      Increasing(exp) && warningWindow > 0.0
    }
  }

  /** The fields of the nine stage objects. */
  datatype Stages = Stages(
    irq: Baseline, scheduler: Ema, memory: Ema, io: Ema, thermal: Ema, power: Ema,
    clock: Clock, latency: Ema, risk: RiskState)

  const UNSTARTED := Stages(NO_BASELINE, FRESH, FRESH, FRESH, FRESH, FRESH, NOT_STARTED, FRESH, AT_START)

  datatype Machine = Machine(stages: Stages, frame: Frame)

  const POWER_ON := Machine(UNSTARTED, ZERO_FRAME)

  function LoadsOf(f: Frame): Loads {
    Loads(f.schedulerPressure, f.memoryPressure, f.ioPressure, f.thermalPressure, f.powerPressure, f.latencyJitter)
  }

  function SampleScheduler(m: Machine): Machine {
    var irq := TrackBaseline(m.stages.irq, m.frame.raw.irq);
    var ema := Step(0.30, m.stages.scheduler, SchedulerScore(m.frame.raw, irq.value));
    Machine(m.stages.(irq := irq, scheduler := ema), m.frame.(schedulerPressure := Clamp01(ema.value)))
  }

  function SampleMemory(t: Tuning, m: Machine): Machine {
    var ema := Step(0.25, m.stages.memory, MemoryScore(t.exp, m.frame.raw));
    Machine(m.stages.(memory := ema), m.frame.(memoryPressure := Clamp01(ema.value)))
  }

  function SampleIo(t: Tuning, m: Machine): Machine {
    var ema := Step(0.25, m.stages.io, IoScore(t.exp, m.frame.raw));
    Machine(m.stages.(io := ema), m.frame.(ioPressure := Clamp01(ema.value)))
  }

  function SampleThermal(t: Tuning, m: Machine): Machine
    requires t.warningWindow > 0.0
  {
    var ema := Step(0.20, m.stages.thermal, ThermalScore(t.warningWindow, m.frame.raw));
    Machine(m.stages.(thermal := ema), m.frame.(thermalPressure := Clamp01(ema.value)))
  }

  function SamplePower(m: Machine): Machine {
    var ema := Step(0.25, m.stages.power, PowerScore(m.frame.raw, m.frame.thermalPressure));
    Machine(m.stages.(power := ema), m.frame.(powerPressure := Clamp01(ema.value)))
  }

  function SampleLatency(m: Machine): Machine {
    var clock := Advance(m.stages.clock, m.frame.monotonicNs);
    var ema := Step(0.30, m.stages.latency,
                    JitterScore(TemporalNorm(clock.window), m.frame.schedulerPressure, m.frame.ioPressure));
    Machine(m.stages.(clock := clock, latency := ema), m.frame.(latencyJitter := Clamp01(ema.value)))
  }

  function ComputeDerived(t: Tuning, m: Machine): Machine
    requires t.warningWindow > 0.0
  {
    SampleLatency(SamplePower(SampleThermal(t, SampleIo(t, SampleMemory(t, SampleScheduler(m))))))
  }

  function ComputeRisk(m: Machine): Machine {
    var risk := RiskStep(m.stages.risk, LoadsOf(m.frame));
    Machine(m.stages.(risk := risk),
            m.frame.(realtimeRisk := Clamp01(risk.realtime.value), saturationRisk := Clamp01(risk.saturation.value),
                     state := risk.level))
  }

  // The same in the three steps of the source.

  function SampleRealtime(m: Machine): Machine {
    var f := m.frame;
    var ema := Step(0.35, m.stages.risk.realtime,
                    RealtimeScore(f.latencyJitter, f.schedulerPressure, f.thermalPressure, f.ioPressure));
    Machine(m.stages.(risk := m.stages.risk.(realtime := ema)), f.(realtimeRisk := Clamp01(ema.value)))
  }

  function SampleSaturation(m: Machine): Machine {
    var f := m.frame;
    var ema := Step(0.18, m.stages.risk.saturation, SaturationScore(f.schedulerPressure, f.memoryPressure,
                    f.ioPressure, f.powerPressure, f.thermalPressure));
    Machine(m.stages.(risk := m.stages.risk.(saturation := ema)), f.(saturationRisk := Clamp01(ema.value)))
  }

  function SampleLevel(m: Machine): Machine {
    var level := LevelStep(m.stages.risk.level, MaxRisk(m.frame.realtimeRisk, m.frame.saturationRisk));
    Machine(m.stages.(risk := m.stages.risk.(level := level)), m.frame.(state := level))
  }

  lemma RiskInSteps(m: Machine)
    ensures ComputeRisk(m) == SampleLevel(SampleSaturation(SampleRealtime(m)))
  {
    hide Step, RealtimeScore, SaturationScore, LevelStep, MaxRisk, Clamp01;
  }

  /** What the sensors deliver for one tick. */
  datatype Reading = Reading(now: U64, raw: RawSignals)

  function Tick(t: Tuning, m: Machine, r: Reading): Machine
    requires t.warningWindow > 0.0
  {
    ComputeRisk(ComputeDerived(t, m.(frame := m.frame.(monotonicNs := r.now, raw := r.raw))))
  }

  function Run(t: Tuning, m: Machine, rs: seq<Reading>): Machine
    requires t.warningWindow > 0.0
  {
    if rs == [] then m else Tick(t, Run(t, m, rs[..|rs| - 1]), rs[|rs| - 1])
  }

  // ------------------------------------------------ eight stages, one filter theory

  datatype Stage = Scheduler | Memory | Io | Thermal | Power | Latency | Realtime | Saturation

  function Alpha(s: Stage): real {
    match s
    case Scheduler => 0.30
    case Memory => 0.25
    case Io => 0.25
    case Thermal => 0.20
    case Power => 0.25
    case Latency => 0.30
    case Realtime => 0.35
    case Saturation => 0.18
  }

  function FilterOf(st: Stages, s: Stage): Ema {
    match s
    case Scheduler => st.scheduler
    case Memory => st.memory
    case Io => st.io
    case Thermal => st.thermal
    case Power => st.power
    case Latency => st.latency
    case Realtime => st.risk.realtime
    case Saturation => st.risk.saturation
  }

  function Published(f: Frame, s: Stage): real {
    match s
    case Scheduler => f.schedulerPressure
    case Memory => f.memoryPressure
    case Io => f.ioPressure
    case Thermal => f.thermalPressure
    case Power => f.powerPressure
    case Latency => f.latencyJitter
    case Realtime => f.realtimeRisk
    case Saturation => f.saturationRisk
  }

  /**
   The raw score of a stage in the tick that led from `st` to `f`. Power, latency and both risks
   read what other stages published earlier in that same tick.
   */
  function ScoreIn(t: Tuning, st: Stages, f: Frame, s: Stage): real
    requires t.warningWindow > 0.0
  {
    match s
    case Scheduler => SchedulerScore(f.raw, TrackBaseline(st.irq, f.raw.irq).value)
    case Memory => MemoryScore(t.exp, f.raw)
    case Io => IoScore(t.exp, f.raw)
    case Thermal => ThermalScore(t.warningWindow, f.raw)
    case Power => PowerScore(f.raw, f.thermalPressure)
    case Latency =>
      JitterScore(TemporalNorm(Advance(st.clock, f.monotonicNs).window), f.schedulerPressure, f.ioPressure)
    case Realtime => RealtimeScore(f.latencyJitter, f.schedulerPressure, f.thermalPressure, f.ioPressure)
    case Saturation =>
      SaturationScore(f.schedulerPressure, f.memoryPressure, f.ioPressure, f.powerPressure, f.thermalPressure)
  }

  function ScoreTrace(t: Tuning, rs: seq<Reading>, s: Stage): seq<real>
    requires t.warningWindow > 0.0
  {
    if rs == [] then [] else
    var init := rs[..|rs| - 1];
    ScoreTrace(t, init, s) + [ScoreIn(t, Run(t, POWER_ON, init).stages, Run(t, POWER_ON, rs).frame, s)]
  }

  lemma TickFilters(t: Tuning, m: Machine, r: Reading, s: Stage)
    requires t.warningWindow > 0.0
    ensures var m' := Tick(t, m, r);
            && FilterOf(m'.stages, s) == Step(Alpha(s), FilterOf(m.stages, s), ScoreIn(t, m.stages, m'.frame, s))
            && Published(m'.frame, s) == Clamp01(FilterOf(m'.stages, s).value)
  {
    hide SchedulerScore, MemoryScore, IoScore, ThermalScore, PowerScore, JitterScore, TemporalNorm, Advance,
      RealtimeScore, SaturationScore, LevelStep, MaxRisk, Step, Clamp01;
  }

  lemma ScoreInUnit(t: Tuning, st: Stages, f: Frame, s: Stage)
    requires t.warningWindow > 0.0
    ensures 0.0 <= ScoreIn(t, st, f, s) <= 1.0
  {
    var baseline := TrackBaseline(st.irq, f.raw.irq).value;
    ScoresSpanUnit(t.exp, t.warningWindow, baseline, f.raw, f.thermalPressure);
  }

  lemma {:induction false} ScoreTraceLength(t: Tuning, rs: seq<Reading>, s: Stage)
    requires t.warningWindow > 0.0
    ensures |ScoreTrace(t, rs, s)| == |rs|
    ensures forall i :: 0 <= i < |rs| ==> 0.0 <= ScoreTrace(t, rs, s)[i] <= 1.0
  {
    hide ScoreIn, Run;
    if rs != [] {
      var init := rs[..|rs| - 1];
      ScoreTraceLength(t, init, s);
      ScoreInUnit(t, Run(t, POWER_ON, init).stages, Run(t, POWER_ON, rs).frame, s);
    }
  }

  lemma {:induction false} StageIsFilter(t: Tuning, rs: seq<Reading>, s: Stage)
    requires t.warningWindow > 0.0
    ensures FilterOf(Run(t, POWER_ON, rs).stages, s) == EmaFilter.Run(Alpha(s), FRESH, ScoreTrace(t, rs, s))
    ensures rs != [] ==> Published(Run(t, POWER_ON, rs).frame, s)
                         == Clamp01(FilterOf(Run(t, POWER_ON, rs).stages, s).value)
  {
    hide Tick, ScoreIn, Step, Alpha, Published, Clamp01;
    if rs != [] {
      var n := |rs| - 1;
      StageIsFilter(t, rs[..n], s);
      TickFilters(t, Run(t, POWER_ON, rs[..n]), rs[n], s);
      EmaFilter.RunSnoc(Alpha(s), FRESH, ScoreTrace(t, rs[..n], s),
                        ScoreIn(t, Run(t, POWER_ON, rs[..n]).stages, Run(t, POWER_ON, rs).frame, s));
    }
  }

  /**
   What each of the eight stages publishes after any run is the convex combination, with weights
   alpha (1 - alpha)^k, of the raw scores it has seen: it lies in the unit interval and between any
   bounds on those scores, and the final clamp never changes it.
   */
  lemma {:induction false} PublishedIsConvexCombination(t: Tuning, rs: seq<Reading>, s: Stage, lo: real, hi: real)
    requires t.warningWindow > 0.0 && rs != []
    requires forall i :: 0 <= i < |ScoreTrace(t, rs, s)| ==> lo <= ScoreTrace(t, rs, s)[i] <= hi
    ensures Published(Run(t, POWER_ON, rs).frame, s) == RealSum(Shares(Alpha(s), ScoreTrace(t, rs, s)))
    ensures Published(Run(t, POWER_ON, rs).frame, s) == FilterOf(Run(t, POWER_ON, rs).stages, s).value
    ensures 0.0 <= Published(Run(t, POWER_ON, rs).frame, s) <= 1.0
    ensures lo <= Published(Run(t, POWER_ON, rs).frame, s) <= hi
  {
    hide ScoreTrace, Run, Shares, EmaFilter.Run, RealSum;
    var scores := ScoreTrace(t, rs, s);
    ScoreTraceLength(t, rs, s);
    StageIsFilter(t, rs, s);
    RunIsWeightedSum(Alpha(s), scores);
    RunStaysBetween(Alpha(s), FRESH, scores, lo, hi);
    RunStaysBetween(Alpha(s), FRESH, scores, 0.0, 1.0);
  }

  /** The jitter stage inside the pipeline sees exactly the timestamps of the run. */
  lemma {:induction false} ClockFollowsReadings(t: Tuning, rs: seq<Reading>)
    requires t.warningWindow > 0.0
    ensures Run(t, POWER_ON, rs).stages.clock == Track(Stamps(rs))
  {
    hide Advance, Clamp01, Step, RiskStep, SchedulerScore, TemporalNorm;
    if rs != [] {
      var n := |rs| - 1;
      ClockFollowsReadings(t, rs[..n]);
      assert Stamps(rs)[..n] == Stamps(rs[..n]);
    }
  }

  function Stamps(rs: seq<Reading>): seq<U64> {
    seq(|rs|, i requires 0 <= i < |rs| => rs[i].now)
  }

  // ------------------------------------------------------ the risk stages inside a run

  /** The loads the risk stages saw, tick by tick. */
  function LoadsTrace(t: Tuning, rs: seq<Reading>): seq<Loads>
    requires t.warningWindow > 0.0
  {
    if rs == [] then [] else LoadsTrace(t, rs[..|rs| - 1]) + [LoadsOf(Run(t, POWER_ON, rs).frame)]
  }

  lemma TickRisk(t: Tuning, m: Machine, r: Reading)
    requires t.warningWindow > 0.0
    ensures var m' := Tick(t, m, r);
            && m'.stages.risk == RiskStep(m.stages.risk, LoadsOf(m'.frame)) && m'.frame.state == m'.stages.risk.level
            && m'.stages.risk.level
               == LevelStep(m.stages.risk.level, MaxRisk(m'.frame.realtimeRisk, m'.frame.saturationRisk))
  {
    hide SchedulerScore, MemoryScore, IoScore, ThermalScore, PowerScore, JitterScore, TemporalNorm, Advance,
      RealtimeScore, SaturationScore, LevelStep, MaxRisk, Step, Clamp01, TrackBaseline;
  }

  /** Inside a run the risk stages take exactly the steps their deadlines are about, on the loads of the run. */
  lemma {:induction false} RiskStagesFollowLoads(t: Tuning, rs: seq<Reading>)
    requires t.warningWindow > 0.0
    ensures Run(t, POWER_ON, rs).stages.risk == RiskRun(AT_START, LoadsTrace(t, rs))
  {
    hide Tick, RiskStep, LoadsOf;
    if rs != [] {
      var n := |rs| - 1;
      RiskStagesFollowLoads(t, rs[..n]);
      TickRisk(t, Run(t, POWER_ON, rs[..n]), rs[n]);
      RiskDeadlines.RunSnoc(AT_START, LoadsTrace(t, rs[..n]), LoadsOf(Run(t, POWER_ON, rs).frame));
    }
  }

  /** The larger of the two published risks, tick by tick. */
  function RiskTrace(t: Tuning, rs: seq<Reading>): (risks: seq<real>)
    requires t.warningWindow > 0.0
    ensures |risks| == |rs|
  {
    if rs == [] then [] else
    var f := Run(t, POWER_ON, rs).frame;
    RiskTrace(t, rs[..|rs| - 1]) + [MaxRisk(f.realtimeRisk, f.saturationRisk)]
  }

  /** The published states, tick by tick. */
  function StateTrace(t: Tuning, rs: seq<Reading>): (states: seq<Level>)
    requires t.warningWindow > 0.0
    ensures |states| == |rs|
  {
    if rs == [] then [] else StateTrace(t, rs[..|rs| - 1]) + [Run(t, POWER_ON, rs).frame.state]
  }

  /** The published states are what the level machine makes of the published risks. */
  lemma {:induction false} StatesFollowRisks(t: Tuning, rs: seq<Reading>)
    requires t.warningWindow > 0.0
    ensures StateTrace(t, rs) == LevelTrace(STABLE, RiskTrace(t, rs))
    ensures Run(t, POWER_ON, rs).stages.risk.level == LevelRun(STABLE, RiskTrace(t, rs))
  {
    hide Tick, LevelStep, LevelTrace, LevelRun, MaxRisk;
    if rs == [] {
      NoRisks();
    } else {
      var n := |rs| - 1;
      var f := Run(t, POWER_ON, rs).frame;
      StatesFollowRisks(t, rs[..n]);
      TickRisk(t, Run(t, POWER_ON, rs[..n]), rs[n]);
      LevelSnoc(STABLE, RiskTrace(t, rs[..n]), MaxRisk(f.realtimeRisk, f.saturationRisk));
    }
  }

  lemma NoRisks()
    ensures LevelRun(STABLE, []) == STABLE && LevelTrace(STABLE, []) == []
  {
  }

  /**
   In every run of the whole pipeline, each time the published state turns from getting worse to
   getting better, or back, has cost the published risk a swing of at least 0.10.
   */
  lemma {:induction false} PublishedStateRarelyTurns(t: Tuning, rs: seq<Reading>)
    requires t.warningWindow > 0.0 && rs != []
    ensures 0.10 * Turns(STABLE, Still, StateTrace(t, rs)) as real
         <= Variation(RiskTrace(t, rs)[0], RiskTrace(t, rs)[1..])
  {
    hide Run, RiskTrace, StateTrace;
    StatesFollowRisks(t, rs);
    TurnsAreReversals(STABLE, Still, RiskTrace(t, rs));
    FlappingBound(STABLE, RiskTrace(t, rs));
  }
}
