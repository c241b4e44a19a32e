/**
 The agent's tick loop (`src/core/agent.cpp`, `src/core/sampler.cpp`) as functions on a state value,
 driven by a world whose clocks and sensors are indexed by the global tick.
 */
module TickLoop {
  import opened Wrappers
  import opened Numeric
  import opened SignalFrame
  import opened Config
  import opened Sensors
  import Pressures
  import SystemState
  import P = Pipeline
  import PO = PipelineOrder
  import PD = PipelineDeadlines
  import XD = ExactDeadlines
  import RP = RedisPayload
  import RS = RedisSession

  /** What one `sensor.sample(frame_)` does to the raw signals, and whether it reports success. */
  datatype Sensed = Sensed(raw: RawSignals, ok: bool)

  datatype World = World(
    startNs: int, cycleStartNs: nat -> int, cycleEndNs: nat -> int,
    monotonicNs: nat -> U64, heartbeatMs: nat -> U64, sense: (nat, Sensor, RawSignals) -> Sensed)

  datatype Registration = Registration(sensor: Sensor, enabled: bool)

  datatype Redis = Redis(setup: RP.Setup, script: RS.Script)

  /** What is fixed when the agent is built. */
  datatype Plan = Plan(tuning: P.Tuning, tickIntervalMs: nat, publishHealth: bool, publishStdout: bool,
                       registry: seq<Registration>, redis: Option<Redis>, world: World) {
    predicate Valid() {
      tuning.warningWindow > 0.0
    }
  }

  /** `register_sensors`. */
  function RegisteredSensor(i: nat): Sensor {
    match i
    case 0 => Psi
    case 1 => Cpu
    case 2 => Interrupts
    case 3 => Softirqs
    case 4 => Memory
    case 5 => Disk
    case 6 => Network
    case 7 => Tegrastats
    case 8 => Thermal
    case 9 => CpuThrottle
    case 10 => Cpufreq
    case _ => Gpu
  }

  function Registry(config: AgentConfig): (registry: seq<Registration>)
    ensures |registry| == 12
  {
    seq(12, i requires 0 <= i < 12 => Registration(RegisteredSensor(i), IsOn(config, RegisteredSensor(i))))
  }

  datatype Dispatch = Dispatch(tick: nat, sensor: Sensor)

  /**
   The agent's fields, and what it has dispatched and handed to the debug sink so far; `step` counts
   cycles without bound, `tick` is the sampler's 64-bit counter.
   */
  datatype AgentState = AgentState(
    firstTick: bool, nextWakeupNs: int, previousStartNs: Option<int>, tick: U64, step: nat,
    machine: P.Machine, session: RS.Session, redisWasOk: bool, dispatched: seq<Dispatch>,
    printed: seq<Frame>)

  /** A newly built agent has already tried once to connect, and ignores whether that worked. */
  function Built(p: Plan): AgentState {
    AgentState(true, 0, None, 0, 0, P.POWER_ON,
               if p.redis.None? then RS.NEW_SESSION
               else RS.Perform(p.redis.value.setup, p.redis.value.script, RS.NEW_SESSION, RS.CheckConnectivity),
               true, [], [])
  }

  function IsDue(tick: U64, everyTicks: nat): bool {
    everyTicks != 0 && tick % everyTicks == 0
  }

  // -------------------------------------------------------------- one cycle

  function WithRaw(a: AgentState, raw: RawSignals): AgentState {
    a.(machine := a.machine.(frame := a.machine.frame.(raw := raw)))
  }

  function WithHealth(a: AgentState, health: AgentHealth): AgentState {
    a.(machine := a.machine.(frame := a.machine.frame.(agent := health)))
  }

  function BeginCollect(p: Plan, a: AgentState): AgentState {
    var f := a.machine.frame;
    a.(machine := a.machine.(frame := f.(monotonicNs := p.world.monotonicNs(a.step),
                                         agent := f.agent.(sensorFailures := 0))))
  }

  function SampleOne(p: Plan, a: AgentState, r: Registration): AgentState {
    if !r.enabled || !IsDue(a.tick, r.sensor.Period()) then a else
    var sensed := p.world.sense(a.step, r.sensor, a.machine.frame.raw);
    var health := a.machine.frame.agent;
    WithHealth(WithRaw(a, sensed.raw),
               if sensed.ok then health else health.(sensorFailures := Increment32(health.sensorFailures)))
    .(dispatched := a.dispatched + [Dispatch(a.step, r.sensor)])
  }

  function SampleUpTo(p: Plan, a: AgentState, k: nat): AgentState
    requires k <= |p.registry|
  {
    if k == 0 then a else SampleOne(p, SampleUpTo(p, a, k - 1), p.registry[k - 1])
  }

  function Collect(p: Plan, a: AgentState): AgentState {
    SampleUpTo(p, BeginCollect(p, a), |p.registry|)
  }

  function Compute(p: Plan, a: AgentState): AgentState
    requires p.Valid()
  {
    a.(machine := P.ComputeRisk(P.ComputeDerived(p.tuning, a.machine)))
  }

  function ErrorsCleared(a: AgentState): AgentState {
    WithHealth(a, a.machine.frame.agent.(redisErrors := 0))
  }

  /** `stdout_sink_.publish`. */
  function Shown(p: Plan, a: AgentState): AgentState {
    if p.publishStdout then a.(printed := a.printed + [a.machine.frame]) else a
  }

  function Sent(p: Plan, a: AgentState): RS.Publication
    requires p.redis.Some?
  {
    RS.Publish(p.redis.value.setup, p.redis.value.script, a.session, a.machine.frame)
  }

  function AfterSending(a: AgentState, sent: RS.Publication): AgentState {
    a.(session := sent.session, machine := a.machine.(frame := sent.frame))
  }

  function Noted(a: AgentState, ok: bool): AgentState {
    var health := a.machine.frame.agent;
    WithHealth(a.(redisWasOk := ok),
               if ok then health else health.(redisErrors := Increment32(health.redisErrors)))
  }

  function PublishSinks(p: Plan, a: AgentState): AgentState {
    var cleared := Shown(p, ErrorsCleared(a));
    if p.redis.None? then cleared else
    var sent := Sent(p, cleared);
    Noted(AfterSending(cleared, sent), sent.ok)
  }

  function Milliseconds(ns: int): real {
    ns as real / 1000000.0
  }

  function UpdateHealth(p: Plan, a: AgentState, actualPeriodMs: real, computeMs: real): AgentState {
    if !p.publishHealth then a else
    var health, tickMs := a.machine.frame.agent, p.tickIntervalMs as real;
    WithHealth(a, health.(loopJitterMs := Distance(actualPeriodMs, tickMs), computeTimeMs := computeMs,
                          heartbeatMs := p.world.heartbeatMs(a.step),
                          missedCycles := if computeMs > tickMs then Increment32(health.missedCycles)
                                          else health.missedCycles))
  }

  function ActualPeriodMs(p: Plan, a: AgentState): real {
    if a.previousStartNs.None? then 0.0
    else Milliseconds(p.world.cycleStartNs(a.step) - a.previousStartNs.value)
  }

  function IntervalNs(p: Plan): nat {
    1000000 * p.tickIntervalMs
  }

  function FinishCycle(p: Plan, a: AgentState): AgentState {
    a.(previousStartNs := Some(p.world.cycleStartNs(a.step)), tick := Add64(a.tick, 1), step := a.step + 1,
       nextWakeupNs := a.nextWakeupNs + IntervalNs(p))
  }

  /** The four phases of a cycle. */
  function Worked(p: Plan, a: AgentState): AgentState
    requires p.Valid()
  {
    PublishSinks(p, Compute(p, Collect(p, a)))
  }

  function Cycle(p: Plan, a: AgentState): AgentState
    requires p.Valid()
  {
    FinishCycle(p, UpdateHealth(p, Worked(p, a), ActualPeriodMs(p, a),
                                Milliseconds(p.world.cycleEndNs(a.step) - p.world.cycleStartNs(a.step))))
  }

  // -------------------------------------------------------------- whole runs

  function Started(p: Plan, a: AgentState): AgentState {
    if a.firstTick then a.(firstTick := false, nextWakeupNs := p.world.startNs) else a
  }

  /** `run_for_ticks(n)`. */
  function RunFor(p: Plan, a: AgentState, n: nat): AgentState
    requires p.Valid()
  {
    if n == 0 then Started(p, a) else Cycle(p, RunFor(p, a, n - 1))
  }

  datatype Stats = Stats(ticksExecuted: nat, sensorCycles: nat, derivedCycles: nat, riskCycles: nat, sinkCycles: nat) {
    function Plus(o: Stats): Stats {
      Stats(ticksExecuted + o.ticksExecuted, sensorCycles + o.sensorCycles, derivedCycles + o.derivedCycles,
            riskCycles + o.riskCycles, sinkCycles + o.sinkCycles)
    }
  }

  function StatsOf(n: nat): Stats {
    Stats(n, n, n, n, n)
  }

  lemma {:induction false} SamplingKeeps(p: Plan, a: AgentState, k: nat)
    requires k <= |p.registry|
    ensures var b := SampleUpTo(p, a, k);
            && b.firstTick == a.firstTick && b.step == a.step && b.tick == a.tick
            && b.nextWakeupNs == a.nextWakeupNs && b.previousStartNs == a.previousStartNs
            && b.session == a.session && b.redisWasOk == a.redisWasOk && b.printed == a.printed
            && b.machine.stages == a.machine.stages
            && b.machine.frame.monotonicNs == a.machine.frame.monotonicNs
  {
    hide IsDue;
    if k > 0 {
      SamplingKeeps(p, a, k - 1);
    }
  }

  /** What a cycle does to the bookkeeping fields, whatever sensors, pipeline and sink do. */
  lemma CycleBookkeeping(p: Plan, a: AgentState)
    requires p.Valid()
    ensures var b := Cycle(p, a);
            && b.firstTick == a.firstTick && b.step == a.step + 1 && b.tick == Add64(a.tick, 1)
            && b.nextWakeupNs == a.nextWakeupNs + IntervalNs(p)
            && b.previousStartNs == Some(p.world.cycleStartNs(a.step))
            && b.dispatched == Collect(p, a).dispatched
            && b.machine.stages == Compute(p, Collect(p, a)).machine.stages
  {
    hide SampleUpTo, P.ComputeDerived, P.ComputeRisk, RS.Publish, Milliseconds, Distance, Add64;
    SamplingKeeps(p, BeginCollect(p, a), |p.registry|);
  }

  lemma {:induction false} RunBookkeeping(p: Plan, a: AgentState, n: nat)
    requires p.Valid()
    ensures var b := RunFor(p, a, n);
            && !b.firstTick && b.step == a.step + n
            && b.nextWakeupNs == Started(p, a).nextWakeupNs + n * IntervalNs(p)
  {
    hide Cycle, IntervalNs;
    if n > 0 {
      RunBookkeeping(p, a, n - 1);
      CycleBookkeeping(p, RunFor(p, a, n - 1));
      OneMoreInterval(n, IntervalNs(p));
    }
  }

  lemma OneMoreInterval(n: nat, interval: nat)
    requires n > 0
    ensures n * interval == (n - 1) * interval + interval
  {
  }

  /** Drift-free wake-ups: after k cycles the next one is due at exactly start + k intervals. */
  lemma {:induction false} WakeupsDoNotDrift(p: Plan, k: nat)
    requires p.Valid()
    ensures RunFor(p, Built(p), k).nextWakeupNs == p.world.startNs + k * (1000000 * p.tickIntervalMs)
  {
    RunBookkeeping(p, Built(p), k);
  }

  /** Running m ticks and then n is running m + n: the same state, and statistics that add up. */
  lemma {:induction false} RunsCompose(p: Plan, a: AgentState, m: nat, n: nat)
    requires p.Valid()
    ensures RunFor(p, RunFor(p, a, m), n) == RunFor(p, a, m + n)
    ensures StatsOf(m).Plus(StatsOf(n)) == StatsOf(m + n)
  {
    hide Cycle;
    if n == 0 {
      RunBookkeeping(p, a, m);
    } else {
      RunsCompose(p, a, m, n - 1);
    }
  }

  /** The program's main loop: one tick at a time, until it is told to stop. */
  function OneAtATime(p: Plan, a: AgentState, n: nat): AgentState
    requires p.Valid()
  {
    if n == 0 then a else RunFor(p, OneAtATime(p, a, n - 1), 1)
  }

  lemma {:induction false} MainLoopIsOneRun(p: Plan, a: AgentState, n: nat)
    requires p.Valid() && n > 0
    ensures OneAtATime(p, a, n) == RunFor(p, a, n)
  {
    hide RunFor;
    if n > 1 {
      MainLoopIsOneRun(p, a, n - 1);
      RunsCompose(p, a, n - 1, 1);
    } else {
      assert OneAtATime(p, a, 0) == a;
    }
  }

  // ----------------------------------------------------------- dispatch schedule

  function Samples(log: seq<Dispatch>, sensor: Sensor): nat {
    if log == [] then 0 else
    Samples(log[..|log| - 1], sensor) + if log[|log| - 1].sensor == sensor then 1 else 0
  }

  lemma SamplesSnoc(log: seq<Dispatch>, d: Dispatch, sensor: Sensor)
    ensures Samples(log + [d], sensor) == Samples(log, sensor) + if d.sensor == sensor then 1 else 0
  {
    assert (log + [d])[..|log|] == log;
  }

  /** Each sensor is registered once, under the switch of its name. */
  ghost predicate WellRegistered(p: Plan) {
    && |p.registry| == 12
    && forall i :: 0 <= i < 12 ==> p.registry[i].sensor.Period() == i + 1
  }

  function Enabled(p: Plan, sensor: Sensor): bool
    requires |p.registry| == 12
  {
    p.registry[sensor.Period() - 1].enabled
  }

  lemma PeriodsIdentify(s: Sensor, t: Sensor)
    ensures s.Period() == t.Period() <==> s == t
  {
  }

  lemma RegistrationSlots(s: Sensor, i: nat)
    requires i < 12
    ensures RegisteredSensor(s.Period() - 1) == s && RegisteredSensor(i).Period() == i + 1
  {
  }

  lemma RegistryIsWellFormed(config: AgentConfig, p: Plan)
    requires p.registry == Registry(config)
    ensures WellRegistered(p)
    ensures forall s :: Enabled(p, s) == IsOn(config, s)
  {
    hide IsOn, RegisteredSensor;
    forall s: Sensor
      ensures RegisteredSensor(s.Period() - 1) == s
    {
      RegistrationSlots(s, 0);
    }
    forall i: nat | i < 12
      ensures RegisteredSensor(i).Period() == i + 1
    {
      RegistrationSlots(Psi, i);
    }
  }

  /** Exactly one sample per enabled sensor whose period divides the sampler's tick. */
  lemma {:induction false} SamplingIsDispatch(p: Plan, a: AgentState, k: nat, sensor: Sensor)
    requires WellRegistered(p) && k <= 12
    ensures Samples(SampleUpTo(p, a, k).dispatched, sensor) == Samples(a.dispatched, sensor)
            + if sensor.Period() <= k && Enabled(p, sensor) && IsDue(a.tick, sensor.Period()) then 1 else 0
  {
    hide IsDue, Samples, Increment32;
    if k > 0 {
      var before := SampleUpTo(p, a, k - 1);
      SamplingIsDispatch(p, a, k - 1, sensor);
      SamplingKeeps(p, a, k - 1);
      PeriodsIdentify(sensor, p.registry[k - 1].sensor);
      SamplesSnoc(before.dispatched, Dispatch(a.step, p.registry[k - 1].sensor), sensor);
    }
  }

  /** And at most as many failures as samples. */
  lemma {:induction false} SamplingCountsFailures(p: Plan, a: AgentState, k: nat)
    requires k <= |p.registry|
    ensures |a.dispatched| <= |SampleUpTo(p, a, k).dispatched| <= |a.dispatched| + k
    ensures a.machine.frame.agent.sensorFailures + |SampleUpTo(p, a, k).dispatched| - |a.dispatched| <= 0xFFFF_FFFF ==>
              SampleUpTo(p, a, k).machine.frame.agent.sensorFailures as int
              <= a.machine.frame.agent.sensorFailures as int + |SampleUpTo(p, a, k).dispatched| - |a.dispatched|
  {
    hide IsDue;
    if k > 0 {
      SamplingCountsFailures(p, a, k - 1);
    }
  }

  /** The failures a tick reports never exceed the sensors it sampled. */
  lemma {:induction false} FailuresBounded(p: Plan, a: AgentState)
    requires WellRegistered(p)
    ensures Collect(p, a).machine.frame.agent.sensorFailures as int <= |Collect(p, a).dispatched| - |a.dispatched| <= 12
  {
    hide SampleUpTo;
    SamplingCountsFailures(p, BeginCollect(p, a), 12);
  }

  function CeilDiv(n: nat, d: nat): nat
    requires d > 0
  {
    (n + d - 1) / d
  }

  lemma {:induction false} TickFollowsStep(p: Plan, n: nat)
    requires p.Valid() && n <= 0x1_0000_0000_0000_0000
    ensures RunFor(p, Built(p), n).tick == if n <= U64_MAX then n else 0
    ensures RunFor(p, Built(p), n).step == n
  {
    hide Cycle, Built, Add64;
    BuiltAtZero(p);
    if n > 0 {
      TickFollowsStep(p, n - 1);
      CycleBookkeeping(p, RunFor(p, Built(p), n - 1));
      NextTick(if n - 1 <= U64_MAX then n - 1 else 0);
    }
  }

  lemma BuiltAtZero(p: Plan)
    ensures Built(p).tick == 0 && Built(p).step == 0 && Built(p).dispatched == []
    ensures Started(p, Built(p)).tick == 0 && Started(p, Built(p)).step == 0 && Started(p, Built(p)).dispatched == []
  {
    hide RS.Perform;
  }

  lemma NextTick(tick: U64)
    ensures Add64(tick, 1) == if tick < U64_MAX then tick + 1 else 0
  {
  }

  lemma CeilDivSteps(n: nat, d: nat)
    requires 1 <= d <= 12
    ensures CeilDiv(n + 1, d) == CeilDiv(n, d) + if n % d == 0 then 1 else 0
  {
    var q, r := n / d, n % d;
    assert n == q * d + r;
    assert (q + 1) * d == q * d + d;
    QuotientIs(n + 1 + d - 1, d, q + 1, r);
    QuotientIs(n + d - 1, d, if r == 0 then q else q + 1, if r == 0 then d - 1 else r - 1);
  }

  lemma QuotientIs(n: nat, d: nat, q: nat, r: nat)
    requires 0 < d && r < d && n == q * d + r
    ensures n / d == q
  {
    var e := n / d - q;
    assert e * d == r - n % d;
  }

  /**
   In the first n ticks every enabled sensor of period p is sampled exactly ceil(n / p) times and a
   disabled one never, as long as the sampler's 64-bit counter has not wrapped.
   */
  lemma {:induction false} SampledCeilTimes(p: Plan, n: nat, sensor: Sensor)
    requires p.Valid() && WellRegistered(p) && n <= 0x1_0000_0000_0000_0000
    ensures Samples(RunFor(p, Built(p), n).dispatched, sensor)
         == if Enabled(p, sensor) then CeilDiv(n, sensor.Period()) else 0
  {
    hide Cycle, Samples, CeilDiv, SampleUpTo, Built, Add64;
    BuiltAtZero(p);
    if n == 0 {
      NoSamples(sensor);
    } else {
      var before := RunFor(p, Built(p), n - 1);
      SampledCeilTimes(p, n - 1, sensor);
      CycleBookkeeping(p, before);
      TickFollowsStep(p, n - 1);
      SamplingIsDispatch(p, BeginCollect(p, before), 12, sensor);
      CeilDivSteps(n - 1, sensor.Period());
    }
  }

  lemma NoSamples(sensor: Sensor)
    ensures Samples([], sensor) == 0 && CeilDiv(0, sensor.Period()) == 0
  {
  }

  /** Tick by tick: a sensor is sampled in cycle t exactly when it is enabled and its period divides t. */
  lemma {:induction false} SampledExactlyWhenDue(p: Plan, t: nat, sensor: Sensor)
    requires p.Valid() && WellRegistered(p) && t <= U64_MAX
    ensures Samples(RunFor(p, Built(p), t + 1).dispatched, sensor) == Samples(RunFor(p, Built(p), t).dispatched, sensor)
            + if Enabled(p, sensor) && t % sensor.Period() == 0 then 1 else 0
  {
    hide Cycle, Samples, SampleUpTo;
    var before := RunFor(p, Built(p), t);
    CycleBookkeeping(p, before);
    TickFollowsStep(p, t);
    SamplingIsDispatch(p, BeginCollect(p, before), 12, sensor);
  }

  /** What tick `t` adds to the dispatch log: the first `k` registrations that are enabled and due, in order. */
  function Due(p: Plan, tick: U64, t: nat, k: nat): seq<Dispatch>
    requires k <= |p.registry|
  {
    if k == 0 then [] else
    var r := p.registry[k - 1];
    Due(p, tick, t, k - 1) + if r.enabled && IsDue(tick, r.sensor.Period()) then [Dispatch(t, r.sensor)] else []
  }

  lemma {:induction false} SamplingLogsDue(p: Plan, a: AgentState, k: nat)
    requires k <= |p.registry|
    ensures SampleUpTo(p, a, k).dispatched == a.dispatched + Due(p, a.tick, a.step, k)
  {
    hide IsDue;
    if k > 0 {
      SamplingLogsDue(p, a, k - 1);
      SamplingKeeps(p, a, k - 1);
    }
  }

  ghost predicate Earlier(d: Dispatch, e: Dispatch) {
    d.tick < e.tick || (d.tick == e.tick && d.sensor.Period() < e.sensor.Period())
  }

  ghost predicate InOrder(log: seq<Dispatch>) {
    forall i, j :: 0 <= i < j < |log| ==> Earlier(log[i], log[j])
  }

  /** Enabled, and on a tick its period divides. */
  predicate OnSchedule(p: Plan, d: Dispatch)
    requires |p.registry| == 12
  {
    Enabled(p, d.sensor) && d.tick % d.sensor.Period() == 0
  }

  lemma {:induction false} DueInOrder(p: Plan, t: U64, k: nat, d: Dispatch)
    requires WellRegistered(p) && k <= 12
    ensures d in Due(p, t, t, k) <==> d.tick == t && d.sensor.Period() <= k && OnSchedule(p, d)
    ensures InOrder(Due(p, t, t, k))
    ensures forall i :: 0 <= i < |Due(p, t, t, k)| ==>
              Due(p, t, t, k)[i].tick == t && Due(p, t, t, k)[i].sensor.Period() <= k
  {
    if k > 0 {
      DueInOrder(p, t, k - 1, d);
      PeriodsIdentify(d.sensor, p.registry[k - 1].sensor);
    }
  }

  lemma CycleLogsDue(p: Plan, n: nat)
    requires p.Valid() && WellRegistered(p) && n <= U64_MAX
    ensures RunFor(p, Built(p), 0).dispatched == []
    ensures RunFor(p, Built(p), n + 1).dispatched == RunFor(p, Built(p), n).dispatched + Due(p, n, n, 12)
  {
    hide Cycle, SampleUpTo, Due, Built, Started, Add64;
    BuiltAtZero(p);
    var before := RunFor(p, Built(p), n);
    CycleBookkeeping(p, before);
    TickFollowsStep(p, n);
    SamplingLogsDue(p, BeginCollect(p, before), 12);
  }

  /**
   The dispatch log of a run, completely: entry (t, s) is in it iff t is one of the ticks run, s is
   enabled and its period divides t; and the log is ordered by tick, within a tick by registration.
   */
  lemma {:induction false} LogIsSchedule(p: Plan, n: nat, d: Dispatch)
    requires p.Valid() && WellRegistered(p) && n <= 0x1_0000_0000_0000_0000
    ensures var log := RunFor(p, Built(p), n).dispatched;
            && (d in log <==> d.tick < n && OnSchedule(p, d))
            && InOrder(log) && forall i :: 0 <= i < |log| ==> log[i].tick < n
  {
    hide RunFor, Due, WellRegistered, OnSchedule, InOrder, Built;
    TwelveRegistrations(p);
    if n == 0 {
      CycleLogsDue(p, 0);
      NothingInOrder();
    } else {
      var log, more := RunFor(p, Built(p), n - 1).dispatched, Due(p, n - 1, n - 1, 12);
      LogIsSchedule(p, n - 1, d);
      CycleLogsDue(p, n - 1);
      DueInOrder(p, n - 1, 12, d);
      AppendInOrder(log, more, n - 1);
      assert d in log + more <==> d in log || d in more;
    }
  }

  lemma NothingInOrder()
    ensures InOrder([])
  {
  }

  lemma TwelveRegistrations(p: Plan)
    requires WellRegistered(p)
    ensures |p.registry| == 12
  {
  }

  lemma AppendInOrder(log: seq<Dispatch>, more: seq<Dispatch>, t: nat)
    requires InOrder(log) && forall i :: 0 <= i < |log| ==> log[i].tick < t
    requires InOrder(more) && forall i :: 0 <= i < |more| ==> more[i].tick == t
    ensures InOrder(log + more) && forall i :: 0 <= i < |log + more| ==> (log + more)[i].tick <= t
  {
  }

  /** In the log of any run, consecutive entries of one sensor are exactly one of its periods apart. */
  lemma {:induction false} SamplesOnePeriodApart(p: Plan, n: nat, i: nat, j: nat)
    requires p.Valid() && WellRegistered(p) && n <= 0x1_0000_0000_0000_0000
    requires var log := RunFor(p, Built(p), n).dispatched;
             && i < j < |log| && log[i].sensor == log[j].sensor
             && forall k :: i < k < j ==> log[k].sensor != log[i].sensor
    ensures var log := RunFor(p, Built(p), n).dispatched;
            log[j].tick == log[i].tick + log[i].sensor.Period()
  {
    hide RunFor, Built, WellRegistered, Enabled;
    TwelveRegistrations(p);
    var log := RunFor(p, Built(p), n).dispatched;
    var sensor := log[i].sensor;
    var next := Dispatch(log[i].tick + sensor.Period(), sensor);
    LogIsSchedule(p, n, log[i]);
    LogIsSchedule(p, n, log[j]);
    LogIsSchedule(p, n, next);
    assert Earlier(log[i], log[j]);
    NextMultiple(log[i].tick, log[j].tick, sensor.Period());
    if next.tick < log[j].tick {
      var k :| 0 <= k < |log| && log[k] == next;
      assert false;
    }
  }

  /** Two different multiples are at least one period apart, and a period after one comes another. */
  lemma NextMultiple(t: nat, u: nat, m: nat)
    requires m > 0 && t % m == 0 && u % m == 0 && t < u
    ensures t + m <= u && (t + m) % m == 0
  {
    ExactQuotient(t, m);
    ExactQuotient(u, m);
    MultiplesApart(t / m, u / m, m);
  }

  lemma ExactQuotient(t: nat, m: nat)
    requires m > 0 && t % m == 0
    ensures t == m * (t / m)
  {
  }

  lemma MultiplesApart(x: int, y: int, m: nat)
    requires m > 0 && m * x < m * y
    ensures m * x + m <= m * y && (m * x + m) % m == 0
  {
    SmallMultiple(y - x, m);
    RemainderUnique(m * x + m, m, x + 1, 0);
  }

  lemma SmallMultiple(q: int, m: nat)
    requires m > 0 && m * q > 0
    ensures m * q >= m
  {
  }

  /** A common multiple of coprime a and b (with 1 == u a + v b) is a multiple of their product. */
  lemma CoprimeMultiple(t: nat, a: nat, b: nat, u: int, v: int)
    requires a > 0 && b > 0 && u * a + v * b == 1
    requires t % a == 0 && t % b == 0
    ensures a * b > 0 && t % (a * b) == 0
  {
    var x, y := t / a, t / b;
    assert t == x * a && t == y * b;
    assert a * b > 0;
    assert u * a * t == (u * y) * (a * b) by {
      assert u * a * t == u * a * (y * b);
    }
    assert v * b * t == (v * x) * (a * b) by {
      assert v * b * t == v * b * (x * a);
    }
    assert t == (u * a + v * b) * t == u * a * t + v * b * t;
    assert (u * y) * (a * b) + (v * x) * (a * b) == (u * y + v * x) * (a * b);
    RemainderUnique(t, a * b, u * y + v * x, 0);
  }

  /** All twelve sensors fall on the same tick exactly every 27720 ticks. */
  lemma {:induction false} AllCoincideEvery27720(t: nat)
    ensures (forall s: Sensor :: t % s.Period() == 0) <==> t % 27720 == 0
  {
    if t % 27720 == 0 {
      var q := t / 27720;
      forall s: Sensor
        ensures t % s.Period() == 0
      {
        MultipleOfPeriod(q, s);
      }
    }
    if forall s: Sensor :: t % s.Period() == 0 {
      FivePeriodsSuffice(t, Tegrastats.Period(), Thermal.Period(), Memory.Period(), Network.Period(), Cpufreq.Period());
    }
  }

  lemma FivePeriodsSuffice(t: nat, a: nat, b: nat, c: nat, d: nat, e: nat)
    requires a == 8 && b == 9 && c == 5 && d == 7 && e == 11
    requires t % a == 0 && t % b == 0 && t % c == 0 && t % d == 0 && t % e == 0
    ensures t % 27720 == 0
  {
    CoprimeMultiple(t, 8, 9, -1, 1);
    CoprimeMultiple(t, 72, 5, -2, 29);
    CoprimeMultiple(t, 360, 7, -2, 103);
    CoprimeMultiple(t, 2520, 11, 1, -229);
  }

  lemma MultipleOfPeriod(q: nat, s: Sensor)
    ensures (27720 * q) % s.Period() == 0
  {
    match s
    case Psi => RemainderUnique(27720 * q, 1, 27720 * q, 0);
    case Cpu => RemainderUnique(27720 * q, 2, 13860 * q, 0);
    case Interrupts => RemainderUnique(27720 * q, 3, 9240 * q, 0);
    case Softirqs => RemainderUnique(27720 * q, 4, 6930 * q, 0);
    case Memory => RemainderUnique(27720 * q, 5, 5544 * q, 0);
    case Disk => RemainderUnique(27720 * q, 6, 4620 * q, 0);
    case Network => RemainderUnique(27720 * q, 7, 3960 * q, 0);
    case Tegrastats => RemainderUnique(27720 * q, 8, 3465 * q, 0);
    case Thermal => RemainderUnique(27720 * q, 9, 3080 * q, 0);
    case CpuThrottle => RemainderUnique(27720 * q, 10, 2772 * q, 0);
    case Cpufreq => RemainderUnique(27720 * q, 11, 2520 * q, 0);
    case Gpu => RemainderUnique(27720 * q, 12, 2310 * q, 0);
  }

  /** How often each sensor has been sampled when all of them meet again for the first time. */
  function SamplesTogether(s: Sensor): nat {
    match s
    case Psi => 27720
    case Cpu => 13860
    case Interrupts => 9240
    case Softirqs => 6930
    case Memory => 5544
    case Disk => 4620
    case Network => 3960
    case Tegrastats => 3465
    case Thermal => 3080
    case CpuThrottle => 2772
    case Cpufreq => 2520
    case Gpu => 2310
  }

  lemma {:induction false} SampledTogether(p: Plan, s: Sensor)
    requires p.Valid() && WellRegistered(p) && Enabled(p, s)
    ensures Samples(RunFor(p, Built(p), 27720).dispatched, s) == SamplesTogether(s)
  {
    hide RunFor, Samples, CeilDiv;
    SampledCeilTimes(p, 27720, s);
    CommonPeriod(s);
  }

  lemma CommonPeriod(s: Sensor)
    ensures CeilDiv(27720, s.Period()) == SamplesTogether(s)
  {
  }

  // ------------------------------------------------------ the loop runs the pipeline

  /** The readings the run presents to the pipeline: the clock of each tick and what the sensors left. */
  function Readings(p: Plan, n: nat): (rs: seq<P.Reading>)
    requires p.Valid()
    ensures |rs| == n
  {
    if n == 0 then [] else
    Readings(p, n - 1)
    + [P.Reading(p.world.monotonicNs(n - 1), Collect(p, RunFor(p, Built(p), n - 1)).machine.frame.raw)]
  }

  /** Everything the pipeline publishes into a frame. */
  ghost predicate SamePublished(f: Frame, g: Frame) {
    && P.LoadsOf(f) == P.LoadsOf(g)
    && f.realtimeRisk == g.realtimeRisk && f.saturationRisk == g.saturationRisk && f.state == g.state
  }

  /** The pipeline never looks at what the previous tick published. */
  lemma TickIgnoresOldFrame(t: P.Tuning, st: P.Stages, f: Frame, g: Frame)
    requires t.warningWindow > 0.0 && f.raw == g.raw && f.monotonicNs == g.monotonicNs
    ensures var x := P.ComputeRisk(P.ComputeDerived(t, P.Machine(st, f)));
            var y := P.ComputeRisk(P.ComputeDerived(t, P.Machine(st, g)));
            x.stages == y.stages && SamePublished(x.frame, y.frame)
  {
  }

  /**
   Every run of the agent is a run of the pressure and risk pipeline on the readings of its ticks, and
   what a cycle hands to the sinks is what that pipeline publishes; so everything proved about pipeline
   runs holds of the agent.
   */
  lemma {:induction false} AgentRunsPipeline(p: Plan, n: nat)
    requires p.Valid()
    ensures RunFor(p, Built(p), n).machine.stages == P.Run(p.tuning, P.POWER_ON, Readings(p, n)).stages
    ensures n > 0 ==> SamePublished(FramePublished(p, RunFor(p, Built(p), n - 1)),
                                    P.Run(p.tuning, P.POWER_ON, Readings(p, n)).frame)
  {
    hide Cycle, Collect, P.ComputeDerived, P.ComputeRisk;
    if n > 0 {
      var before, rs := RunFor(p, Built(p), n - 1), Readings(p, n);
      AgentRunsPipeline(p, n - 1);
      RunBookkeeping(p, Built(p), n - 1);
      CycleBookkeeping(p, before);
      CollectKeeps(p, before);
      var m := P.Run(p.tuning, P.POWER_ON, rs[..n - 1]);
      assert rs[..n - 1] == Readings(p, n - 1);
      var collected := Collect(p, before).machine.frame;
      TickIgnoresOldFrame(p.tuning, m.stages, collected, m.frame.(monotonicNs := rs[n - 1].now, raw := rs[n - 1].raw));
    }
  }

  /**
   Two agents on equal tuning and equal clocks, one at least as loaded at every tick and with interrupts
   that add as much: in every cycle it hands to its sinks pressures, risks and a state that are at least as bad.
   */
  lemma {:induction false} WorseAgentNeverLooksBetter(p: Plan, q: Plan, n: nat)
    requires p.Valid() && q.Valid() && p.tuning == q.tuning && p.tuning.Valid() && n > 0
    requires PO.WorseTrace(Readings(p, n), Readings(q, n))
    ensures PO.PublishedAtMost(FramePublished(p, RunFor(p, Built(p), n - 1)),
                              FramePublished(q, RunFor(q, Built(q), n - 1)))
  {
    hide FramePublished, RunFor, Readings, P.Run, PO.WorseTrace;
    AgentRunsPipeline(p, n);
    AgentRunsPipeline(q, n);
    PO.WorseTraceNeverLooksBetter(p.tuning, Readings(p, n), Readings(q, n));
    assert Readings(p, n)[..n] == Readings(p, n) && Readings(q, n)[..n] == Readings(q, n);
  }

  /** The states a run hands to its sinks. */
  function StatesHandedOver(p: Plan, n: nat): (states: seq<Level>)
    requires p.Valid()
    ensures |states| == n
  {
    if n == 0 then [] else StatesHandedOver(p, n - 1) + [FramePublished(p, RunFor(p, Built(p), n - 1)).state]
  }

  lemma {:induction false} AgentStatesArePipelineStates(p: Plan, n: nat)
    requires p.Valid()
    ensures StatesHandedOver(p, n) == P.StateTrace(p.tuning, Readings(p, n))
  {
    hide FramePublished, RunFor, P.Run;
    if n > 0 {
      AgentStatesArePipelineStates(p, n - 1);
      AgentRunsPipeline(p, n);
      assert Readings(p, n)[..n - 1] == Readings(p, n - 1);
    }
  }

  /** The state the agent hands over turns around only when the risk it publishes has swung by 0.10. */
  lemma {:induction false} AgentRarelyFlaps(p: Plan, n: nat)
    requires p.Valid() && n > 0
    ensures var risks := P.RiskTrace(p.tuning, Readings(p, n));
            0.10 * SystemState.Turns(STABLE, SystemState.Still, StatesHandedOver(p, n)) as real
            <= SystemState.Variation(risks[0], risks[1..])
  {
    hide StatesHandedOver, Readings, P.RiskTrace, P.StateTrace;
    AgentStatesArePipelineStates(p, n);
    P.PublishedStateRarelyTurns(p.tuning, Readings(p, n));
  }

  /**
   The deadlines of the pipeline hold of the agent, whatever it went through before. Loads of at most theta for
   n ticks with a clock that disperses by at most tau for m of them end in STABLE handed to the sinks once
   both risks have faded; loads that keep their floors end in CRITICAL once the saturation risk has risen.
   */
  lemma {:induction false} AgentMeetsDeadlines(p: Plan, ticks: nat, m: nat, n: nat, theta: real, tau: real,
                                               fl: PD.Floors)
    requires p.Valid() && ticks > 0 && m <= n && PD.Strengths(theta, tau) && fl.Valid()
    ensures var rs, handedOver := Readings(p, ticks), FramePublished(p, RunFor(p, Built(p), ticks - 1)).state;
            && (PD.EndsCalm(p.tuning, rs, n, theta) && PD.EndsSteady(rs, m, tau)
                && theta + (1.0 - theta) * PD.Lag(n) <= 0.30
                && PD.RealtimeLimit(theta, tau) + PD.Room(theta, tau) * PD.ShortLag(m) <= 0.30
                ==> handedOver == STABLE)
            && (PD.EndsLoaded(p.tuning, rs, n, fl) && fl.Weighted() * (1.0 - PD.Lag(n)) >= 0.88
                ==> handedOver == CRITICAL)
  {
    hide FramePublished, RunFor, Readings, P.Run, PD.EndsCalm, PD.EndsSteady, PD.EndsLoaded, PD.Lag, PD.ShortLag;
    hide PD.RealtimeLimit, PD.Room, PD.Floors.Weighted, PD.Strengths;
    var rs := Readings(p, ticks);
    AgentRunsPipeline(p, ticks);
    if PD.EndsCalm(p.tuning, rs, n, theta) && PD.EndsSteady(rs, m, tau) {
      if theta + (1.0 - theta) * PD.Lag(n) <= 0.30
         && PD.RealtimeLimit(theta, tau) + PD.Room(theta, tau) * PD.ShortLag(m) <= 0.30
      {
        PD.CalmEndsStable(p.tuning, rs, m, n, theta, tau);
      }
    }
    if PD.EndsLoaded(p.tuning, rs, n, fl) && fl.Weighted() * (1.0 - PD.Lag(n)) >= 0.88 {
      PD.LoadEndsCritical(p.tuning, rs, n, fl);
    }
  }

  /**
   Idle ticks clear every alarm, nineteen of them on a clock that keeps within a fifth and eleven on an even one;
   twenty-one busy ticks raise it on any clock.
   */
  lemma {:induction false} AgentFollowsLoad(p: Plan, ticks: nat, k: nat, lo: nat, hi: nat)
    requires p.Valid() && ticks > 0
    ensures var rs, handedOver := Readings(p, ticks), FramePublished(p, RunFor(p, Built(p), ticks - 1)).state;
            && (PD.EndsIdle(p.tuning, rs, k) && PD.Spaced(rs, k, lo, hi)
                && ((k >= 19 && 0 < lo <= hi && 5 * (hi - lo) <= lo) || (k >= 11 && lo == hi))
                ==> handedOver == STABLE)
            && (XD.EndsBusy(p.tuning, rs, k) && k >= 21 ==> handedOver == CRITICAL)
  {
    hide FramePublished, RunFor, Readings, P.Run, PD.IsIdle, XD.Busy;
    var rs := Readings(p, ticks);
    AgentRunsPipeline(p, ticks);
    if PD.EndsIdle(p.tuning, rs, k) && PD.Spaced(rs, k, lo, hi) {
      if k >= 19 && 0 < lo <= hi && 5 * (hi - lo) <= lo {
        PD.NineteenIdleTicksEndStable(p.tuning, rs, k, lo, hi);
      } else if k >= 11 && lo == hi {
        XD.ElevenIdleTicksEndStable(p.tuning, rs, lo);
      }
    }
    if k >= 21 && XD.EndsBusy(p.tuning, rs, k) {
      XD.TwentyOneBusyTicksEndCritical(p.tuning, rs);
    }
  }

  lemma CollectKeeps(p: Plan, a: AgentState)
    ensures Collect(p, a).machine.stages == a.machine.stages
    ensures Collect(p, a).machine.frame.monotonicNs == p.world.monotonicNs(a.step)
  {
    hide SampleUpTo;
    SamplingKeeps(p, BeginCollect(p, a), |p.registry|);
  }

  // ------------------------------------------------------- the loop drives the sink

  /** The operations a run performs on the sink: the connectivity check, then one publish a cycle. */
  function SinkOperations(p: Plan, n: nat): seq<RS.Operation>
    requires p.Valid()
  {
    if n == 0 then [RS.CheckConnectivity] else
    SinkOperations(p, n - 1) + [RS.PublishFrame(FramePublished(p, RunFor(p, Built(p), n - 1)))]
  }

  /** The frame as the sink gets it: sensors read, pressures and risks computed, the error count cleared. */
  function FramePublished(p: Plan, a: AgentState): Frame
    requires p.Valid()
  {
    var f := Compute(p, Collect(p, a)).machine.frame;
    f.(agent := f.agent.(redisErrors := 0))
  }

  lemma CyclePublishes(p: Plan, a: AgentState)
    requires p.Valid() && p.redis.Some?
    ensures Cycle(p, a).session
         == RS.Perform(p.redis.value.setup, p.redis.value.script, a.session, RS.PublishFrame(FramePublished(p, a)))
  {
    hide SampleUpTo, P.ComputeDerived, P.ComputeRisk, RS.Publish, Milliseconds, Distance, Add64;
    SamplingKeeps(p, BeginCollect(p, a), |p.registry|);
  }

  lemma CyclePrints(p: Plan, a: AgentState)
    requires p.Valid()
    ensures Cycle(p, a).printed == a.printed + if p.publishStdout then [FramePublished(p, a)] else []
  {
    hide SampleUpTo, P.ComputeDerived, P.ComputeRisk, RS.Publish, Milliseconds, Distance, Add64;
    SamplingKeeps(p, BeginCollect(p, a), |p.registry|);
  }

  /** The frames a run hands to its sinks. */
  function FramesPublished(p: Plan, n: nat): seq<Frame>
    requires p.Valid()
  {
    if n == 0 then [] else FramesPublished(p, n - 1) + [FramePublished(p, RunFor(p, Built(p), n - 1))]
  }

  /** The debug sink, when it is on, is handed exactly the frames the other sink is handed, one a cycle. */
  lemma {:induction false} AgentPrintsWhatItPublishes(p: Plan, n: nat)
    requires p.Valid()
    ensures RunFor(p, Built(p), n).printed == if p.publishStdout then FramesPublished(p, n) else []
  {
    hide Cycle, FramePublished, RS.Perform;
    if n > 0 {
      AgentPrintsWhatItPublishes(p, n - 1);
      CyclePrints(p, RunFor(p, Built(p), n - 1));
    }
  }

  /**
   Every run of the agent is a run of the sink's session protocol, so everything proved about those,
   for all answers of the server, holds of the agent.
   */
  lemma {:induction false} AgentRunsSession(p: Plan, n: nat)
    requires p.Valid() && p.redis.Some?
    ensures RunFor(p, Built(p), n).session
         == RS.Run(p.redis.value.setup, p.redis.value.script, SinkOperations(p, n))
  {
    hide Cycle, RS.Perform, FramePublished;
    if n > 0 {
      AgentRunsSession(p, n - 1);
      CyclePublishes(p, RunFor(p, Built(p), n - 1));
    } else {
      var redis, ops := p.redis.value, [RS.CheckConnectivity];
      assert ops[..0] == [];
      assert RS.RunFrom(redis.setup, redis.script, RS.NEW_SESSION, ops[..0]) == RS.NEW_SESSION;
    }
  }

  /** What the constructor makes of a configuration. */
  function PlanOf(config: AgentConfig, exp: real -> real, show: real -> string, script: RS.Script, world: World)
    : (p: Plan)
    ensures p.Valid()
  {
    Plan(P.Tuning(exp, Pressures.EffectiveWindow(config.thermalPressureWarningWindowC)), config.tickIntervalMs,
         config.publishHealth, config.stdoutDebug, Registry(config),
         if config.redis.enabled then Some(Redis(RP.SetupOf(RP.AgentOptions(config), show), script)) else None, world)
  }

  /**
   For every configuration, every behaviour of sensors and clocks, and every sequence of server
   answers: whenever the agent sends a TS.MADD, the connection has passed its handshake, the keys
   created so far are exactly the keys of the metrics the configuration enables, the command writes
   exactly those keys, and it fits the reserved buffers.
   */
  lemma {:induction false} AgentPublishesWhatItCreated(
    config: AgentConfig, exp: real -> real, show: real -> string, script: RS.Script, world: World, n: nat)
    requires config.redis.enabled
    ensures var p := PlanOf(config, exp, show, script, world);
            var log, setup := RunFor(p, Built(p), n).session.log, RP.SetupOf(RP.AgentOptions(config), show);
            forall i :: 0 <= i < |log| && log[i].Madd? ==>
              PublishesWhatItCreated(setup, RS.SeenIn(log[..i]), log[i].args)
  {
    hide RunFor, SinkOperations, RS.Run, RS.SeenIn, RS.Open, RP.AgentOptions, RP.SetupOf, Registry,
      PublishesWhatItCreated;
    var p, setup := PlanOf(config, exp, show, script, world), RP.SetupOf(RP.AgentOptions(config), show);
    var log := RunFor(p, Built(p), n).session.log;
    AgentRunsSession(p, n);
    RS.EveryRunIsSafe(setup, script, SinkOperations(p, n));
    forall i | 0 <= i < |log| && log[i].Madd?
      ensures PublishesWhatItCreated(setup, RS.SeenIn(log[..i]), log[i].args)
    {
      assert RS.Permitted(setup, RS.SeenIn(log[..i]), log[i]);
      PermittedPublication(config, show, RS.SeenIn(log[..i]), log[i]);
    }
  }

  /** An open connection, the created keys exactly the written ones, and a command of the right size. */
  ghost predicate PublishesWhatItCreated(setup: RP.Setup, seen: RS.Seen, args: seq<string>) {
    && RS.Open(setup, seen) && seen.created == RP.WrittenKeys(setup)
    && RS.IsPayload(setup, args) && |args| == 1 + 3 * |setup.enabled| <= RP.MAX_COMMAND_ARGS
  }

  lemma PermittedPublication(config: AgentConfig, show: real -> string, seen: RS.Seen, e: RS.Event)
    requires e.Madd? && RS.Permitted(RP.SetupOf(RP.AgentOptions(config), show), seen, e)
    ensures PublishesWhatItCreated(RP.SetupOf(RP.AgentOptions(config), show), seen, e.args)
  {
    hide RS.Open, RP.WrittenKeys, RP.CreatedKeys, RP.Payload, RP.AgentOptions, RP.SetupOf;
    var setup := RP.SetupOf(RP.AgentOptions(config), show);
    var timestampMs: nat, f: Frame :| e.args == RP.Payload(setup, timestampMs, f);
    RP.AgentSchemaMatchesPayload(config, show, timestampMs, f);
    RP.PayloadFits(setup, timestampMs, f);
  }
}
