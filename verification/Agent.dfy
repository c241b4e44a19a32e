/**
 The agent object (`src/core/agent.cpp`) with the stages and the sink it owns. Its methods are proved
 to take the steps of `TickLoop`, so every result about runs there is a result about this object.
 */
module Agent {
  import opened Wrappers
  import opened Numeric
  import opened SignalFrame
  import opened EmaFilter
  import opened Config
  import opened Sensors
  import opened TickLoop
  import Pressures
  import LatencyJitter
  import Risk
  import SystemState
  import RiskDeadlines
  import RedisSink
  import RM = RedisMetrics
  import RP = RedisPayload
  import RS = RedisSession
  import P = Pipeline

  /** `core::Sampler`: the 64-bit tick counter. */
  class Sampler {
    var tickCount: U64

    constructor ()
      ensures tickCount == 0
    {
      tickCount := 0;
    }

    method ShouldSampleEvery(everyNTicks: nat) returns (due: bool)
      ensures due == IsDue(tickCount, everyNTicks)
    {
      if everyNTicks == 0 {
        return false;
      }
      return tickCount % everyNTicks == 0;
    }

    method Advance()
      modifies this
      ensures tickCount == Add64(old(tickCount), 1)
    {
      tickCount := Add64(tickCount, 1);
    }
  }

  /** The statistics record that `run_for_ticks` hands to its phases. */
  class AgentStats {
    var ticksExecuted: nat
    var sensorCycles: nat
    var derivedCycles: nat
    var riskCycles: nat
    var sinkCycles: nat

    ghost function Value(): Stats
      reads this
    {
      Stats(ticksExecuted, sensorCycles, derivedCycles, riskCycles, sinkCycles)
    }

    constructor ()
      ensures Value() == StatsOf(0)
    {
      ticksExecuted, sensorCycles, derivedCycles, riskCycles, sinkCycles := 0, 0, 0, 0, 0;
    }
  }

  /** The four phases of a cycle, one by one; they keep the clocks. */
  lemma WorkedState(p: Plan, a: AgentState)
    requires p.Valid()
    ensures var collected := Collect(p, a);
            var derived := collected.(machine := P.ComputeDerived(p.tuning, collected.machine));
            Worked(p, a) == PublishSinks(p, derived.(machine := P.ComputeRisk(derived.machine)))
    ensures Worked(p, a).step == a.step && Worked(p, a).previousStartNs == a.previousStartNs
  {
    hide SampleUpTo, P.ComputeDerived, P.ComputeRisk, RS.Publish;
    SamplingKeeps(p, BeginCollect(p, a), |p.registry|);
  }

  lemma CloseFromWorked(p: Plan, a: AgentState)
    requires p.Valid()
    ensures Cycle(p, a)
         == FinishCycle(p, UpdateHealth(p, Worked(p, a), ActualPeriodMs(p, Worked(p, a)),
                                        Milliseconds(p.world.cycleEndNs(a.step) - p.world.cycleStartNs(a.step))))
  {
    hide Worked, UpdateHealth, FinishCycle, Milliseconds;
    WorkedState(p, a);
  }

  lemma HealthKeepsClock(p: Plan, a: AgentState, actualPeriodMs: real, computeMs: real)
    ensures UpdateHealth(p, a, actualPeriodMs, computeMs).step == a.step
  {
  }

  lemma OneMoreCycle(s: Stats)
    ensures s.Plus(StatsOf(1)) == Stats(s.ticksExecuted + 1, s.sensorCycles + 1, s.derivedCycles + 1,
                                        s.riskCycles + 1, s.sinkCycles + 1)
  {
  }

  class Agent {
    const plan: Plan
    const frame: SignalFrame
    const sampler: Sampler
    const schedulerPressure: Pressures.SchedulerPressure
    const memoryPressure: Pressures.MemoryPressure
    const ioPressure: Pressures.IoPressure
    const thermalPressure: Pressures.ThermalPressure
    const powerPressure: Pressures.PowerPressure
    const latencyJitter: LatencyJitter.LatencyJitter
    const realtimeRisk: Risk.RealtimeRisk
    const saturationRisk: Risk.SaturationRisk
    const systemState: SystemState.SystemState
    const redisSink: RedisSink.RedisTsSink?
    var firstTick: bool
    var nextWakeupNs: int
    var previousCycleStartNs: Option<int>
    var redisWasOk: bool
    /** Where the world's clocks and sensors stand: the number of cycles run so far. */
    var step: nat
    ghost var dispatched: seq<Dispatch>
    /** What the debug sink has been handed. */
    ghost var printed: seq<Frame>

    ghost predicate Valid()
      reads this, latencyJitter
    {
      && plan.Valid() && latencyJitter.Valid()
      && memoryPressure.exp == plan.tuning.exp && ioPressure.exp == plan.tuning.exp
      && thermalPressure.warningWindow == plan.tuning.warningWindow
      && (redisSink == null <==> plan.redis.None?)
      && (redisSink != null ==>
            redisSink.setup == plan.redis.value.setup && redisSink.script == plan.redis.value.script)
    }

    ghost function Derived(): P.Stages
      requires latencyJitter.Valid()
      reads schedulerPressure, memoryPressure, ioPressure, thermalPressure, powerPressure, latencyJitter,
            latencyJitter.intervals, realtimeRisk, saturationRisk, systemState
    {
      P.Stages(schedulerPressure.Irq(), schedulerPressure.Filter(), memoryPressure.Filter(), ioPressure.Filter(),
               thermalPressure.Filter(), powerPressure.Filter(), latencyJitter.Ring(), latencyJitter.Filter(),
               RiskDeadlines.RiskState(realtimeRisk.Filter(), saturationRisk.Filter(), systemState.state))
    }

    ghost function Session(): RS.Session
      reads redisSink
    {
      if redisSink == null then RS.NEW_SESSION else redisSink.State()
    }

    ghost function State(): AgentState
      requires Valid()
      reads this, frame, sampler, schedulerPressure, memoryPressure, ioPressure, thermalPressure, powerPressure,
            latencyJitter, latencyJitter.intervals, realtimeRisk, saturationRisk, systemState, redisSink
    {
      AgentState(firstTick, nextWakeupNs, previousCycleStartNs, sampler.tickCount, step,
                 P.Machine(Derived(), frame.Value()), Session(), redisWasOk, dispatched, printed)
    }

    /** The plan carries the effective warning window and the setup derived from the sink's options. */
    constructor (plan: Plan)
      requires plan.Valid()
      requires plan.redis.Some? ==>
                 plan.redis.value.setup == RP.SetupOf(plan.redis.value.setup.options, plan.redis.value.setup.show)
      ensures this.plan == plan && Valid() && fresh(frame) && fresh(latencyJitter)
      ensures State() == Built(plan)
    {
      hide Built, RP.SetupOf;
      this.plan := plan;
      var sink: RedisSink.RedisTsSink? := null;
      if plan.redis.Some? {
        var redis := plan.redis.value;
        sink := new RedisSink.RedisTsSink(redis.setup.options, redis.setup.show, redis.script);
      }
      redisSink := sink;
      frame := new SignalFrame();
      sampler := new Sampler();
      schedulerPressure := new Pressures.SchedulerPressure();
      memoryPressure := new Pressures.MemoryPressure(plan.tuning.exp);
      ioPressure := new Pressures.IoPressure(plan.tuning.exp);
      thermalPressure := new Pressures.ThermalPressure(plan.tuning.warningWindow);
      powerPressure := new Pressures.PowerPressure();
      realtimeRisk := new Risk.RealtimeRisk();
      saturationRisk := new Risk.SaturationRisk();
      systemState := new SystemState.SystemState();
      latencyJitter := new LatencyJitter.LatencyJitter();
      firstTick, nextWakeupNs, previousCycleStartNs, redisWasOk, step := true, 0, None, true, 0;
      dispatched, printed := [], [];
      new;
      assert Session() == RS.NEW_SESSION;
      assert Derived() == P.UNSTARTED;
      BuiltFromParts(plan);
      CheckSink();
    }

    static lemma BuiltFromParts(plan: Plan)
      ensures Built(plan)
           == AgentState(true, 0, None, 0, 0, P.POWER_ON, Built(plan).session, true, [], [])
      ensures P.POWER_ON == P.Machine(P.UNSTARTED, ZERO_FRAME)
    {
    }

    /** The connectivity check at the end of the construction. */
    method CheckSink()
      requires Valid() && Session() == RS.NEW_SESSION
      modifies redisSink
      ensures Valid() && State() == old(State()).(session := Built(plan).session)
    {
      hide RS.EnsureConnected, Derived, Plan.Valid;
      if redisSink != null {
        var connected := redisSink.CheckConnectivity();
      }
    }

    method IsDueNow(sensor: Sensor) returns (due: bool)
      requires Valid()
      ensures due == IsDue(State().tick, sensor.Period())
    {
      hide IsDue, Derived, Session, Plan.Valid;
      due := sampler.ShouldSampleEvery(sensor.Period());
    }

    method StoreSample(sensor: Sensor) returns (ok: bool)
      requires Valid()
      modifies frame`raw, this`dispatched
      ensures Valid()
      ensures var a := old(State());
              var sensed := plan.world.sense(a.step, sensor, a.machine.frame.raw);
              && ok == sensed.ok
              && State() == WithRaw(a, sensed.raw).(dispatched := a.dispatched + [Dispatch(a.step, sensor)])
    {
      hide Derived, Session, Plan.Valid;
      var sensed := plan.world.sense(step, sensor, frame.raw);
      frame.raw := sensed.raw;
      dispatched := dispatched + [Dispatch(step, sensor)];
      ok := sensed.ok;
    }

    method CountFailure()
      requires Valid()
      modifies frame`agent
      ensures Valid()
      ensures var health := old(State()).machine.frame.agent;
              State() == WithHealth(old(State()), health.(sensorFailures := Increment32(health.sensorFailures)))
    {
      hide Derived, Session, Increment32, Plan.Valid;
      frame.agent := frame.agent.(sensorFailures := Increment32(frame.agent.sensorFailures));
    }

    /** The loop body of `collect_sensors`. */
    method SampleSensor(registration: Registration)
      requires Valid()
      modifies frame, this`dispatched
      ensures Valid() && State() == SampleOne(plan, old(State()), registration)
    {
      hide IsDue, State, Valid, Increment32;
      if !registration.enabled {
        return;
      }
      var due := IsDueNow(registration.sensor);
      if due {
        var ok := StoreSample(registration.sensor);
        if !ok {
          CountFailure();
        }
      }
    }

    method ClearFrame()
      requires Valid()
      modifies frame
      ensures Valid() && State() == BeginCollect(plan, old(State()))
    {
      hide Derived, Session;
      frame.monotonicNs := plan.world.monotonicNs(step);
      frame.agent := frame.agent.(sensorFailures := 0);
    }

    method CollectSensors(stats: AgentStats)
      requires Valid()
      modifies frame, this`dispatched, stats
      ensures Valid() && State() == Collect(plan, old(State()))
      ensures stats.Value() == old(stats.Value()).(sensorCycles := old(stats.Value()).sensorCycles + 1)
    {
      hide State, BeginCollect, SampleOne, Valid;
      ghost var start := BeginCollect(plan, State());
      stats.sensorCycles := stats.sensorCycles + 1;
      ClearFrame();
      var i := 0;
      while i < |plan.registry|
        invariant i <= |plan.registry|
        invariant Valid() && State() == SampleUpTo(plan, start, i)
        invariant stats.Value() == old(stats.Value()).(sensorCycles := old(stats.Value()).sensorCycles + 1)
      {
        SampleSensor(plan.registry[i]);
        i := i + 1;
      }
    }

    method SampleScheduler()
      requires Valid()
      modifies frame, schedulerPressure
      ensures Valid() && State() == old(State()).(machine := P.SampleScheduler(old(State().machine)))
    {
      hide EmaFilter.Step, Clamp01, Pressures.SchedulerScore, Pressures.TrackBaseline;
      schedulerPressure.Sample(frame);
    }

    method SampleMemory()
      requires Valid()
      modifies frame, memoryPressure
      ensures Valid() && State() == old(State()).(machine := P.SampleMemory(plan.tuning, old(State().machine)))
    {
      hide EmaFilter.Step, Clamp01, Pressures.MemoryScore;
      memoryPressure.Sample(frame);
    }

    method SampleIo()
      requires Valid()
      modifies frame, ioPressure
      ensures Valid() && State() == old(State()).(machine := P.SampleIo(plan.tuning, old(State().machine)))
    {
      hide EmaFilter.Step, Clamp01, Pressures.IoScore;
      ioPressure.Sample(frame);
    }

    method SampleThermal()
      requires Valid()
      modifies frame, thermalPressure
      ensures Valid() && State() == old(State()).(machine := P.SampleThermal(plan.tuning, old(State().machine)))
    {
      hide EmaFilter.Step, Clamp01, Pressures.ThermalScore;
      thermalPressure.Sample(frame);
    }

    method SamplePower()
      requires Valid()
      modifies frame, powerPressure
      ensures Valid() && State() == old(State()).(machine := P.SamplePower(old(State().machine)))
    {
      hide EmaFilter.Step, Clamp01, Pressures.PowerScore;
      powerPressure.Sample(frame);
    }

    method SampleLatency()
      requires Valid()
      modifies frame, latencyJitter, latencyJitter.intervals
      ensures Valid() && State() == old(State()).(machine := P.SampleLatency(old(State().machine)))
    {
      hide EmaFilter.Step, Clamp01, LatencyJitter.JitterScore, LatencyJitter.TemporalNorm, LatencyJitter.Advance;
      latencyJitter.Sample(frame);
    }

    method ComputeDerived(stats: AgentStats)
      requires Valid()
      modifies frame, schedulerPressure, memoryPressure, ioPressure, thermalPressure, powerPressure, latencyJitter,
               latencyJitter.intervals, stats
      ensures Valid()
      ensures State() == old(State()).(machine := P.ComputeDerived(plan.tuning, old(State().machine)))
      ensures stats.Value() == old(stats.Value()).(derivedCycles := old(stats.Value()).derivedCycles + 1)
    {
      hide State, Valid, P.SampleScheduler, P.SampleMemory, P.SampleIo, P.SampleThermal, P.SamplePower, P.SampleLatency;
      stats.derivedCycles := stats.derivedCycles + 1;
      SampleScheduler();
      SampleMemory();
      SampleIo();
      SampleThermal();
      SamplePower();
      SampleLatency();
    }

    method SampleRealtime()
      requires Valid()
      modifies frame, realtimeRisk
      ensures Valid() && State() == old(State()).(machine := P.SampleRealtime(old(State().machine)))
    {
      hide EmaFilter.Step, Clamp01, Risk.RealtimeScore, Plan.Valid;
      realtimeRisk.Sample(frame);
    }

    method SampleSaturation()
      requires Valid()
      modifies frame, saturationRisk
      ensures Valid() && State() == old(State()).(machine := P.SampleSaturation(old(State().machine)))
    {
      hide EmaFilter.Step, Clamp01, Risk.SaturationScore, Plan.Valid;
      saturationRisk.Sample(frame);
    }

    method SampleLevel()
      requires Valid()
      modifies frame, systemState
      ensures Valid() && State() == old(State()).(machine := P.SampleLevel(old(State().machine)))
    {
      hide SystemState.LevelStep, SystemState.MaxRisk, Plan.Valid;
      systemState.Sample(frame);
    }

    method ComputeRisk(stats: AgentStats)
      requires Valid()
      modifies frame, realtimeRisk, saturationRisk, systemState, stats
      ensures Valid()
      ensures State() == old(State()).(machine := P.ComputeRisk(old(State().machine)))
      ensures stats.Value() == old(stats.Value()).(riskCycles := old(stats.Value()).riskCycles + 1)
    {
      hide State, Valid, P.SampleRealtime, P.SampleSaturation, P.SampleLevel, P.ComputeRisk;
      P.RiskInSteps(State().machine);
      stats.riskCycles := stats.riskCycles + 1;
      SampleRealtime();
      SampleSaturation();
      SampleLevel();
    }

    method SendFrame() returns (ok: bool)
      requires Valid() && redisSink != null
      modifies frame, redisSink
      ensures Valid() && plan.redis.Some?
      ensures State() == AfterSending(old(State()), Sent(plan, old(State()))) && ok == Sent(plan, old(State())).ok
    {
      hide RS.Publish, Derived, Plan.Valid;
      ok := redisSink.Publish(frame);
    }

    /** Counts a failed publish, and remembers how this one went. */
    method NoteOutcome(ok: bool)
      requires Valid()
      modifies frame`agent, this`redisWasOk
      ensures Valid()
      ensures State() == Noted(old(State()), ok)
    {
      hide Derived, Session, Increment32, Plan.Valid;
      if !ok {
        frame.agent := frame.agent.(redisErrors := Increment32(frame.agent.redisErrors));
        if redisWasOk {
          redisWasOk := false;
        }
      } else if !redisWasOk {
        redisWasOk := true;
      }
    }

    method ClearErrors()
      requires Valid()
      modifies frame`agent
      ensures Valid() && State() == ErrorsCleared(old(State()))
    {
      hide Derived, Session, Plan.Valid;
      frame.agent := frame.agent.(redisErrors := 0);
    }

    method PrintFrame()
      requires Valid()
      modifies this`printed
      ensures Valid() && State() == old(State()).(printed := old(State()).printed + [old(State()).machine.frame])
    {
      hide Derived, Session, Plan.Valid;
      printed := printed + [frame.Value()];
    }

    method PublishToSinks(stats: AgentStats)
      requires Valid()
      modifies frame, this`redisWasOk, this`printed, stats, redisSink
      ensures Valid() && State() == PublishSinks(plan, old(State()))
      ensures stats.Value() == old(stats.Value()).(sinkCycles := old(stats.Value()).sinkCycles + 1)
    {
      hide State, Valid, ErrorsCleared, Sent, AfterSending, Noted;
      stats.sinkCycles := stats.sinkCycles + 1;
      SinkIsPlanned();
      ClearErrors();
      if plan.publishStdout {
        PrintFrame();
      }
      if redisSink != null {
        var ok := SendFrame();
        NoteOutcome(ok);
      }
    }

    lemma SinkIsPlanned()
      requires Valid()
      ensures redisSink == null <==> plan.redis.None?
    {
    }

    method UpdateAgentHealth(actualPeriodMs: real, computeTimeMs: real)
      requires Valid()
      modifies frame`agent
      ensures Valid() && State() == UpdateHealth(plan, old(State()), actualPeriodMs, computeTimeMs)
    {
      hide Derived, Session;
      if !plan.publishHealth {
        return;
      }
      var tickMs := plan.tickIntervalMs as real;
      frame.agent := frame.agent.(loopJitterMs := Distance(actualPeriodMs, tickMs), computeTimeMs := computeTimeMs,
                                  heartbeatMs := plan.world.heartbeatMs(step));
      if computeTimeMs > tickMs {
        frame.agent := frame.agent.(missedCycles := Increment32(frame.agent.missedCycles));
      }
    }

    method AdvanceWakeup()
      requires Valid()
      modifies this`nextWakeupNs
      ensures Valid() && State() == old(State()).(nextWakeupNs := old(State()).nextWakeupNs + IntervalNs(plan))
    {
      hide Derived, Session, Plan.Valid;
      nextWakeupNs := nextWakeupNs + 1000000 * plan.tickIntervalMs;
    }

    method AdvanceTick(cycleStart: int)
      requires Valid()
      modifies this`previousCycleStartNs, this`step, sampler
      ensures Valid() && State() == old(State()).(previousStartNs := Some(cycleStart),
                                                  tick := Add64(old(State()).tick, 1), step := old(State()).step + 1)
    {
      hide Derived, Session, Plan.Valid, Add64;
      previousCycleStartNs := Some(cycleStart);
      sampler.Advance();
      step := step + 1;
    }

    /** Health, bookkeeping and the next wake-up. */
    method CloseCycle(cycleStart: int, cycleEnd: int, stats: AgentStats)
      requires Valid() && cycleStart == plan.world.cycleStartNs(step)
      modifies frame`agent, this`previousCycleStartNs, this`nextWakeupNs, this`step, sampler, stats
      ensures Valid()
      ensures var a := old(State());
              State() == FinishCycle(plan, UpdateHealth(plan, a, ActualPeriodMs(plan, a),
                                                        Milliseconds(cycleEnd - cycleStart)))
      ensures stats.Value() == old(stats.Value()).(ticksExecuted := old(stats.Value()).ticksExecuted + 1)
    {
      hide State, Valid, UpdateHealth, Milliseconds, Add64, IntervalNs;
      StateFields();
      var actualPeriodMs :=
        if previousCycleStartNs.Some? then Milliseconds(cycleStart - previousCycleStartNs.value) else 0.0;
      HealthKeepsClock(plan, State(), actualPeriodMs, Milliseconds(cycleEnd - cycleStart));
      UpdateAgentHealth(actualPeriodMs, Milliseconds(cycleEnd - cycleStart));
      AdvanceTick(cycleStart);
      stats.ticksExecuted := stats.ticksExecuted + 1;
      AdvanceWakeup();
    }

    /** Sensors, pressures, risks, sinks. */
    method RunPhases(stats: AgentStats)
      requires Valid()
      modifies this`dispatched, this`redisWasOk, this`printed, frame, schedulerPressure, memoryPressure, ioPressure,
               thermalPressure, powerPressure, latencyJitter, latencyJitter.intervals, realtimeRisk, saturationRisk,
               systemState, redisSink, stats
      ensures Valid() && plan.Valid() && State() == Worked(plan, old(State()))
      ensures var s := old(stats.Value());
              stats.Value() == Stats(s.ticksExecuted, s.sensorCycles + 1, s.derivedCycles + 1, s.riskCycles + 1,
                                     s.sinkCycles + 1)
    {
      hide *;
      StateFields();
      WorkedState(plan, State());
      CollectSensors(stats);
      ComputeDerived(stats);
      ComputeRisk(stats);
      PublishToSinks(stats);
    }

    /** One pass of the loop body of `run_for_ticks`. */
    method RunCycle(stats: AgentStats)
      requires Valid()
      modifies this, frame, sampler, schedulerPressure, memoryPressure, ioPressure, thermalPressure, powerPressure,
               latencyJitter, latencyJitter.intervals, realtimeRisk, saturationRisk, systemState, redisSink, stats
      ensures Valid() && plan.Valid() && State() == Cycle(plan, old(State()))
      ensures stats.Value() == old(stats.Value()).Plus(StatsOf(1))
    {
      hide *;
      StateFields();
      CloseFromWorked(plan, State());
      OneMoreCycle(stats.Value());
      var cycleStart := plan.world.cycleStartNs(step);
      RunPhases(stats);
      var cycleEnd := plan.world.cycleEndNs(step);
      CloseCycle(cycleStart, cycleEnd, stats);
    }

    lemma StateFields()
      requires Valid()
      ensures plan.Valid() && State().step == step && State().previousStartNs == previousCycleStartNs
    {
    }

    /**
     `run_for_ticks`. Zero ticks mean for ever, so the method describes a run up to `cutoff` passes: where
     an observer of an endless run looks, or further than a finite one goes.
     */
    method RunForTicks(totalTicks: U64, cutoff: nat) returns (stats: AgentStats)
      requires Valid()
      modifies this, frame, sampler, schedulerPressure, memoryPressure, ioPressure, thermalPressure, powerPressure,
               latencyJitter, latencyJitter.intervals, realtimeRisk, saturationRisk, systemState, redisSink
      ensures Valid() && fresh(stats)
      ensures var passes := if totalTicks == 0 || cutoff < totalTicks then cutoff else totalTicks;
              State() == RunFor(plan, old(State()), passes) && stats.Value() == StatsOf(passes)
    {
      hide Cycle, State, Valid;
      stats := new AgentStats();
      ghost var start := State();
      StateFields();
      BeginRun();
      var i: nat := 0;
      while i < cutoff && (totalTicks == 0 || i < totalTicks)
        invariant i <= cutoff && (totalTicks != 0 ==> i <= totalTicks)
        invariant Valid() && plan.Valid() && State() == RunFor(plan, start, i)
        invariant stats.Value() == StatsOf(i)
        invariant fresh(stats)
        decreases cutoff - i
      {
        RunCycle(stats);
        i := i + 1;
      }
    }

    method BeginRun()
      requires Valid()
      modifies this`nextWakeupNs, this`firstTick
      ensures Valid() && State() == Started(plan, old(State()))
    {
      hide Derived, Session, Plan.Valid;
      if firstTick {
        nextWakeupNs := plan.world.startNs;
        firstTick := false;
      }
    }
  }

  /** One `push_back` of `register_sensors`, when the sensor is the next one of the order. */
  method Register(config: AgentConfig, registry: seq<Registration>, sensor: Sensor) returns (longer: seq<Registration>)
    requires |registry| < 12 && registry == Registry(config)[..|registry|] && sensor == RegisteredSensor(|registry|)
    ensures longer == Registry(config)[..|registry| + 1]
  {
    hide IsOn, RegisteredSensor;
    longer := registry + [Registration(sensor, IsOn(config, sensor))];
  }

  method RegisterSensors(config: AgentConfig) returns (registry: seq<Registration>)
    ensures registry == Registry(config)
  {
    hide Registry;
    registry := [];
    registry := Register(config, registry, Psi);
    registry := Register(config, registry, Cpu);
    registry := Register(config, registry, Interrupts);
    registry := Register(config, registry, Softirqs);
    registry := Register(config, registry, Memory);
    registry := Register(config, registry, Disk);
    registry := Register(config, registry, Network);
    registry := Register(config, registry, Tegrastats);
    registry := Register(config, registry, Thermal);
    registry := Register(config, registry, CpuThrottle);
    registry := Register(config, registry, Cpufreq);
    registry := Register(config, registry, Gpu);
  }

  /** The constructor from a configuration: sink options with the enabled metrics, the registry, the stages. */
  method NewAgent(config: AgentConfig, exp: real -> real, show: real -> string, script: RS.Script, world: World)
    returns (a: Agent)
    ensures fresh(a) && a.Valid() && a.plan == PlanOf(config, exp, show, script, world)
    ensures a.State() == Built(PlanOf(config, exp, show, script, world))
  {
    hide Built, RM.SinkOrder, RM.Suffixes, Registry, RM.EnabledMetrics;
    var registry := RegisterSensors(config);
    var redis: Option<Redis> := None;
    if config.redis.enabled {
      var metrics := RM.EnabledRedisMetrics(config);
      var options := RP.RedisTsOptions(config.redis.host, config.redis.port, config.redis.unixSocket, "", 0,
                                       "edge:node", 1000, config.publishHealth, RM.Suffixes(metrics));
      redis := Some(Redis(RP.SetupOf(options, show), script));
    }
    var window := Pressures.EffectiveWindow(config.thermalPressureWarningWindowC);
    var plan := Plan(P.Tuning(exp, window), config.tickIntervalMs, config.publishHealth, config.stdoutDebug, registry,
                     redis, world);
    assert plan == PlanOf(config, exp, show, script, world);
    a := new Agent(plan);
  }
}
