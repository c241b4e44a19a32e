/**
 What the agent reports about itself: the sensors that failed in a tick, the publishes that did, and how its
 cycles kept time.
 */
module TickAccounts {
  import opened Wrappers
  import opened Numeric
  import opened SignalFrame
  import opened Sensors
  import opened TickLoop
  import P = Pipeline
  import RS = RedisSession
  import RR = RedisRetry
  import RP = RedisPayload

  // -------------------------------------------------------------------- failing sensors

  /** The raw signals when the loop over the registry reaches entry i. */
  function RawBefore(p: Plan, a: AgentState, i: nat): RawSignals
    requires i <= |p.registry|
  {
    SampleUpTo(p, BeginCollect(p, a), i).machine.frame.raw
  }

  predicate Asked(p: Plan, a: AgentState, i: nat)
    requires i < |p.registry|
  {
    p.registry[i].enabled && a.tick % p.registry[i].sensor.Period() == 0
  }

  function Answered(p: Plan, a: AgentState, i: nat): Sensed
    requires i < |p.registry|
  {
    p.world.sense(a.step, p.registry[i].sensor, RawBefore(p, a, i))
  }

  /** The entries among the first k whose sensor is asked in this tick and reports failure. */
  function Failing(p: Plan, a: AgentState, k: nat): set<nat>
    requires k <= |p.registry|
  {
    set i: nat | i < k && Asked(p, a, i) && !Answered(p, a, i).ok
  }

  /** Each sensor that is asked leaves what it leaves, failed or not, to the next one. */
  lemma {:induction false} SensorsWriteInTurn(p: Plan, a: AgentState, i: nat)
    requires i < |p.registry|
    ensures RawBefore(p, a, 0) == a.machine.frame.raw
    ensures RawBefore(p, a, i + 1) == if Asked(p, a, i) then Answered(p, a, i).raw else RawBefore(p, a, i)
    ensures Collect(p, a).machine.frame.raw == RawBefore(p, a, |p.registry|)
  {
    SamplingKeeps(p, BeginCollect(p, a), i);
  }

  function FailuresBefore(p: Plan, a: AgentState, k: nat): U32
    requires k <= |p.registry|
  {
    SampleUpTo(p, BeginCollect(p, a), k).machine.frame.agent.sensorFailures
  }

  lemma CountStep(p: Plan, a: AgentState, i: nat)
    requires i < |p.registry|
    ensures FailuresBefore(p, a, i + 1)
         == if Asked(p, a, i) && !Answered(p, a, i).ok then Increment32(FailuresBefore(p, a, i))
            else FailuresBefore(p, a, i)
  {
    hide Increment32;
    SamplingKeeps(p, BeginCollect(p, a), i);
  }

  lemma FailingStep(p: Plan, a: AgentState, i: nat)
    requires i < |p.registry|
    ensures |Failing(p, a, i + 1)| == |Failing(p, a, i)| + if Asked(p, a, i) && !Answered(p, a, i).ok then 1 else 0
  {
    hide Asked, Answered;
    var last := if Asked(p, a, i) && !Answered(p, a, i).ok then {i} else {};
    assert Failing(p, a, i + 1) == Failing(p, a, i) + last;
  }

  lemma {:induction false} CountedUpTo(p: Plan, a: AgentState, k: nat)
    requires k <= |p.registry| <= 12
    ensures FailuresBefore(p, a, k) == |Failing(p, a, k)| <= k
  {
    hide Answered, Asked, FailuresBefore, Failing;
    if k > 0 {
      CountedUpTo(p, a, k - 1);
      CountStep(p, a, k - 1);
      FailingStep(p, a, k - 1);
    } else {
      NothingCounted(p, a);
    }
  }

  lemma NothingCounted(p: Plan, a: AgentState)
    ensures FailuresBefore(p, a, 0) == 0 && Failing(p, a, 0) == {}
  {
  }

  /** The failures a tick reports are exactly the sensors that were asked and failed. */
  lemma {:induction false} FailuresExact(p: Plan, a: AgentState)
    requires |p.registry| == 12
    ensures Collect(p, a).machine.frame.agent.sensorFailures == |Failing(p, a, 12)|
  {
    hide SampleUpTo, Failing;
    CountedUpTo(p, a, 12);
  }

  // ---------------------------------------------------------------------- what one cycle does

  lemma PhasesKeepHealth(p: Plan, a: AgentState)
    requires p.Valid()
    ensures var health, f := a.machine.frame.agent, FramePublished(p, a);
            f.agent == health.(sensorFailures := Collect(p, a).machine.frame.agent.sensorFailures, redisErrors := 0)
  {
    hide SampleUpTo, P.ComputeDerived, P.ComputeRisk;
    SamplingKeepsHealth(p, BeginCollect(p, a), |p.registry|);
    ComputingKeepsHealth(p.tuning, Collect(p, a).machine);
  }

  lemma {:induction false} SamplingKeepsHealth(p: Plan, a: AgentState, k: nat)
    requires k <= |p.registry|
    ensures var health, after := a.machine.frame.agent, SampleUpTo(p, a, k).machine.frame.agent;
            after == health.(sensorFailures := after.sensorFailures)
  {
    hide IsDue;
    if k > 0 {
      SamplingKeepsHealth(p, a, k - 1);
    }
  }

  lemma ComputingKeepsHealth(t: P.Tuning, m: P.Machine)
    requires t.warningWindow > 0.0
    ensures P.ComputeRisk(P.ComputeDerived(t, m)).frame.agent == m.frame.agent
  {
  }

  /** What the sink makes of the frame of one cycle, if there is a sink. */
  function Delivery(p: Plan, a: AgentState): RS.Publication
    requires p.Valid() && p.redis.Some?
  {
    RS.Publish(p.redis.value.setup, p.redis.value.script, a.session, FramePublished(p, a))
  }

  /** The health record between the publish and the end of the cycle. */
  function Reported(p: Plan, a: AgentState): AgentHealth
    requires p.Valid()
  {
    var health := FramePublished(p, a).agent;
    if p.redis.None? then health else
    var d := Delivery(p, a);
    d.frame.agent.(redisErrors := if d.ok then 0 else 1)
  }

  lemma PublishKeepsCount(setup: RP.Setup, script: RS.Script, s: RS.Session, f: Frame)
    ensures var g := RS.Publish(setup, script, s, f).frame;
            g.agent == f.agent.(redisLatencyMs := g.agent.redisLatencyMs)
  {
    hide RS.EnsureConnected, RS.Reconnect, RP.Payload;
  }

  lemma CycleReports(p: Plan, a: AgentState)
    requires p.Valid()
    ensures Worked(p, a).machine.frame.agent == Reported(p, a)
    ensures Worked(p, a).redisWasOk == if p.redis.None? then a.redisWasOk else Delivery(p, a).ok
    ensures Worked(p, a).step == a.step && Worked(p, a).previousStartNs == a.previousStartNs
    ensures p.redis.Some? ==> Cycle(p, a).session == Delivery(p, a).session
  {
    hide SampleUpTo, P.ComputeDerived, P.ComputeRisk, RS.Publish;
    SamplingKeeps(p, BeginCollect(p, a), |p.registry|);
    if p.redis.Some? {
      PublishKeepsCount(p.redis.value.setup, p.redis.value.script, a.session, FramePublished(p, a));
    }
  }

  lemma ErrorsSurvive(p: Plan, a: AgentState, actualPeriodMs: real, computeMs: real)
    ensures var b, health := UpdateHealth(p, a, actualPeriodMs, computeMs), a.machine.frame.agent;
            && b.machine.frame.agent.redisErrors == health.redisErrors && b.redisWasOk == a.redisWasOk
            && b.machine.frame.agent.sensorFailures == health.sensorFailures
  {
  }

  lemma CycleNotes(p: Plan, a: AgentState)
    requires p.Valid() && p.redis.Some?
    ensures Cycle(p, a).session == Delivery(p, a).session
    ensures Cycle(p, a).redisWasOk == Delivery(p, a).ok
    ensures Cycle(p, a).machine.frame.agent.redisErrors == if Delivery(p, a).ok then 0 else 1
    ensures Cycle(p, a).machine.frame.agent.sensorFailures == Collect(p, a).machine.frame.agent.sensorFailures
  {
    hide Worked, Delivery, UpdateHealth, Milliseconds, ActualPeriodMs, Collect;
    var worked := Worked(p, a);
    CycleReports(p, a);
    PhasesKeepHealth(p, a);
    DeliveryKeeps(p, a);
    ErrorsSurvive(p, worked, ActualPeriodMs(p, a),
                  Milliseconds(p.world.cycleEndNs(a.step) - p.world.cycleStartNs(a.step)));
  }

  lemma DeliveryKeeps(p: Plan, a: AgentState)
    requires p.Valid() && p.redis.Some?
    ensures Delivery(p, a).frame.agent.sensorFailures == FramePublished(p, a).agent.sensorFailures
  {
    hide RS.Publish, FramePublished;
    PublishKeepsCount(p.redis.value.setup, p.redis.value.script, a.session, FramePublished(p, a));
  }

  // ------------------------------------------------------------------ publishes over runs

  /** In cycle n the server accepted a TS.MADD, and that was the last thing sent. */
  ghost predicate Delivered(p: Plan, n: nat)
    requires p.Valid()
  {
    var before, after := RunFor(p, Built(p), n).session, RunFor(p, Built(p), n + 1).session;
    RS.Madds(after.log) > RS.Madds(before.log) && RS.EndsAccepted(after.log)
  }

  /** The errors reported are those of the last cycle alone: one when its frame did not get through, else none. */
  lemma {:induction false} ErrorsAreThisTicks(p: Plan, n: nat)
    requires p.Valid() && p.redis.Some?
    ensures var a := RunFor(p, Built(p), n + 1);
            && a.redisWasOk == Delivered(p, n)
            && a.machine.frame.agent.redisErrors == if Delivered(p, n) then 0 else 1
  {
    hide Cycle, RS.Publish, RS.Madds, RS.EndsAccepted;
    var a := RunFor(p, Built(p), n);
    CycleNotes(p, a);
    RS.PublishCounts(p.redis.value.setup, p.redis.value.script, a.session, FramePublished(p, a));
  }

  /** With a server that only stumbles no tick is ever lost. */
  lemma {:induction false} NoTickIsLost(p: Plan, n: nat)
    requires p.Valid() && p.redis.Some? && RR.Stumbles(p.redis.value.setup, p.redis.value.script)
    ensures Delivered(p, n) && RunFor(p, Built(p), n + 1).machine.frame.agent.redisErrors == 0
  {
    hide Cycle, RS.Publish, RS.Run, RR.Stumbles, Delivered;
    var a := RunFor(p, Built(p), n);
    AgentRunsSession(p, n);
    CheckComesFirst(p, n);
    RR.StumblesLoseNothing(p.redis.value.setup, p.redis.value.script, SinkOperations(p, n)[1..]);
    CycleNotes(p, a);
    ErrorsAreThisTicks(p, n);
  }

  lemma {:induction false} CheckComesFirst(p: Plan, n: nat)
    requires p.Valid()
    ensures SinkOperations(p, n) != [] && SinkOperations(p, n) == [RS.CheckConnectivity] + SinkOperations(p, n)[1..]
  {
    hide FramePublished, RunFor;
    if n > 0 {
      CheckComesFirst(p, n - 1);
    }
  }

  // ------------------------------------------------------------------------- keeping time

  function ComputeNs(p: Plan, k: nat): int {
    p.world.cycleEndNs(k) - p.world.cycleStartNs(k)
  }

  /** A cycle that took longer than the interval. */
  predicate Overruns(p: Plan, k: nat) {
    ComputeNs(p, k) > IntervalNs(p)
  }

  lemma NanosecondsAreExact(ns: int)
    ensures Milliseconds(ns) * 1000000.0 == ns as real
  {
  }

  lemma OverrunInMilliseconds(p: Plan, k: nat)
    ensures Milliseconds(ComputeNs(p, k)) > p.tickIntervalMs as real <==> Overruns(p, k)
  {
    NanosecondsAreExact(ComputeNs(p, k));
  }

  lemma HealthUpdated(p: Plan, a: AgentState, actualPeriodMs: real, computeMs: real)
    requires p.publishHealth
    ensures var after := UpdateHealth(p, a, actualPeriodMs, computeMs).machine.frame.agent;
            var before := a.machine.frame.agent;
            && after.computeTimeMs == computeMs && after.heartbeatMs == p.world.heartbeatMs(a.step)
            && after.loopJitterMs == Distance(actualPeriodMs, p.tickIntervalMs as real)
            && after.missedCycles == (if computeMs > p.tickIntervalMs as real then Increment32(before.missedCycles)
                                      else before.missedCycles)
  {
  }

  lemma ReportKeepsMissed(p: Plan, a: AgentState)
    requires p.Valid()
    ensures Worked(p, a).machine.frame.agent.missedCycles == a.machine.frame.agent.missedCycles
    ensures Worked(p, a).step == a.step
    ensures ActualPeriodMs(p, Worked(p, a)) == ActualPeriodMs(p, a)
  {
    hide Worked, FramePublished, RS.Publish, Milliseconds;
    CycleReports(p, a);
    PhasesKeepHealth(p, a);
    if p.redis.Some? {
      PublishKeepsCount(p.redis.value.setup, p.redis.value.script, a.session, FramePublished(p, a));
    }
  }

  lemma CycleKeepsTime(p: Plan, a: AgentState)
    requires p.Valid() && p.publishHealth
    ensures var after, before := Cycle(p, a).machine.frame.agent, a.machine.frame.agent;
            && after.computeTimeMs == Milliseconds(ComputeNs(p, a.step))
            && after.heartbeatMs == p.world.heartbeatMs(a.step)
            && after.loopJitterMs == Distance(ActualPeriodMs(p, a), p.tickIntervalMs as real)
            && after.missedCycles == (if Overruns(p, a.step) then Increment32(before.missedCycles)
                                      else before.missedCycles)
  {
    hide Worked, UpdateHealth, Milliseconds, ActualPeriodMs, Distance, Increment32;
    ReportKeepsMissed(p, a);
    OverrunInMilliseconds(p, a.step);
    HealthUpdated(p, Worked(p, a), ActualPeriodMs(p, a), Milliseconds(ComputeNs(p, a.step)));
  }

  /** The cycles among the first n that overran. */
  function Missed(p: Plan, n: nat): set<nat> {
    set k: nat | k < n && Overruns(p, k)
  }

  lemma MissedStep(p: Plan, n: nat)
    ensures |Missed(p, n + 1)| == |Missed(p, n)| + if Overruns(p, n) then 1 else 0
  {
    hide Overruns;
    assert Missed(p, n + 1) == Missed(p, n) + if Overruns(p, n) then {n} else {};
  }

  /** Over a run the 32-bit counter of missed cycles counts the cycles that took longer than the interval. */
  lemma {:induction false} MissedCyclesCounted(p: Plan, n: nat)
    requires p.Valid() && p.publishHealth
    ensures RunFor(p, Built(p), n).machine.frame.agent.missedCycles == |Missed(p, n)| % 0x1_0000_0000
    ensures |Missed(p, n)| <= n
  {
    hide Cycle, Missed, Overruns;
    if n > 0 {
      MissedCyclesCounted(p, n - 1);
      RunBookkeeping(p, Built(p), n - 1);
      CycleKeepsTime(p, RunFor(p, Built(p), n - 1));
      MissedStep(p, n - 1);
      IncrementIsModular(|Missed(p, n - 1)|);
    } else {
      NothingMissed(p);
    }
  }

  lemma NothingMissed(p: Plan)
    requires p.Valid()
    ensures RunFor(p, Built(p), 0).machine.frame.agent.missedCycles == 0 && Missed(p, 0) == {}
  {
    hide RS.Perform;
  }

  lemma {:induction false} PreviousStart(p: Plan, n: nat)
    requires p.Valid()
    ensures RunFor(p, Built(p), n).previousStartNs == if n == 0 then None else Some(p.world.cycleStartNs(n - 1))
  {
    hide Cycle, RS.Perform;
    if n > 0 {
      RunBookkeeping(p, Built(p), n - 1);
      CycleBookkeeping(p, RunFor(p, Built(p), n - 1));
    }
  }

  /**
   The times of the last cycle, to the nanosecond: how long it computed, and how far the distance of the last two
   starts is from the interval. The first cycle has no distance yet and reports the whole interval.
   */
  lemma {:induction false} TimesAreExact(p: Plan, n: nat)
    requires p.Valid() && p.publishHealth
    ensures var health := RunFor(p, Built(p), n + 1).machine.frame.agent;
            && health.computeTimeMs * 1000000.0 == ComputeNs(p, n) as real
            && health.heartbeatMs == p.world.heartbeatMs(n)
            && health.loopJitterMs * 1000000.0
               == Distance(if n == 0 then 0.0 else (p.world.cycleStartNs(n) - p.world.cycleStartNs(n - 1)) as real,
                           IntervalNs(p) as real)
  {
    hide Cycle, Milliseconds, Distance, IntervalNs;
    var a := RunFor(p, Built(p), n);
    RunBookkeeping(p, Built(p), n);
    PreviousStart(p, n);
    CycleKeepsTime(p, a);
    NanosecondsAreExact(ComputeNs(p, n));
    var period := if n == 0 then 0 else p.world.cycleStartNs(n) - p.world.cycleStartNs(n - 1);
    NanosecondsAreExact(period);
    DistanceScales(ActualPeriodMs(p, a), p.tickIntervalMs as real, period as real, IntervalNs(p) as real) by {
      IntervalInNs(p);
    }
  }

  lemma IntervalInNs(p: Plan)
    ensures p.tickIntervalMs as real * 1000000.0 == IntervalNs(p) as real
  {
  }

  lemma DistanceScales(x: real, y: real, x': real, y': real)
    requires x * 1000000.0 == x' && y * 1000000.0 == y'
    ensures Distance(x, y) * 1000000.0 == Distance(x', y')
  {
  }

  /** With health off nothing of it is ever written but the failures and the latency. */
  lemma {:induction false} SilentHealth(p: Plan, n: nat)
    requires p.Valid() && !p.publishHealth
    ensures var health := RunFor(p, Built(p), n).machine.frame.agent;
            health.heartbeatMs == 0 && health.loopJitterMs == 0.0 && health.computeTimeMs == 0.0
            && health.missedCycles == 0
  {
    hide Cycle, RS.Perform;
    if n > 0 {
      SilentHealth(p, n - 1);
      SilentCycle(p, RunFor(p, Built(p), n - 1));
    }
  }

  lemma SilentCycle(p: Plan, a: AgentState)
    requires p.Valid() && !p.publishHealth
    ensures var after, before := Cycle(p, a).machine.frame.agent, a.machine.frame.agent;
            && after.heartbeatMs == before.heartbeatMs && after.loopJitterMs == before.loopJitterMs
            && after.computeTimeMs == before.computeTimeMs && after.missedCycles == before.missedCycles
  {
    hide Worked, FramePublished, RS.Publish, Milliseconds, ActualPeriodMs;
    CycleReports(p, a);
    PhasesKeepHealth(p, a);
    if p.redis.Some? {
      PublishKeepsCount(p.redis.value.setup, p.redis.value.script, a.session, FramePublished(p, a));
    }
  }

  /** What is published about the agent itself is one cycle old, except for the failures of this tick's sensors. */
  lemma {:induction false} HealthIsLastCycles(p: Plan, n: nat)
    requires p.Valid()
    ensures var a := RunFor(p, Built(p), n);
            FramePublished(p, a).agent
            == a.machine.frame.agent.(sensorFailures := Collect(p, a).machine.frame.agent.sensorFailures,
                                      redisErrors := 0)
  {
    hide RunFor, Collect;
    PhasesKeepHealth(p, RunFor(p, Built(p), n));
  }
}
