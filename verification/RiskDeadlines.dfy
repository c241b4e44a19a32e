/**
 How long the risk stages take to raise and to clear an alarm, for every strength of the loads: exact
 conditions on the number of steps, over every reachable state of the two filters and the level machine.
 `PipelineDeadlines` carries this over to runs of the whole pipeline.
 */
module RiskDeadlines {
  import opened Numeric
  import opened SignalFrame
  import opened EmaFilter
  import opened Risk
  import opened SystemState

  /** The six published pressures the risk stages read. */
  datatype Loads = Loads(scheduler: real, memory: real, io: real, thermal: real, power: real, latency: real) {
    /** All four inputs of the realtime risk are at least `theta`. */
    predicate RealtimeAtLeast(theta: real) {
      latency >= theta && scheduler >= theta && thermal >= theta && io >= theta
    }

    predicate AtMost(theta: real) {
      && scheduler <= theta && memory <= theta && io <= theta
      && thermal <= theta && power <= theta && latency <= theta
    }
  }

  datatype RiskState = RiskState(realtime: Ema, saturation: Ema, level: Level)

  const AT_START := RiskState(FRESH, FRESH, STABLE)

  /** `Agent::compute_risk`. */
  function RiskStep(r: RiskState, x: Loads): RiskState {
    var realtime := Step(0.35, r.realtime, RealtimeScore(x.latency, x.scheduler, x.thermal, x.io));
    var saturation := Step(0.18, r.saturation, SaturationScore(x.scheduler, x.memory, x.io, x.power, x.thermal));
    RiskState(realtime, saturation, LevelStep(r.level, MaxRisk(Clamp01(realtime.value), Clamp01(saturation.value))))
  }

  function RiskRun(r: RiskState, xs: seq<Loads>): RiskState {
    if xs == [] then r else RiskStep(RiskRun(r, xs[..|xs| - 1]), xs[|xs| - 1])
  }

  ghost predicate Reachable(r: RiskState) {
    exists xs :: r == RiskRun(AT_START, xs)
  }

  predicate Bounded(r: RiskState) {
    r.realtime.InUnit() && r.saturation.InUnit()
  }

  lemma {:induction false} RunStaysBounded(xs: seq<Loads>)
    ensures Bounded(RiskRun(AT_START, xs))
  {
    hide RiskStep;
    if xs != [] {
      var n := |xs| - 1;
      RunStaysBounded(xs[..n]);
      StepLevel(RiskRun(AT_START, xs[..n]), xs[n]);
    }
  }

  lemma StepLevel(r: RiskState, x: Loads)
    requires Bounded(r)
    ensures Bounded(RiskStep(r, x))
    ensures RiskStep(r, x).level
         == LevelStep(r.level, MaxRisk(RiskStep(r, x).realtime.value, RiskStep(r, x).saturation.value))
  {
    hide RealtimeScore, SaturationScore, Step, LevelStep, MaxRisk;
    StepInUnit(0.35, r.realtime, RealtimeScore(x.latency, x.scheduler, x.thermal, x.io));
    StepInUnit(0.18, r.saturation, SaturationScore(x.scheduler, x.memory, x.io, x.power, x.thermal));
  }

  lemma RunSnoc(r: RiskState, xs: seq<Loads>, x: Loads)
    ensures RiskRun(r, xs + [x]) == RiskStep(RiskRun(r, xs), x)
  {
    assert (xs + [x])[..|xs|] == xs;
  }

  lemma NextReachable(r: RiskState, x: Loads)
    requires Reachable(r)
    ensures Reachable(RiskStep(r, x))
  {
    var xs :| r == RiskRun(AT_START, xs);
    RunSnoc(AT_START, xs, x);
  }

  lemma ReachableIsBounded(r: RiskState)
    requires Reachable(r)
    ensures Bounded(r)
  {
    var xs :| r == RiskRun(AT_START, xs);
    RunStaysBounded(xs);
  }

  /** Six equal loads; both scores are then that load. */
  function Even(theta: real): Loads {
    Loads(theta, theta, theta, theta, theta, theta)
  }

  lemma EvenStep(r: RiskState, theta: real)
    requires 0.0 <= theta <= 1.0
    ensures RiskStep(r, Even(theta)).realtime
         == Ema(if r.realtime.primed then 0.65 * r.realtime.value + 0.35 * theta else theta, true)
    ensures RiskStep(r, Even(theta)).saturation
         == Ema(if r.saturation.primed then 0.82 * r.saturation.value + 0.18 * theta else theta, true)
  {
    hide LevelStep, MaxRisk;
  }

  function Repeat(x: Loads, n: nat): seq<Loads> {
    seq(n, i => x)
  }

  lemma RepeatUnfolds(r: RiskState, x: Loads, n: nat)
    ensures RiskRun(r, Repeat(x, 0)) == r
    ensures RiskRun(r, Repeat(x, n + 1)) == RiskStep(RiskRun(r, Repeat(x, n)), x)
  {
    assert Repeat(x, n + 1)[..n] == Repeat(x, n);
  }

  const RESTED := RiskState(Ema(0.0, true), Ema(0.0, true), STABLE)
  const ALARMED := RiskState(Ema(1.0, true), Ema(1.0, true), CRITICAL)

  lemma StartIsReachable()
    ensures Reachable(AT_START)
  {
    assert RiskRun(AT_START, []) == AT_START;
  }

  lemma RestedIsReachable()
    ensures Reachable(RESTED)
  {
    hide RiskStep, Reachable;
    StartIsReachable();
    NextReachable(AT_START, Even(0.0));
    EvenStep(AT_START, 0.0);
    StepLevel(AT_START, Even(0.0));
  }

  lemma AlarmedIsReachable()
    ensures Reachable(ALARMED)
  {
    hide RiskStep, Reachable;
    StartIsReachable();
    FullLoad(AT_START);
    FullLoad(RiskState(Ema(1.0, true), Ema(1.0, true), DEGRADED));
    FullLoad(RiskState(Ema(1.0, true), Ema(1.0, true), UNSTABLE));
  }

  /** Full load sets a fresh filter to one, keeps it there, and raises the level by one. */
  lemma FullLoad(r: RiskState)
    requires Reachable(r) && r.level != CRITICAL
    requires r == AT_START || r.realtime == r.saturation == Ema(1.0, true)
    ensures var next := if r.level.STABLE? then DEGRADED else if r.level.DEGRADED? then UNSTABLE else CRITICAL;
            Reachable(RiskState(Ema(1.0, true), Ema(1.0, true), next))
  {
    hide RiskStep, Reachable;
    NextReachable(r, Even(1.0));
    EvenStep(r, 1.0);
    StepLevel(r, Even(1.0));
  }

  // --------------------------------------------------------------- escalation

  /** Where the realtime filter stands, at least, after n steps with inputs of at least theta. */
  function Climb(theta: real, n: nat): real {
    if n == 0 then 0.0 else 0.65 * Climb(theta, n - 1) + 0.35 * theta
  }

  lemma ClimbUnfolds(theta: real, n: nat)
    ensures Climb(theta, 0) == 0.0 && Pow(0.65, 0) == 1.0
    ensures Climb(theta, n + 1) == 0.65 * Climb(theta, n) + 0.35 * theta && Pow(0.65, n + 1) == 0.65 * Pow(0.65, n)
  {
  }

  lemma ClimbStep(theta: real, p: real, p': real, c: real, c': real)
    requires c == theta * (1.0 - p) && p' == 0.65 * p && c' == 0.65 * c + 0.35 * theta
    ensures c' == theta * (1.0 - p')
  {
    assert theta * (1.0 - p) == theta - theta * p;
    assert theta * (1.0 - p') == theta - theta * p' && theta * p' == 0.65 * (theta * p);
  }

  lemma {:induction false} ClimbIsPower(theta: real, n: nat)
    ensures Climb(theta, n) == theta * (1.0 - Pow(0.65, n))
  {
    hide Climb, Pow;
    if n == 0 {
      ClimbUnfolds(theta, 0);
    } else {
      ClimbIsPower(theta, n - 1);
      ClimbUnfolds(theta, n - 1);
      ClimbStep(theta, Pow(0.65, n - 1), Pow(0.65, n), Climb(theta, n - 1), Climb(theta, n));
    }
  }

  lemma {:induction false} ClimbGrows(theta: real, n: nat)
    requires theta >= 0.0
    ensures 0.0 <= Climb(theta, n) <= theta && Climb(theta, n) <= Climb(theta, n + 1)
  {
    if n > 0 {
      ClimbGrows(theta, n - 1);
    }
  }

  /** A risk that has climbed this far has raised the level this far. */
  predicate RaisedBy(risk: real, level: Level) {
    && (risk >= 0.45 ==> level.Rank() >= 1)
    && (risk >= 0.70 ==> level.Rank() >= 2)
    && (risk >= 0.88 ==> level.Rank() >= 3)
  }

  lemma LoadedStep(r: RiskState, x: Loads, theta: real)
    requires 0.0 <= theta <= 1.0 && x.RealtimeAtLeast(theta)
    ensures RiskStep(r, x).realtime.value >= if r.realtime.primed then 0.65 * r.realtime.value + 0.35 * theta else theta
  {
    hide SaturationScore, LevelStep, MaxRisk;
  }

  lemma {:induction false} ClimbsAtLeast(r: RiskState, xs: seq<Loads>, theta: real)
    requires Bounded(r) && 0.0 <= theta <= 1.0
    requires forall i :: 0 <= i < |xs| ==> xs[i].RealtimeAtLeast(theta)
    ensures Bounded(RiskRun(r, xs)) && RiskRun(r, xs).realtime.value >= Climb(theta, |xs|)
    ensures RaisedBy(Climb(theta, |xs|), RiskRun(r, xs).level)
  {
    hide RiskStep;
    if xs != [] {
      var n := |xs| - 1;
      var before := RiskRun(r, xs[..n]);
      ClimbsAtLeast(r, xs[..n], theta);
      ClimbGrows(theta, n);
      LoadedStep(before, xs[n], theta);
      StepLevel(before, xs[n]);
    }
  }

  ghost predicate EscalatesIn(theta: real, n: nat) {
    forall r: RiskState, xs: seq<Loads> ::
      Reachable(r) && |xs| == n && (forall i :: 0 <= i < n ==> xs[i].RealtimeAtLeast(theta)) ==>
        RiskRun(r, xs).level == CRITICAL
  }

  /** Even loads from rest climb no faster than that, so the level lags behind. */
  lemma {:induction false} ClimbFromRest(theta: real, n: nat)
    requires 0.0 <= theta <= 1.0
    ensures RiskRun(RESTED, Repeat(Even(theta), n)).realtime == Ema(Climb(theta, n), true)
    ensures RiskRun(RESTED, Repeat(Even(theta), n)).saturation.primed
    ensures 0.0 <= RiskRun(RESTED, Repeat(Even(theta), n)).saturation.value <= Climb(theta, n)
    ensures Climb(theta, n) < 0.88 ==> RiskRun(RESTED, Repeat(Even(theta), n)).level != CRITICAL
  {
    hide RiskRun, RiskStep, Repeat, Even;
    RepeatUnfolds(RESTED, Even(theta), 0);
    if n > 0 {
      var r := RiskRun(RESTED, Repeat(Even(theta), n - 1));
      ClimbFromRest(theta, n - 1);
      ClimbGrows(theta, n - 1);
      RepeatUnfolds(RESTED, Even(theta), n - 1);
      EvenStep(r, theta);
      StepLevel(r, Even(theta));
    }
  }

  /**
   The escalation deadline, exactly: n steps with the four realtime inputs at or above theta end in
   CRITICAL from every reachable state if and only if theta (1 - 0.65^n) has passed 0.88.
   */
  lemma {:induction false} EscalatesExactlyWhen(theta: real, n: nat)
    requires 0.0 <= theta <= 1.0
    ensures EscalatesIn(theta, n) <==> theta * (1.0 - Pow(0.65, n)) >= 0.88
  {
    hide RiskRun, Repeat, Reachable, Pow, Even;
    ClimbIsPower(theta, n);
    if Climb(theta, n) >= 0.88 {
      forall r: RiskState, xs: seq<Loads>
        | Reachable(r) && |xs| == n && (forall i :: 0 <= i < n ==> xs[i].RealtimeAtLeast(theta))
        ensures RiskRun(r, xs).level == CRITICAL
      {
        ReachableIsBounded(r);
        ClimbsAtLeast(r, xs, theta);
      }
    } else {
      RestedIsReachable();
      ClimbFromRest(theta, n);
      EvenLoads(theta, n);
      assert RiskRun(RESTED, Repeat(Even(theta), n)).level != CRITICAL;
    }
  }

  lemma EvenLoads(theta: real, n: nat)
    ensures |Repeat(Even(theta), n)| == n
    ensures forall i :: 0 <= i < n ==>
              Repeat(Even(theta), n)[i].RealtimeAtLeast(theta) && Repeat(Even(theta), n)[i].AtMost(theta)
  {
  }

  // ----------------------------------------------------------------- recovery

  /** Where both filters stand, at most, after n steps with inputs of at most theta. */
  function Descent(theta: real, n: nat): real {
    if n == 0 then 1.0 else 0.82 * Descent(theta, n - 1) + 0.18 * theta
  }

  lemma DescentUnfolds(theta: real, n: nat)
    ensures Descent(theta, 0) == 1.0 && Pow(0.82, 0) == 1.0
    ensures Descent(theta, n + 1) == 0.82 * Descent(theta, n) + 0.18 * theta && Pow(0.82, n + 1) == 0.82 * Pow(0.82, n)
  {
  }

  lemma DescentStep(theta: real, p: real, p': real, d: real, d': real)
    requires d == theta + (1.0 - theta) * p && p' == 0.82 * p && d' == 0.82 * d + 0.18 * theta
    ensures d' == theta + (1.0 - theta) * p'
  {
    assert (1.0 - theta) * p' == 0.82 * ((1.0 - theta) * p);
  }

  lemma {:induction false} DescentIsPower(theta: real, n: nat)
    ensures Descent(theta, n) == theta + (1.0 - theta) * Pow(0.82, n)
  {
    hide Descent, Pow;
    if n == 0 {
      DescentUnfolds(theta, 0);
    } else {
      DescentIsPower(theta, n - 1);
      DescentUnfolds(theta, n - 1);
      DescentStep(theta, Pow(0.82, n - 1), Pow(0.82, n), Descent(theta, n - 1), Descent(theta, n));
    }
  }

  lemma {:induction false} DescentFalls(theta: real, n: nat)
    requires 0.0 <= theta <= 1.0
    ensures theta <= Descent(theta, n + 1) <= Descent(theta, n) <= 1.0
  {
    if n > 0 {
      DescentFalls(theta, n - 1);
    }
  }

  /** A risk that has fallen this far has lowered the level this far. */
  predicate LoweredBy(risk: real, level: Level) {
    && (risk <= 0.78 ==> level.Rank() <= 2)
    && (risk <= 0.55 ==> level.Rank() <= 1)
    && (risk <= 0.30 ==> level.Rank() <= 0)
  }

  lemma ClampAtMost(v: real, theta: real)
    requires v <= theta && 0.0 <= theta <= 1.0
    ensures 0.0 <= Clamp01(v) <= theta
  {
  }

  lemma RealtimeAtMost(latency: real, scheduler: real, thermal: real, io: real, theta: real)
    requires 0.0 <= theta <= 1.0
    requires latency <= theta && scheduler <= theta && thermal <= theta && io <= theta
    ensures RealtimeScore(latency, scheduler, thermal, io) <= theta
  {
    hide Clamp01;
    ClampAtMost(latency, theta);
    ClampAtMost(scheduler, theta);
    ClampAtMost(thermal, theta);
    ClampAtMost(io, theta);
  }

  lemma SaturationAtMost(scheduler: real, memory: real, io: real, power: real, thermal: real, theta: real)
    requires 0.0 <= theta <= 1.0
    requires scheduler <= theta && memory <= theta && io <= theta && power <= theta && thermal <= theta
    ensures SaturationScore(scheduler, memory, io, power, thermal) <= theta
  {
    hide Clamp01;
    ClampAtMost(scheduler, theta);
    ClampAtMost(memory, theta);
    ClampAtMost(io, theta);
    ClampAtMost(power, theta);
    ClampAtMost(thermal, theta);
  }

  lemma RelievedStep(r: RiskState, x: Loads, theta: real)
    requires 0.0 <= theta <= 1.0 && x.AtMost(theta)
    ensures RiskStep(r, x).realtime.value <= if r.realtime.primed then 0.65 * r.realtime.value + 0.35 * theta else theta
    ensures RiskStep(r, x).saturation.value
         <= if r.saturation.primed then 0.82 * r.saturation.value + 0.18 * theta else theta
  {
    hide LevelStep, MaxRisk, RealtimeScore, SaturationScore, Clamp01;
    RealtimeAtMost(x.latency, x.scheduler, x.thermal, x.io, theta);
    SaturationAtMost(x.scheduler, x.memory, x.io, x.power, x.thermal, theta);
  }

  lemma {:induction false} DescendsAtLeast(r: RiskState, xs: seq<Loads>, theta: real)
    requires Bounded(r) && 0.0 <= theta <= 1.0
    requires forall i :: 0 <= i < |xs| ==> xs[i].AtMost(theta)
    ensures Bounded(RiskRun(r, xs))
    ensures RiskRun(r, xs).realtime.value <= Descent(theta, |xs|)
    ensures RiskRun(r, xs).saturation.value <= Descent(theta, |xs|)
    ensures LoweredBy(Descent(theta, |xs|), RiskRun(r, xs).level)
  {
    hide RiskStep;
    if xs != [] {
      var n := |xs| - 1;
      var before := RiskRun(r, xs[..n]);
      DescendsAtLeast(r, xs[..n], theta);
      DescentFalls(theta, n);
      RelievedStep(before, xs[n], theta);
      StepLevel(before, xs[n]);
    }
  }

  ghost predicate RecoversIn(theta: real, n: nat) {
    forall r: RiskState, xs: seq<Loads> ::
      Reachable(r) && |xs| == n && (forall i :: 0 <= i < n ==> xs[i].AtMost(theta)) ==> RiskRun(r, xs).level == STABLE
  }

  /** Even loads after a full alarm sink no faster than that, so the level lags behind. */
  lemma {:induction false} DescentFromAlarm(theta: real, n: nat)
    requires 0.0 <= theta <= 1.0
    ensures RiskRun(ALARMED, Repeat(Even(theta), n)).saturation == Ema(Descent(theta, n), true)
    ensures RiskRun(ALARMED, Repeat(Even(theta), n)).realtime.InUnit()
    ensures Descent(theta, n) > 0.30 ==> RiskRun(ALARMED, Repeat(Even(theta), n)).level != STABLE
  {
    hide RiskRun, RiskStep, Repeat, Even;
    RepeatUnfolds(ALARMED, Even(theta), 0);
    if n > 0 {
      var r := RiskRun(ALARMED, Repeat(Even(theta), n - 1));
      DescentFromAlarm(theta, n - 1);
      DescentFalls(theta, n - 1);
      RepeatUnfolds(ALARMED, Even(theta), n - 1);
      EvenStep(r, theta);
      StepLevel(r, Even(theta));
    }
  }

  /**
   The recovery deadline, exactly: n steps with all six loads at or below theta end in STABLE from
   every reachable state if and only if theta + (1 - theta) 0.82^n has fallen to 0.30.
   */
  lemma {:induction false} RecoversExactlyWhen(theta: real, n: nat)
    requires 0.0 <= theta <= 1.0
    ensures RecoversIn(theta, n) <==> theta + (1.0 - theta) * Pow(0.82, n) <= 0.30
  {
    hide RiskRun, Repeat, Reachable, Pow, Even;
    DescentIsPower(theta, n);
    if Descent(theta, n) <= 0.30 {
      forall r: RiskState, xs: seq<Loads>
        | Reachable(r) && |xs| == n && (forall i :: 0 <= i < n ==> xs[i].AtMost(theta))
        ensures RiskRun(r, xs).level == STABLE
      {
        ReachableIsBounded(r);
        DescendsAtLeast(r, xs, theta);
      }
    } else {
      AlarmedIsReachable();
      DescentFromAlarm(theta, n);
      EvenLoads(theta, n);
      assert RiskRun(ALARMED, Repeat(Even(theta), n)).level != STABLE;
    }
  }

  // ------------------------------------------------------------- the two extremes

  lemma {:induction false} LongerPowerSmaller(base: real, m: nat, n: nat)
    requires 0.0 <= base <= 1.0 && m <= n
    ensures 0.0 <= Pow(base, n) <= Pow(base, m)
  {
    PowInUnit(base, m);
    if m < n {
      LongerPowerSmaller(base, m, n - 1);
      var p := Pow(base, n - 1);
      TimesNonNegative(1.0 - base, p);
      TimesNonNegative(base, p);
      assert Pow(base, n) == base * p == p - (1.0 - base) * p;
    }
  }

  /** Saturated inputs, the fastest there are, need five steps and no fewer. */
  lemma {:induction false} EscalationTakesExactlyFive(n: nat)
    ensures EscalatesIn(1.0, n) <==> n >= 5
  {
    hide EscalatesIn;
    EscalatesExactlyWhen(1.0, n);
    PowersOf65();
    if n >= 5 {
      LongerPowerSmaller(0.65, 5, n);
    } else {
      LongerPowerSmaller(0.65, n, 4);
    }
  }

  lemma PowersOf65()
    ensures Pow(0.65, 4) == 0.17850625 && Pow(0.65, 5) == 0.1160290625
  {
    assert Pow(0.65, 2) == 0.4225;
  }

  /** Idle inputs, the fastest to clear an alarm, need seven steps and no fewer. */
  lemma {:induction false} RecoveryTakesExactlySeven(n: nat)
    ensures RecoversIn(0.0, n) <==> n >= 7
  {
    hide RecoversIn;
    RecoversExactlyWhen(0.0, n);
    PowersOf82();
    if n >= 7 {
      LongerPowerSmaller(0.82, 7, n);
    } else {
      LongerPowerSmaller(0.82, n, 6);
    }
  }

  lemma PowersOf82()
    ensures Pow(0.82, 6) == 0.304006671424 && Pow(0.82, 7) <= 0.25
  {
    assert Pow(0.82, 2) == 0.6724;
    assert Pow(0.82, 4) == 0.45212176;
  }
}
