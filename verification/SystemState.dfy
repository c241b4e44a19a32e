/** The four-level hysteresis machine (`src/risk/system_state.cpp`) and how often it can flap. */
module SystemState {
  import opened Numeric
  import opened SignalFrame

  function MaxRisk(realtime: real, saturation: real): real {
    if realtime > saturation then realtime else saturation
  }

  function LevelStep(level: Level, risk: real): (next: Level)
    ensures -1 <= next.Rank() - level.Rank() <= 1
  {
    match level
    case STABLE => if risk >= 0.45 then DEGRADED else STABLE
    case DEGRADED => if risk >= 0.70 then UNSTABLE else if risk <= 0.30 then STABLE else DEGRADED
    case UNSTABLE => if risk >= 0.88 then CRITICAL else if risk <= 0.55 then DEGRADED else UNSTABLE
    case CRITICAL => if risk <= 0.78 then UNSTABLE else CRITICAL
  }

  class SystemState {
    var state: Level

    constructor ()
      ensures state == STABLE
    {
      state := STABLE;
    }

    method Sample(frame: SignalFrame)
      modifies this, frame
      ensures state == LevelStep(old(state), MaxRisk(old(frame.realtimeRisk), old(frame.saturationRisk)))
      ensures frame.Value() == old(frame.Value()).(state := state)
    {
      var risk := MaxRisk(frame.realtimeRisk, frame.saturationRisk);
      match state {
        case STABLE =>
          if risk >= 0.45 {
            state := DEGRADED;
          }
        case DEGRADED =>
          if risk >= 0.70 {
            state := UNSTABLE;
          } else if risk <= 0.30 {
            state := STABLE;
          }
        case UNSTABLE =>
          if risk >= 0.88 {
            state := CRITICAL;
          } else if risk <= 0.55 {
            state := DEGRADED;
          }
        case CRITICAL =>
          if risk <= 0.78 {
            state := UNSTABLE;
          }
      }
      frame.state := state;
    }
  }

  /** Monotone in level and risk jointly: hysteresis never lets a worse history look better. */
  lemma LevelStepMonotone(l: Level, m: Level, r: real, s: real)
    requires l.Rank() <= m.Rank() && r <= s
    ensures LevelStep(l, r).Rank() <= LevelStep(m, s).Rank()
  {
  }

  // ----------------------------------------------------------------- flapping

  datatype Direction = Still | Up | Down

  function Move(from: Level, to: Level): Direction {
    if from.Rank() < to.Rank() then Up else if to.Rank() < from.Rank() then Down else Still
  }

  /** How often a move goes the opposite way to the move before it (`last` is the move before the trace). */
  function Reversals(level: Level, last: Direction, risks: seq<real>): nat
    decreases |risks|
  {
    if risks == [] then 0 else
    var next := LevelStep(level, risks[0]);
    var move := Move(level, next);
    (if !move.Still? && !last.Still? && move != last then 1 else 0)
    + Reversals(next, if move.Still? then last else move, risks[1..])
  }

  /** Total variation of a risk trace that continues from `previous`. */
  function Variation(previous: real, risks: seq<real>): real
    decreases |risks|
  {
    if risks == [] then 0.0 else Distance(previous, risks[0]) + Variation(risks[0], risks[1..])
  }

  /** How far the risk has already come back from the threshold that the last move crossed. */
  function Credit(level: Level, last: Direction, risk: real): (c: real)
    ensures c >= 0.0
  {
    var c := match (last, level)
      case (Up, DEGRADED) => 0.45 - risk
      case (Up, UNSTABLE) => 0.70 - risk
      case (Up, CRITICAL) => 0.88 - risk
      case (Down, STABLE) => risk - 0.30
      case (Down, DEGRADED) => risk - 0.55
      case (Down, UNSTABLE) => risk - 0.78
      case _ => 0.0;
    if c < 0.0 then 0.0 else c
  }

  lemma {:induction false} ReversalsPaidByVariation(level: Level, last: Direction, risk: real, risks: seq<real>)
    ensures 0.10 * Reversals(level, last, risks) as real <= Variation(risk, risks) + Credit(level, last, risk)
    decreases |risks|
  {
    if risks != [] {
      var next := LevelStep(level, risks[0]);
      var move := Move(level, next);
      ReversalsPaidByVariation(next, if move.Still? then last else move, risks[0], risks[1..]);
    }
  }

  /** Flapping is bounded by variation: every reversal costs the risk a swing of at least 0.10. */
  lemma {:induction false} FlappingBound(level: Level, risks: seq<real>)
    requires risks != []
    ensures 0.10 * Reversals(level, Still, risks) as real <= Variation(risks[0], risks[1..])
  {
    ReversalsPaidByVariation(level, Still, risks[0], risks);
  }

  function LevelRun(level: Level, risks: seq<real>): Level
    decreases |risks|
  {
    if risks == [] then level else LevelRun(LevelStep(level, risks[0]), risks[1..])
  }

  /** The levels a risk trace leads through. */
  function LevelTrace(level: Level, risks: seq<real>): (levels: seq<Level>)
    ensures |levels| == |risks|
    decreases |risks|
  {
    if risks == [] then [] else
    var next := LevelStep(level, risks[0]);
    [next] + LevelTrace(next, risks[1..])
  }

  lemma {:induction false} LevelSnoc(level: Level, risks: seq<real>, risk: real)
    ensures LevelRun(level, risks + [risk]) == LevelStep(LevelRun(level, risks), risk)
    ensures LevelTrace(level, risks + [risk])
         == LevelTrace(level, risks) + [LevelStep(LevelRun(level, risks), risk)]
    decreases |risks|
  {
    hide LevelStep;
    if risks == [] {
      assert [risk][1..] == [] && risks + [risk] == [risk];
    } else {
      var next := LevelStep(level, risks[0]);
      LevelSnoc(next, risks[1..], risk);
      assert (risks + [risk])[1..] == risks[1..] + [risk];
    }
  }

  /** How often a sequence of levels turns from rising to falling or back. */
  function Turns(level: Level, last: Direction, levels: seq<Level>): nat
    decreases |levels|
  {
    if levels == [] then 0 else
    var move := Move(level, levels[0]);
    (if !move.Still? && !last.Still? && move != last then 1 else 0)
    + Turns(levels[0], if move.Still? then last else move, levels[1..])
  }

  lemma {:induction false} TurnsAreReversals(level: Level, last: Direction, risks: seq<real>)
    ensures Turns(level, last, LevelTrace(level, risks)) == Reversals(level, last, risks)
    decreases |risks|
  {
    hide LevelStep, Move;
    if risks != [] {
      var next := LevelStep(level, risks[0]);
      var move := Move(level, next);
      var levels := LevelTrace(level, risks);
      assert levels[1..] == LevelTrace(next, risks[1..]);
      TurnsAreReversals(next, if move.Still? then last else move, risks[1..]);
    }
  }

  function Constant(risk: real, n: nat): seq<real> {
    seq(n, i => risk)
  }

  lemma {:induction false} ConstantVariation(risk: real, n: nat)
    ensures Variation(risk, Constant(risk, n)) == 0.0
  {
    if n > 0 {
      ConstantVariation(risk, n - 1);
      assert Constant(risk, n)[1..] == Constant(risk, n - 1);
    }
  }

  lemma {:induction false} FixedStays(level: Level, risk: real, n: nat)
    requires LevelStep(level, risk) == level
    ensures LevelRun(level, Constant(risk, n)) == level
  {
    if n > 0 {
      FixedStays(level, risk, n - 1);
      assert Constant(risk, n)[1..] == Constant(risk, n - 1);
    }
  }

  /** Under a constant risk the level is settled after three steps, for good, and never turns back. */
  lemma {:induction false} ConstantRiskSettles(level: Level, risk: real, n: nat)
    requires n >= 3
    ensures LevelRun(level, Constant(risk, n))
         == LevelStep(LevelStep(LevelStep(level, risk), risk), risk)
    ensures LevelStep(LevelRun(level, Constant(risk, n)), risk) == LevelRun(level, Constant(risk, n))
    ensures Reversals(level, Still, Constant(risk, n)) == 0
  {
    var l1 := LevelStep(level, risk);
    var l2 := LevelStep(l1, risk);
    var l3 := LevelStep(l2, risk);
    FixedStays(l3, risk, n - 3);
    assert Constant(risk, n)[1..] == Constant(risk, n - 1);
    assert Constant(risk, n - 1)[1..] == Constant(risk, n - 2);
    assert Constant(risk, n - 2)[1..] == Constant(risk, n - 3);
    assert LevelRun(l1, Constant(risk, n - 1)) == LevelRun(l2, Constant(risk, n - 2));
    FlappingBound(level, Constant(risk, n));
    ConstantVariation(risk, n - 1);
  }

  /** The lowest level a risk lets a settled machine have: one for each threshold of the way up it reaches ... */
  function Lowest(risk: real): nat {
    (if risk >= 0.45 then 1 else 0) + (if risk >= 0.70 then 1 else 0) + (if risk >= 0.88 then 1 else 0)
  }

  /** ... and the highest: one for each threshold of the way down it stays above. */
  function Highest(risk: real): nat {
    (if risk > 0.30 then 1 else 0) + (if risk > 0.55 then 1 else 0) + (if risk > 0.78 then 1 else 0)
  }

  /** A rank after n steps of one towards a range. */
  function Towards(rank: nat, lo: nat, hi: nat, n: nat): int {
    if rank < lo then if rank + n < lo then rank + n else lo
    else if rank > hi then if rank - n > hi then rank - n else hi
    else rank
  }

  lemma OneStepTowards(level: Level, risk: real)
    ensures LevelStep(level, risk).Rank() == Towards(level.Rank(), Lowest(risk), Highest(risk), 1)
    ensures Lowest(risk) <= Highest(risk)
  {
  }

  /** n steps under a constant risk, exactly: the level walks into the range of that risk and stays where it gets. */
  lemma {:induction false} ConstantRiskExactly(level: Level, risk: real, n: nat)
    ensures LevelRun(level, Constant(risk, n)).Rank() == Towards(level.Rank(), Lowest(risk), Highest(risk), n)
    decreases n
  {
    hide LevelStep, Lowest, Highest;
    if n > 0 {
      OneStepTowards(level, risk);
      ConstantRiskExactly(LevelStep(level, risk), risk, n - 1);
      assert Constant(risk, n)[1..] == Constant(risk, n - 1);
    }
  }

  /**
   Settled, the machine is three relays in a row: each is on from its upper threshold, off up to its lower one,
   and between the two keeps what it was.
   */
  lemma {:induction false} SettlesLikeThreeRelays(level: Level, risk: real, n: nat)
    requires n >= 3
    ensures var settled := LevelRun(level, Constant(risk, n));
            && (settled != STABLE <==> risk >= 0.45 || (level != STABLE && risk > 0.30))
            && (settled in {UNSTABLE, CRITICAL} <==> risk >= 0.70 || (level in {UNSTABLE, CRITICAL} && risk > 0.55))
            && (settled == CRITICAL <==> risk >= 0.88 || (level == CRITICAL && risk > 0.78))
  {
    hide LevelStep, LevelRun;
    ConstantRiskExactly(level, risk, n);
  }

  /** Which levels a constant risk never moves: exactly those in its range. */
  lemma {:induction false} StaysExactlyWhen(level: Level, risk: real)
    ensures (forall n: nat :: LevelRun(level, Constant(risk, n)) == level)
       <==> Lowest(risk) <= level.Rank() <= Highest(risk)
  {
    hide LevelStep, Lowest, Highest;
    OneStepTowards(level, risk);
    if Lowest(risk) <= level.Rank() <= Highest(risk) {
      forall n: nat
        ensures LevelRun(level, Constant(risk, n)) == level
      {
        ConstantRiskExactly(level, risk, n);
      }
    } else {
      ConstantRiskExactly(level, risk, 1);
      assert LevelRun(level, Constant(risk, 1)) != level;
    }
  }

  /** Three is exact: two steps do not carry STABLE to its resting level under full risk. */
  lemma TwoStepsDoNotSettle()
    ensures LevelStep(LevelStep(STABLE, 1.0), 1.0) != LevelStep(LevelStep(LevelStep(STABLE, 1.0), 1.0), 1.0)
  {
  }
}
