/**
 What each raw signal contributes to the scores: its weight times how far it has gone from rest to its limit.
 Nothing here clamps; a signal is described by where it stands in its own range, in its own unit.
 */
module ScoreShares {
  import opened Numeric
  import opened SignalFrame
  import opened EmaFilter
  import opened Pressures
  import opened LatencyJitter
  import opened Pipeline
  import opened PipelineOrder
  import opened PipelineDeadlines
  import opened ExactDeadlines

  /** The fraction of the way from `rest` to `limit` that a value has gone; beyond either end it stays there. */
  predicate IsFraction(q: real, value: real, rest: real, limit: real)
    requires rest < limit
  {
    && (value <= rest ==> q == 0.0)
    && (value >= limit ==> q == 1.0)
    && (rest <= value <= limit ==> q * (limit - rest) == value - rest)
  }

  /** One fraction for each signal that any score reads. */
  datatype Fractions = Fractions(
    cpu: real, psi: real, irq: real, softirqs: real, dirty: real, psiMemory: real, disk: real, network: real,
    psiIo: real, heat: real, throttle: real)

  /** The ranges: percent, stalls, interrupts against their baseline, and headroom that shrinks from the window. */
  predicate Describes(x: Fractions, exp: real -> real, window: real, baseline: real, raw: RawSignals)
    requires window > 0.0 && baseline >= 1.0
  {
    && IsFraction(x.cpu, raw.cpu, 0.0, 100.0) && IsFraction(x.psi, raw.psi, 0.0, 10.0)
    && IsFraction(x.irq, raw.irq, baseline + 0.5, 4.0 * baseline + 2.0)
    && IsFraction(x.softirqs, raw.softirqs, 0.0, 1.0)
    && IsFraction(x.dirty, 1.0 - exp(-raw.memory / 262144.0), 0.0, 1.0)
    && IsFraction(x.psiMemory, raw.psiMemory, 0.0, 20.0)
    && IsFraction(x.disk, 1.0 - exp(-raw.disk / 50.0), 0.0, 1.0) && IsFraction(x.network, raw.network, 0.0, 1.0)
    && IsFraction(x.psiIo, raw.psiIo, 0.0, 20.0) && IsFraction(x.heat, window - raw.thermal, 0.0, window)
    && IsFraction(x.throttle, raw.cpuThrottleRatio, 0.0, 1.0)
  }

  lemma ClampOfRatio(q: real, value: real, scale: real)
    requires scale > 0.0 && IsFraction(q, value, 0.0, scale)
    ensures Clamp01(value / scale) == q && 0.0 <= q <= 1.0
  {
    RatioThreshold(value, scale, 0.0);
    RatioThreshold(value, scale, 1.0);
    if 0.0 <= value <= scale {
      RatioThreshold(value, scale, q);
    }
  }

  lemma IrqFraction(q: real, baseline: real, irq: real)
    requires baseline >= 1.0 && IsFraction(q, irq, baseline + 0.5, 4.0 * baseline + 2.0)
    ensures IrqNorm(baseline, irq) == q && 0.0 <= q <= 1.0
  {
    var d := 2.0 * baseline + 1.0;
    RatioThreshold(irq, d, 0.5);
    RatioThreshold(irq, d, 2.0);
    if 0.5 * d <= irq <= 2.0 * d {
      assert q * (1.5 * d) == irq - 0.5 * d;
      assert (0.5 + 1.5 * q) * d == 0.5 * d + q * (1.5 * d);
      RatioThreshold(irq, d, 0.5 + 1.5 * q);
    }
  }

  /** Every signal's share of every score: its weight times its fraction, whatever the others do. */
  lemma {:induction false} ScoresAreShares(
    x: Fractions, exp: real -> real, window: real, baseline: real, raw: RawSignals, thermalPressure: real)
    requires window > 0.0 && baseline >= 1.0 && Describes(x, exp, window, baseline, raw)
    requires 0.0 <= thermalPressure <= 1.0
    ensures SchedulerScore(raw, baseline) == 0.40 * x.cpu + 0.35 * x.psi + 0.15 * x.irq + 0.10 * x.softirqs
    ensures MemoryScore(exp, raw) == 0.70 * x.dirty + 0.30 * x.psiMemory
    ensures IoScore(exp, raw) == 0.70 * x.disk + 0.20 * x.network + 0.10 * x.psiIo
    ensures ThermalScore(window, raw) == 0.70 * x.heat + 0.20 * x.throttle + 0.10 * x.cpu
    ensures PowerScore(raw, thermalPressure) == 0.75 * x.throttle + 0.15 * x.cpu + 0.10 * thermalPressure
  {
    hide IrqNorm, Clamp01, IsFraction;
    ClampOfRatio(x.cpu, raw.cpu, 100.0);
    ClampOfRatio(x.psi, raw.psi, 10.0);
    IrqFraction(x.irq, baseline, raw.irq);
    ClampOfUnit(x.softirqs, raw.softirqs);
    ClampOfUnit(x.dirty, 1.0 - exp(-raw.memory / 262144.0));
    ClampOfRatio(x.psiMemory, raw.psiMemory, 20.0);
    ClampOfUnit(x.disk, 1.0 - exp(-raw.disk / 50.0));
    ClampOfUnit(x.network, raw.network);
    ClampOfRatio(x.psiIo, raw.psiIo, 20.0);
    ClampOfRatio(x.heat, window - raw.thermal, window);
    ClampOfUnit(x.throttle, raw.cpuThrottleRatio);
    ClampOfUnit(thermalPressure, thermalPressure) by {
      UnitIsItsFraction(thermalPressure);
    }
  }

  lemma ClampOfUnit(q: real, value: real)
    requires IsFraction(q, value, 0.0, 1.0)
    ensures Clamp01(value) == q && 0.0 <= q <= 1.0
  {
  }

  lemma UnitIsItsFraction(q: real)
    requires 0.0 <= q <= 1.0
    ensures IsFraction(q, q, 0.0, 1.0)
  {
  }

  function Fraction(value: real, rest: real, limit: real): (q: real)
    requires rest < limit
    ensures IsFraction(q, value, rest, limit)
  {
    if value <= rest then 0.0 else if value >= limit then 1.0 else (value - rest) / (limit - rest)
  }

  /** Every reading has such fractions. */
  lemma FractionsExist(exp: real -> real, window: real, baseline: real, raw: RawSignals)
    requires window > 0.0 && baseline >= 1.0
    ensures exists x :: Describes(x, exp, window, baseline, raw)
  {
    hide Fraction, IsFraction;
    var x := Fractions(
      Fraction(raw.cpu, 0.0, 100.0), Fraction(raw.psi, 0.0, 10.0),
      Fraction(raw.irq, baseline + 0.5, 4.0 * baseline + 2.0), Fraction(raw.softirqs, 0.0, 1.0),
      Fraction(1.0 - exp(-raw.memory / 262144.0), 0.0, 1.0), Fraction(raw.psiMemory, 0.0, 20.0),
      Fraction(1.0 - exp(-raw.disk / 50.0), 0.0, 1.0), Fraction(raw.network, 0.0, 1.0),
      Fraction(raw.psiIo, 0.0, 20.0), Fraction(window - raw.thermal, 0.0, window),
      Fraction(raw.cpuThrottleRatio, 0.0, 1.0));
    assert Describes(x, exp, window, baseline, raw);
  }

  // --------------------------------------------------------------------- in runs

  /** What the signals of the last tick of a run score, in shares. */
  lemma {:induction false} TicksScoreShares(t: Tuning, rs: seq<Reading>, x: Fractions)
    requires t.warningWindow > 0.0 && rs != []
    requires Describes(x, t.exp, t.warningWindow, BaselineAfter(Rates(rs)).value, rs[|rs| - 1].raw)
    ensures ScoresAt(t, rs)
         == Scores(0.40 * x.cpu + 0.35 * x.psi + 0.15 * x.irq + 0.10 * x.softirqs,
                   0.70 * x.dirty + 0.30 * x.psiMemory, 0.70 * x.disk + 0.20 * x.network + 0.10 * x.psiIo,
                   0.70 * x.heat + 0.20 * x.throttle + 0.10 * x.cpu, 0.75 * x.throttle + 0.15 * x.cpu,
                   TemporalNorm(Track(Stamps(rs)).window))
  {
    hide Describes, SchedulerScore, MemoryScore, IoScore, ThermalScore, PowerScore, TemporalNorm, Track, BaselineAfter;
    var raw := rs[|rs| - 1].raw;
    ScoresAreShares(x, t.exp, t.warningWindow, BaselineAfter(Rates(rs)).value, raw, 0.0);
  }

  /** The first published pressures of an agent that starts up, in shares; interrupts never count in them. */
  lemma {:induction false} FirstFrameIsShares(t: Tuning, r: Reading, x: Fractions)
    requires t.warningWindow > 0.0
    requires Describes(x, t.exp, t.warningWindow, BaselineAfter(Rates([r])).value, r.raw)
    ensures var f := Pipeline.Run(t, POWER_ON, [r]).frame;
            && f.schedulerPressure == 0.40 * x.cpu + 0.35 * x.psi + 0.10 * x.softirqs
            && f.memoryPressure == 0.70 * x.dirty + 0.30 * x.psiMemory
            && f.ioPressure == 0.70 * x.disk + 0.20 * x.network + 0.10 * x.psiIo
            && f.thermalPressure == 0.70 * x.heat + 0.20 * x.throttle + 0.10 * x.cpu
            && f.powerPressure == 0.75 * x.throttle + 0.15 * x.cpu + 0.10 * f.thermalPressure
            && f.latencyJitter == 0.25 * f.schedulerPressure + 0.15 * f.ioPressure
  {
    hide Describes, Pipeline.Run, ScoresAt, TemporalNorm, Track, BaselineAfter;
    TicksScoreShares(t, [r], x);
    FirstBurstIsNone(t, r, x);
    RunMoves(t, [r]);
    NoIntervals(r);
    LastFrame(t, [r]);
  }

  lemma FirstBurstIsNone(t: Tuning, r: Reading, x: Fractions)
    requires t.warningWindow > 0.0
    requires Describes(x, t.exp, t.warningWindow, BaselineAfter(Rates([r])).value, r.raw)
    ensures x.irq == 0.0
  {
    assert Rates([r]) == [r.raw.irq];
    assert [r.raw.irq][..0] == [];
  }
}
