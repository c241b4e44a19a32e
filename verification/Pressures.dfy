/**
 The five instantaneous pressures (`src/derived`, without latency jitter). Each class keeps
 the filter of its own stage; the pure functions beside it say what one sample does.

 `exp` is the exponential the memory and I/O scores call; only its monotonicity is ever used.
 */
module Pressures {
  import opened Numeric
  import opened SignalFrame
  import opened EmaFilter

  ghost predicate Increasing(exp: real -> real) {
    forall x, y :: x <= y ==> exp(x) <= exp(y)
  }

  // ---------------------------------------------------------------- scheduler

  /** The slowly moving interrupt rate that this tick's rate is compared with. */
  datatype Baseline = Baseline(value: real, primed: bool)

  const NO_BASELINE := Baseline(1.0, false)

  function TrackBaseline(b: Baseline, irq: real): (b': Baseline)
    ensures b'.primed && b'.value >= 1.0
  {
    var next := if b.primed then 0.9 * b.value + 0.1 * irq else irq;
    Baseline(if next < 1.0 then 1.0 else next, true)
  }

  function IrqNorm(baseline: real, irq: real): real
    requires baseline >= 1.0
  {
    Clamp01((irq / (2.0 * baseline + 1.0) - 0.5) / 1.5)
  }

  function SchedulerScore(raw: RawSignals, baseline: real): real
    requires baseline >= 1.0
  {
    0.40 * Clamp01(raw.cpu / 100.0) + 0.35 * Clamp01(raw.psi / 10.0)
    + 0.15 * IrqNorm(baseline, raw.irq) + 0.10 * Clamp01(raw.softirqs)
  }

  class SchedulerPressure {
    var irqBaseline: real
    var hasIrqBaseline: bool
    var ema: real
    var hasEma: bool

    ghost function Irq(): Baseline
      reads this
    {
      Baseline(irqBaseline, hasIrqBaseline)
    }

    ghost function Filter(): Ema
      reads this
    {
      Ema(ema, hasEma)
    }

    constructor ()
      ensures Irq() == NO_BASELINE && Filter() == FRESH
    {
      irqBaseline, hasIrqBaseline, ema, hasEma := 1.0, false, 0.0, false;
    }

    method Sample(frame: SignalFrame)
      modifies this, frame
      ensures Irq() == TrackBaseline(old(Irq()), old(frame.raw.irq))
      ensures Filter() == Step(0.30, old(Filter()), SchedulerScore(old(frame.raw), irqBaseline))
      ensures frame.Value() == old(frame.Value()).(schedulerPressure := Clamp01(ema))
    {
      hide Clamp01;
      var cpuNorm := Clamp01(frame.raw.cpu / 100.0);
      var psiNorm := Clamp01(frame.raw.psi / 10.0);
      var softirqNorm := Clamp01(frame.raw.softirqs);

      if !hasIrqBaseline {
        irqBaseline := if frame.raw.irq > 1.0 then frame.raw.irq else 1.0;
        hasIrqBaseline := true;
      } else {
        irqBaseline := 0.9 * irqBaseline + 0.1 * frame.raw.irq;
        if irqBaseline < 1.0 {
          irqBaseline := 1.0;
        }
      }

      var irqRatio := frame.raw.irq / (2.0 * irqBaseline + 1.0);
      var irqNorm := Clamp01((irqRatio - 0.5) / 1.5);
      var rawScore := 0.40 * cpuNorm + 0.35 * psiNorm + 0.15 * irqNorm + 0.10 * softirqNorm;
      if !hasEma {
        ema := rawScore;
        hasEma := true;
      } else {
        ema := (1.0 - 0.30) * ema + 0.30 * rawScore;
      }
      frame.schedulerPressure := Clamp01(ema);
    }
  }

  // ------------------------------------------------------------------- memory

  function MemoryScore(exp: real -> real, raw: RawSignals): real {
    0.70 * Clamp01(1.0 - exp(-raw.memory / 262144.0)) + 0.30 * Clamp01(raw.psiMemory / 20.0)
  }

  class MemoryPressure {
    const exp: real -> real
    var ema: real
    var hasEma: bool

    ghost function Filter(): Ema
      reads this
    {
      Ema(ema, hasEma)
    }

    constructor (exp: real -> real)
      ensures this.exp == exp && Filter() == FRESH
    {
      this.exp := exp;
      ema, hasEma := 0.0, false;
    }

    method Sample(frame: SignalFrame)
      modifies this, frame
      ensures Filter() == Step(0.25, old(Filter()), MemoryScore(exp, old(frame.raw)))
      ensures frame.Value() == old(frame.Value()).(memoryPressure := Clamp01(ema))
    {
      var dirtyWritebackNorm := 1.0 - exp(-frame.raw.memory / 262144.0);
      var psiNorm := Clamp01(frame.raw.psiMemory / 20.0);
      var rawScore := 0.70 * Clamp01(dirtyWritebackNorm) + 0.30 * psiNorm;
      if !hasEma {
        ema := rawScore;
        hasEma := true;
      } else {
        ema := (1.0 - 0.25) * ema + 0.25 * rawScore;
      }
      frame.memoryPressure := Clamp01(ema);
    }
  }

  // ---------------------------------------------------------------------- I/O

  function IoScore(exp: real -> real, raw: RawSignals): real {
    0.70 * Clamp01(1.0 - exp(-raw.disk / 50.0)) + 0.20 * Clamp01(raw.network) + 0.10 * Clamp01(raw.psiIo / 20.0)
  }

  class IoPressure {
    const exp: real -> real
    var ema: real
    var hasEma: bool

    ghost function Filter(): Ema
      reads this
    {
      Ema(ema, hasEma)
    }

    constructor (exp: real -> real)
      ensures this.exp == exp && Filter() == FRESH
    {
      this.exp := exp;
      ema, hasEma := 0.0, false;
    }

    method Sample(frame: SignalFrame)
      modifies this, frame
      ensures Filter() == Step(0.25, old(Filter()), IoScore(exp, old(frame.raw)))
      ensures frame.Value() == old(frame.Value()).(ioPressure := Clamp01(ema))
    {
      var diskNorm := Clamp01(1.0 - exp(-frame.raw.disk / 50.0));
      var networkNorm := Clamp01(frame.raw.network);
      var psiNorm := Clamp01(frame.raw.psiIo / 20.0);
      var rawScore := 0.70 * diskNorm + 0.20 * networkNorm + 0.10 * psiNorm;
      if !hasEma {
        ema := rawScore;
        hasEma := true;
      } else {
        ema := (1.0 - 0.25) * ema + 0.25 * rawScore;
      }
      frame.ioPressure := Clamp01(ema);
    }
  }

  // ------------------------------------------------------------------ thermal

  /** The constructor falls back to 30 degrees on a window that is not positive. */
  function EffectiveWindow(warningWindow: real): (w: real)
    ensures w > 0.0
  {
    if warningWindow > 0.0 then warningWindow else 30.0
  }

  function ThermalScore(window: real, raw: RawSignals): real
    requires window > 0.0
  {
    0.70 * Clamp01((window - raw.thermal) / window) + 0.20 * Clamp01(raw.cpuThrottleRatio)
    + 0.10 * Clamp01(raw.cpu / 100.0)
  }

  class ThermalPressure {
    const warningWindow: real
    var ema: real
    var hasEma: bool

    ghost function Filter(): Ema
      reads this
    {
      Ema(ema, hasEma)
    }

    constructor (warningWindow: real)
      ensures this.warningWindow == EffectiveWindow(warningWindow) && Filter() == FRESH
    {
      this.warningWindow := if warningWindow > 0.0 then warningWindow else 30.0;
      ema, hasEma := 0.0, false;
    }

    method Sample(frame: SignalFrame)
      requires warningWindow > 0.0
      modifies this, frame
      ensures Filter() == Step(0.20, old(Filter()), ThermalScore(warningWindow, old(frame.raw)))
      ensures frame.Value() == old(frame.Value()).(thermalPressure := Clamp01(ema))
    {
      var headroomPressure := Clamp01((warningWindow - frame.raw.thermal) / warningWindow);
      var throttleNorm := Clamp01(frame.raw.cpuThrottleRatio);
      var cpuNorm := Clamp01(frame.raw.cpu / 100.0);
      var rawScore := 0.70 * headroomPressure + 0.20 * throttleNorm + 0.10 * cpuNorm;
      if !hasEma {
        ema := rawScore;
        hasEma := true;
      } else {
        ema := (1.0 - 0.20) * ema + 0.20 * rawScore;
      }
      frame.thermalPressure := Clamp01(ema);
    }
  }

  // -------------------------------------------------------------------- power

  /** Power reads the thermal pressure published earlier in the same tick. */
  function PowerScore(raw: RawSignals, thermalPressure: real): real {
    0.75 * Clamp01(raw.cpuThrottleRatio) + 0.15 * Clamp01(raw.cpu / 100.0) + 0.10 * Clamp01(thermalPressure)
  }

  class PowerPressure {
    var ema: real
    var hasEma: bool

    ghost function Filter(): Ema
      reads this
    {
      Ema(ema, hasEma)
    }

    constructor ()
      ensures Filter() == FRESH
    {
      ema, hasEma := 0.0, false;
    }

    method Sample(frame: SignalFrame)
      modifies this, frame
      ensures Filter() == Step(0.25, old(Filter()), PowerScore(old(frame.raw), old(frame.thermalPressure)))
      ensures frame.Value() == old(frame.Value()).(powerPressure := Clamp01(ema))
    {
      var rawThrottle := Clamp01(frame.raw.cpuThrottleRatio);
      var cpuNorm := Clamp01(frame.raw.cpu / 100.0);
      var thermalNorm := Clamp01(frame.thermalPressure);
      var rawScore := 0.75 * rawThrottle + 0.15 * cpuNorm + 0.10 * thermalNorm;
      if !hasEma {
        ema := rawScore;
        hasEma := true;
      } else {
        ema := (1.0 - 0.25) * ema + 0.25 * rawScore;
      }
      frame.powerPressure := Clamp01(ema);
    }
  }

  // ------------------------------------------------- the scores as functions of load

  /** `b` reports at least as much load as `a` on every signal but the interrupt rate. */
  predicate NoWorse(a: RawSignals, b: RawSignals) {
    && a.cpu <= b.cpu && a.psi <= b.psi && a.psiMemory <= b.psiMemory && a.psiIo <= b.psiIo
    && a.softirqs <= b.softirqs && a.memory <= b.memory && a.disk <= b.disk && a.network <= b.network
    && a.cpuThrottleRatio <= b.cpuThrottleRatio && a.thermal >= b.thermal
  }

  /** A higher interrupt rate scores higher within one tick, although it also lifts the baseline. */
  lemma IrqNormMonotone(b: Baseline, x: real, y: real)
    requires b.primed ==> b.value >= 1.0
    requires x <= y
    ensures IrqNorm(TrackBaseline(b, x).value, x) <= IrqNorm(TrackBaseline(b, y).value, y)
  {
    var bX, bY := TrackBaseline(b, x).value, TrackBaseline(b, y).value;
    var dX, dY := 2.0 * bX + 1.0, 2.0 * bY + 1.0;
    if x > 0.0 {
      RatioCrossing(b, x, y);
      assert x * dY == 2.0 * (x * bY) + x && y * dX == 2.0 * (y * bX) + y;
      RatioMonotone(x, dX, y, dY);
    } else {
      RatioThreshold(x, dX, 0.0);
    }
  }

  /** What the scheduler stage publishes when it has this baseline and filter before the tick. */
  function SchedulerPublished(b: Baseline, e: Ema, raw: RawSignals): real {
    Clamp01(Step(0.30, e, SchedulerScore(raw, TrackBaseline(b, raw.irq).value)).value)
  }

  /**
   Across ticks it is the other way round. Of two stages that have seen different interrupt histories
   and meet the same readings, one never publishes more exactly when its baseline is no lower.
   */
  lemma {:induction false} HigherBaselinePublishesLess(b: Baseline, c: Baseline)
    requires b.primed && b.value >= 1.0 && c.primed && c.value >= 1.0
    ensures (forall e: Ema, raw: RawSignals :: SchedulerPublished(b, e, raw) <= SchedulerPublished(c, e, raw))
       <==> c.value <= b.value
  {
    hide SchedulerPublished, SchedulerScore, TrackBaseline, IrqNorm, ZERO_RAW, FRESH;
    if c.value <= b.value {
      forall e: Ema, raw: RawSignals
        ensures SchedulerPublished(b, e, raw) <= SchedulerPublished(c, e, raw)
      {
        LowerBaselinePublishesMore(b, c, e, raw);
      }
    } else {
      BurstTellsBaselines(b, c, (18.0 * b.value + 10.0) / 3.0);
    }
  }

  lemma LowerBaselinePublishesMore(b: Baseline, c: Baseline, e: Ema, raw: RawSignals)
    requires b.primed && b.value >= 1.0 && c.primed && c.value >= 1.0 && c.value <= b.value
    ensures SchedulerPublished(b, e, raw) <= SchedulerPublished(c, e, raw)
  {
    hide IrqNorm;
    LowerBaselineScoresHigher(TrackBaseline(b, raw.irq).value, TrackBaseline(c, raw.irq).value, raw.irq);
  }

  /** A burst that just saturates the score against the lower baseline does not against the higher one. */
  lemma BurstTellsBaselines(b: Baseline, c: Baseline, irq: real)
    requires b.primed && c.primed && 1.0 <= b.value < c.value && 3.0 * irq == 18.0 * b.value + 10.0
    ensures SchedulerPublished(c, FRESH, ZERO_RAW.(irq := irq)) < SchedulerPublished(b, FRESH, ZERO_RAW.(irq := irq))
  {
    hide IrqNorm, SchedulerPublished, TrackBaseline, SchedulerScore, ZERO_RAW, FRESH;
    OnlyBurst(b, irq);
    OnlyBurst(c, irq);
    HalfwayBaseline(b, c, irq);
    SaturatingBurst(TrackBaseline(b, irq).value, TrackBaseline(c, irq).value, irq);
  }

  lemma OnlyBurst(b: Baseline, irq: real)
    ensures SchedulerPublished(b, FRESH, ZERO_RAW.(irq := irq)) == 0.15 * IrqNorm(TrackBaseline(b, irq).value, irq)
  {
    hide TrackBaseline;
    FirstScore(IrqNorm(TrackBaseline(b, irq).value, irq));
  }

  lemma FirstScore(norm: real)
    requires 0.0 <= norm <= 1.0
    ensures Clamp01(Step(0.30, FRESH, 0.15 * norm).value) == 0.15 * norm
  {
  }

  lemma HalfwayBaseline(b: Baseline, c: Baseline, irq: real)
    requires b.primed && c.primed && 1.0 <= b.value < c.value && 3.0 * irq == 18.0 * b.value + 10.0
    ensures irq == 4.0 * TrackBaseline(b, irq).value + 2.0
    ensures TrackBaseline(b, irq).value < TrackBaseline(c, irq).value
  {
  }

  lemma SaturatingBurst(b: real, c: real, irq: real)
    requires 1.0 <= b < c && irq == 4.0 * b + 2.0
    ensures IrqNorm(b, irq) == 1.0 && IrqNorm(c, irq) < 1.0
  {
    RatioThreshold(irq, 2.0 * b + 1.0, 2.0);
    RatioThreshold(irq, 2.0 * c + 1.0, 2.0);
  }

  lemma LowerBaselineScoresHigher(b: real, c: real, irq: real)
    requires 1.0 <= c <= b
    ensures IrqNorm(b, irq) <= IrqNorm(c, irq)
  {
    if irq > 0.0 {
      TimesNonNegative(irq, b - c);
      RatioMonotone(irq, 2.0 * b + 1.0, irq, 2.0 * c + 1.0);
    } else {
      RatioThreshold(irq, 2.0 * b + 1.0, 0.0);
    }
  }

  lemma RatioCrossing(b: Baseline, x: real, y: real)
    requires b.primed ==> b.value >= 1.0
    requires 0.0 < x <= y
    ensures x * TrackBaseline(b, y).value <= y * TrackBaseline(b, x).value
  {
    var bX, bY := TrackBaseline(b, x).value, TrackBaseline(b, y).value;
    TimesNonNegative(y, bX - 1.0);
    if b.primed {
      var c := 0.9 * b.value;
      TimesNonNegative(c, y - x);
      TimesNonNegative(y, bX - (c + 0.1 * x));
      assert x * (c + 0.1 * y) <= y * (c + 0.1 * x);
    } else {
      TimesNonNegative(y, bX - x);
    }
  }

  /** Each score is monotone in load. */
  lemma ScoresMonotone(exp: real -> real, window: real, b: Baseline, x: RawSignals, y: RawSignals, s: real, t: real)
    requires Increasing(exp) && window > 0.0
    requires b.primed ==> b.value >= 1.0
    requires NoWorse(x, y) && x.irq <= y.irq && s <= t
    ensures SchedulerScore(x, TrackBaseline(b, x.irq).value) <= SchedulerScore(y, TrackBaseline(b, y.irq).value)
    ensures MemoryScore(exp, x) <= MemoryScore(exp, y)
    ensures IoScore(exp, x) <= IoScore(exp, y)
    ensures ThermalScore(window, x) <= ThermalScore(window, y)
    ensures PowerScore(x, s) <= PowerScore(y, t)
  {
    IrqNormMonotone(b, x.irq, y.irq);
    DivideMonotone(window - x.thermal, window - y.thermal, window);
  }

  /**
   Every score lies in the unit interval, is zero only when all of its inputs are idle and one only
   when all of them are saturated: no single signal can mask or stand for the others.
   */
  lemma ScoresSpanUnit(exp: real -> real, window: real, baseline: real, raw: RawSignals, t: real)
    requires window > 0.0 && baseline >= 1.0
    ensures 0.0 <= SchedulerScore(raw, baseline) <= 1.0
    ensures 0.0 <= MemoryScore(exp, raw) <= 1.0 && 0.0 <= IoScore(exp, raw) <= 1.0
    ensures 0.0 <= ThermalScore(window, raw) <= 1.0 && 0.0 <= PowerScore(raw, t) <= 1.0
    ensures SchedulerScore(raw, baseline) == 0.0 <==>
            raw.cpu <= 0.0 && raw.psi <= 0.0 && raw.softirqs <= 0.0 && raw.irq <= baseline + 0.5
    ensures SchedulerScore(raw, baseline) == 1.0 <==>
            raw.cpu >= 100.0 && raw.psi >= 10.0 && raw.softirqs >= 1.0 && raw.irq >= 4.0 * baseline + 2.0
    ensures MemoryScore(exp, raw) == 0.0 <==> exp(-raw.memory / 262144.0) >= 1.0 && raw.psiMemory <= 0.0
    ensures MemoryScore(exp, raw) == 1.0 <==> exp(-raw.memory / 262144.0) <= 0.0 && raw.psiMemory >= 20.0
    ensures IoScore(exp, raw) == 0.0 <==>
            exp(-raw.disk / 50.0) >= 1.0 && raw.network <= 0.0 && raw.psiIo <= 0.0
    ensures IoScore(exp, raw) == 1.0 <==>
            exp(-raw.disk / 50.0) <= 0.0 && raw.network >= 1.0 && raw.psiIo >= 20.0
    ensures ThermalScore(window, raw) == 0.0 <==>
            raw.thermal >= window && raw.cpuThrottleRatio <= 0.0 && raw.cpu <= 0.0
    ensures ThermalScore(window, raw) == 1.0 <==>
            raw.thermal <= 0.0 && raw.cpuThrottleRatio >= 1.0 && raw.cpu >= 100.0
    ensures PowerScore(raw, t) == 1.0 <==> raw.cpuThrottleRatio >= 1.0 && raw.cpu >= 100.0 && t >= 1.0
    ensures PowerScore(raw, t) == 0.0 <==> raw.cpuThrottleRatio <= 0.0 && raw.cpu <= 0.0 && t <= 0.0
  {
    var d := 2.0 * baseline + 1.0;
    RatioThreshold(raw.irq, d, 0.5);
    RatioThreshold(raw.irq, d, 2.0);
    RatioThreshold(window - raw.thermal, window, 0.0);
    RatioThreshold(window - raw.thermal, window, 1.0);
  }
}
