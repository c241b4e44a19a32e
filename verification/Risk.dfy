/** The two risk filters (`src/risk/realtime_risk.cpp`, `src/risk/saturation_risk.cpp`). */
module Risk {
  import opened Numeric
  import opened SignalFrame
  import opened EmaFilter

  function RealtimeScore(latency: real, scheduler: real, thermal: real, io: real): (score: real)
    ensures score == 1.0 <==> latency >= 1.0 && scheduler >= 1.0 && thermal >= 1.0 && io >= 1.0
    ensures score == 0.0 <==> latency <= 0.0 && scheduler <= 0.0 && thermal <= 0.0 && io <= 0.0
    ensures 0.0 <= score <= 1.0
  {
    0.55 * Clamp01(latency) + 0.25 * Clamp01(scheduler) + 0.15 * Clamp01(thermal) + 0.05 * Clamp01(io)
  }

  function SaturationScore(scheduler: real, memory: real, io: real, power: real, thermal: real): (score: real)
    ensures score == 1.0 <==> scheduler >= 1.0 && memory >= 1.0 && io >= 1.0 && power >= 1.0 && thermal >= 1.0
    ensures score == 0.0 <==> scheduler <= 0.0 && memory <= 0.0 && io <= 0.0 && power <= 0.0 && thermal <= 0.0
    ensures 0.0 <= score <= 1.0
  {
    0.30 * Clamp01(scheduler) + 0.25 * Clamp01(memory) + 0.20 * Clamp01(io) + 0.15 * Clamp01(power)
    + 0.10 * Clamp01(thermal)
  }

  class RealtimeRisk {
    var ema: real
    var hasEma: bool

    ghost function Filter(): Ema
      reads this
    {
      Ema(ema, hasEma)
    }

    constructor ()
      ensures Filter() == FRESH
    {
      ema, hasEma := 0.0, false;
    }

    method Sample(frame: SignalFrame)
      modifies this, frame
      ensures Filter() == Step(0.35, old(Filter()), RealtimeScore(old(frame.latencyJitter),
                               old(frame.schedulerPressure), old(frame.thermalPressure), old(frame.ioPressure)))
      ensures frame.Value() == old(frame.Value()).(realtimeRisk := Clamp01(ema))
    {
      var latencyNorm := Clamp01(frame.latencyJitter);
      var schedulerNorm := Clamp01(frame.schedulerPressure);
      var thermalNorm := Clamp01(frame.thermalPressure);
      var ioNorm := Clamp01(frame.ioPressure);
      var rawScore := 0.55 * latencyNorm + 0.25 * schedulerNorm + 0.15 * thermalNorm + 0.05 * ioNorm;
      if !hasEma {
        ema := rawScore;
        hasEma := true;
      } else {
        ema := (1.0 - 0.35) * ema + 0.35 * rawScore;
      }
      frame.realtimeRisk := Clamp01(ema);
    }
  }

  class SaturationRisk {
    var ema: real
    var hasEma: bool

    ghost function Filter(): Ema
      reads this
    {
      Ema(ema, hasEma)
    }

    constructor ()
      ensures Filter() == FRESH
    {
      ema, hasEma := 0.0, false;
    }

    method Sample(frame: SignalFrame)
      modifies this, frame
      ensures Filter() == Step(0.18, old(Filter()), SaturationScore(old(frame.schedulerPressure),
                               old(frame.memoryPressure), old(frame.ioPressure), old(frame.powerPressure),
                               old(frame.thermalPressure)))
      ensures frame.Value() == old(frame.Value()).(saturationRisk := Clamp01(ema))
    {
      var schedulerNorm := Clamp01(frame.schedulerPressure);
      var memoryNorm := Clamp01(frame.memoryPressure);
      var ioNorm := Clamp01(frame.ioPressure);
      var powerNorm := Clamp01(frame.powerPressure);
      var thermalNorm := Clamp01(frame.thermalPressure);
      var rawScore := 0.30 * schedulerNorm + 0.25 * memoryNorm + 0.20 * ioNorm + 0.15 * powerNorm
        + 0.10 * thermalNorm;
      if !hasEma {
        ema := rawScore;
        hasEma := true;
      } else {
        ema := (1.0 - 0.18) * ema + 0.18 * rawScore;
      }
      frame.saturationRisk := Clamp01(ema);
    }
  }
}
