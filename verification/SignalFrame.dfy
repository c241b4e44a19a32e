/** The record every stage reads and writes (`include/model/signal_frame.hpp`). */
module SignalFrame {
  import opened Numeric

  datatype Level = STABLE | DEGRADED | UNSTABLE | CRITICAL {
    function Rank(): nat {
      match this
      case STABLE => 0
      case DEGRADED => 1
      case UNSTABLE => 2
      case CRITICAL => 3
    }
  }

  /** The raw signals; only sensors write them. The last four are copies that nothing reads back. */
  datatype RawSignals = RawSignals(
    psi: real, psiMemory: real, psiIo: real, cpu: real, irq: real, softirqs: real,
    memory: real, thermal: real, cpufreq: real, cpuThrottleRatio: real, disk: real, network: real,
    nvmlGpuUtil: real, gpuMemUtil: real, tegraEmcUtil: real, nvmlGpuTemp: real, nvmlGpuPowerRatio: real,
    tegraGpuUtil: real, tegraGpuTemp: real, tegraGpuPowerMw: real,
    gpuUtil: real, emcUtil: real, gpuTemp: real, gpuPowerRatio: real)

  datatype AgentHealth = AgentHealth(
    heartbeatMs: U64, loopJitterMs: real, computeTimeMs: real, redisLatencyMs: real,
    redisErrors: U32, sensorFailures: U32, missedCycles: U32)

  datatype Frame = Frame(
    monotonicNs: U64, raw: RawSignals,
    schedulerPressure: real, memoryPressure: real, ioPressure: real,
    thermalPressure: real, powerPressure: real, latencyJitter: real,
    realtimeRisk: real, saturationRisk: real, state: Level, agent: AgentHealth)

  const ZERO_RAW := RawSignals(
    0.0, 0.0, 0.0, 0.0, 0.0, 0.0, 0.0, 0.0, 0.0, 0.0, 0.0, 0.0, 0.0, 0.0, 0.0, 0.0, 0.0, 0.0, 0.0, 0.0,
    0.0, 0.0, 0.0, 0.0)

  const ZERO_FRAME := Frame(
    0, ZERO_RAW, 0.0, 0.0, 0.0, 0.0, 0.0, 0.0, 0.0, 0.0, STABLE, AgentHealth(0, 0.0, 0.0, 0.0, 0, 0, 0))

  /** The frame the agent owns and passes by reference; `Value` is what it holds. */
  class SignalFrame {
    var monotonicNs: U64
    var raw: RawSignals
    var schedulerPressure: real
    var memoryPressure: real
    var ioPressure: real
    var thermalPressure: real
    var powerPressure: real
    var latencyJitter: real
    var realtimeRisk: real
    var saturationRisk: real
    var state: Level
    var agent: AgentHealth

    ghost function Value(): Frame
      reads this
    {
      Frame(monotonicNs, raw, schedulerPressure, memoryPressure, ioPressure, thermalPressure, powerPressure,
            latencyJitter, realtimeRisk, saturationRisk, state, agent)
    }

    constructor ()
      ensures Value() == ZERO_FRAME
    {
      monotonicNs, raw := 0, ZERO_RAW;
      schedulerPressure, memoryPressure, ioPressure := 0.0, 0.0, 0.0;
      thermalPressure, powerPressure, latencyJitter := 0.0, 0.0, 0.0;
      realtimeRisk, saturationRisk, state := 0.0, 0.0, STABLE;
      agent := AgentHealth(0, 0.0, 0.0, 0.0, 0, 0, 0);
    }
  }
}
