/**
 The metrics the agent can write: their names, the fixed order of the sink
 (`src/sinks/redis_ts.cpp`), and the list the agent enables (`src/core/agent.cpp`).
 */
module RedisMetrics {
  import opened SignalFrame
  import opened Wrappers
  import opened Config
  import opened Sensors

  datatype Metric =
    | RawPsi
    | RawPsiMemory
    | RawPsiIo
    | RawCpu
    | RawIrq
    | RawSoftirqs
    | RawMemory
    | RawThermal
    | RawCpufreq
    | RawCpuThrottleRatio
    | RawDisk
    | RawNetwork
    | RawNvmlGpuUtil
    | RawGpuMemUtil
    | RawTegraEmcUtil
    | RawNvmlGpuTemp
    | RawNvmlGpuPowerRatio
    | RawTegraGpuUtil
    | RawTegraGpuTemp
    | RawTegraGpuPowerMw
    | DerivedSchedulerPressure
    | DerivedMemoryPressure
    | DerivedIoPressure
    | DerivedThermalPressure
    | DerivedPowerPressure
    | DerivedLatencyJitter
    | RiskRealtimeRisk
    | RiskSaturationRisk
    | RiskState
    | AgentHeartbeat
    | AgentLoopJitter
    | AgentComputeTime
    | AgentRedisLatency
    | AgentRedisErrors
    | AgentSensorFailures
    | AgentMissedCycles
  {
    predicate IsHealth() {
      Index(this) >= 29
    }
  }

  /** `default_metric_suffixes`, which is also the order in which a payload is built. */
  function SinkMetric(i: nat): Metric {
    match i
    case 0 => RawPsi
    case 1 => RawPsiMemory
    case 2 => RawPsiIo
    case 3 => RawCpu
    case 4 => RawIrq
    case 5 => RawSoftirqs
    case 6 => RawMemory
    case 7 => RawThermal
    case 8 => RawCpufreq
    case 9 => RawCpuThrottleRatio
    case 10 => RawDisk
    case 11 => RawNetwork
    case 12 => RawNvmlGpuUtil
    case 13 => RawGpuMemUtil
    case 14 => RawTegraEmcUtil
    case 15 => RawNvmlGpuTemp
    case 16 => RawNvmlGpuPowerRatio
    case 17 => RawTegraGpuUtil
    case 18 => RawTegraGpuTemp
    case 19 => RawTegraGpuPowerMw
    case 20 => DerivedSchedulerPressure
    case 21 => DerivedMemoryPressure
    case 22 => DerivedIoPressure
    case 23 => DerivedThermalPressure
    case 24 => DerivedPowerPressure
    case 25 => DerivedLatencyJitter
    case 26 => RiskRealtimeRisk
    case 27 => RiskSaturationRisk
    case 28 => RiskState
    case 29 => AgentHeartbeat
    case 30 => AgentLoopJitter
    case 31 => AgentComputeTime
    case 32 => AgentRedisLatency
    case 33 => AgentRedisErrors
    case 34 => AgentSensorFailures
    case _ => AgentMissedCycles
  }

  function SinkOrder(): seq<Metric> {
    seq(36, i requires 0 <= i < 36 => SinkMetric(i))
  }

  function Suffix(m: Metric): string {
    match m
    case RawPsi => "raw:psi"
    case RawPsiMemory => "raw:psi_memory"
    case RawPsiIo => "raw:psi_io"
    case RawCpu => "raw:cpu"
    case RawIrq => "raw:irq"
    case RawSoftirqs => "raw:softirqs"
    case RawMemory => "raw:memory"
    case RawThermal => "raw:thermal"
    case RawCpufreq => "raw:cpufreq"
    case RawCpuThrottleRatio => "raw:cpu_throttle_ratio"
    case RawDisk => "raw:disk"
    case RawNetwork => "raw:network"
    case RawNvmlGpuUtil => "raw:nvml_gpu_util"
    case RawGpuMemUtil => "raw:gpu_mem_util"
    case RawTegraEmcUtil => "raw:tegra_emc_util"
    case RawNvmlGpuTemp => "raw:nvml_gpu_temp"
    case RawNvmlGpuPowerRatio => "raw:nvml_gpu_power_ratio"
    case RawTegraGpuUtil => "raw:tegra_gpu_util"
    case RawTegraGpuTemp => "raw:tegra_gpu_temp"
    case RawTegraGpuPowerMw => "raw:tegra_gpu_power_mw"
    case DerivedSchedulerPressure => "derived:scheduler_pressure"
    case DerivedMemoryPressure => "derived:memory_pressure"
    case DerivedIoPressure => "derived:io_pressure"
    case DerivedThermalPressure => "derived:thermal_pressure"
    case DerivedPowerPressure => "derived:power_pressure"
    case DerivedLatencyJitter => "derived:latency_jitter"
    case RiskRealtimeRisk => "risk:realtime_risk"
    case RiskSaturationRisk => "risk:saturation_risk"
    case RiskState => "risk:state"
    case AgentHeartbeat => "agent:heartbeat"
    case AgentLoopJitter => "agent:loop_jitter"
    case AgentComputeTime => "agent:compute_time"
    case AgentRedisLatency => "agent:redis_latency"
    case AgentRedisErrors => "agent:redis_errors"
    case AgentSensorFailures => "agent:sensor_failures"
    case AgentMissedCycles => "agent:missed_cycles"
  }

  function Index(m: Metric): (i: nat)
    ensures i < 36
  {
    match m
    case RawPsi => 0
    case RawPsiMemory => 1
    case RawPsiIo => 2
    case RawCpu => 3
    case RawIrq => 4
    case RawSoftirqs => 5
    case RawMemory => 6
    case RawThermal => 7
    case RawCpufreq => 8
    case RawCpuThrottleRatio => 9
    case RawDisk => 10
    case RawNetwork => 11
    case RawNvmlGpuUtil => 12
    case RawGpuMemUtil => 13
    case RawTegraEmcUtil => 14
    case RawNvmlGpuTemp => 15
    case RawNvmlGpuPowerRatio => 16
    case RawTegraGpuUtil => 17
    case RawTegraGpuTemp => 18
    case RawTegraGpuPowerMw => 19
    case DerivedSchedulerPressure => 20
    case DerivedMemoryPressure => 21
    case DerivedIoPressure => 22
    case DerivedThermalPressure => 23
    case DerivedPowerPressure => 24
    case DerivedLatencyJitter => 25
    case RiskRealtimeRisk => 26
    case RiskSaturationRisk => 27
    case RiskState => 28
    case AgentHeartbeat => 29
    case AgentLoopJitter => 30
    case AgentComputeTime => 31
    case AgentRedisLatency => 32
    case AgentRedisErrors => 33
    case AgentSensorFailures => 34
    case AgentMissedCycles => 35
  }

  /** The value the sink reads off the frame. */
  function MetricValue(f: Frame, m: Metric): real {
    match m
    case RawPsi => f.raw.psi
    case RawPsiMemory => f.raw.psiMemory
    case RawPsiIo => f.raw.psiIo
    case RawCpu => f.raw.cpu
    case RawIrq => f.raw.irq
    case RawSoftirqs => f.raw.softirqs
    case RawMemory => f.raw.memory
    case RawThermal => f.raw.thermal
    case RawCpufreq => f.raw.cpufreq
    case RawCpuThrottleRatio => f.raw.cpuThrottleRatio
    case RawDisk => f.raw.disk
    case RawNetwork => f.raw.network
    case RawNvmlGpuUtil => f.raw.nvmlGpuUtil
    case RawGpuMemUtil => f.raw.gpuMemUtil
    case RawTegraEmcUtil => f.raw.tegraEmcUtil
    case RawNvmlGpuTemp => f.raw.nvmlGpuTemp
    case RawNvmlGpuPowerRatio => f.raw.nvmlGpuPowerRatio
    case RawTegraGpuUtil => f.raw.tegraGpuUtil
    case RawTegraGpuTemp => f.raw.tegraGpuTemp
    case RawTegraGpuPowerMw => f.raw.tegraGpuPowerMw
    case DerivedSchedulerPressure => f.schedulerPressure
    case DerivedMemoryPressure => f.memoryPressure
    case DerivedIoPressure => f.ioPressure
    case DerivedThermalPressure => f.thermalPressure
    case DerivedPowerPressure => f.powerPressure
    case DerivedLatencyJitter => f.latencyJitter
    case RiskRealtimeRisk => f.realtimeRisk
    case RiskSaturationRisk => f.saturationRisk
    case RiskState => f.state.Rank() as real
    case AgentHeartbeat => f.agent.heartbeatMs as real
    case AgentLoopJitter => f.agent.loopJitterMs
    case AgentComputeTime => f.agent.computeTimeMs
    case AgentRedisLatency => f.agent.redisLatencyMs
    case AgentRedisErrors => f.agent.redisErrors as real
    case AgentSensorFailures => f.agent.sensorFailures as real
    case AgentMissedCycles => f.agent.missedCycles as real
  }

  // Which field of the frame each metric reads.

  lemma LoadValues(f: Frame)
    ensures MetricValue(f, RawPsi) == f.raw.psi
    ensures MetricValue(f, RawPsiMemory) == f.raw.psiMemory
    ensures MetricValue(f, RawPsiIo) == f.raw.psiIo
    ensures MetricValue(f, RawCpu) == f.raw.cpu
    ensures MetricValue(f, RawIrq) == f.raw.irq
  {
  }

  lemma KernelValues(f: Frame)
    ensures MetricValue(f, RawSoftirqs) == f.raw.softirqs
    ensures MetricValue(f, RawMemory) == f.raw.memory
    ensures MetricValue(f, RawThermal) == f.raw.thermal
    ensures MetricValue(f, RawCpufreq) == f.raw.cpufreq
    ensures MetricValue(f, RawCpuThrottleRatio) == f.raw.cpuThrottleRatio
  {
  }

  lemma DiskValues(f: Frame)
    ensures MetricValue(f, RawDisk) == f.raw.disk
    ensures MetricValue(f, RawNetwork) == f.raw.network
    ensures MetricValue(f, RawNvmlGpuUtil) == f.raw.nvmlGpuUtil
    ensures MetricValue(f, RawGpuMemUtil) == f.raw.gpuMemUtil
    ensures MetricValue(f, RawTegraEmcUtil) == f.raw.tegraEmcUtil
  {
  }

  lemma BoardValues(f: Frame)
    ensures MetricValue(f, RawNvmlGpuTemp) == f.raw.nvmlGpuTemp
    ensures MetricValue(f, RawNvmlGpuPowerRatio) == f.raw.nvmlGpuPowerRatio
    ensures MetricValue(f, RawTegraGpuUtil) == f.raw.tegraGpuUtil
    ensures MetricValue(f, RawTegraGpuTemp) == f.raw.tegraGpuTemp
    ensures MetricValue(f, RawTegraGpuPowerMw) == f.raw.tegraGpuPowerMw
  {
  }

  lemma PressureValues(f: Frame)
    ensures MetricValue(f, DerivedSchedulerPressure) == f.schedulerPressure
    ensures MetricValue(f, DerivedMemoryPressure) == f.memoryPressure
    ensures MetricValue(f, DerivedIoPressure) == f.ioPressure
    ensures MetricValue(f, DerivedThermalPressure) == f.thermalPressure
    ensures MetricValue(f, DerivedPowerPressure) == f.powerPressure
  {
  }

  lemma RiskValues(f: Frame)
    ensures MetricValue(f, DerivedLatencyJitter) == f.latencyJitter
    ensures MetricValue(f, RiskRealtimeRisk) == f.realtimeRisk
    ensures MetricValue(f, RiskSaturationRisk) == f.saturationRisk
    ensures MetricValue(f, RiskState) == f.state.Rank() as real
  {
  }

  lemma LoopValues(f: Frame)
    ensures MetricValue(f, AgentHeartbeat) == f.agent.heartbeatMs as real
    ensures MetricValue(f, AgentLoopJitter) == f.agent.loopJitterMs
    ensures MetricValue(f, AgentComputeTime) == f.agent.computeTimeMs
    ensures MetricValue(f, AgentRedisLatency) == f.agent.redisLatencyMs
  {
  }

  lemma ErrorValues(f: Frame)
    ensures MetricValue(f, AgentRedisErrors) == f.agent.redisErrors as real
    ensures MetricValue(f, AgentSensorFailures) == f.agent.sensorFailures as real
    ensures MetricValue(f, AgentMissedCycles) == f.agent.missedCycles as real
  {
  }

  lemma SinkOrderIsIndexed(m: Metric)
    ensures SinkMetric(Index(m)) == m
  {
    hide SinkMetric, Index;
    if Index(m) < 12 {
      FirstIndexed(m);
    } else if Index(m) < 24 {
      MiddleIndexed(m);
    } else {
      LastIndexed(m);
    }
  }

  lemma FirstIndexed(m: Metric)
    requires Index(m) < 12
    ensures SinkMetric(Index(m)) == m
  {
  }

  lemma MiddleIndexed(m: Metric)
    requires 12 <= Index(m) < 24
    ensures SinkMetric(Index(m)) == m
  {
  }

  lemma LastIndexed(m: Metric)
    requires 24 <= Index(m)
    ensures SinkMetric(Index(m)) == m
  {
  }

  lemma SinkOrderCovers(i: nat)
    requires i < 36
    ensures Index(SinkMetric(i)) == i
  {
  }

  function RawNamed(name: string): Option<Metric> {
    match name
    case "raw:psi" => Some(RawPsi)
    case "raw:psi_memory" => Some(RawPsiMemory)
    case "raw:psi_io" => Some(RawPsiIo)
    case "raw:cpu" => Some(RawCpu)
    case "raw:irq" => Some(RawIrq)
    case "raw:softirqs" => Some(RawSoftirqs)
    case "raw:memory" => Some(RawMemory)
    case "raw:thermal" => Some(RawThermal)
    case "raw:cpufreq" => Some(RawCpufreq)
    case "raw:cpu_throttle_ratio" => Some(RawCpuThrottleRatio)
    case "raw:disk" => Some(RawDisk)
    case "raw:network" => Some(RawNetwork)
    case "raw:nvml_gpu_util" => Some(RawNvmlGpuUtil)
    case "raw:gpu_mem_util" => Some(RawGpuMemUtil)
    case "raw:tegra_emc_util" => Some(RawTegraEmcUtil)
    case "raw:nvml_gpu_temp" => Some(RawNvmlGpuTemp)
    case "raw:nvml_gpu_power_ratio" => Some(RawNvmlGpuPowerRatio)
    case "raw:tegra_gpu_util" => Some(RawTegraGpuUtil)
    case "raw:tegra_gpu_temp" => Some(RawTegraGpuTemp)
    case "raw:tegra_gpu_power_mw" => Some(RawTegraGpuPowerMw)
    case _ => None
  }

  function DerivedNamed(name: string): Option<Metric> {
    match name
    case "derived:scheduler_pressure" => Some(DerivedSchedulerPressure)
    case "derived:memory_pressure" => Some(DerivedMemoryPressure)
    case "derived:io_pressure" => Some(DerivedIoPressure)
    case "derived:thermal_pressure" => Some(DerivedThermalPressure)
    case "derived:power_pressure" => Some(DerivedPowerPressure)
    case "derived:latency_jitter" => Some(DerivedLatencyJitter)
    case _ => None
  }

  function RiskNamed(name: string): Option<Metric> {
    match name
    case "risk:realtime_risk" => Some(RiskRealtimeRisk)
    case "risk:saturation_risk" => Some(RiskSaturationRisk)
    case "risk:state" => Some(RiskState)
    case _ => None
  }

  function HealthNamed(name: string): Option<Metric> {
    match name
    case "agent:heartbeat" => Some(AgentHeartbeat)
    case "agent:loop_jitter" => Some(AgentLoopJitter)
    case "agent:compute_time" => Some(AgentComputeTime)
    case "agent:redis_latency" => Some(AgentRedisLatency)
    case "agent:redis_errors" => Some(AgentRedisErrors)
    case "agent:sensor_failures" => Some(AgentSensorFailures)
    case "agent:missed_cycles" => Some(AgentMissedCycles)
    case _ => None
  }

  /** The metric a name belongs to: reading names undoes writing them. */
  function MetricNamed(name: string): Option<Metric> {
    if "raw:" <= name then RawNamed(name)
    else if "derived:" <= name then DerivedNamed(name)
    else if "risk:" <= name then RiskNamed(name)
    else HealthNamed(name)
  }

  lemma RawNamesFrom0(m: Metric)
    requires 0 <= Index(m) < 8
    ensures "raw:" <= Suffix(m) && RawNamed(Suffix(m)) == Some(m)
  {
  }

  lemma RawNamesFrom8(m: Metric)
    requires 8 <= Index(m) < 13
    ensures "raw:" <= Suffix(m) && RawNamed(Suffix(m)) == Some(m)
  {
  }

  lemma RawNamesFrom13(m: Metric)
    requires 13 <= Index(m) < 17
    ensures "raw:" <= Suffix(m) && RawNamed(Suffix(m)) == Some(m)
  {
  }

  lemma RawNamesFrom17(m: Metric)
    requires 17 <= Index(m) < 20
    ensures "raw:" <= Suffix(m) && RawNamed(Suffix(m)) == Some(m)
  {
  }

  lemma DerivedNames(m: Metric)
    requires 20 <= Index(m) < 26
    ensures "derived:" <= Suffix(m) && DerivedNamed(Suffix(m)) == Some(m)
  {
  }

  lemma RiskNames(m: Metric)
    requires 26 <= Index(m) < 29
    ensures "risk:" <= Suffix(m) && RiskNamed(Suffix(m)) == Some(m)
  {
  }

  lemma HealthNames(m: Metric)
    requires 29 <= Index(m)
    ensures Suffix(m)[0] == 'a' && HealthNamed(Suffix(m)) == Some(m)
  {
  }

  /** No name belongs to two groups. */
  lemma GroupsDiffer(name: string)
    ensures "raw:" <= name ==> !("derived:" <= name) && !("risk:" <= name) && name[0] == 'r'
    ensures "derived:" <= name ==> !("risk:" <= name) && name[0] == 'd'
    ensures "risk:" <= name ==> name[0] == 'r'
  {
    assert "raw:" <= name ==> name[0] == "raw:"[0] && name[1] == "raw:"[1];
    assert "derived:" <= name ==> name[0] == "derived:"[0];
    assert "risk:" <= name ==> name[0] == "risk:"[0] && name[1] == "risk:"[1];
  }

  lemma NamesAreRead(m: Metric)
    ensures MetricNamed(Suffix(m)) == Some(m)
  {
    hide Suffix, Index, RawNamed, DerivedNamed, RiskNamed, HealthNamed;
    GroupsDiffer(Suffix(m));
    if Index(m) < 8 {
      RawNamesFrom0(m);
    } else if Index(m) < 13 {
      RawNamesFrom8(m);
    } else if Index(m) < 17 {
      RawNamesFrom13(m);
    } else if Index(m) < 20 {
      RawNamesFrom17(m);
    } else if Index(m) < 26 {
      DerivedNames(m);
    } else if Index(m) < 29 {
      RiskNames(m);
    } else {
      HealthNames(m);
    }
  }

  lemma SuffixInjective(m: Metric, k: Metric)
    requires Suffix(m) == Suffix(k)
    ensures m == k
  {
    hide Suffix, MetricNamed;
    NamesAreRead(m);
    NamesAreRead(k);
  }

  // ------------------------------------------------------- what the agent enables

  /** The sensor whose switch decides about a metric, if any does. */
  function SensorOf(m: Metric): Option<Sensor> {
    match m
    case RawPsi => Some(Psi)
    case RawPsiMemory => Some(Psi)
    case RawPsiIo => Some(Psi)
    case RawCpu => Some(Cpu)
    case RawIrq => Some(Interrupts)
    case RawSoftirqs => Some(Softirqs)
    case RawMemory => Some(Memory)
    case RawThermal => Some(Thermal)
    case RawCpufreq => Some(Cpufreq)
    case RawCpuThrottleRatio => Some(CpuThrottle)
    case RawDisk => Some(Disk)
    case RawNetwork => Some(Network)
    case RawNvmlGpuUtil => Some(Gpu)
    case RawGpuMemUtil => Some(Gpu)
    case RawTegraEmcUtil => Some(Tegrastats)
    case RawNvmlGpuTemp => Some(Gpu)
    case RawNvmlGpuPowerRatio => Some(Gpu)
    case RawTegraGpuUtil => Some(Tegrastats)
    case RawTegraGpuTemp => Some(Tegrastats)
    case RawTegraGpuPowerMw => Some(Tegrastats)
    case _ => None
  }

  /** The metrics a switch decides about, sensor by sensor. */
  function MetricsOf(sensor: Sensor): set<Metric> {
    match sensor
    case Psi => {RawPsi, RawPsiMemory, RawPsiIo}
    case Cpu => {RawCpu}
    case Interrupts => {RawIrq}
    case Softirqs => {RawSoftirqs}
    case Memory => {RawMemory}
    case Disk => {RawDisk}
    case Network => {RawNetwork}
    case Tegrastats => {RawTegraEmcUtil, RawTegraGpuUtil, RawTegraGpuTemp, RawTegraGpuPowerMw}
    case Thermal => {RawThermal}
    case CpuThrottle => {RawCpuThrottleRatio}
    case Cpufreq => {RawCpufreq}
    case Gpu => {RawNvmlGpuUtil, RawGpuMemUtil, RawNvmlGpuTemp, RawNvmlGpuPowerRatio}
  }

  const HEALTH_METRICS := {AgentHeartbeat, AgentLoopJitter, AgentComputeTime, AgentRedisLatency, AgentRedisErrors,
                           AgentSensorFailures, AgentMissedCycles}

  const COMPUTED_METRICS := {DerivedSchedulerPressure, DerivedMemoryPressure, DerivedIoPressure,
                             DerivedThermalPressure, DerivedPowerPressure, DerivedLatencyJitter, RiskRealtimeRisk,
                             RiskSaturationRisk, RiskState}

  lemma SensorsOwnMetrics(m: Metric, s: Sensor)
    ensures SensorOf(m) == Some(s) <==> m in MetricsOf(s)
  {
    hide SensorOf, MetricsOf;
    if s in {Psi, Tegrastats, Gpu} {
      LargeSensors(m, s);
    } else {
      SmallSensors(m, s);
    }
  }

  lemma LargeSensors(m: Metric, s: Sensor)
    requires s in {Psi, Tegrastats, Gpu}
    ensures SensorOf(m) == Some(s) <==> m in MetricsOf(s)
  {
  }

  lemma SmallSensors(m: Metric, s: Sensor)
    requires s !in {Psi, Tegrastats, Gpu}
    ensures SensorOf(m) == Some(s) <==> m in MetricsOf(s)
  {
  }

  lemma OtherMetrics(m: Metric)
    ensures m.IsHealth() <==> m in HEALTH_METRICS
    ensures SensorOf(m).None? <==> m in HEALTH_METRICS || m in COMPUTED_METRICS
    ensures !(m in HEALTH_METRICS && m in COMPUTED_METRICS)
  {
    hide HEALTH_METRICS, COMPUTED_METRICS, SensorOf, Index;
    HealthIsLast(m);
    ComputedIsBefore(m);
    SensorsAreFirst(m);
  }

  lemma HealthIsLast(m: Metric)
    ensures m in HEALTH_METRICS <==> Index(m) >= 29
  {
  }

  lemma ComputedIsBefore(m: Metric)
    ensures m in COMPUTED_METRICS <==> 20 <= Index(m) < 29
  {
  }

  lemma SensorsAreFirst(m: Metric)
    ensures SensorOf(m).Some? <==> Index(m) < 20
  {
  }

  /** A derived or risk metric always, a raw one with its sensor, a health one when health is published. */
  predicate IsEnabled(config: AgentConfig, m: Metric) {
    if m.IsHealth() then config.publishHealth
    else SensorOf(m).None? || IsOn(config, SensorOf(m).value)
  }

  /**
   Where `enabled_redis_metrics` lists a metric: derived pressures and risks first, then the raw signals
   as the sink has them, except that the memory controller of the board comes last, then health.
   */
  function AgentRank(m: Metric): (i: nat)
    ensures i < 36
  {
    var i := Index(m);
    if i < 14 then i + 9
    else if i == 14 then 28
    else if i < 20 then i + 8
    else if i < 29 then i - 20
    else i
  }

  function AgentMetric(i: nat): Metric {
    SinkMetric(if i < 9 then i + 20 else if i < 23 then i - 9 else if i < 28 then i - 8 else if i == 28 then 14 else i)
  }

  function AgentOrder(): seq<Metric> {
    seq(36, i requires 0 <= i < 36 => AgentMetric(i))
  }

  lemma AgentOrderIsRanked(m: Metric)
    ensures AgentMetric(AgentRank(m)) == m
  {
    hide SinkMetric, Index;
    SinkOrderIsIndexed(m);
  }

  lemma AgentOrderCovers(i: nat)
    requires i < 36
    ensures AgentRank(AgentMetric(i)) == i
  {
    hide SinkMetric, Index;
    SinkOrderCovers(if i < 9 then i + 20 else if i < 23 then i - 9 else if i < 28 then i - 8
                    else if i == 28 then 14 else i);
  }

  // ----------------------------------------------------------------- selections

  /** The elements of `xs` that `keep` accepts, in the order of `xs`. */
  function Select(xs: seq<Metric>, keep: Metric -> bool): seq<Metric> {
    if xs == [] then [] else
    var last := xs[|xs| - 1];
    Select(xs[..|xs| - 1], keep) + if keep(last) then [last] else []
  }

  ghost predicate Distinct<T>(xs: seq<T>) {
    forall i, j :: 0 <= i < j < |xs| ==> xs[i] != xs[j]
  }

  lemma {:induction false} SelectKeeps(xs: seq<Metric>, keep: Metric -> bool, m: Metric)
    ensures m in Select(xs, keep) <==> m in xs && keep(m)
  {
    if xs != [] {
      SelectKeeps(xs[..|xs| - 1], keep, m);
      assert xs == xs[..|xs| - 1] + [xs[|xs| - 1]];
    }
  }

  lemma {:induction false} SelectDistinct(xs: seq<Metric>, keep: Metric -> bool)
    requires Distinct(xs)
    ensures Distinct(Select(xs, keep)) && |Select(xs, keep)| <= |xs|
  {
    if xs != [] {
      var n := |xs| - 1;
      SelectDistinct(xs[..n], keep);
      SelectKeeps(xs[..n], keep, xs[n]);
      assert xs[n] !in xs[..n];
    }
  }

  lemma SelectSnoc(xs: seq<Metric>, x: Metric, keep: Metric -> bool)
    ensures Select(xs + [x], keep) == Select(xs, keep) + if keep(x) then [x] else []
  {
    assert (xs + [x])[..|xs|] == xs;
  }

  /** Two lists without duplicates and with the same elements are equally long. */
  lemma {:induction false} SameElementsSameLength(xs: seq<Metric>, ys: seq<Metric>)
    requires Distinct(xs) && Distinct(ys) && forall m :: m in xs <==> m in ys
    ensures |xs| == |ys|
  {
    ElementCount(xs);
    ElementCount(ys);
    assert (set m | m in xs) == (set m | m in ys);
  }

  lemma {:induction false} ElementCount(xs: seq<Metric>)
    requires Distinct(xs)
    ensures |set m | m in xs| == |xs|
  {
    if xs != [] {
      var n := |xs| - 1;
      ElementCount(xs[..n]);
      assert xs == xs[..n] + [xs[n]];
      assert xs[n] !in xs[..n];
      assert (set m | m in xs) == (set m | m in xs[..n]) + {xs[n]};
    }
  }

  lemma OrdersAreDistinct()
    ensures Distinct(SinkOrder()) && Distinct(AgentOrder())
    ensures forall m :: m in SinkOrder() && m in AgentOrder()
  {
    hide SinkMetric, AgentMetric, Index, AgentRank;
    forall i: nat | i < 36
      ensures Index(SinkOrder()[i]) == i && AgentRank(AgentOrder()[i]) == i
    {
      SinkOrderCovers(i);
      AgentOrderCovers(i);
    }
    forall m
      ensures m in SinkOrder() && m in AgentOrder()
    {
      SinkOrderIsIndexed(m);
      AgentOrderIsRanked(m);
      assert SinkOrder()[Index(m)] == m && AgentOrder()[AgentRank(m)] == m;
    }
  }

  function EnabledBy(config: AgentConfig): Metric -> bool {
    m => IsEnabled(config, m)
  }

  function EnabledMetrics(config: AgentConfig): seq<Metric> {
    Select(AgentOrder(), EnabledBy(config))
  }

  /** One `push_back`, taken or skipped. */
  lemma Pushed(config: AgentConfig, k: nat, m: Metric)
    requires AgentRank(m) == k
    ensures Select(AgentOrder()[..k + 1], EnabledBy(config))
         == Select(AgentOrder()[..k], EnabledBy(config)) + if IsEnabled(config, m) then [m] else []
  {
    hide AgentMetric, AgentRank, IsEnabled;
    AgentOrderIsRanked(m);
    assert AgentOrder()[..k + 1] == AgentOrder()[..k] + [m];
    SelectSnoc(AgentOrder()[..k], m, EnabledBy(config));
  }

  /** What the first `k` candidates leave in the vector. */
  function EnabledUpTo(config: AgentConfig, k: nat): seq<Metric>
    requires k <= 36
  {
    Select(AgentOrder()[..k], EnabledBy(config))
  }

  lemma WholeOrder()
    ensures |AgentOrder()| == 36 && AgentOrder()[..36] == AgentOrder() && AgentOrder()[..0] == []
  {
  }

  /** `metrics.push_back`, under the condition of the group the metric belongs to. */
  method PushIf(on: bool, config: AgentConfig, k: nat, m: Metric, before: seq<Metric>) returns (metrics: seq<Metric>)
    requires AgentRank(m) == k && on == IsEnabled(config, m)
    requires before == EnabledUpTo(config, k)
    ensures metrics == EnabledUpTo(config, k + 1)
  {
    Pushed(config, k, m);
    metrics := before;
    if on {
      metrics := metrics + [m];
    }
  }

  lemma CoreIsAlwaysOn(config: AgentConfig, m: Metric)
    requires 20 <= Index(m) < 29
    ensures IsEnabled(config, m)
  {
    hide IsOn;
  }

  method PushCore(config: AgentConfig, m: Metric, before: seq<Metric>) returns (metrics: seq<Metric>)
    requires 20 <= Index(m) < 29 && before == EnabledUpTo(config, Index(m) - 20)
    ensures metrics == EnabledUpTo(config, Index(m) - 19)
  {
    hide IsEnabled, EnabledUpTo, Index;
    CoreIsAlwaysOn(config, m);
    metrics := PushIf(true, config, AgentRank(m), m, before);
  }

  method PushRaw(on: bool, config: AgentConfig, sensor: Sensor, m: Metric, before: seq<Metric>)
    returns (metrics: seq<Metric>)
    requires Index(m) < 20 && SensorOf(m) == Some(sensor) && on == IsOn(config, sensor)
    requires before == EnabledUpTo(config, AgentRank(m))
    ensures metrics == EnabledUpTo(config, AgentRank(m) + 1)
  {
    hide IsOn, EnabledUpTo, AgentRank, Index, SensorOf;
    metrics := PushIf(on, config, AgentRank(m), m, before);
  }

  method PushHealth(config: AgentConfig, m: Metric, before: seq<Metric>) returns (metrics: seq<Metric>)
    requires Index(m) >= 29 && before == EnabledUpTo(config, Index(m))
    ensures metrics == EnabledUpTo(config, Index(m) + 1)
  {
    hide IsOn, EnabledUpTo, Index, SensorOf;
    metrics := PushIf(config.publishHealth, config, AgentRank(m), m, before);
  }

  // Where the metrics stand in the sink's order, and whose switch decides about them.

  lemma PressureIndices()
    ensures Index(DerivedSchedulerPressure) == 20
    ensures Index(DerivedMemoryPressure) == 21
    ensures Index(DerivedIoPressure) == 22
    ensures Index(DerivedThermalPressure) == 23
    ensures Index(DerivedPowerPressure) == 24
  {
  }

  lemma RiskIndices()
    ensures Index(DerivedLatencyJitter) == 25
    ensures Index(RiskRealtimeRisk) == 26
    ensures Index(RiskSaturationRisk) == 27
    ensures Index(RiskState) == 28
  {
  }

  method PushCoreMetrics(config: AgentConfig, before: seq<Metric>) returns (metrics: seq<Metric>)
    requires before == EnabledUpTo(config, 0)
    ensures metrics == EnabledUpTo(config, 9)
  {
    hide IsOn, EnabledUpTo, IsEnabled, Index, SensorOf;
    PressureIndices();
    RiskIndices();
    metrics := before;
    metrics := PushCore(config, DerivedSchedulerPressure, metrics);
    metrics := PushCore(config, DerivedMemoryPressure, metrics);
    metrics := PushCore(config, DerivedIoPressure, metrics);
    metrics := PushCore(config, DerivedThermalPressure, metrics);
    metrics := PushCore(config, DerivedPowerPressure, metrics);
    metrics := PushCore(config, DerivedLatencyJitter, metrics);
    metrics := PushCore(config, RiskRealtimeRisk, metrics);
    metrics := PushCore(config, RiskSaturationRisk, metrics);
    metrics := PushCore(config, RiskState, metrics);
  }

  lemma CpuFacts()
    ensures Index(RawPsi) == 0 && SensorOf(RawPsi) == Some(Psi)
    ensures Index(RawPsiMemory) == 1 && SensorOf(RawPsiMemory) == Some(Psi)
    ensures Index(RawPsiIo) == 2 && SensorOf(RawPsiIo) == Some(Psi)
    ensures Index(RawCpu) == 3 && SensorOf(RawCpu) == Some(Cpu)
  {
  }

  lemma KernelFacts()
    ensures Index(RawIrq) == 4 && SensorOf(RawIrq) == Some(Interrupts)
    ensures Index(RawSoftirqs) == 5 && SensorOf(RawSoftirqs) == Some(Softirqs)
    ensures Index(RawMemory) == 6 && SensorOf(RawMemory) == Some(Memory)
  {
  }

  method PushLoadMetrics(config: AgentConfig, before: seq<Metric>) returns (metrics: seq<Metric>)
    requires before == EnabledUpTo(config, 9)
    ensures metrics == EnabledUpTo(config, 16)
  {
    hide IsOn, EnabledUpTo, IsEnabled, Index, SensorOf;
    CpuFacts();
    KernelFacts();
    metrics := before;
    var psi := IsOn(config, Psi);
    metrics := PushRaw(psi, config, Psi, RawPsi, metrics);
    metrics := PushRaw(psi, config, Psi, RawPsiMemory, metrics);
    metrics := PushRaw(psi, config, Psi, RawPsiIo, metrics);
    var cpu := IsOn(config, Cpu);
    metrics := PushRaw(cpu, config, Cpu, RawCpu, metrics);
    var interrupts := IsOn(config, Interrupts);
    metrics := PushRaw(interrupts, config, Interrupts, RawIrq, metrics);
    var softirqs := IsOn(config, Softirqs);
    metrics := PushRaw(softirqs, config, Softirqs, RawSoftirqs, metrics);
    var memory := IsOn(config, Memory);
    metrics := PushRaw(memory, config, Memory, RawMemory, metrics);
  }

  lemma DeviceFacts()
    ensures Index(RawThermal) == 7 && SensorOf(RawThermal) == Some(Thermal)
    ensures Index(RawCpufreq) == 8 && SensorOf(RawCpufreq) == Some(Cpufreq)
    ensures Index(RawCpuThrottleRatio) == 9 && SensorOf(RawCpuThrottleRatio) == Some(CpuThrottle)
    ensures Index(RawDisk) == 10 && SensorOf(RawDisk) == Some(Disk)
  {
  }

  lemma NetworkFacts()
    ensures Index(RawNetwork) == 11 && SensorOf(RawNetwork) == Some(Network)
  {
  }

  method PushDeviceMetrics(config: AgentConfig, before: seq<Metric>) returns (metrics: seq<Metric>)
    requires before == EnabledUpTo(config, 16)
    ensures metrics == EnabledUpTo(config, 21)
  {
    hide IsOn, EnabledUpTo, IsEnabled, Index, SensorOf;
    DeviceFacts();
    NetworkFacts();
    metrics := before;
    var thermal := IsOn(config, Thermal);
    metrics := PushRaw(thermal, config, Thermal, RawThermal, metrics);
    var cpufreq := IsOn(config, Cpufreq);
    metrics := PushRaw(cpufreq, config, Cpufreq, RawCpufreq, metrics);
    var cpuThrottle := IsOn(config, CpuThrottle);
    metrics := PushRaw(cpuThrottle, config, CpuThrottle, RawCpuThrottleRatio, metrics);
    var disk := IsOn(config, Disk);
    metrics := PushRaw(disk, config, Disk, RawDisk, metrics);
    var network := IsOn(config, Network);
    metrics := PushRaw(network, config, Network, RawNetwork, metrics);
  }

  lemma NvmlFacts()
    ensures Index(RawNvmlGpuUtil) == 12 && SensorOf(RawNvmlGpuUtil) == Some(Gpu)
    ensures Index(RawGpuMemUtil) == 13 && SensorOf(RawGpuMemUtil) == Some(Gpu)
    ensures Index(RawNvmlGpuTemp) == 15 && SensorOf(RawNvmlGpuTemp) == Some(Gpu)
    ensures Index(RawNvmlGpuPowerRatio) == 16 && SensorOf(RawNvmlGpuPowerRatio) == Some(Gpu)
  {
  }

  method PushNvmlMetrics(config: AgentConfig, before: seq<Metric>) returns (metrics: seq<Metric>)
    requires before == EnabledUpTo(config, 21)
    ensures metrics == EnabledUpTo(config, 25)
  {
    hide IsOn, EnabledUpTo, IsEnabled, Index, SensorOf;
    NvmlFacts();
    metrics := before;
    var gpu := IsOn(config, Gpu);
    metrics := PushRaw(gpu, config, Gpu, RawNvmlGpuUtil, metrics);
    metrics := PushRaw(gpu, config, Gpu, RawGpuMemUtil, metrics);
    metrics := PushRaw(gpu, config, Gpu, RawNvmlGpuTemp, metrics);
    metrics := PushRaw(gpu, config, Gpu, RawNvmlGpuPowerRatio, metrics);
  }

  lemma TegraFacts()
    ensures Index(RawTegraGpuUtil) == 17 && SensorOf(RawTegraGpuUtil) == Some(Tegrastats)
    ensures Index(RawTegraGpuTemp) == 18 && SensorOf(RawTegraGpuTemp) == Some(Tegrastats)
    ensures Index(RawTegraGpuPowerMw) == 19 && SensorOf(RawTegraGpuPowerMw) == Some(Tegrastats)
    ensures Index(RawTegraEmcUtil) == 14 && SensorOf(RawTegraEmcUtil) == Some(Tegrastats)
  {
  }

  method PushTegraMetrics(config: AgentConfig, before: seq<Metric>) returns (metrics: seq<Metric>)
    requires before == EnabledUpTo(config, 25)
    ensures metrics == EnabledUpTo(config, 29)
  {
    hide IsOn, EnabledUpTo, IsEnabled, Index, SensorOf;
    TegraFacts();
    metrics := before;
    var tegrastats := IsOn(config, Tegrastats);
    metrics := PushRaw(tegrastats, config, Tegrastats, RawTegraGpuUtil, metrics);
    metrics := PushRaw(tegrastats, config, Tegrastats, RawTegraGpuTemp, metrics);
    metrics := PushRaw(tegrastats, config, Tegrastats, RawTegraGpuPowerMw, metrics);
    metrics := PushRaw(tegrastats, config, Tegrastats, RawTegraEmcUtil, metrics);
  }

  lemma LoopIndices()
    ensures Index(AgentHeartbeat) == 29
    ensures Index(AgentLoopJitter) == 30
    ensures Index(AgentComputeTime) == 31
    ensures Index(AgentRedisLatency) == 32
  {
  }

  lemma ErrorIndices()
    ensures Index(AgentRedisErrors) == 33
    ensures Index(AgentSensorFailures) == 34
    ensures Index(AgentMissedCycles) == 35
  {
  }

  method PushHealthMetrics(config: AgentConfig, before: seq<Metric>) returns (metrics: seq<Metric>)
    requires before == EnabledUpTo(config, 29)
    ensures metrics == EnabledUpTo(config, 36)
  {
    hide IsOn, EnabledUpTo, IsEnabled, Index, SensorOf;
    LoopIndices();
    ErrorIndices();
    metrics := before;
    metrics := PushHealth(config, AgentHeartbeat, metrics);
    metrics := PushHealth(config, AgentLoopJitter, metrics);
    metrics := PushHealth(config, AgentComputeTime, metrics);
    metrics := PushHealth(config, AgentRedisLatency, metrics);
    metrics := PushHealth(config, AgentRedisErrors, metrics);
    metrics := PushHealth(config, AgentSensorFailures, metrics);
    metrics := PushHealth(config, AgentMissedCycles, metrics);
  }

  method EnabledRedisMetrics(config: AgentConfig) returns (metrics: seq<Metric>)
    ensures metrics == EnabledMetrics(config)
  {
    WholeOrder();
    SelectNothing(EnabledBy(config));
    metrics := PushCoreMetrics(config, []);
    metrics := PushLoadMetrics(config, metrics);
    metrics := PushDeviceMetrics(config, metrics);
    metrics := PushNvmlMetrics(config, metrics);
    metrics := PushTegraMetrics(config, metrics);
    metrics := PushHealthMetrics(config, metrics);
  }

  lemma SelectNothing(keep: Metric -> bool)
    ensures Select([], keep) == []
  {
  }

  /**
   What the switches of a configuration do: each sensor brings its own metrics, health its seven, and the pressures
   and risks are always there.
   */
  lemma {:induction false} SwitchesDecide(config: AgentConfig, m: Metric)
    ensures m in EnabledMetrics(config) <==>
            || m in COMPUTED_METRICS || (m in HEALTH_METRICS && config.publishHealth)
            || exists s: Sensor :: m in MetricsOf(s) && IsOn(config, s)
  {
    hide EnabledMetrics, IsOn, MetricsOf, SensorOf, Index, HEALTH_METRICS, COMPUTED_METRICS;
    EnabledMetricsExactly(config);
    OtherMetrics(m);
    forall s: Sensor
      ensures SensorOf(m) == Some(s) <==> m in MetricsOf(s)
    {
      SensorsOwnMetrics(m, s);
    }
  }

  /** The agent's list contains exactly the metrics whose source is switched on, each once. */
  lemma {:induction false} EnabledMetricsExactly(config: AgentConfig)
    ensures Distinct(EnabledMetrics(config)) && |EnabledMetrics(config)| <= 36
    ensures forall m :: m in EnabledMetrics(config) <==> IsEnabled(config, m)
  {
    hide SinkOrder, AgentOrder, IsEnabled, Select;
    OrdersAreDistinct();
    WholeOrder();
    SelectDistinct(AgentOrder(), EnabledBy(config));
    forall m
      ensures m in EnabledMetrics(config) <==> IsEnabled(config, m)
    {
      SelectKeeps(AgentOrder(), EnabledBy(config), m);
    }
  }

  function Suffixes(ms: seq<Metric>): (names: seq<string>)
    ensures |names| == |ms|
  {
    seq(|ms|, i requires 0 <= i < |ms| => Suffix(ms[i]))
  }

  lemma SuffixesContain(ms: seq<Metric>, m: Metric)
    ensures Suffix(m) in Suffixes(ms) <==> m in ms
  {
    hide Suffix;
    if Suffix(m) in Suffixes(ms) {
      var i :| 0 <= i < |ms| && Suffixes(ms)[i] == Suffix(m);
      SuffixInjective(ms[i], m);
    }
    if m in ms {
      var i :| 0 <= i < |ms| && ms[i] == m;
      assert Suffixes(ms)[i] == Suffix(m);
    }
  }
}
