/**
 The payload from the other side: a subscriber that knows only the names of the metrics finds every value under its
 key, and puts the frame together again from them.
 */
module PayloadReader {
  import opened Wrappers
  import opened Numeric
  import opened SignalFrame
  import opened Text
  import opened Config
  import opened RedisMetrics
  import opened RedisPayload

  /** What a TS.MADD writes under a key: arguments come in threes of key, timestamp and value. */
  datatype Sample = Sample(timestamp: string, value: string)

  function Lookup(args: seq<string>, key: string): Option<Sample> {
    if |args| < 3 then None else
    var n := |args| - 3;
    if args[n] == key then Some(Sample(args[n + 1], args[n + 2])) else Lookup(args[..n], key)
  }

  lemma LookupLast(args: seq<string>, last: seq<string>, key: string)
    requires |last| == 3
    ensures Lookup(args + last, key) == if last[0] == key then Some(Sample(last[1], last[2])) else Lookup(args, key)
  {
    assert (args + last)[..|args + last| - 3] == args;
  }

  lemma {:induction false} LookupAmong(setup: Setup, timestampMs: nat, f: Frame, ms: seq<Metric>, m: Metric)
    ensures Lookup(AllArgs(setup, timestampMs, f, ms), Key(setup, Suffix(m)))
         == if m in ms then Some(Sample(Decimal(timestampMs), setup.show(MetricValue(f, m)))) else None
  {
    hide MetricValue, Suffix, Key, Decimal;
    if ms != [] {
      var init, last := ms[..|ms| - 1], ms[|ms| - 1];
      LookupAmong(setup, timestampMs, f, init, m);
      LookupLast(AllArgs(setup, timestampMs, f, init), MetricArgs(setup, timestampMs, f, last), Key(setup, Suffix(m)));
      assert ms == init + [last];
      if Key(setup, Suffix(last)) == Key(setup, Suffix(m)) {
        KeyInjective(setup, Suffix(last), Suffix(m));
        SuffixInjective(last, m);
      }
    }
  }

  /** Under the key of a metric stand the time of the tick and its value, if the metric is written at all. */
  lemma {:induction false} PayloadLookup(setup: Setup, timestampMs: nat, f: Frame, m: Metric)
    ensures Payload(setup, timestampMs, f) != [] && Payload(setup, timestampMs, f)[0] == "TS.MADD"
    ensures Lookup(Payload(setup, timestampMs, f)[1..], Key(setup, Suffix(m)))
         == if IsWritten(setup, m) then Some(Sample(Decimal(timestampMs), setup.show(MetricValue(f, m)))) else None
  {
    hide MetricValue, Suffix, Key, Decimal, WrittenMetrics, AllArgs, IsWritten;
    WrittenExactly(setup, m);
    LookupAmong(setup, timestampMs, f, WrittenMetrics(setup), m);
    assert Payload(setup, timestampMs, f)[1..] == AllArgs(setup, timestampMs, f, WrittenMetrics(setup));
  }

  /** With the options of the agent: the keys are those of the enabled metrics, all under `edge:node`. */
  lemma {:induction false} AgentPayloadLookup(
    config: AgentConfig, show: real -> string, timestampMs: nat, f: Frame, m: Metric)
    ensures Lookup(Payload(SetupOf(AgentOptions(config), show), timestampMs, f)[1..], "edge:node" + ":" + Suffix(m))
         == if IsEnabled(config, m) then Some(Sample(Decimal(timestampMs), show(MetricValue(f, m)))) else None
  {
    hide MetricValue, Suffix, Decimal, Payload, Lookup, IsEnabled, Suffixes, EnabledMetrics, SinkOrder;
    var setup := SetupOf(AgentOptions(config), show);
    PayloadLookup(setup, timestampMs, f, m);
    AgentEnables(config, show, m);
    HealthSwitch(config, m);
  }

  /** Options that name no metric mean all of them, the health metrics only with their switch. */
  lemma {:induction false} NoNamesMeanAll(options: RedisTsOptions, show: real -> string, m: Metric)
    requires options.enabledMetrics == []
    ensures IsWritten(SetupOf(options, show), m) <==> (m in HEALTH_METRICS ==> options.publishHealth)
  {
    hide Suffix, SinkOrder, Suffixes, HEALTH_METRICS, Index;
    OrdersAreDistinct();
    SuffixesContain(SinkOrder(), m);
    OtherMetrics(m);
  }

  // ------------------------------------------------------------- the frame, put together again

  function AsCount(x: real, limit: nat): (n: nat)
    ensures n <= limit
  {
    if 0.0 <= x && x.Floor <= limit then x.Floor else 0
  }

  function LevelRanked(rank: real): Level {
    if rank < 1.0 then STABLE else if rank < 2.0 then DEGRADED else if rank < 3.0 then UNSTABLE else CRITICAL
  }

  function RawFrom(value: Metric -> real): RawSignals {
    ZERO_RAW.(psi := value(RawPsi), psiMemory := value(RawPsiMemory), psiIo := value(RawPsiIo), cpu := value(RawCpu),
              irq := value(RawIrq), softirqs := value(RawSoftirqs), memory := value(RawMemory),
              thermal := value(RawThermal), cpufreq := value(RawCpufreq),
              cpuThrottleRatio := value(RawCpuThrottleRatio), disk := value(RawDisk), network := value(RawNetwork),
              nvmlGpuUtil := value(RawNvmlGpuUtil), gpuMemUtil := value(RawGpuMemUtil),
              tegraEmcUtil := value(RawTegraEmcUtil), nvmlGpuTemp := value(RawNvmlGpuTemp),
              nvmlGpuPowerRatio := value(RawNvmlGpuPowerRatio), tegraGpuUtil := value(RawTegraGpuUtil),
              tegraGpuTemp := value(RawTegraGpuTemp), tegraGpuPowerMw := value(RawTegraGpuPowerMw))
  }

  function HealthFrom(value: Metric -> real): AgentHealth {
    AgentHealth(AsCount(value(AgentHeartbeat), U64_MAX), value(AgentLoopJitter), value(AgentComputeTime),
                value(AgentRedisLatency), AsCount(value(AgentRedisErrors), 0xFFFF_FFFF),
                AsCount(value(AgentSensorFailures), 0xFFFF_FFFF), AsCount(value(AgentMissedCycles), 0xFFFF_FFFF))
  }

  function FrameFrom(value: Metric -> real): Frame {
    Frame(0, RawFrom(value), value(DerivedSchedulerPressure), value(DerivedMemoryPressure), value(DerivedIoPressure),
          value(DerivedThermalPressure), value(DerivedPowerPressure), value(DerivedLatencyJitter),
          value(RiskRealtimeRisk), value(RiskSaturationRisk), LevelRanked(value(RiskState)), HealthFrom(value))
  }

  /** All of a frame but its clock and the four copies that no metric shows. */
  function Visible(f: Frame): Frame {
    f.(monotonicNs := 0, raw := f.raw.(gpuUtil := 0.0, emcUtil := 0.0, gpuTemp := 0.0, gpuPowerRatio := 0.0))
  }

  lemma RawIsRead(f: Frame, value: Metric -> real)
    requires forall m :: value(m) == MetricValue(f, m)
    ensures RawFrom(value) == Visible(f).raw
  {
    hide MetricValue;
    LoadValues(f);
    KernelValues(f);
    DiskValues(f);
    BoardValues(f);
  }

  lemma HealthIsRead(f: Frame, value: Metric -> real)
    requires forall m :: value(m) == MetricValue(f, m)
    ensures HealthFrom(value) == f.agent
  {
    hide MetricValue;
    LoopValues(f);
    ErrorValues(f);
  }

  /** The values of the metrics are the frame: nothing is lost and nothing is mixed up. */
  lemma {:induction false} FrameIsRead(f: Frame, value: Metric -> real)
    requires forall m :: value(m) == MetricValue(f, m)
    ensures FrameFrom(value) == Visible(f)
  {
    hide MetricValue, RawFrom, HealthFrom;
    RawIsRead(f, value);
    HealthIsRead(f, value);
    PressureValues(f);
    RiskValues(f);
  }

  /** What a subscriber makes of a command: it looks up each metric by its name and reads the number. */
  function ReadValue(setup: Setup, parse: string -> real, args: seq<string>, m: Metric): real {
    var found := Lookup(args, Key(setup, Suffix(m)));
    if found.Some? then parse(found.value.value) else 0.0
  }

  function ReadFrame(setup: Setup, parse: string -> real, args: seq<string>): Frame {
    FrameFrom(m => ReadValue(setup, parse, args, m))
  }

  /** When every metric is written and numbers are read as they were printed, the subscriber has the frame. */
  lemma {:induction false} SubscriberReadsFrame(setup: Setup, parse: string -> real, timestampMs: nat, f: Frame)
    requires forall m :: IsWritten(setup, m)
    requires forall x :: parse(setup.show(x)) == x
    ensures ReadFrame(setup, parse, Payload(setup, timestampMs, f)[1..]) == Visible(f)
  {
    hide MetricValue, Payload, Lookup, IsWritten, Suffix, Key, FrameFrom, Decimal;
    PayloadLookup(setup, timestampMs, f, RiskState);
    var args := Payload(setup, timestampMs, f)[1..];
    var value := m => ReadValue(setup, parse, args, m);
    forall m: Metric
      ensures value(m) == MetricValue(f, m)
    {
      PayloadLookup(setup, timestampMs, f, m);
    }
    FrameIsRead(f, value);
  }
}
