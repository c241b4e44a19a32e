/**
 The Redis sink object (`src/sinks/redis_ts.cpp`): each method is proved to take the step that
 `RedisSession` describes, for every script of answers.
 */
module RedisSink {
  import opened Wrappers
  import opened Numeric
  import opened SignalFrame
  import opened Text
  import opened RedisMetrics
  import opened RedisPayload
  import S = RedisSession

  // --------------------------------------------------------- the command buffer

  /** The buffer after the first `k` metrics of the sink's order have been considered. */
  function PayloadUpTo(setup: Setup, timestampMs: nat, f: Frame, k: nat): seq<string>
    requires k <= 36
  {
    ["TS.MADD"] + AllArgs(setup, timestampMs, f, Select(SinkOrder()[..k], WrittenBy(setup)))
  }

  lemma PayloadStarts(setup: Setup, timestampMs: nat, f: Frame)
    ensures PayloadUpTo(setup, timestampMs, f, 0) == ["TS.MADD"]
    ensures PayloadUpTo(setup, timestampMs, f, 36) == Payload(setup, timestampMs, f)
  {
    assert SinkOrder()[..36] == SinkOrder();
    assert Select(SinkOrder()[..0], WrittenBy(setup)) == [];
  }

  lemma ArgsSnoc(setup: Setup, timestampMs: nat, f: Frame, ms: seq<Metric>, m: Metric)
    ensures AllArgs(setup, timestampMs, f, ms + [m])
         == AllArgs(setup, timestampMs, f, ms) + MetricArgs(setup, timestampMs, f, m)
  {
    assert (ms + [m])[..|ms|] == ms;
  }

  lemma PayloadExtends(setup: Setup, timestampMs: nat, f: Frame, m: Metric)
    ensures PayloadUpTo(setup, timestampMs, f, Index(m) + 1)
         == PayloadUpTo(setup, timestampMs, f, Index(m))
            + if IsWritten(setup, m) then MetricArgs(setup, timestampMs, f, m) else []
  {
    hide Index, SinkMetric, IsWritten, Select, AllArgs, MetricArgs;
    var k := Index(m);
    SinkOrderIsIndexed(m);
    assert SinkOrder()[..k + 1] == SinkOrder()[..k] + [m];
    SelectSnoc(SinkOrder()[..k], m, WrittenBy(setup));
    var before := Select(SinkOrder()[..k], WrittenBy(setup));
    ArgsSnoc(setup, timestampMs, f, before, m);
    assert before + [] == before;
  }

  /** With the health switch off nothing after the risk metrics is written. */
  lemma {:induction false} NoHealthArgs(setup: Setup, timestampMs: nat, f: Frame, k: nat)
    requires !setup.options.publishHealth && 29 <= k <= 36
    ensures PayloadUpTo(setup, timestampMs, f, k) == PayloadUpTo(setup, timestampMs, f, 29)
  {
    hide PayloadUpTo, Index, SinkMetric;
    if k > 29 {
      NoHealthArgs(setup, timestampMs, f, k - 1);
      SinkOrderCovers(k - 1);
      PayloadExtends(setup, timestampMs, f, SinkMetric(k - 1));
    }
  }

  class RedisTsSink {
    const setup: Setup
    /** The outside world: the answers still to come start at `asked`. */
    const script: S.Script
    var asked: nat
    var context: Option<bool>
    var schemaReady: bool
    var timeseriesAvailable: bool
    var commandArgs: seq<string>
    var commandArgv: seq<string>
    var commandArgvLen: seq<nat>
    ghost var log: seq<S.Event>

    ghost function State(): S.Session
      reads this
    {
      S.Session(context, schemaReady, timeseriesAvailable, asked, log)
    }

    constructor (options: RedisTsOptions, show: real -> string, script: S.Script)
      ensures setup == SetupOf(options, show) && this.script == script && State() == S.NEW_SESSION
    {
      setup := SetupOf(options, show);
      this.script := script;
      asked, context, schemaReady, timeseriesAvailable, log := 0, None, false, true, [];
      commandArgs, commandArgv, commandArgvLen := [], [], [];
    }

    method Authenticate() returns (ok: bool)
      modifies this`asked, this`context, this`log
      ensures S.Outcome(State(), ok) == S.Authenticate(setup, script, old(State()))
    {
      if setup.options.password == "" {
        return true;
      }
      var a := script(asked);
      ok := a.reply.Accepted?;
      context, asked, log := Some(a.err), asked + 1, log + [S.Auth(ok)];
    }

    method SelectDb() returns (ok: bool)
      modifies this`asked, this`context, this`log
      ensures S.Outcome(State(), ok) == S.ChooseDb(setup, script, old(State()))
    {
      if setup.options.db == 0 {
        return true;
      }
      var a := script(asked);
      ok := a.reply.Accepted?;
      context, asked, log := Some(a.err), asked + 1, log + [S.SelectDb(ok)];
    }

    method EnsureSchema() returns (ok: bool)
      modifies this`asked, this`context, this`log, this`schemaReady, this`timeseriesAvailable
      ensures S.Outcome(State(), ok) == S.EnsureSchema(setup, script, old(State()))
    {
      if schemaReady {
        return true;
      }
      hide S.CreationOf, S.Contains, Key;
      var i := 0;
      while i < |setup.enabled|
        invariant i <= |setup.enabled|
        invariant S.CreateFrom(setup, script, State(), i) == S.EnsureSchema(setup, script, old(State()))
      {
        var key := Key(setup, setup.enabled[i]);
        var a := script(asked);
        var outcome := S.CreationOf(a.reply);
        context, asked, log := Some(a.err), asked + 1, log + [S.Create(key, outcome)];
        if outcome == S.UnknownCommand {
          timeseriesAvailable := false;
          return false;
        }
        if outcome != S.Created {
          return false;
        }
        i := i + 1;
      }
      schemaReady := true;
      return true;
    }

    method Reconnect() returns (ok: bool)
      modifies this`asked, this`context, this`log, this`schemaReady, this`timeseriesAvailable
      ensures S.Outcome(State(), ok) == S.Reconnect(setup, script, old(State()))
    {
      hide S.CreateFrom, S.EnsureSchema, S.Authenticate, S.ChooseDb;
      context := None;
      var address :=
        if setup.options.unixSocket != "" then S.UnixSocket(setup.options.unixSocket)
        else S.Host(setup.options.host, setup.options.port);
      var timeout := S.Timeout(setup.options.connectTimeoutMs / 1000, setup.options.connectTimeoutMs % 1000 * 1000);
      var a := script(asked);
      asked, log := asked + 1, log + [S.Connect(address, timeout, a.connected)];
      if !a.connected {
        return false;
      }
      context := Some(false);
      var authenticated := Authenticate();
      if !authenticated {
        context := None;
        return false;
      }
      var selected := SelectDb();
      if !selected {
        context := None;
        return false;
      }
      var created := EnsureSchema();
      if !created {
        context := None;
        return false;
      }
      return true;
    }

    method EnsureConnected() returns (ok: bool)
      modifies this`asked, this`context, this`log, this`schemaReady, this`timeseriesAvailable
      ensures S.Outcome(State(), ok) == S.EnsureConnected(setup, script, old(State()))
    {
      hide S.Reconnect;
      if !timeseriesAvailable {
        return false;
      }
      if context == Some(false) {
        return true;
      }
      ok := Reconnect();
    }

    method CheckConnectivity() returns (ok: bool)
      modifies this`asked, this`context, this`log, this`schemaReady, this`timeseriesAvailable
      ensures State() == S.Perform(setup, script, old(State()), S.CheckConnectivity)
    {
      ok := EnsureConnected();
    }

    /** The lambda `append_metric` together with `add_metric_args`. */
    method AppendMetric(m: Metric, value: real, timestampMs: U64, ghost f: Frame)
      requires value == MetricValue(f, m) && commandArgs == PayloadUpTo(setup, timestampMs, f, Index(m))
      requires m.IsHealth() ==> setup.options.publishHealth
      modifies this`commandArgs
      ensures commandArgs == PayloadUpTo(setup, timestampMs, f, Index(m) + 1)
    {
      hide PayloadUpTo, MetricValue, Suffix, Index;
      PayloadExtends(setup, timestampMs, f, m);
      if Suffix(m) !in setup.enabled {
        return;
      }
      commandArgs := commandArgs + [Key(setup, Suffix(m)), Decimal(timestampMs), setup.show(value)];
    }

    method AppendLoadMetrics(frame: SignalFrame, timestampMs: U64, ghost f: Frame)
      requires f == frame.Value() && commandArgs == PayloadUpTo(setup, timestampMs, f, 0)
      modifies this`commandArgs
      ensures commandArgs == PayloadUpTo(setup, timestampMs, f, 10)
    {
      hide PayloadUpTo, IsWritten, Index, SensorOf, MetricValue;
      LoadValues(f);
      KernelValues(f);
      CpuFacts();
      KernelFacts();
      DeviceFacts();
      AppendMetric(RawPsi, frame.raw.psi, timestampMs, f);
      AppendMetric(RawPsiMemory, frame.raw.psiMemory, timestampMs, f);
      AppendMetric(RawPsiIo, frame.raw.psiIo, timestampMs, f);
      AppendMetric(RawCpu, frame.raw.cpu, timestampMs, f);
      AppendMetric(RawIrq, frame.raw.irq, timestampMs, f);
      AppendMetric(RawSoftirqs, frame.raw.softirqs, timestampMs, f);
      AppendMetric(RawMemory, frame.raw.memory, timestampMs, f);
      AppendMetric(RawThermal, frame.raw.thermal, timestampMs, f);
      AppendMetric(RawCpufreq, frame.raw.cpufreq, timestampMs, f);
      AppendMetric(RawCpuThrottleRatio, frame.raw.cpuThrottleRatio, timestampMs, f);
    }

    method AppendDeviceMetrics(frame: SignalFrame, timestampMs: U64, ghost f: Frame)
      requires f == frame.Value() && commandArgs == PayloadUpTo(setup, timestampMs, f, 10)
      modifies this`commandArgs
      ensures commandArgs == PayloadUpTo(setup, timestampMs, f, 20)
    {
      hide PayloadUpTo, IsWritten, Index, SensorOf, MetricValue;
      DiskValues(f);
      BoardValues(f);
      DeviceFacts();
      NetworkFacts();
      NvmlFacts();
      TegraFacts();
      AppendMetric(RawDisk, frame.raw.disk, timestampMs, f);
      AppendMetric(RawNetwork, frame.raw.network, timestampMs, f);
      AppendMetric(RawNvmlGpuUtil, frame.raw.nvmlGpuUtil, timestampMs, f);
      AppendMetric(RawGpuMemUtil, frame.raw.gpuMemUtil, timestampMs, f);
      AppendMetric(RawTegraEmcUtil, frame.raw.tegraEmcUtil, timestampMs, f);
      AppendMetric(RawNvmlGpuTemp, frame.raw.nvmlGpuTemp, timestampMs, f);
      AppendMetric(RawNvmlGpuPowerRatio, frame.raw.nvmlGpuPowerRatio, timestampMs, f);
      AppendMetric(RawTegraGpuUtil, frame.raw.tegraGpuUtil, timestampMs, f);
      AppendMetric(RawTegraGpuTemp, frame.raw.tegraGpuTemp, timestampMs, f);
      AppendMetric(RawTegraGpuPowerMw, frame.raw.tegraGpuPowerMw, timestampMs, f);
    }

    method AppendDerivedMetrics(frame: SignalFrame, timestampMs: U64, ghost f: Frame)
      requires f == frame.Value() && commandArgs == PayloadUpTo(setup, timestampMs, f, 20)
      modifies this`commandArgs
      ensures commandArgs == PayloadUpTo(setup, timestampMs, f, 29)
    {
      hide PayloadUpTo, IsWritten, Index, SensorOf, MetricValue;
      PressureValues(f);
      RiskValues(f);
      PressureIndices();
      RiskIndices();
      AppendMetric(DerivedSchedulerPressure, frame.schedulerPressure, timestampMs, f);
      AppendMetric(DerivedMemoryPressure, frame.memoryPressure, timestampMs, f);
      AppendMetric(DerivedIoPressure, frame.ioPressure, timestampMs, f);
      AppendMetric(DerivedThermalPressure, frame.thermalPressure, timestampMs, f);
      AppendMetric(DerivedPowerPressure, frame.powerPressure, timestampMs, f);
      AppendMetric(DerivedLatencyJitter, frame.latencyJitter, timestampMs, f);
      AppendMetric(RiskRealtimeRisk, frame.realtimeRisk, timestampMs, f);
      AppendMetric(RiskSaturationRisk, frame.saturationRisk, timestampMs, f);
      AppendMetric(RiskState, frame.state.Rank() as real, timestampMs, f);
    }

    method AppendHealthMetrics(frame: SignalFrame, timestampMs: U64, ghost f: Frame)
      requires f == frame.Value() && commandArgs == PayloadUpTo(setup, timestampMs, f, 29)
      requires setup.options.publishHealth
      modifies this`commandArgs
      ensures commandArgs == PayloadUpTo(setup, timestampMs, f, 36)
    {
      hide PayloadUpTo, IsWritten, Index, SensorOf, MetricValue;
      LoopValues(f);
      ErrorValues(f);
      LoopIndices();
      ErrorIndices();
      AppendMetric(AgentHeartbeat, frame.agent.heartbeatMs as real, timestampMs, f);
      AppendMetric(AgentLoopJitter, frame.agent.loopJitterMs, timestampMs, f);
      AppendMetric(AgentComputeTime, frame.agent.computeTimeMs, timestampMs, f);
      AppendMetric(AgentRedisLatency, frame.agent.redisLatencyMs, timestampMs, f);
      AppendMetric(AgentRedisErrors, frame.agent.redisErrors as real, timestampMs, f);
      AppendMetric(AgentSensorFailures, frame.agent.sensorFailures as real, timestampMs, f);
      AppendMetric(AgentMissedCycles, frame.agent.missedCycles as real, timestampMs, f);
    }

    /** The loop that mirrors the arguments, text and length, for the client library. */
    method MirrorArgs()
      requires commandArgv == [] && commandArgvLen == []
      modifies this`commandArgv, this`commandArgvLen
      ensures commandArgv == commandArgs && |commandArgvLen| == |commandArgs|
      ensures forall i :: 0 <= i < |commandArgs| ==> commandArgvLen[i] == |commandArgs[i]|
    {
      var i := 0;
      while i < |commandArgs|
        invariant i <= |commandArgs|
        invariant commandArgv == commandArgs[..i] && |commandArgvLen| == i
        invariant forall j :: 0 <= j < i ==> commandArgvLen[j] == |commandArgs[j]|
      {
        commandArgv := commandArgv + [commandArgs[i]];
        commandArgvLen := commandArgvLen + [|commandArgs[i]|];
        i := i + 1;
      }
    }

    /** Everything up to the call: the arguments of the command, and their mirror. */
    method BuildCommand(frame: SignalFrame, timestampMs: U64, ghost f: Frame)
      requires f == frame.Value()
      modifies this`commandArgs, this`commandArgv, this`commandArgvLen
      ensures commandArgv == Payload(setup, timestampMs, f) && |commandArgv| <= MAX_COMMAND_ARGS
    {
      hide PayloadUpTo, Payload;
      commandArgs, commandArgv, commandArgvLen := ["TS.MADD"], [], [];
      PayloadStarts(setup, timestampMs, f);
      AppendLoadMetrics(frame, timestampMs, f);
      AppendDeviceMetrics(frame, timestampMs, f);
      AppendDerivedMetrics(frame, timestampMs, f);
      if setup.options.publishHealth {
        AppendHealthMetrics(frame, timestampMs, f);
      } else {
        NoHealthArgs(setup, timestampMs, f, 36);
      }
      PayloadFits(setup, timestampMs, f);
      MirrorArgs();
    }

    method PublishImpl(frame: SignalFrame) returns (ok: bool)
      modifies this`asked, this`context, this`log, this`commandArgs, this`commandArgv, this`commandArgvLen, frame`agent
      ensures S.Publication(State(), frame.Value(), ok)
           == S.PublishOnce(setup, script, old(State()), old(frame.Value()))
      ensures |commandArgv| <= MAX_COMMAND_ARGS
    {
      hide Payload;
      var a := script(asked);
      BuildCommand(frame, a.nowMs, frame.Value());
      ok := a.reply.Accepted?;
      context, asked, log := Some(a.err), asked + 1, log + [S.Madd(commandArgv, ok)];
      frame.agent := frame.agent.(redisLatencyMs := a.latencyMs);
    }

    method Publish(frame: SignalFrame) returns (ok: bool)
      modifies this, frame`agent
      ensures S.Publication(State(), frame.Value(), ok) == S.Publish(setup, script, old(State()), old(frame.Value()))
    {
      hide S.EnsureConnected, S.Reconnect, S.PublishOnce;
      var connected := EnsureConnected();
      if !connected {
        return false;
      }
      var published := PublishImpl(frame);
      if published {
        return true;
      }
      var again := Reconnect();
      if !again {
        return false;
      }
      ok := PublishImpl(frame);
    }
  }
}
