/**
 What one publish sends (`RedisTsSink::publish_impl` and `add_metric_args`): the argument vector of
 TS.MADD, and how it relates to the keys the schema step creates.
 */
module RedisPayload {
  import opened Numeric
  import opened SignalFrame
  import opened Text
  import opened Config
  import opened RedisMetrics

  datatype RedisTsOptions = RedisTsOptions(
    host: string, port: nat, unixSocket: string, password: string, db: int, keyPrefix: string,
    connectTimeoutMs: U32, publishHealth: bool, enabledMetrics: seq<string>)

  /** What the constructor derives from the options; `show` is `std::to_string` of a double. */
  datatype Setup = Setup(options: RedisTsOptions, enabled: seq<string>, show: real -> string)

  function SetupOf(options: RedisTsOptions, show: real -> string): Setup {
    Setup(options, if options.enabledMetrics == [] then Suffixes(SinkOrder()) else options.enabledMetrics, show)
  }

  function Key(setup: Setup, suffix: string): string {
    setup.options.keyPrefix + ":" + suffix
  }

  /** Health metrics need both their name in the set and the health switch. */
  predicate IsWritten(setup: Setup, m: Metric) {
    Suffix(m) in setup.enabled && (m.IsHealth() ==> setup.options.publishHealth)
  }

  function WrittenBy(setup: Setup): Metric -> bool {
    m => IsWritten(setup, m)
  }

  /** The metrics one publish writes, in order. */
  function WrittenMetrics(setup: Setup): seq<Metric> {
    Select(SinkOrder(), WrittenBy(setup))
  }

  function MetricArgs(setup: Setup, timestampMs: nat, f: Frame, m: Metric): (args: seq<string>)
    ensures |args| == 3
  {
    [Key(setup, Suffix(m)), Decimal(timestampMs), setup.show(MetricValue(f, m))]
  }

  function AllArgs(setup: Setup, timestampMs: nat, f: Frame, ms: seq<Metric>): seq<string> {
    if ms == [] then [] else
    AllArgs(setup, timestampMs, f, ms[..|ms| - 1]) + MetricArgs(setup, timestampMs, f, ms[|ms| - 1])
  }

  function Payload(setup: Setup, timestampMs: nat, f: Frame): seq<string> {
    ["TS.MADD"] + AllArgs(setup, timestampMs, f, WrittenMetrics(setup))
  }

  /** Metric by metric: key, timestamp, value; one timestamp for all. */
  lemma {:induction false} ArgsAt(setup: Setup, timestampMs: nat, f: Frame, ms: seq<Metric>, i: nat)
    requires i < |ms|
    ensures |AllArgs(setup, timestampMs, f, ms)| == 3 * |ms|
    ensures AllArgs(setup, timestampMs, f, ms)[3 * i..3 * i + 3] == MetricArgs(setup, timestampMs, f, ms[i])
  {
    hide MetricArgs;
    var n := |ms| - 1;
    if n > 0 {
      ArgsAt(setup, timestampMs, f, ms[..n], if i < n then i else 0);
    } else {
      assert AllArgs(setup, timestampMs, f, ms[..0]) == [];
    }
  }

  lemma {:induction false} ArgCount(setup: Setup, timestampMs: nat, f: Frame, ms: seq<Metric>)
    ensures |AllArgs(setup, timestampMs, f, ms)| == 3 * |ms|
  {
    hide MetricArgs;
    if ms != [] {
      ArgCount(setup, timestampMs, f, ms[..|ms| - 1]);
    }
  }

  /** `reserve_command_buffers`: room for 36 metrics. */
  const MAX_COMMAND_ARGS := 109

  /** For any options the vector has length 1 + 3k for the k metrics written, within what was reserved. */
  lemma {:induction false} PayloadFits(setup: Setup, timestampMs: nat, f: Frame)
    ensures |Payload(setup, timestampMs, f)| == 1 + 3 * |WrittenMetrics(setup)| <= MAX_COMMAND_ARGS
    ensures Distinct(WrittenMetrics(setup))
  {
    hide Select, SinkOrder, AllArgs;
    OrdersAreDistinct();
    SinkOrderLength();
    SelectDistinct(SinkOrder(), WrittenBy(setup));
    ArgCount(setup, timestampMs, f, WrittenMetrics(setup));
  }

  lemma SinkOrderLength()
    ensures |SinkOrder()| == 36
  {
  }

  // ------------------------------------------------------- schema and payload agree

  /** The keys TS.CREATE is asked for, and the keys TS.MADD writes. */
  function CreatedKeys(setup: Setup): set<string> {
    set s | s in setup.enabled :: Key(setup, s)
  }

  function WrittenKeys(setup: Setup): set<string> {
    set m | m in WrittenMetrics(setup) :: Key(setup, Suffix(m))
  }

  lemma KeyInjective(setup: Setup, s: string, t: string)
    requires Key(setup, s) == Key(setup, t)
    ensures s == t
  {
    var n := |setup.options.keyPrefix| + 1;
    assert Key(setup, s)[n..] == s && Key(setup, t)[n..] == t;
  }

  lemma {:induction false} WrittenExactly(setup: Setup, m: Metric)
    ensures m in WrittenMetrics(setup) <==> IsWritten(setup, m)
  {
    hide Select, SinkOrder, IsWritten;
    OrdersAreDistinct();
    SelectKeeps(SinkOrder(), WrittenBy(setup), m);
  }

  ghost predicate OnlyKnown(setup: Setup) {
    forall s :: s in setup.enabled ==> exists m :: Suffix(m) == s
  }

  ghost predicate NoUnpublishedHealth(setup: Setup) {
    forall m: Metric :: m.IsHealth() && Suffix(m) in setup.enabled ==> setup.options.publishHealth
  }

  /**
   Exactly when schema and payload agree, for any options: every created key is a metric the sink
   knows, and health metrics are not enabled by name while the health switch is off.
   */
  lemma {:induction false} KeysAgreeExactly(setup: Setup)
    ensures WrittenKeys(setup) <= CreatedKeys(setup)
    ensures CreatedKeys(setup) == WrittenKeys(setup) <==> OnlyKnown(setup) && NoUnpublishedHealth(setup)
  {
    hide Suffix, Key, WrittenMetrics, Index;
    forall m
      ensures m in WrittenMetrics(setup) <==> IsWritten(setup, m)
    {
      WrittenExactly(setup, m);
    }
    assert WrittenKeys(setup) <= CreatedKeys(setup);
    if OnlyKnown(setup) && NoUnpublishedHealth(setup) {
      forall s | s in setup.enabled
        ensures Key(setup, s) in WrittenKeys(setup)
      {
        var m :| Suffix(m) == s;
        assert m in WrittenMetrics(setup);
      }
    }
    if CreatedKeys(setup) == WrittenKeys(setup) {
      forall s | s in setup.enabled
        ensures exists m :: Suffix(m) == s && m in WrittenMetrics(setup)
      {
        CreatedIsWritten(setup, s);
      }
      forall m: Metric | m.IsHealth() && Suffix(m) in setup.enabled
        ensures setup.options.publishHealth
      {
        var k :| Suffix(k) == Suffix(m) && k in WrittenMetrics(setup);
        SuffixInjective(k, m);
      }
    }
  }

  lemma CreatedIsWritten(setup: Setup, s: string)
    requires s in setup.enabled && CreatedKeys(setup) <= WrittenKeys(setup)
    ensures exists m :: Suffix(m) == s && m in WrittenMetrics(setup)
  {
    hide Suffix, Key, WrittenMetrics;
    assert Key(setup, s) in CreatedKeys(setup);
    var m :| m in WrittenMetrics(setup) && Key(setup, Suffix(m)) == Key(setup, s);
    KeyInjective(setup, Suffix(m), s);
  }

  /** The options the agent passes to its sink; the prefix and the session settings keep their defaults. */
  function AgentOptions(config: AgentConfig): RedisTsOptions {
    RedisTsOptions(config.redis.host, config.redis.port, config.redis.unixSocket, "", 0, "edge:node",
                   1000, config.publishHealth, Suffixes(EnabledMetrics(config)))
  }

  lemma StateAlwaysEnabled(config: AgentConfig)
    ensures EnabledMetrics(config) != []
  {
    hide EnabledMetrics;
    EnabledMetricsExactly(config);
    assert IsEnabled(config, RiskState);
  }

  lemma AgentEnables(config: AgentConfig, show: real -> string, m: Metric)
    ensures SetupOf(AgentOptions(config), show).enabled == Suffixes(EnabledMetrics(config))
    ensures Suffix(m) in Suffixes(EnabledMetrics(config)) <==> IsEnabled(config, m)
  {
    hide Suffix, EnabledMetrics, IsEnabled, Suffixes;
    StateAlwaysEnabled(config);
    EnabledMetricsExactly(config);
    SuffixesContain(EnabledMetrics(config), m);
  }

  /**
   For every agent configuration the keys created are exactly the keys each publish writes, each key
   occurs once, and a payload has 1 + 3k arguments for the k metrics enabled.
   */
  lemma {:induction false} AgentSchemaMatchesPayload(
    config: AgentConfig, show: real -> string, timestampMs: nat, f: Frame)
    ensures var setup := SetupOf(AgentOptions(config), show);
            && CreatedKeys(setup) == WrittenKeys(setup)
            && Distinct(WrittenMetrics(setup)) && Distinct(EnabledMetrics(config))
            && (forall m :: m in WrittenMetrics(setup) <==> m in EnabledMetrics(config))
            && |Payload(setup, timestampMs, f)| == 1 + 3 * |setup.enabled|
  {
    hide Suffix, EnabledMetrics, WrittenMetrics, IsEnabled, Payload, Index;
    var setup := SetupOf(AgentOptions(config), show);
    EnabledMetricsExactly(config);
    PayloadFits(setup, timestampMs, f);
    forall m
      ensures Suffix(m) in setup.enabled <==> m in EnabledMetrics(config)
      ensures m in WrittenMetrics(setup) <==> m in EnabledMetrics(config)
    {
      AgentEnables(config, show, m);
      HealthSwitch(config, m);
      WrittenExactly(setup, m);
    }
    AgentEnables(config, show, RiskState);
    SameElementsSameLength(WrittenMetrics(setup), EnabledMetrics(config));
    KeysAgreeExactly(setup);
    assert OnlyKnown(setup) by {
      forall s | s in setup.enabled
        ensures exists m :: Suffix(m) == s
      {
        var i :| 0 <= i < |setup.enabled| && setup.enabled[i] == s;
        assert Suffix(EnabledMetrics(config)[i]) == s;
      }
    }
    assert NoUnpublishedHealth(setup) by {
      forall m: Metric | m.IsHealth() && Suffix(m) in setup.enabled
        ensures setup.options.publishHealth
      {
        HealthSwitch(config, m);
      }
    }
  }

  lemma HealthSwitch(config: AgentConfig, m: Metric)
    ensures m.IsHealth() ==> IsEnabled(config, m) == config.publishHealth
  {
  }
}
