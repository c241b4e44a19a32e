/**
 From the configuration file to what the agent does: the rate it wakes up at, the sensors it samples and publishes,
 the headroom window of its thermal stage, and the server it dials.
 */
module Deployment {
  import opened Wrappers
  import opened Numeric
  import opened Text
  import opened Config
  import opened ConfigValues
  import opened Sensors
  import opened TickLoop
  import RM = RedisMetrics
  import RP = RedisPayload
  import RS = RedisSession

  /** The settings of a file that loads, and the configuration it loads to. */
  ghost predicate Loads(n: NumberParsers, text: string, settings: Settings, config: AgentConfig) {
    && Load(n, text) == Success(config) && settings == Record([], FileLines(text)).settings
    && ApplyAll(n, DEFAULTS, settings) == Success(config)
  }

  lemma LoadingIsApplying(n: NumberParsers, text: string)
    requires Load(n, text).Success?
    ensures Loads(n, text, Record([], FileLines(text)).settings, Load(n, text).value)
  {
    hide FileLines, LoadFrom, Record, ApplyAll, DEFAULTS;
    LoadMakesRecordedCalls(n, Loader(DEFAULTS, []), FileLines(text));
  }

  /** With a tick rate in its file the agent wakes up at least that often, and one millisecond more would not do. */
  lemma {:induction false} RateReachesAgent(n: NumberParsers, text: string, settings: Settings, config: AgentConfig,
                                            p: Plan, k: nat)
    requires Loads(n, text, settings, config) && p.Valid() && p.tickIntervalMs == config.tickIntervalMs
    requires LastValue(settings, TICK_RATE_HZ).Some?
    ensures n.stoi(LastValue(settings, TICK_RATE_HZ).value).Some?
    ensures var hz, elapsed := n.stoi(LastValue(settings, TICK_RATE_HZ).value).value,
                               RunFor(p, Built(p), k).nextWakeupNs - p.world.startNs;
            elapsed * hz <= k * 1000000000 <= elapsed * hz + k * (1000000 * hz)
  {
    hide Load, Record, FileLines, ApplyAll, DEFAULTS, TICK_RATE_HZ, LastValue, RunFor, KeepsUp;
    LastNumberWins(n, DEFAULTS, settings);
    WakeupsDoNotDrift(p, k);
    WakesOftenEnough(config.tickIntervalMs, n.stoi(LastValue(settings, TICK_RATE_HZ).value).value, k);
  }

  lemma WakesOftenEnough(intervalMs: nat, hz: int, k: nat)
    requires KeepsUp(intervalMs, hz)
    ensures var elapsed := k * (1000000 * intervalMs);
            elapsed * hz <= k * 1000000000 <= elapsed * hz + k * (1000000 * hz)
  {
    var each := 1000000 * (intervalMs * hz);
    assert k * (1000000 * intervalMs) * hz == k * each;
    assert (intervalMs + 1) * hz == intervalMs * hz + hz;
    Scale(k, each, 1000000000);
    Scale(k, 1000000000, each + 1000000 * hz);
    assert k * (each + 1000000 * hz) == k * each + k * (1000000 * hz);
  }

  lemma Scale(k: nat, a: int, b: int)
    requires a <= b
    ensures k * a <= k * b
  {
  }

  /** A switch in the file decides whether its sensor is ever sampled, and whether its metrics are published. */
  lemma {:induction false} SwitchReachesAgent(n: NumberParsers, text: string, settings: Settings, config: AgentConfig,
                                              p: Plan, s: Sensor, ticks: nat)
    requires Loads(n, text, settings, config) && p.Valid() && p.registry == Registry(config)
    requires ticks <= 0x1_0000_0000_0000_0000
    ensures var on := Switched(settings, SENSOR_PREFIX + s.Name(), true);
            && Samples(RunFor(p, Built(p), ticks).dispatched, s) == (if on then CeilDiv(ticks, s.Period()) else 0)
            && (forall m :: m in RM.MetricsOf(s) ==> (m in RM.EnabledMetrics(config) <==> on))
  {
    hide Load, Record, FileLines, ApplyAll, DEFAULTS, SENSOR_PREFIX, Switched, RunFor, Samples, CeilDiv, Registry,
      RM.MetricsOf, RM.EnabledMetrics, RM.SensorOf, RM.IsEnabled, WellRegistered, Enabled;
    LastSettingWins(n, DEFAULTS, settings, s.Name());
    NoSwitches(s.Name());
    RegistryIsWellFormed(config, p);
    SampledCeilTimes(p, ticks, s);
    RM.EnabledMetricsExactly(config);
    forall m | m in RM.MetricsOf(s)
      ensures m in RM.EnabledMetrics(config) <==> IsOn(config, s)
    {
      OwnMetric(config, m, s);
    }
  }

  lemma OwnMetric(config: AgentConfig, m: RM.Metric, s: Sensor)
    requires m in RM.MetricsOf(s)
    ensures RM.IsEnabled(config, m) <==> IsOn(config, s)
  {
    hide RM.SensorOf, RM.MetricsOf, IsOn, RM.Index;
    RM.SensorsOwnMetrics(m, s);
    RM.SensorsAreFirst(m);
  }

  lemma NoSwitches(name: string)
    ensures IsSensorEnabled(DEFAULTS, name)
  {
  }

  /** The window in the file is the one the thermal stage measures headroom against. */
  lemma {:induction false} WindowReachesAgent(n: NumberParsers, text: string, settings: Settings, config: AgentConfig,
                                              exp: real -> real, show: real -> string, script: RS.Script, world: World)
    requires Loads(n, text, settings, config) && LastValue(settings, WARNING_WINDOW).Some?
    ensures n.stof(LastValue(settings, WARNING_WINDOW).value)
         == Some(PlanOf(config, exp, show, script, world).tuning.warningWindow)
  {
    hide FileLines, LoadFrom, Record, ApplyAll, DEFAULTS, LastValue, WARNING_WINDOW, RP.SetupOf, Registry;
    LastNumberWins(n, DEFAULTS, settings);
    LoadedConfigIsInRange(n, text);
  }

  /** The agent dials what the last address of the file says, and gives up after a second. */
  lemma {:induction false} AddressReachesAgent(n: NumberParsers, text: string, settings: Settings, config: AgentConfig)
    requires Loads(n, text, settings, config) && LastValue(settings, REDIS_ADDRESS).Some?
    ensures var address, options := LastValue(settings, REDIS_ADDRESS).value, RP.AgentOptions(config);
            && RS.TimeoutOf(options) == RS.Timeout(1, 0)
            && (NamesSocket(address) && SocketOf(address) != "" ==>
                  RS.AddressOf(options) == RS.UnixSocket(SocketOf(address)))
            && (NamesPort(address) ==>
                  exists port: nat :: n.stoi(PortText(address)) == Some(port)
                                      && RS.AddressOf(options) == RS.Host(HostOf(address), port))
            && (IsBare(address) ==> RS.AddressOf(options) == RS.Host(address, config.redis.port))
  {
    hide Load, Record, FileLines, ApplyAll, LastValue, LastNaming, REDIS_ADDRESS, DEFAULTS, RM.EnabledMetrics, PortText;
    hide NamesSocket, NamesPort, SocketOf, HostOf;
    var address := LastValue(settings, REDIS_ADDRESS).value;
    DefaultPort();
    LastAddressWins(n, DEFAULTS, settings);
    LastPortWins(n, DEFAULTS, settings);
    LastOfAll(settings);
    HostOfBare(address);
    NamingIsOneOf(address);
    NoSocket(address);
  }

  lemma NoSocket(address: string)
    ensures !NamesSocket(address) ==> SocketOf(address) == ""
  {
  }
}
