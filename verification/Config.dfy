/** The indentation-based configuration loader (`src/core/config.cpp`). */
module Config {
  import opened Wrappers
  import opened Numeric
  import opened Text

  datatype RedisConfig = RedisConfig(host: string, port: nat, unixSocket: string, enabled: bool)

  datatype AgentConfig = AgentConfig(
    tickIntervalMs: nat, thermalThrottleTempC: real, thermalPressureWarningWindowC: real, gpuDeviceIndex: U32,
    publishHealth: bool, stdoutDebug: bool, redis: RedisConfig, sensorEnabled: map<string, bool>)

  const DEFAULTS := AgentConfig(100, 85.0, 30.0, 0, true, true, RedisConfig("127.0.0.1", 6379, "", false), map[])

  /** `HeaderTooDeep` stands for the input on which the source indexes past its section stack. */
  datatype ConfigError = CannotOpen | NotANumber | OutOfRange | HeaderTooDeep

  /** `std::stoi`, `std::stoll` and `std::stof`; they throw on text that is no number of their range. */
  datatype NumberParsers = NumberParsers(
    stoi: string -> Option<int>, stoll: string -> Option<int>, stof: string -> Option<real>)

  // -------------------------------------------------------------- values and keys

  function TrimRight(s: string): string {
    if s != "" && IsSpace(s[|s| - 1]) then TrimRight(s[..|s| - 1]) else s
  }

  function Trim(s: string): string {
    TrimRight(TrimLeft(s))
  }

  function ToLower(s: string): string {
    seq(|s|, i requires 0 <= i < |s| => if 'A' <= s[i] <= 'Z' then s[i] - 'A' + 'a' else s[i])
  }

  function ParseBool(value: string): bool {
    var lower := ToLower(value);
    lower == "true" || lower == "yes" || lower == "on" || lower == "1"
  }

  function Number<T>(parsed: Option<T>): Result<T, ConfigError> {
    if parsed.Some? then Success(parsed.value) else Failure(NotANumber)
  }

  const TICK_RATE_HZ := "tick_rate_hz"
  const THROTTLE_TEMP := "thermal_throttle_temp_c"
  const WARNING_WINDOW := "thermal_pressure_warning_window_c"
  const GPU_DEVICE_INDEX := "gpu.device_index"
  const PUBLISH_HEALTH := "agent.publish_health"
  const STDOUT_DEBUG := "agent.stdout_debug"
  const REDIS_ADDRESS := "redis.address"
  const SENSOR_PREFIX := "sensors."

  function ApplyRedisAddress(n: NumberParsers, redis: RedisConfig, value: string): Result<RedisConfig, ConfigError> {
    var enabled := value != "";
    if "unix://" <= value then Success(RedisConfig("", 0, value[7..], enabled))
    else if value != "" && value[0] == '/' then Success(RedisConfig("", 0, value, enabled))
    else
      var split := IndexOf(value, ':');
      if split == |value| then Success(RedisConfig(value, redis.port, "", enabled)) else
      var port :- Number(n.stoi(value[split + 1..]));
      if port <= 0 || port > 65535 then Failure(OutOfRange)
      else Success(RedisConfig(value[..split], port, "", enabled))
  }

  /** `apply_key_value`; an exception abandons the whole configuration. */
  function ApplyKeyValue(n: NumberParsers, config: AgentConfig, key: string, value: string)
    : Result<AgentConfig, ConfigError>
  {
    if key == TICK_RATE_HZ then
      var hz :- Number(n.stoi(value));
      if hz <= 0 || hz > 1000 then Failure(OutOfRange) else Success(config.(tickIntervalMs := 1000 / hz))
    else if key == THROTTLE_TEMP then
      var temp :- Number(n.stof(value));
      Success(config.(thermalThrottleTempC := temp))
    else if key == WARNING_WINDOW then
      var window :- Number(n.stof(value));
      if window <= 0.0 then Failure(OutOfRange) else Success(config.(thermalPressureWarningWindowC := window))
    else if key == GPU_DEVICE_INDEX then
      var index :- Number(n.stoll(value));
      if index < 0 then Failure(OutOfRange) else Success(config.(gpuDeviceIndex := index % 0x1_0000_0000))
    else if key == PUBLISH_HEALTH then Success(config.(publishHealth := ParseBool(value)))
    else if key == STDOUT_DEBUG then Success(config.(stdoutDebug := ParseBool(value)))
    else if key == REDIS_ADDRESS then
      var redis :- ApplyRedisAddress(n, config.redis, value);
      Success(config.(redis := redis))
    else if SENSOR_PREFIX <= key then
      Success(config.(sensorEnabled := config.sensorEnabled[key[|SENSOR_PREFIX|..] := ParseBool(value)]))
    else Success(config)
  }

  // ---------------------------------------------------------------------- lines

  datatype Entry = Nothing | Header(depth: nat, name: string) | Setting(depth: nat, name: string, value: string)

  function Uncommented(line: string): string {
    line[..IndexOf(line, '#')]
  }

  function LeadingSpaces(line: string): (n: nat)
    ensures n <= |line|
  {
    if line != "" && line[0] == ' ' then 1 + LeadingSpaces(line[1..]) else 0
  }

  /** What a line says, whatever came before it. */
  function Classify(line: string): Entry {
    var stripped := Trim(Uncommented(line));
    var colon := IndexOf(stripped, ':');
    if colon == |stripped| then Nothing else
    var depth, name, value :=
      LeadingSpaces(Uncommented(line)) / 2, Trim(stripped[..colon]), Trim(stripped[colon + 1..]);
    if value == "" then Header(depth, name) else Setting(depth, name, value)
  }

  function CloseTo(sections: seq<string>, depth: nat): seq<string> {
    if |sections| > depth then sections[..depth] else sections
  }

  /** The open sections as the prefix of a dotted key; empty names are skipped. */
  function Path(sections: seq<string>): string {
    if sections == [] then "" else
    var last := sections[|sections| - 1];
    Path(sections[..|sections| - 1]) + if last == "" then "" else last + "."
  }

  datatype Loader = Loader(config: AgentConfig, sections: seq<string>)

  function Process(n: NumberParsers, s: Loader, entry: Entry): Result<Loader, ConfigError> {
    match entry
    case Nothing => Success(s)
    case Header(depth, name) =>
      var open := CloseTo(s.sections, depth);
      if |open| == depth then Success(s.(sections := open + [name])) else Failure(HeaderTooDeep)
    case Setting(depth, name, value) =>
      var open := CloseTo(s.sections, depth);
      var config :- ApplyKeyValue(n, s.config, Path(open) + name, value);
      Success(Loader(config, open))
  }

  function LoadFrom(n: NumberParsers, s: Loader, lines: seq<string>): Result<Loader, ConfigError>
    decreases |lines|
  {
    if lines == [] then Success(s) else
    var next :- Process(n, s, Classify(lines[0]));
    LoadFrom(n, next, lines[1..])
  }

  // ------------------------------------------------------- the calls a file asks for

  type Settings = seq<(string, string)>

  /** The `apply_key_value` call one line asks for, given the sections open before it. */
  function Calls(sections: seq<string>, entry: Entry): Settings {
    match entry
    case Setting(depth, name, value) => [(Path(CloseTo(sections, depth)) + name, value)]
    case _ => []
  }

  /** The sections open after a line; a header must not be deeper than the sections open before it. */
  function OpenAfter(sections: seq<string>, entry: Entry): seq<string> {
    match entry
    case Nothing => sections
    case Header(depth, name) => CloseTo(sections, depth) + [name]
    case Setting(depth, _, _) => CloseTo(sections, depth)
  }

  predicate TooDeep(sections: seq<string>, entry: Entry) {
    entry.Header? && |sections| < entry.depth
  }

  /** All the calls a list of lines asks for, up to the first header that is too deep, if there is one. */
  datatype Recorded = Recorded(settings: Settings, sections: seq<string>, tooDeep: bool)

  function Record(sections: seq<string>, lines: seq<string>): Recorded
    decreases |lines|
  {
    if lines == [] then Recorded([], sections, false) else
    var entry := Classify(lines[0]);
    if TooDeep(sections, entry) then Recorded([], sections, true) else
    var rest := Record(OpenAfter(sections, entry), lines[1..]);
    rest.(settings := Calls(sections, entry) + rest.settings)
  }

  function ApplyAll(n: NumberParsers, config: AgentConfig, settings: Settings): Result<AgentConfig, ConfigError>
    decreases |settings|
  {
    if settings == [] then Success(config) else
    var next :- ApplyKeyValue(n, config, settings[0].0, settings[0].1);
    ApplyAll(n, next, settings[1..])
  }

  /** The calls that are made when the first one that fails is the last. */
  function Attempted(n: NumberParsers, config: AgentConfig, settings: Settings): Settings
    decreases |settings|
  {
    if settings == [] then [] else
    var next := ApplyKeyValue(n, config, settings[0].0, settings[0].1);
    [settings[0]] + if next.Failure? then [] else Attempted(n, next.value, settings[1..])
  }

  /** What becomes of a loader that makes the recorded calls. */
  function Outcome(n: NumberParsers, config: AgentConfig, r: Recorded): Result<Loader, ConfigError> {
    var loaded :- ApplyAll(n, config, r.settings);
    if r.tooDeep then Failure(HeaderTooDeep) else Success(Loader(loaded, r.sections))
  }

  lemma RecordNext(sections: seq<string>, line: string, lines: seq<string>)
    ensures Record(sections, [line] + lines)
         == var entry := Classify(line);
            if TooDeep(sections, entry) then Recorded([], sections, true) else
            var rest := Record(OpenAfter(sections, entry), lines);
            rest.(settings := Calls(sections, entry) + rest.settings)
  {
    hide Classify, Calls, OpenAfter, TooDeep;
  }

  lemma ApplyNext(n: NumberParsers, config: AgentConfig, first: (string, string), rest: Settings)
    ensures var next := ApplyKeyValue(n, config, first.0, first.1);
            && ApplyAll(n, config, [first] + rest)
               == (if next.Failure? then Failure(next.error) else ApplyAll(n, next.value, rest))
            && Attempted(n, config, [first] + rest)
               == [first] + if next.Failure? then [] else Attempted(n, next.value, rest)
  {
    hide ApplyKeyValue;
  }

  /** Loading is making the recorded calls, in their order: the same failure, configuration and open sections. */
  lemma {:induction false} LoadMakesRecordedCalls(n: NumberParsers, s: Loader, lines: seq<string>)
    ensures LoadFrom(n, s, lines) == Outcome(n, s.config, Record(s.sections, lines))
    decreases |lines|
  {
    hide Classify, ApplyKeyValue, Path, ApplyAll, Attempted;
    if lines == [] {
      ApplyNothing(n, s.config);
    } else {
      var entry := Classify(lines[0]);
      var next, rest := Process(n, s, entry), Record(OpenAfter(s.sections, entry), lines[1..]);
      if next.Success? {
        LoadMakesRecordedCalls(n, next.value, lines[1..]);
      }
      if entry.Setting? {
        ApplyNext(n, s.config, Calls(s.sections, entry)[0], rest.settings);
      } else if TooDeep(s.sections, entry) {
        ApplyNothing(n, s.config);
      } else {
        assert Calls(s.sections, entry) + rest.settings == rest.settings;
      }
    }
  }

  lemma ApplyNothing(n: NumberParsers, config: AgentConfig)
    ensures ApplyAll(n, config, []) == Success(config) && Attempted(n, config, []) == []
  {
  }

  /** The calls still to be made when the loader has reached some state. */
  function Remaining(n: NumberParsers, s: Loader, lines: seq<string>): Settings {
    Attempted(n, s.config, Record(s.sections, lines).settings)
  }

  lemma RemainingNext(n: NumberParsers, s: Loader, line: string, lines: seq<string>)
    ensures Remaining(n, s, [line] + lines)
         == var next := Process(n, s, Classify(line));
            Calls(s.sections, Classify(line)) + if next.Failure? then [] else Remaining(n, next.value, lines)
  {
    hide Classify, ApplyKeyValue, Path, Record, ApplyAll, Attempted;
    RecordNext(s.sections, line, lines);
    var entry := Classify(line);
    var rest := Record(OpenAfter(s.sections, entry), lines);
    if entry.Setting? {
      ApplyNext(n, s.config, Calls(s.sections, entry)[0], rest.settings);
    } else if TooDeep(s.sections, entry) {
      ApplyNothing(n, s.config);
    } else {
      assert Calls(s.sections, entry) + rest.settings == rest.settings;
    }
  }

  /** The lines `std::getline` yields: a last line without newline counts, an empty one does not. */
  function FileLines(text: string): seq<string> {
    CompleteLines(text) + if Tail(text) == "" then [] else [Tail(text)]
  }

  function Load(n: NumberParsers, text: string): Result<AgentConfig, ConfigError> {
    var s :- LoadFrom(n, Loader(DEFAULTS, []), FileLines(text));
    Success(s.config)
  }

  lemma NextLine(text: string)
    requires text != ""
    ensures var k := IndexOf(text, '\n');
            FileLines(text) == [text[..k]] + FileLines(if k < |text| then text[k + 1..] else "")
  {
    hide CompleteLines, Tail;
    var k := IndexOf(text, '\n');
    SplitNothing("");
    if k < |text| {
      assert text == text[..k] + "\n" + text[k + 1..];
      SplitFirst(text[..k], text[k + 1..]);
    } else {
      assert text[..k] == text;
      SplitNothing(text);
    }
  }

  lemma EndsInNewline(lines: seq<string>)
    ensures lines != [] ==> Unlines(lines) != "" && Unlines(lines)[|Unlines(lines)| - 1] == '\n'
    ensures lines == [] ==> Unlines(lines) == ""
  {
  }

  /** Whether the last line ends in a newline never matters. */
  lemma {:induction false} LastNewlineDoesNotMatter(n: NumberParsers, text: string)
    requires text != "" && text[|text| - 1] != '\n'
    ensures FileLines(text + "\n") == FileLines(text) && Load(n, text + "\n") == Load(n, text)
  {
    hide LoadFrom, CompleteLines, Tail;
    UnlinesSplit(text);
    EndsInNewline(CompleteLines(text));
    assert Tail(text) == "" ==> Unlines(CompleteLines(text)) == text;
    SplitAppend(text, "\n");
    assert Tail(text) + "\n" == Tail(text) + "\n" + "";
    SplitFirst(Tail(text), "");
    SplitNothing("");
  }

  lemma PathSnoc(sections: seq<string>, name: string)
    ensures Path(sections + [name]) == Path(sections) + if name == "" then "" else name + "."
  {
    assert (sections + [name])[..|sections|] == sections;
  }

  lemma NoPath()
    ensures Path([]) == ""
  {
  }

  /** `full_key`: the loop over the open sections. */
  method FullKey(sections: seq<string>, key: string) returns (fullKey: string)
    ensures fullKey == Path(sections) + key
  {
    hide Path;
    NoPath();
    assert sections[..0] == [];
    fullKey := "";
    var i := 0;
    while i < |sections|
      invariant i <= |sections|
      invariant fullKey == Path(sections[..i])
    {
      PathSnoc(sections[..i], sections[i]);
      assert sections[..i + 1] == sections[..i] + [sections[i]];
      assert fullKey + (sections[i] + ".") == fullKey + sections[i] + "." && fullKey + "" == fullKey;
      if sections[i] != "" {
        fullKey := fullKey + sections[i] + ".";
      }
      i := i + 1;
    }
    assert sections[..i] == sections;
    fullKey := fullKey + key;
  }

  method CountIndent(line: string) returns (indentSpaces: nat)
    ensures indentSpaces == LeadingSpaces(line)
  {
    indentSpaces := 0;
    while indentSpaces < |line| && line[indentSpaces] == ' '
      invariant indentSpaces <= |line|
      invariant LeadingSpaces(line) == indentSpaces + LeadingSpaces(line[indentSpaces..])
    {
      assert line[indentSpaces..][1..] == line[indentSpaces + 1..];
      indentSpaces := indentSpaces + 1;
    }
  }

  /** The body of the loader's loop for one line. */
  method ProcessLine(n: NumberParsers, config: AgentConfig, openSections: seq<string>, rawLine: string)
    returns (r: Result<Loader, ConfigError>, ghost calls: Settings)
    ensures r == Process(n, Loader(config, openSections), Classify(rawLine))
    ensures calls == Calls(openSections, Classify(rawLine))
  {
    hide ApplyKeyValue, Path, Trim, LeadingSpaces;
    calls := [];
    var sections := openSections;
    var line := rawLine[..IndexOf(rawLine, '#')];
    TrimNothing();
    if Trim(line) == "" {
      return Success(Loader(config, sections)), calls;
    }
    var indentSpaces := CountIndent(line);
    var depth := indentSpaces / 2;
    var stripped := Trim(line);
    var colonPos := IndexOf(stripped, ':');
    if colonPos == |stripped| {
      return Success(Loader(config, sections)), calls;
    }
    var key := Trim(stripped[..colonPos]);
    var value := Trim(stripped[colonPos + 1..]);
    if |sections| > depth {
      sections := sections[..depth];
    }
    if value == "" {
      if |sections| == depth {
        sections := sections + [key];
        return Success(Loader(config, sections)), calls;
      }
      return Failure(HeaderTooDeep), calls;
    }
    var fullKey := FullKey(sections, key);
    calls := [(fullKey, value)];
    var applied := ApplyKeyValue(n, config, fullKey, value);
    if applied.Failure? {
      return Failure(applied.error), calls;
    }
    return Success(Loader(applied.value, sections)), calls;
  }

  lemma TrimNothing()
    ensures Trim("") == ""
  {
  }

  /**
   `load_agent_config`; `file` is the content of the path, if it can be opened, and `calls` logs the
   calls of `apply_key_value`.
   */
  method LoadAgentConfig(n: NumberParsers, file: Option<string>)
    returns (r: Result<AgentConfig, ConfigError>, ghost calls: Settings)
    ensures r == if file.None? then Failure(CannotOpen) else Load(n, file.value)
    ensures calls
         == if file.None? then [] else Attempted(n, DEFAULTS, Record([], FileLines(file.value)).settings)
  {
    hide FileLines, LoadFrom, Process, Classify, Calls, Attempted, Record, Remaining, IndexOf;
    calls := [];
    if file.None? {
      return Failure(CannotOpen), [];
    }
    var loader := Loader(DEFAULTS, []);
    RemainingAtStart(n, FileLines(file.value));
    var rest := file.value;
    while rest != ""
      invariant LoadFrom(n, Loader(DEFAULTS, []), FileLines(file.value)) == LoadFrom(n, loader, FileLines(rest))
      invariant Remaining(n, Loader(DEFAULTS, []), FileLines(file.value))
             == calls + Remaining(n, loader, FileLines(rest))
      decreases |rest|
    {
      NextLine(rest);
      var end := IndexOf(rest, '\n');
      var line := rest[..end];
      rest := if end < |rest| then rest[end + 1..] else "";
      LoadNext(n, loader, line, FileLines(rest));
      RemainingNext(n, loader, line, FileLines(rest));
      var next, made := ProcessLine(n, loader.config, loader.sections, line);
      calls := calls + made;
      if next.Failure? {
        return Failure(next.error), calls;
      }
      loader := next.value;
    }
    NoLines();
    NothingRemains(n, loader);
    return Success(loader.config), calls;
  }

  lemma RemainingAtStart(n: NumberParsers, lines: seq<string>)
    ensures Remaining(n, Loader(DEFAULTS, []), lines) == Attempted(n, DEFAULTS, Record([], lines).settings)
  {
  }

  lemma NothingRemains(n: NumberParsers, s: Loader)
    ensures Remaining(n, s, []) == [] && LoadFrom(n, s, []) == Success(s)
  {
  }

  lemma LoadNext(n: NumberParsers, s: Loader, line: string, lines: seq<string>)
    ensures LoadFrom(n, s, [line] + lines)
         == var next := Process(n, s, Classify(line));
            if next.Failure? then Failure(next.error) else LoadFrom(n, next.value, lines)
  {
    hide Process, Classify;
  }

  lemma NoLines()
    ensures FileLines("") == []
  {
    SplitNothing("");
  }

  // -------------------------------------------------------- settings, last one wins

  lemma {:induction false} ApplyAllAppend(n: NumberParsers, config: AgentConfig, a: Settings, b: Settings)
    ensures ApplyAll(n, config, a + b)
         == var mid := ApplyAll(n, config, a); if mid.Failure? then mid else ApplyAll(n, mid.value, b)
    decreases |a|
  {
    hide ApplyKeyValue;
    if a == [] {
      assert a + b == b;
    } else {
      assert (a + b)[1..] == a[1..] + b;
      var next := ApplyKeyValue(n, config, a[0].0, a[0].1);
      if next.Success? {
        ApplyAllAppend(n, next.value, a[1..], b);
      }
    }
  }

  /** `is_sensor_enabled`: sensors are on unless switched off. */
  function IsSensorEnabled(config: AgentConfig, name: string): bool {
    if name in config.sensorEnabled then config.sensorEnabled[name] else true
  }

  /** The value the last setting of a key gives it, if there is one. */
  function LastValue(settings: Settings, key: string): Option<string> {
    if settings == [] then None else
    var last := settings[|settings| - 1];
    if last.0 == key then Some(last.1) else LastValue(settings[..|settings| - 1], key)
  }

  function Switched(settings: Settings, key: string, before: bool): bool {
    var last := LastValue(settings, key);
    if last.Some? then ParseBool(last.value) else before
  }

  lemma SensorKeyIsNoOther(key: string)
    requires SENSOR_PREFIX <= key
    ensures key !in [TICK_RATE_HZ, THROTTLE_TEMP, WARNING_WINDOW, GPU_DEVICE_INDEX, PUBLISH_HEALTH, STDOUT_DEBUG,
                     REDIS_ADDRESS]
  {
    assert key[0] == 's';
  }

  lemma SensorSettingSwitches(n: NumberParsers, config: AgentConfig, key: string, value: string)
    requires SENSOR_PREFIX <= key
    ensures ApplyKeyValue(n, config, key, value)
         == Success(config.(sensorEnabled := config.sensorEnabled[key[|SENSOR_PREFIX|..] := ParseBool(value)]))
  {
    hide ParseBool;
    SensorKeyIsNoOther(key);
  }

  lemma OtherSettingKeepsSwitches(n: NumberParsers, config: AgentConfig, key: string, value: string)
    requires !(SENSOR_PREFIX <= key) && ApplyKeyValue(n, config, key, value).Success?
    ensures ApplyKeyValue(n, config, key, value).value.sensorEnabled == config.sensorEnabled
  {
    hide ParseBool, ApplyRedisAddress, Number, TICK_RATE_HZ, THROTTLE_TEMP, WARNING_WINDOW, GPU_DEVICE_INDEX,
      PUBLISH_HEALTH, STDOUT_DEBUG, REDIS_ADDRESS;
  }

  lemma SettingSwitches(n: NumberParsers, config: AgentConfig, key: string, value: string, name: string)
    requires ApplyKeyValue(n, config, key, value).Success?
    ensures IsSensorEnabled(ApplyKeyValue(n, config, key, value).value, name)
         == if key == SENSOR_PREFIX + name then ParseBool(value) else IsSensorEnabled(config, name)
  {
    hide ApplyKeyValue, ParseBool;
    if SENSOR_PREFIX <= key {
      assert key == SENSOR_PREFIX + key[|SENSOR_PREFIX|..];
      assert key == SENSOR_PREFIX + name <==> key[|SENSOR_PREFIX|..] == name;
      SensorSettingSwitches(n, config, key, value);
    } else {
      assert key != SENSOR_PREFIX + name;
      OtherSettingKeepsSwitches(n, config, key, value);
    }
  }

  lemma SettingSetsFlags(n: NumberParsers, config: AgentConfig, key: string, value: string)
    requires ApplyKeyValue(n, config, key, value).Success?
    ensures var next := ApplyKeyValue(n, config, key, value).value;
            && next.publishHealth == (if key == PUBLISH_HEALTH then ParseBool(value) else config.publishHealth)
            && next.stdoutDebug == (if key == STDOUT_DEBUG then ParseBool(value) else config.stdoutDebug)
  {
    hide ParseBool, ApplyRedisAddress, Number, TICK_RATE_HZ, THROTTLE_TEMP, WARNING_WINDOW, GPU_DEVICE_INDEX,
      REDIS_ADDRESS, SENSOR_PREFIX;
    FlagKeysAreNoOther();
  }

  lemma FlagKeysAreNoOther()
    ensures PUBLISH_HEALTH !in [TICK_RATE_HZ, THROTTLE_TEMP, WARNING_WINDOW, GPU_DEVICE_INDEX, STDOUT_DEBUG]
    ensures STDOUT_DEBUG !in [TICK_RATE_HZ, THROTTLE_TEMP, WARNING_WINDOW, GPU_DEVICE_INDEX]
  {
    assert PUBLISH_HEALTH[0] == 'a' && STDOUT_DEBUG[0] == 'a' && TICK_RATE_HZ[0] == 't' && THROTTLE_TEMP[0] == 't';
    assert WARNING_WINDOW[0] == 't' && GPU_DEVICE_INDEX[0] == 'g';
    assert PUBLISH_HEALTH[6] == 'p' && STDOUT_DEBUG[6] == 's';
  }

  lemma ApplyAllSnoc(n: NumberParsers, config: AgentConfig, settings: Settings, last: (string, string))
    ensures ApplyAll(n, config, settings + [last])
         == var mid := ApplyAll(n, config, settings);
            if mid.Failure? then mid else ApplyKeyValue(n, mid.value, last.0, last.1)
  {
    hide ApplyKeyValue;
    ApplyAllAppend(n, config, settings, [last]);
    assert [last][1..] == [];
  }

  /** The health switch, the debug switch and every sensor end up as their last setting says, whatever else is set. */
  lemma {:induction false} LastSettingWins(n: NumberParsers, config: AgentConfig, settings: Settings, name: string)
    requires ApplyAll(n, config, settings).Success?
    ensures var loaded := ApplyAll(n, config, settings).value;
            && IsSensorEnabled(loaded, name) == Switched(settings, SENSOR_PREFIX + name, IsSensorEnabled(config, name))
            && loaded.publishHealth == Switched(settings, PUBLISH_HEALTH, config.publishHealth)
            && loaded.stdoutDebug == Switched(settings, STDOUT_DEBUG, config.stdoutDebug)
  {
    hide ApplyKeyValue, ParseBool, IsSensorEnabled, SENSOR_PREFIX, PUBLISH_HEALTH, STDOUT_DEBUG;
    if settings != [] {
      var init, last := settings[..|settings| - 1], settings[|settings| - 1];
      assert settings == init + [last];
      ApplyAllSnoc(n, config, init, last);
      LastSettingWins(n, config, init, name);
      var mid := ApplyAll(n, config, init).value;
      SettingSwitches(n, mid, last.0, last.1, name);
      SettingSetsFlags(n, mid, last.0, last.1);
    }
  }

  /** The ranges the loader keeps. They let port 0 through; `PortZeroExactly` says when. */
  predicate InRange(config: AgentConfig) {
    && 1 <= config.tickIntervalMs <= 1000 && config.thermalPressureWarningWindowC > 0.0
    && config.redis.port <= 65535 && (config.redis.unixSocket != "" ==> config.redis.host == "")
  }

  lemma SettingKeepsRanges(n: NumberParsers, config: AgentConfig, key: string, value: string)
    requires InRange(config) && ApplyKeyValue(n, config, key, value).Success?
    ensures InRange(ApplyKeyValue(n, config, key, value).value)
  {
    hide ParseBool, ApplyRedisAddress, TICK_RATE_HZ, THROTTLE_TEMP, WARNING_WINDOW, GPU_DEVICE_INDEX, PUBLISH_HEALTH,
      STDOUT_DEBUG, REDIS_ADDRESS, SENSOR_PREFIX;
    AddressKeepsRanges(n, config.redis, value);
    IntervalInRange(n, value);
  }

  lemma AddressKeepsRanges(n: NumberParsers, redis: RedisConfig, value: string)
    requires redis.port <= 65535
    ensures var r := ApplyRedisAddress(n, redis, value);
            r.Success? ==> r.value.port <= 65535 && (r.value.unixSocket != "" ==> r.value.host == "")
  {
  }

  lemma IntervalInRange(n: NumberParsers, value: string)
    ensures n.stoi(value).Some? && 0 < n.stoi(value).value <= 1000 ==> 1 <= 1000 / n.stoi(value).value <= 1000
  {
    if n.stoi(value).Some? && 0 < n.stoi(value).value <= 1000 {
      var hz := n.stoi(value).value;
      var q := 1000 / hz;
      assert 1000 == q * hz + 1000 % hz;
    }
  }

  lemma {:induction false} LoadFromKeepsRanges(n: NumberParsers, s: Loader, lines: seq<string>)
    requires InRange(s.config) && LoadFrom(n, s, lines).Success?
    ensures InRange(LoadFrom(n, s, lines).value.config)
    decreases |lines|
  {
    hide ApplyKeyValue, Classify, InRange, Path;
    if lines != [] {
      var entry := Classify(lines[0]);
      if entry.Setting? {
        SettingKeepsRanges(n, s.config, Path(CloseTo(s.sections, entry.depth)) + entry.name, entry.value);
      }
      LoadFromKeepsRanges(n, Process(n, s, entry).value, lines[1..]);
    }
  }

  /** Whatever a file says, a configuration that loads at all is within those ranges. */
  lemma {:induction false} LoadedConfigIsInRange(n: NumberParsers, text: string)
    requires Load(n, text).Success?
    ensures InRange(Load(n, text).value)
  {
    hide LoadFrom, FileLines;
    LoadFromKeepsRanges(n, Loader(DEFAULTS, []), FileLines(text));
  }

  // ------------------------------------------------------------------ the Redis port

  /** An address can name a socket, a host and a port, or just a host. */
  predicate NamesSocket(address: string) {
    "unix://" <= address || (address != "" && address[0] == '/')
  }

  predicate NamesPort(address: string) {
    !NamesSocket(address) && IndexOf(address, ':') < |address|
  }

  predicate IsBare(address: string) {
    !NamesSocket(address) && !NamesPort(address)
  }

  /** The last address that is more than a bare host, if there is one. */
  function LastNaming(settings: Settings): Option<string> {
    if settings == [] then None else
    var last := settings[|settings| - 1];
    if last.0 == REDIS_ADDRESS && !IsBare(last.1) then Some(last.1) else LastNaming(settings[..|settings| - 1])
  }

  function SocketOf(address: string): string {
    if "unix://" <= address then address[7..] else if NamesSocket(address) then address else ""
  }

  function HostOf(address: string): string {
    if NamesSocket(address) then "" else address[..IndexOf(address, ':')]
  }

  lemma AddressApplied(n: NumberParsers, redis: RedisConfig, address: string)
    requires ApplyRedisAddress(n, redis, address).Success?
    ensures var r := ApplyRedisAddress(n, redis, address).value;
            && r.host == HostOf(address) && r.unixSocket == SocketOf(address)
            && (NamesSocket(address) ==> r.port == 0) && (NamesPort(address) ==> 1 <= r.port <= 65535)
            && (IsBare(address) ==> r.port == redis.port)
  {
    assert address[..|address|] == address;
  }

  lemma AddressKeyIsNoOther()
    ensures REDIS_ADDRESS !in [TICK_RATE_HZ, THROTTLE_TEMP, WARNING_WINDOW, GPU_DEVICE_INDEX, PUBLISH_HEALTH,
                               STDOUT_DEBUG]
  {
    assert REDIS_ADDRESS[0] == 'r';
  }

  lemma SettingSetsAddress(n: NumberParsers, config: AgentConfig, key: string, value: string)
    requires ApplyKeyValue(n, config, key, value).Success?
    ensures key == REDIS_ADDRESS ==> ApplyRedisAddress(n, config.redis, value).Success?
    ensures ApplyKeyValue(n, config, key, value).value.redis
         == if key == REDIS_ADDRESS then ApplyRedisAddress(n, config.redis, value).value else config.redis
  {
    hide ParseBool, ApplyRedisAddress, TICK_RATE_HZ, THROTTLE_TEMP, WARNING_WINDOW, GPU_DEVICE_INDEX, PUBLISH_HEALTH,
      STDOUT_DEBUG, REDIS_ADDRESS, SENSOR_PREFIX;
    AddressKeyIsNoOther();
  }

  /** Host and socket end up as the last address says; the port as the last one that is more than a bare host says. */
  lemma {:induction false} LastAddressWins(n: NumberParsers, config: AgentConfig, settings: Settings)
    requires ApplyAll(n, config, settings).Success? && 1 <= config.redis.port
    ensures var redis, last := ApplyAll(n, config, settings).value.redis, LastValue(settings, REDIS_ADDRESS);
            && redis.host == (if last.Some? then HostOf(last.value) else config.redis.host)
            && redis.unixSocket == (if last.Some? then SocketOf(last.value) else config.redis.unixSocket)
            && (redis.port == 0 <==> LastNaming(settings).Some? && NamesSocket(LastNaming(settings).value))
            && (LastNaming(settings).Some? ==> !IsBare(LastNaming(settings).value))
  {
    hide ApplyKeyValue, ApplyRedisAddress, HostOf, SocketOf, NamesSocket, NamesPort, REDIS_ADDRESS;
    if settings != [] {
      var init, last := settings[..|settings| - 1], settings[|settings| - 1];
      assert settings == init + [last];
      ApplyAllSnoc(n, config, init, last);
      LastAddressWins(n, config, init);
      var mid := ApplyAll(n, config, init).value;
      SettingSetsAddress(n, mid, last.0, last.1);
      if last.0 == REDIS_ADDRESS {
        AddressApplied(n, mid.redis, last.1);
        NamingIsOneOf(last.1);
      }
    }
  }

  lemma NamingIsOneOf(address: string)
    ensures !IsBare(address) ==> NamesSocket(address) != NamesPort(address)
  {
  }

  /**
   A loaded configuration has a host with port 0 exactly when the last address that names a socket or a port
   names a socket, and a bare host comes after it: the host replaces the socket but keeps its port.
   */
  lemma {:induction false} PortZeroExactly(n: NumberParsers, text: string)
    requires Load(n, text).Success?
    ensures var redis, settings := Load(n, text).value.redis, Record([], FileLines(text)).settings;
            var naming, last := LastNaming(settings), LastValue(settings, REDIS_ADDRESS);
            redis.host != "" && redis.port == 0
            <==> naming.Some? && NamesSocket(naming.value) && last.Some? && IsBare(last.value) && last.value != ""
  {
    hide FileLines, LoadFrom, Record, ApplyAll, LastNaming, LastValue, NamesSocket, NamesPort, HostOf, SocketOf,
      REDIS_ADDRESS, DEFAULTS;
    var settings := Record([], FileLines(text)).settings;
    LoadMakesRecordedCalls(n, Loader(DEFAULTS, []), FileLines(text));
    DefaultPort();
    LastAddressWins(n, DEFAULTS, settings);
    var last := LastValue(settings, REDIS_ADDRESS);
    NamingNeedsAddress(settings);
    if last.Some? {
      HostOfBare(last.value);
      LastOfAll(settings);
    }
  }

  lemma DefaultPort()
    ensures DEFAULTS.redis.port == 6379
  {
  }

  lemma HostOfBare(address: string)
    ensures IsBare(address) ==> HostOf(address) == address
    ensures NamesSocket(address) ==> HostOf(address) == ""
  {
    assert address[..|address|] == address;
  }

  lemma {:induction false} NamingNeedsAddress(settings: Settings)
    ensures LastNaming(settings).Some? ==> LastValue(settings, REDIS_ADDRESS).Some?
  {
    hide REDIS_ADDRESS, IsBare;
    if settings != [] {
      NamingNeedsAddress(settings[..|settings| - 1]);
    }
  }

  /** When the last address is no bare host it is also the last one that names anything. */
  lemma {:induction false} LastOfAll(settings: Settings)
    requires LastValue(settings, REDIS_ADDRESS).Some?
    ensures var last := LastValue(settings, REDIS_ADDRESS).value;
            !IsBare(last) ==> LastNaming(settings) == Some(last)
  {
    hide REDIS_ADDRESS, IsBare;
    if settings != [] && settings[|settings| - 1].0 != REDIS_ADDRESS {
      LastOfAll(settings[..|settings| - 1]);
    }
  }
}
