/**
 What the values in a configuration file come to: which files load, which error the others end in, and what the
 numbers among the settings make of the tick, the temperatures, the device and the address.
 */
module ConfigValues {
  import opened Wrappers
  import opened Numeric
  import opened Text
  import opened Config
  import opened Pressures

  // ----------------------------------------------------------------- which files load

  function PortText(address: string): string
    requires NamesPort(address)
  {
    address[IndexOf(address, ':') + 1..]
  }

  /** A rate from 1 to 1000, a temperature, a positive window, a device, a port from 1 to 65535; all else is free. */
  predicate Accepts(n: NumberParsers, key: string, value: string) {
    && (key == TICK_RATE_HZ ==> n.stoi(value).Some? && 1 <= n.stoi(value).value <= 1000)
    && (key == THROTTLE_TEMP ==> n.stof(value).Some?)
    && (key == WARNING_WINDOW ==> n.stof(value).Some? && n.stof(value).value > 0.0)
    && (key == GPU_DEVICE_INDEX ==> n.stoll(value).Some? && n.stoll(value).value >= 0)
    && (key == REDIS_ADDRESS && NamesPort(value) ==>
          n.stoi(PortText(value)).Some? && 1 <= n.stoi(PortText(value)).value <= 65535)
  }

  /** Whether the text that should be a number is one. */
  predicate IsNumeric(n: NumberParsers, key: string, value: string) {
    && (key == TICK_RATE_HZ ==> n.stoi(value).Some?)
    && (key == THROTTLE_TEMP || key == WARNING_WINDOW ==> n.stof(value).Some?)
    && (key == GPU_DEVICE_INDEX ==> n.stoll(value).Some?)
    && (key == REDIS_ADDRESS && NamesPort(value) ==> n.stoi(PortText(value)).Some?)
  }

  lemma NumberKeysDiffer()
    ensures TICK_RATE_HZ !in [THROTTLE_TEMP, WARNING_WINDOW, GPU_DEVICE_INDEX, PUBLISH_HEALTH, STDOUT_DEBUG]
    ensures THROTTLE_TEMP !in [WARNING_WINDOW, GPU_DEVICE_INDEX, PUBLISH_HEALTH, STDOUT_DEBUG]
    ensures WARNING_WINDOW !in [GPU_DEVICE_INDEX, PUBLISH_HEALTH, STDOUT_DEBUG]
    ensures GPU_DEVICE_INDEX !in [PUBLISH_HEALTH, STDOUT_DEBUG]
  {
    assert TICK_RATE_HZ[0] == 't' && THROTTLE_TEMP[0] == 't' && WARNING_WINDOW[0] == 't' && GPU_DEVICE_INDEX[0] == 'g';
    assert TICK_RATE_HZ[1] == 'i' && THROTTLE_TEMP[1] == 'h' && WARNING_WINDOW[1] == 'h';
    assert THROTTLE_TEMP[8] == 't' && WARNING_WINDOW[8] == 'p' && PUBLISH_HEALTH[0] == 'a' && STDOUT_DEBUG[0] == 'a';
  }

  lemma AddressAcceptedExactly(n: NumberParsers, redis: RedisConfig, value: string)
    ensures var r := ApplyRedisAddress(n, redis, value);
            && (r.Success? <==> Accepts(n, REDIS_ADDRESS, value))
            && (r.Failure? ==> r.error == if IsNumeric(n, REDIS_ADDRESS, value) then OutOfRange else NotANumber)
  {
    hide TICK_RATE_HZ, THROTTLE_TEMP, WARNING_WINDOW, GPU_DEVICE_INDEX, PUBLISH_HEALTH, STDOUT_DEBUG, REDIS_ADDRESS;
    AddressKeyIsNoOther();
  }

  /** A setting is taken exactly when it is acceptable; otherwise it fails for one of two reasons. */
  lemma SettingAcceptedExactly(n: NumberParsers, config: AgentConfig, key: string, value: string)
    ensures var r := ApplyKeyValue(n, config, key, value);
            && (r.Success? <==> Accepts(n, key, value))
            && (r.Failure? ==> r.error == if IsNumeric(n, key, value) then OutOfRange else NotANumber)
  {
    hide TICK_RATE_HZ, THROTTLE_TEMP, WARNING_WINDOW, GPU_DEVICE_INDEX, PUBLISH_HEALTH, STDOUT_DEBUG, REDIS_ADDRESS,
      SENSOR_PREFIX, ApplyRedisAddress, ParseBool, NamesPort;
    NumberKeysDiffer();
    AddressKeyIsNoOther();
    AddressAcceptedExactly(n, config.redis, value);
  }

  ghost predicate AllAccepted(n: NumberParsers, settings: Settings) {
    forall i :: 0 <= i < |settings| ==> Accepts(n, settings[i].0, settings[i].1)
  }

  lemma {:induction false} AppliesExactly(n: NumberParsers, config: AgentConfig, settings: Settings)
    ensures ApplyAll(n, config, settings).Success? <==> AllAccepted(n, settings)
    decreases |settings|
  {
    hide ApplyKeyValue, Accepts;
    if settings != [] {
      SettingAcceptedExactly(n, config, settings[0].0, settings[0].1);
      var next := ApplyKeyValue(n, config, settings[0].0, settings[0].1);
      if next.Success? {
        AppliesExactly(n, next.value, settings[1..]);
        assert forall i :: 0 < i < |settings| ==> settings[i] == settings[1..][i - 1];
      }
    }
  }

  /** The first setting that is not acceptable decides how the loading ends. */
  lemma {:induction false} FirstRejectedDecides(n: NumberParsers, config: AgentConfig, settings: Settings, k: nat)
    requires k < |settings| && AllAccepted(n, settings[..k]) && !Accepts(n, settings[k].0, settings[k].1)
    ensures ApplyAll(n, config, settings)
         == Failure(if IsNumeric(n, settings[k].0, settings[k].1) then OutOfRange else NotANumber)
  {
    hide ApplyKeyValue, Accepts, IsNumeric;
    AppliesExactly(n, config, settings[..k]);
    var mid := ApplyAll(n, config, settings[..k]).value;
    SettingAcceptedExactly(n, mid, settings[k].0, settings[k].1);
    ApplyAllAppend(n, config, settings[..k], settings[k..]);
    assert settings == settings[..k] + settings[k..] && settings[k..] == [settings[k]] + settings[k + 1..];
    ApplyNext(n, mid, settings[k], settings[k + 1..]);
  }

  /** Which files load: no header too deep, and every recorded setting acceptable. */
  lemma {:induction false} LoadsExactly(n: NumberParsers, text: string)
    ensures var r := Record([], FileLines(text));
            Load(n, text).Success? <==> !r.tooDeep && AllAccepted(n, r.settings)
  {
    hide FileLines, LoadFrom, Record, ApplyAll, AllAccepted, DEFAULTS;
    LoadMakesRecordedCalls(n, Loader(DEFAULTS, []), FileLines(text));
    AppliesExactly(n, DEFAULTS, Record([], FileLines(text)).settings);
  }

  // ------------------------------------------------------------- what the numbers become

  /** The interval is the longest whole number of milliseconds that keeps up with the rate. */
  predicate KeepsUp(intervalMs: nat, hz: int) {
    intervalMs * hz <= 1000 < (intervalMs + 1) * hz
  }

  lemma QuotientKeepsUp(hz: int)
    requires 1 <= hz <= 1000
    ensures 1000 / hz > 0 && KeepsUp(1000 / hz, hz)
  {
    var q := 1000 / hz;
    assert 1000 == q * hz + 1000 % hz;
    assert (q + 1) * hz == q * hz + hz;
    if q <= 0 {
      TimesAtMostZero(q, hz);
    }
  }

  lemma TimesAtMostZero(q: int, hz: int)
    requires q <= 0 && hz > 0
    ensures q * hz <= 0
  {
  }

  /** At most one interval keeps up with a rate. */
  lemma KeepsUpOnce(a: nat, b: nat, hz: int)
    requires hz >= 1 && KeepsUp(a, hz) && KeepsUp(b, hz)
    ensures a == b
  {
    if a < b {
      Scaled(a + 1, b, hz);
    } else if b < a {
      Scaled(b + 1, a, hz);
    }
  }

  lemma Scaled(a: int, b: int, hz: int)
    requires a <= b && hz >= 1
    ensures a * hz <= b * hz
  {
  }

  ghost predicate SameDevice(index: int, device: U32) {
    exists wraps: int :: index == device + wraps * 0x1_0000_0000
  }

  lemma RemainderIsDevice(index: int)
    requires index >= 0
    ensures 0 <= index % 0x1_0000_0000 <= 0xFFFF_FFFF && SameDevice(index, index % 0x1_0000_0000)
  {
    assert index == index % 0x1_0000_0000 + (index / 0x1_0000_0000) * 0x1_0000_0000;
  }

  /** What one setting does to the four numbers; a setting of another key leaves each alone. */
  ghost predicate SetsNumbers(n: NumberParsers, before: AgentConfig, after: AgentConfig, key: string, value: string) {
    && (if key == TICK_RATE_HZ then n.stoi(value).Some? && KeepsUp(after.tickIntervalMs, n.stoi(value).value)
        else after.tickIntervalMs == before.tickIntervalMs)
    && (if key == THROTTLE_TEMP then n.stof(value) == Some(after.thermalThrottleTempC)
        else after.thermalThrottleTempC == before.thermalThrottleTempC)
    && (if key == WARNING_WINDOW then n.stof(value) == Some(after.thermalPressureWarningWindowC)
        else after.thermalPressureWarningWindowC == before.thermalPressureWarningWindowC)
    && (if key == GPU_DEVICE_INDEX
        then n.stoll(value).Some? && SameDevice(n.stoll(value).value, after.gpuDeviceIndex)
        else after.gpuDeviceIndex == before.gpuDeviceIndex)
  }

  lemma SettingSetsNumbers(n: NumberParsers, config: AgentConfig, key: string, value: string)
    requires ApplyKeyValue(n, config, key, value).Success?
    ensures SetsNumbers(n, config, ApplyKeyValue(n, config, key, value).value, key, value)
  {
    hide ParseBool, ApplyRedisAddress, TICK_RATE_HZ, THROTTLE_TEMP, WARNING_WINDOW, GPU_DEVICE_INDEX, PUBLISH_HEALTH,
      STDOUT_DEBUG, REDIS_ADDRESS, SENSOR_PREFIX, KeepsUp, SameDevice;
    NumberKeysDiffer();
    AddressKeyIsNoOther();
    if key == TICK_RATE_HZ {
      QuotientKeepsUp(n.stoi(value).value);
    } else if key == GPU_DEVICE_INDEX {
      RemainderIsDevice(n.stoll(value).value);
    }
  }

  /**
   The numbers end up as their last setting says, whatever else is set: the interval keeps up with the last tick
   rate, the temperatures are the last ones, and the device is the last index modulo 2^32.
   */
  lemma {:induction false} LastNumberWins(n: NumberParsers, config: AgentConfig, settings: Settings)
    requires ApplyAll(n, config, settings).Success?
    ensures var loaded, rate := ApplyAll(n, config, settings).value, LastValue(settings, TICK_RATE_HZ);
            if rate.None? then loaded.tickIntervalMs == config.tickIntervalMs
            else n.stoi(rate.value).Some? && KeepsUp(loaded.tickIntervalMs, n.stoi(rate.value).value)
    ensures var loaded, temp := ApplyAll(n, config, settings).value, LastValue(settings, THROTTLE_TEMP);
            if temp.None? then loaded.thermalThrottleTempC == config.thermalThrottleTempC
            else n.stof(temp.value) == Some(loaded.thermalThrottleTempC)
    ensures var loaded, window := ApplyAll(n, config, settings).value, LastValue(settings, WARNING_WINDOW);
            if window.None? then loaded.thermalPressureWarningWindowC == config.thermalPressureWarningWindowC
            else n.stof(window.value) == Some(loaded.thermalPressureWarningWindowC)
    ensures var loaded, index := ApplyAll(n, config, settings).value, LastValue(settings, GPU_DEVICE_INDEX);
            if index.None? then loaded.gpuDeviceIndex == config.gpuDeviceIndex
            else n.stoll(index.value).Some? && SameDevice(n.stoll(index.value).value, loaded.gpuDeviceIndex)
  {
    hide ApplyKeyValue, KeepsUp, SameDevice, TICK_RATE_HZ, THROTTLE_TEMP, WARNING_WINDOW, GPU_DEVICE_INDEX;
    if settings != [] {
      var init, last := settings[..|settings| - 1], settings[|settings| - 1];
      assert settings == init + [last];
      ApplyAllSnoc(n, config, init, last);
      LastNumberWins(n, config, init);
      SettingSetsNumbers(n, ApplyAll(n, config, init).value, last.0, last.1);
    }
  }

  // ------------------------------------------------------------------------ the address

  lemma AddressSetsPort(n: NumberParsers, redis: RedisConfig, address: string)
    requires ApplyRedisAddress(n, redis, address).Success?
    ensures var r := ApplyRedisAddress(n, redis, address).value;
            && r.enabled == (address != "")
            && (NamesPort(address) ==> n.stoi(PortText(address)) == Some(r.port))
            && (NamesSocket(address) ==> r.port == 0) && (IsBare(address) ==> r.port == redis.port)
  {
  }

  /** The port is that of the last address that names one or a socket, and an address switches Redis on. */
  lemma {:induction false} LastPortWins(n: NumberParsers, config: AgentConfig, settings: Settings)
    requires ApplyAll(n, config, settings).Success?
    ensures var redis, naming := ApplyAll(n, config, settings).value.redis, LastNaming(settings);
            && (naming.None? ==> redis.port == config.redis.port)
            && (naming.Some? && NamesSocket(naming.value) ==> redis.port == 0)
            && (naming.Some? && NamesPort(naming.value) ==> n.stoi(PortText(naming.value)) == Some(redis.port))
    ensures var redis, last := ApplyAll(n, config, settings).value.redis, LastValue(settings, REDIS_ADDRESS);
            redis.enabled == if last.None? then config.redis.enabled else last.value != ""
  {
    hide ApplyKeyValue, ApplyRedisAddress, NamesSocket, NamesPort, REDIS_ADDRESS, PortText;
    if settings != [] {
      var init, last := settings[..|settings| - 1], settings[|settings| - 1];
      assert settings == init + [last];
      ApplyAllSnoc(n, config, init, last);
      LastPortWins(n, config, init);
      var mid := ApplyAll(n, config, init).value;
      SettingSetsAddress(n, mid, last.0, last.1);
      if last.0 == REDIS_ADDRESS {
        AddressSetsPort(n, mid.redis, last.1);
      }
    }
  }

  // ---------------------------------------------------------------------------- switches

  /** Equal but for the case of letters. */
  predicate SameIgnoringCase(value: string, word: string) {
    && |value| == |word|
    && forall i :: 0 <= i < |value| ==>
         value[i] == word[i] || ('A' <= value[i] <= 'Z' && value[i] - 'A' + 'a' == word[i])
  }

  lemma LowerIsSame(value: string, word: string)
    requires forall i :: 0 <= i < |word| ==> !('A' <= word[i] <= 'Z')
    ensures ToLower(value) == word <==> SameIgnoringCase(value, word)
  {
    if SameIgnoringCase(value, word) {
      assert ToLower(value) == word;
    }
  }

  /** Four words switch on, in any case; everything else switches off. */
  lemma OnWords(value: string)
    ensures ParseBool(value) <==>
            SameIgnoringCase(value, "true") || SameIgnoringCase(value, "yes") || SameIgnoringCase(value, "on")
            || SameIgnoringCase(value, "1")
  {
    hide ToLower, SameIgnoringCase;
    LowerIsSame(value, "true");
    LowerIsSame(value, "yes");
    LowerIsSame(value, "on");
    LowerIsSame(value, "1");
  }

  // ---------------------------------------------------------------------------- defaults

  /** A file without settings: ten ticks a second, both limits, no Redis, and every sensor on. */
  lemma {:induction false} NothingSet(n: NumberParsers, text: string, name: string)
    requires Record([], FileLines(text)) == Recorded([], [], false)
    ensures Load(n, text).Success?
    ensures var c := Load(n, text).value;
            && KeepsUp(c.tickIntervalMs, 10) && c.thermalThrottleTempC == 85.0
            && c.thermalPressureWarningWindowC == EffectiveWindow(0.0) == 30.0 && c.gpuDeviceIndex == 0
            && c.publishHealth && c.stdoutDebug && IsSensorEnabled(c, name)
            && !c.redis.enabled && c.redis.host == "127.0.0.1" && c.redis.port == 6379 && c.redis.unixSocket == ""
  {
    hide FileLines, LoadFrom, Record, ApplyAll;
    LoadMakesRecordedCalls(n, Loader(DEFAULTS, []), FileLines(text));
    ApplyNothing(n, DEFAULTS);
  }
}
