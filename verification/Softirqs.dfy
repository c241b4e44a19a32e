/**
 The `/proc/softirqs` reader (`src/sensors/softirqs.cpp`): a byte automaton run over whatever chunks
 `fread` returns, proved against a specification by lines and numerals, and the burst score.
 */
module Softirqs {
  import opened Numeric
  import opened SignalFrame
  import opened Text

  // ------------------------------------------------------- specification by lines

  /** A numeral that does not fit 64 bits counts as the largest value. */
  function Saturated(n: nat): U64 {
    if n <= U64_MAX then n else U64_MAX
  }

  /** The values of all maximal digit runs, in order. */
  function Numerals(s: string): seq<U64>
    decreases |s|
  {
    if s == "" then []
    else if IsDigit(s[0]) then
      var n := DigitRun(s);
      [Saturated(Value(s[..n]))] + Numerals(s[n..])
    else Numerals(s[1..])
  }

  /** What one line contributes: the numerals after its first colon. */
  function LineNumerals(line: string): seq<U64> {
    var n := IndexOf(line, ':');
    if n < |line| then Numerals(line[n + 1..]) else []
  }

  function FileNumerals(text: string): seq<U64>
    decreases |text|
  {
    var n := IndexOf(text, '\n');
    LineNumerals(text[..n]) + if n < |text| then FileNumerals(text[n + 1..]) else []
  }

  /** The total the sensor is meant to read off a file. */
  function FileTotal(text: string): U64 {
    Sum64(FileNumerals(text))
  }

  // --------------------------------------------------------------- the automaton

  datatype Scan = Scan(parseValues: bool, inNumber: bool, current: U64, total: U64)

  const SCAN_START := Scan(false, false, 0, 0)

  function AppendDigit(current: U64, digit: nat): U64
    requires digit < 10
  {
    if current > 0x1999_9999_9999_9999 || (current == 0x1999_9999_9999_9999 && digit > 5) then U64_MAX
    else current * 10 + digit
  }

  function EndNumber(s: Scan): Scan {
    if s.inNumber then Scan(s.parseValues, false, 0, Add64(s.total, s.current)) else s
  }

  function ScanByte(s: Scan, ch: char): Scan {
    if ch == '\n' then EndNumber(s).(parseValues := false)
    else if !s.parseValues then s.(parseValues := ch == ':')
    else if IsDigit(ch) then
      s.(inNumber := true, current := if s.inNumber then AppendDigit(s.current, DigitValue(ch)) else DigitValue(ch))
    else EndNumber(s)
  }

  function ScanAll(s: Scan, text: string): Scan
    decreases |text|
  {
    if text == "" then s else ScanAll(ScanByte(s, text[0]), text[1..])
  }

  lemma {:induction false} ScanAppend(s: Scan, a: string, b: string)
    ensures ScanAll(s, a + b) == ScanAll(ScanAll(s, a), b)
    decreases |a|
  {
    if a == "" {
      assert a + b == b;
    } else {
      ScanAppend(ScanByte(s, a[0]), a[1..], b);
      assert (a + b)[1..] == a[1..] + b;
    }
  }

  lemma ScanSnoc(s: Scan, text: string, ch: char)
    ensures ScanAll(s, text + [ch]) == ScanByte(ScanAll(s, text), ch)
  {
    ScanAppend(s, text, [ch]);
  }

  // ------------------------------------------------ the automaton meets the specification

  /** Saturating digit by digit is the same as saturating the whole numeral. */
  lemma {:induction false} AppendDigitSaturates(n: nat, digit: nat)
    requires digit < 10
    ensures AppendDigit(Saturated(n), digit) == Saturated(n * 10 + digit)
  {
  }

  lemma {:induction false} ScanDigits(run: string, t: U64)
    requires run != "" && AllDigits(run)
    ensures ScanAll(Scan(true, false, 0, t), run) == Scan(true, true, Saturated(Value(run)), t)
  {
    hide ScanAll, AppendDigit, Saturated;
    var n := |run| - 1;
    assert run == run[..n] + [run[n]];
    ScanSnoc(Scan(true, false, 0, t), run[..n], run[n]);
    if n > 0 {
      ScanDigits(run[..n], t);
      AppendDigitSaturates(Value(run[..n]), DigitValue(run[n]));
    } else {
      ScanNothing(Scan(true, false, 0, t));
      SmallValue(DigitValue(run[n]));
      assert run[..n] == "";
    }
  }

  lemma ScanNothing(s: Scan)
    ensures ScanAll(s, "") == s
  {
  }

  lemma SmallValue(digit: nat)
    requires digit < 10
    ensures Saturated(digit) == digit
  {
  }

  lemma {:induction false} ScanNumerals(s: string, t: U64)
    requires '\n' !in s
    ensures EndNumber(ScanAll(Scan(true, false, 0, t), s)) == Scan(true, false, 0, Add64(t, Sum64(Numerals(s))))
    decreases |s|
  {
    var start := Scan(true, false, 0, t);
    if s == "" {
    } else if IsDigit(s[0]) {
      ScanNumeral(s, t);
    } else {
      ScanNumerals(s[1..], t);
    }
  }

  lemma {:induction false} ScanNumeral(s: string, t: U64)
    requires s != "" && '\n' !in s && IsDigit(s[0])
    ensures EndNumber(ScanAll(Scan(true, false, 0, t), s)) == Scan(true, false, 0, Add64(t, Sum64(Numerals(s))))
    decreases |s|, 0
  {
    var start, n := Scan(true, false, 0, t), DigitRun(s);
    var v := Saturated(Value(s[..n]));
    ScanDigits(s[..n], t);
    ScanAppend(start, s[..n], s[n..]);
    assert s == s[..n] + s[n..];
    Sum64Append([v], Numerals(s[n..]));
    Sum64Snoc([], v);
    assert [] + [v] == [v];
    if n < |s| {
      ScanNumerals(s[n + 1..], Add64(t, v));
      assert s[n..][1..] == s[n + 1..];
      AddAssociates(t, v, Sum64(Numerals(s[n..])));
    }
  }

  lemma AddAssociates(x: U64, y: U64, z: U64)
    ensures Add64(Add64(x, y), z) == Add64(x, Add64(y, z))
  {
  }

  lemma {:induction false} ScanHeader(s: string, t: U64)
    requires '\n' !in s && ':' !in s
    ensures ScanAll(Scan(false, false, 0, t), s) == Scan(false, false, 0, t)
    decreases |s|
  {
    if s != "" {
      ScanHeader(s[1..], t);
    }
  }

  lemma {:induction false} ScanLine(line: string, t: U64)
    requires '\n' !in line
    ensures EndNumber(ScanAll(Scan(false, false, 0, t), line)).(parseValues := false)
         == Scan(false, false, 0, Add64(t, Sum64(LineNumerals(line))))
  {
    var n := IndexOf(line, ':');
    ScanHeader(line[..n], t);
    if n < |line| {
      ScanAppend(Scan(false, false, 0, t), line[..n], line[n..]);
      assert line == line[..n] + line[n..];
      assert line[n..][1..] == line[n + 1..];
      ScanNumerals(line[n + 1..], t);
    } else {
      assert line[..n] == line;
    }
  }

  lemma {:induction false} ScanFile(text: string, t: U64)
    ensures EndNumber(ScanAll(Scan(false, false, 0, t), text)).total == Add64(t, FileTotal(text))
    decreases |text|
  {
    var start, n := Scan(false, false, 0, t), IndexOf(text, '\n');
    ScanLine(text[..n], t);
    if n < |text| {
      var rest := text[n + 1..];
      ScanAppend(start, text[..n], text[n..]);
      assert text == text[..n] + text[n..];
      assert text[n..][1..] == rest;
      ScanFile(rest, Add64(t, Sum64(LineNumerals(text[..n]))));
      Sum64Append(LineNumerals(text[..n]), FileNumerals(rest));
      AddAssociates(t, Sum64(LineNumerals(text[..n])), FileTotal(rest));
    } else {
      assert text[..n] == text;
      assert FileNumerals(text) == LineNumerals(text);
    }
  }

  // -------------------------------------------------------------------- reading

  /** What a whole pass of `fread` delivers: everything up to the first empty read. */
  function Delivered(chunks: seq<string>): string {
    if chunks == [] || chunks[0] == "" then "" else chunks[0] + Delivered(chunks[1..])
  }

  /** The read loop of `SoftirqsSensor::sample`. */
  method ScanChunks(chunks: seq<string>) returns (sawAnyData: bool, totalSoftirqs: U64)
    ensures sawAnyData <==> Delivered(chunks) != ""
    ensures totalSoftirqs == FileTotal(Delivered(chunks))
  {
    hide ScanAll, FileTotal, Delivered;
    ScanNothing(SCAN_START);
    assert chunks[0..] == chunks;
    sawAnyData := false;
    var parseValues, inNumber := false, false;
    var currentValue: U64 := 0;
    totalSoftirqs := 0;
    ghost var done := "";

    var k := 0;
    while k < |chunks| && chunks[k] != ""
      invariant k <= |chunks|
      invariant sawAnyData <==> done != ""
      invariant Delivered(chunks) == done + Delivered(chunks[k..])
      invariant Scan(parseValues, inNumber, currentValue, totalSoftirqs) == ScanAll(SCAN_START, done)
    {
      var buffer := chunks[k];
      sawAnyData := true;
      var i := 0;
      assert done + buffer[..0] == done;
      while i < |buffer|
        invariant i <= |buffer|
        invariant Scan(parseValues, inNumber, currentValue, totalSoftirqs) == ScanAll(SCAN_START, done + buffer[..i])
      {
        var ch := buffer[i];
        ScanSnoc(SCAN_START, done + buffer[..i], ch);
        assert done + buffer[..i + 1] == done + buffer[..i] + [ch];
        i := i + 1;
        if ch == '\n' {
          if inNumber {
            totalSoftirqs := Add64(totalSoftirqs, currentValue);
            inNumber := false;
            currentValue := 0;
          }
          parseValues := false;
          continue;
        }
        if !parseValues {
          if ch == ':' {
            parseValues := true;
          }
          continue;
        }
        if '0' <= ch <= '9' {
          var digit := (ch - '0') as int;
          if inNumber {
            if currentValue > U64_MAX / 10 || (currentValue == U64_MAX / 10 && digit > U64_MAX % 10) {
              currentValue := U64_MAX;
            } else {
              currentValue := currentValue * 10 + digit;
            }
          } else {
            inNumber := true;
            currentValue := digit;
          }
          continue;
        }
        if inNumber {
          totalSoftirqs := Add64(totalSoftirqs, currentValue);
          inNumber := false;
          currentValue := 0;
        }
      }
      assert buffer[..i] == buffer;
      OneMoreRead(chunks, k);
      assert done + (buffer + Delivered(chunks[k + 1..])) == done + buffer + Delivered(chunks[k + 1..]);
      done := done + buffer;
      k := k + 1;
    }

    NoMoreReads(chunks, k);
    assert done + "" == done;
    ScanFile(done, 0);
    if inNumber {
      totalSoftirqs := Add64(totalSoftirqs, currentValue);
    }
  }

  lemma OneMoreRead(chunks: seq<string>, k: nat)
    requires k < |chunks| && chunks[k] != ""
    ensures Delivered(chunks[k..]) == chunks[k] + Delivered(chunks[k + 1..])
  {
    assert chunks[k..][1..] == chunks[k + 1..];
  }

  lemma NoMoreReads(chunks: seq<string>, k: nat)
    requires k <= |chunks| && (k < |chunks| ==> chunks[k] == "")
    ensures Delivered(chunks[k..]) == ""
  {
  }

  /** How a file happens to be cut into reads never matters. */
  lemma {:induction false} DeliveredConcatenates(chunks: seq<string>)
    requires forall i :: 0 <= i < |chunks| ==> chunks[i] != ""
    ensures Delivered(chunks) == Concat(chunks)
  {
    if chunks != [] {
      DeliveredConcatenates(chunks[1..]);
      ConcatCons(chunks);
    }
  }

  // ------------------------------------------------------------------ the sensor

  /** What one pass over the open file yields. */
  datatype FileRead = NotOpen | SeekFailed | Contents(chunks: seq<string>)

  /** The fields carried from sample to sample. */
  datatype Bursts = Bursts(prevTotal: U64, baselineDelta: real, hasPrev: bool)

  const NO_BURSTS := Bursts(0, 0.0, false)

  datatype BurstResult = BurstResult(state: Bursts, softirqs: real)

  function Growth(prev: U64, total: U64): nat {
    if total >= prev then total - prev else 0
  }

  function BurstStep(s: Bursts, total: U64): BurstResult {
    if !s.hasPrev then BurstResult(Bursts(total, 0.0, true), 0.0) else
    var delta := Growth(s.prevTotal, total) as real;
    if s.baselineDelta <= 0.0 then BurstResult(Bursts(total, delta, true), 0.0) else
    var baseline := (1.0 - 0.2) * s.baselineDelta + 0.2 * delta;
    BurstResult(Bursts(total, baseline, true),
                if baseline <= 0.0 then 0.0 else Clamp01((delta / baseline - 1.5) / 2.5))
  }

  /** The total a pass yields, if it yields any data at all. */
  predicate Readable(read: FileRead) {
    read.Contents? && Delivered(read.chunks) != ""
  }

  class SoftirqsSensor {
    var prevTotal: U64
    var baselineDelta: real
    var hasPrev: bool

    ghost function State(): Bursts
      reads this
    {
      Bursts(prevTotal, baselineDelta, hasPrev)
    }

    constructor ()
      ensures State() == NO_BURSTS
    {
      prevTotal, baselineDelta, hasPrev := 0, 0.0, false;
    }

    method Sample(read: FileRead, frame: SignalFrame) returns (ok: bool)
      modifies this, frame
      ensures ok <==> Readable(read)
      ensures !ok ==> State() == old(State())
                      && frame.Value() == old(frame.Value()).(raw := old(frame.raw).(softirqs := 0.0))
      ensures ok ==> var r := BurstStep(old(State()), FileTotal(Delivered(read.chunks)));
                     State() == r.state
                     && frame.Value() == old(frame.Value()).(raw := old(frame.raw).(softirqs := r.softirqs))
    {
      if !read.Contents? {
        frame.raw := frame.raw.(softirqs := 0.0);
        return false;
      }
      var sawAnyData, totalSoftirqs := ScanChunks(read.chunks);
      if !sawAnyData {
        frame.raw := frame.raw.(softirqs := 0.0);
        return false;
      }
      if !hasPrev {
        hasPrev := true;
        prevTotal := totalSoftirqs;
        baselineDelta := 0.0;
        frame.raw := frame.raw.(softirqs := 0.0);
        return true;
      }

      var delta := if totalSoftirqs >= prevTotal then totalSoftirqs - prevTotal else 0;
      prevTotal := totalSoftirqs;
      var deltaF := delta as real;
      if baselineDelta <= 0.0 {
        baselineDelta := deltaF;
        frame.raw := frame.raw.(softirqs := 0.0);
        return true;
      }
      baselineDelta := (1.0 - 0.2) * baselineDelta + 0.2 * deltaF;
      var value := 0.0;
      if baselineDelta > 0.0 {
        var burstRatio := deltaF / baselineDelta;
        var score := (burstRatio - 1.5) / 2.5;
        value := if score < 0.0 then 0.0 else if score > 1.0 then 1.0 else score;
      }
      frame.raw := frame.raw.(softirqs := value);
      return true;
    }
  }

  /**
   The burst score in terms of counts: it is silent exactly up to 12/7 of the baseline, saturates
   exactly from 16 times the baseline, and a counter reset is never a burst.
   */
  lemma {:induction false} BurstThresholds(s: Bursts, total: U64)
    requires s.hasPrev && s.baselineDelta > 0.0
    ensures var delta := Growth(s.prevTotal, total) as real;
            var r := BurstStep(s, total);
            && 0.0 <= r.softirqs <= 1.0 && r.state.baselineDelta > 0.0
            && (r.softirqs == 0.0 <==> 7.0 * delta <= 12.0 * s.baselineDelta)
            && (r.softirqs == 1.0 <==> delta >= 16.0 * s.baselineDelta)
    ensures total < s.prevTotal ==> BurstStep(s, total).softirqs == 0.0
  {
    var delta := Growth(s.prevTotal, total) as real;
    var baseline := 0.8 * s.baselineDelta + 0.2 * delta;
    RatioThreshold(delta, baseline, 1.5);
    RatioThreshold(delta, baseline, 4.0);
  }

  function BurstRun(s: Bursts, totals: seq<U64>): BurstResult {
    if totals == [] then BurstResult(s, 0.0)
    else BurstStep(BurstRun(s, totals[..|totals| - 1]).state, totals[|totals| - 1])
  }

  /** Over every run of readable samples the score stays in the unit interval and the baseline never goes negative. */
  lemma {:induction false} BurstRunInUnit(totals: seq<U64>)
    ensures 0.0 <= BurstRun(NO_BURSTS, totals).softirqs <= 1.0
    ensures BurstRun(NO_BURSTS, totals).state.baselineDelta >= 0.0
    ensures totals != [] ==> BurstRun(NO_BURSTS, totals).state.hasPrev
                             && BurstRun(NO_BURSTS, totals).state.prevTotal == totals[|totals| - 1]
  {
    if totals != [] {
      BurstRunInUnit(totals[..|totals| - 1]);
    }
  }

  /** Counters that grow by the same amount every time never score, from the very first sample. */
  lemma {:induction false} SteadyRateIsSilent(totals: seq<U64>, rate: nat)
    requires forall i :: 1 <= i < |totals| ==> totals[i] == totals[i - 1] + rate
    ensures BurstRun(NO_BURSTS, totals).softirqs == 0.0
    ensures |totals| >= 2 ==> BurstRun(NO_BURSTS, totals).state.baselineDelta == rate as real
    ensures totals != [] ==> BurstRun(NO_BURSTS, totals).state.hasPrev
                             && BurstRun(NO_BURSTS, totals).state.prevTotal == totals[|totals| - 1]
    ensures |totals| == 1 ==> BurstRun(NO_BURSTS, totals).state.baselineDelta == 0.0
  {
    if totals != [] {
      var n := |totals| - 1;
      SteadyRateIsSilent(totals[..n], rate);
      if n >= 2 && rate > 0 {
        BurstThresholds(BurstRun(NO_BURSTS, totals[..n]).state, totals[n]);
      }
    }
  }
}
