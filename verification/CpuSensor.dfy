/** CPU utilisation from the aggregate `/proc/stat` counters (`src/sensors/cpu.cpp`). */
module CpuSensor {
  import opened Wrappers
  import opened Numeric
  import opened SignalFrame
  import opened Text

  type StatFields = v: seq<U64> | |v| == 10 witness [0, 0, 0, 0, 0, 0, 0, 0, 0, 0]

  /** One pass over the file: it fails (open, seek, read, prefix or numeral) or yields the ten fields. */
  datatype StatRead = Unreadable | Fields(values: StatFields)

  // ------------------------------------------------------------------ the first line

  datatype Parsed = Parsed(value: U64, rest: string)

  /**
   `std::strtoull` in base ten: white space, a sign, digits. Nothing comes of it without a digit or
   when the number does not fit; a minus negates modulo 2^64.
   */
  function Strtoull(s: string): Option<Parsed> {
    var t := TrimLeft(s);
    var signed := t != "" && (t[0] == '-' || t[0] == '+');
    var digits := if signed then t[1..] else t;
    var n := DigitRun(digits);
    if n == 0 || Value(digits[..n]) > U64_MAX then None
    else Some(Parsed(if signed && t[0] == '-' then Sub64(0, Value(digits[..n])) else Value(digits[..n]), digits[n..]))
  }

  function SkipBlanks(s: string): (rest: string)
    ensures |rest| <= |s| && (rest != "" ==> rest[0] != ' ')
  {
    if s != "" && s[0] == ' ' then SkipBlanks(s[1..]) else s
  }

  function Zeros(n: nat): seq<U64> {
    seq(n, i => 0)
  }

  /** The next `n` numbers of a line; those that are missing at its end count as zero. */
  function FieldsFrom(s: string, n: nat): (fields: Option<seq<U64>>)
    ensures fields.Some? ==> |fields.value| == n
    decreases n
  {
    if n == 0 then Some([]) else
    var t := SkipBlanks(s);
    if t == "" || t[0] == '\n' then Some(Zeros(n)) else
    var first := Strtoull(t);
    if first.None? then None else
    Prefixed([first.value.value], FieldsFrom(first.value.rest, n - 1))
  }

  function Prefixed(values: seq<U64>, more: Option<seq<U64>>): Option<seq<U64>> {
    if more.None? then None else Some(values + more.value)
  }

  /** What the first line says, if there is one; the text ends where the buffer's C string ends. */
  function ReadStat(line: Option<string>): StatRead {
    if line.None? || !("cpu " <= line.value) then Unreadable else
    var fields := FieldsFrom(line.value[4..], 10);
    if fields.None? then Unreadable else Fields(fields.value)
  }

  lemma NextField(values: seq<U64>, s: string, n: nat)
    requires n > 0
    ensures var t := SkipBlanks(s);
            Prefixed(values, FieldsFrom(s, n))
            == if t == "" || t[0] == '\n' then Some(values + Zeros(n))
               else if Strtoull(t).None? then None
               else Prefixed(values + [Strtoull(t).value.value], FieldsFrom(Strtoull(t).value.rest, n - 1))
  {
    hide Strtoull, SkipBlanks, Zeros;
    var t := SkipBlanks(s);
    if t != "" && t[0] != '\n' && Strtoull(t).Some? {
      var first, more := Strtoull(t).value.value, FieldsFrom(Strtoull(t).value.rest, n - 1);
      if more.Some? {
        assert values + ([first] + more.value) == values + [first] + more.value;
      }
    }
  }

  /** The parser's loop over the ten values. */
  method ParseLine(buffer: string) returns (read: StatRead)
    ensures read == ReadStat(Some(buffer))
  {
    hide Strtoull, FieldsFrom, SkipBlanks;
    if !("cpu " <= buffer) {
      return Unreadable;
    }
    var cursor := buffer[4..];
    var values: seq<U64> := Zeros(10);
    var i := 0;
    NothingPrefixed(FieldsFrom(cursor, 10));
    assert values[..0] == [];
    while i < 10
      invariant i <= 10 && |values| == 10
      invariant values[i..] == Zeros(10 - i)
      invariant FieldsFrom(buffer[4..], 10) == Prefixed(values[..i], FieldsFrom(cursor, 10 - i))
    {
      NextField(values[..i], cursor, 10 - i);
      cursor := SkipBlanks(cursor);
      if cursor == "" || cursor[0] == '\n' {
        assert values == values[..i] + values[i..];
        return Fields(values);
      }
      var parsed := Strtoull(cursor);
      if parsed.None? {
        return Unreadable;
      }
      assert values[i := parsed.value.value][..i + 1] == values[..i] + [parsed.value.value];
      assert values[i := parsed.value.value][i + 1..] == values[i..][1..] == Zeros(9 - i);
      values := values[i := parsed.value.value];
      cursor := parsed.value.rest;
      i := i + 1;
    }
    NoMoreFields(values, cursor);
    assert values[..10] == values;
    return Fields(values);
  }

  lemma NoMoreFields(values: seq<U64>, s: string)
    ensures Prefixed(values, FieldsFrom(s, 0)) == Some(values)
  {
    assert values + [] == values;
  }

  lemma NothingPrefixed(fields: Option<seq<U64>>)
    ensures Prefixed([], fields) == fields
  {
    if fields.Some? {
      assert [] + fields.value == fields.value;
    }
  }

  lemma NoLine()
    ensures ReadStat(None) == Unreadable
  {
  }

  /** The line as the kernel prints it. */
  function StatLine(values: seq<U64>): string {
    "cpu " + Columns(values) + "\n"
  }

  /** Exactly n numbers: the first ones, and zeros for those that are missing. */
  function Padded(values: seq<U64>, n: nat): (fields: seq<U64>)
    ensures |fields| == n
  {
    if n == 0 then [] else if values == [] then Zeros(n) else [values[0]] + Padded(values[1..], n - 1)
  }

  lemma NumeralIsParsed(v: U64, rest: string)
    requires rest != "" && !IsDigit(rest[0])
    ensures Strtoull(Decimal(v) + rest) == Some(Parsed(v, rest))
  {
    hide Value, Decimal;
    var d := Decimal(v);
    ValueOfDecimal(v);
    DigitRunOfNumeral(d, rest);
    assert (d + rest)[0] == d[0] && IsDigit(d[0]);
    assert (d + rest)[..|d|] == d && (d + rest)[|d|..] == rest;
  }

  lemma SpaceIsSkipped(s: string)
    requires s != "" && s[0] != ' '
    ensures SkipBlanks(s) == s && SkipBlanks(" " + s) == s
  {
    assert (" " + s)[1..] == s;
  }

  lemma ColumnIsParsed(v: U64, rest: string, n: nat)
    requires n > 0 && rest != "" && !IsDigit(rest[0])
    ensures FieldsFrom(" " + (Decimal(v) + rest), n) == Prefixed([v], FieldsFrom(rest, n - 1))
  {
    hide Strtoull, Decimal, SkipBlanks;
    assert (Decimal(v) + rest)[0] == Decimal(v)[0];
    SpaceIsSkipped(Decimal(v) + rest);
    NumeralIsParsed(v, rest);
  }

  lemma {:induction false} ColumnsAreParsed(values: seq<U64>, n: nat)
    ensures FieldsFrom(Columns(values) + "\n", n) == Some(Padded(values, n))
    ensures (Columns(values) + "\n")[0] in " \n"
    decreases n
  {
    hide Strtoull, Decimal, SkipBlanks, Zeros;
    if values == [] {
      SpaceIsSkipped("\n");
      assert Columns(values) + "\n" == "\n";
      NoColumns(n);
    } else if n > 0 {
      var rest := Columns(values[1..]) + "\n";
      ColumnsAreParsed(values[1..], n - 1);
      assert Columns(values) + "\n" == " " + (Decimal(values[0]) + rest);
      ColumnIsParsed(values[0], rest, n);
    }
  }

  lemma NoColumns(n: nat)
    ensures FieldsFrom("\n", n) == Some(Padded([], n))
  {
  }

  /** Reading the printed line gives back its first ten numbers, with zeros for columns an older kernel lacks. */
  lemma {:induction false} ReaderUndoesKernel(values: seq<U64>)
    ensures ReadStat(Some(StatLine(values))) == Fields(Padded(values, 10))
    ensures |values| >= 10 ==> Padded(values, 10) == values[..10]
  {
    hide FieldsFrom, Padded, Columns;
    ColumnsAreParsed(values, 10);
    assert StatLine(values)[4..] == Columns(values) + "\n";
    PaddedIsPrefix(values, 10);
  }

  lemma {:induction false} PaddedIsPrefix(values: seq<U64>, n: nat)
    ensures forall i :: 0 <= i < n ==> Padded(values, n)[i] == if i < |values| then values[i] else 0
  {
    if n > 0 && values != [] {
      PaddedIsPrefix(values[1..], n - 1);
    }
  }

  // ------------------------------------------------------------------- accounting

  /** `prev_total_`, `prev_idle_`, `has_prev_`. */
  datatype Counters = Counters(prevTotal: U64, prevIdle: U64, hasPrev: bool)

  const NO_COUNTERS := Counters(0, 0, false)

  function IdleOf(v: StatFields): U64 {
    Add64(v[3], v[4])
  }

  function NonIdleOf(v: StatFields): U64 {
    Add64(Add64(Add64(Add64(Add64(v[0], v[1]), v[2]), v[5]), v[6]), v[7])
  }

  function TotalOf(v: StatFields): U64 {
    Add64(IdleOf(v), NonIdleOf(v))
  }

  /** A difference that a counter reset turns into zero. */
  function Delta(now: U64, before: U64): U64 {
    if now >= before then now - before else 0
  }

  function TotalDelta(c: Counters, v: StatFields): U64 {
    if c.hasPrev then Delta(TotalOf(v), c.prevTotal) else 0
  }

  /** The ticks credited as busy by one successful sample. */
  function BusyTicks(c: Counters, v: StatFields): U64 {
    if !c.hasPrev || TotalDelta(c, v) == 0 then 0 else Delta(TotalDelta(c, v), Delta(IdleOf(v), c.prevIdle))
  }

  function Advance(c: Counters, read: StatRead): Counters {
    if read.Unreadable? then c else Counters(TotalOf(read.values), IdleOf(read.values), true)
  }

  /** The published percentage. */
  function Utilisation(c: Counters, read: StatRead): real {
    if read.Unreadable? || TotalDelta(c, read.values) == 0 then 0.0
    else BusyTicks(c, read.values) as real / TotalDelta(c, read.values) as real * 100.0
  }

  class CpuSensor {
    var prevTotal: U64
    var prevIdle: U64
    var hasPrev: bool

    ghost function State(): Counters
      reads this
    {
      Counters(prevTotal, prevIdle, hasPrev)
    }

    constructor ()
      ensures State() == NO_COUNTERS
    {
      prevTotal, prevIdle, hasPrev := 0, 0, false;
    }

    /** `line` is what rewinding the file and reading its first line delivers, unless one of them fails. */
    method Sample(line: Option<string>, frame: SignalFrame) returns (ok: bool)
      modifies this, frame
      ensures ok <==> ReadStat(line).Fields?
      ensures State() == Advance(old(State()), ReadStat(line))
      ensures frame.Value()
           == old(frame.Value()).(raw := old(frame.raw).(cpu := Utilisation(old(State()), ReadStat(line))))
    {
      hide ReadStat, Add64;
      NoLine();
      if line.None? {
        frame.raw := frame.raw.(cpu := 0.0);
        return false;
      }
      var read := ParseLine(line.value);
      if read.Unreadable? {
        frame.raw := frame.raw.(cpu := 0.0);
        return false;
      }
      var values := read.values;
      var idle := Add64(values[3], values[4]);
      var nonIdle := Add64(Add64(Add64(Add64(Add64(values[0], values[1]), values[2]), values[5]), values[6]),
                           values[7]);
      var total := Add64(idle, nonIdle);
      if !hasPrev {
        hasPrev := true;
        prevTotal := total;
        prevIdle := idle;
        frame.raw := frame.raw.(cpu := 0.0);
        return true;
      }
      var totalDelta := if total >= prevTotal then total - prevTotal else 0;
      var idleDelta := if idle >= prevIdle then idle - prevIdle else 0;
      prevTotal := total;
      prevIdle := idle;
      if totalDelta == 0 {
        frame.raw := frame.raw.(cpu := 0.0);
        return true;
      }
      var busyTicks := if totalDelta >= idleDelta then totalDelta - idleDelta else 0;
      frame.raw := frame.raw.(cpu := busyTicks as real / totalDelta as real * 100.0);
      return true;
    }
  }

  // --------------------------------------------------------------- whole runs

  function Run(c: Counters, passes: seq<StatRead>): Counters {
    if passes == [] then c else Advance(Run(c, passes[..|passes| - 1]), passes[|passes| - 1])
  }

  /** All ticks credited as busy over a run. */
  function Credited(c: Counters, passes: seq<StatRead>): nat {
    if passes == [] then 0 else
    var n := |passes| - 1;
    Credited(c, passes[..n])
    + if passes[n].Fields? then BusyTicks(Run(c, passes[..n]), passes[n].values) else 0
  }

  /** Whatever the counters do, including resets and wrap-around, the percentage is one. */
  lemma {:induction false} UtilisationIsPercentage(c: Counters, read: StatRead)
    ensures 0.0 <= Utilisation(c, read) <= 100.0
  {
    if read.Fields? && TotalDelta(c, read.values) != 0 {
      var busy, total := BusyTicks(c, read.values) as real, TotalDelta(c, read.values) as real;
      RatioThreshold(busy, total, 0.0);
      RatioThreshold(busy, total, 1.0);
    }
  }

  /** The exact, unwrapped sums of the idle and of the other accounted fields. */
  function IdleSum(v: StatFields): nat {
    v[3] as int + v[4]
  }

  function NonIdleSum(v: StatFields): nat {
    v[0] as int + v[1] + v[2] + v[5] + v[6] + v[7]
  }

  predicate Fits(read: StatRead) {
    read.Fields? ==> IdleSum(read.values) + NonIdleSum(read.values) <= U64_MAX
  }

  /** The accounted fields never decrease from one successful read to the next. */
  ghost predicate Monotone(passes: seq<StatRead>) {
    forall i, j :: 0 <= i <= j < |passes| && passes[i].Fields? && passes[j].Fields? ==> NoSmaller(passes[i], passes[j])
  }

  ghost predicate NoSmaller(a: StatRead, b: StatRead) {
    && a.Fields? && b.Fields?
    && forall k :: 0 <= k < 8 ==> a.values[k] <= b.values[k]
  }

  /** The non-idle time at the first and at the last successful read. */
  function FirstNonIdle(passes: seq<StatRead>): nat {
    if passes == [] then 0
    else if passes[0].Fields? then NonIdleSum(passes[0].values) else FirstNonIdle(passes[1..])
  }

  function LastRead(passes: seq<StatRead>): StatRead {
    if passes == [] then Unreadable
    else if passes[|passes| - 1].Fields? then passes[|passes| - 1] else LastRead(passes[..|passes| - 1])
  }

  lemma SumsAreExact(read: StatRead)
    requires Fits(read) && read.Fields?
    ensures IdleOf(read.values) == IdleSum(read.values)
    ensures TotalOf(read.values) == IdleSum(read.values) + NonIdleSum(read.values)
  {
  }

  lemma {:induction false} RunRemembersLast(passes: seq<StatRead>)
    requires forall i :: 0 <= i < |passes| ==> Fits(passes[i])
    ensures LastRead(passes).Fields? ==> LastRead(passes) in passes
    ensures LastRead(passes).Unreadable? ==> forall i :: 0 <= i < |passes| ==> passes[i].Unreadable?
    ensures Run(NO_COUNTERS, passes)
         == if LastRead(passes).Unreadable? then NO_COUNTERS
            else Counters(TotalOf(LastRead(passes).values), IdleOf(LastRead(passes).values), true)
  {
    hide TotalOf, IdleOf;
    if passes != [] {
      RunRemembersLast(passes[..|passes| - 1]);
    }
  }

  lemma {:induction false} FirstNonIdleSnoc(passes: seq<StatRead>)
    requires forall i :: 0 <= i < |passes| ==> Fits(passes[i])
    requires passes != []
    ensures var n := |passes| - 1;
            FirstNonIdle(passes) == if LastRead(passes[..n]).Fields? then FirstNonIdle(passes[..n])
                                   else if passes[n].Fields? then NonIdleSum(passes[n].values) else 0
    decreases |passes|
  {
    hide NonIdleSum;
    var n := |passes| - 1;
    RunRemembersLast(passes[..n]);
    if n > 0 && !passes[0].Fields? {
      FirstNonIdleSnoc(passes[1..]);
      RunRemembersLast(passes[1..][..n - 1]);
      assert passes[1..][..n - 1] == passes[..n][1..];
    }
  }

  lemma BusyIsNonIdleGrowth(a: StatRead, b: StatRead)
    requires Fits(a) && Fits(b) && NoSmaller(a, b)
    ensures BusyTicks(Counters(TotalOf(a.values), IdleOf(a.values), true), b.values)
         == NonIdleSum(b.values) - NonIdleSum(a.values) >= 0
  {
    SumsAreExact(a);
    SumsAreExact(b);
  }

  /**
   Conservation: over any run of counters that do not decrease, with failed reads anywhere in
   between, the credited busy ticks are exactly the non-idle time that passed between the first and
   the last successful read.
   */
  lemma {:induction false} BusyTimeIsConserved(passes: seq<StatRead>)
    requires forall i :: 0 <= i < |passes| ==> Fits(passes[i])
    requires Monotone(passes)
    ensures LastRead(passes).Unreadable? ==> Credited(NO_COUNTERS, passes) == 0
    ensures LastRead(passes).Fields? ==>
              Credited(NO_COUNTERS, passes) == NonIdleSum(LastRead(passes).values) - FirstNonIdle(passes)
  {
    hide NonIdleSum, BusyTicks, TotalOf, IdleOf, NoSmaller;
    if passes != [] {
      var n := |passes| - 1;
      var init := passes[..n];
      BusyTimeIsConserved(init);
      RunRemembersLast(init);
      FirstNonIdleSnoc(passes);
      if passes[n].Fields? {
        if LastRead(init).Fields? {
          var k :| 0 <= k < n && init[k] == LastRead(init);
          assert passes[k] == LastRead(init);
          BusyIsNonIdleGrowth(LastRead(init), passes[n]);
        } else {
          FirstSampleCreditsNothing(passes[n]);
        }
      }
    }
  }

  lemma FirstSampleCreditsNothing(read: StatRead)
    requires Fits(read) && read.Fields?
    ensures BusyTicks(NO_COUNTERS, read.values) == 0
  {
  }

  /** The published percentages, weighted by the time they stand for, are those same credited ticks. */
  lemma UtilisationCarriesCredit(c: Counters, read: StatRead)
    requires read.Fields?
    ensures Utilisation(c, read) * TotalDelta(c, read.values) as real == 100.0 * BusyTicks(c, read.values) as real
  {
    if TotalDelta(c, read.values) != 0 {
      var busy, total := BusyTicks(c, read.values) as real, TotalDelta(c, read.values) as real;
      assert busy / total * 100.0 * total == busy / total * total * 100.0;
    }
  }

  /** The counters as they are after a read. */
  function CountersAt(read: StatRead): Counters
    requires read.Fields?
  {
    Counters(TotalOf(read.values), IdleOf(read.values), true)
  }

  /**
   The percentage between two reads, in exact sums and whatever the counters do: zero when no time passed in all
   or none of it was busy, a hundred when idle time stood still or stepped back, and else the busy share.
   */
  lemma {:induction false} UtilisationExactly(a: StatRead, b: StatRead)
    requires a.Fields? && b.Fields? && Fits(a) && Fits(b)
    ensures var idle, busy := IdleSum(b.values) - IdleSum(a.values), NonIdleSum(b.values) - NonIdleSum(a.values);
            var percent := Utilisation(CountersAt(a), b);
            && (idle + busy <= 0 || busy <= 0 ==> percent == 0.0)
            && (idle + busy > 0 && idle <= 0 ==> percent == 100.0)
            && (idle >= 0 && busy > 0 ==> percent * (idle + busy) as real == 100.0 * busy as real)
  {
    hide IdleSum, NonIdleSum, TotalDelta, BusyTicks;
    TicksExactly(a, b);
    var c := CountersAt(a);
    UtilisationCarriesCredit(c, b);
    if TotalDelta(c, b.values) > 0 {
      CreditDecides(Utilisation(c, b), TotalDelta(c, b.values) as real, BusyTicks(c, b.values) as real);
    }
  }

  /** The two counts behind the percentage, in exact sums. */
  lemma TicksExactly(a: StatRead, b: StatRead)
    requires a.Fields? && b.Fields? && Fits(a) && Fits(b)
    ensures var idle, busy := IdleSum(b.values) - IdleSum(a.values), NonIdleSum(b.values) - NonIdleSum(a.values);
            var total, credit := TotalDelta(CountersAt(a), b.values), BusyTicks(CountersAt(a), b.values);
            && total as int == (if idle + busy > 0 then idle + busy else 0)
            && credit as int == (if idle + busy <= 0 || busy <= 0 then 0 else if idle <= 0 then total as int else busy)
  {
    hide IdleSum, NonIdleSum, TotalOf, IdleOf;
    SumsAreExact(a);
    SumsAreExact(b);
  }

  lemma CreditDecides(percent: real, total: real, credit: real)
    requires total > 0.0 && percent * total == 100.0 * credit
    ensures credit == 0.0 ==> percent == 0.0
    ensures credit == total ==> percent == 100.0
  {
    ScaleOrder(percent, 0.0, total);
    ScaleOrder(percent, 100.0, total);
    ScaleOrder(0.0, percent, total);
    ScaleOrder(100.0, percent, total);
  }

  /** Which field counts as what: two are idle time, two are part of others, and the rest is busy. */
  lemma {:induction false} OneFieldGrows(a: StatRead, k: nat, d: nat)
    requires a.Fields? && k < 10 && d > 0 && a.values[k] as int + d <= U64_MAX
    requires Fits(a) && Fits(Fields(a.values[k := a.values[k] + d]))
    ensures Utilisation(CountersAt(a), Fields(a.values[k := a.values[k] + d]))
         == if k in {3, 4, 8, 9} then 0.0 else 100.0
  {
    hide Utilisation;
    UtilisationExactly(a, Fields(a.values[k := a.values[k] + d]));
  }

  /** In a run the percentage is that between this read and the last one that succeeded; the first one gives none. */
  lemma {:induction false} RunUtilisation(passes: seq<StatRead>, read: StatRead)
    requires forall i :: 0 <= i < |passes| ==> Fits(passes[i])
    ensures Utilisation(Run(NO_COUNTERS, passes), read)
         == if LastRead(passes).Fields? then Utilisation(CountersAt(LastRead(passes)), read) else 0.0
    ensures LastRead(passes).Fields? ==> LastRead(passes) in passes
  {
    hide TotalOf, IdleOf, BusyTicks;
    RunRemembersLast(passes);
  }

  lemma NumeralCut(v: nat, rest: string)
    requires rest != "" && !IsDigit(rest[0])
    ensures var d, n := Decimal(v) + rest, |Decimal(v)|;
            d != "" && DigitRun(d) == n > 0 && Value(d[..n]) == v && d[n..] == rest && IsDigit(d[0])
  {
    hide Value, Decimal, DigitRun;
    var d := Decimal(v);
    ValueOfDecimal(v);
    DigitRunOfNumeral(d, rest);
    assert (d + rest)[0] == d[0];
    assert (d + rest)[..|d|] == d && (d + rest)[|d|..] == rest;
  }

  lemma PlainNumeral(v: nat, rest: string)
    requires rest != "" && !IsDigit(rest[0])
    ensures Strtoull(Decimal(v) + rest) == if v <= U64_MAX then Some(Parsed(v, rest)) else None
  {
    hide Value, Decimal, DigitRun;
    NumeralCut(v, rest);
  }

  lemma SignedNumeral(sign: char, v: nat, rest: string)
    requires sign in "+-" && rest != "" && !IsDigit(rest[0])
    ensures Strtoull([sign] + (Decimal(v) + rest))
         == if v > U64_MAX then None else Some(Parsed(if sign == '-' then Sub64(0, v) else v, rest))
  {
    hide Value, Decimal, DigitRun, Sub64;
    NumeralCut(v, rest);
    assert ([sign] + (Decimal(v) + rest))[1..] == Decimal(v) + rest;
  }

  /** A numeral is read if it fits; a plus changes nothing and a minus negates it modulo 2^64. */
  lemma {:induction false} NumeralsAreRead(v: nat, rest: string)
    requires rest != "" && !IsDigit(rest[0])
    ensures Strtoull(Decimal(v) + rest) == Strtoull(['+'] + (Decimal(v) + rest))
         == if v <= U64_MAX then Some(Parsed(v, rest)) else None
    ensures Strtoull(['-'] + (Decimal(v) + rest))
         == if v <= U64_MAX then Some(Parsed(if v == 0 then 0 else U64_MAX + 1 - v, rest)) else None
  {
    hide Value, Decimal, Strtoull;
    PlainNumeral(v, rest);
    SignedNumeral('+', v, rest);
    SignedNumeral('-', v, rest);
  }

  /** Text that does not begin with a number reads as none. */
  lemma NoNumeral(s: string)
    requires s != "" && !IsSpace(s[0]) && !IsDigit(s[0]) && s[0] != '-' && s[0] != '+'
    ensures Strtoull(s) == None
  {
    hide Value;
  }

  /** The lines of the single processors are not taken for the aggregate one. */
  lemma SingleProcessorIsNone(k: nat, rest: string)
    ensures ReadStat(Some("cpu" + Decimal(k) + rest)) == Unreadable
  {
    hide Decimal;
    var line := "cpu" + Decimal(k) + rest;
    assert line[3] == Decimal(k)[0];
    assert "cpu "[3] == ' ';
  }

  lemma BlankColumn(bad: string, n: nat)
    requires n > 0 && bad != "" && bad[0] !in " \n" && Strtoull(bad) == None
    ensures FieldsFrom(" " + bad, n) == None
  {
    hide Strtoull, SkipBlanks;
    SpaceIsSkipped(bad);
  }

  /** A column that is no number spoils the line, wherever among the first ten it stands. */
  lemma {:induction false} BadColumnSpoils(values: seq<U64>, n: nat, bad: string)
    requires |values| < n && bad != "" && bad[0] !in " \n" && Strtoull(bad) == None
    ensures FieldsFrom(Columns(values) + " " + bad, n) == None
  {
    hide Strtoull, Decimal, FieldsFrom, Columns;
    ColumnsStart(values, bad);
    if values == [] {
      BlankColumn(bad, n);
    } else {
      var rest := Columns(values[1..]) + " " + bad;
      BadColumnSpoils(values[1..], n - 1, bad);
      ColumnsStart(values[1..], bad);
      ColumnIsParsed(values[0], rest, n);
    }
  }

  lemma ColumnsStart(values: seq<U64>, bad: string)
    ensures (Columns(values) + " " + bad)[0] == ' '
    ensures Columns(values) + " " + bad
         == if values == [] then " " + bad
            else " " + (Decimal(values[0]) + (Columns(values[1..]) + " " + bad))
  {
    hide Decimal;
  }
}
