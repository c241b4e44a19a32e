/**
 The snapshot printer of the sensor tests (`tests/sensors_unit_tests.cpp`, `build_softirqs_snapshot`)
 and the round trip through the reader.
 */
module SoftirqSnapshot {
  import opened Numeric
  import opened Text
  import opened Softirqs

  function CpuColumns(cpu: nat, count: nat): string
    requires cpu <= count
    decreases count - cpu
  {
    if cpu == count then ""
    else "CPU" + Decimal(cpu) + (if cpu + 1 < count then "       " else "") + CpuColumns(cpu + 1, count)
  }

  datatype Row = Row(name: string, values: seq<U64>) {
    predicate WellNamed() {
      ':' !in name && '\n' !in name
    }
  }

  function Rows(rows: seq<Row>): string {
    if rows == [] then "" else rows[0].name + ":" + Columns(rows[0].values) + "\n" + Rows(rows[1..])
  }

  function Counters(rows: seq<Row>): seq<U64> {
    if rows == [] then [] else rows[0].values + Counters(rows[1..])
  }

  /** `build_softirqs_snapshot`, for any list of rows under the CPU header. */
  function Snapshot(cpus: nat, rows: seq<Row>): string {
    "                    " + CpuColumns(0, cpus) + "\n" + Rows(rows)
  }

  function BuildSoftirqsSnapshot(hiValues: seq<U64>, timerValues: seq<U64>): string {
    Snapshot(|hiValues|, [Row("HI", hiValues), Row("TIMER", timerValues)])
  }

  lemma {:induction false} HeaderHasNoColon(cpu: nat, count: nat)
    requires cpu <= count
    ensures ':' !in CpuColumns(cpu, count) && '\n' !in CpuColumns(cpu, count)
    decreases count - cpu
  {
    if cpu < count {
      HeaderHasNoColon(cpu + 1, count);
      assert forall c :: c in Decimal(cpu) ==> IsDigit(c);
    }
  }

  lemma NumeralFirst(v: string, rest: string)
    requires v != "" && AllDigits(v) && (rest != "" ==> !IsDigit(rest[0]))
    ensures Numerals(v + rest) == [Saturated(Value(v))] + Numerals(rest)
  {
    hide Value;
    DigitRunOfNumeral(v, rest);
    assert (v + rest)[..|v|] == v && (v + rest)[|v|..] == rest;
  }

  lemma SpaceFirst(s: string)
    ensures Numerals(" " + s) == Numerals(s)
  {
    assert (" " + s)[1..] == s;
  }

  lemma FirstNumeral(n: U64, rest: string)
    requires rest != "" ==> !IsDigit(rest[0])
    ensures Numerals(" " + Decimal(n) + rest) == [n] + Numerals(rest)
  {
    hide Numerals, Decimal, Value;
    ValueOfDecimal(n);
    NumeralFirst(Decimal(n), rest);
    SpaceFirst(Decimal(n) + rest);
    assert " " + Decimal(n) + rest == " " + (Decimal(n) + rest);
  }

  lemma {:induction false} NumeralsOfColumns(values: seq<U64>)
    ensures Numerals(Columns(values)) == values
    ensures Columns(values) != "" ==> !IsDigit(Columns(values)[0])
  {
    hide Numerals;
    if values == [] {
      NoNumerals();
    } else {
      NumeralsOfColumns(values[1..]);
      FirstNumeral(values[0], Columns(values[1..]));
    }
  }

  lemma NoNumerals()
    ensures Numerals("") == []
  {
  }

  lemma {:induction false} ColumnsOnOneLine(values: seq<U64>)
    ensures '\n' !in Columns(values)
  {
    if values != [] {
      ColumnsOnOneLine(values[1..]);
      assert forall c :: c in Decimal(values[0]) ==> IsDigit(c);
    }
  }

  lemma SplitFirstLine(line: string, rest: string)
    requires '\n' !in line
    ensures FileNumerals(line + "\n" + rest) == LineNumerals(line) + FileNumerals(rest)
  {
    var text := line + "\n" + rest;
    assert text[..|line|] == line && text[|line| + 1..] == rest;
    IndexOfUnique(text, '\n', |line|);
  }

  lemma {:induction false} NumeralsOfRows(rows: seq<Row>)
    requires forall i :: 0 <= i < |rows| ==> rows[i].WellNamed()
    ensures FileNumerals(Rows(rows)) == Counters(rows)
  {
    if rows == [] {
      assert LineNumerals("") == [];
    } else {
      var name, values := rows[0].name, Columns(rows[0].values);
      var line := name + ":" + values;
      NumeralsOfRows(rows[1..]);
      NumeralsOfColumns(rows[0].values);
      ColumnsOnOneLine(rows[0].values);
      assert line[..|name|] == name && line[|name| + 1..] == values;
      IndexOfUnique(line, ':', |name|);
      SplitFirstLine(line, Rows(rows[1..]));
    }
  }

  /** Reading a printed snapshot, however it is cut into chunks, yields exactly the printed counters. */
  lemma {:induction false} ReaderUndoesPrinter(cpus: nat, rows: seq<Row>)
    requires forall i :: 0 <= i < |rows| ==> rows[i].WellNamed()
    ensures FileNumerals(Snapshot(cpus, rows)) == Counters(rows)
    ensures FileTotal(Snapshot(cpus, rows)) == Sum(Counters(rows)) % 0x1_0000_0000_0000_0000
  {
    var header := "                    " + CpuColumns(0, cpus);
    HeaderHasNoColon(0, cpus);
    assert IndexOf(header, ':') == |header| by {
      IndexOfUnique(header, ':', |header|);
    }
    SplitFirstLine(header, Rows(rows));
    NumeralsOfRows(rows);
    Sum64IsModular(Counters(rows));
  }

  /** The printer of the tests: the total is the sum of all counters modulo 2^64. */
  lemma SnapshotRoundTrip(hiValues: seq<U64>, timerValues: seq<U64>)
    ensures FileTotal(BuildSoftirqsSnapshot(hiValues, timerValues))
         == (Sum(hiValues) + Sum(timerValues)) % 0x1_0000_0000_0000_0000
  {
    hide FileTotal, FileNumerals, Snapshot, Counters;
    var rows := [Row("HI", hiValues), Row("TIMER", timerValues)];
    ReaderUndoesPrinter(|hiValues|, rows);
    CountersOfTwo(rows[0], rows[1]);
    SumAppend(hiValues, timerValues);
  }

  lemma CountersOfTwo(a: Row, b: Row)
    ensures Counters([a, b]) == a.values + b.values
  {
    assert [a, b][1..] == [b] && [b][1..] == [];
    assert Counters([b]) == b.values + Counters([]);
  }
}
