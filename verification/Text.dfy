/** Characters, decimal numerals and lines: the textual notions several parsers share. */
module Text {

  /** `text.find(c)` / `strstr`-style position of the first occurrence, or the length. */
  function IndexOf(s: string, c: char): (n: nat)
    ensures n <= |s|
    ensures c !in s[..n]
    ensures n < |s| ==> s[n] == c
  {
    if s == "" || s[0] == c then 0 else
    var n := IndexOf(s[1..], c) + 1;
    assert s[..n] == [s[0]] + s[1..][..n - 1];
    n
  }

  lemma {:induction false} IndexOfUnique(s: string, c: char, n: nat)
    requires n <= |s| && c !in s[..n] && (n < |s| ==> s[n] == c)
    ensures IndexOf(s, c) == n
  {
    if n > 0 {
      assert s[..n][0] == s[0];
      assert s[1..][..n - 1] == s[..n][1..];
      IndexOfUnique(s[1..], c, n - 1);
    }
  }

  // -------------------------------------------------------------- white space

  /** `std::isspace`. */
  predicate IsSpace(c: char) {
    c == ' ' || c == '\t' || c == '\n' || c == '\U{0B}' || c == '\U{0C}' || c == '\r'
  }

  /** White space is the blank and the control characters from tab to carriage return. */
  lemma SpacesByCode(c: char)
    ensures IsSpace(c) <==> c as int == 32 || 9 <= c as int <= 13
  {
  }

  function TrimLeft(s: string): string {
    if s != "" && IsSpace(s[0]) then TrimLeft(s[1..]) else s
  }

  // ---------------------------------------------------------------- numerals

  predicate IsDigit(c: char) {
    '0' <= c <= '9'
  }

  function DigitValue(c: char): (d: nat)
    requires IsDigit(c)
    ensures d < 10
  {
    (c - '0') as int
  }

  function DigitChar(d: nat): (c: char)
    requires d < 10
    ensures IsDigit(c) && DigitValue(c) == d
  {
    '0' + d as char
  }

  predicate AllDigits(s: string) {
    forall i :: 0 <= i < |s| ==> IsDigit(s[i])
  }

  /** The number a numeral denotes, of any length. */
  function Value(s: string): nat
    requires AllDigits(s)
  {
    if s == "" then 0 else Value(s[..|s| - 1]) * 10 + DigitValue(s[|s| - 1])
  }

  /** `std::to_string` of an unsigned integer. */
  function Decimal(n: nat): (s: string)
    ensures s != "" && AllDigits(s)
  {
    if n < 10 then [DigitChar(n)] else Decimal(n / 10) + [DigitChar(n % 10)]
  }

  lemma {:induction false} ValueOfDecimal(n: nat)
    ensures Value(Decimal(n)) == n
  {
    var s := Decimal(n);
    if n < 10 {
      assert s[..0] == "";
    } else {
      ValueOfDecimal(n / 10);
      assert s[..|s| - 1] == Decimal(n / 10);
    }
  }

  /** Length of the leading run of digits. */
  function DigitRun(s: string): (n: nat)
    ensures n <= |s| && AllDigits(s[..n])
    ensures n < |s| ==> !IsDigit(s[n])
  {
    if s == "" || !IsDigit(s[0]) then 0 else
    var n := DigitRun(s[1..]) + 1;
    assert s[..n] == [s[0]] + s[1..][..n - 1];
    n
  }

  lemma {:induction false} DigitRunOfNumeral(run: string, rest: string)
    requires AllDigits(run)
    requires rest != "" ==> !IsDigit(rest[0])
    ensures DigitRun(run + rest) == |run|
  {
    if run == "" {
      assert run + rest == rest;
    } else {
      assert (run + rest)[1..] == run[1..] + rest;
      DigitRunOfNumeral(run[1..], rest);
    }
  }

  /** Numbers in columns, each after a space. */
  function Columns(values: seq<nat>): string {
    if values == [] then "" else " " + Decimal(values[0]) + Columns(values[1..])
  }

  // ------------------------------------------------------------------- lines

  /** The newline-terminated lines of a text, and what follows the last newline. */
  function CompleteLines(s: string): seq<string>
    decreases |s|
  {
    var n := IndexOf(s, '\n');
    if n < |s| then [s[..n]] + CompleteLines(s[n + 1..]) else []
  }

  function Tail(s: string): string
    decreases |s|
  {
    var n := IndexOf(s, '\n');
    if n < |s| then Tail(s[n + 1..]) else s
  }

  function Unlines(lines: seq<string>): string {
    if lines == [] then "" else lines[0] + "\n" + Unlines(lines[1..])
  }

  lemma SplitFirst(line: string, rest: string)
    requires '\n' !in line
    ensures CompleteLines(line + "\n" + rest) == [line] + CompleteLines(rest)
    ensures Tail(line + "\n" + rest) == Tail(rest)
  {
    var s := line + "\n" + rest;
    assert s[..|line|] == line && s[|line| + 1..] == rest;
    IndexOfUnique(s, '\n', |line|);
  }

  lemma SplitNothing(s: string)
    requires '\n' !in s
    ensures CompleteLines(s) == [] && Tail(s) == s
  {
    IndexOfUnique(s, '\n', |s|);
  }

  /** Splitting a longer text only ever continues from the unterminated tail. */
  lemma {:induction false} SplitAppend(a: string, b: string)
    ensures CompleteLines(a + b) == CompleteLines(a) + CompleteLines(Tail(a) + b)
    ensures Tail(a + b) == Tail(Tail(a) + b)
    decreases |a|
  {
    hide CompleteLines, Tail;
    var n := IndexOf(a, '\n');
    var line := a[..n];
    if n < |a| {
      var rest := a[n + 1..];
      assert a == line + "\n" + rest;
      assert a + b == line + "\n" + (rest + b);
      SplitFirst(line, rest);
      SplitFirst(line, rest + b);
      SplitAppend(rest, b);
    } else {
      assert line == a;
      SplitNothing(a);
    }
  }

  /** Splitting undoes joining ... */
  lemma {:induction false} SplitUnlines(lines: seq<string>, tail: string)
    requires '\n' !in tail && forall i :: 0 <= i < |lines| ==> '\n' !in lines[i]
    ensures CompleteLines(Unlines(lines) + tail) == lines && Tail(Unlines(lines) + tail) == tail
  {
    hide CompleteLines, Tail;
    if lines == [] {
      assert Unlines(lines) + tail == tail;
      SplitNothing(tail);
    } else {
      var rest := Unlines(lines[1..]) + tail;
      assert Unlines(lines) + tail == lines[0] + "\n" + rest;
      SplitFirst(lines[0], rest);
      SplitUnlines(lines[1..], tail);
    }
  }

  /** ... and joining undoes splitting, so the split of a text is unique. */
  lemma {:induction false} UnlinesSplit(s: string)
    ensures Unlines(CompleteLines(s)) + Tail(s) == s
    ensures '\n' !in Tail(s) && forall i :: 0 <= i < |CompleteLines(s)| ==> '\n' !in CompleteLines(s)[i]
    decreases |s|
  {
    hide CompleteLines, Tail, Unlines;
    var n := IndexOf(s, '\n');
    var line := s[..n];
    if n < |s| {
      var rest := s[n + 1..];
      assert s == line + "\n" + rest;
      SplitFirst(line, rest);
      UnlinesSplit(rest);
      UnlinesCons(line, CompleteLines(rest));
      assert line + "\n" + (Unlines(CompleteLines(rest)) + Tail(rest))
          == (line + "\n" + Unlines(CompleteLines(rest))) + Tail(rest);
    } else {
      assert line == s;
      SplitNothing(s);
      UnlinesNone();
    }
  }

  lemma UnlinesCons(line: string, lines: seq<string>)
    ensures Unlines([line] + lines) == line + "\n" + Unlines(lines)
  {
  }

  lemma UnlinesNone()
    ensures Unlines([]) == ""
  {
  }

  // ------------------------------------------------------------------ chunks

  function Concat(chunks: seq<string>): string {
    if chunks == [] then "" else Concat(chunks[..|chunks| - 1]) + chunks[|chunks| - 1]
  }

  lemma ConcatSnoc(chunks: seq<string>, k: nat)
    requires k < |chunks|
    ensures Concat(chunks[..k + 1]) == Concat(chunks[..k]) + chunks[k]
  {
    assert chunks[..k + 1][..k] == chunks[..k];
  }

  lemma ConcatOne(chunk: string)
    ensures Concat([chunk]) == chunk
  {
    assert [chunk][..0] == [];
  }

  lemma {:induction false} ConcatCons(chunks: seq<string>)
    requires chunks != []
    ensures Concat(chunks) == chunks[0] + Concat(chunks[1..])
  {
    hide Concat;
    var n, rest := |chunks| - 1, chunks[1..];
    assert chunks[..n + 1] == chunks && rest[..n] == rest;
    if n == 0 {
      assert chunks == [chunks[0]] && rest == [];
      ConcatOne(chunks[0]);
      ConcatNone();
    } else {
      ConcatSnoc(chunks, n);
      ConcatSnoc(rest, n - 1);
      ConcatCons(chunks[..n]);
      assert chunks[..n][1..] == rest[..n - 1];
    }
  }

  lemma ConcatNone()
    ensures Concat([]) == ""
  {
  }

  lemma {:induction false} ConcatPrefix(chunks: seq<string>, k: nat)
    requires k <= |chunks|
    ensures Concat(chunks[..k]) <= Concat(chunks)
  {
    if k < |chunks| {
      ConcatPrefix(chunks[..|chunks| - 1], k);
      assert chunks[..|chunks| - 1][..k] == chunks[..k];
    } else {
      assert chunks[..k] == chunks;
    }
  }
}
