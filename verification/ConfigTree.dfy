/**
 Configurations as section trees: rendering a tree at two spaces per level and loading it calls
 `apply_key_value` once per leaf, in order, with its dotted path; blank lines and comments never matter.
 */
module ConfigTree {
  import opened Wrappers
  import opened Text
  import opened Config

  datatype Node = Leaf(name: string, value: string) | Section(name: string, children: seq<Node>)

  /** Text without surrounding white space that is not empty. */
  predicate Trimmed(s: string) {
    s != "" && !IsSpace(s[0]) && !IsSpace(s[|s| - 1])
  }

  predicate GoodName(s: string) {
    Trimmed(s) && '#' !in s && '\n' !in s && ':' !in s
  }

  predicate GoodValue(s: string) {
    Trimmed(s) && '#' !in s && '\n' !in s
  }

  predicate GoodNode(node: Node) {
    GoodName(node.name)
    && match node
       case Leaf(_, value) => GoodValue(value)
       case Section(_, children) => GoodForest(children)
  }

  predicate GoodForest(nodes: seq<Node>) {
    nodes == [] || (GoodNode(nodes[0]) && GoodForest(nodes[1..]))
  }

  function Indent(depth: nat): string {
    seq(2 * depth, i => ' ')
  }

  function RenderNode(node: Node, depth: nat): seq<string> {
    match node
    case Leaf(name, value) => [Indent(depth) + name + ": " + value]
    case Section(name, children) => [Indent(depth) + name + ":"] + Render(children, depth + 1)
  }

  function Render(nodes: seq<Node>, depth: nat): seq<string> {
    if nodes == [] then [] else RenderNode(nodes[0], depth) + Render(nodes[1..], depth)
  }

  function FlattenNode(node: Node, path: string): Settings {
    match node
    case Leaf(name, value) => [(path + name, value)]
    case Section(name, children) => Flatten(children, path + name + ".")
  }

  function Flatten(nodes: seq<Node>, path: string): Settings {
    if nodes == [] then [] else FlattenNode(nodes[0], path) + Flatten(nodes[1..], path)
  }

  // --------------------------------------------------------------------- trimming

  predicate AllSpace(s: string) {
    forall i :: 0 <= i < |s| ==> IsSpace(s[i])
  }

  lemma {:induction false} TrimLeftSkips(pad: string, s: string)
    requires AllSpace(pad)
    ensures TrimLeft(pad + s) == TrimLeft(s)
  {
    if pad == "" {
      assert pad + s == s;
    } else {
      TrimLeftSkips(pad[1..], s);
      assert (pad + s)[1..] == pad[1..] + s;
    }
  }

  lemma {:induction false} TrimRightSkips(s: string, pad: string)
    requires AllSpace(pad)
    ensures TrimRight(s + pad) == TrimRight(s)
  {
    if pad == "" {
      assert s + pad == s;
    } else {
      TrimRightSkips(s, pad[..|pad| - 1]);
      assert (s + pad)[..|s + pad| - 1] == s + pad[..|pad| - 1];
    }
  }

  lemma TrimmedStays(s: string)
    requires Trimmed(s)
    ensures TrimLeft(s) == s && TrimRight(s) == s && Trim(s) == s
  {
  }

  lemma {:induction false} TrimAllSpace(s: string)
    requires AllSpace(s)
    ensures TrimLeft(s) == "" && Trim(s) == ""
  {
    if s != "" {
      TrimAllSpace(s[1..]);
    }
  }

  lemma TrimPadded(before: string, s: string, after: string)
    requires AllSpace(before) && AllSpace(after) && Trimmed(s)
    ensures Trim(before + s + after) == s
  {
    TrimLeftSkips(before, s + after);
    assert before + s + after == before + (s + after);
    assert TrimLeft(s + after) == s + after;
    TrimRightSkips(s, after);
    TrimmedStays(s);
  }

  /** Trailing white space changes neither the trimmed text nor the indentation of a line that says something. */
  lemma {:induction false} TrailingSpace(line: string, pad: string)
    requires AllSpace(pad)
    ensures Trim(line + pad) == Trim(line)
    ensures Trim(line) != "" ==> LeadingSpaces(line + pad) == LeadingSpaces(line)
  {
    if line == "" {
      assert line + pad == pad;
      TrimAllSpace(pad);
      assert Trim("") == "";
    } else if IsSpace(line[0]) {
      TrailingSpace(line[1..], pad);
      assert (line + pad)[1..] == line[1..] + pad;
    } else {
      TrimRightSkips(line, pad);
    }
  }

  // ---------------------------------------------------------------- rendered lines

  lemma {:induction false} IndentCounts(depth: nat, s: string)
    requires s != "" && s[0] != ' '
    ensures LeadingSpaces(Indent(depth) + s) == 2 * depth
    ensures AllSpace(Indent(depth))
  {
    if depth == 0 {
      assert Indent(0) + s == s;
    } else {
      IndentCounts(depth - 1, s);
      var line := Indent(depth) + s;
      assert line[1..][1..] == Indent(depth - 1) + s;
    }
  }

  lemma ClassifyStripped(line: string, depth: nat, stripped: string, colon: nat)
    requires '#' !in line && LeadingSpaces(line) == 2 * depth && Trim(line) == stripped
    requires colon == IndexOf(stripped, ':') < |stripped|
    ensures var name, value := Trim(stripped[..colon]), Trim(stripped[colon + 1..]);
            Classify(line) == if value == "" then Header(depth, name) else Setting(depth, name, value)
  {
    hide LeadingSpaces, Trim;
    IndexOfUnique(line, '#', |line|);
    assert line[..|line|] == line;
  }

  lemma ClassifySection(name: string, depth: nat)
    requires GoodName(name)
    ensures Classify(Indent(depth) + name + ":") == Header(depth, name)
  {
    hide Classify, LeadingSpaces, Trim;
    var s := name + ":";
    var line := Indent(depth) + s;
    assert Indent(depth) + name + ":" == line;
    IndentCounts(depth, s);
    TrimPadded(Indent(depth), s, "");
    assert Indent(depth) + s + "" == line;
    IndexOfUnique(s, ':', |name|);
    assert s[..|name|] == name && s[|name| + 1..] == "";
    TrimmedStays(name);
    TrimNothing();
    assert '#' !in line;
    ClassifyStripped(line, depth, s, |name|);
  }

  lemma ClassifyLeaf(name: string, value: string, depth: nat)
    requires GoodName(name) && GoodValue(value)
    ensures Classify(Indent(depth) + name + ": " + value) == Setting(depth, name, value)
  {
    hide Classify, LeadingSpaces, Trim;
    var s := name + ": " + value;
    var line := Indent(depth) + s;
    assert Indent(depth) + name + ": " + value == line;
    IndentCounts(depth, s);
    TrimPadded(Indent(depth), s, "");
    assert Indent(depth) + s + "" == line;
    IndexOfUnique(s, ':', |name|);
    assert s[..|name|] == name && s[|name| + 1..] == " " + value + "";
    TrimmedStays(name);
    TrimPadded(" ", value, "");
    assert '#' !in line;
    ClassifyStripped(line, depth, s, |name|);
  }

  // ------------------------------------------------------------------- flattening

  lemma {:induction false} RecordAppend(sections: seq<string>, a: seq<string>, b: seq<string>)
    ensures Record(sections, a + b)
         == var first := Record(sections, a);
            if first.tooDeep then first else
            var second := Record(first.sections, b);
            Recorded(first.settings + second.settings, second.sections, second.tooDeep)
    decreases |a|
  {
    hide Classify, Calls, OpenAfter, TooDeep;
    if a == [] {
      assert a + b == b;
      assert [] + Record(sections, b).settings == Record(sections, b).settings;
    } else {
      var entry := Classify(a[0]);
      assert (a + b)[1..] == a[1..] + b;
      if !TooDeep(sections, entry) {
        var open := OpenAfter(sections, entry);
        RecordAppend(open, a[1..], b);
        AppendAssociates(Calls(sections, entry), Record(open, a[1..]).settings,
                         Record(Record(open, a[1..]).sections, b).settings);
      }
    }
  }

  lemma AppendAssociates(a: Settings, b: Settings, c: Settings)
    ensures a + (b + c) == a + b + c
  {
  }

  /** The lines ask for exactly these calls, whichever sections are open beyond `depth`, and keep the first `depth`. */
  ghost predicate AsksFor(sections: seq<string>, depth: nat, lines: seq<string>, settings: Settings) {
    var r := Record(sections, lines);
    && !r.tooDeep && r.settings == settings
    && depth <= |sections| && depth <= |r.sections| && r.sections[..depth] == sections[..depth]
  }

  lemma AskThen(sections: seq<string>, depth: nat, a: seq<string>, first: Settings, b: seq<string>, second: Settings)
    requires AsksFor(sections, depth, a, first)
    requires AsksFor(Record(sections, a).sections, depth, b, second)
    ensures AsksFor(sections, depth, a + b, first + second)
  {
    hide Record;
    RecordAppend(sections, a, b);
  }

  lemma OneLine(sections: seq<string>, line: string, entry: Entry)
    requires Classify(line) == entry && !TooDeep(sections, entry)
    ensures Record(sections, [line]) == Recorded(Calls(sections, entry), OpenAfter(sections, entry), false)
  {
    hide Classify, Calls, OpenAfter, TooDeep;
    RecordNext(sections, line, []);
    assert [line] + [] == [line];
  }

  lemma LeafAsks(sections: seq<string>, name: string, value: string, depth: nat)
    requires GoodName(name) && GoodValue(value) && depth <= |sections|
    ensures AsksFor(sections, depth, [Indent(depth) + name + ": " + value],
                    [(Path(sections[..depth]) + name, value)])
  {
    hide Classify, Path, Record;
    ClassifyLeaf(name, value, depth);
    assert CloseTo(sections, depth) == sections[..depth];
    OneLine(sections, Indent(depth) + name + ": " + value, Setting(depth, name, value));
  }

  lemma HeaderOpens(sections: seq<string>, name: string, depth: nat)
    requires GoodName(name) && depth <= |sections|
    ensures Record(sections, [Indent(depth) + name + ":"]) == Recorded([], sections[..depth] + [name], false)
  {
    hide Classify, Record;
    ClassifySection(name, depth);
    assert CloseTo(sections, depth) == sections[..depth];
    OneLine(sections, Indent(depth) + name + ":", Header(depth, name));
  }

  lemma SectionAsks(sections: seq<string>, name: string, depth: nat, lines: seq<string>, settings: Settings)
    requires GoodName(name) && depth <= |sections|
    requires AsksFor(sections[..depth] + [name], depth + 1, lines, settings)
    ensures AsksFor(sections, depth, [Indent(depth) + name + ":"] + lines, settings)
  {
    hide Record;
    var header, inside := [Indent(depth) + name + ":"], sections[..depth] + [name];
    HeaderOpens(sections, name, depth);
    RecordAppend(sections, header, lines);
    assert [] + settings == settings;
    var r := Record(inside, lines);
    assert r.sections[..depth] == r.sections[..depth + 1][..depth];
    assert inside[..depth + 1][..depth] == sections[..depth];
  }

  lemma {:induction false} NodeAsks(sections: seq<string>, node: Node, depth: nat)
    requires GoodNode(node) && depth <= |sections|
    ensures AsksFor(sections, depth, RenderNode(node, depth), FlattenNode(node, Path(sections[..depth])))
    decreases node
  {
    hide AsksFor, Path, Flatten, Render, GoodForest, GoodName, GoodValue;
    match node
    case Leaf(name, value) => LeafAsks(sections, name, value, depth);
    case Section(name, children) =>
      var inside := sections[..depth] + [name];
      NameNotEmpty(name);
      PathSnoc(sections[..depth], name);
      assert Path(sections[..depth]) + name + "." == Path(sections[..depth]) + (name + ".");
      assert inside[..depth + 1] == inside;
      ForestAsks(inside, children, depth + 1);
      SectionAsks(sections, name, depth, Render(children, depth + 1), Flatten(children, Path(inside)));
  }

  lemma NameNotEmpty(name: string)
    requires GoodName(name)
    ensures name != ""
  {
  }

  /** Below any `depth` open sections, the rendering of a forest asks for its leaves, each once and in order. */
  lemma {:induction false} ForestAsks(sections: seq<string>, nodes: seq<Node>, depth: nat)
    requires GoodForest(nodes) && depth <= |sections|
    ensures AsksFor(sections, depth, Render(nodes, depth), Flatten(nodes, Path(sections[..depth])))
    decreases nodes
  {
    hide AsksFor, Path, RenderNode, FlattenNode, GoodNode;
    if nodes == [] {
      NothingAsks(sections, depth);
    } else {
      var path, node := Path(sections[..depth]), RenderNode(nodes[0], depth);
      NodeAsks(sections, nodes[0], depth);
      SectionsKept(sections, depth, node, FlattenNode(nodes[0], path));
      ForestAsks(Record(sections, node).sections, nodes[1..], depth);
      AskThen(sections, depth, node, FlattenNode(nodes[0], path), Render(nodes[1..], depth), Flatten(nodes[1..], path));
    }
  }

  lemma NothingAsks(sections: seq<string>, depth: nat)
    requires depth <= |sections|
    ensures AsksFor(sections, depth, [], [])
  {
  }

  lemma SectionsKept(sections: seq<string>, depth: nat, lines: seq<string>, settings: Settings)
    requires AsksFor(sections, depth, lines, settings)
    ensures depth <= |sections| && depth <= |Record(sections, lines).sections|
    ensures Record(sections, lines).sections[..depth] == sections[..depth]
  {
  }

  // ----------------------------------------------------------------- comments and blanks

  /** What an editor may put around a line: lines that say nothing before it, padding and a comment after it. */
  datatype Decoration = Decoration(before: seq<string>, pad: string, comment: Option<string>) {
    predicate Harmless() {
      AllSpace(pad) && forall i :: 0 <= i < |before| ==> SaysNothing(before[i])
    }

    predicate WithinLines() {
      && '\n' !in pad && (comment.Some? ==> '\n' !in comment.value)
      && forall i :: 0 <= i < |before| ==> '\n' !in before[i]
    }
  }

  predicate SaysNothing(line: string) {
    Trim(Uncommented(line)) == ""
  }

  /** One space more than two for each section does not open another one. */
  lemma OddSpaceDoesNotMatter(line: string)
    requires LeadingSpaces(Uncommented(line)) % 2 == 0
    ensures Classify(" " + line) == Classify(line)
  {
    hide Trim, IndexOf;
    OneSpace(line);
    var text := Uncommented(line);
    assert (" " + text)[1..] == text;
  }

  lemma OneSpace(line: string)
    ensures Uncommented(" " + line) == " " + Uncommented(line)
    ensures Trim(" " + Uncommented(line)) == Trim(Uncommented(line))
  {
    hide TrimRight;
    assert (" " + line)[1..] == line;
    assert (" " + Uncommented(line))[1..] == Uncommented(line);
  }

  function DecorateLine(line: string, d: Decoration): string {
    line + d.pad + if d.comment.Some? then "#" + d.comment.value else ""
  }

  function Decorate(lines: seq<string>, ds: seq<Decoration>): seq<string>
    requires |ds| == |lines|
  {
    if lines == [] then [] else ds[0].before + [DecorateLine(lines[0], ds[0])] + Decorate(lines[1..], ds[1..])
  }

  lemma CutComment(line: string, comment: string)
    requires '#' !in line
    ensures Uncommented(line + "#" + comment) == line && Uncommented(line) == line
  {
    IndexOfUnique(line + "#" + comment, '#', |line|);
    IndexOfUnique(line, '#', |line|);
    assert (line + "#" + comment)[..|line|] == line;
    assert line[..|line|] == line;
  }

  lemma DecorationBehindComment(line: string, more: string)
    requires '#' in line
    ensures Uncommented(line + more) == Uncommented(line)
  {
    var n := IndexOf(line, '#');
    assert line[..|line|] == line;
    assert (line + more)[..n] == line[..n];
    IndexOfUnique(line + more, '#', n);
  }

  /** Padding and a trailing comment never change what a line says, whatever the line. */
  lemma {:induction false} DecoratedLineSaysSame(line: string, d: Decoration)
    requires d.Harmless()
    ensures Classify(DecorateLine(line, d)) == Classify(line)
  {
    hide Trim, LeadingSpaces, IsSpace;
    var rest := d.pad + if d.comment.Some? then "#" + d.comment.value else "";
    assert DecorateLine(line, d) == line + rest;
    if '#' in line {
      DecorationBehindComment(line, rest);
    } else {
      SpacesAreNoComment(d.pad);
      assert '#' !in line + d.pad;
      CutComment(line, "");
      CutComment(line + d.pad, if d.comment.Some? then d.comment.value else "");
      TrailingSpace(line, d.pad);
      if d.comment.Some? {
        assert DecorateLine(line, d) == (line + d.pad) + "#" + d.comment.value;
      } else {
        assert DecorateLine(line, d) == line + d.pad;
      }
    }
  }

  lemma SpacesAreNoComment(pad: string)
    requires AllSpace(pad)
    ensures '#' !in pad
  {
  }

  predicate AllSayNothing(lines: seq<string>) {
    forall i :: 0 <= i < |lines| ==> SaysNothing(lines[i])
  }

  lemma {:induction false} SilentLines(sections: seq<string>, lines: seq<string>)
    requires AllSayNothing(lines)
    ensures Record(sections, lines) == Recorded([], sections, false)
    decreases |lines|
  {
    if lines != [] {
      SilentLines(sections, lines[1..]);
    }
  }

  lemma SilentAround(sections: seq<string>, before: seq<string>, lines: seq<string>, after: seq<string>)
    requires AllSayNothing(before) && AllSayNothing(after)
    ensures Record(sections, before + lines) == Record(sections, lines)
    ensures Record(sections, lines + after) == Record(sections, lines)
  {
    hide Record, SaysNothing;
    var r := Record(sections, lines);
    SilentLines(sections, before);
    RecordAppend(sections, before, lines);
    assert [] + r.settings == r.settings;
    SilentLines(r.sections, after);
    RecordAppend(sections, lines, after);
    assert r.settings + [] == r.settings;
  }

  /**
   Blank lines, comment lines and trailing comments never change the calls the lines ask for: before
   any line, behind any line, and at the end of the file.
   */
  lemma {:induction false} DecorationsDoNotMatter(sections: seq<string>, lines: seq<string>, ds: seq<Decoration>,
                                                  after: seq<string>)
    requires |ds| == |lines| && forall i :: 0 <= i < |ds| ==> ds[i].Harmless()
    requires AllSayNothing(after)
    ensures Record(sections, Decorate(lines, ds) + after) == Record(sections, lines)
    decreases |lines|
  {
    hide Classify, Calls, OpenAfter, TooDeep, SaysNothing, DecorateLine, AllSpace, Record;
    if lines == [] {
      SilentLines(sections, after);
      SilentLines(sections, []);
      assert Decorate(lines, ds) + after == after;
    } else {
      var d, rest := ds[0], Decorate(lines[1..], ds[1..]) + after;
      var line := DecorateLine(lines[0], d);
      DecoratedLineSaysSame(lines[0], d);
      assert Decorate(lines, ds) + after == d.before + ([line] + rest);
      SilentAround(sections, d.before, [line] + rest, []);
      RecordNext(sections, line, rest);
      RecordNext(sections, lines[0], lines[1..]);
      assert lines == [lines[0]] + lines[1..];
      DecorationsDoNotMatter(OpenAfter(sections, Classify(line)), lines[1..], ds[1..], after);
    }
  }

  /** So they never change what loading does, for any lines at all. */
  lemma DecoratedLoadsSame(n: NumberParsers, s: Loader, lines: seq<string>, ds: seq<Decoration>, after: seq<string>)
    requires |ds| == |lines| && forall i :: 0 <= i < |ds| ==> ds[i].Harmless()
    requires AllSayNothing(after)
    ensures LoadFrom(n, s, Decorate(lines, ds) + after) == LoadFrom(n, s, lines)
    ensures Remaining(n, s, Decorate(lines, ds) + after) == Remaining(n, s, lines)
  {
    hide Record, LoadFrom, Decorate, SaysNothing;
    DecorationsDoNotMatter(s.sections, lines, ds, after);
    LoadMakesRecordedCalls(n, s, lines);
    LoadMakesRecordedCalls(n, s, Decorate(lines, ds) + after);
  }

  // --------------------------------------------------------------------- end to end

  ghost predicate OneLineEach(lines: seq<string>) {
    forall i :: 0 <= i < |lines| ==> '\n' !in lines[i]
  }

  lemma FileLinesOfUnlines(lines: seq<string>)
    requires OneLineEach(lines)
    ensures FileLines(Unlines(lines)) == lines
  {
    SplitUnlines(lines, "");
    assert Unlines(lines) + "" == Unlines(lines);
  }

  lemma {:induction false} NodeOnOneLine(node: Node, depth: nat)
    requires GoodNode(node)
    ensures OneLineEach(RenderNode(node, depth))
    decreases node
  {
    match node
    case Leaf(name, value) => IndentOnOneLine(depth);
    case Section(name, children) =>
      IndentOnOneLine(depth);
      ForestOnOneLine(children, depth + 1);
  }

  lemma {:induction false} ForestOnOneLine(nodes: seq<Node>, depth: nat)
    requires GoodForest(nodes)
    ensures OneLineEach(Render(nodes, depth))
    decreases nodes
  {
    hide GoodNode, RenderNode;
    if nodes != [] {
      NodeOnOneLine(nodes[0], depth);
      ForestOnOneLine(nodes[1..], depth);
    }
  }

  lemma IndentOnOneLine(depth: nat)
    ensures '\n' !in Indent(depth)
  {
  }

  lemma {:induction false} DecoratedOnOneLine(lines: seq<string>, ds: seq<Decoration>)
    requires |ds| == |lines| && OneLineEach(lines)
    requires forall i :: 0 <= i < |ds| ==> ds[i].WithinLines()
    ensures OneLineEach(Decorate(lines, ds))
    decreases |lines|
  {
    if lines != [] {
      var d, rest := ds[0], Decorate(lines[1..], ds[1..]);
      assert OneLineEach(lines[1..]);
      DecoratedOnOneLine(lines[1..], ds[1..]);
      assert '\n' !in DecorateLine(lines[0], d);
      assert OneLineEach(d.before + [DecorateLine(lines[0], d)]);
    }
  }

  /**
   The text of any well-formed section tree, with blank lines, comment lines, padding and trailing
   comments anywhere, asks for one call per leaf: in order, under its dotted path, and for no other.
   */
  lemma {:induction false} TextAsksForLeaves(forest: seq<Node>, ds: seq<Decoration>, after: seq<string>)
    requires GoodForest(forest) && |ds| == |Render(forest, 0)|
    requires forall i :: 0 <= i < |ds| ==> ds[i].Harmless() && ds[i].WithinLines()
    requires AllSayNothing(after) && OneLineEach(after)
    ensures var r := Record([], FileLines(Unlines(Decorate(Render(forest, 0), ds) + after)));
            r.settings == Flatten(forest, "") && !r.tooDeep
  {
    hide FileLines, Record, Decorate, Render, Flatten, SaysNothing, Unlines, GoodForest;
    var lines := Render(forest, 0);
    ForestOnOneLine(forest, 0);
    DecoratedOnOneLine(lines, ds);
    FileLinesOfUnlines(Decorate(lines, ds) + after);
    DecorationsDoNotMatter([], lines, ds, after);
    var sections: seq<string> := [];
    ForestAsks(sections, forest, 0);
    assert sections[..0] == [];
    assert Path([]) == "";
  }

  /**
   Loading that text makes exactly those calls, stopping only at one that fails, and its result is
   what the calls leave. `Config.LoadAgentConfig` logs the same calls.
   */
  lemma LoadFlattensTree(n: NumberParsers, forest: seq<Node>, ds: seq<Decoration>, after: seq<string>)
    requires GoodForest(forest) && |ds| == |Render(forest, 0)|
    requires forall i :: 0 <= i < |ds| ==> ds[i].Harmless() && ds[i].WithinLines()
    requires AllSayNothing(after) && OneLineEach(after)
    ensures var text := Unlines(Decorate(Render(forest, 0), ds) + after);
            && Load(n, text) == ApplyAll(n, DEFAULTS, Flatten(forest, ""))
            && Remaining(n, Loader(DEFAULTS, []), FileLines(text)) == Attempted(n, DEFAULTS, Flatten(forest, ""))
  {
    hide FileLines, Record, LoadFrom, Decorate, Render, Flatten, SaysNothing, OneLineEach, ApplyAll, Unlines,
      GoodForest;
    var text := Unlines(Decorate(Render(forest, 0), ds) + after);
    TextAsksForLeaves(forest, ds, after);
    LoadMakesRecordedCalls(n, Loader(DEFAULTS, []), FileLines(text));
  }

  // ------------------------------------------------------------------ indentation

  /** Whether some header is indented deeper than the sections then open, looking at indentation alone. */
  predicate SomeHeaderTooDeep(open: nat, lines: seq<string>)
    decreases |lines|
  {
    lines != [] &&
    match Classify(lines[0])
    case Nothing => SomeHeaderTooDeep(open, lines[1..])
    case Setting(depth, _, _) => SomeHeaderTooDeep(if open > depth then depth else open, lines[1..])
    case Header(depth, _) => open < depth || SomeHeaderTooDeep(depth + 1, lines[1..])
  }

  lemma {:induction false} TooDeepIsIndentation(sections: seq<string>, lines: seq<string>)
    ensures Record(sections, lines).tooDeep <==> SomeHeaderTooDeep(|sections|, lines)
    decreases |lines|
  {
    hide Classify, Path;
    if lines != [] && !TooDeep(sections, Classify(lines[0])) {
      TooDeepIsIndentation(OpenAfter(sections, Classify(lines[0])), lines[1..]);
    }
  }

  lemma NumbersNeverTooDeep(n: NumberParsers, config: AgentConfig, key: string, value: string)
    ensures ApplyKeyValue(n, config, key, value) != Failure(HeaderTooDeep)
  {
    hide ParseBool, TICK_RATE_HZ, THROTTLE_TEMP, WARNING_WINDOW, GPU_DEVICE_INDEX, PUBLISH_HEALTH, STDOUT_DEBUG,
      REDIS_ADDRESS, SENSOR_PREFIX;
  }

  lemma {:induction false} CallsNeverTooDeep(n: NumberParsers, config: AgentConfig, settings: Settings)
    ensures ApplyAll(n, config, settings) != Failure(HeaderTooDeep)
    decreases |settings|
  {
    hide ApplyKeyValue;
    if settings != [] {
      NumbersNeverTooDeep(n, config, settings[0].0, settings[0].1);
      var next := ApplyKeyValue(n, config, settings[0].0, settings[0].1);
      if next.Success? {
        CallsNeverTooDeep(n, next.value, settings[1..]);
      }
    }
  }

  /**
   The loader leaves its section stack exactly when some header is indented deeper than the sections
   then open and every setting before the first such header is accepted.
   */
  lemma TooDeepExactly(n: NumberParsers, s: Loader, lines: seq<string>)
    ensures LoadFrom(n, s, lines) == Failure(HeaderTooDeep)
       <==> SomeHeaderTooDeep(|s.sections|, lines)
            && ApplyAll(n, s.config, Record(s.sections, lines).settings).Success?
  {
    hide Record, LoadFrom, SomeHeaderTooDeep, ApplyAll;
    LoadMakesRecordedCalls(n, s, lines);
    TooDeepIsIndentation(s.sections, lines);
    CallsNeverTooDeep(n, s.config, Record(s.sections, lines).settings);
  }

  /** A file of one indented header is enough. */
  lemma IndentedHeaderIsTooDeep(n: NumberParsers)
    ensures Load(n, "  gpu:\n") == Failure(HeaderTooDeep)
  {
    hide Classify, FileLines, LoadFrom, Unlines;
    var line := Indent(1) + "gpu" + ":";
    assert line == "  gpu:";
    ClassifySection("gpu", 1);
    UnlinesCons(line, []);
    UnlinesNone();
    assert "  gpu:\n" == line + "\n" + "";
    FileLinesOfUnlines([line]);
    assert [line] + [] == [line];
    LoadNext(n, Loader(DEFAULTS, []), line, []);
  }

  // ------------------------------------------------------------------ port zero

  const SOCKET_THEN_HOST := [Section("redis", [Leaf("address", "/s"), Leaf("address", "db")])]

  /** A file whose agent would dial port 0 of a host: a socket, and then just a host. */
  lemma BareHostKeepsPortZero(n: NumberParsers)
    ensures Load(n, "redis:\n" + "  address: /s\n" + "  address: db\n")
         == Success(DEFAULTS.(redis := RedisConfig("db", 0, "", true)))
  {
    hide Load, Decorate, FileLines, ApplyAll, Attempted, DEFAULTS;
    TreeOfTwoAddresses();
    var lines := Render(SOCKET_THEN_HOST, 0);
    assert lines == ["redis:", "  address: /s", "  address: db"];
    var plain := seq(3, i => Decoration([], "", None));
    Undecorated(lines, plain);
    LoadFlattensTree(n, SOCKET_THEN_HOST, plain, []);
    assert lines + [] == lines;
    TextOfTwoAddresses();
    TwoAddresses(n);
  }

  lemma RenderCons(node: Node, nodes: seq<Node>, depth: nat, path: string)
    ensures Render([node] + nodes, depth) == RenderNode(node, depth) + Render(nodes, depth)
    ensures Flatten([node] + nodes, path) == FlattenNode(node, path) + Flatten(nodes, path)
    ensures GoodForest([node] + nodes) == (GoodNode(node) && GoodForest(nodes))
  {
    assert ([node] + nodes)[1..] == nodes;
  }

  lemma RenderNothing(depth: nat, path: string)
    ensures Render([], depth) == [] && Flatten([], path) == [] && GoodForest([])
  {
  }

  lemma TreeOfTwoAddresses()
    ensures GoodForest(SOCKET_THEN_HOST)
    ensures Render(SOCKET_THEN_HOST, 0) == ["redis:", "  address: /s", "  address: db"]
    ensures Flatten(SOCKET_THEN_HOST, "") == [("redis.address", "/s"), ("redis.address", "db")]
  {
    hide Render, Flatten, GoodForest, GoodName, GoodValue, Indent;
    var socket, host := Leaf("address", "/s"), Leaf("address", "db");
    RenderNothing(1, "redis.");
    RenderCons(host, [], 1, "redis.");
    RenderCons(socket, [host], 1, "redis.");
    RenderNothing(0, "");
    RenderCons(Section("redis", [socket, host]), [], 0, "");
    assert [host] + [] == [host] && [socket] + [host] == [socket, host];
    assert SOCKET_THEN_HOST == [Section("redis", [socket, host])] + [];
    SocketLine();
    HostLine();
    RedisLine();
  }

  lemma SocketLine()
    ensures RenderNode(Leaf("address", "/s"), 1) == ["  address: /s"]
    ensures FlattenNode(Leaf("address", "/s"), "redis.") == [("redis.address", "/s")]
    ensures GoodNode(Leaf("address", "/s"))
  {
    assert Indent(1) == "  ";
    assert "  " + "address" + ": " + "/s" == "  address: /s" && "redis." + "address" == "redis.address";
  }

  lemma HostLine()
    ensures RenderNode(Leaf("address", "db"), 1) == ["  address: db"]
    ensures FlattenNode(Leaf("address", "db"), "redis.") == [("redis.address", "db")]
    ensures GoodNode(Leaf("address", "db"))
  {
    assert Indent(1) == "  ";
    assert "  " + "address" + ": " + "db" == "  address: db" && "redis." + "address" == "redis.address";
  }

  lemma RedisLine()
    ensures Indent(0) + "redis" + ":" == "redis:" && "" + "redis" + "." == "redis." && GoodName("redis")
  {
    assert Indent(0) == "";
  }

  lemma {:induction false} Undecorated(lines: seq<string>, ds: seq<Decoration>)
    requires |ds| == |lines| && forall i :: 0 <= i < |ds| ==> ds[i] == Decoration([], "", None)
    ensures Decorate(lines, ds) == lines
  {
    if lines != [] {
      Undecorated(lines[1..], ds[1..]);
      assert DecorateLine(lines[0], ds[0]) == lines[0];
    }
  }

  lemma TextOfTwoAddresses()
    ensures Unlines(["redis:", "  address: /s", "  address: db"]) == "redis:\n" + "  address: /s\n" + "  address: db\n"
  {
    hide Unlines;
    UnlinesNone();
    UnlinesCons("  address: db", []);
    UnlinesCons("  address: /s", ["  address: db"]);
    UnlinesCons("redis:", ["  address: /s", "  address: db"]);
    assert ["redis:"] + ["  address: /s", "  address: db"] == ["redis:", "  address: /s", "  address: db"];
    assert ["  address: /s"] + ["  address: db"] == ["  address: /s", "  address: db"];
    assert ["  address: db"] + [] == ["  address: db"];
    ThreeLines("redis:", "  address: /s", "  address: db");
    EndedLines();
  }

  lemma ThreeLines(a: string, b: string, c: string)
    ensures a + "\n" + (b + "\n" + (c + "\n" + "")) == (a + "\n") + (b + "\n") + (c + "\n")
  {
  }

  lemma EndedLines()
    ensures "redis:" + "\n" == "redis:\n" && "  address: /s" + "\n" == "  address: /s\n"
    ensures "  address: db" + "\n" == "  address: db\n"
  {
  }

  lemma TwoAddresses(n: NumberParsers)
    ensures ApplyAll(n, DEFAULTS, [("redis.address", "/s"), ("redis.address", "db")])
         == Success(DEFAULTS.(redis := RedisConfig("db", 0, "", true)))
  {
    hide ApplyKeyValue, DEFAULTS;
    OneAddress(n, DEFAULTS, "/s");
    var mid := DEFAULTS.(redis := RedisConfig("", 0, "/s", true));
    OneAddress(n, mid, "db");
    SocketAddress(n, DEFAULTS.redis);
    HostAddress(n, mid.redis);
    ApplyNext(n, DEFAULTS, ("redis.address", "/s"), [("redis.address", "db")]);
    ApplyNext(n, mid, ("redis.address", "db"), []);
    assert [("redis.address", "/s")] + [("redis.address", "db")] == [("redis.address", "/s"), ("redis.address", "db")];
    assert [("redis.address", "db")] + [] == [("redis.address", "db")];
  }

  lemma OneAddress(n: NumberParsers, config: AgentConfig, value: string)
    requires ApplyRedisAddress(n, config.redis, value).Success?
    ensures ApplyKeyValue(n, config, "redis.address", value)
         == Success(config.(redis := ApplyRedisAddress(n, config.redis, value).value))
  {
    hide ApplyRedisAddress, ParseBool;
    AddressKeyIsNoOther();
  }

  lemma SocketAddress(n: NumberParsers, redis: RedisConfig)
    ensures ApplyRedisAddress(n, redis, "/s") == Success(RedisConfig("", 0, "/s", true))
  {
    assert "unix://"[0] == 'u';
  }

  lemma HostAddress(n: NumberParsers, redis: RedisConfig)
    ensures ApplyRedisAddress(n, redis, "db") == Success(RedisConfig("db", redis.port, "", true))
  {
    assert "unix://"[0] == 'u';
    IndexOfUnique("db", ':', 2);
  }
}
