/**
 The read loop of the tegrastats sensor (`src/sensors/tegrastats.cpp`): bytes arrive from a pipe in
 arbitrary pieces, complete lines go to the line parser, the unterminated rest waits in a buffer.

 The line parser itself, a set of regular expressions, is a parameter.
 */
module TegraStats {
  import opened SignalFrame
  import opened Text

  datatype RawFields = RawFields(
    gpuUtilPct: real, emcUtilPct: real, totalRailPowerMw: real,
    railPowerMw: map<string, real>, temperaturesC: map<string, real>)

  const NO_FIELDS := RawFields(0.0, 0.0, 0.0, map[], map[])

  /** `parse_line` updates the fields and says whether it recognised anything, or throws half way. */
  datatype Parsed = Parsed(raw: RawFields, any: bool, threw: bool)

  type LineParser = (RawFields, string) -> Parsed

  /** The parser fed line after line, up to the first exception. */
  function ParseAll(parse: LineParser, raw: RawFields, lines: seq<string>): Parsed {
    if lines == [] then Parsed(raw, false, false) else
    var before := ParseAll(parse, raw, lines[..|lines| - 1]);
    if before.threw then before else
    var last := parse(before.raw, lines[|lines| - 1]);
    Parsed(last.raw, before.any || last.any, last.threw)
  }

  lemma ParseAllSnoc(parse: LineParser, raw: RawFields, lines: seq<string>, line: string)
    requires !ParseAll(parse, raw, lines).threw
    ensures var before, last := ParseAll(parse, raw, lines), parse(ParseAll(parse, raw, lines).raw, line);
            ParseAll(parse, raw, lines + [line]) == Parsed(last.raw, before.any || last.any, last.threw)
  {
    assert (lines + [line])[..|lines|] == lines;
  }

  lemma ParseNothing(parse: LineParser, raw: RawFields, lines: seq<string>)
    ensures ParseAll(parse, raw, lines[|lines|..]) == Parsed(raw, false, false)
  {
  }

  /** Lines that come in two lots are parsed like one. */
  lemma {:induction false} ParseAllAppend(parse: LineParser, raw: RawFields, xs: seq<string>, ys: seq<string>)
    requires !ParseAll(parse, raw, xs).threw
    ensures var first, second := ParseAll(parse, raw, xs), ParseAll(parse, ParseAll(parse, raw, xs).raw, ys);
            ParseAll(parse, raw, xs + ys) == Parsed(second.raw, first.any || second.any, second.threw)
  {
    if ys == [] {
      assert xs + ys == xs;
    } else {
      ParseAllAppend(parse, raw, xs, ys[..|ys| - 1]);
      assert (xs + ys)[..|xs + ys| - 1] == xs + ys[..|ys| - 1];
    }
  }

  /** How the reads of one `sample` call end. */
  datatype End = WouldBlock | Eof | Broken

  class TegraStatsSensor {
    const parse: LineParser
    var enabled: bool
    var readBuffer: string
    var raw: RawFields
    /** Every byte read so far and every line handed to the parser, in order. */
    ghost var received: string
    ghost var handed: seq<string>

    /**
     While the sensor is enabled the parser has been handed exactly the newline-split of all bytes
     received, whatever the sizes of the reads, and the buffer is exactly the unterminated tail. An
     exception in the parser stops the sensor at that line, so what was handed is then a prefix.
     */
    ghost predicate Valid()
      reads this
    {
      && handed <= CompleteLines(received)
      && raw == ParseAll(parse, NO_FIELDS, handed).raw
      && (enabled ==> && handed == CompleteLines(received) && readBuffer == Tail(received)
                      && !ParseAll(parse, NO_FIELDS, handed).threw)
    }

    constructor (parse: LineParser, launched: bool)
      ensures Valid() && this.parse == parse && enabled == launched && received == "" && handed == []
    {
      this.parse := parse;
      enabled, readBuffer, raw, received, handed := launched, "", NO_FIELDS, "", [];
    }

    /** The call of `parse_line` in its `try` block. */
    method ParseLine(line: string) returns (any: bool, threw: bool)
      requires raw == ParseAll(parse, NO_FIELDS, handed).raw && !ParseAll(parse, NO_FIELDS, handed).threw
      modifies this`raw, this`handed
      ensures handed == old(handed) + [line] && parse(old(raw), line) == Parsed(raw, any, threw)
      ensures raw == ParseAll(parse, NO_FIELDS, handed).raw && threw == ParseAll(parse, NO_FIELDS, handed).threw
    {
      hide ParseAll;
      ParseAllSnoc(parse, NO_FIELDS, handed, line);
      var parsed := parse(raw, line);
      handed := handed + [line];
      raw, any, threw := parsed.raw, parsed.any, parsed.threw;
    }

    /** The inner loop: cut complete lines off the front of the buffer and parse them. */
    method ParseBufferedLines() returns (any: bool, threw: bool)
      requires handed + CompleteLines(readBuffer) == CompleteLines(received) && Tail(readBuffer) == Tail(received)
      requires raw == ParseAll(parse, NO_FIELDS, handed).raw && !ParseAll(parse, NO_FIELDS, handed).threw
      modifies this`readBuffer, this`raw, this`handed
      ensures old(handed) <= handed <= CompleteLines(received)
      ensures !threw ==> handed == CompleteLines(received) && readBuffer == Tail(received)
      ensures raw == ParseAll(parse, NO_FIELDS, handed).raw && threw == ParseAll(parse, NO_FIELDS, handed).threw
      ensures !threw ==> ParseAll(parse, old(raw), handed[|old(handed)|..]) == Parsed(raw, any, false)
    {
      hide CompleteLines, Tail, ParseAll;
      any, threw := false, false;
      ParseNothing(parse, raw, handed);
      var newlinePos := IndexOf(readBuffer, '\n');
      while newlinePos < |readBuffer|
        invariant newlinePos == IndexOf(readBuffer, '\n')
        invariant old(handed) <= handed
        invariant handed + CompleteLines(readBuffer) == CompleteLines(received) && Tail(readBuffer) == Tail(received)
        invariant raw == ParseAll(parse, NO_FIELDS, handed).raw && !ParseAll(parse, NO_FIELDS, handed).threw
        invariant ParseAll(parse, old(raw), handed[|old(handed)|..]) == Parsed(raw, any, false)
        decreases |readBuffer|
      {
        var line, rest := readBuffer[..newlinePos], readBuffer[newlinePos + 1..];
        assert readBuffer == line + "\n" + rest;
        SplitFirst(line, rest);
        ParseAllSnoc(parse, old(raw), handed[|old(handed)|..], line);
        assert (handed + [line])[|old(handed)|..] == handed[|old(handed)|..] + [line];
        readBuffer := rest;
        var recognised, failed := ParseLine(line);
        if failed {
          threw := true;
          return;
        }
        any := recognised || any;
        newlinePos := IndexOf(readBuffer, '\n');
      }
      assert readBuffer[..newlinePos] == readBuffer;
      SplitNothing(readBuffer);
    }

    /** The end of `sample`: what has been parsed so far goes to the frame. */
    method WriteFields(frame: SignalFrame)
      modifies frame
      ensures frame.Value() == old(frame.Value()).(raw := PublishFields(raw, old(frame.raw)))
    {
      frame.raw := frame.raw.(gpuUtil := raw.gpuUtilPct, emcUtil := raw.emcUtilPct,
                              tegraGpuUtil := raw.gpuUtilPct, tegraEmcUtil := raw.emcUtilPct);
      if "GPU" in raw.temperaturesC {
        var temp := raw.temperaturesC["GPU"];
        frame.raw := frame.raw.(gpuTemp := temp, tegraGpuTemp := temp);
      }
      if raw.totalRailPowerMw > 0.0 {
        frame.raw := frame.raw.(gpuPowerRatio := raw.totalRailPowerMw, tegraGpuPowerMw := raw.totalRailPowerMw);
      }
    }

    /** One `sample` call whose reads return `chunks` and then `end`. */
    method Sample(chunks: seq<string>, end: End, childExited: bool, frame: SignalFrame) returns (ok: bool)
      requires Valid()
      modifies this, frame
      ensures Valid()
      ensures !old(enabled) ==> !ok && unchanged(this)
      ensures old(enabled) && !ParseAll(parse, NO_FIELDS, handed).threw ==> received == old(received) + Concat(chunks)
      ensures old(enabled) ==> old(received) <= received <= old(received) + Concat(chunks)
      ensures ok <==> old(enabled) && end == WouldBlock && !ParseAll(parse, NO_FIELDS, handed).threw
      ensures enabled ==> ok
      ensures old(handed) <= handed
      ensures ok ==> (enabled <==> !childExited || ParseAll(parse, old(raw), handed[|old(handed)|..]).any)
      ensures ok ==> frame.Value() == old(frame.Value()).(raw := PublishFields(raw, old(frame.raw)))
      ensures !ok ==> frame.Value() == old(frame.Value())
    {
      hide CompleteLines, Tail, ParseAll, Concat, PublishFields;
      if !enabled {
        return false;
      }
      ConcatPrefix(chunks, 0);
      NothingRead(chunks);
      ParseNothing(parse, raw, handed);
      var parsedAtLeastOneLine := false;
      var k := 0;
      while k < |chunks|
        invariant k <= |chunks|
        invariant enabled && Valid() && old(handed) <= handed
        invariant received == old(received) + Concat(chunks[..k])
        invariant unchanged(frame)
        invariant ParseAll(parse, old(raw), handed[|old(handed)|..]) == Parsed(raw, parsedAtLeastOneLine, false)
      {
        ghost var before := handed;
        SplitAppend(received, chunks[k]);
        ConcatSnoc(chunks, k);
        ConcatPrefix(chunks, k + 1);
        received := received + chunks[k];
        readBuffer := readBuffer + chunks[k];
        var any, threw := ParseBufferedLines();
        if threw {
          enabled := false;
          return false;
        }
        ParseAllAppend(parse, old(raw), before[|old(handed)|..], handed[|before|..]);
        assert handed[|old(handed)|..] == before[|old(handed)|..] + handed[|before|..];
        parsedAtLeastOneLine := any || parsedAtLeastOneLine;
        k := k + 1;
      }
      assert chunks[..k] == chunks;

      if end != WouldBlock {
        enabled := false;
        return false;
      }
      if !parsedAtLeastOneLine && childExited {
        enabled := false;
      }
      WriteFields(frame);
      return true;
    }
  }

  lemma NothingRead(chunks: seq<string>)
    ensures Concat(chunks[..0]) == ""
  {
  }

  /** A temperature or a power the tool has not reported keeps its previous value. */
  function PublishFields(fields: RawFields, raw: RawSignals): RawSignals {
    var hot, powered := "GPU" in fields.temperaturesC, fields.totalRailPowerMw > 0.0;
    raw.(gpuUtil := fields.gpuUtilPct, emcUtil := fields.emcUtilPct,
         tegraGpuUtil := fields.gpuUtilPct, tegraEmcUtil := fields.emcUtilPct,
         gpuTemp := if hot then fields.temperaturesC["GPU"] else raw.gpuTemp,
         tegraGpuTemp := if hot then fields.temperaturesC["GPU"] else raw.tegraGpuTemp,
         gpuPowerRatio := if powered then fields.totalRailPowerMw else raw.gpuPowerRatio,
         tegraGpuPowerMw := if powered then fields.totalRailPowerMw else raw.tegraGpuPowerMw)
  }

  /** The copies for the board and for any device agree, and no other signal is touched. */
  lemma CopiesAgree(fields: RawFields, raw: RawSignals)
    ensures var r := PublishFields(fields, raw);
            && r.gpuUtil == r.tegraGpuUtil == fields.gpuUtilPct && r.emcUtil == r.tegraEmcUtil == fields.emcUtilPct
            && ("GPU" in fields.temperaturesC ==> r.gpuTemp == r.tegraGpuTemp == fields.temperaturesC["GPU"])
            && ("GPU" !in fields.temperaturesC ==> r.gpuTemp == raw.gpuTemp && r.tegraGpuTemp == raw.tegraGpuTemp)
            && (fields.totalRailPowerMw > 0.0 ==>
                  r.gpuPowerRatio == r.tegraGpuPowerMw == fields.totalRailPowerMw)
            && (fields.totalRailPowerMw <= 0.0 ==>
                  r.gpuPowerRatio == raw.gpuPowerRatio && r.tegraGpuPowerMw == raw.tegraGpuPowerMw)
            && r == raw.(gpuUtil := r.gpuUtil, tegraGpuUtil := r.tegraGpuUtil, emcUtil := r.emcUtil,
                         tegraEmcUtil := r.tegraEmcUtil, gpuTemp := r.gpuTemp, tegraGpuTemp := r.tegraGpuTemp,
                         gpuPowerRatio := r.gpuPowerRatio, tegraGpuPowerMw := r.tegraGpuPowerMw)
  {
  }

  // ---------------------------------------------- chunking never matters, as one equation

  /** Reading in pieces: what is handed over and what stays buffered after each piece. */
  datatype Framer = Framer(handed: seq<string>, buffer: string)

  function Feed(f: Framer, chunk: string): Framer {
    Framer(f.handed + CompleteLines(f.buffer + chunk), Tail(f.buffer + chunk))
  }

  function FeedAll(f: Framer, chunks: seq<string>): Framer {
    if chunks == [] then f else Feed(FeedAll(f, chunks[..|chunks| - 1]), chunks[|chunks| - 1])
  }

  /** Any two ways of cutting the same bytes hand over the same lines and leave the same tail. */
  lemma {:induction false} FramingIgnoresChunks(chunks: seq<string>)
    ensures FeedAll(Framer([], ""), chunks) == Framer(CompleteLines(Concat(chunks)), Tail(Concat(chunks)))
  {
    if chunks != [] {
      var n := |chunks| - 1;
      FramingIgnoresChunks(chunks[..n]);
      SplitAppend(Concat(chunks[..n]), chunks[n]);
    }
  }
}
