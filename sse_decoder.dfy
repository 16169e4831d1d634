/**
 * The client's decoder for the gateway's event stream (`processStream` in the front end's API
 * module). Received text is buffered, cut into blocks at every blank line (`"\n\n"`), and each
 * block is read line by line: the last `event:` line names the event (default `"message"`),
 * the last `data:` line carries its payload, JSON-parsed when possible and the trimmed raw text
 * otherwise. A block whose payload is JSON null (or that has no `data:` line) produces
 * nothing. When the stream ends, a remainder that is not blank is decoded as one last block.
 *
 * The functions below are the specification; `ProcessStream` is the loop itself, proved to
 * produce exactly `StreamEvents` of everything received, however the text was chunked.
 */
module SseDecoder {
  import opened Wrappers
  import opened Strings
  import opened Json

  const BlockSeparator: string := "\n\n"
  const LineSeparator: string := "\n"
  const DefaultEventName: string := "message"

  datatype SseEvent = SseEvent(event: string, data: Json)

  /** The two locals the line loop overwrites. */
  datatype BlockState = BlockState(event: string, data: Json)

  const InitialState: BlockState := BlockState(DefaultEventName, Null)

  /** The payload a `data:` line carries: parsed JSON, or the trimmed text when parsing fails. */
  function DataValue(line: string, parse: Parser): Json
    requires StartsWith(line, "data:")
  {
    var raw := JsTrim(line[5..]);
    match parse(raw)
    case Parsed(v) => v
    case SyntaxError(_) => Str(raw)
  }

  /** One iteration of the line loop. */
  function LineStep(st: BlockState, line: string, parse: Parser): BlockState {
    var st1 := if StartsWith(line, "event:") then st.(event := JsTrim(line[6..])) else st;
    if StartsWith(line, "data:") then st1.(data := DataValue(line, parse)) else st1
  }

  /** The state after the loop has read `lines` in order. */
  function ScanLines(lines: seq<string>, parse: Parser): BlockState {
    if |lines| == 0 then InitialState
    else LineStep(ScanLines(Init(lines), parse), Last(lines), parse)
  }

  /** The event one block produces, if any. */
  function DecodeBlock(block: string, parse: Parser): Option<SseEvent> {
    var st := ScanLines(Split(block, LineSeparator), parse);
    if st.data != Null then Some(SseEvent(st.event, st.data)) else None
  }

  function OptionToSeq<T>(o: Option<T>): seq<T> {
    if o.Some? then [o.value] else []
  }

  /** The events a sequence of complete blocks produces, in order. */
  function EventsOf(blocks: seq<string>, parse: Parser): seq<SseEvent> {
    if |blocks| == 0 then []
    else EventsOf(Init(blocks), parse) + OptionToSeq(DecodeBlock(Last(blocks), parse))
  }

  /** What the end of the stream adds for the text left in the buffer. */
  function Flush(buf: string, parse: Parser): seq<SseEvent> {
    if JsTrim(buf) == "" then [] else OptionToSeq(DecodeBlock(buf + BlockSeparator, parse))
  }

  /** Every event decoded from the whole received text `s`. */
  function StreamEvents(s: string, parse: Parser): seq<SseEvent> {
    var parts := Split(s, BlockSeparator);
    EventsOf(Init(parts), parse) + Flush(Last(parts), parse)
  }

  /** The received text: the chunks in arrival order. */
  function Concat(chunks: seq<string>): string {
    if |chunks| == 0 then "" else Concat(Init(chunks)) + Last(chunks)
  }

  // ---------------------------------------------------------------------------------------------
  // Properties of the specification
  // ---------------------------------------------------------------------------------------------

  lemma {:induction false} EventsOfAppend(a: seq<string>, b: seq<string>, parse: Parser)
    ensures EventsOf(a + b, parse) == EventsOf(a, parse) + EventsOf(b, parse)
    decreases |b|
  {
    if |b| == 0 {
      assert a + b == a;
    } else {
      assert Init(a + b) == a + Init(b);
      assert Last(a + b) == Last(b);
      EventsOfAppend(a, Init(b), parse);
    }
  }

  /** Each complete block yields at most one event, and the events keep the blocks' order. */
  lemma {:induction false} EventsOfAtMostOnePerBlock(blocks: seq<string>, parse: Parser)
    ensures |EventsOf(blocks, parse)| <= |blocks|
  {
    if |blocks| > 0 {
      EventsOfAtMostOnePerBlock(Init(blocks), parse);
    }
  }

  /** A line that is neither an `event:` nor a `data:` line (a blank one, say) changes nothing. */
  lemma {:induction false} IgnoredLine(st: BlockState, line: string, parse: Parser)
    requires !StartsWith(line, "event:") && !StartsWith(line, "data:")
    ensures LineStep(st, line, parse) == st
  {
  }

  /** A block without any `data:` line produces no event. */
  lemma {:induction false} NoDataNoEvent(lines: seq<string>, parse: Parser)
    requires forall i :: 0 <= i < |lines| ==> !StartsWith(lines[i], "data:")
    ensures ScanLines(lines, parse).data == Null
  {
    if |lines| > 0 {
      NoDataNoEvent(Init(lines), parse);
      assert !StartsWith(lines[|lines| - 1], "data:");
    }
  }

  /** The event name is the trimmed text after the last `event:` line. */
  lemma {:induction false} LastEventLineWins(lines: seq<string>, k: nat, parse: Parser)
    requires k < |lines| && StartsWith(lines[k], "event:")
    requires forall i :: k < i < |lines| ==> !StartsWith(lines[i], "event:")
    ensures ScanLines(lines, parse).event == JsTrim(lines[k][6..])
    decreases |lines|
  {
    if k < |lines| - 1 {
      LastEventLineWins(Init(lines), k, parse);
      assert !StartsWith(lines[|lines| - 1], "event:");
    }
  }

  /** A later `data:` line overwrites an earlier one: the payload comes from the last. */
  lemma {:induction false} LastDataLineWins(lines: seq<string>, k: nat, parse: Parser)
    requires k < |lines| && StartsWith(lines[k], "data:")
    requires forall i :: k < i < |lines| ==> !StartsWith(lines[i], "data:")
    ensures ScanLines(lines, parse).data == DataValue(lines[k], parse)
    decreases |lines|
  {
    if k < |lines| - 1 {
      LastDataLineWins(Init(lines), k, parse);
      assert !StartsWith(lines[|lines| - 1], "data:");
    }
  }

  /** A payload that does not parse is kept as the trimmed raw text, never an error. */
  lemma {:induction false} BadJsonKeepsText(line: string, parse: Parser)
    requires StartsWith(line, "data:") && parse(JsTrim(line[5..])).SyntaxError?
    ensures DataValue(line, parse) == Str(JsTrim(line[5..]))
  {
  }

  lemma {:induction false} ScanIgnoresBlankLines(lines: seq<string>, extra: nat, parse: Parser)
    ensures ScanLines(lines + seq(extra, _ => ""), parse) == ScanLines(lines, parse)
    decreases extra
  {
    var blanks := seq(extra, _ => "");
    if extra > 0 {
      var shorter := seq(extra - 1, _ => "");
      assert Init(lines + blanks) == lines + shorter;
      assert Last(lines + blanks) == "";
      ScanIgnoresBlankLines(lines, extra - 1, parse);
    } else {
      assert lines + blanks == lines;
    }
  }

  /**
   * The terminator the flush appends only adds blank lines, so the final block decodes exactly
   * as the same text would as a complete block.
   */
  lemma {:induction false} FlushDecodesRemainder(buf: string, parse: Parser)
    ensures DecodeBlock(buf + BlockSeparator, parse) == DecodeBlock(buf, parse)
  {
    var lines := Split(buf, LineSeparator);
    SplitAppendChar(buf, '\n');
    SplitAppendChar(buf + "\n", '\n');
    assert buf + BlockSeparator == buf + "\n" + "\n";
    assert Split(buf + BlockSeparator, LineSeparator) == lines + seq(2, _ => "");
    ScanIgnoresBlankLines(lines, 2, parse);
  }

  /** A remainder that is blank after trimming yields nothing at the end of the stream. */
  lemma {:induction false} BlankRemainderYieldsNothing(buf: string, parse: Parser)
    requires forall i :: 0 <= i < |buf| ==> IsJsSpace(buf[i])
    ensures Flush(buf, parse) == []
  {
    TrimEmptyIff(buf, IsJsSpace);
  }

  /** Receiving one more chunk emits the blocks it completes, after the earlier ones. */
  lemma {:induction false} ChunkStep(received: string, chunk: string, parse: Parser)
    ensures var before := Split(received, BlockSeparator);
            var parts := Split(Last(before) + chunk, BlockSeparator);
            var after := Split(received + chunk, BlockSeparator);
            Last(after) == Last(parts) &&
            EventsOf(Init(after), parse) == EventsOf(Init(before), parse) + EventsOf(Init(parts), parse)
  {
    var before := Split(received, BlockSeparator);
    var parts := Split(Last(before) + chunk, BlockSeparator);
    SplitAppend(received, chunk, BlockSeparator);
    var after := Split(received + chunk, BlockSeparator);
    assert after == Init(before) + parts;
    assert Init(after) == Init(before) + Init(parts);
    EventsOfAppend(Init(before), Init(parts), parse);
  }

  /** The buffer the loop carries never holds a complete block. */
  lemma {:induction false} BufferHasNoSeparator(received: string)
    ensures !Contains(Last(Split(received, BlockSeparator)), BlockSeparator)
  {
    LastPieceFree(received, BlockSeparator);
  }

  // ---------------------------------------------------------------------------------------------
  // The decoding loop
  // ---------------------------------------------------------------------------------------------

  /** The inner `for (const line of ...)` loop over one block's lines. */
  method ReadLines(lines: seq<string>, parse: Parser) returns (event: string, data: Json)
    ensures BlockState(event, data) == ScanLines(lines, parse)
  {
    event := DefaultEventName;
    data := Null;
    var m := 0;
    while m < |lines|
      invariant 0 <= m <= |lines|
      invariant BlockState(event, data) == ScanLines(lines[..m], parse)
    {
      var line := lines[m];
      if StartsWith(line, "event:") {
        event := JsTrim(line[6..]);
      }
      if StartsWith(line, "data:") {
        var raw := JsTrim(line[5..]);
        match parse(raw)
        case Parsed(v) => data := v;
        case SyntaxError(_) => data := Str(raw);
      }
      assert Init(lines[..m + 1]) == lines[..m];
      m := m + 1;
    }
    assert lines[..m] == lines;
  }

  /** The `for (const block of parts)` loop: one callback per block that carries a payload. */
  method EmitBlocks(blocks: seq<string>, parse: Parser) returns (emitted: seq<SseEvent>)
    ensures emitted == EventsOf(blocks, parse)
  {
    emitted := [];
    var j := 0;
    while j < |blocks|
      invariant 0 <= j <= |blocks|
      invariant emitted == EventsOf(blocks[..j], parse)
    {
      var event, data := ReadLines(Split(blocks[j], LineSeparator), parse);
      if data != Null {
        emitted := emitted + [SseEvent(event, data)];
      }
      assert Init(blocks[..j + 1]) == blocks[..j];
      j := j + 1;
    }
    assert blocks[..j] == blocks;
  }

  /**
   * Reads the whole stream, chunk by chunk, calling back (here: appending to `events`) for
   * every decoded event. The result depends only on the concatenated text.
   */
  method ProcessStream(chunks: seq<string>, parse: Parser) returns (events: seq<SseEvent>)
    ensures events == StreamEvents(Concat(chunks), parse)
  {
    var buf := "";
    events := [];
    var k := 0;
    while k < |chunks|
      invariant 0 <= k <= |chunks|
      invariant buf == Last(Split(Concat(chunks[..k]), BlockSeparator))
      invariant events == EventsOf(Init(Split(Concat(chunks[..k]), BlockSeparator)), parse)
      invariant !Contains(buf, BlockSeparator)
    {
      ghost var received := Concat(chunks[..k]);
      assert Init(chunks[..k + 1]) == chunks[..k];
      assert Concat(chunks[..k + 1]) == received + chunks[k];
      ChunkStep(received, chunks[k], parse);
      LastPieceFree(received + chunks[k], BlockSeparator);
      buf := buf + chunks[k];
      var parts := Split(buf, BlockSeparator);
      buf := Last(parts);
      var emitted := EmitBlocks(Init(parts), parse);
      events := events + emitted;
      k := k + 1;
    }
    assert chunks[..k] == chunks;
    if JsTrim(buf) != "" {
      var event, data := ReadLines(Split(buf + BlockSeparator, LineSeparator), parse);
      if data != Null {
        events := events + [SseEvent(event, data)];
      }
    }
  }
}
