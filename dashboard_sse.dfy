/**
 * The dashboard's own event-stream decoder (`parseSSE`): it splits the buffer at blank lines,
 * decodes every complete block and hands back the unfinished tail as the remainder. It strips
 * the `event:` / `data:` prefixes with a first-occurrence `replace` instead of a slice; the
 * lemmas below show that this decodes exactly as the client API's decoder does.
 */
module DashboardSse {
  import opened Wrappers
  import opened Strings
  import opened Json
  import opened SseDecoder

  datatype ParseResult = ParseResult(events: seq<SseEvent>, remainder: string)

  /** `line.replace("event:", "").trim()`. */
  function DashEventName(line: string): string {
    JsTrim(ReplaceFirst(line, "event:", ""))
  }

  /** The `try { JSON.parse(...) } catch { ... }` on `line.replace("data:", "").trim()`. */
  function DashDataValue(line: string, parse: Parser): Json {
    var raw := JsTrim(ReplaceFirst(line, "data:", ""));
    match parse(raw)
    case Parsed(v) => v
    case SyntaxError(_) => Str(raw)
  }

  function DashLineStep(st: BlockState, line: string, parse: Parser): BlockState {
    var st1 := if StartsWith(line, "event:") then st.(event := DashEventName(line)) else st;
    if StartsWith(line, "data:") then st1.(data := DashDataValue(line, parse)) else st1
  }

  /** The block's `split("\n").forEach(...)`. */
  function DashScan(lines: seq<string>, parse: Parser): BlockState {
    if |lines| == 0 then InitialState
    else DashLineStep(DashScan(Init(lines), parse), Last(lines), parse)
  }

  function DashBlock(block: string, parse: Parser): Option<SseEvent> {
    var st := DashScan(Split(block, LineSeparator), parse);
    if st.data != Null then Some(SseEvent(st.event, st.data)) else None
  }

  /** The `for (i < parts.length - 1)` loop over complete blocks. */
  function DashBlocks(blocks: seq<string>, parse: Parser): seq<SseEvent> {
    if |blocks| == 0 then []
    else DashBlocks(Init(blocks), parse) + OptionToSeq(DashBlock(Last(blocks), parse))
  }

  function ParseSSE(buffer: string, parse: Parser): ParseResult {
    var parts := Split(buffer, BlockSeparator);
    ParseResult(DashBlocks(Init(parts), parse), Last(parts))
  }

  // ---------------------------------------------------------------------------------------------

  lemma {:induction false} EventNameAgrees(line: string)
    requires StartsWith(line, "event:")
    ensures DashEventName(line) == JsTrim(line[6..])
  {
    ReplacePrefix(line, "event:");
  }

  lemma {:induction false} DataValueAgrees(line: string, parse: Parser)
    requires StartsWith(line, "data:")
    ensures DashDataValue(line, parse) == DataValue(line, parse)
  {
    ReplacePrefix(line, "data:");
  }

  lemma {:induction false} DashLineStepAgrees(st: BlockState, line: string, parse: Parser)
    ensures DashLineStep(st, line, parse) == LineStep(st, line, parse)
  {
    if StartsWith(line, "event:") {
      EventNameAgrees(line);
    }
    if StartsWith(line, "data:") {
      DataValueAgrees(line, parse);
    }
  }

  lemma {:induction false} DashScanAgrees(lines: seq<string>, parse: Parser)
    ensures DashScan(lines, parse) == ScanLines(lines, parse)
  {
    if |lines| > 0 {
      DashScanAgrees(Init(lines), parse);
      DashLineStepAgrees(ScanLines(Init(lines), parse), Last(lines), parse);
    }
  }

  lemma {:induction false} DashBlocksAgree(blocks: seq<string>, parse: Parser)
    ensures DashBlocks(blocks, parse) == EventsOf(blocks, parse)
  {
    if |blocks| > 0 {
      DashBlocksAgree(Init(blocks), parse);
      DashScanAgrees(Split(Last(blocks), LineSeparator), parse);
    }
  }

  /**
   * `parseSSE` decodes the complete blocks exactly as the client API's decoder does, keeps them
   * in order, and returns as remainder the text after the last blank line, which never holds a
   * complete block.
   */
  lemma {:induction false} ParseSSEAgrees(buffer: string, parse: Parser)
    ensures var parts := Split(buffer, BlockSeparator);
            ParseSSE(buffer, parse).events == EventsOf(Init(parts), parse) &&
            ParseSSE(buffer, parse).remainder == Last(parts) &&
            !Contains(ParseSSE(buffer, parse).remainder, BlockSeparator)
  {
    DashBlocksAgree(Init(Split(buffer, BlockSeparator)), parse);
    LastPieceFree(buffer, BlockSeparator);
  }

  /** Appending a newline cannot create a blank line unless the text already ends in one. */
  lemma {:induction false} NoSeparatorAfterNewline(b: string)
    requires !Contains(b, BlockSeparator)
    requires b == [] || Last(b) != '\n'
    ensures !Contains(b + "\n", BlockSeparator)
  {
    var s := b + "\n";
    forall j: nat ensures !OccursAt(s, BlockSeparator, j) {
      if j + 2 <= |b| {
        assert s[j..j + 2] == b[j..j + 2];
        assert !OccursAt(b, BlockSeparator, j);
      } else if j + 2 == |s| {
        assert s[j] == b[|b| - 1];
      }
    }
  }

  lemma {:induction false} FlushCaseNoTrailingNewline(buf: string, parse: Parser)
    requires !Contains(buf, BlockSeparator)
    requires buf == [] || Last(buf) != '\n'
    ensures ParseSSE(buf + BlockSeparator, parse).events == OptionToSeq(DecodeBlock(buf, parse))
  {
    var s := buf + BlockSeparator;
    NoSeparatorAfterNewline(buf);
    assert BlockSeparator[..|BlockSeparator| - 1] == "\n";
    SplitLeading(buf, "", BlockSeparator);
    assert s + "" == s;
    assert Split("", BlockSeparator) == [""];
    assert Split(s, BlockSeparator) == [buf, ""];
    assert Init([buf, ""]) == [buf];
    DashBlocksAgree([buf], parse);
    assert Init([buf]) == [];
  }

  lemma {:induction false} FlushCaseTrailingNewline(b: string, parse: Parser)
    requires !Contains(b + "\n", BlockSeparator)
    ensures ParseSSE(b + "\n" + BlockSeparator, parse).events == OptionToSeq(DecodeBlock(b + "\n", parse))
  {
    var s := b + "\n" + BlockSeparator;
    assert BlockSeparator[..|BlockSeparator| - 1] == "\n";
    SplitLeading(b, "\n", BlockSeparator);
    assert s == b + BlockSeparator + "\n";
    assert !OccursAt("\n", BlockSeparator, 0);
    assert Split("\n", BlockSeparator) == ["\n"];
    assert Split(s, BlockSeparator) == [b, "\n"];
    assert Init([b, "\n"]) == [b];
    DashBlocksAgree([b], parse);
    assert Init([b]) == [];
    SplitAppendChar(b, '\n');
    ScanIgnoresBlankLines(Split(b, LineSeparator), 1, parse);
    assert Split(b, LineSeparator) + seq(1, _ => "") == Split(b, LineSeparator) + [""];
  }

  /**
   * The dashboard's end-of-stream `parseSSE(buf + "\n\n")` on a remainder (which holds no blank
   * line) produces the single event the client API's flush produces from the same text.
   */
  lemma {:induction false} DashboardFlushAgrees(buf: string, parse: Parser)
    requires !Contains(buf, BlockSeparator)
    requires JsTrim(buf) != ""
    ensures ParseSSE(buf + BlockSeparator, parse).events == Flush(buf, parse)
  {
    FlushDecodesRemainder(buf, parse);
    if buf == [] || Last(buf) != '\n' {
      FlushCaseNoTrailingNewline(buf, parse);
    } else {
      FlushCaseEndsInNewline(buf, parse);
    }
  }

  lemma {:induction false} FlushCaseEndsInNewline(buf: string, parse: Parser)
    requires !Contains(buf, BlockSeparator)
    requires buf != [] && Last(buf) == '\n'
    ensures ParseSSE(buf + BlockSeparator, parse).events == OptionToSeq(DecodeBlock(buf, parse))
  {
    var b := buf[..|buf| - 1];
    assert buf == b + "\n";
    FlushCaseTrailingNewline(b, parse);
  }
}
