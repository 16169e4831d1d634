/**
 * The event stream on the wire, between the gateway's `writeSSE` and the client's decoder.
 *
 * `writeSSE` writes each event as `event: <name>`, a newline, `data: <json>` and a blank line.
 * Given that the JSON encoder never writes a line break or surrounding white space, and that
 * the client's parser reads back what it wrote, the client decodes exactly the events the
 * gateway sent, in order, with their names and data.
 */
module SseWire {
  import opened Wrappers
  import opened Strings
  import opened Json
  import SseDecoder
  import StreamHandler

  /** The block of one event, without its terminating blank line. */
  function Block(event: string, text: string): string {
    "event: " + event + "\ndata: " + text
  }

  /** `writeSSE(w, event, data)`, with `text` the marshalled data. */
  function Frame(event: string, text: string): string {
    Block(event, text) + "\n\n"
  }

  /** Everything written for a sequence of events, in order. */
  function WriteAll(events: seq<StreamHandler.Event>, marshal: Printer): string {
    if events == [] then ""
    else
      Frame(StreamHandler.EventName(events[0]), marshal(StreamHandler.EventData(events[0]))) + WriteAll(events[1..], marshal)
  }

  /** The blocks `WriteAll` writes. */
  function Blocks(events: seq<StreamHandler.Event>, marshal: Printer): (bs: seq<string>)
    ensures |bs| == |events|
  {
    if events == [] then []
    else
      [Block(StreamHandler.EventName(events[0]), marshal(StreamHandler.EventData(events[0])))] + Blocks(events[1..], marshal)
  }

  /** The events as the client should see them: name and data. */
  function Sent(events: seq<StreamHandler.Event>): (r: seq<SseDecoder.SseEvent>)
    ensures |r| == |events|
  {
    if events == [] then []
    else [SseDecoder.SseEvent(StreamHandler.EventName(events[0]), StreamHandler.EventData(events[0]))] + Sent(events[1..])
  }

  predicate LineFree(s: string) {
    forall i :: 0 <= i < |s| ==> s[i] != '\n'
  }

  /**
   * What the wire needs of the encoder and the client's parser: parsing gives back the value
   * encoded, and the encoding has no line break and no white space at either end.
   */
  ghost predicate WireSafe(marshal: Printer, parse: Parser) {
    OneLine(marshal) && forall v :: parse(marshal(v)) == Parsed(v) && JsTrim(marshal(v)) == marshal(v)
  }

  /** The encoder never writes a line break. */
  ghost predicate OneLine(marshal: Printer) {
    forall v :: LineFree(marshal(v))
  }

  // ---------------------------------------------------------------------------------------------
  // One block
  // ---------------------------------------------------------------------------------------------

  lemma {:induction false} LineFreeNoNewline(s: string)
    requires LineFree(s)
    ensures !Contains(s, "\n")
  {
    forall i: nat ensures !OccursAt(s, "\n", i) {
      if i + 1 <= |s| {
        assert s[i..i + 1][0] == s[i];
      }
    }
  }

  /** The four event names have no line break and no surrounding white space. */
  lemma {:induction false} EventNameShape(e: StreamHandler.Event)
    ensures LineFree(StreamHandler.EventName(e)) && JsTrim(StreamHandler.EventName(e)) == StreamHandler.EventName(e)
  {
    var n := StreamHandler.EventName(e);
    assert !IsJsSpace(n[0]) && !IsJsSpace(n[|n| - 1]) by {
      match e
      case Started(_, _) => assert n[0] == 's' && n[|n| - 1] == 'd';
      case Step(_, _, _) => assert n[0] == 's' && n[|n| - 1] == 'p';
      case Failure(_, _) => assert n[0] == 'e' && n[|n| - 1] == 'r';
      case Done(_, _, _) => assert n[0] == 'd' && n[|n| - 1] == 'e';
    }
    TrimUnchanged(n, IsJsSpace);
  }

  /** A block is two lines: the `event:` line and the `data:` line. */
  lemma {:induction false} BlockLines(n: string, j: string)
    requires LineFree(n) && LineFree(j)
    ensures Split(Block(n, j), "\n") == ["event: " + n, "data: " + j]
  {
    var l1, l2 := "event: " + n, "data: " + j;
    assert LineFree(l1) by {
      forall i | 0 <= i < |l1| ensures l1[i] != '\n' {
        if i >= 7 { assert l1[i] == n[i - 7]; }
      }
    }
    assert LineFree(l2) by {
      forall i | 0 <= i < |l2| ensures l2[i] != '\n' {
        if i >= 6 { assert l2[i] == j[i - 6]; }
      }
    }
    LineFreeNoNewline(l1);
    LineFreeNoNewline(l2);
    assert l1 + "\n"[..0] == l1;
    assert Block(n, j) == l1 + "\n" + l2;
    SplitLeading(l1, l2, "\n");
  }

  /** The text after a one-space prefix, trimmed, is text that is already trimmed. */
  lemma {:induction false} TrimAfterSpace(s: string)
    requires JsTrim(s) == s
    ensures JsTrim(" " + s) == s
  {
    assert " " + s == [' '] + s;
    TrimDropsLeading(' ', s, IsJsSpace);
  }

  /** How the two kinds of line the gateway writes start. */
  lemma {:induction false} LinePrefixes(n: string, j: string)
    ensures StartsWith("event: " + n, "event:") && !StartsWith("event: " + n, "data:") && ("event: " + n)[6..] == " " + n
    ensures StartsWith("data: " + j, "data:") && !StartsWith("data: " + j, "event:") && ("data: " + j)[5..] == " " + j
  {
    var l1, l2 := "event: " + n, "data: " + j;
    assert l1[..6] == "event:" && l1[..5][0] == 'e';
    assert l2[..5] == "data:" && l2[..6][0] == 'd';
  }

  /** The `event:` line sets the event name to the name written, and nothing else. */
  lemma {:induction false} EventLine(st: SseDecoder.BlockState, n: string, parse: Parser)
    requires JsTrim(n) == n
    ensures SseDecoder.LineStep(st, "event: " + n, parse) == st.(event := n)
  {
    LinePrefixes(n, "");
    TrimAfterSpace(n);
  }

  /** The `data:` line sets the data to the value the text parses to, and nothing else. */
  lemma {:induction false} DataLine(st: SseDecoder.BlockState, j: string, v: Json, parse: Parser)
    requires JsTrim(j) == j && parse(j) == Parsed(v)
    ensures SseDecoder.LineStep(st, "data: " + j, parse) == st.(data := v)
  {
    LinePrefixes("", j);
    TrimAfterSpace(j);
  }

  /** Reading two lines is one step for each, in order. */
  lemma {:induction false} ScanTwo(l1: string, l2: string, parse: Parser)
    ensures SseDecoder.ScanLines([l1, l2], parse) == SseDecoder.LineStep(SseDecoder.LineStep(SseDecoder.InitialState, l1, parse), l2, parse)
  {
    assert Init([l1, l2]) == [l1] && Last([l1, l2]) == l2;
    assert Init([l1]) == [] && Last([l1]) == l1;
    assert SseDecoder.ScanLines([l1], parse) == SseDecoder.LineStep(SseDecoder.InitialState, l1, parse);
  }

  /** The client decodes a block into its event name and the value its data parses to. */
  lemma {:induction false} BlockDecodes(n: string, j: string, v: Json, parse: Parser)
    requires LineFree(n) && LineFree(j) && JsTrim(n) == n && JsTrim(j) == j
    requires parse(j) == Parsed(v) && v != Null
    ensures SseDecoder.DecodeBlock(Block(n, j), parse) == Some(SseDecoder.SseEvent(n, v))
  {
    var l1, l2 := "event: " + n, "data: " + j;
    BlockLines(n, j);
    ScanTwo(l1, l2, parse);
    EventLine(SseDecoder.InitialState, n, parse);
    DataLine(SseDecoder.BlockState(n, Null), j, v, parse);
  }

  /** A block followed by one line break never holds a blank line. */
  lemma {:induction false} BlockHasNoBlankLine(n: string, j: string)
    requires LineFree(n) && LineFree(j)
    ensures !Contains(Block(n, j) + "\n", "\n\n")
  {
    var s := Block(n, j) + "\n";
    var p := 7 + |n|;
    assert s[p + 1] == 'd';
    forall i: nat ensures !OccursAt(s, "\n\n", i) {
      if i + 2 <= |s| {
        assert s[i..i + 2][0] == s[i] && s[i..i + 2][1] == s[i + 1];
        if i < 7 {
        } else if i < p {
          assert s[i] == n[i - 7];
        } else if i < p + 7 {
        } else {
          assert s[i] == j[i - p - 7];
        }
      }
    }
  }

  // ---------------------------------------------------------------------------------------------
  // The whole stream
  // ---------------------------------------------------------------------------------------------

  /** A frame splits off at its blank line, ahead of whatever follows it. */
  lemma {:induction false} FrameSplits(n: string, j: string, rest: string)
    requires LineFree(n) && LineFree(j)
    ensures Split(Frame(n, j) + rest, "\n\n") == [Block(n, j)] + Split(rest, "\n\n")
  {
    BlockHasNoBlankLine(n, j);
    assert "\n\n"[..1] == "\n";
    assert Frame(n, j) + rest == Block(n, j) + "\n\n" + rest;
    SplitLeading(Block(n, j), rest, "\n\n");
  }

  /** The written text splits at its blank lines into the blocks and an empty remainder. */
  lemma {:induction false} WriteAllSplits(events: seq<StreamHandler.Event>, marshal: Printer)
    requires OneLine(marshal)
    ensures Split(WriteAll(events, marshal), "\n\n") == Blocks(events, marshal) + [""]
    decreases |events|
  {
    if events == [] {
      assert Find("", "\n\n").None?;
    } else {
      var n := StreamHandler.EventName(events[0]);
      var j := marshal(StreamHandler.EventData(events[0]));
      EventNameShape(events[0]);
      assert LineFree(j);
      FrameSplits(n, j, WriteAll(events[1..], marshal));
      WriteAllSplits(events[1..], marshal);
    }
  }

  /** Each block decodes into the event it was written for. */
  lemma {:induction false} BlocksDecode(events: seq<StreamHandler.Event>, marshal: Printer, parse: Parser)
    requires WireSafe(marshal, parse)
    ensures SseDecoder.EventsOf(Blocks(events, marshal), parse) == Sent(events)
    decreases |events|
  {
    if events != [] {
      var e := events[0];
      var n := StreamHandler.EventName(e);
      var v := StreamHandler.EventData(e);
      var b := Block(n, marshal(v));
      EventNameShape(e);
      StreamHandler.EventDataFields(e);
      BlockDecodes(n, marshal(v), v, parse);
      assert Init([b]) == [] && Last([b]) == b;
      assert SseDecoder.EventsOf([b], parse) == [SseDecoder.SseEvent(n, v)];
      SseDecoder.EventsOfAppend([b], Blocks(events[1..], marshal), parse);
      BlocksDecode(events[1..], marshal, parse);
    }
  }

  /**
   * The client's decoder, given everything the gateway wrote, yields exactly the events sent,
   * in order, with their names and data; nothing is left over at the end of the stream.
   */
  lemma {:induction false} WireRoundTrip(events: seq<StreamHandler.Event>, marshal: Printer, parse: Parser)
    requires WireSafe(marshal, parse)
    ensures SseDecoder.StreamEvents(WriteAll(events, marshal), parse) == Sent(events)
  {
    WriteAllSplits(events, marshal);
    DecodeParts(WriteAll(events, marshal), Blocks(events, marshal), parse);
    BlocksDecode(events, marshal, parse);
  }

  /** Text that splits into complete blocks and nothing after them decodes block by block. */
  lemma {:induction false} DecodeParts(s: string, bs: seq<string>, parse: Parser)
    requires Split(s, SseDecoder.BlockSeparator) == bs + [""]
    ensures SseDecoder.StreamEvents(s, parse) == SseDecoder.EventsOf(bs, parse)
  {
    var parts := bs + [""];
    assert Init(parts) == bs && Last(parts) == "";
    assert JsTrim("") == "";
    assert SseDecoder.Flush("", parse) == [];
    assert SseDecoder.EventsOf(bs, parse) + [] == SseDecoder.EventsOf(bs, parse);
  }

  /**
   * What a client of `processStream` decodes: `started` with the payload first, then a `step`
   * per service that answered, then `done` or `error`.
   */
  lemma {:induction false} ClientSeesStream(pairs: seq<(string, string)>, payload: GoMap, traceId: string, call: StreamHandler.Call,
                         decode: StreamHandler.Decoder, marshal: Printer, parse: Parser)
    requires WireSafe(marshal, parse)
    ensures var got := SseDecoder.StreamEvents(WriteAll(StreamHandler.StreamEvents(pairs, payload, traceId, call, decode), marshal), parse);
            |got| >= 2 && got[0] == SseDecoder.SseEvent("started", StreamHandler.EventData(StreamHandler.Started(traceId, payload))) &&
            (got[|got| - 1].event == "done" || got[|got| - 1].event == "error") &&
            forall i :: 1 <= i < |got| - 1 ==> got[i].event == "step"
  {
    var evs := StreamHandler.StreamEvents(pairs, payload, traceId, call, decode);
    WireRoundTrip(evs, marshal, parse);
    StreamHandler.StreamShape(pairs, payload, traceId, call, decode);
    SentShape(evs);
  }

  /** The names the client reads for a stream that starts, steps and then ends. */
  lemma {:induction false} SentShape(evs: seq<StreamHandler.Event>)
    requires |evs| >= 2 && evs[0].Started? && (evs[|evs| - 1].Done? || evs[|evs| - 1].Failure?)
    requires forall i :: 1 <= i < |evs| - 1 ==> evs[i].Step?
    ensures var got := Sent(evs);
            got[0] == SseDecoder.SseEvent("started", StreamHandler.EventData(evs[0])) &&
            (got[|got| - 1].event == "done" || got[|got| - 1].event == "error") &&
            forall i :: 1 <= i < |got| - 1 ==> got[i].event == "step"
  {
    SentNames(evs);
  }

  lemma {:induction false} SentNames(events: seq<StreamHandler.Event>)
    ensures forall i :: 0 <= i < |events| ==>
              Sent(events)[i] == SseDecoder.SseEvent(StreamHandler.EventName(events[i]), StreamHandler.EventData(events[i]))
    decreases |events|
  {
    if events != [] {
      SentNames(events[1..]);
      forall i | 1 <= i < |events|
        ensures Sent(events)[i] == SseDecoder.SseEvent(StreamHandler.EventName(events[i]), StreamHandler.EventData(events[i]))
      {
        assert Sent(events)[i] == Sent(events[1..])[i - 1] && events[i] == events[1..][i - 1];
      }
    }
  }
}
