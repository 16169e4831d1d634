/**
 * The dashboard's run state as a value: the status table of the stations, keyed by station
 * name, the train index, the error line, the trace line and the result panel, and the
 * transitions the submit handler applies to them. The page finds a station's element with a
 * `[data-service="name"]` selector, so the table stands for the first element of each name;
 * names are taken to be distinct and free of characters that break that selector. The page
 * object in `dashboard.dfy` is proved to perform exactly these transitions.
 */
module RunState {
  import opened Wrappers
  import opened Strings
  import opened Json
  import opened SseDecoder
  import opened DashboardSse
  import opened Preview

  /** A station's status line: "—", "Processing…", "OK" or "Error". */
  datatype Status = Idle | Processing | Done | Failed

  datatype Station = Station(status: Status, input: Preview, output: Preview)

  const IdleStation: Station := Station(Idle, Placeholder, Placeholder)

  /** The station elements, by name: the first element whose `data-service` is that name. */
  type Stations = map<string, Station>

  datatype Board = Board(
    order: seq<string>,       // STATION_ORDER
    stations: Stations,
    train: int,               // currentTrainIndex
    error: Option<string>,    // the visible error line, if any
    traceShown: bool,
    traceText: string,
    resultShown: bool,
    result: Json)             // the `done` data the result panel was last rendered from

  /** Every station element belongs to a name of the station order. */
  predicate WellFormed(b: Board) {
    forall k :: k in b.stations ==> k in b.order
  }

  // ---------------------------------------------------------------------------------------------
  // Station updates
  // ---------------------------------------------------------------------------------------------

  /**
   * `setStationState(svc, s)`: nothing for an unknown name; "processing" and the reset state
   * also clear both previews, "done" and "error" change only the status.
   */
  function WithStatus(st: Stations, svc: string, s: Status): (r: Stations)
    ensures r.Keys == st.Keys
    ensures forall k :: k in st && k != svc ==> r[k] == st[k]
    ensures svc in st ==> r[svc].status == s
    ensures svc in st && (s == Done || s == Failed) ==>
              r[svc].input == st[svc].input && r[svc].output == st[svc].output
    ensures svc in st && (s == Processing || s == Idle) ==>
              r[svc].input == Placeholder && r[svc].output == Placeholder
  {
    if svc !in st then st
    else if s == Processing || s == Idle then st[svc := Station(s, Placeholder, Placeholder)]
    else st[svc := st[svc].(status := s)]
  }

  /** `setStationData(svc, input, output, type)`: both previews, with the type defaulting to "text". */
  function WithData(st: Stations, svc: string, input: Json, output: Json, payloadType: Json, c: Codec): (r: Stations)
    ensures r.Keys == st.Keys
    ensures forall k :: k in st && k != svc ==> r[k] == st[k]
    ensures svc in st ==>
              var t := Or(payloadType, Str("text"));
              r[svc] == st[svc].(input := RenderPayloadPreview(input, t, c.parse, c.stringify),
                                 output := RenderPayloadPreview(output, t, c.parse, c.stringify))
  {
    if svc !in st then st
    else
      var t := Or(payloadType, Str("text"));
      st[svc := st[svc].(input := RenderPayloadPreview(input, t, c.parse, c.stringify),
                         output := RenderPayloadPreview(output, t, c.parse, c.stringify))]
  }

  /** `array.indexOf(x)`: the first position of `x`, or -1. */
  function IndexOf(xs: seq<string>, x: string): (r: int)
    ensures -1 <= r < |xs|
    ensures r == -1 <==> x !in xs
    ensures r >= 0 ==> xs[r] == x && forall j :: 0 <= j < r ==> xs[j] != x
  {
    if |xs| == 0 then -1
    else if xs[0] == x then 0
    else
      var k := IndexOf(xs[1..], x);
      if k == -1 then -1 else k + 1
  }

  /** Setting a station idle and then clearing its data leaves it showing "—" for both. */
  lemma {:induction false} ClearStation(st: Stations, svc: string, c: Codec)
    ensures WithData(WithStatus(st, svc, Idle), svc, Str(""), Str(""), Str("text"), c) ==
            if svc in st then st[svc := IdleStation] else st
  {
    assert RenderPayloadPreview(Str(""), Str("text"), c.parse, c.stringify) == Placeholder;
  }

  /** `resetStations()`: every station back to "—", train hidden, trace and result hidden. */
  function Reset(b: Board): Board {
    b.(stations := ResetIn(b.stations, b.order), train := -1, traceShown := false, resultShown := false)
  }

  /** The stations with those named in `names` back to "—". */
  function ResetIn(st: Stations, names: seq<string>): Stations {
    map k | k in st :: if k in names then IdleStation else st[k]
  }

  /** Resetting one more name is clearing that station, when it exists. */
  lemma {:induction false} ResetInStep(st: Stations, names: seq<string>, x: string)
    ensures ResetIn(st, names + [x]) == if x in st then ResetIn(st, names)[x := IdleStation] else ResetIn(st, names)
  {
  }

  // ---------------------------------------------------------------------------------------------
  // Stream events
  // ---------------------------------------------------------------------------------------------

  /**
   * `(ev.data.service || "").toLowerCase()`; `None` when the service is a truthy non-string,
   * on which `toLowerCase` is not a function and the handler throws.
   */
  function ServiceName(data: Json): Option<string> {
    var s := Or(Get(data, "service"), Str(""));
    if s.Str? then Some(ToLower(s.s)) else None
  }

  /** Shows the trace line when the event carries a truthy `trace_id`. */
  function ShowTrace(b: Board, traceId: Json): Board {
    if Truthy(traceId) then b.(traceShown := true, traceText := JsString(traceId)) else b
  }

  /** The error line of an `error` event. */
  function ErrorLine(data: Json): string {
    JsString(Or(Get(data, "service"), Str("Service"))) + ": " + JsString(Or(Get(data, "error"), Str("error")))
  }

  /** The `forEach` callback for one event; `None` when it throws. */
  function HandleEvent(b: Board, ev: SseEvent, c: Codec): Option<Board> {
    var d := ev.data;
    if ev.event == "started" then Some(ShowTrace(b, Get(d, "trace_id")))
    else if ev.event == "step" then OnStep(b, d, c)
    else if ev.event == "error" then OnError(b, d, c)
    else if ev.event == "done" then Some(OnDone(b, d))
    else Some(b)
  }

  /** A `step` event: the service done with its previews, the next one processing. */
  function OnStep(b: Board, d: Json, c: Codec): Option<Board> {
    match ServiceName(d)
    case None => None
    case Some(svc) =>
      var st := WithData(WithStatus(b.stations, svc, Done), svc, Get(d, "input"), Get(d, "output"),
                         Or(Get(d, "payload_type"), Str("text")), c);
      var next := IndexOf(b.order, svc) + 1;
      if next < |b.order| then Some(b.(stations := WithStatus(st, b.order[next], Processing), train := next))
      else Some(b.(stations := st, train := |b.order|))
  }

  /** An `error` event: the service failed with the error as its output, and the error line shown. */
  function OnError(b: Board, d: Json, c: Codec): Option<Board> {
    match ServiceName(d)
    case None => None
    case Some(svc) =>
      var st := WithData(WithStatus(b.stations, svc, Failed), svc, Str(""), Or(Get(d, "error"), Str("Error")),
                         Str("text"), c);
      Some(b.(stations := st, error := Some(ErrorLine(d))))
  }

  /** A `done` event: the last station done, the trace line and, when there is one, the result. */
  function OnDone(b: Board, d: Json): Board {
    var n := |b.order|;
    var st := if n > 0 then WithStatus(b.stations, b.order[n - 1], Done) else b.stations;
    var b1 := ShowTrace(b.(train := n, stations := st), Get(d, "trace_id"));
    if Truthy(Get(d, "payload")) || Truthy(Get(d, "steps")) then b1.(resultShown := true, result := d)
    else b1
  }

  /** The board after a run of events, and whether a callback threw (which ends the loop). */
  datatype Run = Run(board: Board, thrown: bool)

  function HandleAll(b: Board, evs: seq<SseEvent>, c: Codec): Run {
    if |evs| == 0 then Run(b, false)
    else
      var r := HandleAll(b, Init(evs), c);
      if r.thrown then r
      else match HandleEvent(r.board, Last(evs), c)
        case None => Run(r.board, true)
        case Some(b1) => Run(b1, false)
  }

  /** The end-of-stream flush: a `done` event with truthy data shows the result if it is hidden. */
  function FlushAll(b: Board, evs: seq<SseEvent>): Board {
    if |evs| == 0 then b
    else
      var b1 := FlushAll(b, Init(evs));
      var ev := Last(evs);
      if ev.event == "done" && Truthy(ev.data) && !b1.resultShown then b1.(resultShown := true, result := ev.data)
      else b1
  }

  // ---------------------------------------------------------------------------------------------
  // A submission
  // ---------------------------------------------------------------------------------------------

  /** What `buildRequestBody` produced. */
  datatype Body =
    | NoFile                    // a file input type without a chosen file
    | ReadFailed(message: Json) // the FileReader rejected, with its error's `message`
    | RequestBody(value: Json)

  /** What `fetch("/process/stream", ...)` gave. */
  datatype Reply =
    | Rejected(message: Json)                 // the fetch threw, with its error's `message`
    | NotOk(statusText: string, body: Parsed) // a non-2xx status and its body's JSON parse
    | Streamed(chunks: seq<string>)           // a 2xx status and the decoded body chunks

  /** `err.message || fallback` for a caught error. */
  function Caught(message: Json, fallback: string): string {
    JsString(Or(message, Str(fallback)))
  }

  /**
   * The error line for a non-2xx reply: `detail` (joined with spaces when it is an array) or
   * the status text. A JSON `null` body makes `err.detail` throw, which lands in the outer
   * `catch` with the engine's message `thrownMessage`.
   */
  function NotOkLine(statusText: string, body: Parsed, thrownMessage: string): string {
    var err := match body
      case Parsed(j) => j
      case SyntaxError(_) => Obj(map["detail" := Str(statusText)]);
    if err == Null then Caught(Str(thrownMessage), "Request failed")
    else
      var d := Get(err, "detail");
      var v := if Truthy(d) && d.Arr? then Str(JsJoin(d.items, " ")) else d;
      JsString(Or(v, Str(statusText)))
  }

  /** `STATION_ORDER[1] || "validator"`. */
  function FirstService(order: seq<string>): string {
    if |order| > 1 && order[1] != "" then order[1] else "validator"
  }

  /** The steps after a 2xx reply, before the body is read: gateway done, first service running. */
  function Accepted(b: Board, body: Json, c: Codec): Board {
    var st1 := WithStatus(WithStatus(b.stations, "gateway", Processing), "gateway", Done);
    var st2 := WithData(st1, "gateway", Or(Or(Get(body, "data"), Get(body, "text")), Str("")), Str("Sent"),
                        Or(Get(body, "type"), Str("text")), c);
    b.(stations := WithStatus(st2, FirstService(b.order), Processing), train := 1)
  }

  /** The events of the read loop and the flush events, from the whole received text. */
  function LoopEvents(received: string, c: Codec): seq<SseEvent> {
    EventsOf(Init(Split(received, BlockSeparator)), c.parse)
  }

  function FlushEvents(received: string, c: Codec): seq<SseEvent> {
    var buf := Last(Split(received, BlockSeparator));
    if JsTrim(buf) != "" then ParseSSE(buf + BlockSeparator, c.parse).events else []
  }

  /** The whole submit handler, from the board before the click to the board after it. */
  function SubmitRun(b: Board, body: Body, reply: Reply, c: Codec, thrownMessage: string): Board {
    var b0 := Reset(b.(error := None));
    match body
    case ReadFailed(m) => b0.(error := Some("Failed to read file: " + Caught(m, "error")))
    case NoFile => b0.(error := Some("Choose a file for Image/Video/File input."))
    case RequestBody(v) =>
      match reply
      case Rejected(m) => b0.(error := Some(Caught(m, "Request failed")))
      case NotOk(statusText, parsed) => b0.(error := Some(NotOkLine(statusText, parsed, thrownMessage)))
      case Streamed(chunks) =>
        var received := Concat(chunks);
        var r := HandleAll(Accepted(b0, v, c), LoopEvents(received, c), c);
        if r.thrown then r.board.(error := Some(Caught(Str(thrownMessage), "Request failed")))
        else FlushAll(r.board, FlushEvents(received, c))
  }

  // ---------------------------------------------------------------------------------------------
  // Properties
  // ---------------------------------------------------------------------------------------------

  /** After a reset every station is idle and the train is hidden. */
  lemma {:induction false} ResetIdles(b: Board)
    requires WellFormed(b)
    ensures var r := Reset(b);
            r.stations.Keys == b.stations.Keys &&
            (forall k :: k in r.stations ==> r.stations[k] == IdleStation) &&
            r.train == -1 && !r.traceShown && !r.resultShown && WellFormed(r)
  {
  }

  /**
   * After the POST is accepted the gateway is done with "Sent" as output, the first service is
   * processing and the train is at 1. (A first service literally named "gateway" would leave
   * the gateway processing.)
   */
  lemma {:induction false} AcceptedMarks(b: Board, body: Json, c: Codec)
    requires "gateway" in b.stations && FirstService(b.order) in b.stations
    ensures var r := Accepted(b, body, c);
            var t := Or(Or(Get(body, "type"), Str("text")), Str("text"));
            r.train == 1 &&
            r.stations[FirstService(b.order)].status == Processing &&
            (FirstService(b.order) != "gateway" ==>
               r.stations["gateway"] == Station(Done,
                 RenderPayloadPreview(Or(Or(Get(body, "data"), Get(body, "text")), Str("")), t, c.parse, c.stringify),
                 RenderPayloadPreview(Str("Sent"), t, c.parse, c.stringify)))
  {
  }

  /** A `step` whose `service` is a truthy non-string throws, before anything changes. */
  lemma {:induction false} StepWithBadServiceThrows(b: Board, ev: SseEvent, c: Codec)
    requires ev.event == "step" || ev.event == "error"
    requires Truthy(Get(ev.data, "service")) && !Get(ev.data, "service").Str?
    ensures HandleEvent(b, ev, c).None?
  {
  }

  /**
   * A `step` marks the (lower-cased) service done with its previews and sets the station after
   * it processing, moving the train there, or to `n` after the last station.
   */
  lemma {:induction false} StepAdvances(b: Board, ev: SseEvent, svc: string, c: Codec)
    requires ev.event == "step" && ServiceName(ev.data) == Some(svc)
    ensures HandleEvent(b, ev, c).Some?
    ensures var r := HandleEvent(b, ev, c).value;
            var next := IndexOf(b.order, svc) + 1;
            var t := Or(Or(Get(ev.data, "payload_type"), Str("text")), Str("text"));
            r.order == b.order && r.error == b.error && r.resultShown == b.resultShown &&
            r.stations.Keys == b.stations.Keys &&
            (next < |b.order| ==> r.train == next) &&
            (next >= |b.order| ==> r.train == |b.order|) &&
            (next < |b.order| && b.order[next] in b.stations ==> r.stations[b.order[next]].status == Processing) &&
            (svc in b.stations && (next >= |b.order| || b.order[next] != svc) ==>
               r.stations[svc] == Station(Done,
                 RenderPayloadPreview(Get(ev.data, "input"), t, c.parse, c.stringify),
                 RenderPayloadPreview(Get(ev.data, "output"), t, c.parse, c.stringify))) &&
            (forall k :: k in b.stations && k != svc && (next >= |b.order| || k != b.order[next]) ==>
               r.stations[k] == b.stations[k])
  {
  }

  /**
   * A `step` for a service that is not in the station order changes no finished station but
   * still marks the first station processing and moves the train to 0, since `indexOf` gives -1.
   */
  lemma {:induction false} StepForUnknownService(b: Board, ev: SseEvent, svc: string, c: Codec)
    requires WellFormed(b) && |b.order| > 0
    requires ev.event == "step" && ServiceName(ev.data) == Some(svc) && svc !in b.order
    ensures HandleEvent(b, ev, c).Some?
    ensures var r := HandleEvent(b, ev, c).value;
            r.train == 0 &&
            (b.order[0] in b.stations ==> r.stations == b.stations[b.order[0] := Station(Processing, Placeholder, Placeholder)]) &&
            (b.order[0] !in b.stations ==> r.stations == b.stations)
  {
    StepAdvances(b, ev, svc, c);
    assert IndexOf(b.order, svc) == -1;
    var r := HandleEvent(b, ev, c).value;
    if b.order[0] in b.stations {
      assert r.stations.Keys == b.stations[b.order[0] := Station(Processing, Placeholder, Placeholder)].Keys;
    }
  }

  /** An `error` marks the station failed with the error text as output; the train stays. */
  lemma {:induction false} ErrorKeepsTrain(b: Board, ev: SseEvent, svc: string, c: Codec)
    requires ev.event == "error" && ServiceName(ev.data) == Some(svc)
    ensures HandleEvent(b, ev, c).Some?
    ensures var r := HandleEvent(b, ev, c).value;
            r.train == b.train && r.order == b.order && r.resultShown == b.resultShown &&
            r.error == Some(ErrorLine(ev.data)) &&
            r.stations.Keys == b.stations.Keys &&
            (svc in b.stations ==>
               r.stations[svc] == Station(Failed, Placeholder,
                 RenderPayloadPreview(Or(Get(ev.data, "error"), Str("Error")), Str("text"), c.parse, c.stringify))) &&
            (forall k :: k in b.stations && k != svc ==> r.stations[k] == b.stations[k])
  {
    var r := HandleEvent(b, ev, c).value;
    if svc in b.stations {
      assert RenderPayloadPreview(Str(""), Str("text"), c.parse, c.stringify) == Placeholder;
    }
  }

  /** `done` moves the train past the last station and marks that station done, even after an error. */
  lemma {:induction false} DoneFinishes(b: Board, ev: SseEvent, c: Codec)
    requires ev.event == "done" && |b.order| > 0
    ensures HandleEvent(b, ev, c).Some?
    ensures var r := HandleEvent(b, ev, c).value;
            var last := b.order[|b.order| - 1];
            r.train == |b.order| && r.error == b.error &&
            (last in b.stations ==> r.stations[last] == b.stations[last].(status := Done)) &&
            (forall k :: k in b.stations && k != last ==> r.stations[k] == b.stations[k]) &&
            (r.resultShown <==> b.resultShown || Truthy(Get(ev.data, "payload")) || Truthy(Get(ev.data, "steps")))
  {
  }

  /** Once a callback has thrown, later events are not handled. */
  lemma {:induction false} HandleAllAppend(b: Board, xs: seq<SseEvent>, ys: seq<SseEvent>, c: Codec)
    ensures var r := HandleAll(b, xs, c);
            HandleAll(b, xs + ys, c) == if r.thrown then r else HandleAll(r.board, ys, c)
    decreases |ys|
  {
    if |ys| == 0 {
      assert xs + ys == xs;
      var r := HandleAll(b, xs, c);
      if !r.thrown {
        assert HandleAll(r.board, ys, c) == Run(r.board, false);
      }
    } else {
      assert Init(xs + ys) == xs + Init(ys);
      assert Last(xs + ys) == Last(ys);
      HandleAllAppend(b, xs, Init(ys), c);
    }
  }

  /** The flush shows the result exactly when it was shown or a `done` event with truthy data arrives. */
  lemma {:induction false} FlushShowsResult(b: Board, evs: seq<SseEvent>)
    ensures FlushAll(b, evs).resultShown <==>
            b.resultShown || exists i :: 0 <= i < |evs| && evs[i].event == "done" && Truthy(evs[i].data)
    ensures FlushAll(b, evs).stations == b.stations && FlushAll(b, evs).train == b.train && FlushAll(b, evs).order == b.order
  {
    if |evs| > 0 {
      FlushShowsResult(b, Init(evs));
      var ev := Last(evs);
      if exists i :: 0 <= i < |Init(evs)| && Init(evs)[i].event == "done" && Truthy(Init(evs)[i].data) {
        var i :| 0 <= i < |Init(evs)| && Init(evs)[i].event == "done" && Truthy(Init(evs)[i].data);
        assert evs[i] == Init(evs)[i];
      }
      if exists i :: 0 <= i < |evs| && evs[i].event == "done" && Truthy(evs[i].data) {
        var i :| 0 <= i < |evs| && evs[i].event == "done" && Truthy(evs[i].data);
        if i < |evs| - 1 {
          assert Init(evs)[i] == evs[i];
        }
      }
    }
  }
}
