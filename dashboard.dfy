/**
 * The dashboard page's state and handlers: the station order and status table, the train
 * index, the error, trace and result lines of a run, and the services editor's list. Each
 * handler that changes the run state is proved to perform the transition `RunState` defines;
 * the submit handler reads the stream chunk by chunk, and is proved to end in the state the
 * whole received text determines.
 */
module Dashboard {
  import opened Wrappers
  import opened Strings
  import opened Json
  import opened SseDecoder
  import opened DashboardSse
  import opened Preview
  import opened RunState

  /** One pipeline service as the editor holds it. */
  datatype ServiceRow = ServiceRow(name: string, url: string, icon: string, description: string,
                                   inputType: string, outputType: string)

  /** The row "Add service" appends. */
  const NewRow: ServiceRow := ServiceRow("", "", "\U{2022}", "", "any", "any")

  /** The services shown when the gateway lists none, or cannot be reached. */
  const DefaultServices: seq<ServiceRow> := [
    ServiceRow("validator", "http://validator:8001", "\U{2713}", "", "", ""),
    ServiceRow("transformer", "http://transformer:8002", "\U{21C5}", "", "", ""),
    ServiceRow("enricher", "http://enricher:8003", "\U{2295}", "", "", ""),
    ServiceRow("persister", "http://persister:8004", "\U{1F4BE}", "", "", "")
  ]

  /** `["gateway"].concat(services.map(s => s.name))`. */
  function StationOrder(services: seq<ServiceRow>): seq<string>
  {
    ["gateway"] + seq(|services|, i requires 0 <= i < |services| => services[i].name)
  }

  /** The board after `buildStations`: a fresh, idle element per name of the new order. */
  function Built(b: Board, services: seq<ServiceRow>): Board {
    var order := StationOrder(services);
    b.(order := order, stations := map n | n in order :: IdleStation)
  }

  lemma {:induction false} BuiltWellFormed(b: Board, services: seq<ServiceRow>)
    ensures var r := Built(b, services);
            WellFormed(r) && (forall k :: k in r.order ==> k in r.stations && r.stations[k] == IdleStation) &&
            r.train == b.train
  {
  }

  // ---------------------------------------------------------------------------------------------
  // The editor's save button
  // ---------------------------------------------------------------------------------------------

  /** The raw values of one editor row's inputs. */
  datatype EditorRow = EditorRow(name: string, url: string, icon: string, description: string,
                                 inputType: string, outputType: string)

  /** One row as `getServicesFromEditor` reads it: text fields trimmed, a blank icon as "•". */
  function ReadRow(r: EditorRow): ServiceRow {
    var icon := JsTrim(r.icon);
    ServiceRow(JsTrim(r.name), JsTrim(r.url), if icon == "" then "\U{2022}" else icon, JsTrim(r.description),
               r.inputType, r.outputType)
  }

  /** The rows `getServicesFromEditor` keeps: those whose raw name is non-empty, in order. */
  function Named(rows: seq<EditorRow>): (out: seq<EditorRow>)
    ensures |out| <= |rows|
    ensures forall j :: 0 <= j < |out| ==> out[j].name != ""
  {
    if |rows| == 0 then []
    else (if rows[0].name == "" then [] else [rows[0]]) + Named(rows[1..])
  }

  /** `getServicesFromEditor()`: the kept rows, each read. */
  function FromEditor(rows: seq<EditorRow>): seq<ServiceRow>
  {
    var kept := Named(rows);
    seq(|kept|, j requires 0 <= j < |kept| => ReadRow(kept[j]))
  }

  const NoServicesMessage: string := "Add at least one microservice (name and URL required)."
  const IncompleteServiceMessage: string := "Every service must have a name and URL."

  /** The checks before the PUT: some service, and every service with a name and a URL. */
  function SaveCheck(rows: seq<EditorRow>): Result<seq<ServiceRow>, string> {
    var list := FromEditor(rows);
    if |list| == 0 then Err(NoServicesMessage)
    else if exists i :: 0 <= i < |list| && (JsTrim(list[i].name) == "" || JsTrim(list[i].url) == "") then
      Err(IncompleteServiceMessage)
    else Ok(list)
  }

  lemma {:induction false} NamedEmpty(rows: seq<EditorRow>)
    ensures Named(rows) == [] <==> forall i :: 0 <= i < |rows| ==> rows[i].name == ""
  {
    if |rows| > 0 {
      NamedEmpty(rows[1..]);
      assert forall i :: 1 <= i < |rows| ==> rows[i] == rows[1..][i - 1];
    }
  }

  /** Every kept row is a row with a name. */
  lemma {:induction false} NamedFrom(rows: seq<EditorRow>, j: nat)
    requires j < |Named(rows)|
    ensures exists i :: 0 <= i < |rows| && Named(rows)[j] == rows[i]
  {
    if rows[0].name == "" {
      NamedFrom(rows[1..], j);
      var i :| 0 <= i < |rows[1..]| && Named(rows[1..])[j] == rows[1..][i];
      assert rows[i + 1] == rows[1..][i];
    } else if j > 0 {
      NamedFrom(rows[1..], j - 1);
      var i :| 0 <= i < |rows[1..]| && Named(rows[1..])[j - 1] == rows[1..][i];
      assert rows[i + 1] == rows[1..][i];
    }
  }

  /** A row with a name is kept. */
  lemma {:induction false} NamedKeeps(rows: seq<EditorRow>, i: nat)
    requires i < |rows| && rows[i].name != ""
    ensures exists j :: 0 <= j < |Named(rows)| && Named(rows)[j] == rows[i]
  {
    if i == 0 {
      assert Named(rows)[0] == rows[0];
    } else {
      assert rows[1..][i - 1] == rows[i];
      NamedKeeps(rows[1..], i - 1);
      var j :| 0 <= j < |Named(rows[1..])| && Named(rows[1..])[j] == rows[i];
      var head := if rows[0].name == "" then [] else [rows[0]];
      assert Named(rows) == head + Named(rows[1..]);
      assert Named(rows)[|head| + j] == rows[i];
    }
  }

  /** Saving is refused with the first message exactly when no row has a name. */
  lemma {:induction false} SaveNeedsAService(rows: seq<EditorRow>)
    ensures SaveCheck(rows) == Err(NoServicesMessage) <==> forall i :: 0 <= i < |rows| ==> rows[i].name == ""
  {
    NamedEmpty(rows);
  }

  /** A named row whose name or URL is blank after trimming refuses the save. */
  lemma {:induction false} SaveRefusesBlank(rows: seq<EditorRow>, i: nat)
    requires i < |rows| && rows[i].name != ""
    requires JsTrim(rows[i].name) == "" || JsTrim(rows[i].url) == ""
    ensures SaveCheck(rows) == Err(IncompleteServiceMessage)
  {
    NamedKeeps(rows, i);
    var list := FromEditor(rows);
    var j :| 0 <= j < |Named(rows)| && Named(rows)[j] == rows[i];
    assert list[j] == ReadRow(rows[i]);
    var n, u := rows[i].name, rows[i].url;
    assert list[j].name == JsTrim(n) && list[j].url == JsTrim(u);
    if JsTrim(n) == "" {
      BlankStaysBlank(n);
      assert JsTrim(list[j].name) == "";
    } else {
      BlankStaysBlank(u);
      assert JsTrim(list[j].url) == "";
    }
  }

  lemma {:induction false} BlankStaysBlank(s: string)
    requires JsTrim(s) == ""
    ensures JsTrim(JsTrim(s)) == ""
  {
    TrimIdempotent(s, IsJsSpace);
  }

  /** What a save sends is non-empty and every service has a trimmed, non-empty name and URL. */
  lemma {:induction false} SaveSendsComplete(rows: seq<EditorRow>)
    requires SaveCheck(rows).Ok?
    ensures var list := SaveCheck(rows).value;
            |list| > 0 &&
            forall j :: 0 <= j < |list| ==>
              list[j].name != "" && list[j].url != "" && list[j].icon != "" &&
              list[j].name == JsTrim(list[j].name) && list[j].url == JsTrim(list[j].url)
  {
    var list := SaveCheck(rows).value;
    var kept := Named(rows);
    assert list == FromEditor(rows) == seq(|kept|, j requires 0 <= j < |kept| => ReadRow(kept[j]));
    forall j | 0 <= j < |list|
      ensures list[j].name == JsTrim(list[j].name) && list[j].url == JsTrim(list[j].url)
    {
      var row := kept[j];
      assert list[j] == ReadRow(row);
      TrimIdempotent(row.name, IsJsSpace);
      TrimIdempotent(row.url, IsJsSpace);
    }
  }

  /** What the PUT gave: the decoded reply, or the error its promise chain rejected with. */
  datatype SaveReply = SaveReplied(data: Json) | SaveRejected(message: Json)

  /** The two message lines after a save: (error line, success line). */
  function SaveLines(rows: seq<EditorRow>, reply: SaveReply, thrownMessage: string): (Option<string>, Option<string>) {
    match SaveCheck(rows)
    case Err(m) => (Some(m), None)
    case Ok(_) =>
      match reply
      case SaveRejected(m) => (Some(Caught(m, "Request failed")), None)
      case SaveReplied(data) =>
        if data == Null then (Some(Caught(Str(thrownMessage), "Request failed")), None)
        else if Truthy(Get(data, "ok")) then
          (None, Some("Pipeline saved." +
                      (if Truthy(Get(data, "saved")) then " Config persisted to file."
                       else " (In-memory only; set WRITABLE_PIPELINE_PATH to persist.)")))
        else (Some(JsString(Or(Get(data, "detail"), Str("Save failed")))), None)
  }

  /** The save went through: the editor list is replaced and the pipeline fetched again. */
  predicate SaveApplies(rows: seq<EditorRow>, reply: SaveReply) {
    SaveCheck(rows).Ok? && reply.SaveReplied? && reply.data != Null && Truthy(Get(reply.data, "ok"))
  }

  lemma {:induction false} SaveLinesExclusive(rows: seq<EditorRow>, reply: SaveReply, thrownMessage: string)
    ensures var (err, ok) := SaveLines(rows, reply, thrownMessage);
            (err.None? <==> ok.Some?) && (ok.Some? <==> SaveApplies(rows, reply))
  {
  }

  // ---------------------------------------------------------------------------------------------
  // The page
  // ---------------------------------------------------------------------------------------------

  datatype Editor = Editor(services: seq<ServiceRow>, configError: Option<string>, configSuccess: Option<string>)

  /** `splice(index, 1)`'s start: a negative index counts from the end. */
  function SpliceStart(index: int, len: nat): (r: nat)
    ensures r <= len
  {
    if index < 0 then (if len + index < 0 then 0 else len + index) else Min(index, len)
  }

  class DashboardPage {
    var order: seq<string>
    var stations: Stations
    var train: int
    var error: Option<string>
    var traceShown: bool
    var traceText: string
    var resultShown: bool
    var result: Json
    var services: seq<ServiceRow>
    var configError: Option<string>
    var configSuccess: Option<string>

    function Snapshot(): Board
      reads this
    {
      Board(order, stations, train, error, traceShown, traceText, resultShown, result)
    }

    function EditorState(): Editor
      reads this
    {
      Editor(services, configError, configSuccess)
    }

    ghost predicate Valid()
      reads this
    {
      WellFormed(Snapshot())
    }

    /** The page as loaded, before the pipeline is fetched. */
    constructor ()
      ensures Snapshot() == Board(["gateway"], map[], -1, None, false, "", false, Null)
      ensures EditorState() == Editor([], None, None)
      ensures Valid()
    {
      order := ["gateway"];
      stations := map[];
      train := -1;
      error := None;
      traceShown := false;
      traceText := "";
      resultShown := false;
      result := Null;
      services := [];
      configError := None;
      configSuccess := None;
    }

    method SetStationState(svc: string, s: Status)
      modifies this
      ensures Snapshot() == old(Snapshot()).(stations := WithStatus(old(stations), svc, s))
      ensures EditorState() == old(EditorState())
    {
      stations := WithStatus(stations, svc, s);
    }

    method SetStationData(svc: string, input: Json, output: Json, payloadType: Json, c: Codec)
      modifies this
      ensures Snapshot() == old(Snapshot()).(stations := WithData(old(stations), svc, input, output, payloadType, c))
      ensures EditorState() == old(EditorState())
    {
      stations := WithData(stations, svc, input, output, payloadType, c);
    }

    method MoveTrain(index: int)
      modifies this
      ensures Snapshot() == old(Snapshot()).(train := index)
      ensures EditorState() == old(EditorState())
    {
      train := index;
    }

    method ShowTraceLine(traceId: Json)
      modifies this
      ensures Snapshot() == ShowTrace(old(Snapshot()), traceId)
      ensures EditorState() == old(EditorState())
    {
      if Truthy(traceId) {
        traceText := JsString(traceId);
        traceShown := true;
      }
    }

    /** `resetStations()`: the `forEach` over the station order. */
    method ResetStations(c: Codec)
      modifies this
      ensures Snapshot() == Reset(old(Snapshot()))
      ensures EditorState() == old(EditorState())
    {
      ghost var st0 := stations;
      var i := 0;
      while i < |order|
        invariant 0 <= i <= |order|
        invariant order == old(order) && EditorState() == old(EditorState())
        invariant Snapshot() == old(Snapshot()).(stations := stations)
        invariant stations == ResetIn(st0, order[..i])
      {
        ClearStation(stations, order[i], c);
        ResetInStep(st0, order[..i], order[i]);
        SetStationState(order[i], Idle);
        SetStationData(order[i], Str(""), Str(""), Str("text"), c);
        assert order[..i + 1] == order[..i] + [order[i]];
        i := i + 1;
      }
      assert order[..i] == order;
      MoveTrain(-1);
      traceShown := false;
      resultShown := false;
    }

    /** The `forEach` callback for one decoded event. */
    method HandleOne(ev: SseEvent, c: Codec) returns (thrown: bool)
      modifies this
      ensures var r := HandleEvent(old(Snapshot()), ev, c);
              (r.None? ==> thrown && Snapshot() == old(Snapshot())) &&
              (r.Some? ==> !thrown && Snapshot() == r.value)
      ensures EditorState() == old(EditorState())
    {
      thrown := false;
      var d := ev.data;
      if ev.event == "started" {
        ShowTraceLine(Get(d, "trace_id"));
      } else if ev.event == "step" {
        thrown := HandleStep(d, c);
      } else if ev.event == "error" {
        thrown := HandleError(d, c);
      } else if ev.event == "done" {
        HandleDone(d);
      }
    }

    method HandleStep(d: Json, c: Codec) returns (thrown: bool)
      modifies this
      ensures var r := OnStep(old(Snapshot()), d, c);
              (r.None? ==> thrown && Snapshot() == old(Snapshot())) &&
              (r.Some? ==> !thrown && Snapshot() == r.value)
      ensures EditorState() == old(EditorState())
    {
      var name := ServiceName(d);
      if name.None? {
        return true;
      }
      var svc := name.value;
      SetStationState(svc, Done);
      SetStationData(svc, Get(d, "input"), Get(d, "output"), Or(Get(d, "payload_type"), Str("text")), c);
      var next := IndexOf(order, svc) + 1;
      if next < |order| {
        SetStationState(order[next], Processing);
        MoveTrain(next);
      } else {
        MoveTrain(|order|);
      }
      thrown := false;
    }

    method HandleError(d: Json, c: Codec) returns (thrown: bool)
      modifies this
      ensures var r := OnError(old(Snapshot()), d, c);
              (r.None? ==> thrown && Snapshot() == old(Snapshot())) &&
              (r.Some? ==> !thrown && Snapshot() == r.value)
      ensures EditorState() == old(EditorState())
    {
      var name := ServiceName(d);
      if name.None? {
        return true;
      }
      var svc := name.value;
      SetStationState(svc, Failed);
      SetStationData(svc, Str(""), Or(Get(d, "error"), Str("Error")), Str("text"), c);
      error := Some(ErrorLine(d));
      thrown := false;
    }

    method HandleDone(d: Json)
      modifies this
      ensures Snapshot() == OnDone(old(Snapshot()), d)
      ensures EditorState() == old(EditorState())
    {
      MoveTrain(|order|);
      if |order| > 0 {
        SetStationState(order[|order| - 1], Done);
      }
      ShowTraceLine(Get(d, "trace_id"));
      if Truthy(Get(d, "payload")) || Truthy(Get(d, "steps")) {
        result := d;
        resultShown := true;
      }
    }

    /** `parsed.events.forEach(...)`: handles events in order until one throws. */
    method HandleEvents(evs: seq<SseEvent>, c: Codec) returns (thrown: bool)
      modifies this
      ensures Run(Snapshot(), thrown) == HandleAll(old(Snapshot()), evs, c)
      ensures EditorState() == old(EditorState())
    {
      thrown := false;
      var j := 0;
      while j < |evs| && !thrown
        invariant 0 <= j <= |evs|
        invariant Run(Snapshot(), thrown) == HandleAll(old(Snapshot()), evs[..j], c)
        invariant EditorState() == old(EditorState())
      {
        assert Init(evs[..j + 1]) == evs[..j] && Last(evs[..j + 1]) == evs[j];
        thrown := HandleOne(evs[j], c);
        j := j + 1;
      }
      if j < |evs| {
        HandleAllAppend(old(Snapshot()), evs[..j], evs[j..], c);
        assert evs[..j] + evs[j..] == evs;
      } else {
        assert evs[..j] == evs;
      }
    }

    /** The end-of-stream `last.events.forEach(...)`. */
    method FlushResults(evs: seq<SseEvent>)
      modifies this
      ensures Snapshot() == FlushAll(old(Snapshot()), evs)
      ensures EditorState() == old(EditorState())
    {
      var j := 0;
      while j < |evs|
        invariant 0 <= j <= |evs|
        invariant Snapshot() == FlushAll(old(Snapshot()), evs[..j])
        invariant EditorState() == old(EditorState())
      {
        assert Init(evs[..j + 1]) == evs[..j] && Last(evs[..j + 1]) == evs[j];
        var ev := evs[j];
        if ev.event == "done" && Truthy(ev.data) && !resultShown {
          result := ev.data;
          resultShown := true;
        }
        j := j + 1;
      }
      assert evs[..j] == evs;
    }

    /** The steps between an accepted POST and the first read. */
    method Accept(body: Json, c: Codec)
      modifies this
      ensures Snapshot() == Accepted(old(Snapshot()), body, c)
      ensures EditorState() == old(EditorState())
    {
      SetStationState("gateway", Processing);
      MoveTrain(0);
      var payloadType := Or(Get(body, "type"), Str("text"));
      SetStationState("gateway", Done);
      SetStationData("gateway", Or(Or(Get(body, "data"), Get(body, "text")), Str("")), Str("Sent"), payloadType, c);
      SetStationState(FirstService(order), Processing);
      MoveTrain(1);
    }

    /** The `while (true)` read loop and the final flush. */
    method ReadStream(chunks: seq<string>, c: Codec, thrownMessage: string)
      modifies this
      ensures var r := HandleAll(old(Snapshot()), LoopEvents(Concat(chunks), c), c);
              Snapshot() == if r.thrown then r.board.(error := Some(Caught(Str(thrownMessage), "Request failed")))
                            else FlushAll(r.board, FlushEvents(Concat(chunks), c))
      ensures EditorState() == old(EditorState())
    {
      ghost var b1 := Snapshot();
      var buf := "";
      var k := 0;
      var thrown := false;
      while k < |chunks| && !thrown
        invariant 0 <= k <= |chunks|
        invariant buf == Last(Split(Concat(chunks[..k]), BlockSeparator))
        invariant Run(Snapshot(), thrown) == HandleAll(b1, LoopEvents(Concat(chunks[..k]), c), c)
        invariant EditorState() == old(EditorState())
      {
        ghost var received := Concat(chunks[..k]);
        assert Init(chunks[..k + 1]) == chunks[..k] && Last(chunks[..k + 1]) == chunks[k];
        assert Concat(chunks[..k + 1]) == received + chunks[k];
        ChunkStep(received, chunks[k], c.parse);
        buf := buf + chunks[k];
        var parsed := ParseSSE(buf, c.parse);
        ParseSSEAgrees(buf, c.parse);
        buf := parsed.remainder;
        HandleAllAppend(b1, LoopEvents(received, c), parsed.events, c);
        thrown := HandleEvents(parsed.events, c);
        k := k + 1;
      }
      if thrown {
        ThrownStaysThrown(chunks, k, b1, c);
        error := Some(Caught(Str(thrownMessage), "Request failed"));
        return;
      }
      assert chunks[..k] == chunks;
      if JsTrim(buf) != "" {
        var last := ParseSSE(buf + BlockSeparator, c.parse);
        FlushResults(last.events);
      }
    }

    /** The submit handler. */
    method Submit(body: Body, reply: Reply, c: Codec, thrownMessage: string)
      requires Valid()
      modifies this
      ensures Snapshot() == SubmitRun(old(Snapshot()), body, reply, c, thrownMessage)
      ensures EditorState() == old(EditorState())
      ensures Valid()
    {
      ghost var b := Snapshot();
      SubmitKeepsStations(b, body, reply, c, thrownMessage);
      error := None;
      ResetStations(c);
      match body
      case ReadFailed(m) =>
        error := Some("Failed to read file: " + Caught(m, "error"));
      case NoFile =>
        error := Some("Choose a file for Image/Video/File input.");
      case RequestBody(v) =>
        match reply
        case Rejected(m) =>
          error := Some(Caught(m, "Request failed"));
        case NotOk(statusText, parsed) =>
          error := Some(NotOkLine(statusText, parsed, thrownMessage));
        case Streamed(chunks) =>
          Accept(v, c);
          ReadStream(chunks, c, thrownMessage);
    }

    /** `buildStations(services)`. */
    method BuildStations(list: seq<ServiceRow>)
      modifies this
      ensures Snapshot() == Built(old(Snapshot()), list)
      ensures EditorState() == old(EditorState())
      ensures Valid()
    {
      order := StationOrder(list);
      stations := map n | n in order :: IdleStation;
    }

    /**
     * The fetch of `/api/pipeline` on load: the listed services, the defaults for an empty
     * list, or the defaults when the request fails (`None`).
     */
    method LoadServices(listed: Option<seq<ServiceRow>>)
      modifies this
      ensures services == if listed.Some? && |listed.value| > 0 then listed.value else DefaultServices
      ensures configError == old(configError) && configSuccess == old(configSuccess)
      ensures Snapshot() == Built(old(Snapshot()), services)
      ensures Valid()
    {
      if listed.Some? && |listed.value| > 0 {
        services := listed.value;
      } else {
        services := DefaultServices;
      }
      BuildStations(services);
    }

    /** "Add service". */
    method AddRow()
      requires Valid()
      modifies this
      ensures services == old(services) + [NewRow]
      ensures configError == old(configError) && configSuccess == old(configSuccess)
      ensures Snapshot() == old(Snapshot()) && Valid()
    {
      services := services + [NewRow];
      assert Snapshot() == old(Snapshot());
    }

    /** `moveRow(index, delta)`: swaps with the neighbour when it exists; the list stays a permutation. */
    method MoveRow(index: int, delta: int)
      requires 0 <= index < |services| && Valid()
      modifies this
      ensures var j := index + delta;
              services == if 0 <= j < |old(services)| then old(services)[index := old(services)[j]][j := old(services)[index]]
                          else old(services)
      ensures multiset(services) == multiset(old(services))
      ensures configError == old(configError) && configSuccess == old(configSuccess)
      ensures Snapshot() == old(Snapshot()) && Valid()
    {
      var newIndex := index + delta;
      if newIndex < 0 || newIndex >= |services| {
        return;
      }
      var tmp := services[index];
      services := services[index := services[newIndex]];
      services := services[newIndex := tmp];
    }

    /** `removeRow(index)`: `splice(index, 1)`. */
    method RemoveRow(index: int)
      requires Valid()
      modifies this
      ensures var s := SpliceStart(index, |old(services)|);
              services == if s < |old(services)| then old(services)[..s] + old(services)[s + 1..] else old(services)
      ensures var s := SpliceStart(index, |old(services)|);
              s < |old(services)| ==> multiset(services) + multiset{old(services)[s]} == multiset(old(services))
      ensures configError == old(configError) && configSuccess == old(configSuccess)
      ensures Snapshot() == old(Snapshot()) && Valid()
    {
      var s := SpliceStart(index, |services|);
      if s < |services| {
        assert services == services[..s] + [services[s]] + services[s + 1..];
        services := services[..s] + services[s + 1..];
      }
    }

    /**
     * "Save pipeline": the checks, the PUT's reply, and on success the editor list replaced and
     * the stations rebuilt from the pipeline fetched again (`refetched`; `None` when that fetch
     * fails).
     */
    method SavePipeline(rows: seq<EditorRow>, reply: SaveReply, refetched: Option<seq<ServiceRow>>,
                        thrownMessage: string)
      requires Valid()
      modifies this
      ensures (configError, configSuccess) == SaveLines(rows, reply, thrownMessage)
      ensures !SaveApplies(rows, reply) ==> services == old(services) && Snapshot() == old(Snapshot())
      ensures SaveApplies(rows, reply) && refetched.None? ==>
                services == SaveCheck(rows).value && Snapshot() == old(Snapshot())
      ensures SaveApplies(rows, reply) && refetched.Some? ==>
                services == refetched.value && Snapshot() == Built(old(Snapshot()), refetched.value)
      ensures Valid()
    {
      configError := None;
      configSuccess := None;
      var check := SaveCheck(rows);
      if check.Err? {
        configError := Some(check.error);
        return;
      }
      match reply
      case SaveRejected(m) =>
        configError := Some(Caught(m, "Request failed"));
      case SaveReplied(data) =>
        if data == Null {
          configError := Some(Caught(Str(thrownMessage), "Request failed"));
        } else if Truthy(Get(data, "ok")) {
          configSuccess := Some("Pipeline saved." +
                                (if Truthy(Get(data, "saved")) then " Config persisted to file."
                                 else " (In-memory only; set WRITABLE_PIPELINE_PATH to persist.)"));
          services := check.value;
          if refetched.Some? {
            services := refetched.value;
            BuildStations(refetched.value);
          }
        } else {
          configError := Some(JsString(Or(Get(data, "detail"), Str("Save failed"))));
        }
    }
  }

  /** Once a callback has thrown, the chunks that were not read change nothing. */
  lemma {:induction false} ThrownStaysThrown(chunks: seq<string>, k: nat, b: Board, c: Codec)
    requires k <= |chunks| && HandleAll(b, LoopEvents(Concat(chunks[..k]), c), c).thrown
    ensures HandleAll(b, LoopEvents(Concat(chunks), c), c) == HandleAll(b, LoopEvents(Concat(chunks[..k]), c), c)
  {
    var prefix := Concat(chunks[..k]);
    var rest := Concat(chunks[k..]);
    ConcatAppend(chunks[..k], chunks[k..]);
    assert chunks[..k] + chunks[k..] == chunks;
    ChunkStep(prefix, rest, c.parse);
    HandleAllAppend(b, LoopEvents(prefix, c),
                    EventsOf(Init(Split(Last(Split(prefix, BlockSeparator)) + rest, BlockSeparator)), c.parse), c);
  }

  /** `Concat` distributes over appending chunk lists. */
  lemma {:induction false} ConcatAppend(a: seq<string>, b: seq<string>)
    ensures Concat(a + b) == Concat(a) + Concat(b)
    decreases |b|
  {
    if |b| == 0 {
      assert a + b == a;
    } else {
      assert Init(a + b) == a + Init(b) && Last(a + b) == Last(b);
      ConcatAppend(a, Init(b));
    }
  }

  /** A run keeps the station order and the set of station elements. */
  lemma {:induction false} HandleEventKeeps(b: Board, ev: SseEvent, c: Codec)
    requires HandleEvent(b, ev, c).Some?
    ensures HandleEvent(b, ev, c).value.order == b.order
    ensures HandleEvent(b, ev, c).value.stations.Keys == b.stations.Keys
  {
  }

  lemma {:induction false} HandleAllKeeps(b: Board, evs: seq<SseEvent>, c: Codec)
    ensures HandleAll(b, evs, c).board.order == b.order
    ensures HandleAll(b, evs, c).board.stations.Keys == b.stations.Keys
  {
    if |evs| > 0 {
      HandleAllKeeps(b, Init(evs), c);
      var r := HandleAll(b, Init(evs), c);
      if !r.thrown && HandleEvent(r.board, Last(evs), c).Some? {
        HandleEventKeeps(r.board, Last(evs), c);
      }
    }
  }

  lemma {:induction false} AcceptedKeeps(b: Board, body: Json, c: Codec)
    ensures Accepted(b, body, c).order == b.order
    ensures Accepted(b, body, c).stations.Keys == b.stations.Keys
  {
  }

  lemma {:induction false} StreamKeeps(b: Board, evs: seq<SseEvent>, flushed: seq<SseEvent>, c: Codec, thrownMessage: string)
    ensures var r := HandleAll(b, evs, c);
            var e := if r.thrown then r.board.(error := Some(Caught(Str(thrownMessage), "Request failed")))
                     else FlushAll(r.board, flushed);
            e.order == b.order && e.stations.Keys == b.stations.Keys
  {
    HandleAllKeeps(b, evs, c);
    var r := HandleAll(b, evs, c);
    FlushShowsResult(r.board, flushed);
  }

  /** A submission never adds or removes stations, so the page stays well formed. */
  lemma {:induction false} SubmitKeepsStations(b: Board, body: Body, reply: Reply, c: Codec, thrownMessage: string)
    requires WellFormed(b)
    ensures var r := SubmitRun(b, body, reply, c, thrownMessage);
            r.order == b.order && r.stations.Keys == b.stations.Keys && WellFormed(r)
  {
    var b0 := Reset(b.(error := None));
    assert b0.order == b.order && b0.stations.Keys == b.stations.Keys;
    if body.RequestBody? && reply.Streamed? {
      var b1 := Accepted(b0, body.value, c);
      AcceptedKeeps(b0, body.value, c);
      var received := Concat(reply.chunks);
      StreamKeeps(b1, LoopEvents(received, c), FlushEvents(received, c), c, thrownMessage);
    }
  }
}
