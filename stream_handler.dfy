/**
 * The gateway's two ways of running the pipeline on a request.
 *
 * `processStream` answers with a server-sent event stream: a `started` event carrying the
 * normalised payload, one `step` event per service that answered, and then either a `done`
 * event with the final payload and steps or an `error` event naming the service that failed.
 * `runPipeline` makes the same calls without events and reports whether it reached the end;
 * `processJSON` replies with its result.
 *
 * A service call (`PostWithRetryAndCircuit`, with its retries and breaker) is a given
 * function of the hop number, the URL and the body, and decoding a reply body
 * (`json.NewDecoder(...).Decode`) is a given function too.
 */
module StreamHandler {
  import opened Wrappers
  import opened Json
  import opened PipelineConfig
  import opened GatewayPayload

  /** What one call gives: a transport error, or a status and the body text. */
  datatype CallReply = CallFailed(message: string) | Answered(status: int, body: string)

  /** The call environment: hop number, URL and request body to the reply. */
  type Call = (nat, string, GoMap) -> CallReply

  /** `Decode(&data)` of a reply body into a map, or its error text. */
  type Decoder = string -> Result<GoMap, string>

  /**
   * One event sent on the stream, before it is written out: `started`, a `step` after a service
   * answered (its name, the payload and steps then), an `error` naming the failed service, and
   * `done`.
   */
  datatype Event =
    | Started(traceId: string, payload: GoMap)
    | Step(service: string, current: GoMap, steps: seq<Json>)
    | Failure(service: string, error: string)
    | Done(traceId: string, current: GoMap, steps: seq<Json>)

  /** What the gateway's HTTP reply is. */
  datatype Response = BadRequest(detail: string) | EventStream(events: seq<Event>) | JsonReply(body: Json)

  const StatusOK: int := 200

  // ---------------------------------------------------------------------------------------------
  // One hop
  // ---------------------------------------------------------------------------------------------

  /** What a hop leads to: an error text, or the next payload and steps. */
  datatype Hop = HopFailed(error: string) | HopOk(payload: GoMap, steps: seq<Json>)

  /** The steps after a reply: its `steps` list when it has one, the previous ones otherwise. */
  function NextSteps(data: GoMap, steps: seq<Json>): seq<Json> {
    if "steps" in data && data["steps"].Arr? then data["steps"].items else steps
  }

  /** One hop of `processStream`: call the service and read its reply. */
  function StreamHop(call: Call, decode: Decoder, k: nat, url: string, current: GoMap, steps: seq<Json>): Hop {
    match call(k, url + "/", BodyForService(current, steps))
    case CallFailed(m) => HopFailed(m)
    case Answered(status, body) =>
      if status != StatusOK then HopFailed(body)
      else match decode(body)
        case Err(e) => HopFailed(e)
        case Ok(data) => HopOk(FromReply(data), NextSteps(data, steps))
  }

  // ---------------------------------------------------------------------------------------------
  // The events
  // ---------------------------------------------------------------------------------------------

  /** The SSE event name. */
  function EventName(e: Event): string {
    match e
    case Started(_, _) => "started"
    case Step(_, _, _) => "step"
    case Failure(_, _) => "error"
    case Done(_, _, _) => "done"
  }

  /** The last step, when it is an object; `{}` otherwise. */
  function LastStep(steps: seq<Json>): GoMap {
    if |steps| > 0 && steps[|steps| - 1].Obj? then steps[|steps| - 1].fields else map[]
  }

  /**
   * The JSON an event carries. A `step` shows the last step's input, output and status when
   * they are strings, the payload preview (and "ok") otherwise, and the payload's type.
   */
  function EventData(e: Event): Json {
    match e
    case Started(traceId, payload) => Obj(map["trace_id" := Str(traceId), "payload" := Obj(payload)])
    case Step(name, current, steps) =>
      var last := LastStep(steps);
      var preview := PreviewPayload(Some(current));
      Obj(map["service" := Str(name),
              "input" := Str(GetStr(last, "input", preview)),
              "output" := Str(GetStr(last, "output", preview)),
              "status" := Str(GetStr(last, "status", "ok")),
              "payload_type" := Str(GetStr(current, "type", "text"))])
    case Failure(name, error) => Obj(map["service" := Str(name), "error" := Str(error)])
    case Done(traceId, current, steps) =>
      Obj(map["trace_id" := Str(traceId), "result" := GoGet(current, "data"), "steps" := Arr(steps),
              "payload" := Obj(current)])
  }

  /**
   * A `step` or `error` event names its service; `done` carries the final payload, its data as
   * `result`, and the steps; a `step` falls back to the preview exactly where the last step
   * has no string input.
   */
  lemma {:induction false} EventDataFields(e: Event)
    ensures EventData(e).Obj?
    ensures (e.Step? || e.Failure?) ==> EventData(e).fields["service"] == Str(e.service)
    ensures e.Failure? ==> EventData(e).fields["error"] == Str(e.error)
    ensures e.Done? ==> EventData(e).fields["payload"] == Obj(e.current) && EventData(e).fields["steps"] == Arr(e.steps) &&
                        EventData(e).fields["result"] == GoGet(e.current, "data")
    ensures e.Step? ==>
              var last := LastStep(e.steps);
              EventData(e).fields["payload_type"] == Str(GetStr(e.current, "type", "text")) &&
              (GoString(last, "input").Some? ==> EventData(e).fields["input"] == Str(last["input"].s)) &&
              (GoString(last, "input").None? ==> EventData(e).fields["input"] == Str(PreviewPayload(Some(e.current))))
  {
  }

  /** The events still to come when the services `pairs` remain, the first of them hop `k`. */
  function Continue(pairs: seq<(string, string)>, k: nat, current: GoMap, steps: seq<Json>, traceId: string,
                    call: Call, decode: Decoder): seq<Event>
    decreases |pairs|
  {
    if pairs == [] then [Done(traceId, current, steps)]
    else
      match StreamHop(call, decode, k, pairs[0].1, current, steps)
      case HopFailed(e) => [Failure(pairs[0].0, e)]
      case HopOk(p, s) => [Step(pairs[0].0, p, s)] + Continue(pairs[1..], k + 1, p, s, traceId, call, decode)
  }

  /** Every event `processStream` sends for a normalised payload. */
  function StreamEvents(pairs: seq<(string, string)>, payload: GoMap, traceId: string, call: Call, decode: Decoder)
    : seq<Event>
  {
    [Started(traceId, payload)] + Continue(pairs, 0, payload, [], traceId, call, decode)
  }

  /** Where the hops stop: how many succeeded, the payload and steps then, and the error text. */
  datatype Stop = Stop(reached: nat, payload: GoMap, steps: seq<Json>, error: string)

  /** Run the remaining hops until one fails or none is left. */
  function Walk(pairs: seq<(string, string)>, k: nat, current: GoMap, steps: seq<Json>, call: Call, decode: Decoder)
    : (w: Stop)
    ensures w.reached <= |pairs|
    decreases |pairs|
  {
    if pairs == [] then Stop(0, current, steps, "")
    else
      match StreamHop(call, decode, k, pairs[0].1, current, steps)
      case HopFailed(e) => Stop(0, current, steps, e)
      case HopOk(p, s) =>
        var w := Walk(pairs[1..], k + 1, p, s, call, decode);
        w.(reached := w.reached + 1)
  }

  /**
   * The rest of the stream has one event per service that answered and one final event: `done`
   * with the final payload and steps when every service answered, else `error` naming the
   * service that failed and its error text.
   */
  lemma {:induction false} ContinueEnds(pairs: seq<(string, string)>, k: nat, current: GoMap, steps: seq<Json>,
                                        traceId: string, call: Call, decode: Decoder)
    ensures var ev := Continue(pairs, k, current, steps, traceId, call, decode);
            var w := Walk(pairs, k, current, steps, call, decode);
            |ev| == w.reached + 1 &&
            (w.reached == |pairs| ==> ev[w.reached] == Done(traceId, w.payload, w.steps)) &&
            (w.reached < |pairs| ==> ev[w.reached] == Failure(pairs[w.reached].0, w.error))
    decreases |pairs|
  {
    if pairs != [] {
      var hop := StreamHop(call, decode, k, pairs[0].1, current, steps);
      if hop.HopOk? {
        ContinueEnds(pairs[1..], k + 1, hop.payload, hop.steps, traceId, call, decode);
        var rest := Continue(pairs[1..], k + 1, hop.payload, hop.steps, traceId, call, decode);
        var w := Walk(pairs[1..], k + 1, hop.payload, hop.steps, call, decode);
        assert Continue(pairs, k, current, steps, traceId, call, decode) == [Step(pairs[0].0, hop.payload, hop.steps)] + rest;
        assert Walk(pairs, k, current, steps, call, decode).reached == w.reached + 1;
        assert w.reached < |pairs[1..]| ==> pairs[1..][w.reached] == pairs[w.reached + 1];
      }
    }
  }

  /** The events before the final one are `step` events naming the services in pipeline order. */
  lemma {:induction false} ContinueSteps(pairs: seq<(string, string)>, k: nat, current: GoMap, steps: seq<Json>,
                                         traceId: string, call: Call, decode: Decoder)
    ensures |Continue(pairs, k, current, steps, traceId, call, decode)| <= |pairs| + 1
    ensures forall i :: 0 <= i < |Continue(pairs, k, current, steps, traceId, call, decode)| - 1 ==>
              Continue(pairs, k, current, steps, traceId, call, decode)[i].Step? &&
              Continue(pairs, k, current, steps, traceId, call, decode)[i].service == pairs[i].0
    decreases |pairs|
  {
    if pairs != [] {
      var hop := StreamHop(call, decode, k, pairs[0].1, current, steps);
      if hop.HopOk? {
        ContinueSteps(pairs[1..], k + 1, hop.payload, hop.steps, traceId, call, decode);
        var rest := Continue(pairs[1..], k + 1, hop.payload, hop.steps, traceId, call, decode);
        var ev := [Step(pairs[0].0, hop.payload, hop.steps)] + rest;
        assert Continue(pairs, k, current, steps, traceId, call, decode) == ev;
        forall i | 0 <= i < |ev| - 1 ensures i < |pairs| && ev[i].Step? && ev[i].service == pairs[i].0 {
          if i > 0 {
            assert ev[i] == rest[i - 1] && pairs[i] == pairs[1..][i - 1];
          }
        }
        var whole := Continue(pairs, k, current, steps, traceId, call, decode);
      } else {
        assert Continue(pairs, k, current, steps, traceId, call, decode) == [Failure(pairs[0].0, hop.error)];
      }
    } else {
      assert Continue(pairs, k, current, steps, traceId, call, decode) == [Done(traceId, current, steps)];
    }
  }

  /**
   * The stream opens with `started` carrying the payload and ends with `done` exactly when every
   * service answered, `error` otherwise; the events in between are one `step` per service.
   */
  lemma {:induction false} StreamShape(pairs: seq<(string, string)>, payload: GoMap, traceId: string, call: Call, decode: Decoder)
    ensures var ev := StreamEvents(pairs, payload, traceId, call, decode);
            var w := Walk(pairs, 0, payload, [], call, decode);
            |ev| == w.reached + 2 && ev[0] == Started(traceId, payload) &&
            (forall i :: 1 <= i < |ev| - 1 ==> ev[i].Step? && ev[i].service == pairs[i - 1].0) &&
            (ev[|ev| - 1].Done? <==> w.reached == |pairs|) &&
            (ev[|ev| - 1].Done? || ev[|ev| - 1].Failure?)
  {
    var rest := Continue(pairs, 0, payload, [], traceId, call, decode);
    ContinueEnds(pairs, 0, payload, [], traceId, call, decode);
    ContinueSteps(pairs, 0, payload, [], traceId, call, decode);
    var ev := StreamEvents(pairs, payload, traceId, call, decode);
    assert forall i :: 1 <= i < |ev| ==> ev[i] == rest[i - 1];
  }

  // ---------------------------------------------------------------------------------------------
  // runPipeline and processJSON
  // ---------------------------------------------------------------------------------------------

  /** The map `runPipeline` returns. */
  function RunResult(payload: GoMap, steps: seq<Json>, stored: bool): GoMap {
    map["payload" := Obj(payload), "steps" := Arr(steps), "result" := GoGet(payload, "data"), "stored" := Bool(stored)]
  }

  /**
   * `runPipeline` from hop `k` on: a failed call or a status other than 200 stops with
   * `stored: false` and the payload so far; a body that does not decode reads as an empty map.
   */
  function RunFrom(pairs: seq<(string, string)>, k: nat, payload: GoMap, steps: seq<Json>, call: Call, decode: Decoder)
    : GoMap
    decreases |pairs|
  {
    if pairs == [] then RunResult(payload, steps, true)
    else
      match call(k, pairs[0].1 + "/", BodyForService(payload, steps))
      case CallFailed(_) => RunResult(payload, steps, false)
      case Answered(status, body) =>
        if status != StatusOK then RunResult(payload, steps, false)
        else
          var data := match decode(body) case Ok(m) => m case Err(_) => map[];
          RunFrom(pairs[1..], k + 1, FromReply(data), NextSteps(data, steps), call, decode)
  }

  /**
   * Where every reply decodes, `runPipeline` stops where the stream does, with the same payload
   * and steps, and reports `stored: true` exactly when every service answered.
   */
  lemma {:induction false} RunAgreesWithStream(pairs: seq<(string, string)>, k: nat, payload: GoMap, steps: seq<Json>,
                                               call: Call, decode: Decoder)
    requires forall s :: decode(s).Ok?
    ensures var w := Walk(pairs, k, payload, steps, call, decode);
            RunFrom(pairs, k, payload, steps, call, decode) == RunResult(w.payload, w.steps, w.reached == |pairs|)
    decreases |pairs|
  {
    if pairs != [] {
      var reply := call(k, pairs[0].1 + "/", BodyForService(payload, steps));
      if reply.Answered? && reply.status == StatusOK {
        var data := decode(reply.body).value;
        RunAgreesWithStream(pairs[1..], k + 1, FromReply(data), NextSteps(data, steps), call, decode);
      }
    }
  }

  /** `processJSON`'s reply as written: `stored` is always true. */
  function ProcessJsonReplyAsWritten(traceId: string, result: GoMap): Json {
    Obj(map["trace_id" := Str(traceId), "result" := GoGet(result, "result"), "stored" := Bool(true),
            "steps" := GoGet(result, "steps"), "payload" := GoGet(result, "payload")])
  }

  /** `processJSON`'s reply with `stored` taken from `runPipeline`'s result. */
  function ProcessJsonReply(traceId: string, result: GoMap): Json {
    Obj(map["trace_id" := Str(traceId), "result" := GoGet(result, "result"), "stored" := GoGet(result, "stored"),
            "steps" := GoGet(result, "steps"), "payload" := GoGet(result, "payload")])
  }

  /**
   * As written, whenever some service fails, so that the stream ends with `error` and
   * `runPipeline` reports `stored: false`, the reply still says `stored: true`.
   */
  lemma {:induction false} StoredClaimedAfterFailure(pairs: seq<(string, string)>, payload: GoMap, traceId: string,
                                                     call: Call, decode: Decoder)
    requires forall s :: decode(s).Ok?
    requires Walk(pairs, 0, payload, [], call, decode).reached < |pairs|
    ensures var r := RunFrom(pairs, 0, payload, [], call, decode);
            "stored" in r && r["stored"] == Bool(false) && ProcessJsonReplyAsWritten(traceId, r).fields["stored"] == Bool(true)
  {
    RunAgreesWithStream(pairs, 0, payload, [], call, decode);
  }

  /**
   * With the correction, where every reply decodes, the reply says `stored: true` exactly when
   * every service answered with status 200.
   */
  lemma {:induction false} ProcessJsonStored(pairs: seq<(string, string)>, payload: GoMap, traceId: string, call: Call, decode: Decoder)
    requires forall s :: decode(s).Ok?
    ensures var r := RunFrom(pairs, 0, payload, [], call, decode);
            ProcessJsonReply(traceId, r).fields["stored"] == Bool(Walk(pairs, 0, payload, [], call, decode).reached == |pairs|)
  {
    RunAgreesWithStream(pairs, 0, payload, [], call, decode);
  }

  // ---------------------------------------------------------------------------------------------
  // The handlers
  // ---------------------------------------------------------------------------------------------

  /** `processStream`; `request` is the decoded request body or its decoding error. */
  method ProcessStream(store: PipelineStore, request: Result<GoMap, string>, traceId: string, call: Call, decode: Decoder)
    returns (resp: Response)
    modifies store
    ensures store.files == old(store.files)
    ensures request.Err? ==> resp == BadRequest(request.error) && store.State() == old(store.State())
    ensures request.Ok? ==>
              var (svc, st) := Load(store.host, store.files, old(store.State()));
              resp == EventStream(StreamEvents(NamesURLs(svc), FromRequest(request.value), traceId, call, decode)) &&
              store.State() == st
  {
    if request.Err? {
      return BadRequest(request.error);
    }
    var pairs := store.PipelineNamesURLs();
    var events := SendEvents(pairs, FromRequest(request.value), traceId, call, decode);
    return EventStream(events);
  }

  /** The event loop of `processStream` over the loaded `(name, url)` pairs. */
  method SendEvents(pairs: seq<(string, string)>, payload: GoMap, traceId: string, call: Call, decode: Decoder)
    returns (out: seq<Event>)
    ensures out == StreamEvents(pairs, payload, traceId, call, decode)
  {
    out := [Started(traceId, payload)];
    var current := payload;
    var steps: seq<Json> := [];
    var i := 0;
    while i < |pairs|
      invariant 0 <= i <= |pairs|
      invariant out + Continue(pairs[i..], i, current, steps, traceId, call, decode) ==
                StreamEvents(pairs, payload, traceId, call, decode)
    {
      var (name, url) := pairs[i];
      assert pairs[i..][1..] == pairs[i + 1..];
      var hop := CallService(call, decode, i, url, current, steps);
      if hop.HopFailed? {
        return out + [Failure(name, hop.error)];
      }
      ContinueAfterStep(pairs, i, current, steps, hop.payload, hop.steps, traceId, call, decode);
      current, steps := hop.payload, hop.steps;
      ghost var rest := Continue(pairs[i + 1..], i + 1, current, steps, traceId, call, decode);
      assert out + ([Step(name, current, steps)] + rest) == (out + [Step(name, current, steps)]) + rest;
      out := out + [Step(name, current, steps)];
      i := i + 1;
    }
    return out + [Done(traceId, current, steps)];
  }

  /** One hop of the loop in `processStream`: post the body, check the status, decode the reply. */
  method CallService(call: Call, decode: Decoder, i: nat, url: string, current: GoMap, steps: seq<Json>) returns (hop: Hop)
    ensures hop == StreamHop(call, decode, i, url, current, steps)
  {
    var reply := call(i, url + "/", BodyForService(current, steps));
    if reply.CallFailed? {
      return HopFailed(reply.message);
    }
    if reply.status != StatusOK {
      return HopFailed(reply.body);
    }
    var decoded := decode(reply.body);
    if decoded.Err? {
      return HopFailed(decoded.error);
    }
    var data := decoded.value;
    var next := steps;
    if "steps" in data && data["steps"].Arr? {
      next := data["steps"].items;
    }
    return HopOk(FromReply(data), next);
  }

  /** After a successful hop `i` the stream goes on with its `step` event and the next hop. */
  lemma {:induction false} ContinueAfterStep(pairs: seq<(string, string)>, i: nat, current: GoMap, steps: seq<Json>, p: GoMap, s: seq<Json>,
                          traceId: string, call: Call, decode: Decoder)
    requires i < |pairs| && StreamHop(call, decode, i, pairs[i].1, current, steps) == HopOk(p, s)
    ensures Continue(pairs[i..], i, current, steps, traceId, call, decode) ==
            [Step(pairs[i].0, p, s)] + Continue(pairs[i + 1..], i + 1, p, s, traceId, call, decode)
  {
    assert pairs[i..][0] == pairs[i] && pairs[i..][1..] == pairs[i + 1..];
  }

  /** `runPipeline`. */
  method RunPipeline(store: PipelineStore, initial: GoMap, call: Call, decode: Decoder) returns (result: GoMap)
    modifies store
    ensures store.files == old(store.files)
    ensures var (svc, st) := Load(store.host, store.files, old(store.State()));
            result == RunFrom(NamesURLs(svc), 0, initial, [], call, decode) && store.State() == st
  {
    var payload := initial;
    var steps: seq<Json> := [];
    var pairs := store.PipelineNamesURLs();
    var i := 0;
    while i < |pairs|
      invariant 0 <= i <= |pairs|
      invariant RunFrom(pairs[i..], i, payload, steps, call, decode) == RunFrom(pairs, 0, initial, [], call, decode)
    {
      var url := pairs[i].1;
      assert pairs[i..][1..] == pairs[i + 1..];
      var reply := call(i, url + "/", BodyForService(payload, steps));
      if reply.CallFailed? || reply.status != StatusOK {
        return RunResult(payload, steps, false);
      }
      var data: GoMap := map[];
      var decoded := decode(reply.body);
      if decoded.Ok? {
        data := decoded.value;
      }
      payload := FromReply(data);
      if "steps" in data && data["steps"].Arr? {
        steps := data["steps"].items;
      }
      i := i + 1;
    }
    return RunResult(payload, steps, true);
  }

  /** `processJSON` as written: the reply always says `stored: true`. */
  method ProcessJson(store: PipelineStore, request: Result<GoMap, string>, traceId: string, call: Call, decode: Decoder)
    returns (resp: Response)
    modifies store
    ensures store.files == old(store.files)
    ensures request.Err? ==> resp == BadRequest(request.error) && store.State() == old(store.State())
    ensures request.Ok? ==>
              var (svc, st) := Load(store.host, store.files, old(store.State()));
              resp == JsonReply(ProcessJsonReplyAsWritten(traceId, RunFrom(NamesURLs(svc), 0, FromRequest(request.value), [], call, decode)))
              && store.State() == st
  {
    if request.Err? {
      return BadRequest(request.error);
    }
    var result := RunPipeline(store, FromRequest(request.value), call, decode);
    return JsonReply(ProcessJsonReplyAsWritten(traceId, result));
  }
}
