/**
 * The four pipeline services. Each receives `{payload, text, steps}`, reads its input data
 * and type from the payload (or from `text` when the payload is empty), and answers with the
 * next payload and the steps so far plus exactly one step of its own: the validator rejects
 * empty and over-long text, the transformer upper-cases text, the enricher merges a
 * timestamp and an id into the metadata, and the persister reports the final result.
 * Python's `str()` of a list or dict is the `repr` parameter; the enricher's clock and uuid
 * are arguments.
 */
module Services {
  import opened Wrappers
  import opened Strings
  import opened Json
  import opened GatewayPayload

  /** The request model every service declares: all three fields are optional. */
  datatype ProcessBody = ProcessBody(payload: GoMap, text: string, steps: seq<Json>)

  /** A service's answer: a JSON object with status 200, or an HTTP error with its detail. */
  datatype Reply = Reply(body: GoMap) | HttpError(status: int, detail: string)

  const MaxLength: nat := 10000

  /**
   * Reading a decoded request into `ProcessBody`: an absent field takes its default (`{}`,
   * `""`, `[]`); a field of the wrong kind, null included, fails validation.
   */
  function ReadBody(m: GoMap): Option<ProcessBody> {
    var p := PyGet(m, "payload", EmptyObject);
    var t := PyGet(m, "text", Str(""));
    var s := PyGet(m, "steps", Arr([]));
    if p.Obj? && t.Str? && s.Arr? then Some(ProcessBody(p.fields, t.s, s.items)) else None
  }

  /** `_get_data(body)`: the stripped input data and the payload type. */
  function GetData(b: ProcessBody, repr: Printer): (string, Json) {
    if |b.payload| > 0 then
      (PyStrip(PyStr(PyGet(b.payload, "data", PyGet(b.payload, "text", Str(b.text))), repr)),
       PyGet(b.payload, "type", Str("text")))
    else (PyStrip(b.text), Str("text"))
  }

  /**
   * With a non-empty payload the data is the payload's `data`, else its `text`, else the
   * body's `text`, printed by `str()`, and the type is the payload's `type`, "text" when it
   * has none; with an empty payload the data is the body's `text` and the type "text". Either
   * way the data is stripped: it neither starts nor ends with whitespace.
   */
  lemma {:induction false} GetDataCases(b: ProcessBody, repr: Printer)
    ensures var (d, t) := GetData(b, repr);
            PyStrip(d) == d && (d == [] || (!IsPySpace(d[0]) && !IsPySpace(d[|d| - 1]))) &&
            (|b.payload| == 0 ==> d == PyStrip(b.text) && t == Str("text")) &&
            (|b.payload| > 0 ==>
               t == PyGet(b.payload, "type", Str("text")) &&
               ("data" in b.payload ==> d == PyStrip(PyStr(b.payload["data"], repr))) &&
               ("data" !in b.payload && "text" in b.payload ==> d == PyStrip(PyStr(b.payload["text"], repr))) &&
               ("data" !in b.payload && "text" !in b.payload ==> d == PyStrip(b.text)))
  {
    var (d, t) := GetData(b, repr);
    if |b.payload| > 0 {
      TrimIdempotent(PyStr(PyGet(b.payload, "data", PyGet(b.payload, "text", Str(b.text))), repr), IsPySpace);
    } else {
      TrimIdempotent(b.text, IsPySpace);
    }
  }

  // ---------------------------------------------------------------------------------------------
  // The pieces every service shares
  // ---------------------------------------------------------------------------------------------

  /** The step record a service appends. */
  function Step(service: string, input: string, output: string): Json {
    Obj(map["service" := Str(service), "input" := Str(input), "output" := Str(output), "status" := Str("ok")])
  }

  /** `out_payload.get("metadata", {})`. */
  function KeptMetadata(p: GoMap): Json {
    PyGet(p, "metadata", EmptyObject)
  }

  /** `{**payload, "type": t, "data": data, "metadata": meta}`. */
  function OutPayload(p: GoMap, t: Json, data: string, meta: Json): GoMap {
    p["type" := t]["data" := Str(data)]["metadata" := meta]
  }

  /** `f"[{payload_type}]"`. */
  function TypeLabel(t: Json, repr: Printer): string {
    "[" + PyStr(t, repr) + "]"
  }

  /** The output payload keeps every other key of the input payload and sets the three it writes. */
  predicate Extends(pin: GoMap, pout: GoMap, t: Json, data: string, meta: Json) {
    pout.Keys == pin.Keys + {"type", "data", "metadata"} &&
    pout["type"] == t && pout["data"] == Str(data) && pout["metadata"] == meta &&
    forall k :: k in pin && k != "type" && k != "data" && k != "metadata" ==> pout[k] == pin[k]
  }

  lemma {:induction false} OutPayloadExtends(p: GoMap, t: Json, data: string, meta: Json)
    ensures Extends(p, OutPayload(p, t, data, meta), t, data, meta)
  {
  }

  /**
   * The reply shape the validator, transformer and enricher share: the next payload extends
   * the input payload with type `t` and data `data`, the response `text` equals that data,
   * and the steps are the input steps plus exactly `step`.
   */
  predicate Answers(b: ProcessBody, r: GoMap, t: Json, data: string, meta: Json, step: Json) {
    r.Keys == {"payload", "text", "steps"} &&
    r["payload"].Obj? && Extends(b.payload, r["payload"].fields, t, data, meta) &&
    r["text"] == Str(data) && r["payload"].fields["data"] == r["text"] &&
    r["steps"] == Arr(b.steps + [step])
  }

  /** The service a step names. */
  function StepService(step: Json): Json {
    if step.Obj? && "service" in step.fields then step.fields["service"] else Null
  }

  /** The payload a reply hands on to the next service, when it carries one. */
  function NextPayload(r: Reply): Option<GoMap> {
    if r.Reply? && "payload" in r.body && r.body["payload"].Obj? then Some(r.body["payload"].fields) else None
  }

  /** Steps name their service. */
  lemma {:induction false} StepNamesService(service: string, input: string, output: string)
    ensures StepService(Step(service, input, output)) == Str(service)
  {
  }

  /**
   * A service sent a payload it produced itself reads that payload's data, stripped, and
   * its type back.
   */
  lemma {:induction false} ReadOwnPayload(p: GoMap, t: Json, data: string, meta: Json, text: string, steps: seq<Json>, repr: Printer)
    ensures GetData(ProcessBody(OutPayload(p, t, data, meta), text, steps), repr) == (PyStrip(data), t)
  {
    var q := OutPayload(p, t, data, meta);
    assert |q| > 0 by { assert "data" in q.Keys; }
    assert q["data"] == Str(data) && q["type"] == t;
    var d := PyGet(q, "data", PyGet(q, "text", Str(text)));
    assert d == Str(data);
    assert PyStr(d, repr) == data;
    assert PyGet(q, "type", Str("text")) == t;
  }

  // ---------------------------------------------------------------------------------------------
  // Validator
  // ---------------------------------------------------------------------------------------------

  /** `validate(body)`: `_get_data` followed by the rules. */
  function Validate(b: ProcessBody, repr: Printer): Reply {
    var (data, t) := GetData(b, repr);
    Validated(b, data, t, repr)
  }

  /** The validator's rules on the data and type it read. */
  function Validated(b: ProcessBody, data: string, t: Json, repr: Printer): Reply {
    if data == "" then HttpError(400, "Input must be non-empty")
    else if t == Str("text") && |data| > MaxLength then HttpError(400, "Text length must be <= 10000")
    else
      var shown := if t == Str("text") then Prefix(data, 500) else TypeLabel(t, repr);
      var out := OutPayload(b.payload, t, data, KeptMetadata(b.payload));
      Reply(map["payload" := Obj(out), "text" := Str(data), "steps" := Arr(b.steps + [Step("validator", shown, shown)])])
  }

  /**
   * The validator accepts exactly the non-empty data that is not text longer than 10000
   * characters (other types have no limit), and rejects the rest with status 400 and a
   * message naming the failed rule. An accepted body gets the payload with the data, the
   * metadata kept (or `{}`), and one step showing at most 500 characters of text, or the
   * bracketed type.
   */
  lemma {:induction false} ValidatedOutcome(b: ProcessBody, data: string, t: Json, repr: Printer)
    ensures var r := Validated(b, data, t, repr);
            (r.Reply? <==> data != "" && !(t == Str("text") && |data| > MaxLength)) &&
            (data == "" ==> r == HttpError(400, "Input must be non-empty")) &&
            (data != "" && t == Str("text") && |data| > MaxLength ==> r == HttpError(400, "Text length must be <= 10000")) &&
            (r.Reply? ==>
               var shown := if t == Str("text") then Prefix(data, 500) else TypeLabel(t, repr);
               (t == Str("text") ==> |shown| <= 500 && StartsWith(data, shown)) &&
               Answers(b, r.body, t, data, KeptMetadata(b.payload), Step("validator", shown, shown)) &&
               NextPayload(r) == Some(OutPayload(b.payload, t, data, KeptMetadata(b.payload))))
  {
    OutPayloadExtends(b.payload, t, data, KeptMetadata(b.payload));
  }

  /**
   * What the validator accepts it accepts again: sent its own payload, it answers with the
   * same type, data and metadata.
   */
  lemma {:induction false} ValidateAcceptsOwnOutput(b: ProcessBody, repr: Printer, p: GoMap, text: string, steps: seq<Json>)
    requires NextPayload(Validate(b, repr)) == Some(p)
    ensures var q := NextPayload(Validate(ProcessBody(p, text, steps), repr));
            q.Some? && GoGet(q.value, "type") == GoGet(p, "type") && GoGet(q.value, "data") == GoGet(p, "data") &&
            GoGet(q.value, "metadata") == GoGet(p, "metadata")
  {
    var (data, t) := GetData(b, repr);
    GetDataCases(b, repr);
    assert Validate(b, repr) == Validated(b, data, t, repr);
    ValidatedOutcome(b, data, t, repr);
    ReadOwnPayload(b.payload, t, data, KeptMetadata(b.payload), text, steps, repr);
    var b2 := ProcessBody(p, text, steps);
    assert GetData(b2, repr) == (data, t);
    assert Validate(b2, repr) == Validated(b2, data, t, repr);
    ValidatedOutcome(b2, data, t, repr);
  }

  // ---------------------------------------------------------------------------------------------
  // Transformer
  // ---------------------------------------------------------------------------------------------

  /** The transformer's output data: text upper-cased and stripped, other types untouched. */
  function Transformed(data: string, t: Json): string {
    if t == Str("text") then PyStrip(ToUpper(data)) else data
  }

  /** `transform(body)`: it never rejects, not even empty data. */
  function Transform(b: ProcessBody, repr: Printer): Reply {
    var (data, t) := GetData(b, repr);
    TransformReply(b, data, t)
  }

  /** The transformer's answer on the data and type it read. */
  function TransformReply(b: ProcessBody, data: string, t: Json): Reply {
    var out := Transformed(data, t);
    Reply(map["payload" := Obj(OutPayload(b.payload, t, out, KeptMetadata(b.payload))), "text" := Str(out),
              "steps" := Arr(b.steps + [Step("transformer", data, out)])])
  }

  /**
   * The transformer always answers; its step records the original data as input and the
   * transformed data as output, and the payload keeps type and metadata.
   */
  lemma {:induction false} TransformReplyOutcome(b: ProcessBody, data: string, t: Json)
    ensures var r := TransformReply(b, data, t);
            var out := Transformed(data, t);
            r.Reply? && Answers(b, r.body, t, out, KeptMetadata(b.payload), Step("transformer", data, out)) &&
            NextPayload(r) == Some(OutPayload(b.payload, t, out, KeptMetadata(b.payload)))
  {
    OutPayloadExtends(b.payload, t, Transformed(data, t), KeptMetadata(b.payload));
  }

  /**
   * Non-text data passes through; text comes out upper case (no letter 'a' to 'z' is left),
   * stripped, and as long as the data at most.
   */
  lemma {:induction false} TransformedShape(data: string, t: Json)
    ensures t != Str("text") ==> Transformed(data, t) == data
    ensures t == Str("text") ==>
              var out := Transformed(data, t);
              |out| <= |data| && PyStrip(out) == out &&
              forall i :: 0 <= i < |out| ==> !('a' <= out[i] <= 'z')
  {
    if t == Str("text") {
      UpperInfix(data, Transformed(data, t));
      TrimIdempotent(ToUpper(data), IsPySpace);
    }
  }

  /** Upper-casing a character twice is upper-casing it once, and leaves no lower-case letter. */
  lemma {:induction false} UpperCharIdempotent(c: char)
    ensures UpperChar(UpperChar(c)) == UpperChar(c) && !('a' <= UpperChar(c) <= 'z')
  {
  }

  /** Every character of a trimmed upper-cased string is already upper case. */
  lemma {:induction false} UpperInfix(data: string, out: string)
    requires out == PyStrip(ToUpper(data))
    ensures forall i :: 0 <= i < |out| ==> UpperChar(out[i]) == out[i] && !('a' <= out[i] <= 'z')
  {
    TrimIsInfix(ToUpper(data), IsPySpace);
    UpperSlice(data, out);
  }

  /** Every character of a slice of an upper-cased string is upper case. */
  lemma {:induction false} UpperSlice(data: string, out: string)
    requires exists i, j :: 0 <= i <= j <= |ToUpper(data)| && out == ToUpper(data)[i..j]
    ensures forall i :: 0 <= i < |out| ==> UpperChar(out[i]) == out[i] && !('a' <= out[i] <= 'z')
  {
    var u := ToUpper(data);
    var i, j :| 0 <= i <= j <= |u| && out == u[i..j];
    forall k | 0 <= k < |out|
      ensures UpperChar(out[k]) == out[k] && !('a' <= out[k] <= 'z')
    {
      assert out[k] == u[i + k];
      UpperAt(data, u, i + k);
    }
  }

  lemma {:induction false} UpperAt(data: string, u: string, n: nat)
    requires u == ToUpper(data) && n < |u|
    ensures UpperChar(u[n]) == u[n] && !('a' <= u[n] <= 'z')
  {
    ToUpperIndex(data);
    UpperCharIdempotent(data[n]);
  }

  /** Upper-casing a string that is already upper case changes nothing. */
  lemma {:induction false} UpperFixed(s: string)
    requires forall i :: 0 <= i < |s| ==> UpperChar(s[i]) == s[i]
    ensures ToUpper(s) == s
  {
    if s != [] {
      assert forall i :: 0 <= i < |s[1..]| ==> UpperChar(s[1..][i]) == s[1..][i] by {
        forall i | 0 <= i < |s[1..]| ensures UpperChar(s[1..][i]) == s[1..][i] { assert s[1..][i] == s[i + 1]; }
      }
      UpperFixed(s[1..]);
    }
  }

  /** Transforming its own output again changes nothing more. */
  lemma {:induction false} TransformedIdempotent(data: string, t: Json)
    ensures Transformed(Transformed(data, t), t) == Transformed(data, t)
  {
    if t == Str("text") {
      var out := Transformed(data, t);
      UpperInfix(data, out);
      UpperFixed(out);
      TrimIdempotent(ToUpper(data), IsPySpace);
    }
  }

  /**
   * Transforming is idempotent: sent its own payload, the transformer answers with the same
   * type, data and metadata.
   */
  lemma {:induction false} TransformIdempotent(b: ProcessBody, repr: Printer, p: GoMap, text: string, steps: seq<Json>)
    requires NextPayload(Transform(b, repr)) == Some(p)
    ensures var q := NextPayload(Transform(ProcessBody(p, text, steps), repr));
            q.Some? && GoGet(q.value, "type") == GoGet(p, "type") && GoGet(q.value, "data") == GoGet(p, "data") &&
            GoGet(q.value, "metadata") == GoGet(p, "metadata")
  {
    var (data, t) := GetData(b, repr);
    var out := Transformed(data, t);
    var meta := KeptMetadata(b.payload);
    assert p == OutPayload(b.payload, t, out, meta) by {
      assert Transform(b, repr) == TransformReply(b, data, t);
      TransformReplyOutcome(b, data, t);
    }
    assert NextPayload(Transform(ProcessBody(p, text, steps), repr)) == Some(OutPayload(p, t, out, KeptMetadata(p))) by {
      assert PyStrip(out) == out by {
        GetDataCases(b, repr);
        TransformedShape(data, t);
      }
      assert Transformed(out, t) == out by { TransformedIdempotent(data, t); }
      var b2 := ProcessBody(p, text, steps);
      assert GetData(b2, repr) == (out, t) by {
        ReadOwnPayload(b.payload, t, out, meta, text, steps, repr);
      }
      assert Transform(b2, repr) == TransformReply(b2, out, t);
      TransformReplyOutcome(b2, out, t);
    }
    OwnPayloadAgain(b.payload, t, out, meta);
  }

  /** Writing a payload's own type and data over it again, with its kept metadata, changes none of the three. */
  lemma {:induction false} OwnPayloadAgain(p0: GoMap, t: Json, data: string, meta: Json)
    ensures var p := OutPayload(p0, t, data, meta);
            var q := OutPayload(p, t, data, KeptMetadata(p));
            GoGet(q, "type") == GoGet(p, "type") && GoGet(q, "data") == GoGet(p, "data") &&
            GoGet(q, "metadata") == GoGet(p, "metadata")
  {
    assert KeptMetadata(OutPayload(p0, t, data, meta)) == meta;
  }

  // ---------------------------------------------------------------------------------------------
  // Enricher
  // ---------------------------------------------------------------------------------------------

  /** The metadata the enricher adds. */
  function EnrichMeta(timestamp: string, id: string): GoMap {
    map["timestamp" := Str(timestamp), "id" := Str(id)]
  }

  /** The enricher's step, which also carries the added metadata. */
  function EnrichStep(preview: string, meta: GoMap): Json {
    Obj(map["service" := Str("enricher"), "input" := Str(preview), "output" := Str(preview), "status" := Str("ok"),
            "metadata" := Obj(meta)])
  }

  lemma {:induction false} EnrichStepNamesService(preview: string, meta: GoMap)
    ensures StepService(EnrichStep(preview, meta)) == Str("enricher")
  {
  }

  /**
   * `enrich(body)` with the clock's ISO timestamp and a fresh uuid as arguments: `_get_data`
   * followed by the merge.
   */
  function Enrich(b: ProcessBody, repr: Printer, timestamp: string, id: string): Reply {
    var (data, t) := GetData(b, repr);
    Enriched(b, data, t, repr, EnrichMeta(timestamp, id))
  }

  /**
   * The enricher's answer on the data and type it read. Merging metadata that is present
   * but not a JSON object raises a TypeError, which the server answers with status 500.
   */
  function Enriched(b: ProcessBody, data: string, t: Json, repr: Printer, meta: GoMap): Reply {
    var preview := if t == Str("text") then Prefix(data, 200) else TypeLabel(t, repr);
    match KeptMetadata(b.payload)
    case Obj(m) =>
      Reply(map["payload" := Obj(OutPayload(b.payload, t, data, Obj(m + meta))), "text" := Str(data),
                "steps" := Arr(b.steps + [EnrichStep(preview, meta)])])
    case _ => HttpError(500, "Internal Server Error")
  }

  /**
   * The enricher fails exactly when the payload holds metadata that is not an object.
   * Otherwise the data passes through, the new metadata is the old with the added entries
   * (these win over old entries of the same name, every other old entry is kept), and one
   * step carries the added metadata and a preview of at most 200 characters of text, or the
   * bracketed type.
   */
  lemma {:induction false} EnrichedOutcome(b: ProcessBody, data: string, t: Json, repr: Printer, meta: GoMap)
    ensures var r := Enriched(b, data, t, repr, meta);
            (r.HttpError? <==> "metadata" in b.payload && !b.payload["metadata"].Obj?) &&
            (r.HttpError? ==> r.status == 500) &&
            (r.Reply? ==>
               var prior := if "metadata" in b.payload then b.payload["metadata"].fields else map[];
               var preview := if t == Str("text") then Prefix(data, 200) else TypeLabel(t, repr);
               var m := r.body["payload"].fields["metadata"].fields;
               Answers(b, r.body, t, data, Obj(prior + meta), EnrichStep(preview, meta)) &&
               m.Keys == prior.Keys + meta.Keys &&
               (forall k :: k in meta ==> m[k] == meta[k]) &&
               (forall k :: k in prior && k !in meta ==> m[k] == prior[k]) &&
               (t == Str("text") ==> |preview| <= 200 && StartsWith(data, preview)))
  {
    if KeptMetadata(b.payload).Obj? {
      var m := KeptMetadata(b.payload).fields;
      OutPayloadExtends(b.payload, t, data, Obj(m + meta));
    }
  }

  // ---------------------------------------------------------------------------------------------
  // Persister
  // ---------------------------------------------------------------------------------------------

  /** `persist(body)`: `_get_data` followed by the result. */
  function Persist(b: ProcessBody, repr: Printer): Reply {
    var (data, t) := GetData(b, repr);
    Persisted(b, data, t)
  }

  /** The persister's answer on the data and type it read. */
  function Persisted(b: ProcessBody, data: string, t: Json): Reply {
    Reply(map["result" := Str(data), "stored" := Bool(true),
              "payload" := Obj(OutPayload(b.payload, t, data, KeptMetadata(b.payload))),
              "steps" := Arr(b.steps + [Step("persister", data, data)])])
  }

  /**
   * The persister always answers: `result` is the data it read, `stored` is true, the
   * payload keeps its type and metadata with the data unchanged, and one step has that data
   * as both input and output.
   */
  lemma {:induction false} PersistedOutcome(b: ProcessBody, data: string, t: Json)
    ensures var r := Persisted(b, data, t);
            r.Reply? && r.body.Keys == {"result", "stored", "payload", "steps"} &&
            r.body["result"] == Str(data) && r.body["stored"] == Bool(true) &&
            r.body["payload"].Obj? && Extends(b.payload, r.body["payload"].fields, t, data, KeptMetadata(b.payload)) &&
            r.body["payload"].fields["data"] == r.body["result"] &&
            r.body["steps"] == Arr(b.steps + [Step("persister", data, data)])
  {
    OutPayloadExtends(b.payload, t, data, KeptMetadata(b.payload));
  }

  // ---------------------------------------------------------------------------------------------
  // One hop of the pipeline
  // ---------------------------------------------------------------------------------------------

  /**
   * The body the gateway sends is read back as the payload and steps it carries, and a
   * service reads the payload's string data, stripped, and its type.
   */
  lemma {:induction false} GatewayBodyRead(p: GoMap, steps: seq<Json>, repr: Printer)
    ensures var b := ReadBody(BodyForService(p, steps));
            b.Some? && b.value.payload == p && b.value.steps == steps &&
            b.value.text == BodyForService(p, steps)["text"].s
    ensures "data" in p && p["data"].Str? ==>
              GetData(ReadBody(BodyForService(p, steps)).value, repr) == (PyStrip(p["data"].s), PyGet(p, "type", Str("text")))
  {
    var m := BodyForService(p, steps);
    assert PyGet(m, "payload", EmptyObject) == Obj(p);
    assert PyGet(m, "steps", Arr([])) == Arr(steps);
    assert PyGet(m, "text", Str("")) == m["text"] && m["text"].Str?;
    if "data" in p {
      assert |p| > 0 by { assert "data" in p.Keys; }
    }
  }
}
