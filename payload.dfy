/**
 * The gateway's payload helpers: how a request body becomes the payload map the pipeline
 * carries, how a service's reply becomes the next payload, the body each service is sent,
 * the short preview a `step` event shows, and two small readers. A payload is a decoded Go
 * `map[string]interface{}`.
 */
module GatewayPayload {
  import opened Wrappers
  import opened Strings
  import opened Json

  /** `map[string]interface{}{}`. */
  const EmptyObject: Json := Obj(map[])

  /** The three-entry payload the gateway builds itself. */
  function Payload(t: Json, d: Json, meta: Json): GoMap {
    map["type" := t, "data" := d, "metadata" := meta]
  }

  /** `m[key]`: a missing key reads as nil, which marshals as JSON null. */
  function GoGet(m: GoMap, key: string): Json
  {
    if key in m then m[key] else Null
  }

  /** `m[key].(map[string]interface{})` with its ok flag. */
  function GoObject(m: GoMap, key: string): Option<GoMap>
  {
    if key in m && m[key].Obj? then Some(m[key].fields) else None
  }

  // ---------------------------------------------------------------------------------------------
  // The request body
  // ---------------------------------------------------------------------------------------------

  /** `normalizeIncomingFromRequest(raw)`. */
  function FromRequest(raw: GoMap): GoMap {
    match GoObject(raw, "payload")
    case Some(p) => p
    case None =>
      if GoNonNil(raw, "type") && GoNonNil(raw, "data") then
        Payload(raw["type"], raw["data"], if GoNonNil(raw, "metadata") then raw["metadata"] else EmptyObject)
      else
        match GoString(raw, "text")
        case Some(t) => Payload(Str("text"), Str(t), EmptyObject)
        case None => Payload(Str("text"), Str(""), EmptyObject)
  }

  /**
   * The four cases in priority order: a `payload` object is taken as it is; otherwise `type`
   * and `data` (both non-nil) are kept with the metadata, `{}` when it is nil; otherwise a
   * string `text` becomes a text payload; otherwise the payload is empty text. A payload the
   * gateway builds itself always holds a type, data and metadata, none of them nil, and
   * normalising it again changes nothing.
   */
  lemma {:induction false} FromRequestCases(raw: GoMap)
    ensures GoObject(raw, "payload").Some? ==> FromRequest(raw) == raw["payload"].fields
    ensures GoObject(raw, "payload").None? && GoNonNil(raw, "type") && GoNonNil(raw, "data") ==>
              FromRequest(raw)["type"] == raw["type"] && FromRequest(raw)["data"] == raw["data"] &&
              FromRequest(raw)["metadata"] == (if GoGet(raw, "metadata") == Null then EmptyObject else raw["metadata"])
    ensures GoObject(raw, "payload").None? && !(GoNonNil(raw, "type") && GoNonNil(raw, "data")) ==>
              FromRequest(raw) == Payload(Str("text"), Str(GetStr(raw, "text", "")), EmptyObject)
    ensures GoObject(raw, "payload").None? ==>
              var p := FromRequest(raw);
              p.Keys == {"type", "data", "metadata"} && GoNonNil(p, "type") && GoNonNil(p, "data") && GoNonNil(p, "metadata") &&
              FromRequest(p) == p
  {
    if GoObject(raw, "payload").None? {
      var p := FromRequest(raw);
      assert "payload" !in p;
      assert GoNonNil(p, "type") && GoNonNil(p, "data") && GoNonNil(p, "metadata");
      assert Payload(p["type"], p["data"], p["metadata"]) == p;
    }
  }

  // ---------------------------------------------------------------------------------------------
  // A service's reply
  // ---------------------------------------------------------------------------------------------

  /** `normalizeIncoming(data)`. */
  function FromReply(data: GoMap): GoMap {
    match GoObject(data, "payload")
    case Some(p) => p
    case None =>
      var t := GoString(data, "type").GetOr("text");
      var d0 := GoString(data, "data").GetOr("");
      var d1 := if d0 == "" && GoString(data, "text").Some? then GoString(data, "text").value else d0;
      var d2 := if d1 == "" && GoString(data, "result").Some? then GoString(data, "result").value else d1;
      Payload(Str(t), Str(d2), if GoNonNil(data, "metadata") then data["metadata"] else EmptyObject)
  }

  /** The first candidate that is a non-empty string, or `""`. */
  function FirstNonEmpty(candidates: seq<Option<string>>): (s: string)
    ensures s == "" || exists i :: 0 <= i < |candidates| && candidates[i] == Some(s)
  {
    if |candidates| == 0 then ""
    else if candidates[0].Some? && candidates[0].value != "" then candidates[0].value
    else FirstNonEmpty(candidates[1..])
  }

  /**
   * A reply that carries a `payload` object hands it on unchanged. Otherwise the next payload
   * has the reply's string `type` (default "text"), as data the first non-empty string among
   * `data`, `text` and `result`, and the reply's metadata, `{}` when it is nil.
   */
  lemma {:induction false} FromReplyFields(data: GoMap)
    ensures GoObject(data, "payload").Some? ==> FromReply(data) == data["payload"].fields
    ensures GoObject(data, "payload").None? ==>
              var p := FromReply(data);
              p.Keys == {"type", "data", "metadata"} &&
              p["type"] == Str(GetStr(data, "type", "text")) &&
              p["data"] == Str(FirstNonEmpty([GoString(data, "data"), GoString(data, "text"), GoString(data, "result")])) &&
              p["metadata"] == (if GoNonNil(data, "metadata") then data["metadata"] else EmptyObject) &&
              GoNonNil(p, "metadata")
  {
    var cs := [GoString(data, "data"), GoString(data, "text"), GoString(data, "result")];
    assert cs[1..] == [cs[1], cs[2]] && cs[1..][1..] == [cs[2]] && cs[1..][1..][1..] == [];
    assert FirstNonEmpty(cs[1..][1..][1..]) == "";
    assert FirstNonEmpty(cs[1..][1..]) == (if cs[2].Some? && cs[2].value != "" then cs[2].value else "");
  }

  // ---------------------------------------------------------------------------------------------
  // What a service is sent
  // ---------------------------------------------------------------------------------------------

  /** `bodyForService(payload, steps)`. */
  function BodyForService(payload: GoMap, steps: seq<Json>): GoMap {
    var t := GoString(payload, "type").GetOr("");
    var text := if t == "text" then GoString(payload, "data").GetOr("") else "";
    map["payload" := Obj(payload), "steps" := Arr(steps), "text" := Str(text)]
  }

  /**
   * The body carries the payload and the steps so far; its `text` is the payload's data
   * exactly when the payload's type is the string "text" and its data a string, and empty
   * otherwise.
   */
  lemma {:induction false} BodyForServiceText(payload: GoMap, steps: seq<Json>)
    ensures var b := BodyForService(payload, steps);
            b.Keys == {"payload", "steps", "text"} && b["payload"] == Obj(payload) && b["steps"] == Arr(steps) &&
            b["text"].Str? &&
            (b["text"].s != "" ==> GoGet(payload, "type") == Str("text") && GoGet(payload, "data") == b["text"]) &&
            (GoGet(payload, "type") == Str("text") && GoGet(payload, "data").Str? ==> b["text"] == GoGet(payload, "data"))
  {
  }

  // ---------------------------------------------------------------------------------------------
  // The `step` preview and the readers
  // ---------------------------------------------------------------------------------------------

  const PreviewLimit: nat := 80

  /** `previewPayload(payload)`; `None` is a nil map. */
  function PreviewPayload(payload: Option<GoMap>): string {
    if payload.None? then ""
    else
      var t0 := GoString(payload.value, "type").GetOr("");
      var t := if t0 == "" then "text" else t0;
      var d := GoString(payload.value, "data").GetOr("");
      if t == "image" || t == "video" || t == "binary" then "[" + t + "] " + NatToString(|d|) + " chars"
      else if |d| <= PreviewLimit then d
      else d[..PreviewLimit] + "\U{2026}"
  }

  /** The kinds whose data is never shown, only counted. */
  predicate IsMediaType(t: string) {
    t == "image" || t == "video" || t == "binary"
  }

  /**
   * A nil payload previews as nothing; image, video and binary data as its kind and length;
   * anything else as its data when that is at most 80 long, or else as its first 80
   * characters and an ellipsis, so such a preview is never longer than 81 and always starts
   * with at most 80 characters of the data.
   */
  lemma {:induction false} PreviewShape(payload: Option<GoMap>)
    ensures payload.None? ==> PreviewPayload(payload) == ""
    ensures payload.Some? ==>
              var t := GetStr(payload.value, "type", "");
              var d := GetStr(payload.value, "data", "");
              var r := PreviewPayload(payload);
              (IsMediaType(t) ==> r == "[" + t + "] " + NatToString(|d|) + " chars") &&
              (!IsMediaType(t) ==>
                 |r| <= PreviewLimit + 1 && |r| <= |d| + 1 &&
                 StartsWith(d, r[..Min(|r|, PreviewLimit)]) &&
                 (|d| <= PreviewLimit ==> r == d) &&
                 (|d| > PreviewLimit ==> r == d[..PreviewLimit] + "\U{2026}"))
  {
  }

  /** `getStr(m, key, def)`. */
  function GetStr(m: GoMap, key: string, def: string): string
  {
    GoString(m, key).GetOr(def)
  }

  /** `svcIcon(s)`: the trimmed icon, or a bullet for a blank one. */
  function SvcIcon(s: string): string {
    var t := GoTrim(s);
    if t == "" then "\U{2022}" else t
  }

  /** The icon is never blank, keeps a non-blank icon's trimmed text, and a second pass changes nothing. */
  lemma {:induction false} SvcIconShape(s: string)
    ensures SvcIcon(s) != ""
    ensures GoTrim(s) != "" ==> SvcIcon(s) == GoTrim(s)
    ensures GoTrim(s) == "" ==> SvcIcon(s) == "\U{2022}"
    ensures SvcIcon(SvcIcon(s)) == SvcIcon(s)
  {
    TrimIdempotent(s, IsGoSpace);
    TrimUnchanged("\U{2022}", IsGoSpace);
  }
}
