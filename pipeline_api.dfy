/**
 * The gateway's pipeline editor API: `GET /api/pipeline` lists the loaded services with
 * their icons, and `PUT /api/pipeline` checks and normalises a new list before it is saved.
 * A PUT is refused (`ok: false`) for a body that is not valid JSON, an empty list, a service
 * whose trimmed name is empty, or a trimmed name seen before in the list; nothing is saved
 * then. An accepted list is saved with `SetPipeline`, and the reply says whether it went to
 * the writable file.
 */
module PipelineApi {
  import opened Wrappers
  import opened Strings
  import opened Json
  import opened PipelineConfig
  import opened GatewayPayload

  /** One element of `services` in the PUT body; the two types may be absent (nil). */
  datatype ServiceUpdate = ServiceUpdate(name: string, url: string, icon: string, description: string,
                                         inputType: Option<string>, outputType: Option<string>)

  const NoServicesMessage: string := "At least one service required"
  const NameRequiredMessage: string := "Service name is required"
  const DuplicateMessage: string := "Duplicate service name: "
  const InvalidJsonMessage: string := "Invalid JSON"

  function TrimmedName(u: ServiceUpdate): string {
    GoTrim(u.name)
  }

  /** A nil type as `""`, a present one trimmed. */
  function TrimmedType(t: Option<string>): string {
    if t.None? then "" else GoTrim(t.value)
  }

  /** The stored form of an accepted service. The icon rule is the same as `svcIcon`'s. */
  function Normalized(u: ServiceUpdate): PipelineService {
    PipelineService(TrimmedName(u), NormalizeURL(u.url), SvcIcon(u.icon), GoTrim(u.description),
                    TrimmedType(u.inputType), TrimmedType(u.outputType))
  }

  function NormalizeAll(us: seq<ServiceUpdate>): (svc: seq<PipelineService>)
    ensures |svc| == |us|
  {
    if us == [] then [] else [Normalized(us[0])] + NormalizeAll(us[1..])
  }

  // ---------------------------------------------------------------------------------------------
  // The checks
  // ---------------------------------------------------------------------------------------------

  /** `Ok(rest)` with `svc` in front, an error unchanged. */
  function Prepend(svc: seq<PipelineService>, r: Result<seq<PipelineService>, string>): Result<seq<PipelineService>, string> {
    match r
    case Ok(rest) => Ok(svc + rest)
    case Err(e) => Err(e)
  }

  /** The loop over the list from some point on, with the names `seen` before it. */
  function Check(us: seq<ServiceUpdate>, seen: set<string>): Result<seq<PipelineService>, string>
    decreases |us|
  {
    if us == [] then Ok([])
    else
      var name := TrimmedName(us[0]);
      if name == "" then Err(NameRequiredMessage)
      else if name in seen then Err(DuplicateMessage + name)
      else Prepend([Normalized(us[0])], Check(us[1..], seen + {name}))
  }

  /** The checks of `apiPipelinePut` on a decoded list: the services to save, or the refusal. */
  function Validate(us: seq<ServiceUpdate>): Result<seq<PipelineService>, string> {
    if |us| == 0 then Err(NoServicesMessage) else Check(us, {})
  }

  /** The trimmed names, in order. */
  function Names(us: seq<ServiceUpdate>): (ns: seq<string>)
    ensures |ns| == |us|
  {
    if us == [] then [] else [TrimmedName(us[0])] + Names(us[1..])
  }

  lemma {:induction false} NamesIndex(us: seq<ServiceUpdate>, k: nat)
    requires k < |us|
    ensures Names(us)[k] == TrimmedName(us[k])
    decreases k
  {
    if k > 0 {
      NamesIndex(us[1..], k - 1);
    }
  }

  /** Every name is non-empty, not among `seen`, and different from every earlier one. */
  predicate Fresh(ns: seq<string>, seen: set<string>) {
    forall i :: 0 <= i < |ns| ==> ns[i] != "" && ns[i] !in seen && forall j :: 0 <= j < i ==> ns[j] != ns[i]
  }

  /** The names the loop accepts. */
  predicate Acceptable(us: seq<ServiceUpdate>, seen: set<string>) {
    Fresh(Names(us), seen)
  }

  /** The name at `k` fails: it is empty, or was seen before or earlier in the list. */
  predicate BadAt(ns: seq<string>, seen: set<string>, k: nat)
    requires k < |ns|
  {
    ns[k] == "" || ns[k] in seen || exists j :: 0 <= j < k && ns[j] == ns[k]
  }

  /** The refusal for a failing position. */
  function ErrorAt(us: seq<ServiceUpdate>, k: nat): string
    requires k < |us|
  {
    if TrimmedName(us[k]) == "" then NameRequiredMessage else DuplicateMessage + TrimmedName(us[k])
  }

  lemma {:induction false} FreshCons(ns: seq<string>, seen: set<string>)
    requires ns != []
    ensures Fresh(ns, seen) <==> ns[0] != "" && ns[0] !in seen && Fresh(ns[1..], seen + {ns[0]})
  {
    var rest := ns[1..];
    if Fresh(ns, seen) {
      forall i | 0 <= i < |rest|
        ensures rest[i] != "" && rest[i] !in seen + {ns[0]} && forall j :: 0 <= j < i ==> rest[j] != rest[i]
      {
        assert rest[i] == ns[i + 1];
        forall j | 0 <= j < i ensures rest[j] != rest[i] {
          assert rest[j] == ns[j + 1];
        }
      }
    }
    if ns[0] != "" && ns[0] !in seen && Fresh(rest, seen + {ns[0]}) {
      forall i | 0 <= i < |ns|
        ensures ns[i] != "" && ns[i] !in seen && forall j :: 0 <= j < i ==> ns[j] != ns[i]
      {
        if i > 0 {
          assert ns[i] == rest[i - 1];
          forall j | 0 <= j < i ensures ns[j] != ns[i] {
            if j > 0 { assert ns[j] == rest[j - 1]; }
          }
        }
      }
    }
  }

  /** A failure after the first name is a failure of the rest, with the first name seen. */
  lemma {:induction false} BadAtTail(ns: seq<string>, seen: set<string>, k: nat)
    requires 0 < k < |ns| && Fresh(ns[..k], seen) && BadAt(ns, seen, k)
    ensures ns[0] != "" && ns[0] !in seen
    ensures Fresh(ns[1..][..k - 1], seen + {ns[0]}) && BadAt(ns[1..], seen + {ns[0]}, k - 1)
  {
    var rest := ns[1..];
    assert ns[..k][0] == ns[0];
    FreshCons(ns[..k], seen);
    assert ns[..k][1..] == rest[..k - 1];
    assert rest[k - 1] == ns[k];
    if ns[k] != "" && ns[k] !in seen {
      var j :| 0 <= j < k && ns[j] == ns[k];
      if j > 0 {
        assert rest[j - 1] == ns[j];
      }
    }
  }

  /**
   * The loop accepts exactly the lists whose trimmed names are non-empty, new and pairwise
   * distinct, and then yields every service normalised, in order.
   */
  lemma {:induction false} CheckAccepts(us: seq<ServiceUpdate>, seen: set<string>)
    ensures Check(us, seen).Ok? <==> Acceptable(us, seen)
    ensures Check(us, seen).Ok? ==> Check(us, seen).value == NormalizeAll(us)
    decreases |us|
  {
    if us != [] {
      var n := TrimmedName(us[0]);
      FreshCons(Names(us), seen);
      assert Names(us)[1..] == Names(us[1..]);
      if n != "" && n !in seen {
        CheckAccepts(us[1..], seen + {n});
      }
    }
  }

  /** A refusal of the rest, after a first name that passes, is the refusal of the list. */
  lemma {:induction false} CheckPassesFirst(us: seq<ServiceUpdate>, seen: set<string>, e: string)
    requires us != [] && TrimmedName(us[0]) != "" && TrimmedName(us[0]) !in seen
    requires Check(us[1..], seen + {TrimmedName(us[0])}) == Err(e)
    ensures Check(us, seen) == Err(e)
  {
  }

  /** A first name that fails is refused with its own message. */
  lemma {:induction false} CheckRefusesFirst(us: seq<ServiceUpdate>, seen: set<string>)
    requires us != [] && BadAt(Names(us), seen, 0)
    ensures Check(us, seen) == Err(ErrorAt(us, 0))
  {
    assert Names(us)[0] == TrimmedName(us[0]);
  }

  /** A failure after the first name: the first name passes, and the rest fails one place earlier. */
  lemma {:induction false} RefusalInTail(us: seq<ServiceUpdate>, seen: set<string>, k: nat)
    requires 0 < k < |us| && Fresh(Names(us)[..k], seen) && BadAt(Names(us), seen, k)
    ensures TrimmedName(us[0]) != "" && TrimmedName(us[0]) !in seen
    ensures Fresh(Names(us[1..])[..k - 1], seen + {TrimmedName(us[0])}) &&
            BadAt(Names(us[1..]), seen + {TrimmedName(us[0])}, k - 1)
  {
    var ns := Names(us);
    assert ns[0] == TrimmedName(us[0]) && ns[1..] == Names(us[1..]);
    BadAtTail(ns, seen, k);
  }

  /** The refusal of the rest at `k - 1` is the refusal of the list at `k`. */
  lemma {:induction false} RefusalLifts(us: seq<ServiceUpdate>, seen: set<string>, k: nat)
    requires 0 < k < |us| && TrimmedName(us[0]) != "" && TrimmedName(us[0]) !in seen
    requires Check(us[1..], seen + {TrimmedName(us[0])}) == Err(ErrorAt(us[1..], k - 1))
    ensures Check(us, seen) == Err(ErrorAt(us, k))
  {
    assert us[1..][k - 1] == us[k];
    CheckPassesFirst(us, seen, ErrorAt(us, k));
  }

  /** The refusal names the first failing position: an empty name, or the repeated name. */
  lemma {:induction false} CheckRefuses(us: seq<ServiceUpdate>, seen: set<string>, k: nat)
    requires k < |us| && Fresh(Names(us)[..k], seen) && BadAt(Names(us), seen, k)
    ensures Check(us, seen) == Err(ErrorAt(us, k))
    decreases k
  {
    if k == 0 {
      CheckRefusesFirst(us, seen);
    } else {
      RefusalInTail(us, seen, k);
      CheckRefuses(us[1..], seen + {TrimmedName(us[0])}, k - 1);
      RefusalLifts(us, seen, k);
    }
  }

  /**
   * `apiPipelinePut`'s decision on a decoded list: an empty list is refused; otherwise the
   * list is accepted exactly when every trimmed name is non-empty and no two are equal, and
   * then every service is saved normalised; a list that fails is refused with the message of
   * its first failing position.
   */
  lemma {:induction false} ValidateOutcome(us: seq<ServiceUpdate>)
    ensures |us| == 0 ==> Validate(us) == Err(NoServicesMessage)
    ensures Validate(us).Ok? <==> |us| > 0 && Acceptable(us, {})
    ensures Validate(us).Ok? ==> Validate(us).value == NormalizeAll(us)
    ensures forall k :: 0 <= k < |us| && Fresh(Names(us)[..k], {}) && BadAt(Names(us), {}, k) ==>
                          Validate(us) == Err(ErrorAt(us, k))
  {
    CheckAccepts(us, {});
    forall k | 0 <= k < |us| && Fresh(Names(us)[..k], {}) && BadAt(Names(us), {}, k) ensures Validate(us) == Err(ErrorAt(us, k)) {
      CheckRefuses(us, {}, k);
    }
  }

  /** Every saved service has a non-empty name and icon, and a URL that is empty or has a scheme. */
  lemma {:induction false} NormalizedShape(u: ServiceUpdate)
    ensures var s := Normalized(u);
            s.name == GoTrim(u.name) && s.icon != "" && (s.url == "" || Contains(s.url, "://")) &&
            (u.inputType.None? ==> s.inputType == "") && (u.outputType.None? ==> s.outputType == "")
  {
    SvcIconShape(u.icon);
    NormalizeURLShape(u.url);
  }

  // ---------------------------------------------------------------------------------------------
  // Replies
  // ---------------------------------------------------------------------------------------------

  function Refusal(detail: string): Json {
    Obj(map["ok" := Bool(false), "detail" := Str(detail)])
  }

  function SaveFailed(detail: string): Json {
    Obj(map["ok" := Bool(true), "saved" := Bool(false), "detail" := Str(detail)])
  }

  function Saved(saved: bool): Json {
    Obj(map["ok" := Bool(true), "saved" := Bool(saved)])
  }

  /**
   * `apiPipelinePut` as a function of the package state: the reply, the files and the state
   * afterwards. `body` is `None` when the request does not decode; `failure` is passed on to
   * `SetPipeline`.
   */
  function Put(h: Host, files: Files, st: Cache, body: Option<seq<ServiceUpdate>>, failure: Option<string>, mtime: int)
    : (Json, Files, Cache)
  {
    if body.None? then (Refusal(InvalidJsonMessage), files, st)
    else match Validate(body.value)
      case Err(e) => (Refusal(e), files, st)
      case Ok(svc) =>
        var (err, files', st') := Set(h, files, st, svc, failure, mtime);
        (if err.Some? then SaveFailed(err.value) else Saved(WritablePath(h.env) != ""), files', st')
  }

  /** A refused PUT saves nothing: the files and the package state are as before. */
  lemma {:induction false} PutRefusalKeepsState(h: Host, files: Files, st: Cache, body: Option<seq<ServiceUpdate>>, failure: Option<string>,
                             mtime: int)
    ensures var (reply, files', st') := Put(h, files, st, body, failure, mtime);
            (reply.Obj? && "ok" in reply.fields && reply.fields["ok"] == Bool(false)) <==>
              (body.None? || Validate(body.value).Err?)
    ensures var (reply, files', st') := Put(h, files, st, body, failure, mtime);
            (body.None? || Validate(body.value).Err?) ==> files' == files && st' == st
  {
  }

  /**
   * In memory mode (no writable path) an accepted PUT always reports `saved: false` without a
   * detail, and the next GET lists exactly the normalised services, icons included.
   */
  lemma {:induction false} PutThenGetInMemory(h: Host, files: Files, st: Cache, us: seq<ServiceUpdate>, failure: Option<string>, mtime: int,
                           later: Files)
    requires WritablePath(h.env) == "" && Validate(us).Ok?
    ensures var (reply, files', st') := Put(h, files, st, Some(us), failure, mtime);
            reply == Saved(false) && files' == files &&
            GetReply(Load(h, later, st').0) == Obj(map["services" := Arr(StoredJson(NormalizeAll(us)))])
  {
    var svc := NormalizeAll(us);
    assert Validate(us) == Ok(svc) by { CheckAccepts(us, {}); }
    MemorySetThenLoad(h, files, st, svc, failure, mtime, later);
    var st' := Set(h, files, st, svc, failure, mtime).2;
    assert Put(h, files, st, Some(us), failure, mtime) == (Saved(false), files, st');
    assert ServicesJson(svc) == StoredJson(svc) by {
      NormalizedIcons(us);
      EchoStored(svc);
    }
  }

  /** A file-mode PUT whose save fails reports the error and leaves everything as it was. */
  lemma {:induction false} PutSaveFailure(h: Host, files: Files, st: Cache, us: seq<ServiceUpdate>, e: string, mtime: int)
    requires WritablePath(h.env) != "" && Validate(us).Ok?
    ensures Put(h, files, st, Some(us), Some(e), mtime) == (SaveFailed(e), files, st)
  {
  }

  // ---------------------------------------------------------------------------------------------
  // GET
  // ---------------------------------------------------------------------------------------------

  /** One service as GET shows it: its stored fields, the icon passed through `svcIcon`. */
  function ServiceJson(s: PipelineService): Json {
    Obj(map["name" := Str(s.name), "url" := Str(s.url), "icon" := Str(SvcIcon(s.icon)), "description" := Str(s.description),
            "input_type" := Str(s.inputType), "output_type" := Str(s.outputType)])
  }

  /** One service with its stored fields exactly. */
  function RawJson(s: PipelineService): Json {
    Obj(map["name" := Str(s.name), "url" := Str(s.url), "icon" := Str(s.icon), "description" := Str(s.description),
            "input_type" := Str(s.inputType), "output_type" := Str(s.outputType)])
  }

  /** The `services` list GET replies with, one entry per service in order. */
  function ServicesJson(svc: seq<PipelineService>): (out: seq<Json>)
    ensures |out| == |svc|
  {
    if svc == [] then [] else ServicesJson(svc[..|svc| - 1]) + [ServiceJson(svc[|svc| - 1])]
  }

  /** The list with every service's stored fields exactly. */
  function StoredJson(svc: seq<PipelineService>): (out: seq<Json>)
    ensures |out| == |svc|
  {
    if svc == [] then [] else StoredJson(svc[..|svc| - 1]) + [RawJson(svc[|svc| - 1])]
  }

  lemma {:induction false} ServicesJsonIndex(svc: seq<PipelineService>, i: nat)
    requires i < |svc|
    ensures ServicesJson(svc)[i] == ServiceJson(svc[i])
    decreases |svc|
  {
    if i < |svc| - 1 {
      var init := svc[..|svc| - 1];
      ServicesJsonIndex(init, i);
      assert init[i] == svc[i];
    }
  }

  /** A service whose icon is already normalised is listed with its stored fields. */
  lemma {:induction false} EchoStored(svc: seq<PipelineService>)
    requires forall i :: 0 <= i < |svc| ==> SvcIcon(svc[i].icon) == svc[i].icon
    ensures ServicesJson(svc) == StoredJson(svc)
    decreases |svc|
  {
    if svc != [] {
      var init := svc[..|svc| - 1];
      assert forall i :: 0 <= i < |init| ==> init[i] == svc[i];
      EchoStored(init);
      assert ServiceJson(svc[|svc| - 1]) == RawJson(svc[|svc| - 1]);
    }
  }

  /** Every normalised service keeps its icon through `svcIcon`. */
  lemma {:induction false} NormalizeAllIndex(us: seq<ServiceUpdate>, i: nat)
    requires i < |us|
    ensures NormalizeAll(us)[i] == Normalized(us[i])
    decreases i
  {
    if i > 0 {
      NormalizeAllIndex(us[1..], i - 1);
      assert us[1..][i - 1] == us[i];
      assert NormalizeAll(us)[i] == NormalizeAll(us[1..])[i - 1];
    }
  }

  lemma {:induction false} NormalizedIcons(us: seq<ServiceUpdate>)
    ensures forall i :: 0 <= i < |us| ==> SvcIcon(NormalizeAll(us)[i].icon) == NormalizeAll(us)[i].icon
  {
    forall i | 0 <= i < |us| ensures SvcIcon(NormalizeAll(us)[i].icon) == NormalizeAll(us)[i].icon {
      NormalizeAllIndex(us, i);
      SvcIconShape(us[i].icon);
    }
  }


  function GetReply(svc: seq<PipelineService>): Json {
    Obj(map["services" := Arr(ServicesJson(svc))])
  }

  /** `apiPipelineGet`. */
  method ApiPipelineGet(store: PipelineStore) returns (reply: Json)
    modifies store
    ensures store.files == old(store.files)
    ensures var (svc, st) := Load(store.host, store.files, old(store.State()));
            reply == GetReply(svc) && store.State() == st
  {
    var svc := store.LoadPipeline();
    var out: seq<Json> := [];
    var i := 0;
    while i < |svc|
      invariant 0 <= i <= |svc|
      invariant out == ServicesJson(svc[..i])
    {
      assert svc[..i + 1][..i] == svc[..i];
      out := out + [ServiceJson(svc[i])];
      i := i + 1;
    }
    assert svc[..|svc|] == svc;
    reply := Obj(map["services" := Arr(out)]);
  }

  // ---------------------------------------------------------------------------------------------
  // PUT
  // ---------------------------------------------------------------------------------------------

  lemma {:induction false} PrependNothing(r: Result<seq<PipelineService>, string>)
    ensures Prepend([], r) == r
  {
    if r.Ok? {
      assert [] + r.value == r.value;
    }
  }

  lemma {:induction false} PrependAssoc(svc: seq<PipelineService>, x: PipelineService, r: Result<seq<PipelineService>, string>)
    ensures Prepend(svc, Prepend([x], r)) == Prepend(svc + [x], r)
  {
    if r.Ok? {
      assert svc + ([x] + r.value) == (svc + [x]) + r.value;
    }
  }

  /** One accepted element, built field by field as the handler does. */
  method NormalizeOne(u: ServiceUpdate, name: string) returns (s: PipelineService)
    requires name == TrimmedName(u)
    ensures s == Normalized(u)
  {
    var icon := GoTrim(u.icon);
    if icon == "" {
      icon := "\U{2022}";
    }
    var desc := GoTrim(u.description);
    var inputType, outputType := "", "";
    if u.inputType.Some? {
      inputType := GoTrim(u.inputType.value);
    }
    if u.outputType.Some? {
      outputType := GoTrim(u.outputType.value);
    }
    s := PipelineService(name, NormalizeURL(u.url), icon, desc, inputType, outputType);
  }

  /** The checking loop of `apiPipelinePut`: the services to save, or the first refusal. */
  method CheckServices(us: seq<ServiceUpdate>) returns (r: Result<seq<PipelineService>, string>)
    ensures r == Validate(us)
  {
    if |us| == 0 {
      return Err(NoServicesMessage);
    }
    var seen: set<string> := {};
    var svc: seq<PipelineService> := [];
    var i := 0;
    assert us[i..] == us;
    PrependNothing(Validate(us));
    while i < |us|
      invariant 0 <= i <= |us|
      invariant Validate(us) == Prepend(svc, Check(us[i..], seen))
    {
      var name := GoTrim(us[i].name);
      if name == "" {
        return Err(NameRequiredMessage);
      }
      if name in seen {
        return Err(DuplicateMessage + name);
      }
      seen := seen + {name};
      var s := NormalizeOne(us[i], name);
      assert us[i..][1..] == us[i + 1..];
      PrependAssoc(svc, s, Check(us[i + 1..], seen));
      svc := svc + [s];
      i := i + 1;
    }
    assert svc + [] == svc;
    return Ok(svc);
  }

  /** `apiPipelinePut`. */
  method ApiPipelinePut(store: PipelineStore, body: Option<seq<ServiceUpdate>>, failure: Option<string>, mtime: int)
    returns (reply: Json)
    modifies store
    ensures (reply, store.files, store.State()) == Put(store.host, old(store.files), old(store.State()), body, failure, mtime)
  {
    if body.None? {
      return Refusal(InvalidJsonMessage);
    }
    var checked := CheckServices(body.value);
    if checked.Err? {
      return Refusal(checked.error);
    }
    var err := store.SetPipeline(checked.value, failure, mtime);
    if err.Some? {
      return SaveFailed(err.value);
    }
    return Saved(WritablePath(store.host.env) != "");
  }
}
