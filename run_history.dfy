/**
 * The browser's run-history ledger: a newest-first list of run records kept in local storage
 * under one key, capped at 500 entries when it grows, loaded leniently and imported from a
 * previously exported file.
 */
module RunHistory {
  import opened Wrappers
  import opened Strings
  import opened Json

  /** MAX_RUN_HISTORY. */
  const MaxRunHistory: nat := 500

  /**
   * The type guard both `loadFromStorage` and `importData` filter with: a truthy object with a
   * string `traceId`, numeric `timestamp`, `stepsCount` and `durationMs`, and a `status` of
   * "ok" or "error".
   */
  predicate IsRunRecord(r: Json) {
    Truthy(r) && TypeOf(r) == "object" &&
    TypeOf(Get(r, "traceId")) == "string" &&
    TypeOf(Get(r, "timestamp")) == "number" &&
    (Get(r, "status") == Str("ok") || Get(r, "status") == Str("error")) &&
    TypeOf(Get(r, "stepsCount")) == "number" &&
    TypeOf(Get(r, "durationMs")) == "number"
  }

  /** The guard accepts exactly the objects with fields of the `RunRecord` shape (others may follow). */
  lemma {:induction false} RunRecordShape(r: Json)
    ensures IsRunRecord(r) <==>
            r.Obj? &&
            "traceId" in r.fields && r.fields["traceId"].Str? &&
            "timestamp" in r.fields && r.fields["timestamp"].Num? &&
            "status" in r.fields && r.fields["status"] in {Str("ok"), Str("error")} &&
            "stepsCount" in r.fields && r.fields["stepsCount"].Num? &&
            "durationMs" in r.fields && r.fields["durationMs"].Num?
  {
  }

  /** `items.filter(isRunRecord)`. */
  function ValidRuns(items: seq<Json>): (r: seq<Json>)
    ensures |r| <= |items|
    ensures forall i :: 0 <= i < |r| ==> IsRunRecord(r[i])
  {
    if |items| == 0 then []
    else (if IsRunRecord(items[0]) then [items[0]] else []) + ValidRuns(items[1..])
  }

  /** The filter keeps every valid entry and only entries of the input, in input order. */
  lemma {:induction false} ValidRunsKeeps(items: seq<Json>)
    ensures forall x :: x in ValidRuns(items) <==> x in items && IsRunRecord(x)
  {
    if |items| > 0 {
      ValidRunsKeeps(items[1..]);
      assert items == [items[0]] + items[1..];
    }
  }

  /** On a list of valid records the filter changes nothing. */
  lemma {:induction false} ValidRunsOfValid(items: seq<Json>)
    requires forall i :: 0 <= i < |items| ==> IsRunRecord(items[i])
    ensures ValidRuns(items) == items
  {
    if |items| > 0 {
      ValidRunsOfValid(items[1..]);
      assert items == [items[0]] + items[1..];
    }
  }

  /**
   * `loadFromStorage()`: `raw` is the stored text (`None` when the key is missing or storage
   * cannot be read). Empty text, a syntax error and a non-array all give the empty ledger;
   * an array is filtered. It does not cap the length.
   */
  function LoadRuns(raw: Option<string>, parse: Parser): (runs: seq<Json>)
    ensures forall i :: 0 <= i < |runs| ==> IsRunRecord(runs[i])
  {
    if raw.None? || raw.value == "" then []
    else match parse(raw.value)
      case SyntaxError(_) => []
      case Parsed(v) => if v.Arr? then ValidRuns(v.items) else []
  }

  lemma {:induction false} LoadNeverFails(raw: Option<string>, parse: Parser)
    ensures (raw.None? || raw.value == "") ==> LoadRuns(raw, parse) == []
    ensures raw.Some? && raw.value != "" && parse(raw.value).SyntaxError? ==> LoadRuns(raw, parse) == []
    ensures raw.Some? && raw.value != "" && parse(raw.value).Parsed? && !parse(raw.value).value.Arr? ==>
              LoadRuns(raw, parse) == []
  {
  }

  /**
   * What was saved loads back unchanged, provided the serialiser's output parses back to the
   * same array (and is not the empty text, which `JSON.stringify` never produces).
   */
  lemma {:induction false} LoadAfterSave(runs: seq<Json>, c: Codec)
    requires forall i :: 0 <= i < |runs| ==> IsRunRecord(runs[i])
    requires c.parse(c.stringify(Arr(runs))) == Parsed(Arr(runs)) && c.stringify(Arr(runs)) != ""
    ensures LoadRuns(Some(c.stringify(Arr(runs))), c.parse) == runs
  {
    ValidRunsOfValid(runs);
  }

  /** `importData`'s reply. */
  datatype ImportReport = ImportReport(ok: bool, message: string, imported: nat)

  const InvalidFormatMessage: string := "Invalid format: expected { \"runs\": [...] }"

  /** The valid entries `importData` would take from `json`, or its failure reply. */
  function ImportedRuns(json: string, parse: Parser): Result<seq<Json>, ImportReport> {
    match parse(json)
    case SyntaxError(m) => Err(ImportReport(false, if m == "" then "Invalid JSON" else m, 0))
    case Parsed(data) =>
      var runs := Get(data, "runs");
      if !Truthy(data) || !runs.Arr? then Err(ImportReport(false, InvalidFormatMessage, 0))
      else Ok(ValidRuns(runs.items))
  }

  /** `importData(json)` on the ledger `ledger`: its reply and the new ledger. */
  function Import(json: string, ledger: seq<Json>, parse: Parser): (ImportReport, seq<Json>) {
    match ImportedRuns(json, parse)
    case Err(report) => (report, ledger)
    case Ok(valid) =>
      (ImportReport(true, "Imported " + NatToString(|valid|) + " run(s).", |valid|),
       Prefix(valid + ledger, MaxRunHistory))
  }

  /** A failed import reports nothing imported and leaves the ledger as it was. */
  lemma {:induction false} ImportFailureKeepsLedger(json: string, ledger: seq<Json>, parse: Parser)
    requires !Import(json, ledger, parse).0.ok
    ensures Import(json, ledger, parse).0.imported == 0
    ensures Import(json, ledger, parse).1 == ledger
  {
  }

  /**
   * A successful import puts the valid entries, in file order, before the old ledger and cuts
   * to 500; it reports every valid entry as imported, even those the cut drops.
   */
  lemma {:induction false} ImportSuccess(json: string, ledger: seq<Json>, parse: Parser)
    requires Import(json, ledger, parse).0.ok
    ensures ImportedRuns(json, parse).Ok?
    ensures var valid := ImportedRuns(json, parse).value;
            var (report, next) := Import(json, ledger, parse);
            report.imported == |valid| &&
            |next| == Min(|valid| + |ledger|, MaxRunHistory) &&
            next == (valid + ledger)[..|next|]
  {
  }

  /** `exportData()`: the ledger in an envelope, through the pretty printer. */
  function Export(ledger: seq<Json>, exportedAt: string, pretty: Printer): string {
    pretty(Envelope(ledger, exportedAt))
  }

  function Envelope(ledger: seq<Json>, exportedAt: string): Json {
    Obj(map["version" := Num(1), "exportedAt" := Str(exportedAt), "runs" := Arr(ledger)])
  }

  /**
   * Importing an export of a valid ledger L into L itself gives `(L ++ L)[..500]` and reports
   * |L| entries, when the pretty printer's output parses back to the envelope.
   */
  lemma {:induction false} ExportImportRoundTrip(ledger: seq<Json>, exportedAt: string, pretty: Printer, parse: Parser)
    requires forall i :: 0 <= i < |ledger| ==> IsRunRecord(ledger[i])
    requires parse(pretty(Envelope(ledger, exportedAt))) == Parsed(Envelope(ledger, exportedAt))
    ensures var (report, next) := Import(Export(ledger, exportedAt, pretty), ledger, parse);
            report.ok && report.imported == |ledger| &&
            next == Prefix(ledger + ledger, MaxRunHistory)
  {
    ValidRunsOfValid(ledger);
    assert Get(Envelope(ledger, exportedAt), "runs") == Arr(ledger);
  }

  /** The ledger with its local-storage copy. */
  class RunLedger {
    /** `runHistory.value`, newest first. */
    var runs: seq<Json>
    /** What local storage holds under the ledger's key (`None`: nothing). */
    var storage: Option<string>
    const codec: Codec

    ghost predicate Valid()
      reads this
    {
      forall i :: 0 <= i < |runs| ==> IsRunRecord(runs[i])
    }

    /** `useRunHistory()`: the ledger is loaded from what storage holds. */
    constructor (stored: Option<string>, c: Codec)
      ensures runs == LoadRuns(stored, c.parse) && storage == stored && codec == c
      ensures Valid()
    {
      runs := LoadRuns(stored, c.parse);
      storage := stored;
      codec := c;
    }

    /**
     * The deep watch's `saveToStorage(val)` after each change: the serialised ledger, unless
     * writing fails (`writeFails`), which is ignored.
     */
    method Save(writeFails: bool)
      modifies this
      ensures runs == old(runs)
      ensures storage == if writeFails then old(storage) else Some(codec.stringify(Arr(runs)))
    {
      if !writeFails {
        storage := Some(codec.stringify(Arr(runs)));
      }
    }

    /** `addRun(record)`: prepend, then keep the newest 500. */
    method AddRun(record: Json, writeFails: bool)
      requires Valid() && IsRunRecord(record)
      modifies this
      ensures Valid()
      ensures runs == Prefix([record] + old(runs), MaxRunHistory)
      ensures runs[0] == record && |runs| <= MaxRunHistory
      ensures storage == if writeFails then old(storage) else Some(codec.stringify(Arr(runs)))
    {
      runs := Prefix([record] + runs, MaxRunHistory);
      Save(writeFails);
    }

    /** `importData(json)`. */
    method ImportData(json: string, writeFails: bool) returns (report: ImportReport)
      requires Valid()
      modifies this
      ensures Valid()
      ensures (report, runs) == Import(json, old(runs), codec.parse)
      ensures !report.ok ==> storage == old(storage)
      ensures report.ok ==> storage == if writeFails then old(storage) else Some(codec.stringify(Arr(runs)))
    {
      var data := codec.parse(json);
      if data.SyntaxError? {
        report := ImportReport(false, if data.message == "" then "Invalid JSON" else data.message, 0);
        return;
      }
      var runsField := Get(data.value, "runs");
      if !Truthy(data.value) || !runsField.Arr? {
        report := ImportReport(false, InvalidFormatMessage, 0);
        return;
      }
      var valid := ValidRuns(runsField.items);
      runs := Prefix(valid + runs, MaxRunHistory);
      Save(writeFails);
      report := ImportReport(true, "Imported " + NatToString(|valid|) + " run(s).", |valid|);
    }

    /** `exportData()`, stamped with `exportedAt` and printed with two-space indentation. */
    function ExportData(exportedAt: string, pretty: Printer): (text: string)
      reads this
      ensures text == Export(runs, exportedAt, pretty)
    {
      pretty(Envelope(runs, exportedAt))
    }

    /** `clearHistory()`. */
    method ClearHistory(writeFails: bool)
      modifies this
      ensures Valid()
      ensures runs == []
      ensures storage == if writeFails then old(storage) else Some(codec.stringify(Arr([])))
    {
      runs := [];
      Save(writeFails);
    }
  }
}
