/**
 * The gateway's pipeline configuration: the ordered list of services it calls, kept either in
 * memory (loaded once from the first readable candidate file, replaced by `SetPipeline`) or,
 * when `WRITABLE_PIPELINE_PATH` is set, in that file, which is authoritative and read through
 * a cache keyed by path and modification time.
 *
 * The file system is a map from path to entry; YAML decoding and encoding are given functions.
 */
module PipelineConfig {
  import opened Wrappers
  import opened Strings
  import opened Environment

  datatype PipelineService = PipelineService(
    name: string,
    url: string,
    icon: string,
    description: string,
    inputType: string,
    outputType: string)

  /** What a path holds: a modification time, and the contents (`None`: it cannot be read). */
  datatype FileEntry = FileEntry(mtime: int, contents: Option<string>)

  type Files = map<string, FileEntry>

  /**
   * The gateway's fixed surroundings: its environment, the `../pipeline.example.yaml` path
   * next to the working directory (`None` when `os.Getwd` fails), and `yaml.Unmarshal` /
   * `yaml.Marshal` of the `services` list (`None`: a decoding error).
   */
  datatype Host = Host(
    env: Env,
    wdExample: Option<string>,
    decode: string -> Option<seq<PipelineService>>,
    encode: seq<PipelineService> -> string)

  /**
   * The package state: `configMemory` (`None`: nil), `fileCache`, `fileCacheMtime` (`None`:
   * the zero time) and `fileCachePath`.
   */
  datatype Cache = Cache(
    memory: Option<seq<PipelineService>>,
    fileCache: seq<PipelineService>,
    cacheMtime: Option<int>,
    cachePath: string)

  const Initial: Cache := Cache(None, [], None, "")

  // ---------------------------------------------------------------------------------------------
  // URLs
  // ---------------------------------------------------------------------------------------------

  /** `NormalizeURL(url)`: trimmed, with `http://` put in front when it names no scheme. */
  function NormalizeURL(url: string): string {
    WithScheme(GoTrim(url))
  }

  /** The scheme step of `NormalizeURL`, on text already trimmed. */
  function WithScheme(u: string): string {
    if u == "" then u
    else if Find(u, "://").None? then "http://" + u
    else u
  }

  /** `http://` in front of any text names a scheme. */
  lemma {:induction false} SchemeOccurs(u: string)
    ensures OccursAt("http://" + u, "://", 4)
  {
    assert "http://"[4..7] == "://";
    OccursExtend("http://", u, "://", 4);
  }

  lemma {:induction false} WithSchemeShape(u: string)
    ensures var r := WithScheme(u);
            (r == "" <==> u == "") && (r == "" || Contains(r, "://")) && (r == u || r == "http://" + u)
  {
    if u != "" && Find(u, "://").None? {
      SchemeOccurs(u);
    }
  }

  /**
   * The result is empty or names a scheme; it is empty only for a blank input; a non-blank
   * input keeps its trimmed text at the end.
   */
  lemma {:induction false} NormalizeURLShape(url: string)
    ensures var r := NormalizeURL(url);
            (r == "" <==> GoTrim(url) == "") &&
            (r == "" || Contains(r, "://")) &&
            (r == GoTrim(url) || r == "http://" + GoTrim(url))
  {
    WithSchemeShape(GoTrim(url));
  }

  /** Text that names a scheme keeps it. */
  lemma {:induction false} WithSchemeFixed(r: string)
    requires r != "" && Contains(r, "://")
    ensures WithScheme(r) == r
  {
  }

  /** `http://` in front of trimmed, non-empty text leaves nothing to trim. */
  lemma {:induction false} PrefixedTrimmed(u: string)
    requires u == GoTrim(u) && u != ""
    ensures GoTrim("http://" + u) == "http://" + u
  {
    assert !IsGoSpace(u[|u| - 1]);
    assert "http://"[0] == 'h';
    TrimUnchangedJoin("http://", u, IsGoSpace);
  }

  /** The scheme step leaves trimmed text trimmed. */
  lemma {:induction false} WithSchemeTrimmed(u: string)
    requires u == GoTrim(u)
    ensures GoTrim(WithScheme(u)) == WithScheme(u)
  {
    if u != "" && Find(u, "://").None? {
      PrefixedTrimmed(u);
    }
  }

  /** Normalising twice is normalising once. */
  lemma {:induction false} NormalizeURLIdempotent(url: string)
    ensures NormalizeURL(NormalizeURL(url)) == NormalizeURL(url)
  {
    var u := GoTrim(url);
    TrimIdempotent(url, IsGoSpace);
    WithSchemeTrimmed(u);
    WithSchemeShape(u);
    if u != "" {
      WithSchemeFixed(WithScheme(u));
    }
  }

  // ---------------------------------------------------------------------------------------------
  // Paths and defaults
  // ---------------------------------------------------------------------------------------------

  /** `getConfigPath()`. */
  function ConfigPath(env: Env): string {
    if Getenv(env, "PIPELINE_CONFIG_PATH") != "" then Getenv(env, "PIPELINE_CONFIG_PATH")
    else "/app/pipeline.yaml"
  }

  /** `getWritablePath()`; the file is authoritative exactly when it is not empty. */
  function WritablePath(env: Env): string {
    Getenv(env, "WRITABLE_PIPELINE_PATH")
  }

  function EnvOr(env: Env, key: string, def: string): string {
    if Getenv(env, key) != "" then Getenv(env, key) else def
  }

  /** `defaultPipeline()`: the four services with their default addresses and icons. */
  function DefaultPipeline(env: Env): (svc: seq<PipelineService>)
    ensures |svc| == 4
    ensures svc[0].name == "validator" && svc[1].name == "transformer" &&
            svc[2].name == "enricher" && svc[3].name == "persister"
  {
    [PipelineService("validator", EnvOr(env, "VALIDATOR_URL", "http://validator:8001"), "\U{2713}", "", "", ""),
     PipelineService("transformer", EnvOr(env, "TRANSFORMER_URL", "http://transformer:8002"), "\U{21C5}", "", "", ""),
     PipelineService("enricher", EnvOr(env, "ENRICHER_URL", "http://enricher:8003"), "\U{2295}", "", "", ""),
     PipelineService("persister", EnvOr(env, "PERSISTER_URL", "http://persister:8004"), "\U{1F4BE}", "", "", "")]
  }

  /** The candidate files `loadPipelineFromFile` tries, in order. */
  function CandidatePaths(h: Host): seq<string> {
    [ConfigPath(h.env), "/app/pipeline.example.yaml"] +
    (if h.wdExample.Some? then [h.wdExample.value] else [])
  }

  /**
   * `loadPipelineFromPath(path)`: the services listed there, or `None` when the file cannot
   * be read, does not decode or lists none.
   */
  function ReadServices(h: Host, files: Files, path: string): (r: Option<seq<PipelineService>>)
    ensures r.Some? ==> |r.value| > 0
  {
    if path !in files || files[path].contents.None? then None
    else match h.decode(files[path].contents.value)
      case None => None
      case Some(svc) => if |svc| == 0 then None else Some(svc)
  }

  /** The services of the first of `paths` that lists some. */
  function FirstConfigured(h: Host, files: Files, paths: seq<string>): (r: Option<seq<PipelineService>>)
    ensures r.None? <==> forall k :: 0 <= k < |paths| ==> ReadServices(h, files, paths[k]).None?
    ensures r.Some? ==> exists k :: 0 <= k < |paths| && ReadServices(h, files, paths[k]) == r &&
                                    forall j :: 0 <= j < k ==> ReadServices(h, files, paths[j]).None?
  {
    if |paths| == 0 then None
    else if ReadServices(h, files, paths[0]).Some? then
      assert ReadServices(h, files, paths[0]) == ReadServices(h, files, paths[0]);
      ReadServices(h, files, paths[0])
    else
      var r := FirstConfigured(h, files, paths[1..]);
      assert forall k :: 0 < k < |paths| ==> paths[1..][k - 1] == paths[k];
      if r.Some? then
        var k :| 0 <= k < |paths[1..]| && ReadServices(h, files, paths[1..][k]) == r &&
                 forall j :: 0 <= j < k ==> ReadServices(h, files, paths[1..][j]).None?;
        assert ReadServices(h, files, paths[k + 1]) == r;
        assert forall j :: 0 <= j < k + 1 ==> ReadServices(h, files, paths[j]).None? by {
          forall j | 0 <= j < k + 1 ensures ReadServices(h, files, paths[j]).None? {
            if j > 0 {
              assert paths[j] == paths[1..][j - 1];
            }
          }
        }
        r
      else r
  }

  /** `loadPipelineFromFile()`: the first candidate that lists services, else the defaults. */
  function FromFile(h: Host, files: Files): (svc: seq<PipelineService>)
    ensures |svc| > 0
  {
    FirstConfigured(h, files, CandidatePaths(h)).GetOr(DefaultPipeline(h.env))
  }

  /** When no candidate file lists services, the four default services are used. */
  lemma {:induction false} FromFileDefaults(h: Host, files: Files)
    requires forall k :: 0 <= k < |CandidatePaths(h)| ==> ReadServices(h, files, CandidatePaths(h)[k]).None?
    ensures FromFile(h, files) == DefaultPipeline(h.env)
  {
  }

  // ---------------------------------------------------------------------------------------------
  // Loading and saving
  // ---------------------------------------------------------------------------------------------

  /** `t.After(cached)`; every time is after the zero time. */
  predicate After(t: int, cached: Option<int>) {
    cached.None? || t > cached.value
  }

  /** The cache may stand in for the file: it exists, is no newer, is the same path, is non-empty. */
  predicate CacheUsable(files: Files, path: string, st: Cache) {
    path in files && !After(files[path].mtime, st.cacheMtime) && st.cachePath == path && |st.fileCache| > 0
  }

  /** `LoadPipeline()`: the services returned and the package state afterwards. */
  function Load(h: Host, files: Files, st: Cache): (seq<PipelineService>, Cache) {
    var path := WritablePath(h.env);
    if path != "" then
      if CacheUsable(files, path, st) then (st.fileCache, st)
      else match ReadServices(h, files, path)
        case Some(svc) =>
          (svc, st.(fileCache := svc, cachePath := path,
                    cacheMtime := if path in files then Some(files[path].mtime) else st.cacheMtime))
        case None => (FromFile(h, files), st.(fileCache := [], cachePath := ""))
    else if st.memory.Some? then (st.memory.value, st)
    else (FromFile(h, files), st.(memory := Some(FromFile(h, files))))
  }

  /**
   * `SetPipeline(services)`: the error it returns, the files and the package state afterwards.
   * `failure` is the error of creating the directory, encoding or writing, if one occurs; the
   * written file gets the modification time `mtime`.
   */
  function Set(h: Host, files: Files, st: Cache, services: seq<PipelineService>, failure: Option<string>, mtime: int)
    : (Option<string>, Files, Cache)
  {
    var path := WritablePath(h.env);
    if path != "" then
      if failure.Some? then (failure, files, st)
      else (None, files[path := FileEntry(mtime, Some(h.encode(services)))], st.(fileCache := [], cachePath := ""))
    else (None, files, st.(memory := Some(services)))
  }

  /** Memory mode: after `SetPipeline(s)` every load returns `s`, whatever the files hold. */
  lemma {:induction false} MemorySetThenLoad(h: Host, files: Files, st: Cache, s: seq<PipelineService>, failure: Option<string>,
                          mtime: int, later: Files)
    requires WritablePath(h.env) == ""
    ensures var (err, files', st') := Set(h, files, st, s, failure, mtime);
            err.None? && files' == files && Load(h, later, st') == (s, st')
  {
  }

  /**
   * Memory mode: the first load reads the candidate files and keeps the result; from then on
   * loads return it without looking at the files again.
   */
  lemma {:induction false} MemoryLoadsOnce(h: Host, files: Files, st: Cache, later: Files)
    requires WritablePath(h.env) == "" && st.memory.None?
    ensures var (svc, st') := Load(h, files, st);
            svc == FromFile(h, files) && st'.memory == Some(svc) && Load(h, later, st') == (svc, st')
  {
  }

  /** File mode: the cache is returned, unchanged, exactly when it is usable. */
  lemma {:induction false} CacheReuse(h: Host, files: Files, st: Cache)
    requires WritablePath(h.env) != ""
    ensures CacheUsable(files, WritablePath(h.env), st) ==> Load(h, files, st) == (st.fileCache, st)
    ensures !CacheUsable(files, WritablePath(h.env), st) ==>
              Load(h, files, st).0 == ReadServices(h, files, WritablePath(h.env)).GetOr(FromFile(h, files))
  {
  }

  /** File mode: a successful save empties the cache, so the next load reads the file. */
  lemma {:induction false} FileSetClearsCache(h: Host, files: Files, st: Cache, s: seq<PipelineService>, mtime: int)
    requires WritablePath(h.env) != ""
    ensures var (err, files', st') := Set(h, files, st, s, None, mtime);
            err.None? && st'.fileCache == [] && st'.cachePath == "" && st'.memory == st.memory &&
            !CacheUsable(files', WritablePath(h.env), st')
  {
  }

  /** File mode: a failed save changes neither the files nor the state, and returns its error. */
  lemma {:induction false} FileSetFailure(h: Host, files: Files, st: Cache, s: seq<PipelineService>, e: string, mtime: int)
    requires WritablePath(h.env) != ""
    ensures Set(h, files, st, s, Some(e), mtime) == (Some(e), files, st)
  {
  }

  /**
   * File mode: after a successful save of a non-empty list whose encoding decodes back to it,
   * the next load returns that list and caches it with the file's new time.
   */
  lemma {:induction false} FileSetThenLoad(h: Host, files: Files, st: Cache, s: seq<PipelineService>, mtime: int)
    requires WritablePath(h.env) != ""
    requires |s| > 0 && h.decode(h.encode(s)) == Some(s)
    ensures var (_, files', st') := Set(h, files, st, s, None, mtime);
            var (svc, st'') := Load(h, files', st');
            svc == s && st''.fileCache == s && st''.cacheMtime == Some(mtime) && st''.cachePath == WritablePath(h.env)
  {
  }

  /** With the files unchanged, loading again returns what the previous load returned. */
  lemma {:induction false} LoadStable(h: Host, files: Files, st: Cache)
    ensures var (svc, st') := Load(h, files, st);
            Load(h, files, st').0 == svc
  {
  }

  /** Loads never return an empty list unless an empty list was set in memory. */
  lemma {:induction false} LoadNonEmpty(h: Host, files: Files, st: Cache)
    requires st.memory.None? || |st.memory.value| > 0
    ensures var (svc, st') := Load(h, files, st);
            |svc| > 0 && (st'.memory.None? || |st'.memory.value| > 0)
  {
  }

  /** `PipelineNamesURLs()` on a loaded list: one (name, url) pair per service, in order. */
  function NamesURLs(svc: seq<PipelineService>): seq<(string, string)>
  {
    seq(|svc|, i requires 0 <= i < |svc| => (svc[i].name, svc[i].url))
  }

  // ---------------------------------------------------------------------------------------------
  // The package variables
  // ---------------------------------------------------------------------------------------------

  /** The configuration package: its surroundings, the file system and the four variables. */
  class PipelineStore {
    const host: Host
    var files: Files
    var configMemory: Option<seq<PipelineService>>
    var fileCache: seq<PipelineService>
    var fileCacheMtime: Option<int>
    var fileCachePath: string

    function State(): Cache
      reads this
    {
      Cache(configMemory, fileCache, fileCacheMtime, fileCachePath)
    }

    /** The package at start-up: nothing in memory, no cache. */
    constructor (host: Host, files: Files)
      ensures this.host == host && this.files == files && State() == Initial
    {
      this.host := host;
      this.files := files;
      configMemory := None;
      fileCache := [];
      fileCacheMtime := None;
      fileCachePath := "";
    }

    /** `loadPipelineFromFile()`: try the candidates in order. */
    method LoadPipelineFromFile() returns (svc: seq<PipelineService>)
      ensures svc == FromFile(host, files)
    {
      var paths := CandidatePaths(host);
      var k := 0;
      while k < |paths|
        invariant 0 <= k <= |paths|
        invariant FirstConfigured(host, files, paths) == FirstConfigured(host, files, paths[k..])
      {
        assert paths[k..][1..] == paths[k + 1..];
        var path := paths[k];
        if path !in files || files[path].contents.None? {
          k := k + 1;
          continue;
        }
        var decoded := host.decode(files[path].contents.value);
        if decoded.None? {
          k := k + 1;
          continue;
        }
        if |decoded.value| > 0 {
          return decoded.value;
        }
        k := k + 1;
      }
      return DefaultPipeline(host.env);
    }

    /** `LoadPipeline()`. */
    method LoadPipeline() returns (svc: seq<PipelineService>)
      modifies this
      ensures files == old(files)
      ensures (svc, State()) == Load(host, files, old(State()))
    {
      var path := WritablePath(host.env);
      if path != "" {
        var info := if path in files then Some(files[path].mtime) else None;
        if info.Some? && !After(info.value, fileCacheMtime) && fileCachePath == path && |fileCache| > 0 {
          return fileCache;
        }
        var read := ReadServices(host, files, path);
        if read.Some? {
          fileCache := read.value;
          fileCachePath := path;
          if info.Some? {
            fileCacheMtime := info;
          }
          return read.value;
        }
        fileCache := [];
        fileCachePath := "";
        svc := LoadPipelineFromFile();
        return;
      }
      if configMemory.Some? {
        return configMemory.value;
      }
      var loaded := LoadPipelineFromFile();
      configMemory := Some(loaded);
      return loaded;
    }

    /** `SetPipeline(services)`. */
    method SetPipeline(services: seq<PipelineService>, failure: Option<string>, mtime: int) returns (err: Option<string>)
      modifies this
      ensures (err, files, State()) == Set(host, old(files), old(State()), services, failure, mtime)
    {
      var path := WritablePath(host.env);
      if path != "" {
        if failure.Some? {
          return failure;
        }
        files := files[path := FileEntry(mtime, Some(host.encode(services)))];
        fileCache := [];
        fileCachePath := "";
        return None;
      }
      configMemory := Some(services);
      return None;
    }

    /** `PipelineNamesURLs()`: load, then pair each service's name with its URL. */
    method PipelineNamesURLs() returns (pairs: seq<(string, string)>)
      modifies this
      ensures files == old(files)
      ensures var (svc, st) := Load(host, files, old(State()));
              pairs == NamesURLs(svc) && State() == st
    {
      var svc := LoadPipeline();
      pairs := [];
      var i := 0;
      while i < |svc|
        invariant 0 <= i <= |svc|
        invariant pairs == NamesURLs(svc[..i])
      {
        assert svc[..i + 1][..i] == svc[..i];
        pairs := pairs + [(svc[i].name, svc[i].url)];
        i := i + 1;
      }
      assert svc[..|svc|] == svc;
    }
  }
}
