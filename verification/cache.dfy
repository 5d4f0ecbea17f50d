/** The memoising file cache `FileCache`: an in-memory index `history` from call
    pattern to result-file path, persisted as `history.json`, and one JSON result
    file per call pattern. The filesystem is the `Disk` object below; the
    wrapped function is a value of type `Wrapped`. */
module Cache {
  import opened Results
  import opened Patterns

  /** A JSON document as `json.load` returns it. Floats are opaque; objects are
      keyed by string as JSON requires. */
  datatype Json =
    | JNull
    | JBool(b: bool)
    | JInt(i: int)
    | JFloat(text: string)
    | JString(s: string)
    | JArray(items: seq<Json>)
    | JObject(fields: map<string, Json>)

  /** What one call of the wrapped function does: return a value or raise. */
  datatype Outcome = Returned(value: Json) | Raised(error: string)

  /** The wrapped function, seen from the cache: its arguments decide its outcome. */
  type Wrapped = (seq<Arg>, seq<Kwarg>) -> Outcome

  datatype CacheError =
    | BadKey(reason: PatternError)   // `make_call_pattern` raised
    | MissMultipleValues(name: string) // calling `cache_miss` raised: a keyword clashes with its parameters
    | Propagated(error: string)      // the wrapped function raised
    | CorruptIndex                   // `history.json` is not an object of strings

  /** What `os.path.join` puts before a relative name: the directory, with a
      separator added unless it is empty or already ends in one. */
  function DirPrefix(dir: string): (r: string)
    ensures |dir| <= |r| <= |dir| + 1 && r[..|dir|] == dir
    ensures r == [] <==> dir == []
    ensures r != [] ==> r[|r| - 1] == '/'
    ensures dir != [] && dir[|dir| - 1] == '/' ==> r == dir
  {
    if dir == [] || dir[|dir| - 1] == '/' then dir else dir + "/"
  }

  /** `os.path.join(dir, name)` for a relative `name`. */
  function PathJoin(dir: string, name: string): (r: string)
  {
    DirPrefix(dir) + name
  }

  /** The default `dir_name` of `FileCache.__init__`. */
  const DefaultDirName: string := "file_cache"

  /** The parameters of `cache_miss(self, call_pattern, func, *args, **kwargs)`
      that the call at the end of `inner` fills positionally. */
  const MissParams: set<string> := {"self", "call_pattern", "func"}

  const IndexName: string := "history.json"

  /** `os.path.join(working_dir, call_pattern + ".json")`: where a result is stored. */
  function ResultPath(workingDir: string, pattern: string): string
  {
    PathJoin(workingDir, pattern + ".json")
  }

  /** The document `json.dump(self.history, file)` writes. */
  function IndexJson(history: map<string, string>): (doc: Json)
    ensures doc.JObject? && doc.fields.Keys == history.Keys
    ensures forall k :: k in history ==> doc.fields[k] == JString(history[k])
  {
    JObject(map k | k in history :: JString(history[k]))
  }

  /** Reading `history.json` back into an index; `None` unless it is an object
      whose values are all strings. */
  function DecodeIndex(doc: Json): (r: Option<map<string, string>>)
    ensures r.Some? <==> doc.JObject? && forall k :: k in doc.fields ==> doc.fields[k].JString?
    ensures r.Some? ==> r.value.Keys == doc.fields.Keys
    ensures r.Some? ==> forall k :: k in r.value ==> doc.fields[k] == JString(r.value[k])
  {
    if doc.JObject? && forall k :: k in doc.fields ==> doc.fields[k].JString? then
      Some(map k | k in doc.fields :: doc.fields[k].s)
    else
      None
  }

  /** Writing the index and reading it back gives the same index. */
  lemma IndexRoundTrip(history: map<string, string>)
    ensures DecodeIndex(IndexJson(history)) == Some(history)
  {
    var doc := IndexJson(history);
    assert forall k :: k in doc.fields ==> doc.fields[k].JString?;
    var back := map k | k in doc.fields :: doc.fields[k].s;
    assert back.Keys == history.Keys;
    assert forall k :: k in back ==> back[k] == history[k];
    assert back == history;
  }

  /** Every document that decodes as an index is the one that index writes. */
  lemma DecodedIndexIsWritten(doc: Json, history: map<string, string>)
    requires DecodeIndex(doc) == Some(history)
    ensures IndexJson(history) == doc
  {
  }

  /** Hit condition of `inner`: the pattern is indexed and its file exists. */
  predicate IsHit(history: map<string, string>, files: map<string, Json>, pattern: string)
  {
    pattern in history && history[pattern] in files
  }

  /** What one call of the memoised function produces: its result, whether the
      wrapped function ran, and the index and files afterwards. */
  datatype Response = Response(
    result: Result<Json, CacheError>,
    invoked: bool,
    history: map<string, string>,
    files: map<string, Json>)

  /** The hit/miss protocol of `inner` over an index and a file store. Nothing
      is ever removed; the index and files change only when the wrapped function
      ran and returned. */
  function Serve(history: map<string, string>, files: map<string, Json>, workingDir: string,
                 name: string, func: Wrapped, args: seq<Arg>, kwargs: seq<Kwarg>): (r: Response)
    ensures history.Keys <= r.history.Keys && files.Keys <= r.files.Keys
    ensures !(r.invoked && r.result.Ok?) ==> r.history == history && r.files == files
  {
    match MakeCallPattern(name, args, kwargs)
    case Err(e) => Response(Err(BadKey(e)), false, history, files)
    case Ok(pattern) =>
      if IsHit(history, files, pattern) then
        Response(Ok(files[history[pattern]]), false, history, files)
      else if FirstClash(kwargs, MissParams).Some? then
        Response(Err(MissMultipleValues(FirstClash(kwargs, MissParams).value)), false, history, files)
      else
        match func(args, kwargs)
        case Raised(e) => Response(Err(Propagated(e)), true, history, files)
        case Returned(v) =>
          var fp := ResultPath(workingDir, pattern);
          var h := history[pattern := fp];
          Response(Ok(v), true, h, files[fp := v][PathJoin(workingDir, IndexName) := IndexJson(h)])
  }

  /** A result file never lands on the index file: a pattern ends in `)`, while
      `history` ends in `y`. */
  lemma ResultPathNotIndex(workingDir: string, pattern: string)
    requires pattern != [] && pattern[|pattern| - 1] == ')'
    ensures ResultPath(workingDir, pattern) != PathJoin(workingDir, IndexName)
  {
    var rp := ResultPath(workingDir, pattern);
    var ip := PathJoin(workingDir, IndexName);
    var n := |DirPrefix(workingDir)|;
    if |rp| == |ip| {
      assert |pattern| == 7;
      assert rp[n + 6] == ')';
      assert ip[n + 6] == 'y';
    }
  }

  /** Distinct patterns are stored in distinct files. */
  lemma ResultPathInjective(workingDir: string, p: string, q: string)
    requires ResultPath(workingDir, p) == ResultPath(workingDir, q)
    ensures p == q
  {
    var rp, rq := ResultPath(workingDir, p), ResultPath(workingDir, q);
    var n := |DirPrefix(workingDir)|;
    assert |p| == |q|;
    forall i | 0 <= i < |p| ensures p[i] == q[i] {
      assert rp[n + i] == p[i];
      assert rq[n + i] == q[i];
    }
  }

  /** Hit: the stored document is returned, the wrapped function does not run,
      and neither the index nor the files change. */
  lemma HitReturnsStored(history: map<string, string>, files: map<string, Json>, workingDir: string,
                         name: string, func: Wrapped, args: seq<Arg>, kwargs: seq<Kwarg>)
    requires MakeCallPattern(name, args, kwargs).Ok?
    requires IsHit(history, files, MakeCallPattern(name, args, kwargs).value)
    ensures var r := Serve(history, files, workingDir, name, func, args, kwargs);
            && r.result == Ok(files[history[MakeCallPattern(name, args, kwargs).value]])
            && !r.invoked && r.history == history && r.files == files
  {
  }

  /** Miss (no entry, or an entry whose file is gone) with a returning function:
      it runs once, its value is stored under the pattern's own file name, the
      index gains or overwrites exactly that entry and is persisted, and nothing
      else changes. */
  lemma MissStoresResult(history: map<string, string>, files: map<string, Json>, workingDir: string,
                         name: string, func: Wrapped, args: seq<Arg>, kwargs: seq<Kwarg>)
    requires MakeCallPattern(name, args, kwargs).Ok?
    requires !IsHit(history, files, MakeCallPattern(name, args, kwargs).value)
    requires FirstClash(kwargs, MissParams).None?
    requires func(args, kwargs).Returned?
    ensures var p := MakeCallPattern(name, args, kwargs).value;
            var v := func(args, kwargs).value;
            var fp := ResultPath(workingDir, p);
            var ip := PathJoin(workingDir, IndexName);
            var r := Serve(history, files, workingDir, name, func, args, kwargs);
            && r.result == Ok(v) && r.invoked
            && r.history.Keys == history.Keys + {p} && r.history[p] == fp
            && (forall q :: q in history && q != p ==> r.history[q] == history[q])
            && r.files.Keys == files.Keys + {fp, ip} && r.files[fp] == v
            && (forall f :: f in files && f != fp && f != ip ==> r.files[f] == files[f])
            && DecodeIndex(r.files[ip]) == Some(r.history)
  {
    var p := MakeCallPattern(name, args, kwargs).value;
    ResultPathNotIndex(workingDir, p);
    IndexRoundTrip(history[p := ResultPath(workingDir, p)]);
  }

  /** A raising wrapped function leaves no trace: the error propagates and the
      index and files are as before. */
  lemma FailureChangesNothing(history: map<string, string>, files: map<string, Json>, workingDir: string,
                              name: string, func: Wrapped, args: seq<Arg>, kwargs: seq<Kwarg>)
    requires MakeCallPattern(name, args, kwargs).Ok?
    requires !IsHit(history, files, MakeCallPattern(name, args, kwargs).value)
    requires FirstClash(kwargs, MissParams).None?
    requires func(args, kwargs).Raised?
    ensures var r := Serve(history, files, workingDir, name, func, args, kwargs);
            && r.result == Err(Propagated(func(args, kwargs).error))
            && r.invoked && r.history == history && r.files == files
  {
  }

  /** A key that cannot be built (a keyword named `self` or `func`, a positional
      `int` or `float`, or an `int` keyword value too long to render) fails
      before anything is looked up or called. */
  lemma KeyErrorChangesNothing(history: map<string, string>, files: map<string, Json>, workingDir: string,
                               name: string, func: Wrapped, args: seq<Arg>, kwargs: seq<Kwarg>)
    requires || (exists a :: a in args && BreaksJoin(a))
             || FirstClash(kwargs, KeyParams).Some?
             || (exists kw :: kw in kwargs && TooManyDigits(kw.value))
    ensures var r := Serve(history, files, workingDir, name, func, args, kwargs);
            && r.result == Err(BadKey(MakeCallPattern(name, args, kwargs).error))
            && !r.invoked && r.history == history && r.files == files
  {
  }

  /** A keyword named `call_pattern` never lets the wrapped function run and
      nothing is written. When the key builds, a miss fails at the call of
      `cache_miss` itself, while a hit still succeeds. */
  lemma MissClashChangesNothing(history: map<string, string>, files: map<string, Json>, workingDir: string,
                                name: string, func: Wrapped, args: seq<Arg>, kwargs: seq<Kwarg>)
    requires FirstClash(kwargs, MissParams).Some?
    ensures var r := Serve(history, files, workingDir, name, func, args, kwargs);
            && (MakeCallPattern(name, args, kwargs).Ok? ==>
                  && (IsHit(history, files, MakeCallPattern(name, args, kwargs).value) ==> r.result.Ok?)
                  && (!IsHit(history, files, MakeCallPattern(name, args, kwargs).value) ==>
                        r.result == Err(MissMultipleValues("call_pattern"))))
            && !r.invoked && r.history == history && r.files == files
  {
  }

  /** The wrapped function runs exactly when the key can be built, the call is
      not a hit, and `cache_miss` can be called with the call's keywords. */
  lemma InvokedIffMiss(history: map<string, string>, files: map<string, Json>, workingDir: string,
                       name: string, func: Wrapped, args: seq<Arg>, kwargs: seq<Kwarg>)
    ensures Serve(history, files, workingDir, name, func, args, kwargs).invoked
        <==> MakeCallPattern(name, args, kwargs).Ok?
             && !IsHit(history, files, MakeCallPattern(name, args, kwargs).value)
             && FirstClash(kwargs, MissParams).None?
  {
  }

  /** After a successful call, the same call again is a hit: the wrapped
      function does not run and the first result comes back. */
  lemma RepeatCallHits(history: map<string, string>, files: map<string, Json>, workingDir: string,
                       name: string, func: Wrapped, args: seq<Arg>, kwargs: seq<Kwarg>)
    requires Serve(history, files, workingDir, name, func, args, kwargs).result.Ok?
    ensures var first := Serve(history, files, workingDir, name, func, args, kwargs);
            var second := Serve(first.history, first.files, workingDir, name, func, args, kwargs);
            && !second.invoked && second.result == first.result
            && second.history == first.history && second.files == first.files
  {
    var p := MakeCallPattern(name, args, kwargs).value;
    if !IsHit(history, files, p) {
      MissStoresResult(history, files, workingDir, name, func, args, kwargs);
    }
  }

  /** Two calls that differ only in a positional argument the key drops share
      one cache entry: after the first succeeds, the second returns its result
      without running the wrapped function. */
  lemma DroppedArgCallsShareEntry(history: map<string, string>, files: map<string, Json>, workingDir: string,
                                  name: string, func: Wrapped, pre: seq<Arg>, x: Arg, y: Arg, post: seq<Arg>,
                                  kwargs: seq<Kwarg>)
    requires !PassesFilter(x) && !PassesFilter(y)
    requires Serve(history, files, workingDir, name, func, pre + [x] + post, kwargs).result.Ok?
    ensures var first := Serve(history, files, workingDir, name, func, pre + [x] + post, kwargs);
            var second := Serve(first.history, first.files, workingDir, name, func, pre + [y] + post, kwargs);
            !second.invoked && second.result == first.result
  {
    DroppedArgsCollide(name, pre, x, y, post, kwargs);
    var p := MakeCallPattern(name, pre + [x] + post, kwargs).value;
    if !IsHit(history, files, p) {
      MissStoresResult(history, files, workingDir, name, func, pre + [x] + post, kwargs);
    }
  }

  /** Deleting an indexed pattern's result file forces a refresh: the next call
      runs the wrapped function and, if it returns, recreates the file and
      re-points the index entry. */
  lemma DeletionForcesRefresh(history: map<string, string>, files: map<string, Json>, workingDir: string,
                              name: string, func: Wrapped, args: seq<Arg>, kwargs: seq<Kwarg>)
    requires MakeCallPattern(name, args, kwargs).Ok?
    requires MakeCallPattern(name, args, kwargs).value in history
    requires FirstClash(kwargs, MissParams).None?
    requires func(args, kwargs).Returned?
    ensures var p := MakeCallPattern(name, args, kwargs).value;
            var r := Serve(history, files - {history[p]}, workingDir, name, func, args, kwargs);
            && r.invoked && r.result == Ok(func(args, kwargs).value)
            && r.history[p] == ResultPath(workingDir, p)
            && IsHit(r.history, r.files, p) && r.files[r.history[p]] == func(args, kwargs).value
  {
    MissStoresResult(history, files - {history[MakeCallPattern(name, args, kwargs).value]},
                     workingDir, name, func, args, kwargs);
  }

  /** A miss for one pattern keeps every other pattern that the cache itself
      stored a hit with the same value. */
  lemma OtherEntriesStayHits(history: map<string, string>, files: map<string, Json>, workingDir: string,
                             name: string, func: Wrapped, args: seq<Arg>, kwargs: seq<Kwarg>, q: string)
    requires MakeCallPattern(name, args, kwargs).Ok? && q != MakeCallPattern(name, args, kwargs).value
    requires q != [] && q[|q| - 1] == ')'
    requires IsHit(history, files, q) && history[q] == ResultPath(workingDir, q)
    ensures var r := Serve(history, files, workingDir, name, func, args, kwargs);
            IsHit(r.history, r.files, q) && r.files[r.history[q]] == files[history[q]]
  {
    var p := MakeCallPattern(name, args, kwargs).value;
    ResultPathNotIndex(workingDir, q);
    if ResultPath(workingDir, q) == ResultPath(workingDir, p) {
      ResultPathInjective(workingDir, q, p);
    }
    var r := Serve(history, files, workingDir, name, func, args, kwargs);
    if r.invoked && r.result.Ok? {
      InvokedIffMiss(history, files, workingDir, name, func, args, kwargs);
      MissStoresResult(history, files, workingDir, name, func, args, kwargs);
    }
  }

  /** The filesystem seen by the cache: existing directories and the parsed
      contents of existing files. */
  class Disk {
    var dirs: set<string>
    var files: map<string, Json>

    /** `os.mkdir(path)`. */
    method MakeDir(path: string)
      modifies this
      ensures dirs == old(dirs) + {path} && files == old(files)
    {
      dirs := dirs + {path};
    }

    /** `open(path, "w")` followed by `json.dump(content, file)`. */
    method Write(path: string, content: Json)
      modifies this
      ensures files == old(files)[path := content] && dirs == old(dirs)
    {
      files := files[path := content];
    }

    /** `open(path, "r")` followed by `json.load(file)`. */
    method Read(path: string) returns (content: Json)
      requires path in files
      ensures content == files[path]
    {
      content := files[path];
    }
  }

  /** `load_history`: create the directory and an empty index if missing, else
      read the index that is there. */
  method LoadHistory(disk: Disk, workingDir: string, historyFp: string)
    returns (r: Result<map<string, string>, CacheError>)
    modifies disk
    ensures disk.dirs == old(disk.dirs) + {workingDir}
    ensures historyFp !in old(disk.files) ==>
              r == Ok(map[]) && disk.files == old(disk.files)[historyFp := JObject(map[])]
    ensures historyFp in old(disk.files) ==> disk.files == old(disk.files)
    ensures historyFp in old(disk.files) ==>
              match DecodeIndex(old(disk.files)[historyFp])
              case Some(h) => r == Ok(h)
              case None => r == Err(CorruptIndex)
  {
    if workingDir !in disk.dirs {
      disk.MakeDir(workingDir);
    }
    if historyFp !in disk.files {
      disk.Write(historyFp, JObject(map[]));
      return Ok(map[]);
    }
    var doc := disk.Read(historyFp);
    match DecodeIndex(doc)
    case Some(h) => r := Ok(h);
    case None => r := Err(CorruptIndex);
  }

  /** `FileCache(dir_name)` with the current directory `cwd`: resolve the
      working directory, then load the index; a failed load fails construction.
      `FileCache()` is `Open(cwd, disk)`, with `dirName` left at its default. */
  method Open(cwd: string, disk: Disk, dirName: string := DefaultDirName) returns (r: Result<FileCache, CacheError>)
    modifies disk
    ensures var workingDir := PathJoin(cwd, dirName);
            var historyFp := PathJoin(workingDir, IndexName);
            && disk.dirs == old(disk.dirs) + {workingDir}
            && historyFp in disk.files
            && (historyFp in old(disk.files) ==> disk.files == old(disk.files))
            && (historyFp !in old(disk.files) ==> disk.files == old(disk.files)[historyFp := IndexJson(map[])])
            && (r.Ok? <==> DecodeIndex(disk.files[historyFp]).Some?)
            && (r.Ok? ==> fresh(r.value) && r.value.Valid() && r.value.disk == disk
                          && r.value.workingDir == workingDir
                          && r.value.history == DecodeIndex(disk.files[historyFp]).value)
  {
    var workingDir := PathJoin(cwd, dirName);
    var historyFp := PathJoin(workingDir, IndexName);
    var loaded := LoadHistory(disk, workingDir, historyFp);
    assert IndexJson(map[]) == JObject(map[]);
    IndexRoundTrip(map[]);
    match loaded
    case Err(e) => r := Err(e);
    case Ok(h) =>
      var cache := new FileCache(workingDir, disk, h);
      r := Ok(cache);
  }

  class FileCache {
    const workingDir: string
    const historyFp: string
    var history: map<string, string>   // call pattern -> result file path
    const disk: Disk

    ghost predicate Valid()
    {
      historyFp == PathJoin(workingDir, IndexName)
    }

    /** The fields `__init__` sets, given the index `load_history` returned. */
    constructor (workingDir: string, disk: Disk, history: map<string, string>)
      ensures Valid() && this.workingDir == workingDir && this.disk == disk && this.history == history
    {
      this.workingDir := workingDir;
      this.historyFp := PathJoin(workingDir, IndexName);
      this.history := history;
      this.disk := disk;
    }

    /** `update_history`: last write wins for `pattern`, other entries stay, and
        the index file is rewritten to hold exactly the in-memory index. */
    method UpdateHistory(pattern: string, fp: string)
      modifies this, disk
      ensures history == old(history)[pattern := fp]
      ensures disk.files == old(disk.files)[historyFp := IndexJson(history)]
      ensures DecodeIndex(disk.files[historyFp]) == Some(history)
      ensures disk.dirs == old(disk.dirs)
    {
      history := history[pattern := fp];
      disk.Write(historyFp, IndexJson(history));
      IndexRoundTrip(history);
    }

    /** `cache_hit`: the stored document at `fp`. */
    method CacheHit(fp: string) returns (v: Json)
      requires fp in disk.files
      ensures v == disk.files[fp]
    {
      v := disk.Read(fp);
    }

    /** `cache_miss`: binding its arguments fails on a keyword named like one of
        its parameters; otherwise run the function first, and write and index only
        a returned value. `invoked` says whether `func` ran. */
    method CacheMiss(pattern: string, func: Wrapped, args: seq<Arg>, kwargs: seq<Kwarg>)
      returns (r: Result<Json, CacheError>, invoked: bool)
      requires Valid()
      modifies this, disk
      ensures disk.dirs == old(disk.dirs)
      ensures invoked <==> FirstClash(kwargs, MissParams).None?
      ensures FirstClash(kwargs, MissParams).Some? ==>
                r == Err(MissMultipleValues(FirstClash(kwargs, MissParams).value))
                && history == old(history) && disk.files == old(disk.files)
      ensures FirstClash(kwargs, MissParams).None? ==>
              match func(args, kwargs)
              case Raised(e) =>
                r == Err(Propagated(e)) && history == old(history) && disk.files == old(disk.files)
              case Returned(v) =>
                var fp := ResultPath(workingDir, pattern);
                && r == Ok(v)
                && history == old(history)[pattern := fp]
                && disk.files == old(disk.files)[fp := v][historyFp := IndexJson(history)]
    {
      var clash := FirstClash(kwargs, MissParams);
      if clash.Some? {
        return Err(MissMultipleValues(clash.value)), false;
      }
      invoked := true;
      var outcome := func(args, kwargs);
      match outcome
      case Raised(e) =>
        r := Err(Propagated(e));
      case Returned(v) =>
        var fp := PathJoin(workingDir, pattern + ".json");
        disk.Write(fp, v);
        UpdateHistory(pattern, fp);
        r := Ok(v);
    }

    /** `cached(func)` applied to one call, i.e. `inner(*args, **kwargs)`; `name`
        is `func.__name__` and `invoked` says whether `func` ran. */
    method Call(name: string, func: Wrapped, args: seq<Arg>, kwargs: seq<Kwarg>)
      returns (r: Result<Json, CacheError>, invoked: bool)
      requires Valid()
      modifies this, disk
      ensures var s := Serve(old(history), old(disk.files), workingDir, name, func, args, kwargs);
              r == s.result && invoked == s.invoked && history == s.history && disk.files == s.files
      ensures disk.dirs == old(disk.dirs)
    {
      var key := MakeCallPattern(name, args, kwargs);
      if key.Err? {
        return Err(BadKey(key.error)), false;
      }
      var pattern := key.value;
      if pattern in history {
        var fp := history[pattern];
        if fp in disk.files {
          var v := CacheHit(fp);
          return Ok(v), false;
        }
      }
      r, invoked := CacheMiss(pattern, func, args, kwargs);
    }
  }
}
