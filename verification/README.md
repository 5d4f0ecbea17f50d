# QnD file cache and structure flattener — a Dafny model

This project models the two independent components of a small Python utility
repository and proves properties of the model:

* **`FileCache`** (`QnDFileCache.py`): memoisation of function calls on disk. A
  call is turned into a human-readable *call pattern* such as `f(x, k=3)`. The
  cache keeps an in-memory *index* (`history`, call pattern → result-file path),
  persisted as `history.json` in the cache directory, and one result file
  `<pattern>.json` per cached call. A call is a *hit* when its pattern is indexed
  and the indexed file exists; otherwise it is a *miss*: the wrapped function
  runs, its result is written, and the index entry is written and the whole index
  saved. Deleting a result file forces the next call to refresh it.
* **`flatten`** (`flatten.py`): a recursive walk over a nested structure of
  scalars, dicts and lists that writes `dotted.path → scalar` entries into one
  accumulator dict. List elements do not extend the path, so they overwrite each
  other; any other kind of value raises `ValueError`.

Files:

* `results.dfy` — `Option` and `Result`, standing in for Python's exceptions.
* `text.dfy` — `Join` (`str.join`) and `DecimalText` (`str(int)`).
* `patterns.dfy` — module `Patterns`: `make_call_pattern` as the function
  `MakeCallPattern` over typed arguments, with lemmas on what enters the key.
* `cache.dfy` — module `Cache`: JSON documents, the filesystem as the class
  `Disk` (`dirs`, `files : path → document`), the class `FileCache` with its
  methods (`load_history`, `update_history`, `cache_hit`, `cache_miss`, and
  `inner` as `Call`), and `Serve`, the hit/miss protocol as a function of the
  index, the files and the call. `FileCache.Call` is proved to produce exactly
  what `Serve` describes; the lemmas about `Serve` state the protocol's
  properties.
* `flatten.dfy` — module `Flatten`: the walk as the specification function `Flat`
  (with `FlatEntries` for the dict loop and `FlatItems` for the list loop), the
  accumulator as the class `FlatDict`, and `_flatten` as the recursive method
  `FlattenInto` whose loops are proved against `Flat`.

Where the prose description of the cache and its code disagree, the model follows
the code:

* The positional filter is `type(arg) in [str, int, float]`, an exact-type test,
  so `bool` positional arguments are dropped from the key (they are not rendered
  as scalars).
* An `int` or `float` positional argument passes the filter and then makes
  `", ".join` raise `TypeError`; the model returns `Err(JoinTypeError)` and the
  wrapped function is not called. The call `my_expensive_call(1234, foo="bar")`
  in the docstring of `make_call_pattern` therefore raises instead of giving the
  key shown there (`IntArgumentFails`); that key text is still produced by other
  calls, such as `my_expensive_call("1234", foo='"bar"')`
  (`DocumentedKeyReachable`), since keyword values are rendered without quotes.
* Rendering a keyword value with `str()` raises `ValueError` for an `int` of more
  than 4300 decimal digits (CPython's default `sys.int_max_str_digits`); the
  model returns `Err(DigitLimit)` and no key is built (`HugeIntKwargFails`).
* With keyword arguments present, `", "` is emitted before them even when no
  positional text precedes it (`f(, k=v)`).
* A keyword argument named `self` or `func` clashes with the parameters of
  `make_call_pattern`, and on a miss one named `call_pattern` clashes with the
  parameters of `cache_miss`; Python then raises `TypeError` ("got multiple
  values for argument") before the wrapped function runs, and so does the model.

`make_call_pattern` is deterministic in the model by construction: it is a Dafny
function of the name, the positional arguments and the keyword arguments. The
caller's `parents` list in `_flatten` is never changed because paths are sequence
values; the copies `parents[:]` become plain sequence expressions. The default
directory name of `FileCache()` is the constant `DefaultDirName`, the default value of `Open`'s `dirName` parameter.

## Model

| member | source | states |
|---|---|---|
| `Patterns.MakeCallPattern` | QnDFileCache.py:60-79 | a pattern is produced exactly when no keyword is named `self` or `func`, no positional `int`/`float` reaches the join and no keyword `int` exceeds the 4300-digit limit; a clashing keyword gives the binding error, and the digit-limit error is given exactly when it is the only obstacle; a pattern always starts with `name(` and ends with `)` |
| `Patterns.FirstClash` | QnDFileCache.py:60 | finds a keyword argument named like an already-bound parameter exactly when there is one, and reports the first in call order |
| `Patterns.KeywordClashFails` | QnDFileCache.py:60 | a keyword named `func` fails key building with "multiple values", whatever the positional arguments and the later keywords, when no earlier keyword is named `self` or `func` |
| `Patterns.Kept` | QnDFileCache.py:73 | the comprehension keeps exactly the arguments whose exact type is `str`, `int` or `float` |
| `Patterns.KeptAppend` | QnDFileCache.py:73 | the filter keeps the call order of the positional arguments |
| `Patterns.PositionalText` | QnDFileCache.py:72-73 | `", ".join` of the kept arguments succeeds exactly when none of them is an `int` or `float` |
| `Patterns.KeptIgnoresDropped` | QnDFileCache.py:72-73 | a `bool`, `None`, dict, list or other object among the positional arguments leaves no trace in the kept list |
| `Patterns.OnlyKeptArgsMatter` | QnDFileCache.py:72-77 | the pattern depends on the positional arguments only through the kept ones |
| `Patterns.DroppedArgsCollide` | QnDFileCache.py:72-73 | two calls differing only in one dropped positional argument get the same pattern |
| `Patterns.StringArgsPattern` | QnDFileCache.py:72-77 | string positional arguments without keywords give `name(` + their `", "`-join in call order + `)` |
| `Patterns.MixedArgsPattern` | QnDFileCache.py:72-77 | kept positional strings and keyword arguments together give `name(` + the strings' join + `", "` + the keyword text + `)`, whatever dropped arguments surround them |
| `Patterns.KwargsOnlyPattern` | QnDFileCache.py:74-77 | with keyword arguments and no kept positional one the pattern is `name(, k=v, ...)` |
| `Patterns.KwargsInOrder` | QnDFileCache.py:76 | keyword arguments are rendered `k=v` in the order received, separated by `", "` |
| `Patterns.IntArgumentFails` | QnDFileCache.py:65-73 | the docstring's example call with a positional `1234` fails with a `TypeError` instead of giving the key shown there |
| `Patterns.PassesFilter` | QnDFileCache.py:73 | the definition of the filter `type(arg) in [str, int, float]`, an exact-type test |
| `Patterns.BreaksJoin` | QnDFileCache.py:73 | the definition of the arguments that pass the filter but are not `str`, which `", ".join` rejects |
| `Patterns.TooManyDigits` | QnDFileCache.py:76 | the definition of a keyword value whose rendering raises `ValueError`: an `int` of more than 4300 digits, sign not counted |
| `Patterns.KwargItem` | QnDFileCache.py:76 | the definition of one item `f"{k}={v}"` |
| `Text.Join` | QnDFileCache.py:73 | the definition of `sep.join(parts)`, used at lines 73 and 76 and for the dotted keys of flatten.py:23 |
| `Text.DecimalText` | QnDFileCache.py:76 | the definition of `str(i)` for an `int`: a minus sign for negatives, then the decimal digits, most significant first |
| `Patterns.Render` | QnDFileCache.py:76 | the definition of the f-string rendering `{v}`: `str(v)` for each argument type, decimal digits for an `int`, `True`/`False`, `None`, the string itself unquoted |
| `Patterns.KwargText` | QnDFileCache.py:74-76 | the definition of `", ".join(f"{k}={v}" ...)` over the keyword arguments in the order received |
| `Patterns.HugeIntKwargFails` | QnDFileCache.py:76 | an `int` keyword value of magnitude at least `10 ** 4300` makes an otherwise valid call fail with the digit-limit `ValueError`, building no key |
| `Patterns.DocumentedKeyReachable` | QnDFileCache.py:65-68 | the key text shown in the docstring is produced by the call with the string `"1234"` and the keyword value `'"bar"'` |
| `Patterns.ExamplePattern` | QnDFileCache.py:70-79 | a worked key: the `bool` is dropped and `k=3` is rendered unquoted, giving `f(x, k=3)` |
| `Patterns.CommaInArgumentCollides` | QnDFileCache.py:73-77 | no escaping: `f("a, b")` and `f("a", "b")` have the same pattern |
| `Cache.DirPrefix` | QnDFileCache.py:25-26 | what `os.path.join` puts before a relative name: the directory followed by at most one added character, a `/`; empty exactly when the directory is, always ending in `/` otherwise, and the directory itself when it already ends in `/` |
| `Cache.PathJoin` | QnDFileCache.py:53-54 | the definition of `os.path.join(dir, name)` for a relative name: `DirPrefix(dir)` followed by `name` |
| `Cache.ResultPath` | QnDFileCache.py:53-54 | the definition of the result file of a pattern: `os.path.join(working_dir, call_pattern + ".json")` |
| `Cache.IndexJson` | QnDFileCache.py:44-45 | the document `json.dump(self.history)` writes: an object with the index's keys, each mapped to its path as a JSON string |
| `Cache.DecodeIndex` | QnDFileCache.py:38-39 | reading `history.json` as an index succeeds exactly on an object whose values are all strings, and gives back those keys and strings |
| `Cache.IsHit` | QnDFileCache.py:88-90 | the definition of the hit test: the pattern is in the index and the file it points to exists |
| `Cache.Serve` | QnDFileCache.py:86-92 | the hit/miss protocol of `inner`: no index entry and no file is ever removed, and index and files change only when the function ran and returned |
| `Cache.IndexRoundTrip` | QnDFileCache.py:38-45 | the index written by `json.dump` reads back as the same index |
| `Cache.DecodedIndexIsWritten` | QnDFileCache.py:38-39 | every `history.json` that loads as an index is exactly what that index writes |
| `Cache.ResultPathNotIndex` | QnDFileCache.py:53-54 | a result file (pattern ending in `)`) never coincides with `history.json` |
| `Cache.ResultPathInjective` | QnDFileCache.py:53-54 | distinct patterns are stored in distinct result files |
| `Cache.HitReturnsStored` | QnDFileCache.py:88-91 | on a hit the stored document is returned, the function does not run, index and files are unchanged |
| `Cache.MissStoresResult` | QnDFileCache.py:51-58 | on a miss the function runs, its value is stored at `pattern.json`, only that index entry is added or overwritten, the saved index equals the new index, and no other file changes |
| `Cache.FailureChangesNothing` | QnDFileCache.py:51-52 | if the function raises, the error propagates and neither index nor files change |
| `Cache.KeyErrorChangesNothing` | QnDFileCache.py:86-87 | a key that cannot be built (clashing keyword, positional `int`/`float`, over-long keyword `int`) fails with that error before any lookup or call, changing nothing |
| `Cache.MissClashChangesNothing` | QnDFileCache.py:86-92 | with a keyword named `call_pattern` the function never runs and nothing changes; when the key builds, a hit still succeeds while a miss fails calling `cache_miss` |
| `Cache.InvokedIffMiss` | QnDFileCache.py:86-92 | the function runs exactly when the key is built, the call is not a hit and no keyword clashes with `cache_miss`'s parameters |
| `Cache.RepeatCallHits` | QnDFileCache.py:86-92 | after a successful call, the identical call is a hit returning the same value without running the function |
| `Cache.DroppedArgCallsShareEntry` | QnDFileCache.py:86-92 | a call differing only in a dropped argument returns the first call's cached result without running the function |
| `Cache.DeletionForcesRefresh` | QnDFileCache.py:88-92 | deleting an indexed result file makes the next call run the function, recreate the file and re-point the entry |
| `Cache.OtherEntriesStayHits` | QnDFileCache.py:51-58 | a miss for one pattern keeps every other cache-written entry a hit with its old value |
| `Cache.Disk.MakeDir` | QnDFileCache.py:30-31 | `os.mkdir` adds the directory and leaves the files unchanged |
| `Cache.Disk.Write` | QnDFileCache.py:55-56 | opening a file for writing and `json.dump`ing into it (also lines 34-35 and 44-45) replaces or creates exactly that file and nothing else |
| `Cache.Disk.Read` | QnDFileCache.py:48-49 | opening an existing file and `json.load`ing it (also lines 38-39) returns the stored document |
| `Cache.LoadHistory` | QnDFileCache.py:29-39 | creates the directory if missing; with no index file writes `{}` and returns an empty index, otherwise returns the decoded index or fails, leaving files unchanged |
| `Cache.Open` | QnDFileCache.py:24-27 | resolves `cwd/dir_name` (with `dir_name` defaulting to `"file_cache"`) and `history.json` inside it, loads the index and builds the cache only if the load succeeds |
| `Cache.FileCache.constructor` | QnDFileCache.py:24-27 | sets the working directory, the index path inside it and the loaded index |
| `Cache.FileCache.UpdateHistory` | QnDFileCache.py:41-45 | last write wins for one key, other keys stay, and the index file then holds exactly the in-memory index |
| `Cache.FileCache.CacheHit` | QnDFileCache.py:47-49 | returns the document stored at the path |
| `Cache.FileCache.CacheMiss` | QnDFileCache.py:51-58 | reports whether it ran the function; a keyword clashing with its parameters fails before anything runs; otherwise runs the function first; a raised error changes nothing, a returned value is written to `pattern.json` and indexed |
| `Cache.FileCache.Call` | QnDFileCache.py:81-92 | one call of the decorated function: result, whether the function ran, new index and new files are those of the hit/miss protocol `Serve` |
| `Flatten.IsScalar` | flatten.py:22 | the definition of `isinstance(obj, (NoneType, bool, int, float, str))` |
| `Flatten.PathKey` | flatten.py:23 | the definition of `".".join(parents)` |
| `Flatten.Flat` | flatten.py:22-40 | the definition of `_flatten` on values: scalars are written at the joined path, dicts and lists are walked by the two loops, any other value stops the walk with `ValueError` keeping the accumulator as it is |
| `Flatten.FlatEntries` | flatten.py:26-31 | the definition of the dict loop: each value in dict order under `parents + [str(key)]`, stopping at the first failure |
| `Flatten.FlatItems` | flatten.py:33-37 | the definition of the list loop: each element in order under the parent's own path, stopping at the first failure |
| `Flatten.FlatSucceedsIff` | flatten.py:22-40 | the walk succeeds exactly when no value outside scalar/dict/list occurs anywhere in the structure |
| `Flatten.EntriesSucceedIff` | flatten.py:26-31 | the dict loop succeeds exactly when every value in it is flattenable |
| `Flatten.ItemsSucceedIff` | flatten.py:33-37 | the list loop succeeds exactly when every element is flattenable |
| `Flatten.FlatGrows` | flatten.py:22-43 | whether the walk finishes or stops, the accumulator never loses a key and, starting with scalars only, holds scalars only |
| `Flatten.EntriesGrow` | flatten.py:26-31 | the same for the dict loop |
| `Flatten.ItemsGrow` | flatten.py:33-37 | the same for the list loop |
| `Flatten.ScalarSetsPathKey` | flatten.py:22-24 | a scalar is written at `".".join(parents)`, which is `""` at the top level |
| `Flatten.DictEntriesInOrder` | flatten.py:26-31 | dict entries are walked in dict order, each continuing from the accumulator the previous ones left |
| `Flatten.StopsAtUnflattenable` | flatten.py:26-40 | an unflattenable dict value stops the walk with `ValueError`; the accumulator keeps what the earlier entries wrote and later entries are not visited |
| `Flatten.SingleEntryExtendsPath` | flatten.py:27-31 | a dict value is walked under `parents + [str(key)]` |
| `Flatten.ListItemsInOrder` | flatten.py:33-37 | list elements are walked in order, all under the parent's own path |
| `Flatten.ScalarListLastWins` | flatten.py:33-37 | scalars of one list share one key, so the last element's value is the one kept |
| `Flatten.EmptyContainersAddNothing` | flatten.py:26-37 | empty dicts and empty lists leave the accumulator unchanged |
| `Flatten.ListCollisionExample` | flatten.py:33-37 | `flatten({"a": [1, 2]})` is `{"a": 2}` |
| `Flatten.DocumentedExample` | flatten.py:46-49 | the documented nested example flattens to `{"a.b.c": 1, "a.b.d": 2, "a.e.f": 3, "a.e.g": 4}` |
| `Flatten.FlatDict.constructor` | flatten.py:19-20 | a fresh accumulator `out = {}` is empty |
| `Flatten.FlatDict.Put` | flatten.py:24 | `out[key] = obj` overwrites one key and keeps the others |
| `Flatten.FlattenInto` | flatten.py:11-43 | `_flatten` in place: the accumulator ends exactly as the walk leaves it, complete on success and as written up to the error on failure, and the error is reported exactly when the walk stops; no key is lost and only scalars are written |
| `Flatten.Flatten` | flatten.py:4-8 | `flatten` returns the walk from the empty path into an empty dict |

## Left out

- Real filesystem calls (`os.getcwd`, `os.mkdir`, `os.path.isdir`, `os.path.isfile`, `open`) are replaced by the `Disk` object; the current directory is a parameter of `Open`. Failing `mkdir`/`open` (permissions, missing parent directory, a pattern containing `/`) is not modelled.
- `os.path.join` is modelled for a relative second component only (a separator is added unless the directory is empty or already ends in `/`); its rule that an absolute second component replaces the first is not modelled.
- Cache.ResultPathInjective: holds because paths are compared as exact strings, with no case folding or normalisation; on a case-insensitive filesystem (the default on macOS and Windows) `f(A).json` and `f(a).json` are one file, so the property holds only on a case-sensitive filesystem.
- Cache.OtherEntriesStayHits: rests on the same exact-string path identity; on a case-insensitive filesystem a miss for one pattern can overwrite the file of another pattern differing only in case, which then stays a hit returning the wrong value.
- Deleting a result file by hand is modelled as removing it from the file store given to `Serve` (`DeletionForcesRefresh`); the deletion itself is outside the cache.
- JSON text: files hold parsed documents, so the text format, parse errors of corrupt files and JSON's own coercions (tuples becoming lists, non-string keys becoming strings) are not modelled; a stored result reads back as the value written.
- Cache.LoadHistory: an existing `history.json` that is not an object whose values are all strings makes loading fail with `CorruptIndex`. Python loads any JSON document there and fails, if at all, on later calls, which the model does not follow:
  - an object with a `bool` value or an `int` value within the range of a C `int`: `os.path.isfile` takes that value as a file descriptor, which is normally not an open regular file, so a call with that pattern is a miss that runs the function and overwrites the entry;
  - an object with an `int` value outside that range (such as `2**31`): `os.stat` raises `OverflowError`, which `os.path.isfile` does not catch, so line 90 raises on every call with that pattern, before the function runs, and the entry is never overwritten;
  - an object with a `null`, float, list or object value: `os.path.isfile` raises `TypeError` (line 90) on every call with that pattern, before the function runs, and the entry is never overwritten;
  - a list or a string: a call whose pattern is an element of the list, or a substring of the string, raises `TypeError` at `self.history[call_pattern]` (line 89) before the function runs; any other call is a miss that runs the function and writes its result file, then raises at `self.history.update` (line 43);
  - a number, `true`/`false` or `null`: every call raises `TypeError` at the membership test (line 88), before the function runs.
- The decorator and closure mechanics (`cached` returning `inner`) and `func.__name__` are replaced by passing the name and the wrapped function to `FileCache.Call`; the wrapped function is a function of its arguments, so its own side effects and any non-determinism are not modelled (the `invoked` result records whether it ran).
- Float values are opaque (their `str()` text only); `str()` of objects other than `str`, `int`, `bool` and `None` is carried as given text, in both modules.
- Flatten: dict keys are represented by their `str()` text, so two different Python keys with the same text are two entries with the same key; hashing and equality of Python keys are not modelled.
- Flatten: `_flatten` raises `RecursionError` on nesting deeper than Python's recursion limit, and so also on a list or dict that contains itself (`l = [l]`, `d = {"a": d}`), which recurses until it reaches that limit; the model's values are finite trees and `Flat` is defined for every depth, so this error is not modelled.
- Patterns.MakeCallPattern: the `int` digit limit is fixed at CPython's default of 4300; the interpreter lets it be changed or switched off (`sys.set_int_max_str_digits`, the `PYTHONINTMAXSTRDIGITS` environment variable), which the model does not follow.
- Cache.MissStoresResult: assumes `json.dump` of the result succeeds. In Python `open(fp, "w")` (line 55) first creates or truncates the result file, then `json.dump` (line 56) raises `TypeError` for a value JSON cannot serialise or `ValueError` for an `int` of more than 4300 digits; the function has already run, the file is left empty or partial, the index is not updated (line 57 is not reached) and the error propagates, and if an older index entry names that file, later calls are hits whose `json.load` fails. The model's results are `Json` values, all serialisable, and the digit limit on them is not modelled.
- Flatten: `str(key)` (flatten.py:30) raises `ValueError` for an `int` dict key of more than 4300 digits; the model takes every key as its text, so this error is not modelled.
- Concurrent use of one cache directory by several processes is not modelled; the code has none.
- The missing `import os, json` in `QnDFileCache.py` is a runtime defect, not behaviour, and is not modelled.
