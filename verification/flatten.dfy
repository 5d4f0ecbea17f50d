/** `flatten(obj)`: move every scalar of a nested dict/list structure to the top
    level of one dict, keyed by the dot-joined path of dict keys leading to it.
    List elements do not extend the path. */
module Flatten {
  import opened Results
  import opened Text

  /** A Python value by the branch of `_flatten` it takes. `Float` carries its
      text only (floats are opaque); `Object` is anything else, with its `str()`. */
  datatype Value =
    | Null
    | Bool(b: bool)
    | Int(i: int)
    | Float(text: string)
    | Str(s: string)
    | Dict(entries: seq<Entry>)
    | List(items: seq<Value>)
    | Object(text: string)

  /** One dict item, in dict order; `key` is `str(key)` of the Python key. */
  datatype Entry = Entry(key: string, val: Value)

  /** `ValueError(f"Unable to flatten object: {obj}")`. */
  datatype FlattenError = Unflattenable(text: string)

  /** `isinstance(obj, (NoneType, bool, int, float, str))`. */
  predicate IsScalar(v: Value)
  {
    v.Null? || v.Bool? || v.Int? || v.Float? || v.Str?
  }

  /** No value outside the scalar, dict and list cases occurs anywhere. */
  predicate Flattenable(v: Value)
  {
    match v
    case Object(_) => false
    case Dict(es) => forall e :: e in es ==> Flattenable(e.val)
    case List(xs) => forall x :: x in xs ==> Flattenable(x)
    case _ => true
  }

  /** Every value in the dict is a scalar. */
  ghost predicate AllScalar(m: map<string, Value>)
  {
    forall k :: k in m ==> IsScalar(m[k])
  }

  /** `".".join(parents)`. */
  function PathKey(parents: seq<string>): string
  {
    Join(".", parents)
  }

  /** Where a walk ends: with the accumulator it built, or stopped by an error
      with the accumulator as it was when the error was raised (`out` is updated
      in place, so what was written before the error stays written). */
  datatype Walk =
    | Done(out: map<string, Value>)
    | Stopped(out: map<string, Value>, error: FlattenError)

  /** `_flatten(obj, parents, out)` on values. */
  function Flat(obj: Value, parents: seq<string>, out: map<string, Value>): Walk
    decreases obj
  {
    match obj
    case Dict(es) => FlatEntries(es, parents, out)
    case List(xs) => FlatItems(xs, parents, out)
    case Object(text) => Stopped(out, Unflattenable(text))
    case _ => Done(out[PathKey(parents) := obj])
  }

  /** The dict loop: each value under `parents + [key]`, in order. */
  function FlatEntries(es: seq<Entry>, parents: seq<string>, out: map<string, Value>): Walk
    decreases es
  {
    if es == [] then Done(out)
    else
      match Flat(es[0].val, parents + [es[0].key], out)
      case Stopped(m, e) => Stopped(m, e)
      case Done(m) => FlatEntries(es[1..], parents, m)
  }

  /** The list loop: every element under the same `parents`, in order. */
  function FlatItems(xs: seq<Value>, parents: seq<string>, out: map<string, Value>): Walk
    decreases xs
  {
    if xs == [] then Done(out)
    else
      match Flat(xs[0], parents, out)
      case Stopped(m, e) => Stopped(m, e)
      case Done(m) => FlatItems(xs[1..], parents, m)
  }

  /** `w` continued with `next` when it finished, and left as it is when it stopped. */
  function AndThen(w: Walk, next: map<string, Value> -> Walk): Walk
  {
    match w
    case Done(m) => next(m)
    case Stopped(_, _) => w
  }

  /** The walk succeeds exactly when the structure holds no unflattenable value,
      whatever the path and the accumulator. */
  lemma {:induction false} FlatSucceedsIff(obj: Value, parents: seq<string>, out: map<string, Value>)
    ensures Flat(obj, parents, out).Done? <==> Flattenable(obj)
    decreases obj
  {
    match obj
    case Dict(es) => EntriesSucceedIff(es, parents, out);
    case List(xs) => ItemsSucceedIff(xs, parents, out);
    case _ =>
  }

  lemma {:induction false} EntriesSucceedIff(es: seq<Entry>, parents: seq<string>, out: map<string, Value>)
    ensures FlatEntries(es, parents, out).Done? <==> forall e :: e in es ==> Flattenable(e.val)
    decreases es
  {
    if es != [] {
      FlatSucceedsIff(es[0].val, parents + [es[0].key], out);
      match Flat(es[0].val, parents + [es[0].key], out)
      case Stopped(_, _) =>
      case Done(m) =>
        EntriesSucceedIff(es[1..], parents, m);
        assert forall e :: e in es <==> e == es[0] || e in es[1..];
    }
  }

  lemma {:induction false} ItemsSucceedIff(xs: seq<Value>, parents: seq<string>, out: map<string, Value>)
    ensures FlatItems(xs, parents, out).Done? <==> forall x :: x in xs ==> Flattenable(x)
    decreases xs
  {
    if xs != [] {
      FlatSucceedsIff(xs[0], parents, out);
      match Flat(xs[0], parents, out)
      case Stopped(_, _) =>
      case Done(m) =>
        ItemsSucceedIff(xs[1..], parents, m);
        assert forall x :: x in xs <==> x == xs[0] || x in xs[1..];
    }
  }

  /** The accumulator only gains or overwrites keys, never loses one, and only
      scalars are ever written into it. */
  lemma {:induction false} FlatGrows(obj: Value, parents: seq<string>, out: map<string, Value>)
    ensures out.Keys <= Flat(obj, parents, out).out.Keys
    ensures AllScalar(out) ==> AllScalar(Flat(obj, parents, out).out)
    decreases obj
  {
    match obj
    case Dict(es) => EntriesGrow(es, parents, out);
    case List(xs) => ItemsGrow(xs, parents, out);
    case _ =>
  }

  lemma {:induction false} EntriesGrow(es: seq<Entry>, parents: seq<string>, out: map<string, Value>)
    ensures out.Keys <= FlatEntries(es, parents, out).out.Keys
    ensures AllScalar(out) ==> AllScalar(FlatEntries(es, parents, out).out)
    decreases es
  {
    if es != [] {
      FlatGrows(es[0].val, parents + [es[0].key], out);
      match Flat(es[0].val, parents + [es[0].key], out)
      case Stopped(_, _) =>
      case Done(m) => EntriesGrow(es[1..], parents, m);
    }
  }

  lemma {:induction false} ItemsGrow(xs: seq<Value>, parents: seq<string>, out: map<string, Value>)
    ensures out.Keys <= FlatItems(xs, parents, out).out.Keys
    ensures AllScalar(out) ==> AllScalar(FlatItems(xs, parents, out).out)
    decreases xs
  {
    if xs != [] {
      FlatGrows(xs[0], parents, out);
      match Flat(xs[0], parents, out)
      case Stopped(_, _) =>
      case Done(m) => ItemsGrow(xs[1..], parents, m);
    }
  }

  /** A scalar reached by `parents` is written at `".".join(parents)`, overwriting
      what was there; at the top level that key is the empty string. */
  lemma ScalarSetsPathKey(v: Value, parents: seq<string>, out: map<string, Value>)
    requires IsScalar(v)
    ensures Flat(v, parents, out) == Done(out[PathKey(parents) := v])
    ensures parents == [] ==> Flat(v, parents, out) == Done(out["" := v])
  {
  }

  /** A dict is walked entry by entry in dict order: the entries of `a` first,
      then those of `b` from the accumulator `a` left behind. */
  lemma {:induction false} DictEntriesInOrder(a: seq<Entry>, b: seq<Entry>, parents: seq<string>, out: map<string, Value>)
    ensures Flat(Dict(a + b), parents, out)
         == AndThen(Flat(Dict(a), parents, out), m => Flat(Dict(b), parents, m))
    decreases a
  {
    if a == [] {
      assert a + b == b;
    } else {
      assert (a + b)[0] == a[0];
      assert (a + b)[1..] == a[1..] + b;
      match Flat(a[0].val, parents + [a[0].key], out)
      case Stopped(_, _) =>
      case Done(m) => DictEntriesInOrder(a[1..], b, parents, m);
    }
  }

  /** A list is walked element by element in order, every element under the
      parent's own path. */
  lemma {:induction false} ListItemsInOrder(a: seq<Value>, b: seq<Value>, parents: seq<string>, out: map<string, Value>)
    ensures Flat(List(a + b), parents, out)
         == AndThen(Flat(List(a), parents, out), m => Flat(List(b), parents, m))
    decreases a
  {
    if a == [] {
      assert a + b == b;
    } else {
      assert (a + b)[0] == a[0];
      assert (a + b)[1..] == a[1..] + b;
      match Flat(a[0], parents, out)
      case Stopped(_, _) =>
      case Done(m) => ListItemsInOrder(a[1..], b, parents, m);
    }
  }

  /** An unflattenable dict value stops the walk: what the entries before it
      wrote stays in the accumulator, and the entries after it are never visited. */
  lemma StopsAtUnflattenable(a: seq<Entry>, key: string, text: string, b: seq<Entry>,
                             parents: seq<string>, out: map<string, Value>)
    requires forall e :: e in a ==> Flattenable(e.val)
    ensures Flat(Dict(a + [Entry(key, Object(text))] + b), parents, out)
         == Stopped(Flat(Dict(a), parents, out).out, Unflattenable(text))
  {
    DictEntriesInOrder(a + [Entry(key, Object(text))], b, parents, out);
    DictEntriesInOrder(a, [Entry(key, Object(text))], parents, out);
    EntriesSucceedIff(a, parents, out);
    SingleEntryExtendsPath(key, Object(text), parents, Flat(Dict(a), parents, out).out);
  }

  /** A dict entry extends the path by its key. */
  lemma SingleEntryExtendsPath(key: string, v: Value, parents: seq<string>, out: map<string, Value>)
    ensures Flat(Dict([Entry(key, v)]), parents, out) == Flat(v, parents + [key], out)
  {
    var es := [Entry(key, v)];
    assert es[0].val == v && es[0].key == key && es[1..] == [];
    assert Flat(Dict(es), parents, out) == FlatEntries(es, parents, out);
    match Flat(v, parents + [key], out)
    case Stopped(m, e) =>
      assert FlatEntries(es, parents, out) == Stopped(m, e);
    case Done(m) =>
      assert FlatEntries(es, parents, out) == FlatEntries([], parents, m) == Done(m);
  }

  /** Scalars in one list share their parent's key, so the last one wins. */
  lemma {:induction false} ScalarListLastWins(xs: seq<Value>, parents: seq<string>, out: map<string, Value>)
    requires xs != [] && forall x :: x in xs ==> IsScalar(x)
    ensures Flat(List(xs), parents, out) == Done(out[PathKey(parents) := xs[|xs| - 1]])
    decreases xs
  {
    var k := PathKey(parents);
    assert xs[0] in xs;
    assert Flat(xs[0], parents, out) == Done(out[k := xs[0]]);
    assert Flat(List(xs), parents, out) == FlatItems(xs[1..], parents, out[k := xs[0]]);
    if |xs| > 1 {
      assert xs[1..][|xs[1..]| - 1] == xs[|xs| - 1];
      assert forall x :: x in xs[1..] ==> x in xs;
      ScalarListLastWins(xs[1..], parents, out[k := xs[0]]);
      assert out[k := xs[0]][k := xs[|xs| - 1]] == out[k := xs[|xs| - 1]];
    }
  }

  /** Empty dicts and empty lists contribute nothing. */
  lemma EmptyContainersAddNothing(parents: seq<string>, out: map<string, Value>)
    ensures Flat(Dict([]), parents, out) == Done(out)
    ensures Flat(List([]), parents, out) == Done(out)
  {
  }

  /** `flatten({"a": [1, 2]}) == {"a": 2}`. */
  lemma ListCollisionExample()
    ensures Flat(Dict([Entry("a", List([Int(1), Int(2)]))]), [], map[]) == Done(map["a" := Int(2)])
  {
    SingleEntryExtendsPath("a", List([Int(1), Int(2)]), [], map[]);
    ScalarListLastWins([Int(1), Int(2)], ["a"], map[]);
    assert PathKey(["a"]) == "a";
  }

  /** The documented example of `flatten`, with its expected result. */
  lemma DocumentedExample()
    ensures Flat(Dict([Entry("a", Dict([
                  Entry("b", Dict([Entry("c", Int(1)), Entry("d", Int(2))])),
                  Entry("e", Dict([Entry("f", Int(3)), Entry("g", Int(4))]))]))]), [], map[])
         == Done(map["a.b.c" := Int(1), "a.b.d" := Int(2), "a.e.f" := Int(3), "a.e.g" := Int(4)])
  {
    var b := Dict([Entry("c", Int(1)), Entry("d", Int(2))]);
    var e := Dict([Entry("f", Int(3)), Entry("g", Int(4))]);
    var a := Dict([Entry("b", b), Entry("e", e)]);
    var m1 := map[]["a.b.c" := Int(1)]["a.b.d" := Int(2)];
    var m2 := m1["a.e.f" := Int(3)]["a.e.g" := Int(4)];
    assert Flat(b, ["a", "b"], map[]) == Done(m1) by {
      PairOfScalars("a", "b", "c", "d", Int(1), Int(2), map[]);
      assert "a" + "." + "b" + "." + "c" == "a.b.c";
      assert "a" + "." + "b" + "." + "d" == "a.b.d";
    }
    assert Flat(e, ["a", "e"], m1) == Done(m2) by {
      PairOfScalars("a", "e", "f", "g", Int(3), Int(4), m1);
      assert "a" + "." + "e" + "." + "f" == "a.e.f";
      assert "a" + "." + "e" + "." + "g" == "a.e.g";
    }
    assert Flat(Dict([Entry("b", b)]), ["a"], map[]) == Done(m1) by {
      SingleEntryExtendsPath("b", b, ["a"], map[]);
      assert ["a"] + ["b"] == ["a", "b"];
    }
    assert Flat(Dict([Entry("e", e)]), ["a"], m1) == Done(m2) by {
      SingleEntryExtendsPath("e", e, ["a"], m1);
      assert ["a"] + ["e"] == ["a", "e"];
    }
    assert Flat(a, ["a"], map[]) == Done(m2) by {
      DictEntriesInOrder([Entry("b", b)], [Entry("e", e)], ["a"], map[]);
      assert [Entry("b", b)] + [Entry("e", e)] == [Entry("b", b), Entry("e", e)];
    }
    assert Flat(Dict([Entry("a", a)]), [], map[]) == Done(m2) by {
      SingleEntryExtendsPath("a", a, [], map[]);
      assert [] + ["a"] == ["a"];
    }
    assert m2 == map["a.b.c" := Int(1), "a.b.d" := Int(2), "a.e.f" := Int(3), "a.e.g" := Int(4)];
  }

  /** Helper for the documented example: a two-entry dict of scalars two levels down. */
  lemma PairOfScalars(p: string, q: string, k1: string, k2: string, v1: Value, v2: Value, out: map<string, Value>)
    requires IsScalar(v1) && IsScalar(v2)
    ensures Flat(Dict([Entry(k1, v1), Entry(k2, v2)]), [p, q], out)
         == Done(out[p + "." + q + "." + k1 := v1][p + "." + q + "." + k2 := v2])
  {
    var es := [Entry(k1, v1), Entry(k2, v2)];
    DottedPath(p, q, k1);
    DottedPath(p, q, k2);
    assert [p, q] + [k1] == [p, q, k1];
    assert [p, q] + [k2] == [p, q, k2];
    assert es[1..] == [Entry(k2, v2)];
    var out1 := out[p + "." + q + "." + k1 := v1];
    var out2 := out1[p + "." + q + "." + k2 := v2];
    assert Flat(v1, [p, q, k1], out) == Done(out1);
    assert Flat(v2, [p, q, k2], out1) == Done(out2);
    assert FlatEntries(es[1..], [p, q], out1) == Done(out2) by {
      assert es[1..][1..] == [];
    }
    assert FlatEntries(es, [p, q], out) == FlatEntries(es[1..], [p, q], out1);
  }

  /** Helper for the documented example: a three-segment path. */
  lemma DottedPath(p: string, q: string, k: string)
    ensures PathKey([p, q, k]) == p + "." + q + "." + k
  {
    assert [p, q, k][1..] == [q, k];
    assert [q, k][1..] == [k];
    assert Join(".", [k]) == k;
    assert Join(".", [q, k]) == q + "." + k;
    assert Join(".", [p, q, k]) == p + "." + (q + "." + k);
  }

  /** The accumulator `out`, a dict that `_flatten` updates in place. */
  class FlatDict {
    var entries: map<string, Value>

    constructor ()
      ensures entries == map[]
    {
      entries := map[];
    }

    /** `out[key] = value`. */
    method Put(key: string, value: Value)
      modifies this
      ensures entries == old(entries)[key := value]
    {
      entries := entries[key := value];
    }
  }

  /** How a run of the method matches the walk: the accumulator holds what the
      walk reached, and the error is reported exactly when the walk stopped. */
  predicate Agrees(spec: Walk, err: Option<FlattenError>, entries: map<string, Value>)
  {
    entries == spec.out && err == (if spec.Done? then None else Some(spec.error))
  }

  /** `_flatten(obj, parents, out)`, writing into `out` in place. On failure `out`
      keeps everything written before the error; either way keys already in
      `out` stay and only scalars are written. */
  method FlattenInto(obj: Value, parents: seq<string>, out: FlatDict) returns (err: Option<FlattenError>)
    modifies out
    ensures Agrees(Flat(obj, parents, old(out.entries)), err, out.entries)
    ensures old(out.entries).Keys <= out.entries.Keys
    ensures AllScalar(old(out.entries)) ==> AllScalar(out.entries)
    decreases obj
  {
    match obj
    case Dict(es) =>
      var i := 0;
      while i < |es|
        invariant 0 <= i <= |es|
        invariant FlatEntries(es[i..], parents, out.entries) == FlatEntries(es, parents, old(out.entries))
        invariant old(out.entries).Keys <= out.entries.Keys
        invariant AllScalar(old(out.entries)) ==> AllScalar(out.entries)
      {
        assert es[i..][1..] == es[i + 1..];
        var prefixes := parents + [es[i].key];
        err := FlattenInto(es[i].val, prefixes, out);
        if err.Some? {
          return;
        }
        i := i + 1;
      }
      err := None;
    case List(xs) =>
      var i := 0;
      while i < |xs|
        invariant 0 <= i <= |xs|
        invariant FlatItems(xs[i..], parents, out.entries) == FlatItems(xs, parents, old(out.entries))
        invariant old(out.entries).Keys <= out.entries.Keys
        invariant AllScalar(old(out.entries)) ==> AllScalar(out.entries)
      {
        assert xs[i..][1..] == xs[i + 1..];
        err := FlattenInto(xs[i], parents, out);
        if err.Some? {
          return;
        }
        i := i + 1;
      }
      err := None;
    case Object(text) =>
      err := Some(Unflattenable(text));
    case _ =>
      out.Put(PathKey(parents), obj);
      err := None;
  }

  /** `flatten(obj)`: walk from the empty path into a fresh accumulator. */
  method Flatten(obj: Value) returns (r: Result<map<string, Value>, FlattenError>)
    ensures r == match Flat(obj, [], map[])
                 case Done(m) => Ok(m)
                 case Stopped(_, e) => Err(e)
  {
    var out := new FlatDict();
    var err := FlattenInto(obj, [], out);
    r := if err.None? then Ok(out.entries) else Err(err.value);
  }
}
