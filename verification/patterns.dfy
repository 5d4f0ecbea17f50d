/** The lookup key of the file cache: `FileCache.make_call_pattern`, which turns a
    function's name and the arguments of one call into the string
    `name(positional, key=value, ...)`. */
module Patterns {
  import opened Results
  import opened Text

  /** A Python argument value, by its exact runtime type. `Float` and `Other`
      carry the text `str()` gives for them; floats are otherwise opaque. */
  datatype Arg =
    | Str(s: string)
    | Int(i: int)
    | Float(text: string)
    | Bool(b: bool)
    | NoneArg
    | Other(text: string)

  /** One keyword argument, in the order the call passed it. */
  datatype Kwarg = Kwarg(name: string, value: Arg)

  /** Why no key is built: `", ".join` met an item that is not a `str` and a
      keyword argument named like a parameter the method already received
      positionally ("got multiple values for argument") are `TypeError`s; an
      `int` keyword value too long for `str()` is a `ValueError`. */
  datatype PatternError = JoinTypeError | MultipleValues(name: string) | DigitLimit

  /** CPython's default `sys.int_max_str_digits`: converting an `int` with more
      decimal digits than this to a string raises `ValueError`. */
  const MaxStrDigits: nat := 4300

  /** A keyword value whose f-string rendering `{v}` raises `ValueError`: an
      `int` with more than `MaxStrDigits` digits, not counting the sign. */
  predicate TooManyDigits(v: Arg)
  {
    v.Int? && |NatText(if v.i < 0 then -v.i else v.i)| > MaxStrDigits
  }

  /** The parameters of `make_call_pattern(self, func, *args, **kwargs)` that the
      call `self.make_call_pattern(func, *args, **kwargs)` fills positionally. */
  const KeyParams: set<string> := {"self", "func"}

  /** The first keyword argument, in call order, whose name is in `taken`: the
      one Python's argument binding reports. */
  function FirstClash(kwargs: seq<Kwarg>, taken: set<string>): (r: Option<string>)
    ensures r.Some? <==> exists i :: 0 <= i < |kwargs| && kwargs[i].name in taken
    ensures r.Some? ==> r.value in taken
    ensures r.Some? ==> exists i :: 0 <= i < |kwargs| && kwargs[i].name == r.value
                                    && forall j :: 0 <= j < i ==> kwargs[j].name !in taken
  {
    if kwargs == [] then None
    else if kwargs[0].name in taken then Some(kwargs[0].name)
    else FirstClash(kwargs[1..], taken)
  }

  /** `type(arg) in [str, int, float]`: the exact type, so `bool` (a subclass of
      `int`) and `str` subclasses do not pass. */
  predicate PassesFilter(a: Arg)
  {
    a.Str? || a.Int? || a.Float?
  }

  /** An argument that passes the filter but is not a `str`: `join` rejects it. */
  predicate BreaksJoin(a: Arg)
  {
    a.Int? || a.Float?
  }

  /** The list comprehension that keeps the positional arguments passing the filter. */
  function Kept(args: seq<Arg>): (kept: seq<Arg>)
    ensures |kept| <= |args|
    ensures forall a :: a in kept <==> a in args && PassesFilter(a)
  {
    if args == [] then []
    else (if PassesFilter(args[0]) then [args[0]] else []) + Kept(args[1..])
  }

  /** The texts of arguments that are all strings. */
  function Texts(strs: seq<Arg>): seq<string>
    requires forall a :: a in strs ==> a.Str?
  {
    seq(|strs|, i requires 0 <= i < |strs| => strs[i].s)
  }

  /** `", ".join(kept positional arguments)`, failing on the first non-string. */
  function PositionalText(args: seq<Arg>): (r: Result<string, PatternError>)
    ensures r.Ok? <==> forall a :: a in args ==> !BreaksJoin(a)
  {
    var kept := Kept(args);
    if forall a :: a in kept ==> a.Str? then Ok(Join(", ", Texts(kept)))
    else Err(JoinTypeError)
  }

  /** The f-string rendering `{v}` of a keyword argument's value, i.e. `str(v)`,
      where it succeeds (see `TooManyDigits`). */
  function Render(v: Arg): string
  {
    match v
    case Str(s) => s
    case Int(i) => DecimalText(i)
    case Float(text) => text
    case Bool(b) => if b then "True" else "False"
    case NoneArg => "None"
    case Other(text) => text
  }

  /** `k=v` for one keyword argument: no quoting, no filtering. */
  function KwargItem(kw: Kwarg): string
  {
    kw.name + "=" + Render(kw.value)
  }

  /** `", ".join(f"{k}={v}" for k, v in kwargs.items())`. */
  function KwargText(kwargs: seq<Kwarg>): string
  {
    Join(", ", seq(|kwargs|, i requires 0 <= i < |kwargs| => KwargItem(kwargs[i])))
  }

  /** `make_call_pattern(func, *args, **kwargs)` with `func.__name__` given as `name`.
      The pattern is produced exactly when no keyword is named `self` or `func`,
      no positional `int` or `float` reaches the `join` and no keyword value is
      an `int` too long to render; it then always reads `name(`...`)`. A clashing
      keyword fails first, when the arguments are bound, then the positional
      `join`, then the keyword rendering. */
  function MakeCallPattern(name: string, args: seq<Arg>, kwargs: seq<Kwarg>): (r: Result<string, PatternError>)
    ensures r.Ok? <==> && (forall a :: a in args ==> !BreaksJoin(a))
                       && FirstClash(kwargs, KeyParams).None?
                       && (forall kw :: kw in kwargs ==> !TooManyDigits(kw.value))
    ensures FirstClash(kwargs, KeyParams).Some? ==> r == Err(MultipleValues(FirstClash(kwargs, KeyParams).value))
    ensures r == Err(DigitLimit) <==> && (forall a :: a in args ==> !BreaksJoin(a))
                                      && FirstClash(kwargs, KeyParams).None?
                                      && (exists kw :: kw in kwargs && TooManyDigits(kw.value))
    ensures r.Ok? ==> |r.value| >= |name| + 2 && r.value[..|name| + 1] == name + "("
    ensures r.Ok? ==> r.value[|r.value| - 1] == ')'
  {
    match FirstClash(kwargs, KeyParams)
    case Some(clash) => Err(MultipleValues(clash))
    case None =>
      var positional := if args != [] then PositionalText(args) else Ok("");
      match positional
      case Err(e) => Err(e)
      case Ok(out) =>
        if exists kw :: kw in kwargs && TooManyDigits(kw.value) then Err(DigitLimit)
        else
        var body := if kwargs != [] then out + ", " + KwargText(kwargs) else out;
        Ok(name + "(" + body + ")")
  }

  /** Filtering distributes over concatenation and keeps the call order. */
  lemma {:induction false} KeptAppend(a: seq<Arg>, b: seq<Arg>)
    ensures Kept(a + b) == Kept(a) + Kept(b)
  {
    if a != [] {
      assert (a + b)[1..] == a[1..] + b;
      KeptAppend(a[1..], b);
    } else {
      assert a + b == b;
    }
  }

  /** An argument that fails the filter leaves no trace in the kept list. */
  lemma KeptIgnoresDropped(pre: seq<Arg>, x: Arg, post: seq<Arg>)
    requires !PassesFilter(x)
    ensures Kept(pre + [x] + post) == Kept(pre + post)
  {
    KeptAppend(pre + [x], post);
    KeptAppend(pre, [x]);
    KeptAppend(pre, post);
  }

  /** The pattern depends on the positional arguments only through the ones the
      filter keeps. */
  lemma OnlyKeptArgsMatter(name: string, a1: seq<Arg>, a2: seq<Arg>, kwargs: seq<Kwarg>)
    requires Kept(a1) == Kept(a2)
    ensures MakeCallPattern(name, a1, kwargs) == MakeCallPattern(name, a2, kwargs)
  {
  }

  /** Two calls that differ only in one positional argument of a type the filter
      drops (bool, None, dict, list, any object) get the same pattern. */
  lemma DroppedArgsCollide(name: string, pre: seq<Arg>, x: Arg, y: Arg, post: seq<Arg>, kwargs: seq<Kwarg>)
    requires !PassesFilter(x) && !PassesFilter(y)
    ensures MakeCallPattern(name, pre + [x] + post, kwargs) == MakeCallPattern(name, pre + [y] + post, kwargs)
  {
    KeptIgnoresDropped(pre, x, post);
    KeptIgnoresDropped(pre, y, post);
    OnlyKeptArgsMatter(name, pre + [x] + post, pre + [y] + post, kwargs);
  }

  /** String arguments with the given texts. */
  function StrArgs(strs: seq<string>): seq<Arg>
  {
    seq(|strs|, i requires 0 <= i < |strs| => Str(strs[i]))
  }

  /** Kept positional strings are joined in call order; without keyword
      arguments nothing else enters the parentheses. */
  lemma {:induction false} StringArgsPattern(name: string, strs: seq<string>)
    ensures MakeCallPattern(name, StrArgs(strs), []) == Ok(name + "(" + Join(", ", strs) + ")")
  {
    var args := StrArgs(strs);
    KeptAllStrings(args);
    assert Texts(args) == strs;
  }

  /** With kept positional strings and keyword arguments both present, a
      separating `", "` joins the two groups; dropped positional arguments
      anywhere in the call change nothing. */
  lemma MixedArgsPattern(name: string, args: seq<Arg>, strs: seq<string>, kwargs: seq<Kwarg>)
    requires Kept(args) == StrArgs(strs) && strs != [] && kwargs != []
    requires FirstClash(kwargs, KeyParams).None?
    requires forall kw :: kw in kwargs ==> !TooManyDigits(kw.value)
    ensures MakeCallPattern(name, args, kwargs) == Ok(name + "(" + Join(", ", strs) + ", " + KwargText(kwargs) + ")")
  {
    var p, k := Join(", ", strs), KwargText(kwargs);
    assert StrArgs(strs)[0] in Kept(args);
    assert args != [];
    assert forall a :: a in Kept(args) ==> a.Str?;
    assert Texts(StrArgs(strs)) == strs;
    assert PositionalText(args) == Ok(p);
    assert name + "(" + (p + ", " + k) + ")" == name + "(" + p + ", " + k + ")";
  }

  /** Arguments that are all strings all pass the filter. */
  lemma {:induction false} KeptAllStrings(args: seq<Arg>)
    requires forall a :: a in args ==> a.Str?
    ensures Kept(args) == args
  {
    if args != [] {
      KeptAllStrings(args[1..]);
      assert [args[0]] + args[1..] == args;
    }
  }

  /** With keyword arguments and no kept positional one, the pattern still starts
      its body with `", "`, as in `f(, k=v)`. */
  lemma KwargsOnlyPattern(name: string, args: seq<Arg>, kwargs: seq<Kwarg>)
    requires kwargs != [] && Kept(args) == []
    requires FirstClash(kwargs, KeyParams).None?
    requires forall kw :: kw in kwargs ==> !TooManyDigits(kw.value)
    ensures MakeCallPattern(name, args, kwargs) == Ok(name + "(, " + KwargText(kwargs) + ")")
  {
    assert Texts([]) == [];
    assert args != [] ==> PositionalText(args) == Ok("");
    assert "" + ", " + KwargText(kwargs) == ", " + KwargText(kwargs);
    assert name + "(" + (", " + KwargText(kwargs)) + ")" == name + "(, " + KwargText(kwargs) + ")";
  }

  /** Keyword arguments are rendered `k=v` in the order received, joined by `", "`. */
  lemma KwargsInOrder(kwargs: seq<Kwarg>, last: Kwarg)
    requires kwargs != []
    ensures KwargText(kwargs + [last]) == KwargText(kwargs) + ", " + last.name + "=" + Render(last.value)
  {
    var items := seq(|kwargs|, i requires 0 <= i < |kwargs| => KwargItem(kwargs[i]));
    var all := kwargs + [last];
    assert seq(|all|, i requires 0 <= i < |all| => KwargItem(all[i])) == items + [KwargItem(last)];
    JoinSnoc(", ", items, KwargItem(last));
  }

  /** A positional `int` passes the filter and then makes the `join` fail, so the
      call `my_expensive_call(1234, foo="bar")` from the docstring of
      `make_call_pattern` raises instead of giving the key shown there. */
  lemma IntArgumentFails()
    ensures MakeCallPattern("my_expensive_call", [Int(1234)], [Kwarg("foo", Str("bar"))]) == Err(JoinTypeError)
  {
  }

  /** The key text shown in that docstring is still reachable: the string
      `"1234"` is kept and the keyword value `'"bar"'` is rendered as is. */
  lemma DocumentedKeyReachable()
    ensures MakeCallPattern("my_expensive_call", [Str("1234")], [Kwarg("foo", Str("\"bar\""))])
         == Ok("my_expensive_call(1234, foo=\"bar\")")
  {
    var args := [Str("1234")];
    var kws := [Kwarg("foo", Str("\"bar\""))];
    assert Kept(args) == args;
    assert PositionalText(args) == Ok("1234") by {
      assert Texts(args) == ["1234"];
    }
    assert KwargText(kws) == "foo=\"bar\"" by {
      assert KwargItem(kws[0]) == "foo" + "=" + "\"bar\"" == "foo=\"bar\"";
      assert seq(|kws|, i requires 0 <= i < |kws| => KwargItem(kws[i])) == ["foo=\"bar\""];
    }
    assert FirstClash(kws, KeyParams).None? by {
      assert kws[1..] == [];
    }
    assert "my_expensive_call" + "(" + ("1234" + ", " + "foo=\"bar\"") + ")"
        == "my_expensive_call(1234, foo=\"bar\")";
  }

  /** An `int` keyword value of at least `10 ** 4300` in magnitude cannot be
      rendered, so an otherwise valid call builds no key, as `f(n=10**5000)`. */
  lemma HugeIntKwargFails(name: string, args: seq<Arg>, pre: seq<Kwarg>, key: string, n: int, post: seq<Kwarg>)
    requires forall a :: a in args ==> !BreaksJoin(a)
    requires FirstClash(pre + [Kwarg(key, Int(n))] + post, KeyParams).None?
    requires n >= Pow10(MaxStrDigits) || -n >= Pow10(MaxStrDigits)
    ensures MakeCallPattern(name, args, pre + [Kwarg(key, Int(n))] + post) == Err(DigitLimit)
  {
    var kws := pre + [Kwarg(key, Int(n))] + post;
    NatTextLong(if n < 0 then -n else n, MaxStrDigits);
    assert TooManyDigits(kws[|pre|].value);
    assert kws[|pre|] in kws;
    assert exists kw :: kw in kws && TooManyDigits(kw.value);
  }

  /** A keyword named like a parameter of `make_call_pattern` fails before any
      key is built, whatever the other arguments. */
  lemma KeywordClashFails(name: string, args: seq<Arg>, pre: seq<Kwarg>, v: Arg, post: seq<Kwarg>)
    requires forall i :: 0 <= i < |pre| ==> pre[i].name !in KeyParams
    ensures MakeCallPattern(name, args, pre + [Kwarg("func", v)] + post) == Err(MultipleValues("func"))
  {
    var kws := pre + [Kwarg("func", v)] + post;
    assert kws[|pre|].name == "func";
    FirstClashAt(kws, KeyParams, |pre|);
  }

  /** The first clash is at `i` when `i` clashes and nothing before it does. */
  lemma {:induction false} FirstClashAt(kwargs: seq<Kwarg>, taken: set<string>, i: nat)
    requires i < |kwargs| && kwargs[i].name in taken
    requires forall j :: 0 <= j < i ==> kwargs[j].name !in taken
    ensures FirstClash(kwargs, taken) == Some(kwargs[i].name)
  {
    if i > 0 {
      FirstClashAt(kwargs[1..], taken, i - 1);
    }
  }

  /** A worked key: the bool is dropped and the keyword value is rendered
      without quotes. */
  lemma ExamplePattern()
    ensures MakeCallPattern("f", [Str("x"), Bool(true)], [Kwarg("k", Int(3))]) == Ok("f(x, k=3)")
  {
    var args := [Str("x"), Bool(true)];
    assert Kept(args) == [Str("x")] by {
      assert args[1..] == [Bool(true)];
    }
    assert PositionalText(args) == Ok("x") by {
      assert Texts([Str("x")]) == ["x"];
    }
    assert KwargText([Kwarg("k", Int(3))]) == "k=3" by {
      assert NatText(3) == "3";
    }
    assert "f" + "(" + ("x" + ", " + "k=3") + ")" == "f(x, k=3)";
  }

  /** No escaping: one argument containing `", "` collides with two arguments. */
  lemma CommaInArgumentCollides()
    ensures MakeCallPattern("f", [Str("a, b")], []) == MakeCallPattern("f", [Str("a"), Str("b")], [])
  {
    var two := [Str("a"), Str("b")];
    assert FirstClash([], KeyParams).None?;
    assert !exists kw: Kwarg :: kw in [] && TooManyDigits(kw.value);
    assert Kept(two) == two by {
      assert two[1..] == [Str("b")];
    }
    assert Texts(two) == ["a", "b"];
    assert Join(", ", ["a", "b"]) == "a, b" by {
      assert ["a", "b"][1..] == ["b"];
    }
    assert Kept([Str("a, b")]) == [Str("a, b")];
    assert Texts([Str("a, b")]) == ["a, b"];
  }
}
