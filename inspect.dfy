/** python/glossy/inspect.py: reading the decorators of a function off its
    source lines, and the `Inspection`/`Decorator` views over an object's
    `__wrappers__` metadata. `inspect.getmodule` and `inspect.getsourcelines`
    are replaced by a `FunctionSource` value. */
module GlossyInspect {
  import opened GlossyValues

  // ---------------------------------------------------------------------
  // Text
  // ---------------------------------------------------------------------

  /** `PREFIX`. */
  const Prefix: char := '@'

  /** The characters `str.strip()` removes: those for which `str.isspace()` holds. */
  predicate IsSpace(c: char)
  {
    ('\t' <= c <= '\r') || ('\U{1C}' <= c <= ' ') || c == '\U{85}' || c == '\U{A0}' ||
    c == '\U{1680}' || ('\U{2000}' <= c <= '\U{200A}') || c == '\U{2028}' || c == '\U{2029}' ||
    c == '\U{202F}' || c == '\U{205F}' || c == '\U{3000}'
  }

  /** `line.startswith(PREFIX)`. */
  predicate StartsWithPrefix(line: string)
  {
    |line| > 0 && line[0] == Prefix
  }

  /** `s.split("(")[0]`: the text before the first opening parenthesis. */
  function BeforeParen(s: string): string
  {
    if s == [] || s[0] == '(' then [] else [s[0]] + BeforeParen(s[1..])
  }

  /** The result is the longest prefix of `s` without a `(`. */
  lemma {:induction false} BeforeParenIsPrefix(s: string)
    ensures BeforeParen(s) <= s
    ensures '(' !in BeforeParen(s)
    ensures |BeforeParen(s)| < |s| ==> s[|BeforeParen(s)|] == '('
  {
    if s != [] && s[0] != '(' {
      BeforeParenIsPrefix(s[1..]);
    }
  }

  /** `s.replace(c, "")`. */
  function RemoveAll(s: string, c: char): string
  {
    if s == [] then []
    else if s[0] == c then RemoveAll(s[1..], c)
    else [s[0]] + RemoveAll(s[1..], c)
  }

  /** Every occurrence of `c` goes, every other character stays. */
  lemma {:induction false} RemoveAllRemoves(s: string, c: char)
    ensures c !in RemoveAll(s, c)
    ensures |RemoveAll(s, c)| <= |s|
    ensures forall x :: x != c ==> multiset(RemoveAll(s, c))[x] == multiset(s)[x]
  {
    if s != [] {
      RemoveAllRemoves(s[1..], c);
      assert s == [s[0]] + s[1..];
    }
  }

  /** Text without `c` is left as it is. */
  lemma {:induction false} RemoveAllAbsent(s: string, c: char)
    requires c !in s
    ensures RemoveAll(s, c) == s
  {
    if s != [] {
      RemoveAllAbsent(s[1..], c);
      assert s == [s[0]] + s[1..];
    }
  }

  /** Text without `(` is its own `split("(")[0]`. */
  lemma BeforeParenAbsent(s: string)
    requires '(' !in s
    ensures BeforeParen(s) == s
  {
    BeforeParenIsPrefix(s);
  }

  /** Leading whitespace removed. */
  function StripLeading(s: string): string
  {
    if s != [] && IsSpace(s[0]) then StripLeading(s[1..]) else s
  }

  /** Trailing whitespace removed. */
  function StripTrailing(s: string): string
  {
    if s != [] && IsSpace(s[|s| - 1]) then StripTrailing(s[..|s| - 1]) else s
  }

  lemma {:induction false} StripLeadingIsSuffix(s: string)
    ensures |StripLeading(s)| <= |s| && StripLeading(s) == s[|s| - |StripLeading(s)|..]
    ensures StripLeading(s) == [] || !IsSpace(StripLeading(s)[0])
    ensures forall k :: 0 <= k < |s| - |StripLeading(s)| ==> IsSpace(s[k])
  {
    if s != [] && IsSpace(s[0]) {
      var t := s[1..];
      StripLeadingIsSuffix(t);
      assert StripLeading(s) == StripLeading(t);
      assert t[|t| - |StripLeading(t)|..] == s[|s| - |StripLeading(s)|..];
      forall k | 0 <= k < |s| - |StripLeading(s)|
        ensures IsSpace(s[k])
      {
        if k > 0 {
          assert s[k] == t[k - 1];
        }
      }
    }
  }

  lemma {:induction false} StripTrailingIsPrefix(s: string)
    ensures |StripTrailing(s)| <= |s| && StripTrailing(s) == s[..|StripTrailing(s)|]
    ensures StripTrailing(s) == [] || !IsSpace(StripTrailing(s)[|StripTrailing(s)| - 1])
    ensures forall k :: |StripTrailing(s)| <= k < |s| ==> IsSpace(s[k])
  {
    if s != [] && IsSpace(s[|s| - 1]) {
      var t := s[..|s| - 1];
      StripTrailingIsPrefix(t);
      assert StripTrailing(s) == StripTrailing(t);
      assert t[..|StripTrailing(t)|] == s[..|StripTrailing(s)|];
      forall k | |StripTrailing(s)| <= k < |s|
        ensures IsSpace(s[k])
      {
        if k < |s| - 1 {
          assert s[k] == t[k];
        }
      }
    }
  }

  /** `s.strip()`. */
  function Strip(s: string): string
  {
    StripTrailing(StripLeading(s))
  }

  /** The stripped text has no whitespace at either end. */
  lemma StripTrims(s: string)
    ensures Strip(s) == [] || (!IsSpace(Strip(s)[0]) && !IsSpace(Strip(s)[|Strip(s)| - 1]))
  {
    var lead := StripLeading(s);
    StripLeadingIsSuffix(s);
    StripTrailingIsPrefix(lead);
    if Strip(s) != [] {
      assert Strip(s)[0] == lead[0];
    }
  }

  /** The stripped text is empty exactly when `s` is all whitespace. */
  lemma StripEmptyIffBlank(s: string)
    ensures Strip(s) == [] <==> forall k :: 0 <= k < |s| ==> IsSpace(s[k])
  {
    var lead := StripLeading(s);
    StripLeadingIsSuffix(s);
    StripTrailingIsPrefix(lead);
  }

  /** The stripped text is a piece of `s`. */
  lemma StripKeepsCharacters(s: string)
    ensures multiset(Strip(s)) <= multiset(s)
  {
    var lead := StripLeading(s);
    var r := StripTrailing(lead);
    StripLeadingIsSuffix(s);
    StripTrailingIsPrefix(lead);
    assert s == s[..|s| - |lead|] + lead;
    assert lead == r + lead[|r|..];
  }

  lemma StripKeepsOut(s: string, c: char)
    requires c !in s
    ensures c !in Strip(s)
  {
    StripKeepsCharacters(s);
    assert multiset(s)[c] == 0;
  }

  /** The name `get_decorators` reads off a decorator line:
      `line.split("(")[0].replace(PREFIX, "").strip()`. It holds no `@` and
      no `(`, and has no whitespace at its ends. */
  function DecoratorName(line: string): (name: string)
    ensures Prefix !in name && '(' !in name
    ensures name == [] || (!IsSpace(name[0]) && !IsSpace(name[|name| - 1]))
  {
    var b := BeforeParen(line);
    var r := RemoveAll(b, Prefix);
    BeforeParenIsPrefix(line);
    RemoveAllRemoves(b, Prefix);
    assert '(' !in r by {
      assert multiset(r)['('] == multiset(b)['('] == 0;
    }
    StripKeepsOut(r, '(');
    StripKeepsOut(r, Prefix);
    StripTrims(r);
    Strip(r)
  }

  // ---------------------------------------------------------------------
  // Discovering decorators from source lines
  // ---------------------------------------------------------------------

  /** What `get_decorators` reads through reflection: the lines of the
      function's source (`inspect.getsourcelines`) and the attributes of its
      module (`inspect.getmodule`). The namespace holds the module's truthy
      attributes: `if decorator:` skips a falsy one just as a missing one. */
  datatype FunctionSource = FunctionSource(lines: seq<string>, namespace: map<string, DecoratorFn>)

  /** The line names a decorator of the module. */
  predicate Resolves(line: string, ns: map<string, DecoratorFn>)
  {
    StartsWithPrefix(line) && DecoratorName(line) in ns
  }

  /** The decorators one line contributes. */
  function FoundOn(line: string, ns: map<string, DecoratorFn>): seq<DecoratorFn>
  {
    if Resolves(line, ns) then [ns[DecoratorName(line)]] else []
  }

  /** `get_decorators` as a function of the source lines. */
  function Discovered(lines: seq<string>, ns: map<string, DecoratorFn>): (ds: seq<DecoratorFn>)
    ensures |ds| <= |lines|
    ensures forall i :: 0 <= i < |ds| ==> ds[i] in ns.Values
  {
    if lines == [] then []
    else Discovered(lines[..|lines| - 1], ns) + FoundOn(lines[|lines| - 1], ns)
  }

  /** Discovery works line by line, so it keeps the order of the source. */
  lemma {:induction false} DiscoveredConcat(a: seq<string>, b: seq<string>, ns: map<string, DecoratorFn>)
    ensures Discovered(a + b, ns) == Discovered(a, ns) + Discovered(b, ns)
    decreases |b|
  {
    if b == [] {
      assert a + b == a;
    } else {
      var b' := b[..|b| - 1];
      assert (a + b)[..|a + b| - 1] == a + b';
      assert (a + b)[|a + b| - 1] == b[|b| - 1];
      DiscoveredConcat(a, b', ns);
    }
  }

  /** The number of lines that start with `@`. */
  function PrefixedLines(lines: seq<string>): nat
  {
    if lines == [] then 0
    else PrefixedLines(lines[..|lines| - 1]) + (if StartsWithPrefix(lines[|lines| - 1]) then 1 else 0)
  }

  /** At most one decorator per `@` line. */
  lemma {:induction false} DiscoveredLength(lines: seq<string>, ns: map<string, DecoratorFn>)
    ensures |Discovered(lines, ns)| <= PrefixedLines(lines)
  {
    if lines != [] {
      DiscoveredLength(lines[..|lines| - 1], ns);
    }
  }

  /** A decorator is discovered exactly when some `@` line names it in the module. */
  lemma {:induction false} DiscoveredMembers(lines: seq<string>, ns: map<string, DecoratorFn>, d: DecoratorFn)
    ensures d in Discovered(lines, ns) <==>
            exists i :: 0 <= i < |lines| && Resolves(lines[i], ns) && ns[DecoratorName(lines[i])] == d
  {
    if lines != [] {
      var init := lines[..|lines| - 1];
      DiscoveredMembers(init, ns, d);
      if d in Discovered(lines, ns) {
        if d in Discovered(init, ns) {
          var i :| 0 <= i < |init| && Resolves(init[i], ns) && ns[DecoratorName(init[i])] == d;
          assert lines[i] == init[i];
        } else {
          assert Resolves(lines[|lines| - 1], ns);
        }
      } else {
        forall i | 0 <= i < |lines| && Resolves(lines[i], ns)
          ensures ns[DecoratorName(lines[i])] != d
        {
          if i < |init| {
            assert lines[i] == init[i];
          }
        }
      }
    }
  }

  /** Nothing is discovered exactly when no line names a decorator of the module. */
  lemma {:induction false} DiscoveredEmpty(lines: seq<string>, ns: map<string, DecoratorFn>)
    ensures Discovered(lines, ns) == [] <==> forall i :: 0 <= i < |lines| ==> !Resolves(lines[i], ns)
  {
    if lines != [] {
      var init := lines[..|lines| - 1];
      DiscoveredEmpty(init, ns);
      assert Discovered(lines, ns) == Discovered(init, ns) + FoundOn(lines[|lines| - 1], ns);
      assert forall i :: 0 <= i < |init| ==> init[i] == lines[i];
    }
  }

  /** `get_decorators`: scan the source lines and collect, in order, the
      module attribute each `@` line names. */
  method GetDecorators(src: FunctionSource) returns (decorators: seq<DecoratorFn>)
    ensures decorators == Discovered(src.lines, src.namespace)
  {
    decorators := [];
    var lines := src.lines;
    var i := 0;
    while i < |lines|
      invariant 0 <= i <= |lines|
      invariant decorators == Discovered(lines[..i], src.namespace)
    {
      var line := lines[i];
      assert lines[..i + 1][..i] == lines[..i];
      if StartsWithPrefix(line) {
        var name := DecoratorName(line);
        if name in src.namespace {
          decorators := decorators + [src.namespace[name]];
        }
      }
      i := i + 1;
    }
    assert lines[..|lines|] == lines;
  }

  /** The first decorator called `name`, if any. */
  function FirstNamed(ds: seq<DecoratorFn>, name: string): (r: Option<DecoratorFn>)
    ensures r.None? <==> forall i :: 0 <= i < |ds| ==> ds[i].name != name
    ensures forall i :: (0 <= i < |ds| && ds[i].name == name &&
                         (forall j :: 0 <= j < i ==> ds[j].name != name)) ==> r == Some(ds[i])
  {
    if ds == [] then None
    else if ds[0].name == name then Some(ds[0])
    else FirstNamed(ds[1..], name)
  }

  /** `get_decorator`: the first discovered decorator whose `__name__` is
      `name` with every `@` removed, or `None`. */
  method GetDecorator(src: FunctionSource, name: string) returns (match_: Option<DecoratorFn>)
    ensures match_ == FirstNamed(Discovered(src.lines, src.namespace), RemoveAll(name, Prefix))
  {
    match_ := None;
    var cleanName := RemoveAll(name, Prefix);
    var decorators := GetDecorators(src);
    var i := 0;
    while i < |decorators|
      invariant 0 <= i <= |decorators|
      invariant forall j :: 0 <= j < i ==> decorators[j].name != cleanName
    {
      if decorators[i].name == cleanName {
        match_ := Some(decorators[i]);
        break;
      }
      i := i + 1;
    }
  }

  /** `is_decorated`: whether any decorator is discovered. */
  function IsDecorated(src: FunctionSource): (r: bool)
    ensures r <==> exists i :: 0 <= i < |src.lines| && Resolves(src.lines[i], src.namespace)
  {
    DiscoveredEmpty(src.lines, src.namespace);
    Discovered(src.lines, src.namespace) != []
  }

  /** `has_decorator`: whether `decorator` is among the discovered ones. */
  method HasDecorator(src: FunctionSource, decorator: DecoratorFn) returns (match_: bool)
    ensures match_ <==> decorator in Discovered(src.lines, src.namespace)
  {
    match_ := false;
    var decorators := GetDecorators(src);
    var i := 0;
    while i < |decorators|
      invariant 0 <= i <= |decorators|
      invariant forall j :: 0 <= j < i ==> decorators[j] != decorator
    {
      if decorator == decorators[i] {
        match_ := true;
        break;
      }
      i := i + 1;
    }
  }

  /** `has_decorators`: whether every listed decorator is discovered;
      true for an empty list. */
  function HasDecorators(src: FunctionSource, decorators: seq<DecoratorFn>): (r: bool)
    ensures r <==> forall i :: 0 <= i < |decorators| ==> decorators[i] in Discovered(src.lines, src.namespace)
  {
    if decorators == [] then true
    else decorators[0] in Discovered(src.lines, src.namespace) && HasDecorators(src, decorators[1..])
  }

  // ---------------------------------------------------------------------
  // Views over `__wrappers__`
  // ---------------------------------------------------------------------

  /** The `Decorator` class: a read-only view of one `__wrappers__` entry. */
  datatype Decorator = Decorator(meta: Wrapper) {

    /** `parameters`: the recorded `(args, kwargs)` pair, if any. */
    function Parameters(): (r: Option<Params>)
      ensures r == meta.parameters
    {
      meta.parameters
    }

    /** `args`: `parameters[0]`, or `None` without parameters. */
    function Args(): (r: Option<PySeq>)
      ensures r.None? <==> meta.parameters.None?
      ensures r.Some? ==> r.value == meta.parameters.value.args
    {
      if Parameters().Some? then Some(Parameters().value.args) else None
    }

    /** `kwargs`: `parameters[1]`, or `None` without parameters. */
    function Kwargs(): (r: Option<Kwargs>)
      ensures r.None? <==> meta.parameters.None?
      ensures r.Some? ==> r.value == meta.parameters.value.kwargs
    {
      if Parameters().Some? then Some(Parameters().value.kwargs) else None
    }
  }

  /** An inspected object, as far as the core looks at it: its
      `__wrappers__` attribute if it has one, and whether it has `__glossy__`. */
  datatype PyObject = PyObject(wrappers: Option<seq<Wrapper>>, glossyMark: bool)

  /** `is_glossy`. */
  predicate IsGlossy(obj: PyObject): (b: bool)
    ensures b <==> obj.wrappers.Some? || obj.glossyMark
  {
    obj.wrappers.Some? || obj.glossyMark
  }

  /** `getattr(obj, "__wrappers__", [])`. */
  function WrappersOrEmpty(obj: PyObject): seq<Wrapper>
  {
    if obj.wrappers.Some? then obj.wrappers.value else []
  }

  /** One `Decorator` view per wrapper, in order. */
  function Views(ws: seq<Wrapper>): (vs: seq<Decorator>)
    ensures |vs| == |ws|
    ensures forall i :: 0 <= i < |ws| ==> vs[i] == Decorator(ws[i])
  {
    if ws == [] then [] else Views(ws[..|ws| - 1]) + [Decorator(ws[|ws| - 1])]
  }

  /** The decorators property's cache after a read: filled from
      `__wrappers__` when it was empty and the object is glossy, kept otherwise. */
  function Refreshed(cache: seq<Decorator>, obj: PyObject): seq<Decorator>
  {
    if cache == [] && IsGlossy(obj) then Views(WrappersOrEmpty(obj)) else cache
  }

  /** Reading the property twice gives what reading it once gave. */
  lemma RefreshedIsStable(cache: seq<Decorator>, obj: PyObject)
    requires cache == [] || cache == Views(WrappersOrEmpty(obj))
    ensures Refreshed(Refreshed(cache, obj), obj) == Refreshed(cache, obj)
    ensures IsGlossy(obj) ==> Refreshed(cache, obj) == Views(WrappersOrEmpty(obj))
    ensures !IsGlossy(obj) ==> Refreshed(cache, obj) == []
  {
  }

  /** Once filled, the cache is returned as it is: a wrapper added to the
      object's shared `__wrappers__` list after the first read is not seen. */
  lemma StaleCacheHidesNewWrappers(w1: Wrapper, w2: Wrapper)
    ensures var before := PyObject(Some([w1]), false);
            var after := PyObject(Some([w1, w2]), false);
            Refreshed(Refreshed([], before), after) == Views([w1]) &&
            Refreshed(Refreshed([], before), after) != Views(WrappersOrEmpty(after))
  {
    var after := PyObject(Some([w1, w2]), false);
    assert |Views(WrappersOrEmpty(after))| == 2;
  }

  /** Whether one view passes the filters of `Inspection.is_decorated_by`. */
  predicate SatisfiesFilters(v: Decorator, args: seq<Value>, kwargs: Kwargs)
  {
    (args == [] || v.Args() == Some(TupleOf(args))) &&
    (kwargs == map[] || v.Kwargs() == Some(kwargs))
  }

  /** `Inspection.is_decorated_by` as a function of the views. The name test
      of the source compares the argument with itself, so the decorator
      passed in plays no part; `dict(None)` raises TypeError on a view
      without parameters once keyword arguments are given. */
  function FilterViews(vs: seq<Decorator>, args: seq<Value>, kwargs: Kwargs): (r: Result<bool>)
    ensures r.Err? ==> r.error == TypeError && kwargs != map[] &&
                       exists i :: 0 <= i < |vs| && vs[i].Kwargs().None?
    ensures r == Ok(true) ==> exists i :: 0 <= i < |vs| && SatisfiesFilters(vs[i], args, kwargs)
  {
    if vs == [] then Ok(false)
    else if kwargs != map[] && vs[0].Kwargs().None? then Err(TypeError)
    else if SatisfiesFilters(vs[0], args, kwargs) then Ok(true)
    else FilterViews(vs[1..], args, kwargs)
  }

  /** With no filters the answer is whether there is any view at all. */
  lemma FilterViewsWithoutFilters(vs: seq<Decorator>)
    ensures FilterViews(vs, [], map[]) == Ok(vs != [])
  {
  }

  /** When no TypeError can arise, the answer is whether some view passes
      the filters. */
  lemma {:induction false} FilterViewsFindsSatisfying(vs: seq<Decorator>, args: seq<Value>, kwargs: Kwargs)
    requires kwargs == map[] || forall i :: 0 <= i < |vs| ==> vs[i].Kwargs().Some?
    ensures FilterViews(vs, args, kwargs) ==
            Ok(exists i :: 0 <= i < |vs| && SatisfiesFilters(vs[i], args, kwargs))
  {
    if vs != [] {
      FilterViewsFindsSatisfying(vs[1..], args, kwargs);
      if !SatisfiesFilters(vs[0], args, kwargs) {
        if exists i :: 0 <= i < |vs| && SatisfiesFilters(vs[i], args, kwargs) {
          var i :| 0 <= i < |vs| && SatisfiesFilters(vs[i], args, kwargs);
          assert vs[1..][i - 1] == vs[i];
        }
      }
    }
  }

  /** Under the premise that the recorded positional arguments are lists
      (tests/unit/test_decorated.py:98 expects `[]`; the metadata is built
      outside this module), a caller's tuple never equals them, so
      positional filters never succeed. */
  lemma {:induction false} FilterViewsNeverMatchesPositionalArguments(vs: seq<Decorator>, args: seq<Value>, kwargs: Kwargs)
    requires forall i :: 0 <= i < |vs| && vs[i].Args().Some? ==> vs[i].Args().value.kind == List
    requires args != []
    ensures FilterViews(vs, args, kwargs) != Ok(true)
  {
    if vs != [] {
      FilterViewsNeverMatchesPositionalArguments(vs[1..], args, kwargs);
    }
  }

  /** The `Inspection` class: the inspected object and the cached list of
      its `Decorator` views. The object's `__wrappers__` list is shared with
      the decorator factory and can grow between calls, so every operation
      takes the object's attributes as they are at that call (`current`).
      `obj` is `_obj`: it only names the object that `current` describes,
      and no operation reads it. */
  class Inspection {
    const obj: ObjId
    var cache: seq<Decorator>

    constructor (obj: ObjId)
      ensures this.obj == obj && cache == []
    {
      this.obj := obj;
      cache := [];
    }

    /** `glossy`. */
    function Glossy(current: PyObject): (r: bool)
      ensures r <==> current.wrappers.Some? || current.glossyMark
    {
      IsGlossy(current)
    }

    /** `decorators`: fill the cache from `__wrappers__` when it is empty
        and the object is glossy, and return it. A filled cache is returned
        as it is, whatever the object holds now. */
    method Decorators(current: PyObject) returns (r: seq<Decorator>)
      modifies this
      ensures cache == Refreshed(old(cache), current) && r == cache
      ensures old(cache) != [] ==> r == old(cache)
      ensures old(cache) == [] && IsGlossy(current) ==> r == Views(WrappersOrEmpty(current))
      ensures old(cache) == [] && !IsGlossy(current) ==> r == []
    {
      if cache == [] && Glossy(current) {
        var ws := WrappersOrEmpty(current);
        var i := 0;
        while i < |ws|
          invariant 0 <= i <= |ws|
          invariant cache == Views(ws[..i])
        {
          assert ws[..i + 1][..i] == ws[..i];
          cache := cache + [Decorator(ws[i])];
          i := i + 1;
        }
        assert ws[..|ws|] == ws;
      }
      r := cache;
    }

    /** `is_decorated`: whether the decorators property is non-empty. */
    method IsDecorated(current: PyObject) returns (b: bool)
      modifies this
      ensures cache == Refreshed(old(cache), current)
      ensures b <==> cache != []
      ensures old(cache) == [] ==> (b <==> IsGlossy(current) && WrappersOrEmpty(current) != [])
    {
      var ds := Decorators(current);
      b := ds != [];
    }

    /** `is_decorated_by`: look for a view whose recorded arguments pass the
        given filters; `decorator` is never compared with anything. */
    method IsDecoratedBy(current: PyObject, decorator: DecoratorFn, args: seq<Value>, kwargs: Kwargs)
      returns (r: Result<bool>)
      modifies this
      ensures cache == Refreshed(old(cache), current)
      ensures r == FilterViews(cache, args, kwargs)
    {
      var ds := Decorators(current);
      var i := 0;
      while i < |ds|
        invariant 0 <= i <= |ds|
        invariant FilterViews(ds, args, kwargs) == FilterViews(ds[i..], args, kwargs)
      {
        assert ds[i..][1..] == ds[i + 1..];
        if decorator.name == decorator.name {
          var matchArgs := args == [] || Some(TupleOf(args)) == ds[i].Args();
          if kwargs != map[] && ds[i].Kwargs().None? {
            return Err(TypeError);
          }
          var matchKwargs := kwargs == map[] || kwargs == ds[i].Kwargs().value;
          if matchArgs && matchKwargs {
            return Ok(true);
          }
        }
        i := i + 1;
      }
      r := Ok(false);
    }
  }
}
