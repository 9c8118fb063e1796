/** The `Decorated` proxy of python/glossy/decorated.py: the decorations an
    object records, matching decorators by their "module.name" path, the
    process-wide registry of mocked decorators, and the choice `__call__`
    makes between the decorated callable and the one it wraps. */
module GlossyDecorated {
  import opened GlossyValues

  // ---------------------------------------------------------------------
  // Decorator paths and matching
  // ---------------------------------------------------------------------

  /** `get_decorator_path`: the module name, a dot, and the decorator's name. */
  function DecoratorPath(d: DecoratorFn): (p: string)
    ensures |p| == |d.moduleName| + 1 + |d.name|
    ensures p[..|d.moduleName|] == d.moduleName && p[|d.moduleName|] == '.'
    ensures p[|d.moduleName| + 1..] == d.name
  {
    d.moduleName + "." + d.name
  }

  /** `match_decorators`: two decorators match when their paths are equal.
      The same object always matches itself; matching decorators have paths
      of the same length. */
  predicate MatchDecorators(d1: DecoratorFn, d2: DecoratorFn): (b: bool)
    ensures d1 == d2 ==> b
    ensures b ==> |d1.moduleName| + |d1.name| == |d2.moduleName| + |d2.name|
  {
    DecoratorPath(d1) == DecoratorPath(d2)
  }

  /** Matching is an equivalence, and it holds between the same object. */
  lemma MatchDecoratorsIsEquivalence(d1: DecoratorFn, d2: DecoratorFn, d3: DecoratorFn)
    ensures MatchDecorators(d1, d1)
    ensures MatchDecorators(d1, d2) <==> MatchDecorators(d2, d1)
    ensures MatchDecorators(d1, d2) && MatchDecorators(d2, d3) ==> MatchDecorators(d1, d3)
  {
  }

  /** When neither name contains a dot (as with every `def`-defined function),
      two decorators match exactly when module and name are both equal:
      the identity of the objects plays no part. */
  lemma MatchDecoratorsByModuleAndName(d1: DecoratorFn, d2: DecoratorFn)
    requires '.' !in d1.name && '.' !in d2.name
    ensures MatchDecorators(d1, d2) <==> d1.moduleName == d2.moduleName && d1.name == d2.name
  {
  }

  /** Paths are compared as flat strings, so a dot may sit in either part:
      module `m.a` with name `b` matches module `m` with name `a.b`, whatever
      the two objects are. */
  lemma MatchDecoratorsJoinsAtAnyDot(i: ObjId, j: ObjId, m: string, a: string, b: string)
    ensures MatchDecorators(DecoratorFn(i, m + "." + a, b), DecoratorFn(j, m, a + "." + b))
  {
    assert (m + "." + a) + "." + b == m + "." + (a + "." + b);
  }

  // ---------------------------------------------------------------------
  // The recorded decorations
  // ---------------------------------------------------------------------

  /** The `decorators` property: the decorator of every `__wrappers__` entry. */
  function DecoratorsOf(ws: seq<Wrapper>): (ds: seq<DecoratorFn>)
    ensures |ds| == |ws|
    ensures forall i :: 0 <= i < |ws| ==> ds[i] == ws[i].decorator
  {
    if ws == [] then [] else [ws[0].decorator] + DecoratorsOf(ws[1..])
  }

  /** The dictionary `get_decorator_info` returns. */
  datatype DecoratorInfo = DecoratorInfo(obj: DecoratorFn, name: string,
                                         args: Option<PySeq>, kwargs: Option<Kwargs>)

  /** The information for one wrapper; `(None, None)` stands in for a
      missing `parameters` entry. */
  function InfoOf(w: Wrapper): (info: DecoratorInfo)
    ensures info.obj == w.decorator && info.name == w.decorator.name
    ensures info.args.None? <==> w.parameters.None?
    ensures info.kwargs.None? <==> w.parameters.None?
    ensures w.parameters.Some? ==>
              info.args == Some(w.parameters.value.args) && info.kwargs == Some(w.parameters.value.kwargs)
  {
    match w.parameters
    case None => DecoratorInfo(w.decorator, w.decorator.name, None, None)
    case Some(p) => DecoratorInfo(w.decorator, w.decorator.name, Some(p.args), Some(p.kwargs))
  }

  /** The index of the first wrapper whose decorator matches `d`, or `|ws|`. */
  function FirstMatch(ws: seq<Wrapper>, d: DecoratorFn): (k: nat)
    ensures k <= |ws|
    ensures forall j :: 0 <= j < k ==> !MatchDecorators(d, ws[j].decorator)
    ensures k < |ws| ==> MatchDecorators(d, ws[k].decorator)
  {
    if ws == [] then 0
    else if MatchDecorators(d, ws[0].decorator) then 0
    else 1 + FirstMatch(ws[1..], d)
  }

  /** `get_decorator_info`: the information of the first matching wrapper,
      `None` when no wrapper matches. */
  function GetDecoratorInfo(ws: seq<Wrapper>, d: DecoratorFn): (r: Option<DecoratorInfo>)
    ensures r.None? <==> forall i :: 0 <= i < |ws| ==> !MatchDecorators(d, ws[i].decorator)
    ensures forall i :: (0 <= i < |ws| && MatchDecorators(d, ws[i].decorator) &&
                         (forall j :: 0 <= j < i ==> !MatchDecorators(d, ws[j].decorator)))
                        ==> r == Some(InfoOf(ws[i]))
    ensures r.Some? ==> r.value.name == r.value.obj.name
    ensures r.Some? ==> exists i :: 0 <= i < |ws| && ws[i].decorator == r.value.obj &&
                          (ws[i].parameters.None? <==> r.value.args.None? && r.value.kwargs.None?)
  {
    var k := FirstMatch(ws, d);
    if k < |ws| then Some(InfoOf(ws[k])) else None
  }

  /** `is_decorated_by` as a function of the recorded wrappers. Positional
      arguments are a tuple and the recorded ones are a list or `None`;
      `dict(None)` raises TypeError when keyword arguments were given but the
      matching wrapper recorded no parameters. */
  function DecoratedBy(ws: seq<Wrapper>, d: DecoratorFn, args: seq<Value>, kwargs: Kwargs): (r: Result<bool>)
    ensures r.Err? ==> r.error == TypeError && kwargs != map[] &&
                       GetDecoratorInfo(ws, d).Some? && GetDecoratorInfo(ws, d).value.kwargs.None?
    ensures r == Ok(true) ==>
              GetDecoratorInfo(ws, d).Some? &&
              (args == [] || GetDecoratorInfo(ws, d).value.args == Some(TupleOf(args))) &&
              (kwargs == map[] || GetDecoratorInfo(ws, d).value.kwargs == Some(kwargs))
  {
    match GetDecoratorInfo(ws, d)
    case None => Ok(false)
    case Some(info) =>
      var argsOk := args == [] || info.args == Some(TupleOf(args));
      if kwargs != map[] && info.kwargs.None? then Err(TypeError)
      else Ok(argsOk && (kwargs == map[] || info.kwargs == Some(kwargs)))
  }

  /** Without a matching wrapper the answer is False, whatever the arguments. */
  lemma NotDecoratedByUnmatched(ws: seq<Wrapper>, d: DecoratorFn, args: seq<Value>, kwargs: Kwargs)
    requires forall i :: 0 <= i < |ws| ==> !MatchDecorators(d, ws[i].decorator)
    ensures DecoratedBy(ws, d, args, kwargs) == Ok(false)
  {
  }

  /** With no arguments to compare, the answer is whether some wrapper matches. */
  lemma DecoratedByWithoutArguments(ws: seq<Wrapper>, d: DecoratorFn)
    ensures DecoratedBy(ws, d, [], map[]) ==
            Ok(exists i :: 0 <= i < |ws| && MatchDecorators(d, ws[i].decorator))
  {
  }

  /** Given arguments that differ from those the first matching wrapper
      recorded make the answer something other than True. */
  lemma DecoratedByRejectsOtherArguments(ws: seq<Wrapper>, d: DecoratorFn, i: nat, args: seq<Value>, kwargs: Kwargs)
    requires i < |ws| && MatchDecorators(d, ws[i].decorator)
    requires forall j :: 0 <= j < i ==> !MatchDecorators(d, ws[j].decorator)
    requires (args != [] && InfoOf(ws[i]).args != Some(TupleOf(args))) ||
             (kwargs != map[] && InfoOf(ws[i]).kwargs != Some(kwargs))
    ensures DecoratedBy(ws, d, args, kwargs) != Ok(true)
  {
    assert GetDecoratorInfo(ws, d) == Some(InfoOf(ws[i]));
  }

  /** When the first matching entry recorded parameters (or no keyword
      arguments are given), differing filters give False rather than an
      error. */
  lemma DecoratedByFalseForOtherArguments(ws: seq<Wrapper>, d: DecoratorFn, i: nat, args: seq<Value>, kwargs: Kwargs)
    requires i < |ws| && MatchDecorators(d, ws[i].decorator)
    requires forall j :: 0 <= j < i ==> !MatchDecorators(d, ws[j].decorator)
    requires (args != [] && InfoOf(ws[i]).args != Some(TupleOf(args))) ||
             (kwargs != map[] && InfoOf(ws[i]).kwargs != Some(kwargs))
    requires kwargs == map[] || ws[i].parameters.Some?
    ensures DecoratedBy(ws, d, args, kwargs) == Ok(false)
  {
    assert GetDecoratorInfo(ws, d) == Some(InfoOf(ws[i]));
  }

  /** Given filters that equal what the first matching entry recorded (or
      are empty) confirm the decoration. */
  lemma DecoratedByAcceptsRecordedArguments(ws: seq<Wrapper>, d: DecoratorFn, i: nat, args: seq<Value>, kwargs: Kwargs)
    requires i < |ws| && MatchDecorators(d, ws[i].decorator)
    requires forall j :: 0 <= j < i ==> !MatchDecorators(d, ws[j].decorator)
    requires args == [] || InfoOf(ws[i]).args == Some(TupleOf(args))
    requires kwargs == map[] || InfoOf(ws[i]).kwargs == Some(kwargs)
    ensures DecoratedBy(ws, d, args, kwargs) == Ok(true)
  {
    assert GetDecoratorInfo(ws, d) == Some(InfoOf(ws[i]));
  }

  /** Keyword filters against a first matching entry without parameters hit
      `dict(None)`, which raises TypeError. */
  lemma DecoratedByKwargsWithoutParametersFails(ws: seq<Wrapper>, d: DecoratorFn, i: nat, args: seq<Value>, kwargs: Kwargs)
    requires i < |ws| && MatchDecorators(d, ws[i].decorator)
    requires forall j :: 0 <= j < i ==> !MatchDecorators(d, ws[j].decorator)
    requires ws[i].parameters.None? && kwargs != map[]
    ensures DecoratedBy(ws, d, args, kwargs) == Err(TypeError)
  {
    assert GetDecoratorInfo(ws, d) == Some(InfoOf(ws[i]));
  }

  /** The metadata the decorator factory records holds the positional
      arguments as a list (tests/unit/test_decorated.py:98 expects `[]`),
      while a caller's are a tuple. Under that premise, which is about
      metadata built outside this module, positional arguments never
      confirm a decoration. */
  lemma DecoratedByNeverMatchesPositionalArguments(ws: seq<Wrapper>, d: DecoratorFn, args: seq<Value>, kwargs: Kwargs)
    requires forall i :: 0 <= i < |ws| && ws[i].parameters.Some? ==> ws[i].parameters.value.args.kind == List
    requires args != []
    ensures DecoratedBy(ws, d, args, kwargs) != Ok(true)
  {
    var k := FirstMatch(ws, d);
    if k < |ws| {
      assert GetDecoratorInfo(ws, d) == Some(InfoOf(ws[k]));
    }
  }

  // ---------------------------------------------------------------------
  // The `__wrapped__` chain
  // ---------------------------------------------------------------------

  /** The object reached from `o` after following at most `n` `__wrapped__`
      links; the walk stays put at an object without the attribute. */
  function Follow(links: map<ObjId, ObjId>, o: ObjId, n: nat): ObjId
    decreases n
  {
    if n == 0 || o !in links then o else Follow(links, links[o], n - 1)
  }

  /** Following the links from `o` reaches an object without `__wrapped__`. */
  ghost predicate ChainEnds(links: map<ObjId, ObjId>, o: ObjId)
  {
    exists n: nat :: Follow(links, o, n) !in links
  }

  lemma {:induction false} FollowStep(links: map<ObjId, ObjId>, o: ObjId, n: nat)
    requires Follow(links, o, n) in links
    ensures Follow(links, o, n + 1) == links[Follow(links, o, n)]
    decreases n
  {
    if n > 0 {
      FollowStep(links, links[o], n - 1);
    }
  }

  lemma {:induction false} FollowStaysAtEnd(links: map<ObjId, ObjId>, o: ObjId, n: nat, m: nat)
    requires Follow(links, o, n) !in links && n <= m
    ensures Follow(links, o, m) == Follow(links, o, n)
    decreases n
  {
    if n > 0 && o in links {
      FollowStaysAtEnd(links, links[o], n - 1, m - 1);
    }
  }

  /** The innermost object: where the chain from `o` ends. */
  ghost function Innermost(links: map<ObjId, ObjId>, o: ObjId): (w: ObjId)
    requires ChainEnds(links, o)
    ensures w !in links
  {
    var n: nat :| Follow(links, o, n) !in links;
    Follow(links, o, n)
  }

  /** Every walk from `o` that stops at an object without `__wrapped__`
      stops at the innermost object. */
  lemma InnermostIsUnique(links: map<ObjId, ObjId>, o: ObjId, n: nat)
    requires Follow(links, o, n) !in links
    ensures Innermost(links, o) == Follow(links, o, n)
  {
    var k: nat :| Follow(links, o, k) !in links && Innermost(links, o) == Follow(links, o, k);
    if k <= n {
      FollowStaysAtEnd(links, o, k, n);
    } else {
      FollowStaysAtEnd(links, o, n, k);
    }
  }

  // ---------------------------------------------------------------------
  // The mock registry
  // ---------------------------------------------------------------------

  /** What `mock_decorator` stores for the arguments: `args or ANY`. */
  datatype ArgsPattern = AnyArgs | ArgsTuple(items: seq<Value>)

  /** What `mock_decorator` stores for the keyword arguments: `kwargs or ANY`. */
  datatype KwargsPattern = AnyKwargs | KwargsDict(dict: Kwargs)

  /** One `(decorator, args|ANY, kwargs|ANY)` entry of the registry. */
  datatype MockEntry = MockEntry(decorator: DecoratorFn, args: ArgsPattern, kwargs: KwargsPattern)

  function ArgsOrAny(args: seq<Value>): (p: ArgsPattern)
    ensures p.AnyArgs? <==> args == []
    ensures p.ArgsTuple? ==> p.items == args
  {
    if args == [] then AnyArgs else ArgsTuple(args)
  }

  function KwargsOrAny(kwargs: Kwargs): (p: KwargsPattern)
    ensures p.AnyKwargs? <==> kwargs == map[]
    ensures p.KwargsDict? ==> p.dict == kwargs
  {
    if kwargs == map[] then AnyKwargs else KwargsDict(kwargs)
  }

  /** `x == ANY`: `unittest.mock.ANY` compares equal to every object. */
  predicate EqualsAny<T>(x: T)
  {
    true
  }

  /** `mocked_args in (args, ANY)`: always true, since the second
      comparison is with ANY. */
  predicate ArgsMember(p: ArgsPattern, args: seq<Value>): (b: bool)
    ensures b
  {
    (p.ArgsTuple? && p.items == args) || EqualsAny(p)
  }

  /** `mocked_kwargs in (kwargs, ANY)`: always true, for the same reason. */
  predicate KwargsMember(p: KwargsPattern, kwargs: Kwargs): (b: bool)
    ensures b
  {
    (p.KwargsDict? && p.dict == kwargs) || EqualsAny(p)
  }

  /** The test one registry entry passes in `is_decorator_mocked`. */
  predicate EntryMatches(e: MockEntry, d: DecoratorFn, args: seq<Value>, kwargs: Kwargs): (b: bool)
    ensures b <==> MatchDecorators(d, e.decorator)
  {
    MatchDecorators(d, e.decorator) && ArgsMember(e.args, args) && KwargsMember(e.kwargs, kwargs)
  }

  /** `is_decorator_mocked` over the entries registered for one object. */
  predicate DecoratorMocked(entries: seq<MockEntry>, d: DecoratorFn, args: seq<Value>, kwargs: Kwargs): (b: bool)
    ensures b <==> exists i :: 0 <= i < |entries| && MatchDecorators(d, entries[i].decorator)
  {
    exists i :: 0 <= i < |entries| && EntryMatches(entries[i], d, args, kwargs)
  }

  /** Since ANY equals everything, the arguments never decide whether a
      decorator counts as mocked: any two calls get the same answer. */
  lemma MockedIgnoresArguments(entries: seq<MockEntry>, d: DecoratorFn,
                               args: seq<Value>, kwargs: Kwargs, args2: seq<Value>, kwargs2: Kwargs)
    ensures DecoratorMocked(entries, d, args, kwargs) <==> DecoratorMocked(entries, d, args2, kwargs2)
  {
  }

  /** `_mocks.get(key, [])`. */
  function MockedEntries(mocks: map<ObjId, seq<MockEntry>>, key: ObjId): (es: seq<MockEntry>)
    ensures key in mocks ==> es == mocks[key]
    ensures key !in mocks ==> es == []
  {
    if key in mocks then mocks[key] else []
  }

  /** `_mocks.setdefault(key, []).append(e)`. */
  function Registered(mocks: map<ObjId, seq<MockEntry>>, key: ObjId, e: MockEntry): (m: map<ObjId, seq<MockEntry>>)
    ensures m.Keys == mocks.Keys + {key}
    ensures m[key] == MockedEntries(mocks, key) + [e]
    ensures forall k :: k in mocks && k != key ==> m[k] == mocks[k]
  {
    mocks[key := MockedEntries(mocks, key) + [e]]
  }

  /** Once an entry for `d` is registered under `key`, `d` and every
      decorator with the same path count as mocked there, for any call
      arguments, while other objects keep their mocked decorators. */
  lemma RegisteredIsMocked(mocks: map<ObjId, seq<MockEntry>>, key: ObjId, e: MockEntry,
                           d: DecoratorFn, args: seq<Value>, kwargs: Kwargs, other: ObjId)
    requires MatchDecorators(d, e.decorator)
    requires other != key
    ensures DecoratorMocked(MockedEntries(Registered(mocks, key, e), key), d, args, kwargs)
    ensures MockedEntries(Registered(mocks, key, e), other) == MockedEntries(mocks, other)
  {
    var es := MockedEntries(Registered(mocks, key, e), key);
    assert es[|es| - 1] == e;
    assert EntryMatches(es[|es| - 1], d, args, kwargs);
  }

  /** After `clear_mocks` nothing is mocked for any object. */
  lemma ClearedRegistryMocksNothing(key: ObjId, d: DecoratorFn, args: seq<Value>, kwargs: Kwargs)
    ensures !DecoratorMocked(MockedEntries(map[], key), d, args, kwargs)
  {
  }

  /** The module-level `_mocks` dictionary. */
  class MockRegistry {
    var mocks: map<ObjId, seq<MockEntry>>

    constructor ()
      ensures mocks == map[]
    {
      mocks := map[];
    }

    /** `clear_mocks`: rebind the registry to an empty dictionary. */
    method Clear()
      modifies this
      ensures mocks == map[]
      ensures forall key, d, args, kwargs :: !DecoratorMocked(MockedEntries(mocks, key), d, args, kwargs)
    {
      mocks := map[];
    }
  }

  // ---------------------------------------------------------------------
  // The proxy
  // ---------------------------------------------------------------------

  /** A decorated function or class. `func` is the callable built for the
      decoration (`_func`); `wrappers` is its `__wrappers__` list, which the
      decorator factory fills in. */
  class Decorated {
    const func: ObjId
    var wrappers: seq<Wrapper>

    constructor (func: ObjId)
      ensures this.func == func && wrappers == []
    {
      this.func := func;
      wrappers := [];
    }

    /** The `wrapped` property: follow `__wrapped__` from `_func` until an
        object without it is reached. */
    method Wrapped(links: map<ObjId, ObjId>) returns (w: ObjId)
      requires ChainEnds(links, func)
      ensures w !in links
      ensures w == Innermost(links, func)
    {
      ghost var n: nat :| Follow(links, func, n) !in links;
      ghost var k: nat := 0;
      w := func;
      while w in links
        invariant k <= n
        invariant w == Follow(links, func, k)
        decreases n - k
      {
        if k == n {
          assert false;
        }
        FollowStep(links, func, k);
        w := links[w];
        k := k + 1;
      }
      InnermostIsUnique(links, func, k);
    }

    /** `is_decorated_by`, keeping the `status` flag of the source. */
    method IsDecoratedBy(d: DecoratorFn, args: seq<Value>, kwargs: Kwargs) returns (r: Result<bool>)
      ensures r == DecoratedBy(wrappers, d, args, kwargs)
    {
      var status := false;
      var info := GetDecoratorInfo(wrappers, d);
      if info.Some? {
        status := true;
        if args != [] && Some(TupleOf(args)) != info.value.args {
          status := false;
        }
        assert status == (args == [] || info.value.args == Some(TupleOf(args)));
        if kwargs != map[] {
          if info.value.kwargs.None? {
            return Err(TypeError);
          }
          if kwargs != info.value.kwargs.value {
            status := false;
          }
        }
      }
      r := Ok(status);
    }

    /** `mock_decorator`: register `(d, args or ANY, kwargs or ANY)` under
        the innermost object, ignore the request when the parameters do not
        match, raise ValueError when no wrapper matches at all. */
    method MockDecorator(registry: MockRegistry, links: map<ObjId, ObjId>,
                         d: DecoratorFn, args: seq<Value>, kwargs: Kwargs) returns (r: Result<()>)
      requires (GetDecoratorInfo(wrappers, d).None? || DecoratedBy(wrappers, d, args, kwargs) == Ok(true)) ==>
               ChainEnds(links, func)
      modifies registry
      ensures GetDecoratorInfo(wrappers, d).None? ==>
                r == Err(ValueError) && registry.mocks == old(registry.mocks)
      ensures DecoratedBy(wrappers, d, args, kwargs) == Err(TypeError) ==>
                r == Err(TypeError) && registry.mocks == old(registry.mocks)
      ensures GetDecoratorInfo(wrappers, d).Some? && DecoratedBy(wrappers, d, args, kwargs) == Ok(false) ==>
                r == Ok(()) && registry.mocks == old(registry.mocks)
      ensures DecoratedBy(wrappers, d, args, kwargs) == Ok(true) ==>
                ChainEnds(links, func) && r == Ok(()) &&
                registry.mocks == Registered(old(registry.mocks), Innermost(links, func),
                                             MockEntry(d, ArgsOrAny(args), KwargsOrAny(kwargs)))
    {
      var status := IsDecoratedBy(d, args, kwargs);
      if status.Err? {
        return Err(status.error);
      }
      if !status.value {
        var info := GetDecoratorInfo(wrappers, d);
        if info.None? {
          var _ := Wrapped(links);  // read for the error message
          return Err(ValueError);
        } else {
          return Ok(());
        }
      }
      var key := Wrapped(links);
      registry.mocks := Registered(registry.mocks, key, MockEntry(d, ArgsOrAny(args), KwargsOrAny(kwargs)));
      r := Ok(());
    }

    /** `is_decorator_mocked`: scan the entries registered under the
        innermost object for one whose decorator path matches. */
    method IsDecoratorMocked(registry: MockRegistry, links: map<ObjId, ObjId>,
                             d: DecoratorFn, args: seq<Value>, kwargs: Kwargs) returns (b: bool)
      requires ChainEnds(links, func)
      ensures b <==> DecoratorMocked(MockedEntries(registry.mocks, Innermost(links, func)), d, args, kwargs)
    {
      var key := Wrapped(links);
      var entries := MockedEntries(registry.mocks, key);
      var i := 0;
      while i < |entries|
        invariant 0 <= i <= |entries|
        invariant forall j :: 0 <= j < i ==> !EntryMatches(entries[j], d, args, kwargs)
      {
        var e := entries[i];
        if MatchDecorators(d, e.decorator) {
          var matchedArgs := ArgsMember(e.args, args);
          var matchedKwargs := KwargsMember(e.kwargs, kwargs);
          if matchedArgs && matchedKwargs {
            return true;
          }
        }
        i := i + 1;
      }
      return false;
    }

    /** The callable `__call__` invokes: `_func.__wrapped__` when the current
        decorator is mocked (AttributeError if `_func` has no `__wrapped__`),
        `_func` otherwise. `current` is the decorator `_decorator` finds. */
    method Call(registry: MockRegistry, links: map<ObjId, ObjId>,
                current: DecoratorFn, args: seq<Value>, kwargs: Kwargs) returns (callee: Result<ObjId>)
      requires ChainEnds(links, func)
      ensures DecoratorMocked(MockedEntries(registry.mocks, Innermost(links, func)), current, args, kwargs) ==>
                callee == (if func in links then Ok(links[func]) else Err(AttributeError))
      ensures !DecoratorMocked(MockedEntries(registry.mocks, Innermost(links, func)), current, args, kwargs) ==>
                callee == Ok(func)
    {
      var mocked := IsDecoratorMocked(registry, links, current, args, kwargs);
      if mocked {
        if func in links {
          return Ok(links[func]);
        }
        return Err(AttributeError);
      }
      callee := Ok(func);
    }
  }
}
