/** python/glossy/test.py: the older registry of mocked decorators, a
    dictionary from `id(func)` to a list of `(decorator, args, kwargs)`
    tuples compared by exact equality. */
module GlossyTest {
  import opened GlossyValues
  import opened GlossyInspect

  /** The `decorator` argument: a string naming a decorator, or the
      decorator object itself. */
  datatype DecoratorArg = ByName(name: string) | ByObject(fn: DecoratorFn)

  /** One registered tuple `(decorator, args or None, kwargs or None)`. */
  datatype MockRecord = MockRecord(decorator: DecoratorArg, args: Option<seq<Value>>, kwargs: Option<Kwargs>)

  /** The tuple built from a call's arguments; empty ones become `None`. */
  function RecordOf(decorator: DecoratorArg, args: seq<Value>, kwargs: Kwargs): (r: MockRecord)
    ensures r.decorator == decorator
    ensures r.args.None? <==> args == []
    ensures r.kwargs.None? <==> kwargs == map[]
    ensures r.args.Some? ==> r.args.value == args
    ensures r.kwargs.Some? ==> r.kwargs.value == kwargs
  {
    MockRecord(decorator,
               if args == [] then None else Some(args),
               if kwargs == map[] then None else Some(kwargs))
  }

  /** Lines 20-21: a string is resolved with `get_decorator` on `func`. */
  function Resolve(src: FunctionSource, decorator: DecoratorArg): (r: Option<DecoratorFn>)
    ensures decorator.ByObject? ==> r == Some(decorator.fn)
    ensures decorator.ByName? ==>
              r == FirstNamed(Discovered(src.lines, src.namespace), RemoveAll(decorator.name, Prefix))
  {
    match decorator
    case ByObject(fn) => Some(fn)
    case ByName(name) => FirstNamed(Discovered(src.lines, src.namespace), RemoveAll(name, Prefix))
  }

  /** `@simple` with the text after `(` and every `@` removed. */
  lemma SimpleLineCleaned()
    ensures RemoveAll(BeforeParen("@simple\n"), Prefix) == "simple\n"
  {
    var line := "@simple\n";
    assert line[1..] == "simple\n";
    BeforeParenAbsent(line);
    RemoveAllAbsent("simple\n", Prefix);
  }

  /** `"simple\n".strip()`. */
  lemma SimpleLineStripped()
    ensures Strip("simple\n") == "simple"
  {
    assert !IsSpace('s') && !IsSpace('e');
    assert StripLeading("simple\n") == "simple\n";
    assert "simple\n"[..6] == "simple";
  }

  /** The name read off the line `@simple`. */
  lemma SimpleLineName()
    ensures DecoratorName("@simple\n") == "simple"
  {
    SimpleLineCleaned();
    SimpleLineStripped();
  }

  /** The names asked for, with every `@` removed. */
  lemma NamesCleaned()
    ensures RemoveAll("@simple", Prefix) == "simple"
    ensures RemoveAll("simple", Prefix) == "simple"
    ensures RemoveAll("missing", Prefix) == "missing"
  {
    RemoveAllAbsent("simple", Prefix);
    RemoveAllAbsent("missing", Prefix);
    assert "@simple"[1..] == "simple";
  }

  /** Discovery on a function whose only decorator line is `@simple`. */
  lemma SimpleSourceDiscovered(d: DecoratorFn)
    ensures Discovered(["@simple\n", "def func():\n"], map["simple" := d]) == [d]
  {
    var lines := ["@simple\n", "def func():\n"];
    var ns := map["simple" := d];
    SimpleLineName();
    assert lines[..1][..0] == [];
    assert Discovered(lines[..1], ns) == [d];
  }

  /** A function with the single decorator line `@simple`: the name
      resolves with or without the `@`, and an unknown name resolves to
      nothing, which is where line 23 reads `None.__name__`. */
  lemma ResolveSimpleDecorator(d: DecoratorFn)
    requires d.name == "simple"
    ensures var src := FunctionSource(["@simple\n", "def func():\n"], map["simple" := d]);
            Resolve(src, ByName("@simple")) == Some(d) &&
            Resolve(src, ByName("simple")) == Some(d) &&
            Resolve(src, ByName("missing")) == None
  {
    SimpleSourceDiscovered(d);
    NamesCleaned();
  }

  /** What `is_mocked` looks for: the record in the list under `key`. */
  predicate IsMockedIn(mocks: map<ObjId, seq<MockRecord>>, key: ObjId, rec: MockRecord): (b: bool)
    ensures b <==> key in mocks && exists i :: 0 <= i < |mocks[key]| && mocks[key][i] == rec
  {
    key in mocks && rec in mocks[key]
  }

  /** `_mocks.setdefault(key, [])`. */
  function SetDefault(mocks: map<ObjId, seq<MockRecord>>, key: ObjId): (m: map<ObjId, seq<MockRecord>>)
    ensures m.Keys == mocks.Keys + {key}
    ensures forall k :: k in mocks ==> m[k] == mocks[k]
    ensures key !in mocks ==> m[key] == []
  {
    if key in mocks then mocks else mocks[key := []]
  }

  /** `_mocks.setdefault(key, []); _mocks[key].append(rec)`. */
  function Appended(mocks: map<ObjId, seq<MockRecord>>, key: ObjId, rec: MockRecord): (m: map<ObjId, seq<MockRecord>>)
    ensures m.Keys == mocks.Keys + {key}
    ensures m[key] == SetDefault(mocks, key)[key] + [rec]
    ensures forall k :: k in mocks && k != key ==> m[k] == mocks[k]
  {
    var m := SetDefault(mocks, key);
    m[key := m[key] + [rec]]
  }

  /** `list.remove(x)`: the first item equal to `x` taken out. */
  function RemoveFirst(s: seq<MockRecord>, x: MockRecord): (r: seq<MockRecord>)
    requires x in s
    ensures |r| == |s| - 1
  {
    if s[0] == x then s[1..] else [s[0]] + RemoveFirst(s[1..], x)
  }

  /** `remove` drops the first equal item and keeps the others in order. */
  lemma {:induction false} RemoveFirstSplits(s: seq<MockRecord>, x: MockRecord, i: nat)
    requires i < |s| && s[i] == x && x !in s[..i]
    ensures RemoveFirst(s, x) == s[..i] + s[i + 1..]
  {
    if i > 0 {
      assert s[0] != x by { assert s[0] == s[..i][0]; }
      assert s[1..][..i - 1] == s[1..i];
      RemoveFirstSplits(s[1..], x, i - 1);
      assert s[..i] == [s[0]] + s[1..i];
    }
  }

  /** `remove` takes out exactly one copy of `x`. */
  lemma {:induction false} RemoveFirstCount(s: seq<MockRecord>, x: MockRecord)
    requires x in s
    ensures multiset(RemoveFirst(s, x)) == multiset(s) - multiset{x}
  {
    assert s == [s[0]] + s[1..];
    if s[0] != x {
      RemoveFirstCount(s[1..], x);
    }
  }

  /** Removing a record just appended to a list that did not hold it gives
      the list back. */
  lemma {:induction false} RemoveFirstUndoesAppend(s: seq<MockRecord>, x: MockRecord)
    requires x !in s
    ensures RemoveFirst(s + [x], x) == s
  {
    if s != [] {
      assert (s + [x])[1..] == s[1..] + [x];
      RemoveFirstUndoesAppend(s[1..], x);
      assert [s[0]] + s[1..] == s;
    }
  }

  /** What the registration at line 28-29 leaves behind decides nothing:
      `setdefault` only adds an empty list, so it never makes a record mocked. */
  lemma SetDefaultMocksNothing(mocks: map<ObjId, seq<MockRecord>>, key: ObjId, k: ObjId, rec: MockRecord)
    ensures IsMockedIn(SetDefault(mocks, key), k, rec) <==> IsMockedIn(mocks, k, rec)
  {
  }

  /** A record appended under `key` is mocked there; records under other
      keys are as before. */
  lemma AppendedIsMocked(mocks: map<ObjId, seq<MockRecord>>, key: ObjId, rec: MockRecord, k: ObjId, other: MockRecord)
    ensures IsMockedIn(Appended(mocks, key, rec), key, rec)
    ensures k != key ==> (IsMockedIn(Appended(mocks, key, rec), k, other) <==> IsMockedIn(mocks, k, other))
  {
    var m := Appended(mocks, key, rec);
    assert m[key][|m[key]| - 1] == rec;
  }

  /** `unmock` after `mock` of a tuple that was not yet mocked leaves the
      table as `setdefault` left it. */
  lemma UnmockUndoesMock(mocks: map<ObjId, seq<MockRecord>>, key: ObjId, rec: MockRecord)
    requires !IsMockedIn(mocks, key, rec)
    ensures IsMockedIn(Appended(mocks, key, rec), key, rec)
    ensures var m := Appended(mocks, key, rec);
            m[key := RemoveFirst(m[key], rec)] == SetDefault(mocks, key)
  {
    var m := Appended(mocks, key, rec);
    AppendedIsMocked(mocks, key, rec, key, rec);
    RemoveFirstUndoesAppend(SetDefault(mocks, key)[key], rec);
  }

  /** `mock` stores the decorator object that a name resolves to, while
      `is_mocked` compares the tuple with the argument as given: a
      decorator mocked by name is never found by that name. */
  lemma MockedNameIsNotFoundByName(mocks: map<ObjId, seq<MockRecord>>, key: ObjId, f: DecoratorFn,
                                   args: seq<Value>, kwargs: Kwargs, name: string, args2: seq<Value>, kwargs2: Kwargs)
    ensures var m := Appended(mocks, key, RecordOf(ByObject(f), args, kwargs));
            (IsMockedIn(m, key, RecordOf(ByName(name), args2, kwargs2)) <==>
             IsMockedIn(mocks, key, RecordOf(ByName(name), args2, kwargs2)))
  {
    var m := Appended(mocks, key, RecordOf(ByObject(f), args, kwargs));
    var wanted := RecordOf(ByName(name), args2, kwargs2);
    assert m[key] == SetDefault(mocks, key)[key] + [RecordOf(ByObject(f), args, kwargs)];
    assert wanted != RecordOf(ByObject(f), args, kwargs);
  }

  /** The module-level `_mocks` dictionary and the functions over it. */
  class MockTable {
    var mocks: map<ObjId, seq<MockRecord>>

    constructor ()
      ensures mocks == map[]
    {
      mocks := map[];
    }

    /** `mock` as written. A name that does not resolve leaves `None`, and
        line 23 reads `None.__name__` before the ValueError branch, raising
        AttributeError. Otherwise line 29 adds an empty list under
        `id(func)`, and line 30 indexes `_mocks` by the function object,
        which is never one of the integer keys: KeyError, nothing appended. */
    method MockAsWritten(func: ObjId, src: FunctionSource, decorator: DecoratorArg,
                         args: seq<Value>, kwargs: Kwargs) returns (r: Result<()>)
      modifies this
      ensures Resolve(src, decorator).None? ==> r == Err(AttributeError) && mocks == old(mocks)
      ensures Resolve(src, decorator).Some? ==> r == Err(KeyError) && mocks == SetDefault(old(mocks), func)
    {
      var resolved: Option<DecoratorFn>;
      if decorator.ByName? {
        resolved := GetDecorator(src, decorator.name);
      } else {
        resolved := Some(decorator.fn);
      }
      if resolved.None? {
        return Err(AttributeError);
      }
      mocks := SetDefault(mocks, func);
      return Err(KeyError);
    }

    /** `mock` as its code evidently intends: ValueError when the decorator
        does not resolve, otherwise append `(decorator, args or None,
        kwargs or None)` to the list under `id(func)`. */
    method Mock(func: ObjId, src: FunctionSource, decorator: DecoratorArg,
                args: seq<Value>, kwargs: Kwargs) returns (r: Result<()>)
      modifies this
      ensures Resolve(src, decorator).None? ==> r == Err(ValueError) && mocks == old(mocks)
      ensures Resolve(src, decorator).Some? ==>
                r == Ok(()) &&
                mocks == Appended(old(mocks), func, RecordOf(ByObject(Resolve(src, decorator).value), args, kwargs))
    {
      var resolved: Option<DecoratorFn>;
      if decorator.ByName? {
        resolved := GetDecorator(src, decorator.name);
      } else {
        resolved := Some(decorator.fn);
      }
      if resolved.None? {
        return Err(ValueError);
      }
      mocks := SetDefault(mocks, func);
      mocks := mocks[func := mocks[func] + [RecordOf(ByObject(resolved.value), args, kwargs)]];
      r := Ok(());
    }

    /** `is_mocked`: search the list under `id(func)` for the exact tuple. */
    method IsMocked(func: ObjId, decorator: DecoratorArg, args: seq<Value>, kwargs: Kwargs) returns (b: bool)
      ensures b <==> IsMockedIn(mocks, func, RecordOf(decorator, args, kwargs))
    {
      var records := if func in mocks then mocks[func] else [];
      var wanted := RecordOf(decorator, args, kwargs);
      var i := 0;
      while i < |records|
        invariant 0 <= i <= |records|
        invariant wanted !in records[..i]
      {
        if records[i] == wanted {
          return true;
        }
        assert records[..i + 1] == records[..i] + [records[i]];
        i := i + 1;
      }
      assert records[..i] == records;
      return false;
    }

    /** `unmock`: when the tuple is mocked, remove its first occurrence from
        the list under `id(func)`; otherwise do nothing. */
    method Unmock(func: ObjId, decorator: DecoratorArg, args: seq<Value>, kwargs: Kwargs)
      modifies this
      ensures !IsMockedIn(old(mocks), func, RecordOf(decorator, args, kwargs)) ==> mocks == old(mocks)
      ensures IsMockedIn(old(mocks), func, RecordOf(decorator, args, kwargs)) ==>
                mocks == old(mocks)[func := RemoveFirst(old(mocks)[func], RecordOf(decorator, args, kwargs))]
    {
      var mocked := IsMocked(func, decorator, args, kwargs);
      if mocked {
        var rec := RecordOf(decorator, args, kwargs);
        mocks := mocks[func := RemoveFirst(mocks[func], rec)];
      }
    }
  }
}
