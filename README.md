# glossy, modelled in Dafny

glossy decorates Python functions and classes so that their decorators can
be inspected and, in tests, mocked. This project models its core:

- `decorated.py` (module `GlossyDecorated`, file `decorated.dfy`): the
  `Decorated` proxy. It covers the `__wrappers__` metadata each decoration
  records, how decorators are matched by their `module.name` path, and
  `is_decorated_by` / `get_decorator_info`. It also covers the innermost
  object reached through `__wrapped__`, the process-wide `_mocks` registry
  (`mock_decorator`, `is_decorator_mocked`, `clear_mocks`), and the choice
  `__call__` makes between the decorated callable and the one it wraps.
- `inspect.py` (module `GlossyInspect`, file `inspect.dfy`): how the
  decorators of a function are read off its source lines (`get_decorators`,
  `get_decorator`, `is_decorated`, `has_decorator`, `has_decorators`). It
  also covers the `Inspection` and `Decorator` views over `__wrappers__`,
  with the cache the `decorators` property fills.
- `test.py` (module `GlossyTest`, file `mocking.dfy`): the older mock table,
  `mock`, `is_mocked` and `unmock`, keyed by `id(func)`.
- `values.dfy` (module `GlossyValues`): the shared values — object
  identities, decorator functions, call arguments, the recorded `Wrapper`
  entries, the `Option`/`Result` wrappers and the exceptions raised.

Python's reflection becomes plain data:

- `id()` is an `ObjId`.
- A decorator function is a `DecoratorFn` holding its identity, its module's
  name and its `__name__`. Equal values are the same object.
- The `__wrapped__` attribute of every object is a map `links` from object
  to object.
- `inspect.getmodule` plus `inspect.getsourcelines` become a
  `FunctionSource`: the source lines and the module's attributes.
- Python's `==` never holds between a tuple and a list, so a `PySeq` carries
  its kind.
- `unittest.mock.ANY` compares equal to everything (`EqualsAny`).
- `dict(None)` raises TypeError.
- `str.strip()` removes exactly the characters `str.isspace()` accepts.

Stateful parts are classes whose methods change fields. These are the
`_mocks` registries (`MockRegistry`, `MockTable`), the `Decorated` proxy and
`Inspection` with its cache. Each method is proved against a function of its
inputs and old state. Those functions carry the lemmas.

Two behaviours are modelled as the code is written and proved as its
consequences. Comments in the source suggest the argument checks were meant
to constrain the result: decorated.py:85-86 and inspect.py:56-59 say given
arguments are checked against the recorded ones, and decorated.py:134-136
implies that given arguments restrict mocking. As written, they do not:

- The recorded positional arguments are a list (tests/unit/test_decorated.py:98
  expects `"args": []`), and callers pass a tuple. So positional arguments
  never confirm a decoration, either in `Decorated.is_decorated_by` or in
  `Inspection.is_decorated_by`. The metadata is built outside the core, so
  that it holds a list is a premise of these two lemmas, not something the
  model derives.
- `ANY` equals everything, so `mocked_args in (args, ANY)` at
  decorated.py:162-163 always holds and `is_decorator_mocked` ignores the
  call's arguments.

`Inspection.is_decorated_by` compares `decorator.__name__` with itself, so
the decorator passed in plays no part.

## Model

| member | source | states |
|---|---|---|
| GlossyDecorated.MatchDecorators | python/glossy/decorated.py:181-190 | a decorator always matches itself, and matching decorators have paths of equal length |
| GlossyDecorated.DecoratorPath | python/glossy/decorated.py:193-198 | the path is the module name, one dot, then the name, and nothing else |
| GlossyDecorated.MatchDecoratorsIsEquivalence | python/glossy/decorated.py:181-190 | matching by path is reflexive, symmetric and transitive |
| GlossyDecorated.MatchDecoratorsByModuleAndName | python/glossy/decorated.py:181-198 | for dot-free names, two decorators match iff module and name are equal; identity plays no part |
| GlossyDecorated.MatchDecoratorsJoinsAtAnyDot | python/glossy/decorated.py:188-190 | for any strings `m`, `a`, `b`, module `m.a` with name `b` matches module `m` with name `a.b`, because the paths are compared as flat strings |
| GlossyDecorated.DecoratorsOf | python/glossy/decorated.py:63-70 | one decorator per `__wrappers__` entry, the i-th being the i-th entry's decorator |
| GlossyDecorated.FirstMatch | python/glossy/decorated.py:99-101 | no entry before the returned index matches; the index is the length or a matching entry |
| GlossyDecorated.InfoOf | python/glossy/decorated.py:102-108 | obj and name come from the entry's decorator; args and kwargs are None iff the entry has no parameters, else the recorded ones |
| GlossyDecorated.GetDecoratorInfo | python/glossy/decorated.py:95-108 | None iff no entry matches; otherwise the info of the first matching entry, its name the object's `__name__`, args and kwargs None iff the entry has no parameters |
| GlossyDecorated.DecoratedBy | python/glossy/decorated.py:72-93 | TypeError only when kwargs are given and the matching entry has no parameters; True only when a matching entry exists and each given filter equals what it recorded |
| GlossyDecorated.NotDecoratedByUnmatched | python/glossy/decorated.py:76-93 | with no matching entry the answer is False for any arguments |
| GlossyDecorated.DecoratedByWithoutArguments | python/glossy/decorated.py:76-93 | with no arguments the answer is whether some entry matches |
| GlossyDecorated.DecoratedByRejectsOtherArguments | python/glossy/decorated.py:85-91 | given args or kwargs that differ from those recorded by the first matching entry never yield True |
| GlossyDecorated.DecoratedByFalseForOtherArguments | python/glossy/decorated.py:85-91 | when the first matching entry recorded parameters, or no kwargs are given, args or kwargs that differ from the recorded ones give False |
| GlossyDecorated.DecoratedByAcceptsRecordedArguments | python/glossy/decorated.py:80-93 | when the first matching entry recorded the given kwargs, and the args are empty or equal as a tuple, the answer is True |
| GlossyDecorated.DecoratedByKwargsWithoutParametersFails | python/glossy/decorated.py:80-90 | given kwargs and a first matching entry without parameters, `dict(None)` raises TypeError |
| GlossyDecorated.DecoratedByNeverMatchesPositionalArguments | python/glossy/decorated.py:87-88 | when the recorded args are lists, any non-empty positional arguments make the answer not True |
| GlossyDecorated.Innermost | python/glossy/decorated.py:57-61 | the innermost object has no `__wrapped__` |
| GlossyDecorated.InnermostIsUnique | python/glossy/decorated.py:57-61 | every walk along `__wrapped__` that stops at an object without it stops at the same object |
| GlossyDecorated.ArgsOrAny | python/glossy/decorated.py:154 | ANY iff no positional arguments are given, else exactly those arguments |
| GlossyDecorated.KwargsOrAny | python/glossy/decorated.py:154 | ANY iff no keyword arguments are given, else exactly those arguments |
| GlossyDecorated.ArgsMember | python/glossy/decorated.py:162 | `mocked_args in (args, ANY)` is always true |
| GlossyDecorated.KwargsMember | python/glossy/decorated.py:163 | `mocked_kwargs in (kwargs, ANY)` is always true |
| GlossyDecorated.EntryMatches | python/glossy/decorated.py:160-167 | an entry counts iff its decorator matches by path |
| GlossyDecorated.DecoratorMocked | python/glossy/decorated.py:156-167 | a decorator is mocked iff some registered entry's decorator matches it by path |
| GlossyDecorated.MockedIgnoresArguments | python/glossy/decorated.py:156-167 | any two argument lists get the same answer about whether a decorator is mocked |
| GlossyDecorated.MockedEntries | python/glossy/decorated.py:120-128 | the registered list for a key, or the empty list when the key is absent |
| GlossyDecorated.Registered | python/glossy/decorated.py:152-154 | the key is added, its list gains the entry at the end, other keys keep their lists |
| GlossyDecorated.RegisteredIsMocked | python/glossy/decorated.py:152-167 | after registering, any decorator with the same path is mocked under that key for all arguments, and other keys are unchanged |
| GlossyDecorated.ClearedRegistryMocksNothing | python/glossy/decorated.py:10-12 | in an empty registry nothing is mocked |
| GlossyDecorated.MockRegistry.constructor | python/glossy/decorated.py:7 | the registry starts empty |
| GlossyDecorated.MockRegistry.Clear | python/glossy/decorated.py:10-12 | afterwards the registry is empty and no decorator is mocked for any object |
| GlossyDecorated.Decorated.constructor | python/glossy/decorated.py:24-33 | keeps the callable and starts with no wrappers |
| GlossyDecorated.Decorated.Wrapped | python/glossy/decorated.py:50-61 | the loop returns the innermost object of the `__wrapped__` chain |
| GlossyDecorated.Decorated.IsDecoratedBy | python/glossy/decorated.py:72-93 | the status-flag code equals the `DecoratedBy` specification, TypeError included |
| GlossyDecorated.Decorated.MockDecorator | python/glossy/decorated.py:130-154 | ValueError and no change when nothing matches; TypeError and no change from `dict(None)`; no change when the parameters differ; otherwise the `(decorator, args or ANY, kwargs or ANY)` entry is appended under the innermost object; the `__wrapped__` chain must end only on the two paths that read it |
| GlossyDecorated.Decorated.IsDecoratorMocked | python/glossy/decorated.py:156-167 | the scan is true iff some entry under the innermost object matches by path and arguments |
| GlossyDecorated.Decorated.Call | python/glossy/decorated.py:169-178 | a mocked current decorator calls `_func.__wrapped__`, or raises AttributeError when `_func` has none; otherwise `_func` is called |
| GlossyInspect.BeforeParenIsPrefix | python/glossy/inspect.py:147 | `split("(")[0]` is the longest prefix without `(` |
| GlossyInspect.RemoveAllRemoves | python/glossy/inspect.py:168 | `replace(PREFIX, "")` leaves no `@` and keeps every other character with its count |
| GlossyInspect.RemoveAllAbsent | python/glossy/inspect.py:168 | text without the removed character comes back unchanged |
| GlossyInspect.BeforeParenAbsent | python/glossy/inspect.py:147 | text without `(` is its own `split("(")[0]` |
| GlossyInspect.StripLeadingIsSuffix | python/glossy/inspect.py:147 | removing leading whitespace leaves a suffix that does not start with whitespace, and only whitespace was dropped |
| GlossyInspect.StripTrailingIsPrefix | python/glossy/inspect.py:147 | removing trailing whitespace leaves a prefix that does not end with whitespace, and only whitespace was dropped |
| GlossyInspect.StripTrims | python/glossy/inspect.py:147 | a stripped string has no whitespace at either end |
| GlossyInspect.StripEmptyIffBlank | python/glossy/inspect.py:147 | a stripped string is empty iff the input is all whitespace |
| GlossyInspect.StripKeepsCharacters | python/glossy/inspect.py:147 | stripping only removes characters |
| GlossyInspect.StripKeepsOut | python/glossy/inspect.py:147 | stripping never introduces a character |
| GlossyInspect.DecoratorName | python/glossy/inspect.py:147 | a name read off a decorator line holds no `@` and no `(` and has no whitespace at its ends |
| GlossyInspect.Discovered | python/glossy/inspect.py:145-152 | at most one decorator per line, each an attribute of the function's module |
| GlossyInspect.DiscoveredConcat | python/glossy/inspect.py:145-150 | discovery distributes over concatenated lines, so it keeps source order |
| GlossyInspect.DiscoveredLength | python/glossy/inspect.py:145-150 | at most one decorator per `@` line |
| GlossyInspect.DiscoveredMembers | python/glossy/inspect.py:132-152 | a decorator is discovered iff some `@` line names it among the module's attributes |
| GlossyInspect.DiscoveredEmpty | python/glossy/inspect.py:132-152 | nothing is discovered iff no line names a decorator of the module |
| GlossyInspect.GetDecorators | python/glossy/inspect.py:132-152 | the loop collects exactly the discovered decorators, in order |
| GlossyInspect.FirstNamed | python/glossy/inspect.py:171-174 | None iff no decorator has the name; otherwise the first one that has it |
| GlossyInspect.GetDecorator | python/glossy/inspect.py:155-176 | the first discovered decorator whose `__name__` is the name with every `@` removed, or None |
| GlossyInspect.IsDecorated | python/glossy/inspect.py:179-189 | true iff some source line names a decorator of the module |
| GlossyInspect.HasDecorator | python/glossy/inspect.py:192-210 | true iff the decorator is among the discovered ones |
| GlossyInspect.HasDecorators | python/glossy/inspect.py:213-224 | true iff every listed decorator is discovered, so true for an empty list |
| GlossyInspect.IsGlossy | python/glossy/inspect.py:119-129 | true iff the object has `__wrappers__` or `__glossy__` |
| GlossyInspect.Decorator.Parameters | python/glossy/inspect.py:81-88 | the entry's recorded `parameters`, None when it has none |
| GlossyInspect.Decorator.Args | python/glossy/inspect.py:90-97 | None iff the entry has no parameters, else the recorded positional arguments |
| GlossyInspect.Decorator.Kwargs | python/glossy/inspect.py:99-106 | None iff the entry has no parameters, else the recorded keyword arguments |
| GlossyInspect.Views | python/glossy/inspect.py:37-40 | one view per wrapper, in order |
| GlossyInspect.RefreshedIsStable | python/glossy/inspect.py:30-42 | reading the property twice gives what one read gave: the views of the wrappers for a glossy object, nothing otherwise |
| GlossyInspect.FilterViews | python/glossy/inspect.py:52-68 | TypeError only when kwargs are given and some view has no parameters; True only when some view passes both filters |
| GlossyInspect.StaleCacheHidesNewWrappers | python/glossy/inspect.py:37-42 | once the cache is filled, a wrapper added to the object's `__wrappers__` later is not among the views returned |
| GlossyInspect.FilterViewsWithoutFilters | python/glossy/inspect.py:52-68 | with no filters the answer is whether any view exists |
| GlossyInspect.FilterViewsFindsSatisfying | python/glossy/inspect.py:52-68 | when no TypeError can arise, the answer is whether some view passes both filters |
| GlossyInspect.FilterViewsNeverMatchesPositionalArguments | python/glossy/inspect.py:63 | when the recorded args are lists, positional filters never yield True |
| GlossyInspect.Inspection.constructor | python/glossy/inspect.py:15-19 | keeps the object's identity and starts with an empty cache |
| GlossyInspect.Inspection.Glossy | python/glossy/inspect.py:21-28 | true iff the object, as it is now, has `__wrappers__` or `__glossy__` |
| GlossyInspect.Inspection.Decorators | python/glossy/inspect.py:30-42 | a filled cache is returned unchanged whatever the object holds now; an empty one is filled with one view per current wrapper of a glossy object, and stays empty otherwise |
| GlossyInspect.Inspection.IsDecorated | python/glossy/inspect.py:44-50 | true iff the refreshed cache is non-empty; from an empty cache, iff the object is glossy and has at least one wrapper |
| GlossyInspect.Inspection.IsDecoratedBy | python/glossy/inspect.py:52-68 | the loop's answer equals the `FilterViews` specification over the refreshed cache, TypeError included |
| GlossyTest.RecordOf | python/glossy/test.py:46 | the tuple holds the decorator as given; args and kwargs are None exactly when empty |
| GlossyTest.Resolve | python/glossy/test.py:20-21 | a decorator object is kept; a string becomes `get_decorator`'s answer for the name |
| GlossyTest.SimpleLineName | python/glossy/inspect.py:147 | the line `@simple` yields the name `simple` |
| GlossyTest.ResolveSimpleDecorator | python/glossy/test.py:20-23 | for a function decorated with `@simple`, `"@simple"` and `"simple"` resolve to that decorator and `"missing"` to None |
| GlossyTest.IsMockedIn | python/glossy/test.py:43-49 | true iff the key is present and some position of its list holds the record |
| GlossyTest.SetDefault | python/glossy/test.py:28-29 | the key is present afterwards with an empty list if it was absent; existing lists are untouched |
| GlossyTest.Appended | python/glossy/test.py:28-30 | the key's list gains the record at the end; other keys are unchanged |
| GlossyTest.RemoveFirst | python/glossy/test.py:63 | `list.remove` of a present item shortens the list by one |
| GlossyTest.RemoveFirstSplits | python/glossy/test.py:63 | `list.remove` takes out the first equal item and keeps the rest in order |
| GlossyTest.RemoveFirstCount | python/glossy/test.py:63 | `list.remove` takes out exactly one copy |
| GlossyTest.RemoveFirstUndoesAppend | python/glossy/test.py:63 | removing a freshly appended, previously absent item gives the list back |
| GlossyTest.SetDefaultMocksNothing | python/glossy/test.py:28-30 | what `mock` as written leaves behind mocks exactly what was mocked before |
| GlossyTest.AppendedIsMocked | python/glossy/test.py:28-49 | an appended record is mocked under its key; other keys answer as before |
| GlossyTest.UnmockUndoesMock | python/glossy/test.py:52-63 | `unmock` after `mock` of a new tuple restores the table `setdefault` left |
| GlossyTest.MockedNameIsNotFoundByName | python/glossy/test.py:20-49 | mocking a decorator given by name never makes `is_mocked` true for a name |
| GlossyTest.MockTable.constructor | python/glossy/test.py:5 | the table starts empty |
| GlossyTest.MockTable.MockAsWritten | python/glossy/test.py:8-30 | as written: AttributeError and no change for an unresolved name; otherwise KeyError after `setdefault` |
| GlossyTest.MockTable.Mock | python/glossy/test.py:8-30 | corrected: ValueError and no change for an unresolved name; otherwise the resolved tuple is appended under `id(func)` |
| GlossyTest.MockTable.IsMocked | python/glossy/test.py:33-49 | true iff the exact tuple is in the list under `id(func)` |
| GlossyTest.MockTable.Unmock | python/glossy/test.py:52-63 | no change when the tuple is not mocked; otherwise its first occurrence is removed from the list under `id(func)` |

## Left out

- python/glossy/decorators.py is not part of this model. It builds the `__wrappers__` metadata; here that metadata is an input (`Wrapper`). As given it does not parse (line 76) and calls an undefined `_get_parameters` (line 150), so the shape of the metadata is taken from the tests.
- `Decorated.__repr__` and `Decorated.__getattr__` are left out. They are string formatting and attribute forwarding through reflection.
- `Decorated._decorator` (decorated.py:110-118) is left out. It reads `__decorator__` off `self._func.func`, so `Call` takes its result as the parameter `current`.
- `Decorated.__init__` also stores `_args`, `_kwargs` and `__wrapped__ = None`. No core operation reads them, so they are not modelled.
- `__call__` runs the chosen callable with the arguments. `Call` returns which callable it would run, not the result.
- `inspect.inspect` (inspect.py:109-116) is the `Inspection` constructor and has no member of its own.
- `inspect.getmodule`, `inspect.getsourcelines`, `getattr`, `hasattr` and `id` become data: `FunctionSource`, `links` and `ObjId`.
- The namespace in `FunctionSource` holds only the module's truthy attributes, because `get_decorators` skips falsy ones just as missing ones.
- GlossyInspect.GetDecorator: every namespace entry is a `DecoratorFn` with a `__name__`. A truthy module attribute without one (a callable instance, say) makes `get_decorator` raise AttributeError at python/glossy/inspect.py:172; that error is not modelled.
- GlossyTest.Resolve: resolves names through `get_decorator`, so the same AttributeError is not modelled there either.
- GlossyDecorated.DecoratedByNeverMatchesPositionalArguments: takes as a premise that the recorded positional arguments are a list, as tests/unit/test_decorated.py:98 expects; python/glossy/decorators.py, which builds them, is not part of this model.
- GlossyInspect.FilterViewsNeverMatchesPositionalArguments: takes the same premise about the recorded positional arguments.
- Python values are `int`. Keyword arguments are a map, so the order an `OrderedDict` keeps is not represented; Python's `dict == OrderedDict` ignores order.
- `get_decorator_path` raises AttributeError when `inspect.getmodule` finds no module. Every `DecoratorFn` has a module name here.
- The ValueError message in `mock_decorator` reads `__name__` of the decorator and of the innermost object. The model assumes both exist.
- GlossyDecorated.Decorated.Wrapped: requires the `__wrapped__` chain to end. With a cycle the source loops forever, and the model has no value for that.
- GlossyDecorated.Decorated.MockDecorator: requires the `__wrapped__` chain to end only on the paths that read `self.wrapped` (the ValueError and the registration), for the same reason; the TypeError and the silent no-op are modelled for any chain.
- GlossyDecorated.Decorated.IsDecoratorMocked: requires the `__wrapped__` chain to end, for the same reason.
- GlossyDecorated.Decorated.Call: requires the `__wrapped__` chain to end, for the same reason.
- `Inspection.decorators` returns the cached list itself, so a caller could mutate the cache through it. `Decorators` returns a value, so that aliasing is not modelled.
- `test.mock` checks `if not decorator` on a decorator object that was passed directly. Functions are always truthy, so that check is not modelled for objects.

## Findings

| source | as written | input that shows it | evidently intended | confidence | as-written member | corrected member |
|---|---|---|---|---|---|---|
| python/glossy/test.py:30 | indexes `_mocks` by the function object while line 28-29 keyed it by `id(func)`, so the append raises KeyError and only an empty list is added | `mock(func, "@simple")` for a function decorated with `@simple` | `_mocks[key].append(...)`, so the tuple is recorded and `is_mocked` finds it | high, not executed | GlossyTest.MockTable.MockAsWritten | GlossyTest.MockTable.Mock |
| python/glossy/test.py:23-26 | reads `decorator.__name__` before testing `if not decorator`, so an unresolved name raises AttributeError on None and the ValueError branch is dead | `mock(func, "missing")` for a function decorated only with `@simple` | raise ValueError for an unknown decorator, as tests/unit/test_mocking.py:7-10 expects | high, not executed | GlossyTest.MockTable.MockAsWritten | GlossyTest.MockTable.Mock |

Evidence for the first row:

- `SetDefaultMocksNothing` proves that the state `MockAsWritten` leaves mocks nothing new.
- `AppendedIsMocked` and `UnmockUndoesMock` prove that the corrected `Mock` records the tuple and that `unmock` undoes it.

Evidence for the second row: `ResolveSimpleDecorator` proves that `"missing"` resolves to None for such a function.
