/** The values the glossy core works on, with Python's runtime reflection
    replaced by plain data: object identities, decorator functions, call
    arguments and the `__wrappers__` metadata that each decoration records. */
module GlossyValues {

  /** What `id()` returns: the identity of a Python object. */
  type ObjId = nat

  /** A Python argument value. The core only ever compares values with `==`. */
  type Value = int

  /** Keyword arguments (a `dict`, or the `OrderedDict` the metadata holds). */
  type Kwargs = map<string, Value>

  datatype Option<T> = None | Some(value: T)

  /** The exceptions raised by the core. */
  datatype Error = ValueError | TypeError | AttributeError | KeyError

  /** The outcome of an operation that may raise. */
  datatype Result<T> = Ok(value: T) | Err(error: Error)

  /** A decorator function: its identity, the name of the module `inspect.getmodule`
      finds for it, and its `__name__`. Two values are the same Python object
      exactly when they are equal, which is what `==` means on functions. */
  datatype DecoratorFn = DecoratorFn(id: ObjId, moduleName: string, name: string)

  datatype SeqKind = Tuple | List

  /** A Python tuple or list of values. Python's `==` never holds between a
      tuple and a list, even with the same items, so the kind is part of the value. */
  datatype PySeq = PySeq(kind: SeqKind, items: seq<Value>)

  /** The tuple `*args` collects at a call. */
  function TupleOf(args: seq<Value>): PySeq
  {
    PySeq(Tuple, args)
  }

  /** The `parameters` pair recorded for a decoration: the positional
      arguments and the keyword arguments (an OrderedDict). The code that
      records them is not modelled; tests/unit/test_decorated.py:98 expects
      the positional ones as a list, so their kind is kept as data. */
  datatype Params = Params(args: PySeq, kwargs: Kwargs)

  /** One entry of an object's `__wrappers__` list, the dictionary
      `{"decorator": ..., "parameters": ...}`. A `parameters` key that is
      missing or holds `None` is `None` here. */
  datatype Wrapper = Wrapper(decorator: DecoratorFn, parameters: Option<Params>)
}
