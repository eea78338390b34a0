/** JSON values as `json.loads` hands them to the controller, and the handful
    of Python operations the controller applies to them: subscription
    `v[key]`, `v[0]`, `v.get(key, default)`, membership `key in v` and the
    comparisons `v == 1` and `v == "text"`. Each operation either yields a value
    or raises the Python exception the interpreter would raise. */
module Json {

  /** A parsed JSON document. `Null` is Python's `None`. JSON numbers with a
      fractional part are not modelled. */
  datatype Value =
    | Null
    | Bool(b: bool)
    | Int(i: int)
    | Str(s: string)
    | Arr(items: seq<Value>)
    | Obj(fields: map<string, Value>)

  /** The Python exceptions the operations below can raise. */
  datatype PyError = KeyError | TypeError | IndexError | AttributeError

  /** The outcome of a Python expression: a value, or a raised exception.
      Failure-compatible, so `:-` propagates the exception as Python does. */
  datatype Py<+T> = Ok(value: T) | Raise(error: PyError) {

    predicate IsFailure() {
      Raise?
    }

    function PropagateFailure<U>(): Py<U>
      requires Raise?
    {
      Raise(error)
    }

    function Extract(): T
      requires Ok?
    {
      value
    }
  }

  /** `v[key]` for a string key: only a dict that holds the key yields a value;
      a dict without it raises KeyError, every other value raises TypeError
      (lists and strings need integer indices, the rest are not subscriptable). */
  function Subscript(v: Value, key: string): (r: Py<Value>)
    ensures r.Ok? <==> v.Obj? && key in v.fields
    ensures r.Ok? ==> r.value == v.fields[key]
    ensures r.Raise? ==> (r.error == KeyError <==> v.Obj?) && (r.error == KeyError || r.error == TypeError)
  {
    match v
    case Obj(fields) => if key in fields then Ok(fields[key]) else Raise(KeyError)
    case _ => Raise(TypeError)
  }

  /** `v[0]`: the first element of a list or the first character of a string;
      IndexError when that sequence is empty; KeyError for a dict (JSON object
      keys are strings, never the integer 0); TypeError for the rest. */
  function First(v: Value): (r: Py<Value>)
    ensures r.Ok? <==> (v.Arr? && |v.items| > 0) || (v.Str? && |v.s| > 0)
    ensures r == Raise(IndexError) <==> v == Arr([]) || v == Str([])
    ensures v.Arr? && r.Ok? ==> r.value == v.items[0]
  {
    match v
    case Arr(items) => if |items| > 0 then Ok(items[0]) else Raise(IndexError)
    case Str(s) => if |s| > 0 then Ok(Str([s[0]])) else Raise(IndexError)
    case Obj(_) => Raise(KeyError)
    case _ => Raise(TypeError)
  }

  /** `v.get(key, default)`: only dicts have a `get` method. */
  function Get(v: Value, key: string, default: Value): (r: Py<Value>)
    ensures r.Raise? <==> !v.Obj?
    ensures r.Raise? ==> r.error == AttributeError
    ensures r.Ok? && key in v.fields ==> r.value == v.fields[key]
    ensures r.Ok? && key !in v.fields ==> r.value == default
  {
    match v
    case Obj(fields) => Ok(if key in fields then fields[key] else default)
    case _ => Raise(AttributeError)
  }

  /** `key in v` for a string key: a dict tests its keys, a list its elements,
      a string its substrings; numbers, booleans and None raise TypeError. */
  function Contains(v: Value, key: string): (r: Py<bool>)
    ensures r.Raise? <==> v.Null? || v.Bool? || v.Int?
    ensures r.Raise? ==> r.error == TypeError
    ensures v.Obj? ==> r == Ok(key in v.fields)
    ensures v.Arr? ==> r == Ok(Str(key) in v.items)
    ensures v.Str? && r == Ok(true) ==> |key| <= |v.s|
  {
    match v
    case Obj(fields) => Ok(key in fields)
    case Arr(items) => Ok(Str(key) in items)
    case Str(s) => Ok(IsSubstring(key, s))
    case _ => Raise(TypeError)
  }

  /** `needle` occurs in `s` at some position. */
  predicate IsSubstring(needle: string, s: string)
    ensures IsSubstring(needle, s) ==> |needle| <= |s|
    ensures needle <= s ==> IsSubstring(needle, s)
    decreases |s|
  {
    needle <= s || (|s| > 0 && IsSubstring(needle, s[1..]))
  }

  /** Python's `v == n` for an integer `n`: `bool` is a subclass of `int`, so
      `True == 1` and `False == 0` hold as well. */
  predicate EqualsInt(v: Value, n: int)
    ensures EqualsInt(v, n) ==> v.Int? || v.Bool?
    ensures v.Int? ==> (EqualsInt(v, n) <==> v.i == n)
    ensures v.Bool? ==> (EqualsInt(v, n) <==> n == (if v.b then 1 else 0))
  {
    match v
    case Int(i) => i == n
    case Bool(b) => (if b then 1 else 0) == n
    case _ => false
  }
}
