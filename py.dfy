/**
 * Python-level vocabulary shared by the whole model: optional values, the
 * exceptions the library raises or lets through, results that carry them,
 * and JSON values as the json module decodes them.
 */
module Py {

  datatype Option<+T> = None | Some(value: T)

  /** The exceptions raised by the modelled code, by Python class. */
  datatype Error =
    | KeyError(key: string)
    | TypeError(what: string)
    | ValueError(what: string)
    | AssertionError
    | AttributeError(name: string)
    | IndexError
    | NameError(name: string)
    | IOError(path: string)
    | OSError(what: string)
    | NotImplementedError
    | UnsupportedFiletype(path: string)
    | CallFailure(call: string)
    | ValidationException(what: string)
    | NotLoggedIn

  /** Either a value or the exception that aborted the computation. */
  datatype Result<+T> = Ok(value: T) | Err(error: Error)
  {
    predicate IsFailure() { Err? }

    function PropagateFailure<U>(): Result<U>
      requires Err?
    {
      Err(error)
    }

    function Extract(): T
      requires Ok?
    {
      value
    }
  }

  /** A decoded JSON document (numbers are integers in this model). */
  datatype Value =
    | Null
    | Bool(b: bool)
    | Int(i: int)
    | Str(s: string)
    | Arr(items: seq<Value>)
    | Obj(fields: map<string, Value>)

  /** Python truthiness of a decoded value. */
  predicate Truthy(v: Value)
  {
    match v
    case Null => false
    case Bool(b) => b
    case Int(i) => i != 0
    case Str(s) => s != ""
    case Arr(a) => a != []
    case Obj(m) => m != map[]
  }

  /** Python's `v == n` for an integer n: True equals 1 and False equals 0. */
  predicate EqualsInt(v: Value, n: int)
  {
    match v
    case Int(i) => i == n
    case Bool(b) => (if b then 1 else 0) == n
    case _ => false
  }

  /** Python's `v in values` for a tuple of integers. */
  predicate InInts(v: Value, values: seq<int>)
  {
    exists k :: 0 <= k < |values| && EqualsInt(v, values[k])
  }

  /** A JSON array of strings. */
  function Strs(ss: seq<string>): (r: Value)
    ensures r.Arr? && |r.items| == |ss|
    ensures forall i :: 0 <= i < |ss| ==> r.items[i] == Str(ss[i])
  {
    Arr(seq(|ss|, i requires 0 <= i < |ss| => Str(ss[i])))
  }
}
