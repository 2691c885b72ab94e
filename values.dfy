/** The values a Python dict of the document database can hold, and the few
    dynamic operations on them that the modelled code relies on. */
module Values {
  import opened Wrappers

  /** A JSON-like Python value (numbers are not split into int and float). */
  datatype Value =
    | Null
    | Bool(b: bool)
    | Num(n: real)
    | Str(s: string)
    | List(items: seq<Value>)
    | Dict(fields: map<string, Value>)

  /** A document or a dict literal: field name to value. */
  type Record = map<string, Value>

  /** `d.get(key)`. */
  function Get(d: Record, key: string): Value {
    if key in d then d[key] else Null
  }

  /** `d.get(key, default)`. */
  function GetOr(d: Record, key: string, default: Value): Value {
    if key in d then d[key] else default
  }

  /** Python truthiness: None, False, 0, "", [] and {} are false. */
  predicate Truthy(v: Value) {
    match v
    case Null => false
    case Bool(b) => b
    case Num(n) => n != 0.0
    case Str(s) => s != ""
    case List(items) => items != []
    case Dict(fields) => fields != map[]
  }

  /** `type(v).__name__`, as Python's error messages print it. */
  function TypeName(v: Value): string {
    match v
    case Null => "NoneType"
    case Bool(_) => "bool"
    case Num(_) => "float"
    case Str(_) => "str"
    case List(_) => "list"
    case Dict(_) => "dict"
  }

  /** Enough of `repr(v)` for the messages of a failed enum lookup. */
  function Repr(v: Value): string {
    match v
    case Null => "None"
    case Bool(b) => if b then "True" else "False"
    case Str(s) => "'" + s + "'"
    case _ => "a " + TypeName(v)
  }

  /** `x` occurs as a contiguous piece of `s`. */
  predicate IsSubstring(x: string, s: string) {
    x <= s || (s != [] && IsSubstring(x, s[1..]))
  }

  /** Python's `x in container` for a string `x`: membership in a list, a
      substring test on a string, a key test on a dict; a TypeError otherwise. */
  function Contains(container: Value, x: string): (r: Result<bool>)
    ensures container.List? ==> r == Ok(Str(x) in container.items)
    ensures container.Dict? ==> r == Ok(x in container.fields)
    ensures r.Err? <==> container.Null? || container.Bool? || container.Num?
  {
    match container
    case List(items) => Ok(Str(x) in items)
    case Str(s) => Ok(IsSubstring(x, s))
    case Dict(fields) => Ok(x in fields)
    case _ => Err(TypeError("argument of type '" + TypeName(container) + "' is not iterable"))
  }

  /** A Python list of strings. */
  function StrList(xs: seq<string>): (v: Value)
    ensures v.List? && |v.items| == |xs|
    ensures forall i :: 0 <= i < |xs| ==> v.items[i] == Str(xs[i])
  {
    if xs == [] then List([]) else List([Str(xs[0])] + StrList(xs[1..]).items)
  }
}
