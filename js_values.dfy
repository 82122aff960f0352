/** The part of JavaScript's value semantics the channel relies on:
    truthiness and the `||` operator on values that may be undefined. */
module JsValues {
  import opened Wrappers

  /** A message field value. The message interface of the channel declares
      only string fields and boolean fields. */
  datatype Value = Str(s: string) | Bool(b: bool)

  /** A message or payload object: property name to value; a key that is
      absent is `undefined`. */
  type Record = map<string, Value>

  /** `undefined`, the empty string and `false` are the falsy values. */
  predicate Truthy(v: Option<Value>)
  {
    match v
    case None => false
    case Some(Str(s)) => s != ""
    case Some(Bool(b)) => b
  }

  /** A string-typed option that is set and not empty. */
  predicate Present(s: Option<string>)
  {
    s.Some? && s.value != ""
  }

  /** Property read `obj.key`. */
  function Get(obj: Record, key: string): Option<Value>
  {
    if key in obj then Some(obj[key]) else None
  }

  /** A string-typed option seen as a value. */
  function FromString(s: Option<string>): (v: Option<Value>)
    ensures Truthy(v) <==> Present(s)
    ensures Present(s) ==> v == Some(Str(s.value))
  {
    match s
    case None => None
    case Some(x) => Some(Str(x))
  }

  /** `a || b`: the left operand when it is truthy, otherwise the right one. */
  function Or(a: Option<Value>, b: Option<Value>): (r: Option<Value>)
    ensures Truthy(r) <==> Truthy(a) || Truthy(b)
    ensures r == a || r == b
    ensures Truthy(a) ==> r == a
    ensures !Truthy(a) ==> r == b
  {
    if Truthy(a) then a else b
  }
}
