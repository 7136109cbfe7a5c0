/**
 * JavaScript values as they travel through the client: plain objects, arrays,
 * strings, integral numbers, booleans and null. A key that is absent from an
 * object reads as `undefined`, which `Get` returns as `None`.
 */
module Js {
  import opened Wrappers

  datatype Value =
    | Null
    | Bool(b: bool)
    | Num(n: int)
    | Str(s: string)
    | Arr(items: seq<Value>)
    | Obj(fields: map<string, Value>)

  /** A plain object; `{...o, k: v}` is `o + map[k := v]` (later keys win, as in a spread). */
  type Object = map<string, Value>

  /** Property access `o.key`. */
  function Get(o: Object, key: string): (r: Option<Value>)
    ensures r.Some? <==> key in o
    ensures key in o ==> r.value == o[key]
  {
    if key in o then Some(o[key]) else None
  }

  /** JavaScript truthiness: `undefined`, `null`, `false`, `0` and `""` are falsy. */
  predicate Truthy(v: Option<Value>) {
    match v
    case None => false
    case Some(Null) => false
    case Some(Bool(b)) => b
    case Some(Num(n)) => n != 0
    case Some(Str(s)) => s != ""
    case Some(Arr(_)) => true
    case Some(Obj(_)) => true
  }

  /** The expression `a || b`: the left operand when it is truthy, otherwise the right one. */
  function Or(a: Option<Value>, b: Value): (r: Value)
    ensures Truthy(a) ==> Some(r) == a
    ensures !Truthy(a) ==> r == b
  {
    if Truthy(a) then a.value else b
  }
}
