/**
  JavaScript values as they travel between the client and the server: the
  JSON values plus `undefined` (a missing property). Truthiness and `String(v)`
  follow JavaScript; numbers are integers.
*/
module JsonValues {
  import opened Text

  datatype Json =
    | Undefined
    | Null
    | Bool(b: bool)
    | Num(n: int)
    | Str(s: string)
    | Arr(items: seq<Json>)
    | Obj(fields: map<string, Json>)
  {
    predicate IsNullish() { Undefined? || Null? }
  }

  /** JavaScript truthiness: `if (v)`, `v || w`. */
  predicate Truthy(v: Json)
  {
    match v
    case Undefined => false
    case Null => false
    case Bool(b) => b
    case Num(n) => n != 0
    case Str(s) => s != ""
    case Arr(_) => true
    case Obj(_) => true
  }

  /** Python truthiness of a decoded JSON value (`if not v`): unlike JavaScript, an empty list
      or dict is false. `Undefined` is the `None` that `dict.get` answers for an absent key. */
  predicate PyTruthy(v: Json)
  {
    match v
    case Arr(items) => |items| > 0
    case Obj(fields) => |fields| > 0
    case _ => Truthy(v)
  }

  /** `a || b`. */
  function Or(a: Json, b: Json): (r: Json)
    ensures Truthy(a) ==> r == a
    ensures !Truthy(a) ==> r == b
  {
    if Truthy(a) then a else b
  }

  /** `v.key` on a value that is not null or undefined (which would throw). */
  function Prop(v: Json, key: string): (r: Json)
    requires !v.IsNullish()
    ensures v.Obj? && key in v.fields ==> r == v.fields[key]
    ensures !(v.Obj? && key in v.fields) ==> r == Undefined
  {
    match v
    case Obj(m) => if key in m then m[key] else Undefined
    case _ => Undefined
  }

  /** Elements of an array as `Array.prototype.join` prints them. */
  function JoinItems(items: seq<Json>): string
    decreases items, 0
  {
    if |items| == 0 then ""
    else
      var first := if items[0].IsNullish() then "" else ToJsString(items[0]);
      if |items| == 1 then first else first + "," + JoinItems(items[1..])
  }

  /** `String(v)`, which is also what `localStorage.setItem` stores. */
  function ToJsString(v: Json): string
    decreases v, 1
  {
    match v
    case Undefined => "undefined"
    case Null => "null"
    case Bool(b) => if b then "true" else "false"
    case Num(n) => IntToString(n)
    case Str(s) => s
    case Arr(items) => JoinItems(items)
    case Obj(_) => "[object Object]"
  }
}
