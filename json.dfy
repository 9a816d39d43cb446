/** The JSON values a request body carries, with the few JavaScript
    operations the controllers apply to them: truthiness, property access
    and conversion to a string. */
module Json {
  import Decimal

  datatype Option<T> = None | Some(value: T)

  /** `Undefined` stands for an absent property. Numbers are compared and
      floored, never computed with, so `real` stands for JavaScript's double. */
  datatype Value =
    | Undefined
    | Null
    | Bool(b: bool)
    | Num(n: real)
    | Str(s: string)
    | Arr(items: seq<Value>)
    | Obj(fields: map<string, Value>)

  /** JavaScript's `ToBoolean`: the falsy values are undefined, null,
      false, 0 and the empty string. */
  predicate Truthy(v: Value)
    ensures !Truthy(v) <==> v in {Undefined, Null, Bool(false), Num(0.0), Str("")}
  {
    match v
    case Undefined => false
    case Null => false
    case Bool(b) => b
    case Num(n) => n != 0.0
    case Str(s) => s != []
    case Arr(_) => true
    case Obj(_) => true
  }

  /** `v[key]` for one of the controllers' field names (none of which is a
      built-in property of strings, numbers or arrays). `None` when the
      access throws a TypeError, that is, on undefined and null. */
  function Member(v: Value, key: string): (r: Option<Value>)
    ensures r.None? <==> v.Undefined? || v.Null?
    ensures v.Obj? ==> r == Some(if key in v.fields then v.fields[key] else Undefined)
  {
    match v
    case Undefined => None
    case Null => None
    case Obj(m) => Some(if key in m then m[key] else Undefined)
    case _ => Some(Undefined)
  }

  /** The destructuring default `{ data = {} }`: only an absent value is
      replaced by the empty object; null stays null. */
  function WithDefault(data: Value): (r: Value)
    ensures data.Undefined? ==> r == Obj(map[])
    ensures !data.Undefined? ==> r == data
  {
    if data.Undefined? then Obj(map[]) else data
  }

  /** `String(v)`, as a template literal `${v}` renders it. */
  function Display(v: Value): (r: string)
    ensures v.Str? ==> r == v.s
    ensures v.Num? && v.n >= 0.0 && v.n == v.n.Floor as real ==> r == Decimal.NatToString(v.n.Floor)
    decreases v
  {
    match v
    case Undefined => "undefined"
    case Null => "null"
    case Bool(b) => if b then "true" else "false"
    case Num(n) =>
      // A non-integer is shown by its integer part (truncated toward zero)
      // followed by ".…": double formatting is not part of this model.
      var whole := if n >= 0.0 || n == n.Floor as real then n.Floor else n.Floor + 1;
      if n == n.Floor as real then Decimal.IntToString(whole)
      else Decimal.IntToString(whole) + ".…"
    case Str(s) => s
    case Arr(_) => JoinFrom(v, 0)
    case Obj(_) => "[object Object]"
  }

  /** `Array.prototype.join(",")` over the items of `v` from index `k` on;
      undefined and null items contribute the empty string. */
  function JoinFrom(v: Value, k: nat): string
    requires v.Arr? && k <= |v.items|
    decreases v, |v.items| - k
  {
    if k == |v.items| then ""
    else
      var item := v.items[k];
      var shown := if item.Undefined? || item.Null? then "" else Display(item);
      if k + 1 == |v.items| then shown else shown + "," + JoinFrom(v, k + 1)
  }
}
