/** The three field validators shared by both controllers. Each reads one
    property of `req.body.data` (an absent `data` counts as `{}`) and passes,
    fails with status 400, or throws when `data` is null. */
module Validators {
  import opened Json
  import opened Pipeline

  /** `data[prop]` as the validators read it, after `{ data = {} }`. */
  function Field(data: Value, prop: string): (r: Option<Value>)
    ensures r.None? <==> data.Null?
  {
    Member(WithDefault(data), prop)
  }

  /** The value a handler stores for `prop` once the chain has passed
      (the handlers destructure `data` with the same default). */
  function Get(data: Value, prop: string): (r: Value)
    ensures !data.Null? ==> Field(data, prop) == Some(r)
  {
    match data
    case Obj(m) => if prop in m then m[prop] else Undefined
    case _ => Undefined
  }

  /** `!id || id === storedId`, the test `validateOrderId` and
      `validateDishId` share: a body id agrees with the stored id when it
      is falsy or the same string. */
  predicate IdAgrees(bodyId: Value, id: string) {
    !Truthy(bodyId) || bodyId == Str(id)
  }

  /** What counts as present: a non-empty string, a non-zero number,
      `true`, or any array, empty ones included. Absent values, null,
      `false`, 0, the empty string and plain objects are not. */
  predicate Filled(v: Value) {
    match v
    case Str(s) => s != []
    case Num(n) => n != 0.0
    case Bool(b) => b
    case Arr(_) => true
    case _ => false
  }

  /** `v.length > 0`. A plain object is taken to have no `length`. */
  predicate LengthAboveZero(v: Value) {
    match v
    case Str(s) => |s| > 0
    case Arr(items) => |items| > 0
    case _ => false
  }

  /** Truthiness of `Number(v)`, on the values for which the presence test
      evaluates it: a non-empty string or array has already passed on its
      length, so only the empty array is left among those. */
  predicate NumberTruthy(v: Value)
    requires !v.Str? && (v.Arr? ==> v.items == [])
  {
    match v
    case Bool(b) => b
    case Num(n) => n != 0.0
    case _ => false
  }

  /** The presence test as written: `v && (v.length > 0 || Number(v) ||
      Array.isArray(v))`, which accepts exactly the `Filled` values. */
  predicate Present(v: Value)
    ensures Present(v) <==> Filled(v)
  {
    Truthy(v) && (LengthAboveZero(v) || NumberTruthy(v) || v.Arr?)
  }

  /** The JSON number that denotes the whole number `k`. */
  function Whole(k: nat): Value {
    Num(k as real)
  }

  /** `typeof v === "number" && v > 0 && v === Math.floor(v)`: exactly the
      numbers 1, 2, 3, ... */
  predicate IsPositiveInteger(v: Value)
    ensures IsPositiveInteger(v) <==> exists k: nat :: 0 < k && v == Whole(k)
  {
    var holds := v.Num? && v.n > 0.0 && v.n == v.n.Floor as real;
    assert holds ==> var k: nat := v.n.Floor; 0 < k && v == Whole(k);
    holds
  }

  /** The message a failed presence check reports: the custom one when a
      non-empty one is supplied, else one naming the property, for orders
      as well as dishes. */
  function PresenceMessage(prop: string, errorMessage: Option<string>): string {
    if errorMessage.Some? && errorMessage.value != [] then errorMessage.value
    else "Dish must include a " + prop
  }

  const PriceMessage := "Dish must have a price that is an integer greater than 0"
  const DishesMessage := "Order must include at least one dish"

  /** `validateProperty(prop, errorMessage)`. */
  function ValidateProperty(data: Value, prop: string, errorMessage: Option<string>): (r: Verdict)
    ensures r.Throws? <==> data.Null?
    ensures r.Pass? <==> !data.Null? && Filled(Get(data, prop))
    ensures r.Fail? ==> r.failure == Failure(400, PresenceMessage(prop, errorMessage))
    ensures data.Undefined? ==> r.Fail?
  {
    match Field(data, prop)
    case None => Throws
    case Some(v) =>
      if Present(v) then Pass else Fail(Failure(400, PresenceMessage(prop, errorMessage)))
  }

  /** `validateNumberProperty(prop)`: the message names the price whatever
      `prop` is. */
  function ValidateNumberProperty(data: Value, prop: string): (r: Verdict)
    ensures r.Throws? <==> data.Null?
    ensures r.Pass? <==> !data.Null? && IsPositiveInteger(Get(data, prop))
    ensures r.Pass? ==> Filled(Get(data, prop))
    ensures Get(data, prop).Str? ==> !r.Pass?
    ensures r.Fail? ==> r.failure == Failure(400, PriceMessage)
    ensures data.Undefined? ==> r.Fail?
  {
    match Field(data, prop)
    case None => Throws
    case Some(v) => if IsPositiveInteger(v) then Pass else Fail(Failure(400, PriceMessage))
  }

  /** `validateArrayProperty(prop)`: the message names the dishes whatever
      `prop` is. */
  function ValidateArrayProperty(data: Value, prop: string): (r: Verdict)
    ensures r.Throws? <==> data.Null?
    ensures r.Pass? <==> !data.Null? && Get(data, prop).Arr? && Get(data, prop).items != []
    ensures r.Pass? ==> Filled(Get(data, prop))
    ensures r.Fail? ==> r.failure == Failure(400, DishesMessage)
    ensures data.Undefined? ==> r.Fail?
  {
    match Field(data, prop)
    case None => Throws
    case Some(v) => if v.Arr? && |v.items| > 0 then Pass else Fail(Failure(400, DishesMessage))
  }

  /** A field validator as it appears in a chain. */
  datatype FieldCheck =
    | Required(prop: string, errorMessage: Option<string>)
    | PositiveInteger(prop: string)
    | NonEmptyArray(prop: string)

  function CheckField(c: FieldCheck, data: Value): Verdict {
    match c
    case Required(prop, message) => ValidateProperty(data, prop, message)
    case PositiveInteger(prop) => ValidateNumberProperty(data, prop)
    case NonEmptyArray(prop) => ValidateArrayProperty(data, prop)
  }
}
