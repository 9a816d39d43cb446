# GrubDash request validation, modelled in Dafny

GrubDash serves two in-memory collections, dishes and orders, over a
create/read/update/delete HTTP surface. Every route runs an ordered chain
of middleware: a locator that finds the stored resource by the path id,
an id check, field validators and the order status guards. The first
stage that calls `next(err)` ends the request with that error. The
terminal handler, the only stage that changes a collection, runs only
when every stage has passed.

This project models that core:

- `Json` holds the request payload as a JSON value (`Undefined` for an
  absent property). It also holds the JavaScript operations the stages
  apply to the payload: truthiness, `v[key]` (which throws on undefined and
  null), the `{ data = {} }` default, and `String(v)` for error messages.
- `Decimal` renders integers as the template literals in error messages do.
- `Pipeline` is the explicit stage runner that replaces Express's `next`
  chaining. Each stage hands on (possibly recording the located resource,
  as `res.locals` does), stops with a status and message, or throws. The
  outcome records which stage stopped the chain. The module also holds the
  generic first-match locator behind `find` / `findIndex`.
- `Validators` models `validateProperty`, `validateNumberProperty` and
  `validateArrayProperty`.
- `Orders` models `orderExists`, `validateOrderId`, `validateQuantity` and
  the two status guards. It also holds the four exported chains and the
  class `OrderStore`. That class owns the orders collection, and its
  `Create`, `Update` and `Destroy` methods run a chain and then push,
  assign in place or splice.
- `Dishes` does the same for dishes through `DishStore`. Dishes have no
  delete route.

Requests are `Request(routeId, data)`: the path id and `req.body.data`.
The id that `nextId()` would allocate is a parameter of `Create`.

Some of the code's behaviour differs from what one might expect of a
service with four declared order states. The model follows the code:

- Only the first failing stage is reported. So an update of a delivered
  order fails with "A delivered order cannot be changed" only when every
  earlier stage passes and the new status is not `"invalid"`. Otherwise the
  earlier failure is reported (`Orders.UpdateChainCascade`).
- The order update chain never checks the status against the four declared
  states. It rejects only a status that is not present in the sense of
  `validateProperty` (absent, falsy, or a plain object) and the literal
  `"invalid"`. Creation does not look at the status at all.
- The default presence message is `Dish must include a <prop>`, for order
  fields too. The number and array validators report fixed messages,
  whatever property they check.
- A dish line that is null or undefined makes `validateQuantity` throw.
  It is not reported as a bad quantity.
- `destroy` does not remove the located object by identity. It looks the id
  up again with `findIndex` and splices at that index.
  `Orders.OrderStore.Destroy` proves that this index is the located one.

## Model

| member | source | states |
|---|---|---|
| `Json.Truthy` | src/utils/validateProperty.js:12 | a value is falsy exactly when it is undefined, null, `false`, 0 or the empty string; this is the `data[prop] &&` test and the `!id` of orders.controller.js:40 and dishes.controller.js:36 |
| `Json.Member` | src/orders/orders.controller.js:36-38 | `v[key]` throws exactly on undefined and null; on an object it is the field, or undefined when the key is absent (also validateProperty.js:12, orders.controller.js:84, dishes.controller.js:32-34) |
| `Json.WithDefault` | src/utils/validateProperty.js:10 | `{ data = {} }` replaces only an absent `data` by the empty object and leaves every other value, null included, as it is (also validateNumberProperty.js:9, validateArrayProperty.js:9, orders.controller.js:54) |
| `Json.Display` | src/orders/orders.controller.js:45 | `${id}` shows a string as itself and a non-negative whole number as its decimal numeral (also dishes.controller.js:41) |
| `Pipeline.Run` | src/orders/orders.controller.js:177-212 | runs a chain's stages in order and stops at the first one that does not hand on; a stopped outcome names a stage index inside the chain |
| `Pipeline.RunAppend` | src/orders/orders.controller.js:194-208 | running a concatenation equals running the first part, then (only if it passed, from the state it left) the second part, with stage numbers shifted |
| `Pipeline.RunStopsAtFirstFailure` | src/orders/orders.controller.js:194-208 | when a chain fails at stage k, every stage before k passed and stage k raised exactly the reported failure |
| `Pipeline.RunStopsAtFirstThrow` | src/orders/orders.controller.js:194-208 | when a chain is ended by a stage that throws at stage k, every stage before k passed and stage k threw |
| `Pipeline.RunIgnoresRest` | src/dishes/dishes.controller.js:115-124 | once a prefix of a chain has stopped, whatever stages follow it never change the outcome |
| `Pipeline.Locate` | src/orders/orders.controller.js:17 | finds the first element whose id equals the given id; returns none iff no element has that id |
| `Pipeline.LocateAppended` | src/dishes/dishes.controller.js:58-71 | an element appended under an id no earlier element has is the one located by that id |
| `Decimal.NatToString` | src/orders/orders.controller.js:72 | renders a number as a non-empty digit string without a leading zero |
| `Decimal.ParseNatToString` | src/orders/orders.controller.js:72 | the rendered numeral reads back as the number rendered |
| `Decimal.NatToStringInjective` | src/orders/orders.controller.js:72 | distinct numbers render as distinct numerals |
| `Validators.Get` | src/orders/orders.controller.js:125 | the field a handler stores is the one the validators read, whenever `data` is not null (also orders.controller.js:154, dishes.controller.js:59 and 87) |
| `Validators.Present` | src/utils/validateProperty.js:12-13 | the presence expression accepts exactly non-empty strings, non-zero numbers, `true` and arrays (empty ones included); it rejects absent values, null, false, 0, the empty string and plain objects |
| `Validators.ValidateProperty` | src/utils/validateProperty.js:8-22 | passes iff the property is present in the sense above; an absent `data` counts as `{}`, so it fails; a null `data` throws; a failure is 400 with the supplied non-empty message, else `Dish must include a <prop>` |
| `Validators.IsPositiveInteger` | src/utils/validateNumberProperty.js:11 | holds exactly for numbers equal to some whole number k > 0 (numeric strings, 0, negatives and fractions are excluded) |
| `Validators.ValidateNumberProperty` | src/utils/validateNumberProperty.js:7-19 | passes iff the property is a positive whole number; strings never pass; an absent `data` fails; a failure is 400 with the fixed price message whatever the property |
| `Validators.ValidateArrayProperty` | src/utils/validateArrayProperty.js:7-19 | passes iff the property is a non-empty array (so non-empty strings fail); an absent `data` fails; a failure is 400 with the fixed dishes message whatever the property |
| `Orders.FindOrder` | src/orders/orders.controller.js:17 | the index found holds the first order with the path id; none iff no order has it |
| `Orders.OrderExists` | src/orders/orders.controller.js:15-27 | hands on iff some stored order has the path id, recording the first such one; otherwise 404 with `Order id not found: <id>`; never throws |
| `Orders.ValidateOrderId` | src/orders/orders.controller.js:34-47 | passes iff the body id is falsy or equals the stored id; otherwise 400 naming both ids; throws when `data` is absent or null |
| `Orders.GoodLine` | src/orders/orders.controller.js:59-63 | a line is good exactly when it is an object whose `quantity` is a positive integer |
| `Orders.ScanLines` | src/orders/orders.controller.js:58-66 | all lines good iff every line's quantity is a positive integer; otherwise it names the first line that is not good (all earlier ones are good), telling a bad quantity from a null line that throws |
| `Orders.EveryQuantityGood` | src/orders/orders.controller.js:56-66 | the loop over the lines, as `every` runs it, ends exactly as the scan specification says: all good, the index of the first bad line, or the index of the line whose read throws |
| `Orders.ValidateQuantity` | src/orders/orders.controller.js:53-74 | passes iff `dishes` is an array whose every line has a positive-integer quantity; a failure is 400 naming the index of the first bad line; it throws exactly when `data` is null, `dishes` is not an array, or the scan reaches a null or undefined line |
| `Orders.QuantityMessageNamesLine` | src/orders/orders.controller.js:72 | two quantity messages are equal only for the same line index, so the reported index is recoverable |
| `Orders.ValidateStatusToUpdate` | src/orders/orders.controller.js:82-93 | the body status `"invalid"` fails with 400 `"status"` whatever is stored; otherwise it fails with the delivered message iff the stored status is `"delivered"`; any other status passes |
| `Orders.ValidateStatusToDelete` | src/orders/orders.controller.js:100-109 | passes iff the stored status is exactly `"pending"`; otherwise 400 with the not-pending message |
| `Orders.Eval` | src/orders/orders.controller.js:15-109 | a stage that hands on records the order located by the path id if it is the locator, and keeps the recorded order otherwise |
| `Orders.RunLocates` | src/orders/orders.controller.js:20 | a chain that passes leaves recorded the first order with the path id if it contains the locator, and the initial state otherwise |
| `Orders.CreateChainCascade` | src/orders/orders.controller.js:181-188 | the create chain checks deliverTo, mobileNumber, dishes present, dishes non-empty, then quantities; it reports the first failure with its stage index, or throws on a null body |
| `Orders.CreateChainAccepts` | src/orders/orders.controller.js:181-188 | the create chain passes iff deliverTo and mobileNumber are present and dishes is a non-empty array of lines with positive-integer quantities |
| `Orders.MissingOrderReported` | src/orders/orders.controller.js:191-211 | every chain that starts with the locator fails at stage 0 with 404 when no order has the path id, whatever the body |
| `Orders.UpdateChecksCascade` | src/orders/orders.controller.js:197-206 | the seven update stages after the id check report the first failing payload check in chain order |
| `Orders.UpdateChainCascade` | src/orders/orders.controller.js:194-208 | the update chain reports a missing order (404) first, then an absent body (throw), then a disagreeing body id, then the payload and status checks in order |
| `Orders.UpdateChainAccepts` | src/orders/orders.controller.js:194-208 | the update chain passes iff the order exists, the body id agrees, the payload is acceptable with a present status other than `"invalid"`, and the stored order is not delivered |
| `Orders.DeliveredOrderFrozen` | src/orders/orders.controller.js:86-92 | no update request passes the chain for an order stored as delivered |
| `Orders.DeleteChainAccepts` | src/orders/orders.controller.js:211 | the delete chain passes iff the order exists and is pending; an existing order in any other state fails at stage 1 with 400 |
| `Orders.SpliceOne` | src/orders/orders.controller.js:173 | `splice(start, 1)` removes exactly the element at a valid start, and the last element for start -1 |
| `Orders.OrderStore.List` | src/orders/orders.controller.js:115-117 | replies 200 with the collection as it is, changing nothing |
| `Orders.OrderStore.Read` | src/orders/orders.controller.js:143-145 | replies 200 with the first order having the path id, or 404 naming the id |
| `Orders.OrderStore.Create` | src/orders/orders.controller.js:124-137 | on a passing chain it appends exactly one order (the new id and the four payload fields) after the unchanged earlier ones and replies 201 with it; on failure nothing changes and the failure is replied; a well-formed collection stays well-formed |
| `Orders.OrderStore.Update` | src/orders/orders.controller.js:153-163 | on a passing chain it overwrites the four fields of the located order, which is not delivered, keeping its id and position and every other order; on failure nothing changes |
| `Orders.OrderStore.Destroy` | src/orders/orders.controller.js:170-175 | on a passing chain it removes exactly the located order, which is pending, keeping the others in order, and replies with no content; on failure nothing changes |
| `Dishes.FindDish` | src/dishes/dishes.controller.js:17 | the index found holds the first dish with the path id; none iff no dish has it |
| `Dishes.DishExists` | src/dishes/dishes.controller.js:14-23 | hands on iff some dish has the path id, recording the first such one; otherwise 404 with `Dish does not exist: <id>.` |
| `Dishes.ValidateDishId` | src/dishes/dishes.controller.js:30-43 | passes iff the body id is falsy or equals the stored id; otherwise 400 naming both ids; throws when `data` is absent or null |
| `Dishes.Eval` | src/dishes/dishes.controller.js:14-43 | a stage that hands on records the dish located by the path id if it is the locator, and keeps the recorded dish otherwise |
| `Dishes.CreateChainCascade` | src/dishes/dishes.controller.js:105-112 | the create checks run name, description, price present, price a positive integer, image_url, and report the first failure with its stage index |
| `Dishes.CreateChainAccepts` | src/dishes/dishes.controller.js:105-112 | the create chain passes iff name, description and image_url are present and price is a positive integer |
| `Dishes.UpdateChainCascade` | src/dishes/dishes.controller.js:115-124 | the update chain reports a missing dish (404) first, then an absent body, then a disagreeing body id, and then runs the create checks |
| `Dishes.MissingDishReported` | src/dishes/dishes.controller.js:102-124 | a missing dish yields 404 on read and update even when the body is also invalid |
| `Dishes.UpdateChainAccepts` | src/dishes/dishes.controller.js:115-124 | the update chain passes iff the dish exists, the body id agrees and the payload is acceptable |
| `Dishes.CreatedDishIsFound` | src/dishes/dishes.controller.js:58-71 | a dish created under an id no stored dish has is the one read back by that id |
| `Dishes.DishStore.List` | src/dishes/dishes.controller.js:49-51 | replies 200 with the collection as it is, changing nothing |
| `Dishes.DishStore.Read` | src/dishes/dishes.controller.js:77-79 | replies 200 with the first dish having the path id, or 404 naming the id |
| `Dishes.DishStore.Create` | src/dishes/dishes.controller.js:58-71 | on a passing chain it appends exactly one dish (the four payload fields and the new id) after the unchanged earlier ones; on failure nothing changes |
| `Dishes.DishStore.Update` | src/dishes/dishes.controller.js:86-96 | on a passing chain it overwrites the four fields of the located dish, keeping its id, position and all other dishes; on failure nothing changes |

## Left out

- The routers and the 405 handler `methodNotAllowed`: they are route wiring, and `src/errors/methodNotAllowed` is not part of this model.
- `nextId`: `src/utils/nextId` is not part of this model. The new id is a parameter of `Create`, and nothing is assumed about it being fresh. `Dishes.CreatedDishIsFound` states the read-back property only for an unused id.
- Response plumbing: `res.json`, `res.status` and `res.sendStatus` become the returned `Reply`, and `res.locals` becomes the located index. Loading the data files is not modelled; a store starts from a given sequence.
- Framework error handling: a TypeError thrown by a stage becomes the reply `Uncaught`. What Express's default handler then sends is not modelled.
- Aliasing of stored records: an order or dish is a value, and an in-place field assignment becomes replacing the element at the located index. A reply does not see later updates of the same object.
- JavaScript coercion beyond the JSON values modelled here: NaN, Infinity, -0, and `Number()` of arbitrary strings or objects.
- Validators.Present: a plain object that carries its own `length` key is treated as having none.
- Json.Display: a non-integer number in an id-mismatch message is rendered as its integer part followed by `.…`. JavaScript's formatting of doubles is not modelled, because numbers are reals here. An integer-valued number of magnitude 1e21 or more, which JavaScript writes in exponent form (`1e+21`), is rendered with all its digits.
- Json.Member: only the controllers' own field names are looked up. Built-in properties of strings, arrays and objects are not modelled.
- Concurrency: there is none in the code. Each request runs to completion.
