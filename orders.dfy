/** The orders controller: the order-specific checks, the chains the
    routes run for create, read, update and delete, and the shared
    collection of orders those chains guard. */
module Orders {
  import opened Json
  import opened Pipeline
  import opened Validators
  import Decimal

  /** A stored order. The payload fields are kept as the client sent them:
      creation does not check `status` at all. */
  datatype Order = Order(id: string, deliverTo: Value, mobileNumber: Value, status: Value, dishes: Value)

  function OrderId(o: Order): string {
    o.id
  }

  /** `orders.find(order => order.id === orderId)`, as the index of the
      order found. */
  function FindOrder(orders: seq<Order>, orderId: string): (r: Option<nat>)
    ensures r.Some? ==> r.value < |orders| && orders[r.value].id == orderId
    ensures r.Some? ==> forall j :: 0 <= j < r.value ==> orders[j].id != orderId
    ensures r.None? <==> forall j :: 0 <= j < |orders| ==> orders[j].id != orderId
  {
    Locate(orders, OrderId, orderId)
  }

  function NotFoundMessage(orderId: string): string {
    "Order id not found: " + orderId
  }

  /** `orderExists`: locates the order named by the path, or stops with 404. */
  function OrderExists(orders: seq<Order>, orderId: string): (r: Step<Option<nat>>)
    ensures r.Next? <==> exists i :: 0 <= i < |orders| && orders[i].id == orderId
    ensures r.Next? ==> r.locals.Some? && r.locals == FindOrder(orders, orderId)
    ensures r.Halt? ==> r.failure == Failure(404, NotFoundMessage(orderId))
    ensures !r.Raise?
  {
    match FindOrder(orders, orderId)
    case Some(i) => Next(Some(i))
    case None => Halt(Failure(404, NotFoundMessage(orderId)))
  }

  /** `res.locals.order`; `None` when nothing was located, where reading a
      field of it throws. */
  function StoredOrder(orders: seq<Order>, located: Option<nat>): Option<Order> {
    if located.Some? && located.value < |orders| then Some(orders[located.value]) else None
  }

  function MismatchMessage(bodyId: Value, id: string): string {
    "Order id does not match route id. Order: " + Display(bodyId) + ", Route: " + id
  }

  /** `validateOrderId`, given the stored order's id. `data` is destructured
      without a default, so an absent `data` throws. */
  function ValidateOrderId(id: string, data: Value): (r: Verdict)
    ensures r.Throws? <==> data.Undefined? || data.Null?
    ensures r.Pass? <==> !r.Throws? && IdAgrees(Get(data, "id"), id)
    ensures r.Fail? ==> r.failure == Failure(400, MismatchMessage(Get(data, "id"), id))
    ensures r.Fail? && Get(data, "id").Str? ==>
      r.failure.message == "Order id does not match route id. Order: " + Get(data, "id").s + ", Route: " + id
  {
    match Member(data, "id")
    case None => Throws
    case Some(bodyId) =>
      if IdAgrees(bodyId, id) then Pass else Fail(Failure(400, MismatchMessage(bodyId, id)))
  }

  /** A dish line is good when `dish.quantity` is a positive integer. */
  predicate GoodLine(line: Value)
    ensures GoodLine(line) <==>
      line.Obj? && "quantity" in line.fields && IsPositiveInteger(line.fields["quantity"])
  {
    match Member(line, "quantity")
    case Some(q) => IsPositiveInteger(q)
    case None => false
  }

  /** How `dishes.every(...)` ends: every line good, stopped at the first
      bad line, or thrown reading `quantity` of an undefined or null line. */
  datatype Scan = AllGood | BadAt(index: nat) | ThrewAt(index: nat)

  /** The scan `every` performs from the first line on, stopping at the
      first line that is not good. */
  function ScanLines(lines: seq<Value>): (r: Scan)
    ensures r.AllGood? <==> forall i :: 0 <= i < |lines| ==> GoodLine(lines[i])
    ensures r.BadAt? ==> r.index < |lines| && !lines[r.index].Undefined? && !lines[r.index].Null?
    ensures r.ThrewAt? ==> r.index < |lines| && (lines[r.index].Undefined? || lines[r.index].Null?)
    ensures !r.AllGood? ==> !GoodLine(lines[r.index]) && forall i :: 0 <= i < r.index ==> GoodLine(lines[i])
    decreases |lines|
  {
    if lines == [] then AllGood
    else if Member(lines[0], "quantity").None? then ThrewAt(0)
    else if !GoodLine(lines[0]) then BadAt(0)
    else
      match ScanLines(lines[1..])
      case AllGood => AllGood
      case BadAt(i) => BadAt(i + 1)
      case ThrewAt(i) => ThrewAt(i + 1)
  }

  /** The loop form of `ScanLines`, as `validateQuantity` runs it: `every`
      visits the lines in order and records in `index` the first line whose
      quantity is not a positive integer, stopping there; reading `quantity`
      of an undefined or null line throws. The chains use `ScanLines`; this
      method is there only to show that the loop computes the same scan. */
  method EveryQuantityGood(lines: seq<Value>) returns (r: Scan)
    ensures r == ScanLines(lines)
  {
    var dishIndex := 0;
    while dishIndex < |lines|
      invariant 0 <= dishIndex <= |lines|
      invariant forall i :: 0 <= i < dishIndex ==> GoodLine(lines[i])
    {
      var dish := lines[dishIndex];
      if Member(dish, "quantity").None? {
        return ThrewAt(dishIndex);
      }
      if !GoodLine(dish) {
        return BadAt(dishIndex);
      }
      dishIndex := dishIndex + 1;
    }
    return AllGood;
  }

  function QuantityMessage(index: nat): string {
    "Dish " + Decimal.NatToString(index) + " must have a quantity that is an integer greater than 0"
  }

  /** A quantity failure message names one line: distinct lines give
      distinct messages, so the reported index can be read back. */
  lemma QuantityMessageNamesLine(i: nat, j: nat)
    requires QuantityMessage(i) == QuantityMessage(j)
    ensures i == j
  {
    var prefix := "Dish ";
    var suffix := " must have a quantity that is an integer greater than 0";
    var a, b := Decimal.NatToString(i), Decimal.NatToString(j);
    assert QuantityMessage(i) == prefix + a + suffix;
    assert QuantityMessage(j) == prefix + b + suffix;
    assert |a| == |b|;
    assert a == QuantityMessage(i)[|prefix|..|prefix| + |a|];
    assert b == QuantityMessage(j)[|prefix|..|prefix| + |b|];
    Decimal.NatToStringInjective(i, j);
  }

  /** The dish lines a valid order carries: a non-empty array whose every
      line has a positive-integer quantity. */
  predicate ValidLines(v: Value) {
    v.Arr? && v.items != [] && forall i :: 0 <= i < |v.items| ==> GoodLine(v.items[i])
  }

  /** `validateQuantity`. */
  function ValidateQuantity(data: Value): (r: Verdict)
    ensures r.Pass? <==> (!data.Null? && Get(data, "dishes").Arr? &&
      forall i :: 0 <= i < |Get(data, "dishes").items| ==> GoodLine(Get(data, "dishes").items[i]))
    ensures r.Fail? ==> (Get(data, "dishes").Arr? &&
      var scan := ScanLines(Get(data, "dishes").items);
      scan.BadAt? && r.failure == Failure(400, QuantityMessage(scan.index)))
    ensures r.Throws? <==>
      data.Null? || !Get(data, "dishes").Arr? || ScanLines(Get(data, "dishes").items).ThrewAt?
  {
    match Field(data, "dishes")
    case None => Throws
    case Some(dishes) =>
      if !dishes.Arr? then Throws
      else
        match ScanLines(dishes.items)
        case AllGood => Pass
        case BadAt(i) => Fail(Failure(400, QuantityMessage(i)))
        case ThrewAt(_) => Throws
  }

  const InvalidStatus := Str("invalid")
  const Delivered := Str("delivered")
  const Pending := Str("pending")
  const DeliveredMessage := "A delivered order cannot be changed"
  const NotPendingMessage := "An order cannot be deleted unless it is pending."
  const StatusMessage := "Order must have a status of pending, preparing, out-for-delivery, delivered"

  /** `validateStatusToUpdate`, given the stored status: the sentinel
      `"invalid"` is refused whatever is stored, then a delivered order is
      frozen; no other status value is checked here. */
  function ValidateStatusToUpdate(stored: Value, data: Value): (r: Verdict)
    ensures r.Throws? <==> data.Undefined? || data.Null?
    ensures r.Pass? <==> !r.Throws? && Get(data, "status") != InvalidStatus && stored != Delivered
    ensures r.Fail? && Get(data, "status") == InvalidStatus ==> r.failure == Failure(400, "status")
    ensures r.Fail? && Get(data, "status") != InvalidStatus ==> r.failure == Failure(400, DeliveredMessage)
  {
    match Member(data, "status")
    case None => Throws
    case Some(status) =>
      if status == InvalidStatus then Fail(Failure(400, "status"))
      else if stored != Delivered then Pass
      else Fail(Failure(400, DeliveredMessage))
  }

  /** `validateStatusToDelete`, given the stored status. */
  function ValidateStatusToDelete(stored: Value): (r: Verdict)
    ensures r.Pass? <==> stored == Pending
    ensures !r.Pass? ==> r == Fail(Failure(400, NotPendingMessage))
  {
    if stored == Pending then Pass else Fail(Failure(400, NotPendingMessage))
  }

  /** The stages the order chains are built from. */
  datatype Stage =
    | Check(check: FieldCheck)
    | Exists
    | IdMatches
    | QuantitiesValid
    | UpdatableStatus
    | DeletableStatus

  /** What every stage can see: the collection and the request. */
  datatype Context = Context(orders: seq<Order>, req: Request)

  /** One stage. The request-local state is the index of the located order. */
  function Eval(stage: Stage, ctx: Context, located: Option<nat>): (r: Step<Option<nat>>)
    ensures r.Next? ==> r.locals == if stage.Exists? then FindOrder(ctx.orders, ctx.req.routeId) else located
    ensures r.Next? && stage.Exists? ==> r.locals.Some?
  {
    match stage
    case Check(c) => Lift(CheckField(c, ctx.req.data), located)
    case Exists => OrderExists(ctx.orders, ctx.req.routeId)
    case IdMatches =>
      (match StoredOrder(ctx.orders, located)
       case None => Raise
       case Some(o) => Lift(ValidateOrderId(o.id, ctx.req.data), located))
    case QuantitiesValid => Lift(ValidateQuantity(ctx.req.data), located)
    case UpdatableStatus =>
      (match StoredOrder(ctx.orders, located)
       case None => Raise
       case Some(o) => Lift(ValidateStatusToUpdate(o.status, ctx.req.data), located))
    case DeletableStatus =>
      (match StoredOrder(ctx.orders, located)
       case None => Raise
       case Some(o) => Lift(ValidateStatusToDelete(o.status), located))
  }

  const CreateChain: seq<Stage> := [
    Check(Required("deliverTo", None)),
    Check(Required("mobileNumber", None)),
    Check(Required("dishes", None)),
    Check(NonEmptyArray("dishes")),
    QuantitiesValid
  ]

  const ReadChain: seq<Stage> := [Exists]

  const UpdateChain: seq<Stage> := [
    Exists,
    IdMatches,
    Check(Required("deliverTo", None)),
    Check(Required("mobileNumber", None)),
    Check(Required("dishes", None)),
    Check(NonEmptyArray("dishes")),
    QuantitiesValid,
    Check(Required("status", Some(StatusMessage))),
    UpdatableStatus
  ]

  const DeleteChain: seq<Stage> := [Exists, DeletableStatus]

  /** A chain run on a fresh request, before anything is located. */
  function RunChain(chain: seq<Stage>, orders: seq<Order>, req: Request): Outcome<Option<nat>> {
    Run(chain, Eval, Context(orders, req), None)
  }

  /** What the create chain demands of a payload. */
  predicate AcceptableOrder(data: Value) {
    Filled(Get(data, "deliverTo")) && Filled(Get(data, "mobileNumber")) && ValidLines(Get(data, "dishes"))
  }

  /** What the update chain demands beyond that: a present status that is
      not the sentinel. */
  predicate AcceptableRevision(data: Value) {
    AcceptableOrder(data) && Filled(Get(data, "status")) && Get(data, "status") != InvalidStatus
  }

  /** An order as the collection invariant wants it: present delivery
      details and a non-empty list of lines with positive-integer quantities. */
  predicate WellFormed(o: Order) {
    Filled(o.deliverTo) && Filled(o.mobileNumber) && ValidLines(o.dishes)
  }

  predicate AllWellFormed(orders: seq<Order>) {
    forall i :: 0 <= i < |orders| ==> WellFormed(orders[i])
  }

  /** The order `create` builds: the new id and the four payload fields,
      nothing else. */
  function NewOrder(id: string, data: Value): Order {
    Order(id, Get(data, "deliverTo"), Get(data, "mobileNumber"), Get(data, "status"), Get(data, "dishes"))
  }

  /** The order `update` leaves: the four payload fields replace the stored
      ones; the id stays. */
  function Revised(o: Order, data: Value): Order {
    o.(deliverTo := Get(data, "deliverTo"), mobileNumber := Get(data, "mobileNumber"),
       status := Get(data, "status"), dishes := Get(data, "dishes"))
  }

  /** The chain leaves recorded the order its locator found, and nothing
      when it has no locator. */
  lemma {:induction false} RunLocates(chain: seq<Stage>, ctx: Context, located: Option<nat>)
    requires Run(chain, Eval, ctx, located).Passed?
    ensures Run(chain, Eval, ctx, located).locals ==
      if Exists in chain then FindOrder(ctx.orders, ctx.req.routeId) else located
    ensures Exists in chain ==> Run(chain, Eval, ctx, located).locals.Some?
    decreases |chain|
  {
    if chain != [] {
      var l := Eval(chain[0], ctx, located).locals;
      RunLocates(chain[1..], ctx, l);
      assert Exists in chain <==> chain[0] == Exists || Exists in chain[1..] by {
        assert chain == [chain[0]] + chain[1..];
      }
    }
  }

  /** The verdicts of the create checks, in chain order. */
  function CreateVerdicts(data: Value): seq<Verdict> {
    [ValidateProperty(data, "deliverTo", None),
     ValidateProperty(data, "mobileNumber", None),
     ValidateProperty(data, "dishes", None),
     ValidateArrayProperty(data, "dishes"),
     ValidateQuantity(data)]
  }

  /** The two status checks the update chain adds, given the stored status. */
  function StatusVerdicts(stored: Value, data: Value): seq<Verdict> {
    [ValidateProperty(data, "status", Some(StatusMessage)),
     ValidateStatusToUpdate(stored, data)]
  }

  /** The create checks, in order: the first that fails is reported. */
  lemma CreateScan(data: Value, located: Option<nat>)
    ensures var dishes := Get(data, "dishes");
      FirstStop(CreateVerdicts(data), located) ==
        if data.Null? then Raised(0)
        else if !Filled(Get(data, "deliverTo")) then Failed(0, Failure(400, PresenceMessage("deliverTo", None)))
        else if !Filled(Get(data, "mobileNumber")) then Failed(1, Failure(400, PresenceMessage("mobileNumber", None)))
        else if !Filled(dishes) then Failed(2, Failure(400, PresenceMessage("dishes", None)))
        else if !(dishes.Arr? && dishes.items != []) then Failed(3, Failure(400, DishesMessage))
        else match ScanLines(dishes.items)
          case AllGood => Passed(located)
          case BadAt(i) => Failed(4, Failure(400, QuantityMessage(i)))
          case ThrewAt(_) => Raised(4)
  {
    var vs := CreateVerdicts(data);
    var dishes := Get(data, "dishes");
    if data.Null? || !Filled(Get(data, "deliverTo")) {
      FirstStopAt(vs, 0, located);
    } else if !Filled(Get(data, "mobileNumber")) {
      FirstStopAt(vs, 1, located);
    } else if !Filled(dishes) {
      FirstStopAt(vs, 2, located);
    } else if !(dishes.Arr? && dishes.items != []) {
      FirstStopAt(vs, 3, located);
    } else if !ScanLines(dishes.items).AllGood? {
      FirstStopAt(vs, 4, located);
    }
  }

  /** Every create check passes exactly on an acceptable payload. */
  lemma CreateVerdictsPass(data: Value)
    ensures (forall i :: 0 <= i < |CreateVerdicts(data)| ==> CreateVerdicts(data)[i].Pass?) <==> AcceptableOrder(data)
  {
    var vs := CreateVerdicts(data);
    if AcceptableOrder(data) {
      forall i | 0 <= i < |vs| ensures vs[i].Pass? {
      }
    } else {
      assert !(vs[0].Pass? && vs[1].Pass? && vs[2].Pass? && vs[3].Pass? && vs[4].Pass?);
    }
  }

  /** The create chain, from any request-local state, is the first-stop
      scan of its checks. */
  lemma CreateChainChecks(orders: seq<Order>, req: Request, located: Option<nat>)
    ensures Run(CreateChain, Eval, Context(orders, req), located) == FirstStop(CreateVerdicts(req.data), located)
  {
    var ctx := Context(orders, req);
    var vs := CreateVerdicts(req.data);
    forall i | 0 <= i < |CreateChain|
      ensures Eval(CreateChain[i], ctx, located) == Lift(vs[i], located)
    {
    }
    RunChecks(CreateChain, vs, Eval, ctx, located);
  }

  /** The create chain, stage by stage: the first check that fails is the
      one reported, and the chain passes only when all five pass. */
  lemma CreateChainCascade(orders: seq<Order>, req: Request)
    ensures var data := req.data; var dishes := Get(data, "dishes");
      RunChain(CreateChain, orders, req) ==
        if data.Null? then Raised(0)
        else if !Filled(Get(data, "deliverTo")) then Failed(0, Failure(400, PresenceMessage("deliverTo", None)))
        else if !Filled(Get(data, "mobileNumber")) then Failed(1, Failure(400, PresenceMessage("mobileNumber", None)))
        else if !Filled(dishes) then Failed(2, Failure(400, PresenceMessage("dishes", None)))
        else if !(dishes.Arr? && dishes.items != []) then Failed(3, Failure(400, DishesMessage))
        else match ScanLines(dishes.items)
          case AllGood => Passed(None)
          case BadAt(i) => Failed(4, Failure(400, QuantityMessage(i)))
          case ThrewAt(_) => Raised(4)
  {
    CreateChainChecks(orders, req, None);
    CreateScan(req.data, None);
  }

  /** Create passes exactly the payloads with delivery details and valid lines. */
  lemma CreateChainAccepts(orders: seq<Order>, req: Request)
    ensures RunChain(CreateChain, orders, req).Passed? <==> AcceptableOrder(req.data)
    ensures RunChain(CreateChain, orders, req).Passed? ==>
      RunChain(CreateChain, orders, req).locals == None
  {
    CreateChainChecks(orders, req, None);
    CreateVerdictsPass(req.data);
  }

  /** Every chain that starts by locating the order reports 404, naming the
      id, when no order has it, whatever the body holds. */
  lemma MissingOrderReported(chain: seq<Stage>, orders: seq<Order>, req: Request)
    requires chain != [] && chain[0] == Exists
    requires FindOrder(orders, req.routeId).None?
    ensures RunChain(chain, orders, req) == Failed(0, Failure(404, NotFoundMessage(req.routeId)))
  {
  }

  /** The outcome of the update chain once the order is located at `i` and
      the body id agrees, with stage numbers counted from the chain's start. */
  function UpdateChecksOutcome(orders: seq<Order>, data: Value, i: nat): Outcome<Option<nat>>
    requires i < |orders|
  {
    var dishes := Get(data, "dishes");
    var status := Get(data, "status");
    if data.Null? then Raised(2)
    else if !Filled(Get(data, "deliverTo")) then Failed(2, Failure(400, PresenceMessage("deliverTo", None)))
    else if !Filled(Get(data, "mobileNumber")) then Failed(3, Failure(400, PresenceMessage("mobileNumber", None)))
    else if !Filled(dishes) then Failed(4, Failure(400, PresenceMessage("dishes", None)))
    else if !(dishes.Arr? && dishes.items != []) then Failed(5, Failure(400, DishesMessage))
    else match ScanLines(dishes.items)
      case BadAt(j) => Failed(6, Failure(400, QuantityMessage(j)))
      case ThrewAt(_) => Raised(6)
      case AllGood =>
        if !Filled(status) then Failed(7, Failure(400, StatusMessage))
        else if status == InvalidStatus then Failed(8, Failure(400, "status"))
        else if orders[i].status == Delivered then Failed(8, Failure(400, DeliveredMessage))
        else Passed(Some(i))
  }

  /** With the order located at `i`, the seven stages after the id check
      are the first-stop scan of the create checks and the status checks. */
  lemma UpdateChecks(orders: seq<Order>, req: Request, i: nat)
    requires i < |orders|
    ensures Run(UpdateChain[2..], Eval, Context(orders, req), Some(i)) ==
      FirstStop(CreateVerdicts(req.data) + StatusVerdicts(orders[i].status, req.data), Some(i))
  {
    var ctx := Context(orders, req);
    var loc := Some(i);
    var stages := UpdateChain[2..];
    var vs := CreateVerdicts(req.data) + StatusVerdicts(orders[i].status, req.data);
    forall k | 0 <= k < |stages|
      ensures Eval(stages[k], ctx, loc) == Lift(vs[k], loc)
    {
    }
    RunChecks(stages, vs, Eval, ctx, loc);
  }

  /** The seven stages after the id check, in order. */
  lemma UpdateChecksCascade(orders: seq<Order>, req: Request, i: nat)
    requires i < |orders|
    ensures Offset(Run(UpdateChain[2..], Eval, Context(orders, req), Some(i)), 2) ==
      UpdateChecksOutcome(orders, req.data, i)
  {
    var data := req.data;
    var loc := Some(i);
    var cv := CreateVerdicts(data);
    var sv := StatusVerdicts(orders[i].status, data);
    UpdateChecks(orders, req, i);
    FirstStopAppend(cv, sv, loc);
    CreateScan(data, loc);
    assert sv[2..] == [];
    FirstStopFrom(sv, 1, loc);
  }

  /** The first two update stages: the locator, then the body id check
      against the order it located. */
  lemma UpdateHead(orders: seq<Order>, req: Request)
    ensures var data := req.data; var id := req.routeId;
      RunChain(UpdateChain, orders, req) ==
        match FindOrder(orders, id)
        case None => Failed(0, Failure(404, NotFoundMessage(id)))
        case Some(i) =>
          if data.Undefined? || data.Null? then Raised(1)
          else if !IdAgrees(Get(data, "id"), id) then Failed(1, Failure(400, MismatchMessage(Get(data, "id"), id)))
          else Offset(Run(UpdateChain[2..], Eval, Context(orders, req), Some(i)), 2)
  {
    var ctx := Context(orders, req);
    var loc := FindOrder(orders, req.routeId);
    RunFrom(UpdateChain, 0, Eval, ctx, None);
    if loc.Some? {
      RunFrom(UpdateChain, 1, Eval, ctx, loc);
    }
  }

  /** The update chain, stage by stage: a missing order is reported first
      (404), then a body id that disagrees, then each payload check in turn;
      the sentinel status `"invalid"` is reported whatever is stored, and
      only then is a delivered order reported as frozen. */
  lemma UpdateChainCascade(orders: seq<Order>, req: Request)
    ensures var data := req.data; var id := req.routeId;
      RunChain(UpdateChain, orders, req) ==
        match FindOrder(orders, id)
        case None => Failed(0, Failure(404, NotFoundMessage(id)))
        case Some(i) =>
          if data.Undefined? || data.Null? then Raised(1)
          else if !IdAgrees(Get(data, "id"), id) then Failed(1, Failure(400, MismatchMessage(Get(data, "id"), id)))
          else UpdateChecksOutcome(orders, data, i)
  {
    UpdateHead(orders, req);
    var loc := FindOrder(orders, req.routeId);
    if loc.Some? {
      UpdateChecksCascade(orders, req, loc.value);
    }
  }

  /** Update passes exactly when the order exists, the body id agrees with
      it, the payload is acceptable, and the stored order is not delivered. */
  lemma UpdateChainAccepts(orders: seq<Order>, req: Request)
    ensures RunChain(UpdateChain, orders, req).Passed? <==>
      FindOrder(orders, req.routeId).Some? &&
      IdAgrees(Get(req.data, "id"), req.routeId) &&
      AcceptableRevision(req.data) &&
      orders[FindOrder(orders, req.routeId).value].status != Delivered
    ensures RunChain(UpdateChain, orders, req).Passed? ==>
      RunChain(UpdateChain, orders, req).locals == FindOrder(orders, req.routeId)
  {
    UpdateChainCascade(orders, req);
  }

  /** A delivered order is frozen: no update request passes its chain. */
  lemma DeliveredOrderFrozen(orders: seq<Order>, req: Request)
    requires FindOrder(orders, req.routeId).Some?
    requires orders[FindOrder(orders, req.routeId).value].status == Delivered
    ensures !RunChain(UpdateChain, orders, req).Passed?
  {
    UpdateChainAccepts(orders, req);
  }

  /** Delete passes exactly when the order exists and is pending; an order
      in any other state is refused with 400. */
  lemma DeleteChainAccepts(orders: seq<Order>, req: Request)
    ensures RunChain(DeleteChain, orders, req).Passed? <==>
      FindOrder(orders, req.routeId).Some? && orders[FindOrder(orders, req.routeId).value].status == Pending
    ensures RunChain(DeleteChain, orders, req).Passed? ==>
      RunChain(DeleteChain, orders, req).locals == FindOrder(orders, req.routeId)
    ensures FindOrder(orders, req.routeId).Some? && orders[FindOrder(orders, req.routeId).value].status != Pending ==>
      RunChain(DeleteChain, orders, req) == Failed(1, Failure(400, NotPendingMessage))
  {
    var ctx := Context(orders, req);
    var c := DeleteChain;
    var loc := FindOrder(orders, req.routeId);
    assert c[2..] == [];
    RunFrom(c, 1, Eval, ctx, loc);
  }

  /** `array.splice(start, 1)` on the collection: a negative start counts
      from the end, and a start past the end removes nothing. */
  function SpliceOne(s: seq<Order>, start: int): (r: seq<Order>)
    ensures 0 <= start < |s| ==> r == s[..start] + s[start + 1..]
    ensures start == -1 && s != [] ==> r == s[..|s| - 1]
  {
    var from := if start < 0 then (if |s| + start < 0 then 0 else |s| + start)
                else (if start > |s| then |s| else start);
    if from < |s| then s[..from] + s[from + 1..] else s
  }

  /** The shared collection of orders. */
  class OrderStore {
    var orders: seq<Order>

    constructor (initial: seq<Order>)
      ensures orders == initial
    {
      orders := initial;
    }

    /** GET /orders: the collection as it is. */
    method List() returns (r: Reply<seq<Order>>)
      ensures r == Sent(200, orders)
    {
      r := Sent(200, orders);
    }

    /** GET /orders/:orderId: `[orderExists, read]`. */
    method Read(req: Request) returns (r: Reply<Order>)
      ensures match FindOrder(orders, req.routeId)
              case Some(i) => r == Sent(200, orders[i])
              case None => r == Rejected(Failure(404, NotFoundMessage(req.routeId)))
    {
      var out := RunChain(ReadChain, orders, req);
      if out.Passed? {
        RunLocates(ReadChain, Context(orders, req), None);
        r := Sent(200, orders[out.locals.value]);
      } else {
        MissingOrderReported(ReadChain, orders, req);
        r := Refusal(out);
      }
    }

    /** POST /orders: the create chain, then `orders.push` of the new order. */
    method Create(req: Request, newId: string) returns (r: Reply<Order>)
      modifies this
      ensures var out := RunChain(CreateChain, old(orders), req);
        if out.Passed? then
          orders == old(orders) + [NewOrder(newId, req.data)] && r == Sent(201, NewOrder(newId, req.data))
        else
          orders == old(orders) && r == Refusal(out)
      ensures |orders| > |old(orders)| ==> WellFormed(orders[|orders| - 1])
      ensures AllWellFormed(old(orders)) ==> AllWellFormed(orders)
    {
      var out := RunChain(CreateChain, orders, req);
      if !out.Passed? {
        r := Refusal(out);
        return;
      }
      CreateChainAccepts(orders, req);
      var order := NewOrder(newId, req.data);
      orders := orders + [order];
      r := Sent(201, order);
    }

    /** PUT /orders/:orderId: the update chain, then the four fields of the
      located order are assigned in place. */
    method Update(req: Request) returns (r: Reply<Order>)
      modifies this
      ensures var out := RunChain(UpdateChain, old(orders), req);
        !out.Passed? ==> orders == old(orders) && r == Refusal(out)
      ensures var out := RunChain(UpdateChain, old(orders), req);
        out.Passed? ==> (FindOrder(old(orders), req.routeId).Some? &&
          var i := FindOrder(old(orders), req.routeId).value;
          old(orders)[i].status != Delivered &&
          orders == old(orders)[i := Revised(old(orders)[i], req.data)] &&
          r == Sent(200, orders[i]))
      ensures AllWellFormed(old(orders)) ==> AllWellFormed(orders)
    {
      var out := RunChain(UpdateChain, orders, req);
      if !out.Passed? {
        r := Refusal(out);
        return;
      }
      UpdateChainAccepts(orders, req);
      var i := out.locals.value;
      var order := Revised(orders[i], req.data);
      orders := orders[i := order];
      r := Sent(200, order);
    }

    /** DELETE /orders/:orderId: the delete chain, then
      `orders.splice(orders.findIndex(...), 1)`. */
    method Destroy(req: Request) returns (r: Reply<Order>)
      modifies this
      ensures var out := RunChain(DeleteChain, old(orders), req);
        !out.Passed? ==> orders == old(orders) && r == Refusal(out)
      ensures var out := RunChain(DeleteChain, old(orders), req);
        out.Passed? ==> (FindOrder(old(orders), req.routeId).Some? &&
          var i := FindOrder(old(orders), req.routeId).value;
          old(orders)[i].status == Pending &&
          orders == old(orders)[..i] + old(orders)[i + 1..] &&
          r == NoContent)
      ensures AllWellFormed(old(orders)) ==> AllWellFormed(orders)
    {
      var out := RunChain(DeleteChain, orders, req);
      if !out.Passed? {
        r := Refusal(out);
        return;
      }
      DeleteChainAccepts(orders, req);
      var index: int := match FindOrder(orders, req.routeId)
                        case Some(i) => i
                        case None => -1;
      orders := SpliceOne(orders, index);
      r := NoContent;
    }
  }
}
