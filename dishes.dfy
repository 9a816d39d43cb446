/** The dishes controller: the dish-specific checks, the chains the routes
    run for create, read and update, and the shared collection of dishes
    those chains guard. Dishes are never deleted. */
module Dishes {
  import opened Json
  import opened Pipeline
  import opened Validators

  /** A stored dish; the payload fields are kept as the client sent them. */
  datatype Dish = Dish(id: string, name: Value, description: Value, price: Value, imageUrl: Value)

  function DishId(d: Dish): string {
    d.id
  }

  /** `dishes.find(dish => dish.id === dishId)`, as the index of the dish found. */
  function FindDish(dishes: seq<Dish>, dishId: string): (r: Option<nat>)
    ensures r.Some? ==> r.value < |dishes| && dishes[r.value].id == dishId
    ensures r.Some? ==> forall j :: 0 <= j < r.value ==> dishes[j].id != dishId
    ensures r.None? <==> forall j :: 0 <= j < |dishes| ==> dishes[j].id != dishId
  {
    Locate(dishes, DishId, dishId)
  }

  function NotFoundMessage(dishId: string): string {
    "Dish does not exist: " + dishId + "."
  }

  /** `dishExists`: locates the dish named by the path, or stops with 404. */
  function DishExists(dishes: seq<Dish>, dishId: string): (r: Step<Option<nat>>)
    ensures r.Next? <==> exists i :: 0 <= i < |dishes| && dishes[i].id == dishId
    ensures r.Next? ==> r.locals.Some? && r.locals == FindDish(dishes, dishId)
    ensures r.Halt? ==> r.failure == Failure(404, NotFoundMessage(dishId))
    ensures !r.Raise?
  {
    match FindDish(dishes, dishId)
    case Some(i) => Next(Some(i))
    case None => Halt(Failure(404, NotFoundMessage(dishId)))
  }

  /** `res.locals.dish`; `None` when nothing was located. */
  function StoredDish(dishes: seq<Dish>, located: Option<nat>): Option<Dish> {
    if located.Some? && located.value < |dishes| then Some(dishes[located.value]) else None
  }

  function MismatchMessage(bodyId: Value, id: string): string {
    "Dish id does not match route id. Dish: " + Display(bodyId) + ", Route: " + id
  }

  /** `validateDishId`, given the stored dish's id. `data` is destructured
      without a default, so an absent `data` throws. */
  function ValidateDishId(id: string, data: Value): (r: Verdict)
    ensures r.Throws? <==> data.Undefined? || data.Null?
    ensures r.Pass? <==> !r.Throws? && IdAgrees(Get(data, "id"), id)
    ensures r.Fail? ==> r.failure == Failure(400, MismatchMessage(Get(data, "id"), id))
    ensures r.Fail? && Get(data, "id").Str? ==>
      r.failure.message == "Dish id does not match route id. Dish: " + Get(data, "id").s + ", Route: " + id
  {
    match Member(data, "id")
    case None => Throws
    case Some(bodyId) =>
      if IdAgrees(bodyId, id) then Pass else Fail(Failure(400, MismatchMessage(bodyId, id)))
  }

  /** The stages the dish chains are built from. */
  datatype Stage = Check(check: FieldCheck) | Exists | IdMatches

  /** What every stage can see: the collection and the request. */
  datatype Context = Context(dishes: seq<Dish>, req: Request)

  /** One stage. The request-local state is the index of the located dish. */
  function Eval(stage: Stage, ctx: Context, located: Option<nat>): (r: Step<Option<nat>>)
    ensures r.Next? ==> r.locals == if stage.Exists? then FindDish(ctx.dishes, ctx.req.routeId) else located
    ensures r.Next? && stage.Exists? ==> r.locals.Some?
  {
    match stage
    case Check(c) => Lift(CheckField(c, ctx.req.data), located)
    case Exists => DishExists(ctx.dishes, ctx.req.routeId)
    case IdMatches =>
      match StoredDish(ctx.dishes, located)
      case None => Raise
      case Some(d) => Lift(ValidateDishId(d.id, ctx.req.data), located)
  }

  const CreateChain: seq<Stage> := [
    Check(Required("name", None)),
    Check(Required("description", None)),
    Check(Required("price", None)),
    Check(PositiveInteger("price")),
    Check(Required("image_url", None))
  ]

  const ReadChain: seq<Stage> := [Exists]

  /** The update chain is the create chain behind the locator and the id check. */
  const UpdateChain: seq<Stage> := [Exists, IdMatches] + CreateChain

  /** A chain run on a fresh request, before anything is located. */
  function RunChain(chain: seq<Stage>, dishes: seq<Dish>, req: Request): Outcome<Option<nat>> {
    Run(chain, Eval, Context(dishes, req), None)
  }

  /** What the create chain demands of a payload: a present name,
      description and image, and a price that is a positive integer. */
  predicate AcceptableDish(data: Value) {
    Filled(Get(data, "name")) && Filled(Get(data, "description")) &&
    IsPositiveInteger(Get(data, "price")) && Filled(Get(data, "image_url"))
  }

  /** A dish as the collection invariant wants it. */
  predicate WellFormed(d: Dish) {
    Filled(d.name) && Filled(d.description) && IsPositiveInteger(d.price) && Filled(d.imageUrl)
  }

  predicate AllWellFormed(dishes: seq<Dish>) {
    forall i :: 0 <= i < |dishes| ==> WellFormed(dishes[i])
  }

  /** The dish `create` builds: the four payload fields and the new id. */
  function NewDish(id: string, data: Value): Dish {
    Dish(id, Get(data, "name"), Get(data, "description"), Get(data, "price"), Get(data, "image_url"))
  }

  /** The dish `update` leaves: the four payload fields replace the stored
      ones; the id stays. */
  function Revised(d: Dish, data: Value): Dish {
    d.(name := Get(data, "name"), description := Get(data, "description"),
       price := Get(data, "price"), imageUrl := Get(data, "image_url"))
  }

  /** The verdicts of the create checks, in chain order. */
  function CreateVerdicts(data: Value): seq<Verdict> {
    [ValidateProperty(data, "name", None),
     ValidateProperty(data, "description", None),
     ValidateProperty(data, "price", None),
     ValidateNumberProperty(data, "price"),
     ValidateProperty(data, "image_url", None)]
  }

  /** The create chain, from any request-local state, is the first-stop
      scan of its checks. */
  lemma CreateChainChecks(dishes: seq<Dish>, req: Request, located: Option<nat>)
    ensures Run(CreateChain, Eval, Context(dishes, req), located) == FirstStop(CreateVerdicts(req.data), located)
  {
    var ctx := Context(dishes, req);
    var vs := CreateVerdicts(req.data);
    forall i | 0 <= i < |CreateChain|
      ensures Eval(CreateChain[i], ctx, located) == Lift(vs[i], located)
    {
    }
    RunChecks(CreateChain, vs, Eval, ctx, located);
  }

  /** The create checks, stage by stage, from any request-local state:
      name, description, price present, price a positive integer, image
      present; the first that fails is the one reported. */
  lemma CreateChainCascade(dishes: seq<Dish>, req: Request, located: Option<nat>)
    ensures var data := req.data;
      Run(CreateChain, Eval, Context(dishes, req), located) ==
        if data.Null? then Raised(0)
        else if !Filled(Get(data, "name")) then Failed(0, Failure(400, PresenceMessage("name", None)))
        else if !Filled(Get(data, "description")) then Failed(1, Failure(400, PresenceMessage("description", None)))
        else if !Filled(Get(data, "price")) then Failed(2, Failure(400, PresenceMessage("price", None)))
        else if !IsPositiveInteger(Get(data, "price")) then Failed(3, Failure(400, PriceMessage))
        else if !Filled(Get(data, "image_url")) then Failed(4, Failure(400, PresenceMessage("image_url", None)))
        else Passed(located)
  {
    CreateChainChecks(dishes, req, located);
    var data := req.data;
    var vs := CreateVerdicts(data);
    if data.Null? || !Filled(Get(data, "name")) {
      FirstStopAt(vs, 0, located);
    } else if !Filled(Get(data, "description")) {
      FirstStopAt(vs, 1, located);
    } else if !Filled(Get(data, "price")) {
      FirstStopAt(vs, 2, located);
    } else if !IsPositiveInteger(Get(data, "price")) {
      FirstStopAt(vs, 3, located);
    } else if !Filled(Get(data, "image_url")) {
      FirstStopAt(vs, 4, located);
    }
  }

  /** Every create check passes exactly on an acceptable payload. */
  lemma CreateVerdictsPass(data: Value)
    ensures (forall i :: 0 <= i < |CreateVerdicts(data)| ==> CreateVerdicts(data)[i].Pass?) <==> AcceptableDish(data)
  {
    var vs := CreateVerdicts(data);
    if AcceptableDish(data) {
      forall i | 0 <= i < |vs| ensures vs[i].Pass? {
      }
    } else {
      assert !(vs[0].Pass? && vs[1].Pass? && vs[2].Pass? && vs[3].Pass? && vs[4].Pass?);
    }
  }

  /** Create passes exactly the acceptable payloads. */
  lemma CreateChainAccepts(dishes: seq<Dish>, req: Request)
    ensures RunChain(CreateChain, dishes, req).Passed? <==> AcceptableDish(req.data)
    ensures RunChain(CreateChain, dishes, req).Passed? ==> RunChain(CreateChain, dishes, req).locals == None
  {
    CreateChainChecks(dishes, req, None);
    CreateVerdictsPass(req.data);
  }

  /** The update chain: existence is checked before the body id, and both
      before any field, whose checks then run exactly as on create. */
  lemma UpdateChainCascade(dishes: seq<Dish>, req: Request)
    ensures var data := req.data; var id := req.routeId;
      RunChain(UpdateChain, dishes, req) ==
        match FindDish(dishes, id)
        case None => Failed(0, Failure(404, NotFoundMessage(id)))
        case Some(i) =>
          if data.Undefined? || data.Null? then Raised(1)
          else if !IdAgrees(Get(data, "id"), id) then Failed(1, Failure(400, MismatchMessage(Get(data, "id"), id)))
          else Offset(Run(CreateChain, Eval, Context(dishes, req), Some(i)), 2)
  {
    var ctx := Context(dishes, req);
    var head: seq<Stage> := [Exists, IdMatches];
    RunAppend(head, CreateChain, Eval, ctx, None);
    var loc := FindDish(dishes, req.routeId);
    assert head[2..] == [];
    RunFrom(head, 1, Eval, ctx, loc);
  }

  /** A missing dish is reported as 404, naming the id, even when the body
      is invalid too. */
  lemma MissingDishReported(dishes: seq<Dish>, req: Request)
    requires FindDish(dishes, req.routeId).None?
    ensures RunChain(UpdateChain, dishes, req) == Failed(0, Failure(404, NotFoundMessage(req.routeId)))
    ensures RunChain(ReadChain, dishes, req) == Failed(0, Failure(404, NotFoundMessage(req.routeId)))
  {
    UpdateChainCascade(dishes, req);
  }

  /** Update passes exactly when the dish exists, the body id agrees with
      it, and the payload is acceptable; the chain leaves the dish located. */
  lemma UpdateChainAccepts(dishes: seq<Dish>, req: Request)
    ensures RunChain(UpdateChain, dishes, req).Passed? <==>
      FindDish(dishes, req.routeId).Some? && IdAgrees(Get(req.data, "id"), req.routeId) && AcceptableDish(req.data)
    ensures RunChain(UpdateChain, dishes, req).Passed? ==>
      RunChain(UpdateChain, dishes, req).locals == FindDish(dishes, req.routeId)
  {
    UpdateChainCascade(dishes, req);
    if FindDish(dishes, req.routeId).Some? {
      CreateChainChecks(dishes, req, FindDish(dishes, req.routeId));
      CreateVerdictsPass(req.data);
    }
  }

  /** Reading back a dish just created under an unused id finds that dish. */
  lemma CreatedDishIsFound(dishes: seq<Dish>, newId: string, data: Value)
    requires forall j :: 0 <= j < |dishes| ==> dishes[j].id != newId
    ensures FindDish(dishes + [NewDish(newId, data)], newId) == Some(|dishes|)
  {
    LocateAppended(dishes, NewDish(newId, data), DishId);
  }

  /** The shared collection of dishes. */
  class DishStore {
    var dishes: seq<Dish>

    constructor (initial: seq<Dish>)
      ensures dishes == initial
    {
      dishes := initial;
    }

    /** GET /dishes: the collection as it is. */
    method List() returns (r: Reply<seq<Dish>>)
      ensures r == Sent(200, dishes)
    {
      r := Sent(200, dishes);
    }

    /** GET /dishes/:dishId: `[dishExists, read]`. */
    method Read(req: Request) returns (r: Reply<Dish>)
      ensures match FindDish(dishes, req.routeId)
              case Some(i) => r == Sent(200, dishes[i])
              case None => r == Rejected(Failure(404, NotFoundMessage(req.routeId)))
    {
      var out := RunChain(ReadChain, dishes, req);
      var c := ReadChain;
      assert c[1..] == [];
      if out.Passed? {
        r := Sent(200, dishes[out.locals.value]);
      } else {
        r := Refusal(out);
      }
    }

    /** POST /dishes: the create chain, then `dishes.push` of the new dish. */
    method Create(req: Request, newId: string) returns (r: Reply<Dish>)
      modifies this
      ensures var out := RunChain(CreateChain, old(dishes), req);
        if out.Passed? then
          dishes == old(dishes) + [NewDish(newId, req.data)] && r == Sent(201, NewDish(newId, req.data))
        else
          dishes == old(dishes) && r == Refusal(out)
      ensures |dishes| > |old(dishes)| ==> WellFormed(dishes[|dishes| - 1])
      ensures AllWellFormed(old(dishes)) ==> AllWellFormed(dishes)
    {
      var out := RunChain(CreateChain, dishes, req);
      if !out.Passed? {
        r := Refusal(out);
        return;
      }
      CreateChainAccepts(dishes, req);
      var dish := NewDish(newId, req.data);
      dishes := dishes + [dish];
      r := Sent(201, dish);
    }

    /** PUT /dishes/:dishId: the update chain, then the four fields of the
      located dish are assigned in place. */
    method Update(req: Request) returns (r: Reply<Dish>)
      modifies this
      ensures var out := RunChain(UpdateChain, old(dishes), req);
        !out.Passed? ==> dishes == old(dishes) && r == Refusal(out)
      ensures var out := RunChain(UpdateChain, old(dishes), req);
        out.Passed? ==> (FindDish(old(dishes), req.routeId).Some? &&
          var i := FindDish(old(dishes), req.routeId).value;
          dishes == old(dishes)[i := Revised(old(dishes)[i], req.data)] &&
          r == Sent(200, dishes[i]))
      ensures AllWellFormed(old(dishes)) ==> AllWellFormed(dishes)
    {
      var out := RunChain(UpdateChain, dishes, req);
      if !out.Passed? {
        r := Refusal(out);
        return;
      }
      UpdateChainAccepts(dishes, req);
      var i := out.locals.value;
      var dish := Revised(dishes[i], req.data);
      dishes := dishes[i := dish];
      r := Sent(200, dish);
    }
  }
}
