/** The request-handling chain: an ordered list of stages, each of which
    either hands on to the next (possibly recording the located resource,
    as `res.locals` does), stops the chain with a status and message
    (`next({ status, message })`), or throws. The runner stops at the first
    stage that does not hand on; the terminal handler runs only when every
    stage has passed. */
module Pipeline {
  import opened Json

  /** The error object a stage hands to `next`. */
  datatype Failure = Failure(status: nat, message: string)

  /** The outcome of one check that does not locate anything. */
  datatype Verdict = Pass | Fail(failure: Failure) | Throws

  /** The outcome of one stage: `Next` carries the request-local state on. */
  datatype Step<L> = Next(locals: L) | Halt(failure: Failure) | Raise

  /** The outcome of a whole chain; `at` is the index of the stage that
      stopped it. */
  datatype Outcome<L> = Passed(locals: L) | Failed(at: nat, failure: Failure) | Raised(at: nat)

  /** What the client receives. `Uncaught` is a TypeError thrown by a stage,
      which goes to the framework's error handler. */
  datatype Reply<T> = Sent(status: nat, data: T) | NoContent | Rejected(failure: Failure) | Uncaught

  /** A request: the path id (unused by the create chains) and `req.body.data`. */
  datatype Request = Request(routeId: string, data: Value)

  /** A check that passes hands the request-local state on unchanged. */
  function Lift<L>(v: Verdict, locals: L): (r: Step<L>)
    ensures r.Next? <==> v.Pass?
    ensures r.Next? ==> r.locals == locals
    ensures r.Halt? <==> v.Fail?
    ensures r.Halt? ==> r.failure == v.failure
  {
    match v
    case Pass => Next(locals)
    case Fail(f) => Halt(f)
    case Throws => Raise
  }

  function Offset<L>(o: Outcome<L>, n: nat): Outcome<L> {
    match o
    case Passed(l) => Passed(l)
    case Failed(k, f) => Failed(k + n, f)
    case Raised(k) => Raised(k + n)
  }

  /** Runs `stages` in order against the context `ctx`, starting from the
      request-local state `locals`, and stops at the first stage that does
      not hand on. */
  function Run<S, C, L>(stages: seq<S>, eval: (S, C, L) -> Step<L>, ctx: C, locals: L): (r: Outcome<L>)
    ensures r.Failed? ==> r.at < |stages|
    ensures r.Raised? ==> r.at < |stages|
    decreases |stages|
  {
    if stages == [] then Passed(locals)
    else
      match eval(stages[0], ctx, locals)
      case Next(l) => Offset(Run(stages[1..], eval, ctx, l), 1)
      case Halt(f) => Failed(0, f)
      case Raise => Raised(0)
  }

  /** Running two chains one after the other is running their
      concatenation: the second runs only if the first passes, and from the
      state the first leaves. */
  lemma {:induction false} RunAppend<S, C, L>(a: seq<S>, b: seq<S>, eval: (S, C, L) -> Step<L>, ctx: C, locals: L)
    ensures Run(a + b, eval, ctx, locals) ==
      match Run(a, eval, ctx, locals)
      case Passed(l) => Offset(Run(b, eval, ctx, l), |a|)
      case other => other
    decreases |a|
  {
    if a == [] {
      assert a + b == b;
      match Run(b, eval, ctx, locals)
      case Passed(_) =>
      case Failed(_, _) =>
      case Raised(_) =>
    } else {
      assert (a + b)[0] == a[0];
      assert (a + b)[1..] == a[1..] + b;
      match eval(a[0], ctx, locals)
      case Next(l) => RunAppend(a[1..], b, eval, ctx, l);
      case Halt(_) =>
      case Raise =>
    }
  }

  /** One step of a chain run from its `k`-th stage on. */
  lemma RunFrom<S, C, L>(stages: seq<S>, k: nat, eval: (S, C, L) -> Step<L>, ctx: C, locals: L)
    requires k < |stages|
    ensures Run(stages[k..], eval, ctx, locals) ==
      match eval(stages[k], ctx, locals)
      case Next(l) => Offset(Run(stages[k + 1..], eval, ctx, l), 1)
      case Halt(f) => Failed(0, f)
      case Raise => Raised(0)
  {
    assert stages[k..][1..] == stages[k + 1..];
  }

  /** First failure wins: a chain that stops at stage `k` passed every stage
      before `k`, and stage `k` stopped it with exactly the reported failure. */
  lemma RunStopsAtFirstFailure<S, C, L>(stages: seq<S>, eval: (S, C, L) -> Step<L>, ctx: C, locals: L)
    requires Run(stages, eval, ctx, locals).Failed?
    ensures var r := Run(stages, eval, ctx, locals);
            var before := Run(stages[..r.at], eval, ctx, locals);
            before.Passed? && eval(stages[r.at], ctx, before.locals) == Halt(r.failure)
  {
    var r := Run(stages, eval, ctx, locals);
    var k := r.at;
    assert stages == stages[..k] + stages[k..];
    RunAppend(stages[..k], stages[k..], eval, ctx, locals);
    var before := Run(stages[..k], eval, ctx, locals);
    match before
    case Passed(l) =>
      assert stages[k..][0] == stages[k];
    case Failed(j, _) =>
      assert false;
    case Raised(j) =>
      assert false;
  }

  /** A thrown stage ends the chain the same way: a chain that is raised at
      stage `k` passed every stage before `k`, and stage `k` threw. */
  lemma RunStopsAtFirstThrow<S, C, L>(stages: seq<S>, eval: (S, C, L) -> Step<L>, ctx: C, locals: L)
    requires Run(stages, eval, ctx, locals).Raised?
    ensures var r := Run(stages, eval, ctx, locals);
            var before := Run(stages[..r.at], eval, ctx, locals);
            before.Passed? && eval(stages[r.at], ctx, before.locals) == Raise
  {
    var r := Run(stages, eval, ctx, locals);
    var k := r.at;
    assert stages == stages[..k] + stages[k..];
    RunAppend(stages[..k], stages[k..], eval, ctx, locals);
    var before := Run(stages[..k], eval, ctx, locals);
    match before
    case Passed(l) =>
      assert stages[k..][0] == stages[k];
    case Failed(j, _) =>
      assert false;
    case Raised(j) =>
      assert false;
  }

  /** Later stages are never evaluated: once a prefix of the chain has
      stopped, whatever follows it does not change the outcome. */
  lemma RunIgnoresRest<S, C, L>(a: seq<S>, b: seq<S>, eval: (S, C, L) -> Step<L>, ctx: C, locals: L)
    requires !Run(a, eval, ctx, locals).Passed?
    ensures Run(a + b, eval, ctx, locals) == Run(a, eval, ctx, locals)
  {
    RunAppend(a, b, eval, ctx, locals);
  }

  /** The outcome of a run of checks that neither locate nor record
      anything: the first verdict that is not a pass decides it. */
  function FirstStop<L>(verdicts: seq<Verdict>, locals: L): (r: Outcome<L>)
    ensures r.Passed? <==> forall i :: 0 <= i < |verdicts| ==> verdicts[i].Pass?
    ensures r.Passed? ==> r.locals == locals
    ensures r.Failed? ==> r.at < |verdicts| && verdicts[r.at] == Fail(r.failure)
    ensures r.Raised? ==> r.at < |verdicts| && verdicts[r.at].Throws?
    ensures !r.Passed? ==> forall i :: 0 <= i < r.at ==> verdicts[i].Pass?
    decreases |verdicts|
  {
    if verdicts == [] then Passed(locals)
    else
      match verdicts[0]
      case Pass => Offset(FirstStop(verdicts[1..], locals), 1)
      case Fail(f) => Failed(0, f)
      case Throws => Raised(0)
  }

  /** One step of a scan started at the `k`-th verdict. */
  lemma FirstStopFrom<L>(verdicts: seq<Verdict>, k: nat, locals: L)
    requires k < |verdicts|
    ensures FirstStop(verdicts[k..], locals) ==
      match verdicts[k]
      case Pass => Offset(FirstStop(verdicts[k + 1..], locals), 1)
      case Fail(f) => Failed(0, f)
      case Throws => Raised(0)
  {
    assert verdicts[k..][1..] == verdicts[k + 1..];
  }

  /** A scan whose first verdict that is not a pass is the `k`-th stops
      there, with that verdict's failure. */
  lemma FirstStopAt<L>(verdicts: seq<Verdict>, k: nat, locals: L)
    requires k < |verdicts| && !verdicts[k].Pass?
    requires forall i :: 0 <= i < k ==> verdicts[i].Pass?
    ensures FirstStop(verdicts, locals) ==
      if verdicts[k].Fail? then Failed(k, verdicts[k].failure) else Raised(k)
  {
  }

  /** Scanning two runs of verdicts one after the other is scanning their
      concatenation. */
  lemma {:induction false} FirstStopAppend<L>(a: seq<Verdict>, b: seq<Verdict>, locals: L)
    ensures FirstStop(a + b, locals) ==
      match FirstStop(a, locals)
      case Passed(_) => Offset(FirstStop(b, locals), |a|)
      case other => other
    decreases |a|
  {
    if a == [] {
      assert a + b == b;
      match FirstStop(b, locals)
      case Passed(_) =>
      case Failed(_, _) =>
      case Raised(_) =>
    } else {
      assert (a + b)[0] == a[0];
      assert (a + b)[1..] == a[1..] + b;
      FirstStopAppend(a[1..], b, locals);
    }
  }

  /** A chain whose every stage is a check (it hands the state on as it
      found it) runs as the first-stop scan of those checks' verdicts. */
  lemma {:induction false} RunChecks<S, C, L>(stages: seq<S>, verdicts: seq<Verdict>, eval: (S, C, L) -> Step<L>, ctx: C, locals: L)
    requires |verdicts| == |stages|
    requires forall i :: 0 <= i < |stages| ==> eval(stages[i], ctx, locals) == Lift(verdicts[i], locals)
    ensures Run(stages, eval, ctx, locals) == FirstStop(verdicts, locals)
    decreases |stages|
  {
    if stages != [] {
      assert eval(stages[0], ctx, locals) == Lift(verdicts[0], locals);
      RunChecks(stages[1..], verdicts[1..], eval, ctx, locals);
    }
  }

  /** The reply sent for a chain that did not pass. */
  function Refusal<L, T>(o: Outcome<L>): (r: Reply<T>)
    requires !o.Passed?
    ensures o.Failed? ==> r == Rejected(o.failure)
    ensures o.Raised? ==> r == Uncaught
  {
    if o.Failed? then Rejected(o.failure) else Uncaught
  }

  /** `find` / `findIndex` by id: the first element whose id is `id`. */
  function Locate<T>(xs: seq<T>, idOf: T -> string, id: string): (r: Option<nat>)
    ensures r.Some? ==> r.value < |xs| && idOf(xs[r.value]) == id
    ensures r.Some? ==> forall j :: 0 <= j < r.value ==> idOf(xs[j]) != id
    ensures r.None? <==> forall j :: 0 <= j < |xs| ==> idOf(xs[j]) != id
    decreases |xs|
  {
    if xs == [] then None
    else if idOf(xs[0]) == id then Some(0)
    else
      match Locate(xs[1..], idOf, id)
      case Some(k) => Some(k + 1)
      case None => None
  }

  /** A record appended under an id that no earlier record has is the one
      located by that id. */
  lemma {:induction false} LocateAppended<T>(xs: seq<T>, x: T, idOf: T -> string)
    requires forall j :: 0 <= j < |xs| ==> idOf(xs[j]) != idOf(x)
    ensures Locate(xs + [x], idOf, idOf(x)) == Some(|xs|)
  {
    var ys := xs + [x];
    assert ys[|xs|] == x;
    assert forall j :: 0 <= j < |xs| ==> ys[j] == xs[j];
  }
}
