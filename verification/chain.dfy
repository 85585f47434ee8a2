/** A cursor-free reference semantics for a handler chain, and the proof that
    the cursor state machine `Next` (context.go) computes it: walking the
    remaining handlers front to back, each either hands control on or ends the
    walk with its own pair. */
module Chain {
  import opened Wrappers
  import opened RequestContext

  /** Whether handler `h` hands control to `Next` in the context `ctx`. */
  predicate Passes<S, U>(h: Handler<S, U>, ctx: Context<S, U>) {
    h.Delegate? || (h.Guard? && h.accept(ctx.req.authorization))
  }

  /** The pair a handler that does not pass on returns. */
  function Stop<S, U>(h: Handler<S, U>, ctx: Context<S, U>): Outcome<U>
    requires !Passes(h, ctx)
  {
    match h
    case Return(resp, err) => Outcome(resp, err)
    case Guard(_, message) => Outcome(None, Some(message))
    case Endpoint(compute) => EndpointRun(ctx, compute).1
  }

  /** The outcome of running the handlers `hs` in order. */
  function Run<S, U>(hs: seq<Handler<S, U>>, ctx: Context<S, U>): Outcome<U>
    decreases |hs|
  {
    if hs == [] then Outcome(None, None)
    else if Passes(hs[0], ctx) then Run(hs[1..], ctx)
    else Stop(hs[0], ctx)
  }

  /** How many times `Next` is called while running `hs`: once per handler
      reached, and once more if the walk falls off the end. */
  function Calls<S, U>(hs: seq<Handler<S, U>>, ctx: Context<S, U>): nat
    decreases |hs|
  {
    if hs == [] then 1
    else if Passes(hs[0], ctx) then 1 + Calls(hs[1..], ctx)
    else 1
  }

  /** The handlers the cursor has not yet passed. */
  function Remaining<S, U>(ctx: Context<S, U>): seq<Handler<S, U>> {
    ctx.handlers[Min(ctx.index + 1, |ctx.handlers|)..]
  }

  /** Run and Calls only look at the request, the request data and the
      payload type of the context. */
  lemma {:induction false} RunFrame<S, U>(hs: seq<Handler<S, U>>, a: Context<S, U>, b: Context<S, U>)
    requires a.req == b.req && a.reqData == b.reqData && a.payloadType == b.payloadType
    ensures Run(hs, a) == Run(hs, b)
    ensures Calls(hs, a) == Calls(hs, b)
    decreases |hs|
  {
    if hs != [] {
      RunFrame(hs[1..], a, b);
    }
  }

  /** `Next` returns the pair the reference semantics gives for the handlers
      after the cursor, and leaves the cursor advanced by one per call of
      `Next` that the walk makes. */
  lemma {:induction false} NextRunsChain<S, U>(ctx: Context<S, U>)
    ensures Next(ctx).1 == Run(Remaining(ctx), ctx)
    ensures Next(ctx).0.index == ctx.index + Calls(Remaining(ctx), ctx)
    decreases |ctx.handlers| - ctx.index
  {
    var i := ctx.index + 1;
    if i < |ctx.handlers| {
      var c := ctx.(index := i, ran := ctx.ran + [i]);
      var hs := Remaining(ctx);
      assert hs[0] == ctx.handlers[i];
      assert Remaining(c) == hs[1..];
      if Passes(hs[0], ctx) {
        assert Next(ctx) == Next(c);
        NextRunsChain(c);
        RunFrame(hs[1..], c, ctx);
      } else {
        assert Next(ctx) == Invoke(c);
        match hs[0]
        case Return(_, _) =>
        case Guard(_, _) =>
        case Endpoint(compute) =>
          assert EndpointRun(c, compute).1 == EndpointRun(ctx, compute).1;
      }
    }
  }

  /** A handler that does not pass on ends the chain: when every handler
      between the cursor and index k passes and the one at k does not, `Next`
      returns what the handler at k returns, the cursor stops at k, and
      exactly the handlers from the cursor to k ran, each once, in order;
      none after k ran. */
  lemma ChainStopsAt<S, U>(ctx: Context<S, U>, k: int)
    requires ctx.index + 1 <= k < |ctx.handlers|
    requires forall j :: ctx.index + 1 <= j < k ==> Passes(ctx.handlers[j], ctx)
    requires !Passes(ctx.handlers[k], ctx)
    ensures Next(ctx).1 == Stop(ctx.handlers[k], ctx)
    ensures Next(ctx).0.index == k
    ensures Next(ctx).0.ran == ctx.ran + Interval(ctx.index + 1, k + 1)
  {
    NextRunsChain(ctx);
    RunStopsAt(Remaining(ctx), ctx, k - (ctx.index + 1));
  }

  /** When every handler after the cursor passes, each of them runs once, in
      order, the cursor ends one past the last handler, and the pair is
      (absent, absent). */
  lemma ChainFallsThrough<S, U>(ctx: Context<S, U>)
    requires forall j :: ctx.index + 1 <= j < |ctx.handlers| ==> Passes(ctx.handlers[j], ctx)
    ensures Next(ctx).1 == Outcome(None, None)
    ensures Next(ctx).0.index == Max(ctx.index + 1, |ctx.handlers|)
    ensures Next(ctx).0.ran == ctx.ran + Interval(ctx.index + 1, |ctx.handlers|)
  {
    NextRunsChain(ctx);
    RunFallsThrough(Remaining(ctx), ctx);
  }

  lemma {:induction false} RunStopsAt<S, U>(hs: seq<Handler<S, U>>, ctx: Context<S, U>, k: nat)
    requires k < |hs|
    requires forall j :: 0 <= j < k ==> Passes(hs[j], ctx)
    requires !Passes(hs[k], ctx)
    ensures Run(hs, ctx) == Stop(hs[k], ctx)
    ensures Calls(hs, ctx) == k + 1
    decreases k
  {
    if k > 0 {
      assert Passes(hs[0], ctx);
      RunStopsAt(hs[1..], ctx, k - 1);
    }
  }

  lemma {:induction false} RunFallsThrough<S, U>(hs: seq<Handler<S, U>>, ctx: Context<S, U>)
    requires forall j :: 0 <= j < |hs| ==> Passes(hs[j], ctx)
    ensures Run(hs, ctx) == Outcome(None, None)
    ensures Calls(hs, ctx) == |hs| + 1
    decreases |hs|
  {
    if hs != [] {
      assert Passes(hs[0], ctx);
      RunFallsThrough(hs[1..], ctx);
    }
  }
}
