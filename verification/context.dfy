/** The per-request context of the router (context.go): the state a chain of
    handlers shares, the decode/validate guard `Decode`, and the chain executor
    `Next`, a state machine over an integer cursor. */
module RequestContext {
  import opened Wrappers

  /** The outcome of running the strict JSON decoder over a request body,
      abstracted: the decoded payload, or the decoder's error message. */
  datatype Body<S> = Parsed(payload: S) | Malformed(message: string)

  /** The parts of an inbound HTTP request the pipeline observes.
      `authorization` is the Authorization header, "" when it is absent. */
  datatype Request<S> = Request(authorization: string, body: Body<S>)

  /** Whether the payload type S has the `Validatable` capability, and if so
      its `Validate` operation (None means the payload is valid). */
  datatype Capability<!S> = Plain | Validatable(validate: S -> Option<string>)

  /** The `(*U, error)` pair that a handler and `Next` return. */
  datatype Outcome<U> = Outcome(resp: Option<U>, err: Option<string>)

  /** The behaviours a handler of the chain can have.
      - `Return` gives back a fixed pair without calling `Next`;
      - `Delegate` returns exactly what `Next` returns;
      - `Guard` checks the Authorization header with `accept`: on failure it
        returns the error `message` without calling `Next`, otherwise it
        delegates;
      - `Endpoint` calls `Decode`, then computes the response from the
        payload; any error is also stored in the context's error slot and a
        response in its response slot. */
  datatype Handler<!S, U> =
    | Return(resp: Option<U>, err: Option<string>)
    | Delegate
    | Guard(accept: string -> bool, message: string)
    | Endpoint(compute: S -> Result<U>)

  /** The cursor starts at -1 and is only ever incremented. */
  type Cursor = i: int | -1 <= i

  /** A request's context. `bodyReads` counts how often `Decode` read the
      request body and `ran` lists, in order, the indices of the handlers that
      were invoked; both are observations of the model, not fields of the
      source. */
  datatype Context<!S, U> = Context(
    req: Request<S>,
    payloadType: Capability<S>,
    handlers: seq<Handler<S, U>>,
    index: Cursor,
    reqData: Option<S>,
    respData: Option<U>,
    err: Option<string>,
    bodyReads: nat,
    ran: seq<int>)

  /** The consecutive indices lo, lo+1, ..., hi-1 (empty when hi <= lo). */
  function Interval(lo: int, hi: int): (r: seq<int>)
    ensures |r| == Max(0, hi - lo)
    ensures forall j :: 0 <= j < |r| ==> r[j] == lo + j
  {
    seq(Max(0, hi - lo), j => lo + j)
  }

  /** A fresh context for `req`: no handlers yet, the cursor before the first
      handler, and no request data, response or error. */
  function CreateContext<S, U>(req: Request<S>, payloadType: Capability<S>): (c: Context<S, U>)
    ensures c.req == req && c.payloadType == payloadType
    ensures c.index == -1 && c.handlers == []
    ensures c.reqData.None? && c.respData.None? && c.err.None?
    ensures c.bodyReads == 0 && c.ran == []
  {
    Context(req, payloadType, [], -1, None, None, None, 0, [])
  }

  /** Runs the payload's `Validate` when its type has that capability. */
  function CheckPayload<S>(payloadType: Capability<S>, payload: S): (r: Option<string>)
    ensures payloadType.Plain? ==> r.None?
    ensures payloadType.Validatable? ==> r == payloadType.validate(payload)
  {
    match payloadType
    case Plain => None
    case Validatable(validate) => validate(payload)
  }

  /** Decodes the request body into the context's request data, once.
      Returns the updated context and the decode or validation error. */
  function Decode<S, U>(ctx: Context<S, U>): (r: (Context<S, U>, Option<string>))
    // only the request data and the body-read count can change
    ensures r.0 == ctx.(reqData := r.0.reqData, bodyReads := r.0.bodyReads)
    // already decoded: success, without reading the body or validating
    ensures ctx.reqData.Some? ==> r == (ctx, None)
    // not yet decoded: the body is read exactly once
    ensures ctx.reqData.None? ==> r.0.bodyReads == ctx.bodyReads + 1
    // a parse failure is returned and leaves the request data unset
    ensures ctx.reqData.None? && ctx.req.body.Malformed? ==>
              r.1 == Some(ctx.req.body.message) && r.0.reqData.None?
    // a parsed payload is stored first, then validated if it can be
    ensures ctx.reqData.None? && ctx.req.body.Parsed? ==>
              r.0.reqData == Some(ctx.req.body.payload) &&
              r.1 == CheckPayload(ctx.payloadType, ctx.req.body.payload)
    // success always leaves request data behind
    ensures r.1.None? ==> r.0.reqData.Some?
  {
    if ctx.reqData.Some? then
      (ctx, None)
    else
      var read := ctx.(bodyReads := ctx.bodyReads + 1);
      match ctx.req.body
      case Malformed(message) => (read, Some(message))
      case Parsed(payload) =>
        (read.(reqData := Some(payload)), CheckPayload(ctx.payloadType, payload))
  }

  /** What the `Endpoint` behaviour does once it is invoked: decode (a no-op
      once the router has decoded), then compute the response. */
  function EndpointRun<S, U>(ctx: Context<S, U>, compute: S -> Result<U>): (r: (Context<S, U>, Outcome<U>))
    ensures r.0.req == ctx.req && r.0.payloadType == ctx.payloadType
    ensures r.0.handlers == ctx.handlers && r.0.index == ctx.index && r.0.ran == ctx.ran
    // an error is both returned and stored; a response is never returned with it
    ensures r.1.err.Some? <==> r.1.resp.None?
    ensures r.1.err.Some? ==> r.0.err == r.1.err
    ensures r.1.resp.Some? ==> r.0.respData == r.1.resp
    // with the request data already set, the body is not read again and the
    // response is exactly what `compute` makes of the stored payload
    ensures ctx.reqData.Some? ==>
              r.0.bodyReads == ctx.bodyReads &&
              match compute(ctx.reqData.value)
              case Success(v) => r.1 == Outcome(Some(v), None)
              case Failure(e) => r.1 == Outcome(None, Some(e))
  {
    var decoded := Decode(ctx);
    var c := decoded.0;
    if decoded.1.Some? then
      (c.(err := decoded.1), Outcome(None, decoded.1))
    else
      match compute(c.reqData.value)
      case Failure(e) => (c.(err := Some(e)), Outcome(None, Some(e)))
      case Success(v) => (c.(respData := Some(v)), Outcome(Some(v), None))
  }

  /** The chain executor: advance the cursor by one; inside the handler list,
      return what the handler there returns; past its end, return an absent
      response and an absent error. */
  function Next<S, U>(ctx: Context<S, U>): (r: (Context<S, U>, Outcome<U>))
    decreases |ctx.handlers| - ctx.index, 0
    ensures r.0.req == ctx.req && r.0.payloadType == ctx.payloadType
    ensures r.0.handlers == ctx.handlers
    // the cursor moves forward, never beyond one past the last handler
    ensures ctx.index < r.0.index <= Max(ctx.index + 1, |ctx.handlers|)
    // exactly the handlers from the old cursor + 1 up to the new cursor ran,
    // each once and in order
    ensures r.0.ran == ctx.ran + Interval(ctx.index + 1, Min(r.0.index + 1, |ctx.handlers|))
    // past the end: nothing runs and the pair is (absent, absent)
    ensures ctx.index + 1 >= |ctx.handlers| ==>
              r == (ctx.(index := ctx.index + 1), Outcome(None, None))
  {
    var i := ctx.index + 1;
    if i < |ctx.handlers| then
      var r := Invoke(ctx.(index := i, ran := ctx.ran + [i]));
      assert ctx.ran + [i] + Interval(i + 1, Min(r.0.index + 1, |ctx.handlers|))
          == ctx.ran + Interval(i, Min(r.0.index + 1, |ctx.handlers|));
      r
    else
      (ctx.(index := i), Outcome(None, None))
  }

  /** Invokes the handler under the cursor. */
  function Invoke<S, U>(ctx: Context<S, U>): (r: (Context<S, U>, Outcome<U>))
    requires 0 <= ctx.index < |ctx.handlers|
    decreases |ctx.handlers| - ctx.index, 1
    ensures r.0.req == ctx.req && r.0.payloadType == ctx.payloadType
    ensures r.0.handlers == ctx.handlers
    ensures ctx.index <= r.0.index <= |ctx.handlers|
    ensures r.0.ran == ctx.ran + Interval(ctx.index + 1, Min(r.0.index + 1, |ctx.handlers|))
  {
    match ctx.handlers[ctx.index]
    case Return(resp, err) => (ctx, Outcome(resp, err))
    case Delegate => Next(ctx)
    case Guard(accept, message) =>
      if accept(ctx.req.authorization) then Next(ctx) else (ctx, Outcome(None, Some(message)))
    case Endpoint(compute) => EndpointRun(ctx, compute)
  }

  /** The pairs returned by k successive calls of `Next`. */
  function NextTimes<S, U>(ctx: Context<S, U>, k: nat): (r: seq<Outcome<U>>)
    ensures |r| == k
    decreases k
  {
    if k == 0 then [] else
      var step := Next(ctx);
      [step.1] + NextTimes(step.0, k - 1)
  }

  /** A context whose cursor is at or past the last handler keeps answering
      (absent, absent) to every further call of `Next`. */
  lemma {:induction false} NextAfterEndStaysAbsent<S, U>(ctx: Context<S, U>, k: nat)
    requires ctx.index + 1 >= |ctx.handlers|
    ensures forall j :: 0 <= j < k ==> NextTimes(ctx, k)[j] == Outcome(None, None)
    decreases k
  {
    if k > 0 {
      var step := Next(ctx);
      assert step.0.index == ctx.index + 1;
      NextAfterEndStaysAbsent(step.0, k - 1);
      assert NextTimes(ctx, k) == [step.1] + NextTimes(step.0, k - 1);
    }
  }

  /** Decode is idempotent: once a call has stored request data (a success,
      or a validation failure), a second call succeeds without reading the
      body again and without validating again. */
  lemma DecodeTwice<S, U>(ctx: Context<S, U>)
    requires Decode(ctx).0.reqData.Some?
    ensures Decode(Decode(ctx).0) == (Decode(ctx).0, None)
    ensures Decode(Decode(ctx).0).0.bodyReads <= ctx.bodyReads + 1
  {
  }

  /** A validation failure still leaves the parsed payload stored, so the
      next `Decode` (for instance the one a handler makes) succeeds. */
  lemma ValidationFailureKeepsPayload<S, U>(ctx: Context<S, U>, payload: S, msg: string)
    requires ctx.reqData.None? && ctx.req.body == Parsed(payload)
    requires ctx.payloadType.Validatable? && ctx.payloadType.validate(payload) == Some(msg)
    ensures Decode(ctx).1 == Some(msg)
    ensures Decode(ctx).0.reqData == Some(payload)
    ensures Decode(Decode(ctx).0).1.None?
  {
  }
}
