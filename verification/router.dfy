/** The router (router.go): registration of a handler chain under a
    "METHOD pattern" key, and the per-request closure that resets a fresh
    context, decodes, runs the chain and maps its outcome to a response. */
module Router {
  import opened Wrappers
  import opened RequestContext
  import opened Chain

  const MethodPost := "POST"
  const MethodGet := "GET"

  const StatusOK := 200
  const StatusBadRequest := 400
  const StatusUnauthorized := 401
  const StatusNotFound := 404
  const StatusInternalServerError := 500

  /** The one error message that is classified as an authorization failure. */
  const UnauthorizedMessage := "unauthorized"
  /** The body that `http.NotFound` writes. */
  const NotFoundMessage := "404 page not found"

  /** What is written back: the JSON-encoded response value, or a plain-text
      error message. */
  datatype ResponseBody<U> = Json(value: U) | Text(message: string)
  datatype Response<U> = Response(status: int, body: ResponseBody<U>)

  /** A registered route: the payload type's capability and the chain. */
  datatype Route<!S, U> = Route(payloadType: Capability<S>, handlers: seq<Handler<S, U>>)

  /** The multiplexer's table, keyed by "METHOD pattern". */
  type RouteTable<!S, U> = map<string, Route<S, U>>

  function RouteKey(verb: string, pattern: string): (key: string)
    ensures |key| == |verb| + 1 + |pattern|
    ensures key[..|verb|] == verb && key[|verb|] == ' '
    ensures key[|verb| + 1..] == pattern
  {
    verb + " " + pattern
  }

  /** Binds `handlers` under `verb + " " + pattern`; every other key keeps
      its route. */
  function Handle<S, U>(table: RouteTable<S, U>, pattern: string, verb: string,
                        payloadType: Capability<S>, handlers: seq<Handler<S, U>>): (t: RouteTable<S, U>)
    ensures t.Keys == table.Keys + {RouteKey(verb, pattern)}
    ensures t[RouteKey(verb, pattern)] == Route(payloadType, handlers)
    ensures forall k :: k in table && k != RouteKey(verb, pattern) ==> t[k] == table[k]
  {
    table[RouteKey(verb, pattern) := Route(payloadType, handlers)]
  }

  function Post<S, U>(table: RouteTable<S, U>, pattern: string,
                      payloadType: Capability<S>, handlers: seq<Handler<S, U>>): (t: RouteTable<S, U>)
    ensures t.Keys == table.Keys + {"POST " + pattern}
    ensures t["POST " + pattern] == Route(payloadType, handlers)
    ensures forall k :: k in table && k != "POST " + pattern ==> t[k] == table[k]
  {
    assert RouteKey(MethodPost, pattern) == "POST " + pattern;
    Handle(table, pattern, MethodPost, payloadType, handlers)
  }

  function Get<S, U>(table: RouteTable<S, U>, pattern: string,
                     payloadType: Capability<S>, handlers: seq<Handler<S, U>>): (t: RouteTable<S, U>)
    ensures t.Keys == table.Keys + {"GET " + pattern}
    ensures t["GET " + pattern] == Route(payloadType, handlers)
    ensures forall k :: k in table && k != "GET " + pattern ==> t[k] == table[k]
  {
    assert RouteKey(MethodGet, pattern) == "GET " + pattern;
    Handle(table, pattern, MethodGet, payloadType, handlers)
  }

  /** Registering the same pattern for POST and for GET makes two routes:
      neither registration overwrites the other. */
  lemma PostAndGetCoexist<S, U>(table: RouteTable<S, U>, pattern: string,
                                p1: Capability<S>, h1: seq<Handler<S, U>>,
                                p2: Capability<S>, h2: seq<Handler<S, U>>)
    ensures var t := Get(Post(table, pattern, p1, h1), pattern, p2, h2);
            t["POST " + pattern] == Route(p1, h1) && t["GET " + pattern] == Route(p2, h2)
  {
    var post := "POST " + pattern;
    var get := "GET " + pattern;
    assert post[0] != get[0];
  }

  /** Maps the chain's final pair to a response: an error wins, and is 401
      exactly when its message is "unauthorized", 500 otherwise; without an
      error a present response is written as JSON; otherwise 404. */
  function Emit<U>(out: Outcome<U>): (r: Response<U>)
    ensures out.err.Some? ==> r.body == Text(out.err.value)
    ensures r.status == StatusUnauthorized <==> out.err == Some(UnauthorizedMessage)
    ensures r.status == StatusInternalServerError <==> out.err.Some? && out.err != Some(UnauthorizedMessage)
    ensures r.status == StatusOK <==> out.err.None? && out.resp.Some?
    ensures r.status == StatusOK ==> r.body == Json(out.resp.value)
    ensures r.status == StatusNotFound <==> out == Outcome(None, None)
    ensures r.status == StatusNotFound ==> r.body == Text(NotFoundMessage)
  {
    if out.err.Some? then
      if out.err.value == UnauthorizedMessage then Response(StatusUnauthorized, Text(out.err.value))
      else Response(StatusInternalServerError, Text(out.err.value))
    else if out.resp.Some? then Response(StatusOK, Json(out.resp.value))
    else Response(StatusNotFound, Text(NotFoundMessage))
  }

  /** The context each request starts from: fresh, with the registered chain
      and the cursor reset before its first handler. */
  function Start<S, U>(route: Route<S, U>, req: Request<S>): (c: Context<S, U>)
    ensures c.req == req && c.payloadType == route.payloadType
    ensures c.handlers == route.handlers && c.index == -1
    ensures c.reqData.None? && c.respData.None? && c.err.None?
    ensures c.bodyReads == 0 && c.ran == []
  {
    CreateContext(req, route.payloadType).(handlers := route.handlers, index := -1)
  }

  /** The per-request closure `Handle` registers: decode, then run the chain,
      then emit. Returns the final context with the response. */
  function Serve<S, U>(route: Route<S, U>, req: Request<S>): (r: (Context<S, U>, Response<U>))
    ensures r.0.handlers == route.handlers && r.0.req == req
    // the handlers that ran are a prefix of the chain, each once, in order
    ensures r.0.ran == Interval(0, Min(r.0.index + 1, |route.handlers|))
    // 400 exactly when decoding or validation fails, and then no handler runs
    ensures r.1.status == StatusBadRequest <==> Decode(Start(route, req)).1.Some?
    ensures r.1.status == StatusBadRequest ==>
              r.1.body == Text(Decode(Start(route, req)).1.value) && r.0.index == -1 && r.0.ran == []
    ensures r.1.status in {StatusOK, StatusBadRequest, StatusUnauthorized, StatusNotFound, StatusInternalServerError}
  {
    var decoded := Decode(Start(route, req));
    if decoded.1.Some? then
      (decoded.0, Response(StatusBadRequest, Text(decoded.1.value)))
    else
      var run := Next(decoded.0);
      (run.0, Emit(run.1))
  }

  /** After a successful decode the response is the emitted form of the
      reference semantics of the whole chain, and the body was read once. */
  lemma ServeRunsChain<S, U>(route: Route<S, U>, req: Request<S>)
    requires Decode(Start(route, req)).1.None?
    ensures Serve(route, req).1 == Emit(Run(route.handlers, Decode(Start(route, req)).0))
    ensures Serve(route, req).0.bodyReads <= 1
  {
    var c := Decode(Start(route, req)).0;
    NextRunsChain(c);
    assert Remaining(c) == route.handlers;
    if |route.handlers| > 0 {
      assert c.index + 1 < |c.handlers|;
    }
    NextBodyReads(c);
  }

  /** With the request data already set, running the chain never reads the
      body again. */
  lemma {:induction false} NextBodyReads<S, U>(ctx: Context<S, U>)
    requires ctx.reqData.Some?
    ensures Next(ctx).0.bodyReads == ctx.bodyReads
    ensures Next(ctx).0.reqData == ctx.reqData
    decreases |ctx.handlers| - ctx.index
  {
    var i := ctx.index + 1;
    if i < |ctx.handlers| {
      var c := ctx.(index := i, ran := ctx.ran + [i]);
      match ctx.handlers[i]
      case Return(_, _) =>
      case Delegate => NextBodyReads(c);
      case Guard(accept, _) =>
        if accept(ctx.req.authorization) { NextBodyReads(c); }
      case Endpoint(_) =>
    }
  }

  /** An empty chain after a successful decode always answers 404. */
  lemma EmptyChainNotFound<S, U>(route: Route<S, U>, req: Request<S>)
    requires route.handlers == []
    requires Decode(Start(route, req)).1.None?
    ensures Serve(route, req).1 == Response(StatusNotFound, Text(NotFoundMessage))
  {
  }

  /** A handler error wins over a response returned alongside it: no JSON
      is written. */
  lemma ErrorTakesPrecedence<U>(resp: U, message: string)
    ensures Emit(Outcome(Some(resp), Some(message))).body == Text(message)
    ensures Emit(Outcome(Some(resp), Some(message))).status != StatusOK
  {
  }
}
