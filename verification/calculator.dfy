/** The example consumer (cmd/main.go): the calculator payload and its
    `Validate` rules, the fixed-token authorization middleware, the
    pass-through logging middleware, the plus/multiply handler, the chain
    [auth, logging, handler] registered for "POST /calc", and what that route
    answers end to end. */
module Calculator {
  import opened Wrappers
  import opened RequestContext
  import opened Chain
  import opened Router

  datatype CalculateReq = CalculateReq(firstNumber: int, secondNumber: int, operationName: string)
  datatype CalculateResp = CalculateResp(result: int)

  const FirstNegative := "first_number must be non-negative"
  const SecondNegative := "second_number must be non-negative"
  const InvalidOperation := "invalid operation_name"
  const Plus := "plus"
  const Multiply := "multiply"

  /** The only token the authorization middleware accepts. */
  const AdminToken := "admin"
  /** The error the authorization middleware returns. */
  const AuthFailure := "unauthorized"

  /** The requests the calculator accepts. */
  ghost predicate Accepted(req: CalculateReq) {
    req.firstNumber >= 0 && req.secondNumber >= 0 &&
    (req.operationName == Plus || req.operationName == Multiply)
  }

  /** `CalculateReq.Validate`: accepts exactly the requests with two
      non-negative numbers and a known operation, and reports the first failed
      check in the order first number, second number, operation. */
  function Validate(req: CalculateReq): (r: Option<string>)
    ensures r.None? <==> Accepted(req)
    ensures req.firstNumber < 0 ==> r == Some(FirstNegative)
    ensures req.firstNumber >= 0 && req.secondNumber < 0 ==> r == Some(SecondNegative)
    ensures req.firstNumber >= 0 && req.secondNumber >= 0 && !Accepted(req) ==> r == Some(InvalidOperation)
  {
    if req.firstNumber < 0 then Some(FirstNegative)
    else if req.secondNumber < 0 then Some(SecondNegative)
    else if req.operationName != Plus && req.operationName != Multiply then Some(InvalidOperation)
    else None
  }

  /** `validateToken`: the fixed-credential check. */
  function ValidateToken(token: string): (ok: bool)
    ensures ok <==> token == AdminToken
  {
    token == AdminToken
  }

  /** The body of `handler` after its `Decode`: the same checks as `Validate`,
      then the sum or the product. */
  function Calculate(req: CalculateReq): (r: Result<CalculateResp>)
    ensures r.Failure? <==> Validate(req).Some?
    ensures r.Failure? ==> r.error == Validate(req).value
    ensures r.Success? && req.operationName == Plus ==>
              r.value.result == req.firstNumber + req.secondNumber
    ensures r.Success? && req.operationName == Multiply ==>
              r.value.result == req.firstNumber * req.secondNumber
  {
    if req.firstNumber < 0 then Failure(FirstNegative)
    else if req.secondNumber < 0 then Failure(SecondNegative)
    else if req.operationName != Plus && req.operationName != Multiply then Failure(InvalidOperation)
    else
      var result := if req.operationName == Plus then req.firstNumber + req.secondNumber
                    else req.firstNumber * req.secondNumber;
      Success(CalculateResp(result))
  }

  /** `authMiddleware`: hands control on exactly when the Authorization
      header is "admin"; otherwise it ends the chain with "unauthorized". */
  function AuthMiddleware<S, U>(): (h: Handler<S, U>)
    ensures h.Guard? && h.message == AuthFailure
    ensures forall token :: h.accept(token) <==> token == AdminToken
  {
    Guard(ValidateToken, AuthFailure)
  }

  /** `loggingMiddleware`: besides logging, it only hands control on, so it
      passes whatever the request. */
  function LoggingMiddleware<S, U>(): (h: Handler<S, U>)
    ensures h.Delegate?
  {
    Delegate
  }

  /** `handler`: never hands control on; with the request data set it answers
      the sum or product for a valid payload and Validate's message otherwise. */
  function CalcHandler(): (h: Handler<CalculateReq, CalculateResp>)
    ensures forall ctx: Context<CalculateReq, CalculateResp> :: !Passes(h, ctx)
    ensures forall ctx: Context<CalculateReq, CalculateResp> {:trigger Stop(h, ctx)} ::
              ctx.reqData.Some? ==>
                Stop(h, ctx) == (match Calculate(ctx.reqData.value)
                                 case Success(v) => Outcome(Some(v), None)
                                 case Failure(e) => Outcome(None, Some(e)))
  {
    Endpoint(Calculate)
  }

  function CalcChain(): seq<Handler<CalculateReq, CalculateResp>> {
    [AuthMiddleware(), LoggingMiddleware(), CalcHandler()]
  }

  function CalcRoute(): Route<CalculateReq, CalculateResp> {
    Route(Validatable(Validate), CalcChain())
  }

  /** The route table `main` builds. */
  function Routes(): (t: RouteTable<CalculateReq, CalculateResp>)
    ensures t.Keys == {"POST /calc"}
    ensures t["POST /calc"] == CalcRoute()
  {
    assert "POST " + "/calc" == "POST /calc";
    Post(map[], "/calc", Validatable(Validate), CalcChain())
  }

  /** With any token but "admin", the authorization middleware returns
      "unauthorized" without calling `Next`: the cursor stays on it. */
  lemma AuthMiddlewareRejects<S, U>(ctx: Context<S, U>)
    requires 0 <= ctx.index < |ctx.handlers|
    requires ctx.handlers[ctx.index] == AuthMiddleware()
    requires ctx.req.authorization != AdminToken
    ensures Invoke(ctx) == (ctx, Outcome(None, Some(AuthFailure)))
  {
  }

  /** With the token "admin", the authorization middleware returns exactly
      what `Next` returns. */
  lemma AuthMiddlewareDelegates<S, U>(ctx: Context<S, U>)
    requires 0 <= ctx.index < |ctx.handlers|
    requires ctx.handlers[ctx.index] == AuthMiddleware()
    requires ctx.req.authorization == AdminToken
    ensures Invoke(ctx) == Next(ctx)
  {
  }

  /** The logging middleware always returns exactly what `Next` returns. */
  lemma LoggingMiddlewareDelegates<S, U>(ctx: Context<S, U>)
    requires 0 <= ctx.index < |ctx.handlers|
    requires ctx.handlers[ctx.index] == LoggingMiddleware()
    ensures Invoke(ctx) == Next(ctx)
  {
  }

  /** Once the request data holds a payload `Validate` accepts, the handler's
      own `Decode` is a no-op, it returns no error, and it returns and stores
      the sum or product. */
  lemma CalcHandlerComputes(ctx: Context<CalculateReq, CalculateResp>, p: CalculateReq)
    requires 0 <= ctx.index < |ctx.handlers|
    requires ctx.handlers[ctx.index] == CalcHandler()
    requires ctx.reqData == Some(p) && Validate(p).None?
    ensures var r := Invoke(ctx);
            var v := if p.operationName == Plus then p.firstNumber + p.secondNumber
                     else p.firstNumber * p.secondNumber;
            r.1 == Outcome(Some(CalculateResp(v)), None) &&
            r.0.respData == Some(CalculateResp(v)) &&
            r.0.bodyReads == ctx.bodyReads && r.0.index == ctx.index
  {
  }

  /** End to end: the token "admin" and a valid payload give 200 with the
      sum or product as JSON, after all three handlers ran once, in order. */
  lemma ServeValidRequest(p: CalculateReq)
    requires Validate(p).None?
    ensures var r := Serve(CalcRoute(), Request(AdminToken, Parsed(p)));
            var v := if p.operationName == Plus then p.firstNumber + p.secondNumber
                     else p.firstNumber * p.secondNumber;
            r.1 == Response(StatusOK, Json(CalculateResp(v))) && r.0.ran == [0, 1, 2]
  {
    var route := CalcRoute();
    var c := Decode(Start(route, Request(AdminToken, Parsed(p)))).0;
    assert c.reqData == Some(p) && c.handlers == CalcChain();
    assert Passes(c.handlers[0], c) && Passes(c.handlers[1], c) && !Passes(c.handlers[2], c);
    ChainStopsAt(c, 2);
    var out := Next(c).1;
    assert out == EndpointRun(c, Calculate).1;
    assert out.resp.Some? && out.err.None?;
  }

  /** End to end: any token but "admin" with a valid payload gives 401, and
      only the authorization middleware ran. */
  lemma ServeBadToken(token: string, p: CalculateReq)
    requires token != AdminToken && Validate(p).None?
    ensures var r := Serve(CalcRoute(), Request(token, Parsed(p)));
            r.1 == Response(StatusUnauthorized, Text(AuthFailure)) && r.0.ran == [0]
  {
    var c := Decode(Start(CalcRoute(), Request(token, Parsed(p)))).0;
    ChainStopsAt(c, 0);
  }

  /** End to end: a payload `Validate` rejects gives 400 with its message,
      whatever the token, and no handler ran. */
  lemma ServeInvalidPayload(token: string, p: CalculateReq)
    requires Validate(p).Some?
    ensures var r := Serve(CalcRoute(), Request(token, Parsed(p)));
            r.1 == Response(StatusBadRequest, Text(Validate(p).value)) && r.0.ran == []
  {
  }

  /** End to end: a body the decoder rejects gives 400 with the decoder's
      message, and no handler ran. */
  lemma ServeMalformedBody(token: string, message: string)
    ensures var r := Serve(CalcRoute(), Request(token, Malformed(message)));
            r.1 == Response(StatusBadRequest, Text(message)) && r.0.ran == []
  {
  }

  /** {3, 4, "plus"} with the token "admin" answers {"result": 7}. */
  lemma ServeThreePlusFour()
    ensures Serve(CalcRoute(), Request(AdminToken, Parsed(CalculateReq(3, 4, Plus)))).1
         == Response(StatusOK, Json(CalculateResp(7)))
  {
    ServeValidRequest(CalculateReq(3, 4, Plus));
  }

  /** {-1, 4, "plus"} answers 400 from validation. */
  lemma ServeNegativeFirst(token: string)
    ensures Serve(CalcRoute(), Request(token, Parsed(CalculateReq(-1, 4, Plus)))).1
         == Response(StatusBadRequest, Text(FirstNegative))
  {
    ServeInvalidPayload(token, CalculateReq(-1, 4, Plus));
  }

  /** {3, 4, "divide"} answers 400 for the unknown operation. */
  lemma ServeDivide(token: string)
    ensures Serve(CalcRoute(), Request(token, Parsed(CalculateReq(3, 4, "divide")))).1
         == Response(StatusBadRequest, Text(InvalidOperation))
  {
    ServeInvalidPayload(token, CalculateReq(3, 4, "divide"));
  }
}
