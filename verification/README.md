# A verified model of a small typed HTTP router

The router binds an HTTP method and a path pattern to an ordered chain of
handlers that share one request-payload type `S` and one response type `U`.
For each request it creates a fresh context and decodes and validates the JSON
body once. It then runs the chain through a cursor-based executor, `Next`, and
maps the chain's final `(response, error)` pair to a status code. The example
program registers `POST /calc` with an authorization middleware, a logging
middleware and a plus/multiply calculator.

The model is sequential and purely functional:

- `wrappers.dfy` (`Wrappers`): `Option`, `Result`, `Min`, `Max`.
- `context.dfy` (`RequestContext`, context.go):
  - the context is an immutable datatype holding the cursor, the handler list
    and the optional request data, response and error;
  - handlers are a datatype of behaviours: `Return` a fixed pair, `Delegate`
    to `Next`, `Guard` on the Authorization header, or `Endpoint` (decode,
    then compute);
  - `Next` and `Invoke` are mutually recursive functions that terminate on
    `|handlers| - cursor`;
  - the strict JSON decoder is abstracted to a `Body` that is either
    `Parsed(payload)` or `Malformed(message)`;
  - the `Validatable` capability of `S` is a `Capability` value: `Plain`, or
    `Validatable` with the validation function.
- `chain.dfy` (`Chain`): a cursor-free reference semantics of a chain (`Run`,
  `Calls`) and the proof that `Next` computes it.
- `router.dfy` (`Router`, router.go): the route table keyed by
  `method + " " + pattern`, `Handle`/`Post`/`Get`, the per-request closure
  `Serve`, and the outcome-to-status mapping `Emit`.
- `calculator.dfy` (`Calculator`, cmd/main.go):
  - `Validate`, `ValidateToken`;
  - `authMiddleware` as `Guard(ValidateToken, "unauthorized")`;
  - `loggingMiddleware` as `Delegate`;
  - `handler` as `Endpoint(Calculate)`;
  - end-to-end lemmas for the chain `[auth, logging, handler]`.

Two fields of the model context are observations that the Go struct does not
have:
- `bodyReads` counts how often `Decode` read the request body.
- `ran` lists the indices of the invoked handlers, in order.

They let the contracts say "the body is not read again" and "no handler after
k ran" directly.

Each handler's pair is what `Next` returns for it. A chain whose handlers all
delegate ends past the end with (absent, absent), which gives 404
(`Chain.ChainFallsThrough`).

## Model

| member | source | states |
|---|---|---|
| RequestContext.CreateContext | context.go:30-38 | a fresh context has cursor -1, no handlers, no request data, no response, no error |
| RequestContext.CheckPayload | context.go:85-88 | validation runs only when the payload type has the Validatable capability; a plain type always passes |
| RequestContext.Decode | context.go:72-89 | with request data already set: success, body not read, nothing else changes; otherwise the body is read once; a parse error is returned and leaves the request data unset; a parsed payload is stored before validation and the result is the validation's; success always leaves request data set |
| RequestContext.DecodeTwice | context.go:73-75 | once a Decode stored request data (success or failed validation), a second Decode succeeds, changes nothing and does not read the body again |
| RequestContext.ValidationFailureKeepsPayload | context.go:83-87 | a validation failure returns its message but keeps the payload stored, so the next Decode succeeds |
| RequestContext.EndpointRun | cmd/main.go:67-97 | the handler's error is returned and stored in the error slot; a response is returned only without an error and is stored in the response slot; with request data set, the body is not re-read and the result is what the computation makes of the stored payload |
| RequestContext.Next | context.go:59-65 | the cursor strictly advances and stays at most one past the last handler; exactly the handlers from the old cursor + 1 to the new cursor ran, each once, in order; past the end the pair is (absent, absent) and only the cursor moves; handlers and request are unchanged |
| RequestContext.Invoke | context.go:61-62 | invoking the handler under the cursor never moves the cursor backwards or beyond one past the last handler, and adds to the run list exactly the handlers the cursor then passes |
| RequestContext.NextAfterEndStaysAbsent | context.go:63-64 | once the cursor is at or past the last handler, every further call of Next, any number of times, returns (absent, absent) |
| Chain.NextRunsChain | context.go:59-65 | Next returns the pair of the cursor-free reference walk over the remaining handlers, and the cursor advances by the number of Next calls that walk makes |
| Chain.ChainStopsAt | context.go:59-65 | if the handlers before k pass control on and the one at k does not, Next returns the pair of the handler at k, the cursor stops at k, and no handler after k runs |
| Chain.ChainFallsThrough | context.go:59-65 | if every remaining handler delegates, each runs once in order, the cursor ends one past the last, and the pair is (absent, absent) |
| Router.RouteKey | router.go:26 | the key is the method, one space, then the pattern |
| Router.Handle | router.go:25-26 | registration binds the chain under the method+pattern key and leaves every other route unchanged |
| Router.Post | router.go:60-62 | POST registers under "POST " + pattern |
| Router.Get | router.go:64-66 | GET registers under "GET " + pattern |
| Router.PostAndGetCoexist | router.go:60-66 | POST and GET on the same pattern bind two different keys, and both routes survive |
| Router.Emit | router.go:42-56 | an error wins over a response; it gives 401 exactly when its message is "unauthorized", otherwise 500, with the message as body; without an error, a present response gives 200 with JSON; (absent, absent) gives 404 |
| Router.ErrorTakesPrecedence | router.go:42-49 | an error returned together with a response yields the error body and no JSON |
| Router.Start | router.go:27-33 | every request starts from a fresh context holding the registered chain with the cursor at -1 |
| Router.Serve | router.go:26-57 | status 400 exactly when decoding or validation fails, with its message and with no handler run; the handlers that ran are a prefix of the chain, each once, in order; the status is one of 200, 400, 401, 404, 500 |
| Router.ServeRunsChain | router.go:37-56 | after a successful decode the response is the emitted reference outcome of the whole chain, and the body was read at most once |
| Router.NextBodyReads | context.go:73-75 | once request data is set, running the chain never reads the body again nor changes the request data |
| Router.EmptyChainNotFound | router.go:41-56 | an empty chain with a successful decode always answers 404 |
| Calculator.Validate | cmd/main.go:19-30 | accepts exactly first ≥ 0, second ≥ 0 and operation "plus" or "multiply"; reports the first failing check in the order first, second, operation |
| Calculator.Calculate | cmd/main.go:75-94 | the handler's re-checks fail exactly when Validate does, with the same message; otherwise the result is the sum for "plus" and the product for "multiply" |
| Calculator.ValidateToken | cmd/main.go:57-59 | accepts exactly the token "admin" |
| Calculator.AuthMiddleware | cmd/main.go:49-55 | a guard on the Authorization header that accepts exactly the token "admin" and otherwise returns the error "unauthorized" |
| Calculator.LoggingMiddleware | cmd/main.go:61-65 | the delegating behaviour: whatever the request, it hands control to Next |
| Calculator.CalcHandler | cmd/main.go:67-97 | never hands control on; with request data set it returns the sum or product and no error for a valid payload, and no response with Validate's message otherwise |
| Calculator.Routes | cmd/main.go:42 | main's table has the single key "POST /calc", bound to the route [auth, logging, handler] |
| Calculator.AuthMiddlewareRejects | cmd/main.go:49-59 | with any token but "admin", the auth middleware returns error "unauthorized" without calling Next: the cursor stays on it and nothing else runs |
| Calculator.AuthMiddlewareDelegates | cmd/main.go:49-55 | with token "admin", the auth middleware returns exactly what Next returns |
| Calculator.LoggingMiddlewareDelegates | cmd/main.go:61-65 | the logging middleware always returns exactly what Next returns |
| Calculator.CalcHandlerComputes | cmd/main.go:67-97 | with a valid payload already decoded, the handler's Decode is a no-op; it returns no error and returns and stores the sum or the product |
| Calculator.ServeValidRequest | cmd/main.go:42 | token "admin" with any valid payload answers 200 with the sum or product, after handlers 0, 1 and 2 each ran once |
| Calculator.ServeBadToken | cmd/main.go:50-53 | any other token with a valid payload answers 401 "unauthorized", and only the auth middleware ran |
| Calculator.ServeInvalidPayload | router.go:37-40 | a payload Validate rejects answers 400 with Validate's message whatever the token, and no handler ran |
| Calculator.ServeMalformedBody | router.go:37-40 | a body the decoder rejects answers 400 with the decoder's message, and no handler ran |
| Calculator.ServeThreePlusFour | cmd/main.go:88-97 | token "admin" with {3, 4, "plus"} answers 200 with {"result": 7} |
| Calculator.ServeNegativeFirst | cmd/main.go:20-22 | {-1, 4, "plus"} answers 400 "first_number must be non-negative" |
| Calculator.ServeDivide | cmd/main.go:26-28 | {3, 4, "divide"} answers 400 "invalid operation_name" |

## Left out

- HTTP multiplexer matching of method and path is not modelled. The route table is a map keyed by the method+pattern string. The 404 for an unmatched route comes from the library.
- Router.Handle: registering the same key twice replaces the route, where `http.ServeMux` panics at startup.
- JSON decoding is abstracted to a `Body` value. Strict unknown-field rejection, type errors and the `"null"` body that leaves a nil pointer (context.go:80-86) are not modelled. Encoding the response is an opaque `Json(value)` body; an encoder error is only logged by the source.
- `http.Error` appends a newline to the message and sets a text content type. The model's `Text(message)` body leaves both out.
- The cancellation context and its deferred release (context.go:31, router.go:29) are runtime resource plumbing with no effect on the outcome.
- Logging (`ctx.Log.Printf`, `r.log.Println`), `main`'s server start and `http.ListenAndServe` are I/O only.
- `Group` and `Router.Group` (router.go:68-80) are never used in dispatch.
- The commented-out loop version of `Next` (context.go:41-57) is dead code.
- The `reqData` argument of `Next` and of handlers is not a separate parameter. In the router's flow it is the same pointer that `Decode` stores as `ReqData` (router.go:35-41, context.go:83), so handlers read the context's request data. A caller passing a different pointer is not modelled.
- Handlers are drawn from a closed set of behaviours (`Return`, `Delegate`, `Guard`, `Endpoint`). Arbitrary Go handler code, including a handler that calls `Next` more than once, is not modelled.
- A route table holds routes of one payload type pair; Go's table mixes routes of different generic instantiations.
- Calculator.Calculate: the sum and product are mathematical integers; Go's 64-bit `int` wrap-around on overflow (cmd/main.go:91-93) is not modelled.
- RequestContext.Decode: when the body is read a second time after a parse failure, the model returns the same parse outcome. The source's decoder would see a partly consumed stream; in the router's flow this never happens, because a failed decode stops the request.
