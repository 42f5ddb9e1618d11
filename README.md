# ripple-rpc JSON-RPC 2.0 core, modelled in Dafny

This project models the JSON-RPC 2.0 layer of ripple-rpc:

- the server (`Ripple\RPC\Json\Server`): the route registry, the middleware list and how the middlewares compose around a handler, the reply builder `json`, the envelope check and the try/catch that maps exceptions to error codes in `distributeRequestJson`, the route lookup in `distributeRoute`, and the decisions `onRequest` and `onWebSocketRequest` take before they dispatch;
- `JsonException`, the exception a handler throws to choose the whole reply;
- the client (`Ripple\RPC\Json\Client`): choosing a transport from the scheme, building the request envelope, and the checks `call` applies to the decoded reply.

Files and modules:

- `php_values.dfy` (`PhpValues`): the PHP values `json_decode($text, true)` produces. Arrays are ordered association lists. The file also holds the array operations the code uses: `$a[k]`, `isset`, `??`, `$a[k] = v`, `$a + $b`, and falsiness.
- `json_exception.dfy` (`Exceptions`): the exception and the five ways a handler call can end (`Outcome`).
- `middleware.dfy` (`Middleware`): the composed middleware call (`Chain`) and its execution order (`Trace`).
- `server.dfy` (`RpcServer`): the reply functions, and the class `Server`. Its fields are `debug`, `httpPath`, `routes` and `middlewares`. `route`, `middleware` and `bind` update them in place. The other methods are each proved equal to a function that states what they compute.
- `server_lemmas.dfy` (`RpcServerLemmas`): what the server's replies promise.
- `client.dfy` (`RpcClient`) and `client_lemmas.dfy` (`RpcClientLemmas`): the client, and how client and server fit together.

Calling a handler (`call_user_func` with the params spread, and PHP's own arity and type checks) is the parameter `invoke`. The network and `json_encode`/`json_decode` meet in the client's parameter `exchange`. `parse_url` is the parameter `schemeOf`, and `method_exists` is the parameter `methodExists`.

### Behaviour of the code worth knowing

- **Unknown method.** `distributeRoute` throws a `JsonException` whose payload is just `{code: -32601, message: "Method not found"}`, and `distributeRequestJson` returns that payload as the reply. The reply has no `jsonrpc`, no `id` and no `error` member (`RpcServerLemmas.UnknownMethodReply`). Section 5 of the JSON-RPC 2.0 Specification requires every response to carry `jsonrpc`, an `id` equal to the request's id, and, on failure, an `error` member; this reply does not. So `Client::call` reports it as "Unknown error" (`RpcClientLemmas.UnknownMethodReadsAsUnknownError`).
- **Middleware order.** `handleMiddleware` wraps `$next` starting from the last middleware, so the first-registered middleware is outermost and runs first (`Middleware.FirstRegisteredOutermost`, `Middleware.TraceShape`).
- **Strict types.** Both files declare strict types. A `method` that is not a string, or `params` that are not an array, therefore raise a TypeError when `distributeRoute` is called. That happens before the route lookup, so the reply is -32602 even for an unknown method name. Likewise `route` with a two-item array whose first item is neither an object nor a string, or whose second item is not a string, throws a TypeError from `method_exists` rather than the InvalidArgumentException.
- **Truthy non-array body.** A body that decodes to a truthy value that is not an array (`1`, `"x"`, `true`) makes the typed call `distributeRequestJson(array)` throw a TypeError that nothing catches. No reply is sent (`None` in `HttpAnswer` and `WebSocketAnswer`).
- **Falsy callbacks.** `distributeRoute` tests `!$callback`, so a stored empty array would read as an unknown method (`RpcServerLemmas.EmptyArrayCallbackNotFound`). `route` never stores one: every callback it stores is a Closure or a two-item array (`RpcServer.Server.Route` keeps `Valid`), and in such a registry the test is plain membership (`RpcServerLemmas.LookupOfValidRoutes`).

## Model

| member | source | states |
|---|---|---|
| PhpValues.Falsy | src/Json/Server.php:229-230 | `!$v` holds for exactly null, false, 0, "", "0" and the empty array |
| PhpValues.FalsyDecoded | src/Json/Server.php:275 | `!$x = json_decode(...)`: text that is not JSON, or a falsy decoded value; definition on `Falsy`, used by `HttpParseError`, `WebSocketReplies` and `Unwrap` |
| PhpValues.Find | src/Json/Server.php:169 | `$a[k]` on an array finds a value exactly when the key is among the array's keys |
| PhpValues.FindIsEntry | src/Json/Server.php:169 | the value found is the value of an entry with that key |
| PhpValues.Get | src/Json/Server.php:169 | `$v['k']` is present exactly when `v` is an array having the key |
| PhpValues.IsSet | src/Json/Server.php:169 | `isset($v['k'])` holds exactly when `v` is an array whose `k` is present and not null; such an array is truthy |
| PhpValues.Coalesce | src/Json/Server.php:173-174 | `$v['k'] ?? d` is the stored value when `k` is set and `d` otherwise; it is null only when `d` is |
| PhpValues.Assign | src/Json/Server.php:153-158 | `$a[k] = v`: afterwards `k` maps to `v`, every other key maps to what it did before, the key set gains `k`, and a new key is appended at the end |
| PhpValues.AssignKeepsPosition | src/Json/Server.php:153-158 | overwriting an existing key keeps the length and every key in its position |
| PhpValues.Union | src/Json/Server.php:155 | `$a + $b`: keys of both operands; on a shared key the left value wins; other keys keep their right-hand value; the left operand is a prefix of the result |
| PhpValues.WithoutDisjoint | src/Json/Server.php:155 | dropping keys the array does not have leaves it unchanged, order included |
| PhpValues.UnionDisjoint | src/Json/Server.php:155 | `$a + $b` with no key in common is the entries of `a` followed by those of `b`, in order |
| Exceptions.NewJsonException | src/Json/Exception/JsonException.php:15-18 | a JsonException built with no payload has the empty array as data, an empty message and code 0 |
| Exceptions.GetDataIsPayload | src/Json/Exception/JsonException.php:15-26 | `getData()` returns exactly the payload given to the constructor; message and code stay empty and 0 |
| Exceptions.JsonException.GetData | src/Json/Exception/JsonException.php:23-26 | `getData()`: the stored payload; definition, described by `NewJsonException` and `GetDataIsPayload` |
| Exceptions.JsonException.GetMessage | src/Json/Exception/JsonException.php:15-18 | `getMessage()` after `parent::__construct()` with no arguments: ""; definition, described by the same two rows |
| Exceptions.JsonException.GetCode | src/Json/Exception/JsonException.php:15-18 | `getCode()` after `parent::__construct()` with no arguments: 0; definition, described by the same two rows |
| Middleware.Step | src/Json/Server.php:252 | one middleware applied to what its `$next` gives: mapped by a middleware that calls `$next`, replaced by one that does not; definition |
| Middleware.Chain | src/Json/Server.php:249-255 | the outcome of the composed call, the first-registered middleware outermost; definition, described by `ChainAppend`, `ChainConcat`, `HaltIgnoresHandler`, `PassThroughChain`, `EmptyChainCallsHandler` and `Server.HandleMiddleware` |
| Middleware.Trace | src/Json/Server.php:249-255 | the order in which middlewares are entered, the handler runs and middlewares return; definition, described by `TraceShape`, `HandlerRunsIff` and `FirstRegisteredOutermost` |
| Middleware.ChainAppend | src/Json/Server.php:249-255 | a middleware registered last wraps the handler's call directly, inside all earlier ones |
| Middleware.ChainConcat | src/Json/Server.php:249-255 | the chain of `a + b` is the chain of `a` around the chain of `b` |
| Middleware.HaltIgnoresHandler | src/Json/Server.php:249-255 | when some middleware never calls `$next`, the outcome does not depend on the handler |
| Middleware.PassThroughChain | src/Json/Server.php:249-255 | middlewares that return `$next()` unchanged leave the handler's outcome as it is |
| Middleware.Entered | src/Json/Server.php:249-255 | the number of middlewares that run: all of them when every one calls `$next`, otherwise up to and including the first that does not |
| Middleware.TraceShape | src/Json/Server.php:249-255 | execution order: the entered middlewares in registration order, the handler only when all call `$next`, then the returns in reverse order |
| Middleware.HandlerRunsIff | src/Json/Server.php:249-255 | the handler runs if and only if every middleware calls `$next` |
| Middleware.FirstRegisteredOutermost | src/Json/Server.php:249-255 | the first-registered middleware is entered first and returns last |
| Middleware.EmptyChainCallsHandler | src/Json/Server.php:249-255 | with no middleware the call is the handler's own outcome |
| RpcServer.ErrorObject | src/Json/Server.php:155 | the error object has the given code and message, and every key of `$data` except those two keeps its value |
| RpcServer.ResponseHead | src/Json/Server.php:153 | the reply starts with version "2.0" and the given id, and has no other key |
| RpcServer.Json | src/Json/Server.php:147-160 | a reply has version "2.0", the given id, and exactly one of `error` (built from code, message and data) or `result` (the data) |
| RpcServer.JsonAppendsMember | src/Json/Server.php:153-158 | the reply is the head array after assigning `error` (or `result`) to it: a new key, so it is appended |
| RpcServer.Answer | src/Json/Server.php:178-217 | the reply to each way the routed call ends: the result, the JsonException payload, or the mapped error; definition, described by `SuccessReply`, `JsonExceptionIsReply`, `ExceptionMapping` and `AnswerShape` |
| RpcServer.Lookup | src/Json/Server.php:229-230 | `$this->routes[$method] ?? null` then `!$callback`: the stored callback unless it is missing or falsy; definition, described by `LookupOfValidRoutes` and `EmptyArrayCallbackNotFound` |
| RpcServer.RouteOutcome | src/Json/Server.php:227-242 | type checks, then the lookup, then the handler inside the chain; definition, described by `ParameterTypesCheckedBeforeLookup`, `UnknownMethodReply`, `HaltingMiddlewareDecides` and `Server.DistributeRoute` |
| RpcServer.ValidEnvelope | src/Json/Server.php:169 | the envelope check; definition, described by `ValidEnvelopeMeans` |
| RpcServer.RequestParams | src/Json/Server.php:173 | `$requestJson['params'] ?? []`; definition, described by `MissingParamsAndId` and `DispatchRouted` |
| RpcServer.RequestId | src/Json/Server.php:174 | `$requestJson['id'] ?? null`; definition, described by `MissingParamsAndId` and `DispatchRouted` |
| RpcServer.Dispatch | src/Json/Server.php:167-218 | what `distributeRequestJson` returns; definition, described by `InvalidRequestReplyIgnoresIdAndRoutes`, `DispatchValid`, `DispatchRouted`, `DispatchReplyShape` and `Server.DistributeRequestJson` |
| RpcServer.HttpAnswer | src/Json/Server.php:262-283 | what `onRequest` responds with; definition, described by `HttpGateRejects`, `MissingHttpMethodRejected`, `HttpParseError`, `HttpMatchesWebSocket` and `Server.OnRequest` |
| RpcServer.WebSocketAnswer | src/Json/Server.php:127-137 | what `onWebSocketRequest` sends back; definition, described by `WebSocketReplies`, `WebSocketDispatchesArray` and `Server.OnWebSocketRequest` |
| RpcServer.Upper | src/Json/Server.php:266 | `strtoupper` keeps the length, leaves no ASCII lower-case letter, turns each lower-case letter into its capital and keeps every other character |
| RpcServer.Server.constructor | src/Json/Server.php:35-44 | debug off, path "/", no routes, no middlewares |
| RpcServer.Server.Route | src/Json/Server.php:55-64 | a Closure, or an array of exactly two items naming an existing method, is stored under the name, replacing any previous one; a two-item array `method_exists` cannot take is a TypeError; any other callback is refused; on refusal the registry is unchanged; the registry stays valid |
| RpcServer.Server.AddMiddleware | src/Json/Server.php:71-74 | the middleware is appended to the list |
| RpcServer.Server.Bind | src/Json/Server.php:82-119 | a missing or falsy scheme gives false; an unknown scheme escapes from the `match`; a refused listener gives false; ws(s) binds without touching the path; http(s) sets the path to the address's path or "/" |
| RpcServer.Server.HandleMiddleware | src/Json/Server.php:249-255 | the loop that wraps `$next` in each middleware from the end of the list computes exactly the composed chain |
| RpcServer.Server.DistributeRoute | src/Json/Server.php:227-242 | type check of method and params, then the lookup, then the handler inside the middleware chain |
| RpcServer.Server.DistributeRequestJson | src/Json/Server.php:167-218 | the reply is the specified dispatch of the request over the current routes, middlewares and debug flag |
| RpcServer.Server.OnRequest | src/Json/Server.php:262-283 | the response is the specified HTTP answer for the current fields |
| RpcServer.Server.OnWebSocketRequest | src/Json/Server.php:127-137 | the message sent back is the specified WebSocket answer for the current fields |
| RpcServerLemmas.PlainErrorReply | src/Json/Server.php:147-160 | an error reply with no data has the code and message given, the id given, no result, and an error holding only `code` and `message` |
| RpcServerLemmas.JsonErrorMember | src/Json/Server.php:153-156 | an error reply's `error` member is the error object built from code, message and data; there is no `result` |
| RpcServerLemmas.JsonErrorReply | src/Json/Server.php:147-160 | an error reply built by `json` matches the expected code, message and id |
| RpcServerLemmas.ValidEnvelopeMeans | src/Json/Server.php:169 | a request passes validation exactly when `jsonrpc` is the string "2.0" and `method` is present and not null |
| RpcServerLemmas.DispatchValid | src/Json/Server.php:169-181 | a request that passes validation is answered from the outcome of routing its method with its params (or `[]`), with its id (or null) |
| RpcServerLemmas.DispatchRouted | src/Json/Server.php:167-188 | a request with version "2.0", a string method, array params and an id is answered from the route outcome for exactly those, with that id |
| RpcServerLemmas.InvalidRequestReplyIgnoresIdAndRoutes | src/Json/Server.php:169-171 | an invalid request gets -32600 "Invalid Request" with a null id, whatever its id, routes or handlers |
| RpcServerLemmas.UnknownMethodReply | src/Json/Server.php:227-235 | a valid request for an unregistered method gets the bare `{code: -32601, message}` payload as its reply |
| RpcServerLemmas.ParameterTypesCheckedBeforeLookup | src/Json/Server.php:178-181 | a non-string method or non-array params give -32602 "Invalid params" with the request's id, registered or not |
| RpcServerLemmas.SuccessReply | src/Json/Server.php:178-188 | when the chain returns `v`, the reply is version "2.0", the request's id and `result: v`, and has no other key |
| RpcServerLemmas.MissingParamsAndId | src/Json/Server.php:173-174 | missing or null params reach the handler as `[]`; a missing or null id is answered as null |
| RpcServerLemmas.ExceptionMapping | src/Json/Server.php:190-217 | ArgumentCountError and TypeError give -32602 "Invalid params", any other Throwable -32603 "Internal error", with the request's id; the error holds `debug` with the exception's message if and only if debugging is on |
| RpcServerLemmas.StandardErrorReply | src/Json/Server.php:190-217 | an error reply with debug data has the code, text and id given, and a `debug` member exactly when debugging is on |
| RpcServerLemmas.DebugMember | src/Json/Server.php:194-196 | the error object holds `debug` with the message exactly when debugging is on, and no keys besides code, message and debug |
| RpcServerLemmas.JsonExceptionIsReply | src/Json/Server.php:188-189 | a JsonException from the handler or a middleware is sent as the reply unchanged |
| RpcServerLemmas.AnswerShape | src/Json/Server.php:178-217 | a returned value or a caught exception is answered with version "2.0", the request's id, and exactly the keys jsonrpc, id and `result` (returned) or `error` (caught) |
| RpcServerLemmas.DispatchReplyShape | src/Json/Server.php:167-218 | every reply is a JsonException payload, or an envelope with version "2.0" whose keys are exactly jsonrpc, id and one of `result` or `error` |
| RpcServerLemmas.HaltingMiddlewareDecides | src/Json/Server.php:249-255 | with a middleware that never calls `$next`, the reply does not depend on the handlers |
| RpcServerLemmas.LookupOfValidRoutes | src/Json/Server.php:229-230 | in a registry `route` built, a name's callback is found exactly when the name is registered, and it is the stored one |
| RpcServerLemmas.EmptyArrayCallbackNotFound | src/Json/Server.php:229-235 | a stored empty array is falsy, so its name is answered as an unknown method |
| RpcServerLemmas.UpperCharIs | src/Json/Server.php:266 | a character upper-cases to a letter exactly when it is that letter or its lower-case form |
| RpcServerLemmas.PostSpellings | src/Json/Server.php:266 | the request method passes exactly when it is "post" in any mix of cases |
| RpcServerLemmas.HttpGateRejects | src/Json/Server.php:264-273 | a method other than POST, or a path other than the bound one, gets status 404 and -32601 "Method not found" with a null id |
| RpcServerLemmas.MissingHttpMethodRejected | src/Json/Server.php:265-266 | a request without REQUEST_METHOD counts as GET and is rejected with 404 |
| RpcServerLemmas.HttpParseError | src/Json/Server.php:275-278 | past the gate, a body that is not JSON or decodes to a falsy value gets -32700 "Parse error" with a null id |
| RpcServerLemmas.HttpMatchesWebSocket | src/Json/Server.php:275-282 | past the gate, the HTTP reply is the WebSocket reply to the same message, with status 200 |
| RpcServerLemmas.WebSocketReplies | src/Json/Server.php:127-137 | a message gets exactly one reply unless it decodes to a truthy non-array; a falsy one gets the parse error, an array is dispatched |
| RpcServerLemmas.WebSocketDispatchesArray | src/Json/Server.php:129-136 | a non-empty array message is dispatched and its reply sent back |
| RpcClient.TransportFor | src/Json/Client.php:56-95 | a missing or falsy scheme throws "Address format error"; http and https use an HTTP POST; ws and wss a WebSocket; any other scheme throws "Invalid scheme" |
| RpcClient.Envelope | src/Json/Client.php:64-69 | the envelope holds exactly `jsonrpc: "2.0"`, the method, the params and the id (null when none) |
| RpcClientLemmas.AddressCheckedBeforeSending | src/Json/Client.php:56-59 | an address whose scheme is refused throws that error, whatever the network would do |
| RpcClient.Request | src/Json/Client.php:54-96 | a refused scheme throws before sending; otherwise the envelope goes out on the chosen transport, a delivered reply is returned and a returned reply is the delivered one; a failed transport throws its message; nothing thrown is a TypeError |
| RpcClient.ErrorMessage | src/Json/Client.php:38 | never null; the error's `message` when `error` holds a set one, otherwise "Unknown error" |
| RpcClient.Unwrap | src/Json/Client.php:33-41 | a falsy reply throws "Invalid response"; a value is returned exactly when `error` is unset and `result` is set, and it is the non-null `result`; otherwise the error message is thrown, or a TypeError when it is not a string |
| RpcClient.Call | src/Json/Client.php:30-42 | a refused scheme throws its error; a failed transport throws its message; a delivered reply is read by `Unwrap`; a returned value is the non-null `result` of the reply the network gave to the envelope |
| RpcClientLemmas.ResultEntriesUnwrap | src/Json/Client.php:37-41 | a reply without `error` returns its result; a null result throws "Unknown error" |
| RpcClientLemmas.ErrorEntriesUnwrap | src/Json/Client.php:37-38 | a reply whose `error` holds a string message throws with that message |
| RpcClientLemmas.NeitherMemberUnwrap | src/Json/Client.php:37-38 | a reply with neither `error` nor `result` set throws "Unknown error" |
| RpcClientLemmas.ErrorWithoutMessageUnwrap | src/Json/Client.php:37-38 | an `error` that is set but is not an array, or lacks `message`, or has a null one, throws "Unknown error" |
| RpcClientLemmas.NonStringMessageUnwrap | src/Json/Client.php:37-38 | an `error` whose `message` is set but is not a string makes `new Exception` throw a TypeError |
| RpcClientLemmas.ResultReplyUnwraps | src/Json/Client.php:37-41 | a server result reply returns its result, except a null result, which throws "Unknown error" |
| RpcClientLemmas.ErrorReplyUnwraps | src/Json/Client.php:37-38 | a server error reply throws with the error's message |
| RpcClientLemmas.AnswerUnwraps | src/Json/Client.php:33-41 | each way a server-side call ends becomes: the result, "Unknown error" for null, "Invalid params", or "Internal error" |
| RpcClientLemmas.UnknownMethodReadsAsUnknownError | src/Json/Client.php:37-38 | the server's unknown-method reply throws "Unknown error" at the client |
| RpcClientLemmas.FixedRepliesUnwrap | src/Json/Client.php:37-38 | the Invalid Request, Parse error and Method not found replies throw with those messages |
| RpcClientLemmas.EnvelopeDispatch | src/Json/Client.php:64-69 | the client's envelope passes the server's check; the server routes its method and params and answers with its id |
| RpcClientLemmas.HttpTakesEnvelope | src/Json/Client.php:62-75 | posted to the bound path, with a request method that upper-cases to POST, the envelope gets status 200 and the dispatch reply |
| RpcClientLemmas.WebSocketTakesEnvelope | src/Json/Client.php:77-85 | sent over a WebSocket, the envelope gets the dispatch reply |
| RpcClientLemmas.CallAgainstServer | src/Json/Client.php:30-42 | against the server, a call returns the handler's non-null result, or throws "Unknown error", "Invalid params" or "Internal error", or what the JsonException payload says |
| RpcClientLemmas.ReplyCarriesId | src/Json/Client.php:64-69 | the id given to `request` is the id of every reply built by `json` |
| RpcClientLemmas.RegisteredCallReturns | src/Json/Client.php:30-42 | against the server, a call to a registered route whose chain returns a non-null value returns that value |
| RpcClientLemmas.EchoRoute | tests/ServerTest.php:27-53 | the echo route, registered under a name and called over HTTP POST with the params `[arg]` for a non-null `arg`, returns `arg` (the test's "test" and `['test']` are one instance) |

## Left out

- `run` and the `runServer` closures: starting the listeners is I/O. `bind` is modelled only by its outcome and its effect on `httpPath`.
- The ambient context (`Context::define` of request, connection and decoded envelope): it is per-request state the middlewares may read, not something the core decides.
- `respondJson` and `send`: replies are modelled as the array sent and, for HTTP, its status. `respondJson`'s status when none is given is taken to be 200 (the HTTP library is not part of this model).
- `json_encode` and `json_decode`: decoding is an input (`None` for text that is not JSON). The client's `exchange` is assumed to carry arrays unchanged where a lemma says so. Floats are not modelled.
- The Guzzle HTTP client, the WebSocket client and the coroutine suspend/resume in `request`: this is the `exchange` parameter. Guzzle's own behaviour on 4xx statuses is part of it.
- `call_user_func` with the params spread, and PHP's arity and type checks for handlers: the `invoke` parameter. `method_exists`: the `methodExists` parameter. `parse_url`: a scheme and a path given as inputs.
- Callable arrays in `route` are modelled as lists of items: a two-entry array whose keys are not 0 and 1 is not modelled.
- A middleware that calls `$next` more than once, or does work other than mapping its outcome: the model covers middlewares that call `$next` at most once and whose outcome is a function of its outcome.
- The exact text of PHP's TypeError messages: approximated by fixed strings that name the parameter.
- Concurrency between dispatches: each dispatch is modelled as a single call.
