/**
 * The JSON-RPC 2.0 server: route registry, middleware list, reply
 * builder, envelope validation and error mapping, route lookup, and the
 * decisions the HTTP and WebSocket front doors take before dispatch.
 *
 * The pure parts (`json`, the try/catch mapping, the front-door
 * decisions) are functions; `Dispatch`, `RouteOutcome`, `HttpAnswer` and
 * `WebSocketAnswer` state what the corresponding methods of the `Server`
 * class compute from its fields. Calling a handler (`call_user_func` with
 * the parameters spread) is PHP runtime behaviour and is the parameter
 * `invoke`.
 */
module RpcServer {
  import opened PhpValues
  import opened Exceptions
  import opened Middleware

  const VERSION: string := "2.0"

  const PARSE_ERROR: int := -32700
  const INVALID_REQUEST: int := -32600
  const METHOD_NOT_FOUND: int := -32601
  const INVALID_PARAMS: int := -32602
  const INTERNAL_ERROR: int := -32603

  /**
   * The TypeErrors PHP raises (strict types) when `distributeRoute` is
   * called with a non-string method or non-array params; PHP's own text
   * also names the given type and the call site.
   */
  const METHOD_TYPE_ERROR: string := "distributeRoute(): Argument #1 ($method) must be of type string"
  const PARAMS_TYPE_ERROR: string := "distributeRoute(): Argument #2 ($params) must be of type array"

  /** A route handler: a Closure, or a callable array such as `[Class::class, 'method']`. */
  datatype Callback = Closure(handle: nat) | CallableArray(items: seq<Value>)

  /** `call_user_func($callback, ...$params)`, with PHP's arity and type checks. */
  type Invoker = (Callback, Value) -> Outcome

  /**
   * The argument types `method_exists(object|string $object_or_class,
   * string $method)` admits; under strict types any other argument is a
   * TypeError.
   */
  predicate MethodExistsArgs(target: Value, methodName: Value) {
    (target.Str? || target.Object?) && methodName.Str?
  }

  /** `route` accepts a Closure, or an array of exactly two items naming an existing method. */
  predicate AcceptsCallback(callback: Callback, methodExists: (Value, Value) -> bool) {
    callback.CallableArray? ==>
      && |callback.items| == 2
      && MethodExistsArgs(callback.items[0], callback.items[1])
      && methodExists(callback.items[0], callback.items[1])
  }

  /** A two-item callable array whose items `method_exists` refuses to take. */
  predicate CallbackTypeMismatch(callback: Callback) {
    callback.CallableArray? && |callback.items| == 2 && !MethodExistsArgs(callback.items[0], callback.items[1])
  }

  /** What `route` stores: a Closure or a two-item array. */
  predicate RoutesValid(routes: map<string, Callback>) {
    forall name :: name in routes ==> routes[name].Closure? || |routes[name].items| == 2
  }

  /**
   * `$this->routes[$method] ?? null` followed by `!$callback`: the stored
   * callback, unless there is none or it is falsy (the empty array).
   */
  function Lookup(routes: map<string, Callback>, name: string): Option<Callback> {
    if name in routes && routes[name] != CallableArray([]) then Some(routes[name]) else None
  }

  function Message(message: Option<string>): Value {
    if message.Some? then Str(message.value) else Null
  }

  /** `['code' => $errorCode, 'message' => $message] + $data`. */
  function ErrorObject(code: int, message: Option<string>, data: seq<Entry>): (e: seq<Entry>)
    ensures Find(e, StrKey("code")) == Some(Int(code))
    ensures Find(e, StrKey("message")) == Some(Message(message))
    ensures KeySet(e) == {StrKey("code"), StrKey("message")} + KeySet(data)
    ensures forall k :: k != StrKey("code") && k != StrKey("message") ==> Find(e, k) == Find(data, k)
  {
    var head := [Entry(StrKey("code"), Int(code)), Entry(StrKey("message"), Message(message))];
    assert head == [head[0]] + [head[1]];
    KeySetConcat([head[0]], [head[1]]);
    FindConcat([head[0]], [head[1]], StrKey("message"));
    Union(head, data)
  }

  /** `['jsonrpc' => Server::VERSION, 'id' => $id]`. */
  function ResponseHead(id: Value): (r: seq<Entry>)
    ensures Find(r, StrKey("jsonrpc")) == Some(Str(VERSION))
    ensures Find(r, StrKey("id")) == Some(id)
    ensures KeySet(r) == {StrKey("jsonrpc"), StrKey("id")}
  {
    var r := [Entry(StrKey("jsonrpc"), Str(VERSION)), Entry(StrKey("id"), id)];
    assert r == [r[0]] + [r[1]];
    KeySetConcat([r[0]], [r[1]]);
    FindConcat([r[0]], [r[1]], StrKey("id"));
    r
  }

  /**
   * `json($errorCode, $message, $data, $id)`: the response array. With an
   * error code, `error` is the error object built from `$data`; without
   * one, `result` is `$data`. Exactly one of the two is present.
   */
  function Json(errorCode: Option<int>, message: Option<string>, data: Value, id: Value): (r: seq<Entry>)
    requires errorCode.Some? ==> data.Arr?
    ensures Find(r, StrKey("jsonrpc")) == Some(Str(VERSION))
    ensures Find(r, StrKey("id")) == Some(id)
    ensures KeySet(r) == {StrKey("jsonrpc"), StrKey("id"), if errorCode.Some? then StrKey("error") else StrKey("result")}
    ensures errorCode.None? ==> Find(r, StrKey("result")) == Some(data)
    ensures errorCode.Some? ==> Find(r, StrKey("error")) == Some(Arr(ErrorObject(errorCode.value, message, data.entries)))
  {
    // `$response['error'] = ...` or `$response['result'] = ...` on a key the
    // head lacks appends that entry (`JsonAppendsMember`).
    var head := ResponseHead(id);
    var member := ReplyMember(errorCode, message, data);
    KeySetConcat(head, [member]);
    KeySetPair(member, member);
    FindConcat(head, [member], StrKey("jsonrpc"));
    FindConcat(head, [member], StrKey("id"));
    FindConcat(head, [member], member.key);
    FindPair(member, member, member.key);
    head + [member]
  }

  /** The entry `json` adds to the head: `error` with the error object, or `result` with the data. */
  function ReplyMember(errorCode: Option<int>, message: Option<string>, data: Value): Entry
    requires errorCode.Some? ==> data.Arr?
  {
    if errorCode.Some? then Entry(StrKey("error"), Arr(ErrorObject(errorCode.value, message, data.entries)))
    else Entry(StrKey("result"), data)
  }

  /** `json`'s body is the assignment of one member to the head array. */
  lemma JsonAppendsMember(errorCode: Option<int>, message: Option<string>, data: Value, id: Value)
    requires errorCode.Some? ==> data.Arr?
    ensures var m := ReplyMember(errorCode, message, data);
      Json(errorCode, message, data, id) == Assign(ResponseHead(id), m.key, m.val)
  {
    var m := ReplyMember(errorCode, message, data);
    assert m.key !in KeySet(ResponseHead(id));
  }

  /** The extra error data: `['debug' => $message]` when debugging, else `[]`. */
  function DebugData(debug: bool, message: string): (d: Value)
    ensures d.Arr?
  {
    if debug then Arr([Entry(StrKey("debug"), Str(message))]) else Arr([])
  }

  /** The payload of the JsonException `distributeRoute` throws for an unknown method. */
  function MethodNotFoundData(): seq<Entry> {
    [Entry(StrKey("code"), Int(METHOD_NOT_FOUND)), Entry(StrKey("message"), Str("Method not found"))]
  }

  /** The error code each caught exception maps to; none for a returned value. */
  function ErrorCode(outcome: Outcome): Option<int>
    requires !outcome.JsonErr?
  {
    match outcome
    case Ok(_) => None
    case ArgCountErr(_) => Some(INVALID_PARAMS)
    case TypeErr(_) => Some(INVALID_PARAMS)
    case OtherErr(_) => Some(INTERNAL_ERROR)
  }

  function ErrorText(outcome: Outcome): Option<string>
    requires !outcome.JsonErr?
  {
    match outcome
    case Ok(_) => None
    case ArgCountErr(_) => Some("Invalid params")
    case TypeErr(_) => Some("Invalid params")
    case OtherErr(_) => Some("Internal error")
  }

  /** The `$data` argument of the `json` call: the result, or the debug data of the exception. */
  function ReplyData(outcome: Outcome, debug: bool): (d: Value)
    requires !outcome.JsonErr?
    ensures !outcome.Ok? ==> d.Arr?
  {
    if outcome.Ok? then outcome.result else DebugData(debug, outcome.message)
  }

  /**
   * The try/catch of `distributeRequestJson`: the reply for what the
   * routed call did. A JsonException's payload is the reply itself;
   * ArgumentCountError and TypeError give -32602, any other Throwable
   * -32603, a returned value a result envelope.
   */
  function Answer(outcome: Outcome, debug: bool, id: Value): seq<Entry> {
    if outcome.JsonErr? then outcome.exception.GetData()
    else Json(ErrorCode(outcome), ErrorText(outcome), ReplyData(outcome, debug), id)
  }

  /**
   * `distributeRoute($method, $params)`: its typed parameters reject a
   * non-string method and non-array params first; then a name with no
   * callback, or a falsy one, throws a JsonException; otherwise the
   * handler runs inside the middleware chain.
   */
  function RouteOutcome(routes: map<string, Callback>, mws: seq<Mw>, name: Value, params: Value, invoke: Invoker): Outcome {
    if !name.Str? then TypeErr(METHOD_TYPE_ERROR)
    else if !params.Arr? then TypeErr(PARAMS_TYPE_ERROR)
    else if Lookup(routes, name.s).None? then JsonErr(JsonException(MethodNotFoundData()))
    else Chain(mws, invoke(Lookup(routes, name.s).value, params))
  }

  /** `jsonrpc` is exactly the string "2.0" and `method` is present and not null. */
  predicate ValidEnvelope(request: seq<Entry>) {
    Coalesce(Arr(request), "jsonrpc", Null) == Str(VERSION) && IsSet(Arr(request), "method")
  }

  /** `$requestJson['params'] ?? []`. */
  function RequestParams(request: seq<Entry>): Value {
    Coalesce(Arr(request), "params", Arr([]))
  }

  /** `$requestJson['id'] ?? null`. */
  function RequestId(request: seq<Entry>): Value {
    Coalesce(Arr(request), "id", Null)
  }

  function InvalidRequestReply(): seq<Entry> {
    Json(Some(INVALID_REQUEST), Some("Invalid Request"), Arr([]), Null)
  }

  /** What `distributeRequestJson($requestJson)` returns. */
  function Dispatch(routes: map<string, Callback>, mws: seq<Mw>, debug: bool, request: seq<Entry>, invoke: Invoker): seq<Entry> {
    if !ValidEnvelope(request) then InvalidRequestReply()
    else
      var name := Get(Arr(request), "method").value;
      Answer(RouteOutcome(routes, mws, name, RequestParams(request), invoke), debug, RequestId(request))
  }

  function UpperChar(c: char): char {
    if 'a' <= c <= 'z' then (c as int - 32) as char else c
  }

  /**
   * `strtoupper`: every ASCII lower-case letter becomes its capital, and
   * every other character, non-ASCII ones included, is kept.
   */
  function Upper(s: string): (u: string)
    ensures |u| == |s|
    ensures forall i :: 0 <= i < |u| ==> !('a' <= u[i] <= 'z')
    ensures forall i :: 0 <= i < |s| && 'a' <= s[i] <= 'z' ==> u[i] as int == s[i] as int - ('a' as int - 'A' as int)
    ensures forall i :: 0 <= i < |s| && !('a' <= s[i] <= 'z') ==> u[i] == s[i]
  {
    seq(|s|, i requires 0 <= i < |s| => UpperChar(s[i]))
  }

  /**
   * An HTTP request as `onRequest` reads it: `REQUEST_METHOD`,
   * `REQUEST_URI` (absent when the server array lacks them) and the body
   * as json_decode gives it.
   */
  datatype HttpRequest = HttpRequest(requestMethod: Option<string>, requestUri: Option<string>, content: Option<Value>)

  datatype HttpResponse = HttpResponse(status: int, body: seq<Entry>)

  function NotFoundReply(): seq<Entry> {
    Json(Some(METHOD_NOT_FOUND), Some("Method not found"), Arr([]), Null)
  }

  function ParseErrorReply(): seq<Entry> {
    Json(Some(PARSE_ERROR), Some("Parse error"), Arr([]), Null)
  }

  /**
   * What `onRequest` responds with. `None`: no response, because a body
   * that decodes to a truthy non-array makes the typed call
   * `distributeRequestJson(array)` throw a TypeError nobody catches.
   */
  function HttpAnswer(httpPath: string, routes: map<string, Callback>, mws: seq<Mw>, debug: bool,
                      request: HttpRequest, invoke: Invoker): Option<HttpResponse>
  {
    var uri := request.requestUri.GetOr("/");
    var httpMethod := request.requestMethod.GetOr("GET");
    if Upper(httpMethod) != "POST" || uri != httpPath then Some(HttpResponse(404, NotFoundReply()))
    else if FalsyDecoded(request.content) then Some(HttpResponse(200, ParseErrorReply()))
    else if request.content.value.Arr? then Some(HttpResponse(200, Dispatch(routes, mws, debug, request.content.value.entries, invoke)))
    else None
  }

  /** The one message `onWebSocketRequest` sends back; `None` as for HttpAnswer. */
  function WebSocketAnswer(routes: map<string, Callback>, mws: seq<Mw>, debug: bool,
                           message: Option<Value>, invoke: Invoker): Option<seq<Entry>>
  {
    if FalsyDecoded(message) then Some(ParseErrorReply())
    else if message.value.Arr? then Some(Dispatch(routes, mws, debug, message.value.entries, invoke))
    else None
  }

  datatype Listener = HttpListener | WebSocketListener

  /**
   * How `route` ends: the callback is stored, or `route` throws
   * InvalidArgumentException('Invalid callback'), or `method_exists`
   * throws a TypeError for arguments of the wrong type.
   */
  datatype RouteResult = Stored | InvalidCallback | CallbackTypeError

  /**
   * What `bind` did: bound a listener, returned false, or let the `match`
   * on the scheme throw UnhandledMatchError (a scheme other than http,
   * https, ws and wss).
   */
  datatype BindResult = Bound(listener: Listener) | NotBound | UnhandledMatch

  class Server {
    var debug: bool
    var httpPath: string
    var routes: map<string, Callback>
    var middlewares: seq<Mw>

    constructor ()
      ensures !debug && httpPath == "/" && routes == map[] && middlewares == []
      ensures Valid()
    {
      debug := false;
      httpPath := "/";
      routes := map[];
      middlewares := [];
    }

    /** Every stored callback is one `route` accepts the shape of. */
    predicate Valid()
      reads this
    {
      RoutesValid(routes)
    }

    /**
     * `route($method, $callback)`. Both exceptions are thrown before the
     * registry is touched; `count` is tested before `method_exists` runs.
     */
    method Route(name: string, callback: Callback, methodExists: (Value, Value) -> bool) returns (r: RouteResult)
      modifies this`routes
      ensures r == Stored <==> AcceptsCallback(callback, methodExists)
      ensures r == CallbackTypeError <==> CallbackTypeMismatch(callback)
      ensures r == Stored ==> routes == old(routes)[name := callback]
      ensures r != Stored ==> routes == old(routes)
      ensures old(Valid()) ==> Valid()
    {
      if callback.CallableArray? {
        if |callback.items| != 2 {
          return InvalidCallback;
        }
        if !MethodExistsArgs(callback.items[0], callback.items[1]) {
          return CallbackTypeError;
        }
        if !methodExists(callback.items[0], callback.items[1]) {
          return InvalidCallback;
        }
      }
      routes := routes[name := callback];
      r := Stored;
    }

    /** `middleware($closure)`: append to the list. */
    method AddMiddleware(m: Mw)
      modifies this`middlewares
      ensures middlewares == old(middlewares) + [m]
    {
      middlewares := middlewares + [m];
    }

    /**
     * `bind($address)`, reduced to its effect on this object: binding an
     * http(s) address sets `httpPath` to the address's path, or "/".
     * `scheme` and `path` are what parse_url found; `refused` says the
     * server constructor threw ConnectionException.
     */
    method Bind(scheme: Option<string>, path: Option<string>, refused: bool) returns (result: BindResult)
      modifies this`httpPath
      ensures scheme.None? || Falsy(Str(scheme.value)) ==> result == NotBound
      ensures scheme.Some? && !Falsy(Str(scheme.value)) && scheme.value !in ["http", "https", "ws", "wss"] ==>
                result == UnhandledMatch
      ensures scheme.Some? && scheme.value in ["http", "https", "ws", "wss"] ==>
                result == if refused then NotBound
                          else if scheme.value in ["http", "https"] then Bound(HttpListener)
                          else Bound(WebSocketListener)
      ensures httpPath == if result == Bound(HttpListener) then path.GetOr("/") else old(httpPath)
    {
      if scheme.None? || Falsy(Str(scheme.value)) {
        return NotBound;
      }
      var s := scheme.value;
      if s !in ["http", "https", "ws", "wss"] {
        return UnhandledMatch;
      }
      if refused {
        return NotBound;
      }
      if s in ["ws", "wss"] {
        result := Bound(WebSocketListener);
      } else {
        httpPath := path.GetOr("/");
        result := Bound(HttpListener);
      }
    }

    /**
     * `handleMiddleware($next)`: wrap `$next` in each middleware, visiting
     * the list from its end, and call the result.
     */
    method HandleMiddleware(next: () -> Outcome) returns (r: Outcome)
      ensures r == Chain(middlewares, next())
    {
      var chain := next;
      var i := |middlewares|;
      while i > 0
        invariant 0 <= i <= |middlewares|
        invariant chain() == Chain(middlewares[i..], next())
      {
        i := i - 1;
        var middleware := middlewares[i];
        var inner := chain;
        chain := () => Step(middleware, inner());
        assert middlewares[i..][1..] == middlewares[i + 1..];
      }
      assert middlewares[0..] == middlewares;
      r := chain();
    }

    /** `distributeRoute($method, $params)`. */
    method DistributeRoute(name: Value, params: Value, invoke: Invoker) returns (r: Outcome)
      ensures r == RouteOutcome(routes, middlewares, name, params, invoke)
    {
      if !name.Str? {
        return TypeErr(METHOD_TYPE_ERROR);
      }
      if !params.Arr? {
        return TypeErr(PARAMS_TYPE_ERROR);
      }
      if name.s !in routes || routes[name.s] == CallableArray([]) {
        return JsonErr(JsonException(MethodNotFoundData()));
      }
      var callback := routes[name.s];
      r := HandleMiddleware(() => invoke(callback, params));
    }

    /** `distributeRequestJson($requestJson)`. */
    method DistributeRequestJson(request: seq<Entry>, invoke: Invoker) returns (reply: seq<Entry>)
      ensures reply == Dispatch(routes, middlewares, debug, request, invoke)
    {
      if Coalesce(Arr(request), "jsonrpc", Null) != Str(VERSION) || !IsSet(Arr(request), "method") {
        return Json(Some(INVALID_REQUEST), Some("Invalid Request"), Arr([]), Null);
      }
      var params := Coalesce(Arr(request), "params", Arr([]));
      var id := Coalesce(Arr(request), "id", Null);
      var outcome := DistributeRoute(Get(Arr(request), "method").value, params, invoke);
      reply := Answer(outcome, debug, id);
    }

    /** `onRequest($request)`: what is passed to `respondJson`, if anything. */
    method OnRequest(request: HttpRequest, invoke: Invoker) returns (response: Option<HttpResponse>)
      ensures response == HttpAnswer(httpPath, routes, middlewares, debug, request, invoke)
    {
      var uri := request.requestUri.GetOr("/");
      var httpMethod := request.requestMethod.GetOr("GET");
      if Upper(httpMethod) != "POST" || uri != httpPath {
        return Some(HttpResponse(404, Json(Some(METHOD_NOT_FOUND), Some("Method not found"), Arr([]), Null)));
      }
      if FalsyDecoded(request.content) {
        return Some(HttpResponse(200, Json(Some(PARSE_ERROR), Some("Parse error"), Arr([]), Null)));
      }
      if !request.content.value.Arr? {
        return None;
      }
      var reply := DistributeRequestJson(request.content.value.entries, invoke);
      response := Some(HttpResponse(200, reply));
    }

    /** `onWebSocketRequest($connection, $message)`: the message sent back, if any. */
    method OnWebSocketRequest(message: Option<Value>, invoke: Invoker) returns (sent: Option<seq<Entry>>)
      ensures sent == WebSocketAnswer(routes, middlewares, debug, message, invoke)
    {
      if FalsyDecoded(message) {
        return Some(Json(Some(PARSE_ERROR), Some("Parse error"), Arr([]), Null));
      }
      if !message.value.Arr? {
        return None;
      }
      var reply := DistributeRequestJson(message.value.entries, invoke);
      sent := Some(reply);
    }
  }
}
