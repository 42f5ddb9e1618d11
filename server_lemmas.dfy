/**
 * What the server promises about its replies: the validation step, the
 * route lookup, the success reply, the mapping of exceptions to error
 * codes, and the decisions of the HTTP and WebSocket front doors.
 */
module RpcServerLemmas {
  import opened PhpValues
  import opened Exceptions
  import opened Middleware
  import opened RpcServer

  /** The `error` member of a reply, or the empty array when there is none. */
  function ErrorOf(reply: seq<Entry>): seq<Entry> {
    var e := Find(reply, StrKey("error"));
    if e.Some? && e.value.Arr? then e.value.entries else []
  }

  /** A reply built by `json` with an error code: its id and the code and message of its error. */
  predicate ErrorReply(reply: seq<Entry>, code: int, message: string, id: Value) {
    && Find(reply, StrKey("jsonrpc")) == Some(Str(VERSION))
    && Find(reply, StrKey("id")) == Some(id)
    && StrKey("result") !in KeySet(reply)
    && Find(reply, StrKey("error")).Some? && Find(reply, StrKey("error")).value.Arr?
    && Find(ErrorOf(reply), StrKey("code")) == Some(Int(code))
    && Find(ErrorOf(reply), StrKey("message")) == Some(Str(message))
  }

  lemma PlainErrorReply(code: int, message: string, id: Value)
    ensures var r := Json(Some(code), Some(message), Arr([]), id);
      ErrorReply(r, code, message, id) && KeySet(ErrorOf(r)) == {StrKey("code"), StrKey("message")}
  {
  }

  lemma JsonErrorMember(code: int, message: string, extra: seq<Entry>, id: Value)
    ensures var r := Json(Some(code), Some(message), Arr(extra), id);
      && Find(r, StrKey("jsonrpc")) == Some(Str(VERSION))
      && Find(r, StrKey("id")) == Some(id)
      && StrKey("result") !in KeySet(r)
      && Find(r, StrKey("error")) == Some(Arr(ErrorObject(code, Some(message), extra)))
  {
  }

  lemma JsonErrorReply(code: int, message: string, extra: seq<Entry>, id: Value)
    ensures var r := Json(Some(code), Some(message), Arr(extra), id);
      ErrorReply(r, code, message, id) && ErrorOf(r) == ErrorObject(code, Some(message), extra)
  {
    JsonErrorMember(code, message, extra, id);
  }

  /** The envelope check reads the raw lookups this way. */
  lemma ValidEnvelopeMeans(request: seq<Entry>)
    ensures ValidEnvelope(request) <==>
      && Find(request, StrKey("jsonrpc")) == Some(Str(VERSION))
      && Find(request, StrKey("method")).Some? && Find(request, StrKey("method")).value != Null
  {
  }

  /**
   * A request whose `jsonrpc` is not exactly "2.0", or whose `method` is
   * absent or null, gets -32600 with a null id, whatever id it carried,
   * and no route is looked up: the reply does not depend on the routes,
   * the middlewares or the handlers.
   */
  lemma InvalidRequestReplyIgnoresIdAndRoutes(routes: map<string, Callback>, mws: seq<Mw>, debug: bool,
                                              request: seq<Entry>, invoke: Invoker)
    requires !ValidEnvelope(request)
    ensures Dispatch(routes, mws, debug, request, invoke) == InvalidRequestReply()
    ensures ErrorReply(InvalidRequestReply(), INVALID_REQUEST, "Invalid Request", Null)
    ensures KeySet(ErrorOf(InvalidRequestReply())) == {StrKey("code"), StrKey("message")}
  {
    PlainErrorReply(INVALID_REQUEST, "Invalid Request", Null);
  }

  /**
   * An unregistered method name: the reply is exactly the bare
   * `{code: -32601, message: "Method not found"}` array, without `jsonrpc`
   * and without `id`, and no middleware or handler runs.
   */
  lemma UnknownMethodReply(routes: map<string, Callback>, mws: seq<Mw>, debug: bool,
                           request: seq<Entry>, invoke: Invoker, name: string)
    requires ValidEnvelope(request)
    requires Find(request, StrKey("method")) == Some(Str(name)) && Lookup(routes, name).None?
    requires RequestParams(request).Arr?
    ensures Dispatch(routes, mws, debug, request, invoke) == MethodNotFoundData()
    ensures KeySet(MethodNotFoundData()) == {StrKey("code"), StrKey("message")}
    ensures Find(MethodNotFoundData(), StrKey("code")) == Some(Int(METHOD_NOT_FOUND))
    ensures Find(MethodNotFoundData(), StrKey("message")) == Some(Str("Method not found"))
    ensures StrKey("jsonrpc") !in KeySet(MethodNotFoundData()) && StrKey("id") !in KeySet(MethodNotFoundData())
  {
    DispatchValid(routes, mws, debug, request, invoke);
    var d := MethodNotFoundData();
    KeySetPair(d[0], d[1]);
    FindPair(d[0], d[1], StrKey("code"));
    FindPair(d[0], d[1], StrKey("message"));
  }

  /** A valid request is answered from the outcome of the routed call, with the request's id. */
  lemma DispatchValid(routes: map<string, Callback>, mws: seq<Mw>, debug: bool,
                      request: seq<Entry>, invoke: Invoker)
    requires ValidEnvelope(request)
    ensures Dispatch(routes, mws, debug, request, invoke) ==
      Answer(RouteOutcome(routes, mws, Find(request, StrKey("method")).value, RequestParams(request), invoke), debug, RequestId(request))
  {
  }

  /**
   * Strict parameter types are checked when `distributeRoute` is called,
   * before the lookup: a non-string method, or params that are not an
   * array, give -32602 with the request's id even for an unknown method.
   */
  lemma ParameterTypesCheckedBeforeLookup(routes: map<string, Callback>, mws: seq<Mw>, debug: bool,
                                          request: seq<Entry>, invoke: Invoker)
    requires ValidEnvelope(request)
    requires !Find(request, StrKey("method")).value.Str? || !RequestParams(request).Arr?
    ensures ErrorReply(Dispatch(routes, mws, debug, request, invoke), INVALID_PARAMS, "Invalid params", RequestId(request))
  {
    var name := Find(request, StrKey("method")).value;
    var o := RouteOutcome(routes, mws, name, RequestParams(request), invoke);
    assert o.TypeErr?;
    assert Dispatch(routes, mws, debug, request, invoke) == Answer(o, debug, RequestId(request));
    ExceptionMapping(o, debug, RequestId(request));
  }

  /**
   * A registered method whose call (through the middlewares) returns `v`:
   * the reply is `{jsonrpc: "2.0", id: the request's id or null, result: v}`
   * and nothing else.
   */
  lemma SuccessReply(routes: map<string, Callback>, mws: seq<Mw>, debug: bool,
                     request: seq<Entry>, invoke: Invoker, name: string, v: Value)
    requires ValidEnvelope(request)
    requires Find(request, StrKey("method")) == Some(Str(name)) && Lookup(routes, name).Some?
    requires RequestParams(request).Arr?
    requires Chain(mws, invoke(Lookup(routes, name).value, RequestParams(request))) == Ok(v)
    ensures var r := Dispatch(routes, mws, debug, request, invoke);
      && Find(r, StrKey("jsonrpc")) == Some(Str(VERSION))
      && Find(r, StrKey("id")) == Some(RequestId(request))
      && Find(r, StrKey("result")) == Some(v)
      && KeySet(r) == {StrKey("jsonrpc"), StrKey("id"), StrKey("result")}
  {
  }

  /** Missing or null `params` reach the handler as the empty array; a missing `id` becomes null. */
  lemma MissingParamsAndId(routes: map<string, Callback>, mws: seq<Mw>, debug: bool,
                           request: seq<Entry>, invoke: Invoker, name: string)
    requires ValidEnvelope(request)
    requires Find(request, StrKey("method")) == Some(Str(name)) && Lookup(routes, name).Some?
    requires !IsSet(Arr(request), "params") && !IsSet(Arr(request), "id")
    ensures Dispatch(routes, mws, debug, request, invoke) ==
            Answer(Chain(mws, invoke(Lookup(routes, name).value, Arr([]))), debug, Null)
  {
  }

  /**
   * The catch clauses: ArgumentCountError and TypeError become -32602
   * "Invalid params", any other Throwable -32603 "Internal error", with
   * the request's id; the error carries a `debug` member, holding the
   * exception's message, if and only if debugging is on.
   */
  lemma ExceptionMapping(outcome: Outcome, debug: bool, id: Value)
    requires outcome.ArgCountErr? || outcome.TypeErr? || outcome.OtherErr?
    ensures outcome.OtherErr? ==>
      StandardError(Answer(outcome, debug, id), INTERNAL_ERROR, "Internal error", debug, outcome.message, id)
    ensures !outcome.OtherErr? ==>
      StandardError(Answer(outcome, debug, id), INVALID_PARAMS, "Invalid params", debug, outcome.message, id)
  {
    StandardErrorReply(ErrorCode(outcome).value, ErrorText(outcome).value, debug, outcome.message, id);
  }

  /**
   * A standard error reply: version, id, code and message, and a `debug`
   * member holding `message` exactly when `debug` is on.
   */
  predicate StandardError(r: seq<Entry>, code: int, text: string, debug: bool, message: string, id: Value) {
    && ErrorReply(r, code, text, id)
    && (StrKey("debug") in KeySet(ErrorOf(r)) <==> debug)
    && (debug ==> Find(ErrorOf(r), StrKey("debug")) == Some(Str(message)))
    && KeySet(ErrorOf(r)) <= {StrKey("code"), StrKey("message"), StrKey("debug")}
  }

  lemma StandardErrorReply(code: int, text: string, debug: bool, message: string, id: Value)
    ensures StandardError(Json(Some(code), Some(text), DebugData(debug, message), id), code, text, debug, message, id)
  {
    JsonErrorReply(code, text, DebugData(debug, message).entries, id);
    DebugMember(code, text, debug, message);
  }

  lemma DebugMember(code: int, text: string, debug: bool, message: string)
    ensures var e := ErrorObject(code, Some(text), DebugData(debug, message).entries);
      && (StrKey("debug") in KeySet(e) <==> debug)
      && (debug ==> Find(e, StrKey("debug")) == Some(Str(message)))
      && KeySet(e) <= {StrKey("code"), StrKey("message"), StrKey("debug")}
  {
    var extra := DebugData(debug, message).entries;
    if debug {
      var d := Entry(StrKey("debug"), Str(message));
      assert extra == [d];
      KeySetPair(d, d);
      FindPair(d, d, StrKey("debug"));
    } else {
      assert extra == [];
      assert KeySet(extra) == {};
    }
  }

  /** A JsonException thrown by a handler or a middleware: its payload is the reply, verbatim. */
  lemma JsonExceptionIsReply(routes: map<string, Callback>, mws: seq<Mw>, debug: bool,
                             request: seq<Entry>, invoke: Invoker, e: JsonException)
    requires ValidEnvelope(request)
    requires RouteOutcome(routes, mws, Find(request, StrKey("method")).value, RequestParams(request), invoke) == JsonErr(e)
    ensures Dispatch(routes, mws, debug, request, invoke) == e.GetData()
  {
  }

  /**
   * Every reply of `distributeRequestJson` is the payload of a
   * JsonException, or a `json` envelope with version "2.0" and exactly one
   * of `result` and `error`: nothing is raised to the caller.
   */
  lemma DispatchReplyShape(routes: map<string, Callback>, mws: seq<Mw>, debug: bool,
                           request: seq<Entry>, invoke: Invoker)
    ensures var r := Dispatch(routes, mws, debug, request, invoke);
      || (ValidEnvelope(request) &&
          var o := RouteOutcome(routes, mws, Find(request, StrKey("method")).value, RequestParams(request), invoke);
          o.JsonErr? && r == o.exception.data)
      || (&& Find(r, StrKey("jsonrpc")) == Some(Str(VERSION))
          && (KeySet(r) == {StrKey("jsonrpc"), StrKey("id"), StrKey("result")} ||
              KeySet(r) == {StrKey("jsonrpc"), StrKey("id"), StrKey("error")}))
  {
    if ValidEnvelope(request) {
      DispatchValid(routes, mws, debug, request, invoke);
      var o := RouteOutcome(routes, mws, Find(request, StrKey("method")).value, RequestParams(request), invoke);
      if !o.JsonErr? {
        AnswerShape(o, debug, RequestId(request));
      }
    } else {
      InvalidRequestReplyIgnoresIdAndRoutes(routes, mws, debug, request, invoke);
    }
  }

  /** A reply built from a returned value or a caught exception is a `json` envelope. */
  lemma AnswerShape(outcome: Outcome, debug: bool, id: Value)
    requires !outcome.JsonErr?
    ensures var r := Answer(outcome, debug, id);
      && Find(r, StrKey("jsonrpc")) == Some(Str(VERSION))
      && Find(r, StrKey("id")) == Some(id)
      && KeySet(r) == {StrKey("jsonrpc"), StrKey("id"), if outcome.Ok? then StrKey("result") else StrKey("error")}
  {
  }

  /** A middleware that never calls `$next` decides the reply: the handler's behaviour is irrelevant. */
  lemma HaltingMiddlewareDecides(routes: map<string, Callback>, mws: seq<Mw>, debug: bool,
                                 request: seq<Entry>, invoke1: Invoker, invoke2: Invoker, i: nat)
    requires i < |mws| && mws[i].Halt?
    ensures Dispatch(routes, mws, debug, request, invoke1) == Dispatch(routes, mws, debug, request, invoke2)
  {
    if ValidEnvelope(request) {
      var name := Find(request, StrKey("method")).value;
      var params := RequestParams(request);
      if name.Str? && params.Arr? && Lookup(routes, name.s).Some? {
        HaltIgnoresHandler(mws, i, invoke1(Lookup(routes, name.s).value, params), invoke2(Lookup(routes, name.s).value, params));
      }
    }
  }

  /**
   * In a registry `route` built, a name's callback is found exactly when
   * the name is registered: no stored callback is falsy.
   */
  lemma LookupOfValidRoutes(routes: map<string, Callback>, name: string)
    requires RoutesValid(routes)
    ensures Lookup(routes, name).Some? <==> name in routes
    ensures name in routes ==> Lookup(routes, name) == Some(routes[name])
  {
    if name in routes {
      assert routes[name].Closure? || |routes[name].items| == 2;
    }
  }

  /**
   * `!$callback` also rejects a stored empty array, a callback `route`
   * itself never stores: such a name reads as an unknown method.
   */
  lemma EmptyArrayCallbackNotFound(mws: seq<Mw>, name: string, params: seq<Entry>, invoke: Invoker)
    ensures RouteOutcome(map[name := CallableArray([])], mws, Str(name), Arr(params), invoke)
            == JsonErr(JsonException(MethodNotFoundData()))
  {
  }

  lemma UpperCharIs(c: char, u: char)
    requires 'A' <= u <= 'Z'
    ensures UpperChar(c) == u <==> c == u || c == (u as int + 32) as char
  {
  }

  /** `strtoupper($m) === 'POST'` holds for exactly the sixteen spellings of "post". */
  lemma PostSpellings(m: string)
    ensures Upper(m) == "POST" <==>
      && |m| == 4
      && (m[0] == 'P' || m[0] == 'p') && (m[1] == 'O' || m[1] == 'o')
      && (m[2] == 'S' || m[2] == 's') && (m[3] == 'T' || m[3] == 't')
  {
    if |m| == 4 {
      UpperCharIs(m[0], 'P');
      UpperCharIs(m[1], 'O');
      UpperCharIs(m[2], 'S');
      UpperCharIs(m[3], 'T');
      var u := Upper(m);
      assert u == "POST" <==> u[0] == 'P' && u[1] == 'O' && u[2] == 'S' && u[3] == 'T';
    } else {
      assert |Upper(m)| != |"POST"|;
    }
  }

  /**
   * The HTTP gate: a method other than POST (in any letter case) or a URI
   * other than `httpPath` gets status 404 and a -32601 envelope with a
   * null id, and nothing is dispatched.
   */
  lemma HttpGateRejects(httpPath: string, routes: map<string, Callback>, mws: seq<Mw>, debug: bool,
                        request: HttpRequest, invoke: Invoker)
    requires Upper(request.requestMethod.GetOr("GET")) != "POST" || request.requestUri.GetOr("/") != httpPath
    ensures HttpAnswer(httpPath, routes, mws, debug, request, invoke) == Some(HttpResponse(404, NotFoundReply()))
    ensures ErrorReply(NotFoundReply(), METHOD_NOT_FOUND, "Method not found", Null)
  {
    PlainErrorReply(METHOD_NOT_FOUND, "Method not found", Null);
  }

  /** A request without REQUEST_METHOD counts as GET and is rejected. */
  lemma MissingHttpMethodRejected(httpPath: string, routes: map<string, Callback>, mws: seq<Mw>, debug: bool,
                                  request: HttpRequest, invoke: Invoker)
    requires request.requestMethod.None?
    ensures HttpAnswer(httpPath, routes, mws, debug, request, invoke) == Some(HttpResponse(404, NotFoundReply()))
  {
    PostSpellings("GET");
  }

  /**
   * Past the gate, a body that decodes to a falsy value (invalid JSON,
   * `{}`, `[]`, `0`, ...) gets -32700 "Parse error" with a null id.
   */
  lemma HttpParseError(httpPath: string, routes: map<string, Callback>, mws: seq<Mw>, debug: bool,
                       request: HttpRequest, invoke: Invoker)
    requires Upper(request.requestMethod.GetOr("GET")) == "POST" && request.requestUri.GetOr("/") == httpPath
    requires FalsyDecoded(request.content)
    ensures HttpAnswer(httpPath, routes, mws, debug, request, invoke) == Some(HttpResponse(200, ParseErrorReply()))
    ensures ErrorReply(ParseErrorReply(), PARSE_ERROR, "Parse error", Null)
  {
    PlainErrorReply(PARSE_ERROR, "Parse error", Null);
  }

  /**
   * A POST to `httpPath` is answered exactly as the same message on a
   * WebSocket connection, with status 200: the two transports apply the
   * same parse check and the same dispatch.
   */
  lemma HttpMatchesWebSocket(httpPath: string, routes: map<string, Callback>, mws: seq<Mw>, debug: bool,
                             request: HttpRequest, invoke: Invoker)
    requires Upper(request.requestMethod.GetOr("GET")) == "POST" && request.requestUri.GetOr("/") == httpPath
    ensures HttpAnswer(httpPath, routes, mws, debug, request, invoke) ==
      match WebSocketAnswer(routes, mws, debug, request.content, invoke)
      case None => None
      case Some(body) => Some(HttpResponse(200, body))
  {
  }

  /**
   * A WebSocket message gets exactly one reply, unless it decodes to a
   * truthy value that is not an array; a falsy one gets the parse error.
   */
  lemma WebSocketReplies(routes: map<string, Callback>, mws: seq<Mw>, debug: bool, message: Option<Value>, invoke: Invoker)
    ensures WebSocketAnswer(routes, mws, debug, message, invoke).Some? <==> FalsyDecoded(message) || message.value.Arr?
    ensures FalsyDecoded(message) ==> WebSocketAnswer(routes, mws, debug, message, invoke) == Some(ParseErrorReply())
    ensures !FalsyDecoded(message) && message.value.Arr? ==>
      WebSocketAnswer(routes, mws, debug, message, invoke) == Some(Dispatch(routes, mws, debug, message.value.entries, invoke))
  {
  }

  /** A non-empty array message is dispatched, and the one reply is sent back. */
  lemma WebSocketDispatchesArray(routes: map<string, Callback>, mws: seq<Mw>, debug: bool,
                                 request: seq<Entry>, invoke: Invoker)
    requires request != []
    ensures WebSocketAnswer(routes, mws, debug, Some(Arr(request)), invoke) == Some(Dispatch(routes, mws, debug, request, invoke))
  {
    assert !Falsy(Arr(request));
  }

  /**
   * A request with version "2.0", a string method, array params and an id
   * is answered from the outcome of routing that method with those params,
   * and with that id.
   */
  lemma DispatchRouted(routes: map<string, Callback>, mws: seq<Mw>, debug: bool, request: seq<Entry>,
                       invoke: Invoker, name: string, params: seq<Entry>, id: Value)
    requires Find(request, StrKey("jsonrpc")) == Some(Str(VERSION))
    requires Find(request, StrKey("method")) == Some(Str(name))
    requires Find(request, StrKey("params")) == Some(Arr(params))
    requires Find(request, StrKey("id")) == Some(id)
    ensures ValidEnvelope(request)
    ensures Dispatch(routes, mws, debug, request, invoke) ==
            Answer(RouteOutcome(routes, mws, Str(name), Arr(params), invoke), debug, id)
  {
    assert ValidEnvelope(request);
    DispatchValid(routes, mws, debug, request, invoke);
    assert RequestParams(request) == Arr(params);
    assert RequestId(request) == id;
  }
}
