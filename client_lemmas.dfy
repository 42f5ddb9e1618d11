/**
 * What a client call yields, and how the client and the server fit
 * together: an envelope built by `request` always passes the server's
 * envelope check, and `call` turns each kind of server reply into a
 * returned result or a thrown Exception.
 */
module RpcClientLemmas {
  import opened PhpValues
  import opened Exceptions
  import opened Middleware
  import opened RpcServer
  import opened RpcClient
  import RpcServerLemmas

  /** A bad or unknown scheme throws before anything is sent: the network is never consulted. */
  lemma AddressCheckedBeforeSending(address: string, schemeOf: string -> Option<string>, name: string,
                                    params: seq<Entry>, id: Option<string>,
                                    exchange1: Outbound -> Exchange, exchange2: Outbound -> Exchange)
    requires TransportFor(schemeOf(address)).Raised?
    ensures Call(address, schemeOf, name, params, id, exchange1) == Call(address, schemeOf, name, params, id, exchange2)
    ensures Call(address, schemeOf, name, params, id, exchange1) == Raised(TransportFor(schemeOf(address)).error)
  {
  }

  /** A non-empty array without `error` and with `result` set to `v`. */
  lemma ResultEntriesUnwrap(es: seq<Entry>, v: Value)
    requires es != [] && Find(es, StrKey("error")).None? && Find(es, StrKey("result")) == Some(v)
    ensures Unwrap(Some(Arr(es))) == if v == Null then Raised(Thrown("Unknown error")) else Returned(v)
  {
  }

  /** A non-empty array whose `error` is an array with a string `message`. */
  lemma ErrorEntriesUnwrap(es: seq<Entry>, e: seq<Entry>, text: string)
    requires es != [] && Find(es, StrKey("error")) == Some(Arr(e)) && Find(e, StrKey("message")) == Some(Str(text))
    ensures Unwrap(Some(Arr(es))) == Raised(Thrown(text))
  {
  }

  /** A non-empty array with neither `error` nor `result` set. */
  lemma NeitherMemberUnwrap(es: seq<Entry>)
    requires es != []
    requires Find(es, StrKey("error")).None? || Find(es, StrKey("error")) == Some(Null)
    requires Find(es, StrKey("result")).None? || Find(es, StrKey("result")) == Some(Null)
    ensures Unwrap(Some(Arr(es))) == Raised(Thrown("Unknown error"))
  {
  }

  /** An `error` that is set but is not an array, or has no `message`, or a null one. */
  lemma ErrorWithoutMessageUnwrap(es: seq<Entry>, err: Value)
    requires es != [] && Find(es, StrKey("error")) == Some(err) && err != Null
    requires !err.Arr? || Find(err.entries, StrKey("message")).None? || Find(err.entries, StrKey("message")) == Some(Null)
    ensures Unwrap(Some(Arr(es))) == Raised(Thrown("Unknown error"))
  {
  }

  /**
   * An `error` array whose `message` is set but is not a string: under
   * strict types `new Exception($message)` throws a TypeError instead.
   */
  lemma NonStringMessageUnwrap(es: seq<Entry>, e: seq<Entry>, m: Value)
    requires es != [] && Find(es, StrKey("error")) == Some(Arr(e)) && Find(e, StrKey("message")) == Some(m)
    requires m != Null && !m.Str?
    ensures Unwrap(Some(Arr(es))) == Raised(ThrownTypeError)
  {
  }

  /** A result reply: its result comes back, except a null result, which reads as an error. */
  lemma ResultReplyUnwraps(v: Value, id: Value)
    ensures Unwrap(Some(Arr(Json(None, None, v, id)))) ==
      if v == Null then Raised(Thrown("Unknown error")) else Returned(v)
  {
    var r := Json(None, None, v, id);
    assert StrKey("id") in KeySet(r);
    ResultEntriesUnwrap(r, v);
  }

  /** An error reply built by `json`: the call throws with the error's message. */
  lemma ErrorReplyUnwraps(code: int, text: string, extra: seq<Entry>, id: Value)
    ensures Unwrap(Some(Arr(Json(Some(code), Some(text), Arr(extra), id)))) == Raised(Thrown(text))
  {
    var r := Json(Some(code), Some(text), Arr(extra), id);
    assert StrKey("id") in KeySet(r);
    ErrorEntriesUnwrap(r, ErrorObject(code, Some(text), extra), text);
  }

  /** The reply the server sends for each way a routed call can end, as `call` reports it. */
  lemma AnswerUnwraps(outcome: Outcome, debug: bool, id: Value)
    requires !outcome.JsonErr?
    ensures outcome.Ok? && outcome.result != Null ==> Unwrap(Some(Arr(Answer(outcome, debug, id)))) == Returned(outcome.result)
    ensures outcome.Ok? && outcome.result == Null ==> Unwrap(Some(Arr(Answer(outcome, debug, id)))) == Raised(Thrown("Unknown error"))
    ensures (outcome.ArgCountErr? || outcome.TypeErr?) ==> Unwrap(Some(Arr(Answer(outcome, debug, id)))) == Raised(Thrown("Invalid params"))
    ensures outcome.OtherErr? ==> Unwrap(Some(Arr(Answer(outcome, debug, id)))) == Raised(Thrown("Internal error"))
  {
    if outcome.Ok? {
      ResultReplyUnwraps(outcome.result, id);
    } else {
      ErrorReplyUnwraps(ErrorCode(outcome).value, ErrorText(outcome).value, DebugData(debug, outcome.message).entries, id);
    }
  }

  /**
   * The unknown-method reply is the bare payload `{code, message}` with no
   * `error` member, so `call` cannot find its message and reports
   * "Unknown error".
   */
  lemma UnknownMethodReadsAsUnknownError()
    ensures Unwrap(Some(Arr(MethodNotFoundData()))) == Raised(Thrown("Unknown error"))
  {
    var d := MethodNotFoundData();
    KeySetPair(d[0], d[1]);
    FindPair(d[0], d[1], StrKey("error"));
    FindPair(d[0], d[1], StrKey("result"));
  }

  /**
   * The fixed replies of the server's front doors, as `Unwrap` reads them
   * when the transport delivers the body.
   */
  lemma FixedRepliesUnwrap()
    ensures Unwrap(Some(Arr(InvalidRequestReply()))) == Raised(Thrown("Invalid Request"))
    ensures Unwrap(Some(Arr(ParseErrorReply()))) == Raised(Thrown("Parse error"))
    ensures Unwrap(Some(Arr(NotFoundReply()))) == Raised(Thrown("Method not found"))
  {
    ErrorReplyUnwraps(INVALID_REQUEST, "Invalid Request", [], Null);
    ErrorReplyUnwraps(PARSE_ERROR, "Parse error", [], Null);
    ErrorReplyUnwraps(METHOD_NOT_FOUND, "Method not found", [], Null);
  }

  /**
   * The envelope `request` sends passes `distributeRequestJson`'s check, and
   * the server routes its method and params and echoes its id.
   */
  lemma EnvelopeDispatch(routes: map<string, Callback>, mws: seq<Mw>, debug: bool,
                         name: string, params: seq<Entry>, id: Option<string>, invoke: Invoker)
    ensures ValidEnvelope(Envelope(name, params, id))
    ensures Dispatch(routes, mws, debug, Envelope(name, params, id), invoke) ==
            Answer(RouteOutcome(routes, mws, Str(name), Arr(params), invoke), debug, IdValue(id))
  {
    RpcServerLemmas.DispatchRouted(routes, mws, debug, Envelope(name, params, id), invoke, name, params, IdValue(id));
  }

  /**
   * Over HTTP the envelope, posted to the bound path (under any spelling of
   * POST), reaches `distributeRequestJson` unchanged.
   */
  lemma HttpTakesEnvelope(httpPath: string, routes: map<string, Callback>, mws: seq<Mw>, debug: bool,
                          httpMethod: string, name: string, params: seq<Entry>, id: Option<string>, invoke: Invoker)
    requires Upper(httpMethod) == "POST"
    ensures var env := Envelope(name, params, id);
      HttpAnswer(httpPath, routes, mws, debug, HttpRequest(Some(httpMethod), Some(httpPath), Some(Arr(env))), invoke)
        == Some(HttpResponse(200, Dispatch(routes, mws, debug, env, invoke)))
  {
    var env := Envelope(name, params, id);
    RpcServerLemmas.HttpMatchesWebSocket(httpPath, routes, mws, debug,
      HttpRequest(Some(httpMethod), Some(httpPath), Some(Arr(env))), invoke);
    WebSocketTakesEnvelope(routes, mws, debug, name, params, id, invoke);
  }


  /** Over a WebSocket the envelope reaches `distributeRequestJson` unchanged. */
  lemma WebSocketTakesEnvelope(routes: map<string, Callback>, mws: seq<Mw>, debug: bool,
                               name: string, params: seq<Entry>, id: Option<string>, invoke: Invoker)
    ensures var env := Envelope(name, params, id);
      WebSocketAnswer(routes, mws, debug, Some(Arr(env)), invoke) == Some(Dispatch(routes, mws, debug, env, invoke))
  {
    var env := Envelope(name, params, id);
    assert |env| == 4;
    RpcServerLemmas.WebSocketDispatchesArray(routes, mws, debug, env, invoke);
  }

  /**
   * A call against a server that answers the envelope with
   * `distributeRequestJson` (the transport carries the arrays unchanged):
   * what each route outcome becomes at the caller.
   */
  lemma CallAgainstServer(address: string, schemeOf: string -> Option<string>, name: string,
                          params: seq<Entry>, id: Option<string>, exchange: Outbound -> Exchange,
                          routes: map<string, Callback>, mws: seq<Mw>, debug: bool, invoke: Invoker)
    requires TransportFor(schemeOf(address)).Returned?
    requires exchange(Outbound(TransportFor(schemeOf(address)).value, address, Envelope(name, params, id)))
             == Received(Some(Arr(Dispatch(routes, mws, debug, Envelope(name, params, id), invoke))))
    ensures Lookup(routes, name).None? ==> Call(address, schemeOf, name, params, id, exchange) == Raised(Thrown("Unknown error"))
    ensures Lookup(routes, name).Some? ==> var o := Chain(mws, invoke(Lookup(routes, name).value, Arr(params)));
      o.Ok? && o.result != Null ==> Call(address, schemeOf, name, params, id, exchange) == Returned(o.result)
    ensures Lookup(routes, name).Some? ==> var o := Chain(mws, invoke(Lookup(routes, name).value, Arr(params)));
      o.Ok? && o.result == Null ==> Call(address, schemeOf, name, params, id, exchange) == Raised(Thrown("Unknown error"))
    ensures Lookup(routes, name).Some? ==> var o := Chain(mws, invoke(Lookup(routes, name).value, Arr(params)));
      (o.ArgCountErr? || o.TypeErr?) ==> Call(address, schemeOf, name, params, id, exchange) == Raised(Thrown("Invalid params"))
    ensures Lookup(routes, name).Some? ==> var o := Chain(mws, invoke(Lookup(routes, name).value, Arr(params)));
      o.OtherErr? ==> Call(address, schemeOf, name, params, id, exchange) == Raised(Thrown("Internal error"))
    ensures Lookup(routes, name).Some? ==> var o := Chain(mws, invoke(Lookup(routes, name).value, Arr(params)));
      o.JsonErr? ==> Call(address, schemeOf, name, params, id, exchange) == Unwrap(Some(Arr(o.exception.data)))
  {
    EnvelopeDispatch(routes, mws, debug, name, params, id, invoke);
    var o := RouteOutcome(routes, mws, Str(name), Arr(params), invoke);
    assert Call(address, schemeOf, name, params, id, exchange) == Unwrap(Some(Arr(Answer(o, debug, IdValue(id)))));
    if Lookup(routes, name).None? {
      UnknownMethodReadsAsUnknownError();
    } else if !o.JsonErr? {
      AnswerUnwraps(o, debug, IdValue(id));
    }
  }

  /** A registered route whose call returns a non-null value: `call` returns that value. */
  lemma RegisteredCallReturns(address: string, schemeOf: string -> Option<string>, name: string,
                              params: seq<Entry>, id: Option<string>, exchange: Outbound -> Exchange,
                              routes: map<string, Callback>, mws: seq<Mw>, debug: bool, invoke: Invoker, v: Value)
    requires TransportFor(schemeOf(address)).Returned?
    requires exchange(Outbound(TransportFor(schemeOf(address)).value, address, Envelope(name, params, id)))
             == Received(Some(Arr(Dispatch(routes, mws, debug, Envelope(name, params, id), invoke))))
    requires Lookup(routes, name).Some? && Chain(mws, invoke(Lookup(routes, name).value, Arr(params))) == Ok(v)
    requires v != Null
    ensures Call(address, schemeOf, name, params, id, exchange) == Returned(v)
  {
    CallAgainstServer(address, schemeOf, name, params, id, exchange, routes, mws, debug, invoke);
  }

  /** The id given to `request` comes back in every reply built by `json`. */
  lemma ReplyCarriesId(routes: map<string, Callback>, mws: seq<Mw>, debug: bool,
                       name: string, params: seq<Entry>, id: Option<string>, invoke: Invoker)
    requires !RouteOutcome(routes, mws, Str(name), Arr(params), invoke).JsonErr?
    ensures Find(Dispatch(routes, mws, debug, Envelope(name, params, id), invoke), StrKey("id")) == Some(IdValue(id))
  {
    EnvelopeDispatch(routes, mws, debug, name, params, id, invoke);
  }

  /**
   * The echo route: a handler that returns its single argument, registered
   * under `name` and called with the params `[arg]`, gives back `arg`
   * (the test registers it as "test" and calls it with `['test']`).
   */
  lemma EchoRoute(address: string, schemeOf: string -> Option<string>, exchange: Outbound -> Exchange,
                  name: string, arg: Value, echo: Callback, debug: bool, invoke: Invoker)
    requires TransportFor(schemeOf(address)) == Returned(Unary) && echo.Closure? && arg != Null
    requires invoke(echo, Arr(List([arg]))) == Ok(arg)
    requires exchange(Outbound(Unary, address, Envelope(name, List([arg]), None)))
             == Received(Some(Arr(Dispatch(map[name := echo], [], debug, Envelope(name, List([arg]), None), invoke))))
    ensures Call(address, schemeOf, name, List([arg]), None, exchange) == Returned(arg)
  {
    var routes := map[name := echo];
    assert Lookup(routes, name) == Some(echo);
    RegisteredCallReturns(address, schemeOf, name, List([arg]), None, exchange, routes, [], debug, invoke, arg);
  }

}
