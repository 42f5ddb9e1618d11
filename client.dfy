/**
 * The JSON-RPC client: `Client::request` picks a transport from the
 * address's scheme and sends the request envelope; `Client::call` decodes
 * the reply and either returns its `result` or throws.
 *
 * What the network does is the parameter `exchange`: given the transport,
 * the address and the envelope, it yields the decoded reply text
 * (`json_decode($response, true)`, `None` when the text is not JSON) or
 * the exception the transport threw. `parse_url` is the parameter
 * `schemeOf`, the `scheme` component it finds (`None` when there is none
 * or the address does not parse).
 */
module RpcClient {
  import opened PhpValues
  import opened RpcServer

  /** Guzzle POST for http(s), a WebSocket client for ws(s). */
  datatype Transport = Unary | Persistent

  /**
   * What `call` and `request` throw: an Exception with a message, or the
   * TypeError PHP raises when `new Exception(...)` gets a non-string
   * message under strict types.
   */
  datatype ClientError = Thrown(message: string) | ThrownTypeError

  /** A PHP call that returns a value or throws. */
  datatype Raise<T> = Returned(value: T) | Raised(error: ClientError)

  datatype Outbound = Outbound(transport: Transport, address: string, envelope: seq<Entry>)

  datatype Exchange = Received(decoded: Option<Value>) | TransportFailed(message: string)

  predicate IsHttpScheme(s: string) {
    s == "http" || s == "https"
  }

  predicate IsWebSocketScheme(s: string) {
    s == "ws" || s == "wss"
  }

  /** The scheme checks of `request`, in their order. */
  function TransportFor(scheme: Option<string>): (r: Raise<Transport>)
    ensures r == Raised(Thrown("Address format error")) <==> scheme.None? || Falsy(Str(scheme.value))
    ensures r == Returned(Unary) <==> scheme.Some? && IsHttpScheme(scheme.value)
    ensures r == Returned(Persistent) <==> scheme.Some? && IsWebSocketScheme(scheme.value)
    ensures r.Raised? ==> r.error == Thrown("Address format error") || r.error == Thrown("Invalid scheme")
  {
    if scheme.None? || Falsy(Str(scheme.value)) then Raised(Thrown("Address format error"))
    else if IsHttpScheme(scheme.value) then Returned(Unary)
    else if IsWebSocketScheme(scheme.value) then Returned(Persistent)
    else Raised(Thrown("Invalid scheme"))
  }

  /** The `id` member of the envelope: the given string, or null. */
  function IdValue(id: Option<string>): Value {
    if id.Some? then Str(id.value) else Null
  }

  /** `['jsonrpc' => Server::VERSION, 'method' => $method, 'params' => $params, 'id' => $id]`. */
  function Envelope(name: string, params: seq<Entry>, id: Option<string>): (r: seq<Entry>)
    ensures Find(r, StrKey("jsonrpc")) == Some(Str(VERSION))
    ensures Find(r, StrKey("method")) == Some(Str(name))
    ensures Find(r, StrKey("params")) == Some(Arr(params))
    ensures Find(r, StrKey("id")) == Some(IdValue(id))
    ensures KeySet(r) == {StrKey("jsonrpc"), StrKey("method"), StrKey("params"), StrKey("id")}
  {
    var e0, e1 := Entry(StrKey("jsonrpc"), Str(VERSION)), Entry(StrKey("method"), Str(name));
    var e2, e3 := Entry(StrKey("params"), Arr(params)), Entry(StrKey("id"), IdValue(id));
    KeySetFour(e0, e1, e2, e3);
    FindFour(e0, e1, e2, e3, StrKey("jsonrpc"));
    FindFour(e0, e1, e2, e3, StrKey("method"));
    FindFour(e0, e1, e2, e3, StrKey("params"));
    FindFour(e0, e1, e2, e3, StrKey("id"));
    [e0, e1, e2, e3]
  }

  /**
   * `Client::request`: the envelope goes out once, on the transport the
   * scheme picks, and the decoded reply comes back; a refused scheme
   * throws before anything is sent, and a failed transport throws its own
   * message. Nothing it throws is a TypeError.
   */
  function Request(address: string, schemeOf: string -> Option<string>, name: string, params: seq<Entry>,
                   id: Option<string>, exchange: Outbound -> Exchange): (r: Raise<Option<Value>>)
    ensures TransportFor(schemeOf(address)).Raised? ==> r == Raised(TransportFor(schemeOf(address)).error)
    ensures r.Returned? ==>
      && TransportFor(schemeOf(address)).Returned?
      && exchange(Outbound(TransportFor(schemeOf(address)).value, address, Envelope(name, params, id))) == Received(r.value)
    ensures TransportFor(schemeOf(address)).Returned? ==>
      var reply := exchange(Outbound(TransportFor(schemeOf(address)).value, address, Envelope(name, params, id)));
      && (reply.TransportFailed? ==> r == Raised(Thrown(reply.message)))
      && (reply.Received? ==> r == Returned(reply.decoded))
    ensures r.Raised? ==> r.error.Thrown?
  {
    var transport := TransportFor(schemeOf(address));
    if transport.Raised? then Raised(transport.error)
    else
      var reply := exchange(Outbound(transport.value, address, Envelope(name, params, id)));
      if reply.TransportFailed? then Raised(Thrown(reply.message)) else Returned(reply.decoded)
  }

  /**
   * The message `call` throws with: `$responseJson['error']['message'] ??
   * 'Unknown error'`. The nested `??` takes the message when `error` is an
   * array whose `message` is set, and the default otherwise; it is never
   * null.
   */
  function ErrorMessage(json: Value): (r: Value)
    ensures r != Null
    ensures r == Str("Unknown error") || (Get(json, "error").Some? && Get(Get(json, "error").value, "message") == Some(r))
    ensures Get(json, "error").Some? && IsSet(Get(json, "error").value, "message") ==>
      Get(Get(json, "error").value, "message") == Some(r)
  {
    Coalesce(Coalesce(json, "error", Null), "message", Str("Unknown error"))
  }

  /**
   * The checks `call` makes on the decoded reply: a falsy reply is an
   * invalid response; a value comes back exactly when `error` is unset and
   * `result` is set, and it is `result`, never null; otherwise the call
   * throws with the error's message, or a TypeError when that message is
   * not a string.
   */
  function Unwrap(decoded: Option<Value>): (r: Raise<Value>)
    ensures FalsyDecoded(decoded) ==> r == Raised(Thrown("Invalid response"))
    ensures r.Returned? <==>
      !FalsyDecoded(decoded) && !IsSet(decoded.value, "error") && IsSet(decoded.value, "result")
    ensures r.Returned? ==> Get(decoded.value, "result") == Some(r.value) && r.value != Null
    ensures r.Raised? && !FalsyDecoded(decoded) ==>
      r.error == if ErrorMessage(decoded.value).Str? then Thrown(ErrorMessage(decoded.value).s) else ThrownTypeError
  {
    if FalsyDecoded(decoded) then Raised(Thrown("Invalid response"))
    else
      var json := decoded.value;
      if IsSet(json, "error") || !IsSet(json, "result") then
        var message := ErrorMessage(json);
        if message.Str? then Raised(Thrown(message.s)) else Raised(ThrownTypeError)
      else Returned(Get(json, "result").value)
  }

  /**
   * `Client::call`: a refused scheme throws its error; a failed transport
   * throws its message; a delivered reply is read by `Unwrap`, so a
   * returned value is the non-null `result` of the reply the network gave
   * to the envelope.
   */
  function Call(address: string, schemeOf: string -> Option<string>, name: string, params: seq<Entry>,
                id: Option<string>, exchange: Outbound -> Exchange): (r: Raise<Value>)
    ensures TransportFor(schemeOf(address)).Raised? ==> r == Raised(TransportFor(schemeOf(address)).error)
    ensures r.Returned? ==> TransportFor(schemeOf(address)).Returned?
    ensures r.Returned? ==>
      var reply := exchange(Outbound(TransportFor(schemeOf(address)).value, address, Envelope(name, params, id)));
      && reply.Received? && reply.decoded.Some?
      && Get(reply.decoded.value, "result") == Some(r.value) && r.value != Null
    ensures TransportFor(schemeOf(address)).Returned? ==>
      var reply := exchange(Outbound(TransportFor(schemeOf(address)).value, address, Envelope(name, params, id)));
      && (reply.TransportFailed? ==> r == Raised(Thrown(reply.message)))
      && (reply.Received? ==> r == Unwrap(reply.decoded))
  {
    var response := Request(address, schemeOf, name, params, id, exchange);
    if response.Raised? then Raised(response.error) else Unwrap(response.value)
  }
}
