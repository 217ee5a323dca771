/**
 * The TCP client of src/tcp/TCP.js together with the two application layers
 * that extend it (src/tcp/binary.js and src/tcp/jsonrpc.js), which differ
 * only in how a request is written and how a response is read.
 */
module Tcp {
  import opened JsValues
  import opened Protocol
  import Binary
  import JsonRpc

  /** The application layer a client was built with. */
  datatype Codec = BinaryCodec | JsonRpcCodec

  /** What `_requestSend(id, method, params)` writes. */
  function Envelope(codec: Codec, id: Value, methodName: string, params: Value): Value
  {
    match codec
    case BinaryCodec => Binary.Record(id, methodName, params)
    case JsonRpcCodec => JsonRpc.Written(id, methodName, params)
  }

  /** How the layer's response handler reads a response. */
  function DecoderFor(codec: Codec, version: string): Decoder
  {
    match codec
    case BinaryCodec => Binary.MessageDecoder(version)
    case JsonRpcCodec => JsonRpc.DataDecoder(version)
  }

  /**
   * The stub's choice of convention as TCP.js writes it: `typeof null` is
   * 'object', so a null last argument reaches `lastArgType.lazy` and throws.
   */
  function StubConventionAsWritten(args: seq<Value>): Result<Convention>
  {
    var last := LastArg(args);
    if TypeOf(last) == "function" then Ok(WithCallback(last.ref))
    else if TypeOf(last) == "object" then
      if last.Null? then Throws(TypeError("Cannot read properties of null (reading 'lazy')"))
      else if Truthy(GetProp(last, "lazy")) then Ok(FireAndForget)
      else Ok(AsPromise)
    else Ok(AsPromise)
  }

  /**
   * A stub called with null as its last argument throws instead of returning a
   * promise; with any other last argument the code as written and the
   * null-safe convention agree.
   */
  lemma NullLastArgumentThrows(args: seq<Value>)
    ensures StubConventionAsWritten(args + [Null]).Throws?
    ensures StubConvention(args + [Null]) == AsPromise
    ensures !LastArg(args).Null? ==> StubConventionAsWritten(args) == Ok(StubConvention(args))
  {
    assert LastArg(args + [Null]) == Null;
  }

  /**
   * The layer's `_pipeSocket`/`_unpipeSocket` hooks as written. The binary
   * layer pipes the socket held in `_conn`, a field TCP.js never sets (it keeps
   * the socket in `_socket`), so each of its hooks throws a TypeError; the
   * JSON-RPC layer keeps TCP.js's empty hooks, which do nothing.
   */
  function SocketHookAsWritten(codec: Codec, hook: string): (c: Completion)
    ensures c.Threw? <==> codec == BinaryCodec
  {
    match codec
    case BinaryCodec => Threw(TypeError("Cannot read properties of undefined (reading '" + hook + "')"))
    case JsonRpcCodec => Normal
  }

  /**
   * `connect(callback)` as written: `_initializeSocket` ends with
   * `_pipeSocket()`, so when that hook throws, connect throws to its caller,
   * or, without a callback, the promise it returns is rejected with the error.
   * Returns what connect returns and the effects it makes visible.
   */
  function ConnectAsWritten(codec: Codec, callback: Option<nat>, promise: nat): (Result<StubReturn>, seq<Effect>)
  {
    var hook := SocketHookAsWritten(codec, "pipe");
    if hook.Normal? then (Ok(if callback.Some? then NoValue else PromiseHandle(promise)), [])
    else if callback.Some? then (Throws(hook.exception), [])
    else (Ok(PromiseHandle(promise)), [Rejected(promise, ExceptionValue(hook.exception))])
  }

  /** What a socket event handler leaves behind: how it completed, the connected flag, and the calls on the socket. */
  datatype HandlerOutcome = HandlerOutcome(completion: Completion, connected: bool, ops: seq<SocketOp>)

  /**
   * The `error`, `close`, `end` and `destroy` handlers with hooks that do not
   * throw, as TcpClient's OnError, OnClose, OnEnd and OnDestroy model them:
   * all but `error` clear the flag; `error` and `end` destroy the socket.
   */
  function SocketEventIntended(event: string, connected: bool): HandlerOutcome
  {
    if event == "error" then HandlerOutcome(Normal, connected, [Destroy])
    else if event == "end" then HandlerOutcome(Normal, false, [Destroy])
    else HandlerOutcome(Normal, false, [])
  }

  /**
   * The same handlers as written: each calls `_unpipeSocket()` right after
   * emitting the event, so when that hook throws, the flag is not cleared and
   * the socket is not destroyed.
   */
  function SocketEventAsWritten(codec: Codec, event: string, connected: bool): HandlerOutcome
  {
    var hook := SocketHookAsWritten(codec, "unpipe");
    if hook.Threw? then HandlerOutcome(hook, connected, [])
    else SocketEventIntended(event, connected)
  }

  /**
   * A binary client cannot connect as written, and its socket handlers throw
   * with the client still counted as connected and the socket never
   * destroyed; the JSON-RPC client's handlers behave as intended.
   */
  lemma BinaryHooksThrowAsWritten(event: string, callback: Option<nat>, promise: nat)
    requires event == "error" || event == "close" || event == "end" || event == "destroy"
    ensures callback.Some? ==> ConnectAsWritten(BinaryCodec, callback, promise).0.Throws?
    ensures callback.None? ==> ConnectAsWritten(BinaryCodec, callback, promise).1 != []
    ensures ConnectAsWritten(JsonRpcCodec, callback, promise).1 == []
    ensures SocketEventAsWritten(BinaryCodec, event, true) == HandlerOutcome(SocketHookAsWritten(BinaryCodec, "unpipe"), true, [])
    ensures event != "error" ==> !SocketEventIntended(event, true).connected
    ensures event != "close" && event != "destroy" ==> SocketEventIntended(event, true).ops == [Destroy]
    ensures SocketEventAsWritten(JsonRpcCodec, event, true) == SocketEventIntended(event, true)
  {
  }

  class TcpClient {
    const port: Option<int>
    const host: string
    const options: JsObject
    const codec: Codec
    const version: string
    const conn: Correlator
    const events: EventSurface
    const registry: Registry
    var connectCallback: Option<Callback>
    var socketOps: seq<SocketOp>

    /** `new Client(port, host, options)`: `options || {}`; disconnected, nothing pending, nothing discovered. */
    constructor(port: Option<int>, host: string, options: JsObject?, codec: Codec, version: string)
      ensures this.port == port && this.host == host && this.codec == codec && this.version == version
      ensures options != null ==> this.options == options
      ensures options == null ==> fresh(this.options) && this.options.props == map[]
      ensures !conn.isConnected && conn.requests == map[] && conn.sent == [] && conn.effects == []
      ensures registry.methods == Arr([]) && registry.stubs == {}
      ensures events.listeners == [] && events.snapshot == None && events.emitted == []
      ensures connectCallback == None && socketOps == []
    {
      this.port := port;
      this.host := host;
      if options != null {
        this.options := options;
      } else {
        this.options := new JsObject(map[]);
      }
      this.codec := codec;
      this.version := version;
      conn := new Correlator();
      events := new EventSurface();
      registry := new Registry();
      connectCallback := None;
      socketOps := [];
    }

    /** `_requestSend(id, method, params)`: one envelope, nothing recorded. */
    method RequestSend(id: Value, methodName: string, params: Value)
      modifies conn
      ensures conn.sent == old(conn.sent) + [Envelope(codec, id, methodName, params)]
      ensures conn.requests == old(conn.requests) && conn.effects == old(conn.effects)
      ensures conn.isConnected == old(conn.isConnected)
    {
      conn.Send(Envelope(codec, id, methodName, params));
    }

    /** `_requestPush(id, method, params, callback)`. */
    method RequestPush(id: string, methodName: string, params: Value, callback: Callback)
      modifies conn
      ensures conn.PushStep(id, methodName, params, callback, Envelope(codec, Str(id), methodName, params))
    {
      conn.Push(id, methodName, params, callback, Envelope(codec, Str(id), methodName, params));
    }

    /**
     * The state change of `_request(op)` with fresh id `id`: a callback is
     * pushed as it is, a resolve/reject pair through the promise adapter, and
     * with neither the request goes out under id -1 with no table entry and no
     * connected check.
     */
    twostate predicate RequestStep(op: Op, id: string)
      reads conn
    {
      if op.callback.Some? then
        conn.PushStep(id, op.methodName, op.params, op.callback.value, Envelope(codec, Str(id), op.methodName, op.params))
      else if op.promise.Some? then
        conn.PushStep(id, op.methodName, op.params, Adapter(op.promise.value), Envelope(codec, Str(id), op.methodName, op.params))
      else
        && conn.sent == old(conn.sent) + [Envelope(codec, Num(-1), op.methodName, op.params)]
        && conn.requests == old(conn.requests) && conn.effects == old(conn.effects)
        && conn.isConnected == old(conn.isConnected)
    }

    /** `_request(op)`. */
    method Request(op: Op, id: string)
      modifies conn
      ensures RequestStep(op, id)
    {
      if op.callback.Some? {
        RequestPush(id, op.methodName, op.params, op.callback.value);
      } else if op.promise.Some? {
        RequestPush(id, op.methodName, op.params, Adapter(op.promise.value));
      } else {
        RequestSend(Num(-1), op.methodName, op.params);
      }
    }

    /**
     * Calling the stub installed for `name` with `args`: a name discovery did
     * not install is not a function; otherwise the first argument (or
     * undefined) is sent as parameters under the convention the last argument
     * selects, and only the promise convention returns something.
     */
    method Stub(name: string, args: seq<Value>, id: string, promise: nat) returns (r: Result<StubReturn>)
      modifies conn
      ensures name !in registry.stubs ==> r.Throws? && unchanged(conn)
      ensures name in registry.stubs ==>
        match StubConvention(args)
        case WithCallback(f) => r == Ok(NoValue) && RequestStep(Op(name, FirstParams(args), Some(UserFn(f)), None), id)
        case FireAndForget => r == Ok(NoValue) && RequestStep(Op(name, FirstParams(args), None, None), id)
        case AsPromise => r == Ok(PromiseHandle(promise)) && RequestStep(Op(name, FirstParams(args), None, Some(promise)), id)
    {
      if name !in registry.stubs {
        return Throws(TypeError("client." + name + " is not a function"));
      }
      match StubConvention(args)
      case WithCallback(f) =>
        Request(Op(name, FirstParams(args), Some(UserFn(f)), None), id);
        r := Ok(NoValue);
      case FireAndForget =>
        Request(Op(name, FirstParams(args), None, None), id);
        r := Ok(NoValue);
      case AsPromise =>
        Request(Op(name, FirstParams(args), None, Some(promise)), id);
        r := Ok(PromiseHandle(promise));
    }

    /** `connect(callback)`: remembers the callback the socket events report to; without one, returns a promise. */
    method Connect(callback: Option<nat>, promise: nat) returns (r: StubReturn)
      modifies this
      ensures connectCallback == Some(ConnectCallback(callback, promise))
      ensures r == if callback.Some? then NoValue else PromiseHandle(promise)
      ensures socketOps == old(socketOps)
    {
      connectCallback := Some(ConnectCallback(callback, promise));
      r := if callback.Some? then NoValue else PromiseHandle(promise);
    }

    /**
     * The socket's `connect` event: the flag is set before the discovery
     * request `methods` is pushed, so that request is always recorded and sent.
     */
    method OnConnect(discoveryId: string)
      requires connectCallback.Some?
      modifies conn
      ensures conn.isConnected
      ensures conn.requests == old(conn.requests)[discoveryId := Pending("methods", Undefined, Discovery(connectCallback.value))]
      ensures conn.sent == old(conn.sent) + [Envelope(codec, Str(discoveryId), "methods", Undefined)]
      ensures conn.effects == old(conn.effects)
    {
      conn.SetConnected(true);
      Request(Op("methods", Undefined, Some(Discovery(connectCallback.value)), None), discoveryId);
    }

    /**
     * The layer's response handler. An orphan is reported only as an `error`
     * event; a matched entry's callback runs once and the entry is deleted;
     * a successful discovery response replaces `_methods` and installs one
     * stub per key.
     */
    method OnMessage(response: map<string, Value>)
      modifies conn, events, registry
      ensures var inbound := Classify(DecoderFor(codec, version), old(conn.requests), response);
        && conn.requests == Remaining(old(conn.requests), inbound)
        && conn.effects == old(conn.effects)
             + (if inbound.Matched? then Settle(inbound.entry.callback, inbound.error, inbound.result) else [])
        && conn.sent == old(conn.sent) && conn.isConnected == old(conn.isConnected)
        && (if inbound.Orphan? then events.EmitStep("error", inbound.error) else unchanged(events))
        && (if inbound.Matched? && Installs(inbound.entry.callback, inbound.error) then
              registry.methods == inbound.result && registry.stubs == old(registry.stubs) + EnumerableKeys(inbound.result)
            else unchanged(registry))
    {
      var inbound := conn.Dispatch(DecoderFor(codec, version), response);
      if inbound.Orphan? {
        events.Emit("error", inbound.error);
      }
      if inbound.Matched? && Installs(inbound.entry.callback, inbound.error) {
        registry.Install(inbound.result);
      }
    }

    /** The socket's `timeout` event: emit, then `_close()` clears the flag and ends the socket. */
    method OnTimeout()
      modifies this, conn, events
      ensures events.EmitStep("timeout", Undefined)
      ensures !conn.isConnected && socketOps == old(socketOps) + [End]
      ensures conn.requests == old(conn.requests) && conn.sent == old(conn.sent) && conn.effects == old(conn.effects)
      ensures connectCallback == old(connectCallback)
    {
      events.Emit("timeout", Undefined);
      conn.SetConnected(false);
      socketOps := socketOps + [End];
    }

    /** The socket's `error` event: connect's callback gets the error, then it is emitted; the flag is left alone. */
    method OnError(err: Value)
      requires connectCallback.Some?
      modifies this, conn, events
      ensures conn.effects == old(conn.effects) + Settle(old(connectCallback.value), err, Undefined)
      ensures events.EmitStep("error", err)
      ensures socketOps == old(socketOps) + [Destroy]
      ensures conn.isConnected == old(conn.isConnected) && conn.requests == old(conn.requests) && conn.sent == old(conn.sent)
      ensures connectCallback == old(connectCallback)
    {
      conn.Invoke(connectCallback.value, err, Undefined);
      events.Emit("error", err);
      socketOps := socketOps + [Destroy];
    }

    /** The socket's `close` event. */
    method OnClose()
      modifies conn, events
      ensures events.EmitStep("close", Undefined)
      ensures !conn.isConnected
      ensures conn.requests == old(conn.requests) && conn.sent == old(conn.sent) && conn.effects == old(conn.effects)
    {
      events.Emit("close", Undefined);
      conn.SetConnected(false);
    }

    /** The socket's `end` event: the socket is then destroyed. */
    method OnEnd()
      modifies this, conn, events
      ensures events.EmitStep("end", Undefined)
      ensures !conn.isConnected && socketOps == old(socketOps) + [Destroy]
      ensures conn.requests == old(conn.requests) && conn.sent == old(conn.sent) && conn.effects == old(conn.effects)
      ensures connectCallback == old(connectCallback)
    {
      events.Emit("end", Undefined);
      conn.SetConnected(false);
      socketOps := socketOps + [Destroy];
    }

    /** The socket's `destroy` event. */
    method OnDestroy()
      modifies conn, events
      ensures events.EmitStep("destroy", Undefined)
      ensures !conn.isConnected
      ensures conn.requests == old(conn.requests) && conn.sent == old(conn.sent) && conn.effects == old(conn.effects)
    {
      events.Emit("destroy", Undefined);
      conn.SetConnected(false);
    }

    /**
     * `close(callback)`: counts the pending requests (they stay in the table
     * and their callbacks never run), ends the socket and calls the callback
     * with no arguments.
     */
    method Close(callback: Option<nat>) returns (pending: nat)
      modifies this, conn
      ensures pending == |old(conn.requests)|
      ensures conn.requests == old(conn.requests) && conn.isConnected == old(conn.isConnected) && conn.sent == old(conn.sent)
      ensures conn.effects == old(conn.effects) + (if callback.Some? then [Called(callback.value, Undefined, Undefined)] else [])
      ensures socketOps == old(socketOps) + [End] && connectCallback == old(connectCallback)
    {
      pending := conn.PendingCount();
      socketOps := socketOps + [End];
      if callback.Some? {
        conn.Invoke(UserFn(callback.value), Undefined, Undefined);
      }
    }
  }

  /**
   * Discovery end to end: after connect and the `connect` event, a successful
   * `methods` response installs a stub for every discovered name, reports
   * success to connect's callback and leaves nothing pending for discovery.
   */
  method DiscoveryInstallsStubs(client: TcpClient, discoveryId: string, discovered: map<string, Value>, f: nat)
    requires discoveryId != ""
    requires client.conn.requests == map[]
    requires client.registry.stubs == {}
    modifies client, client.conn, client.events, client.registry
    ensures client.registry.methods == Obj(discovered) && client.registry.stubs == discovered.Keys
    ensures client.conn.requests == map[]
    ensures client.conn.effects == old(client.conn.effects) + [Called(f, Undefined, Undefined)]
  {
    StartDiscovery(client, discoveryId, f);
    AnswerDiscovery(client, discoveryId, discovered, f);
  }

  /** Connecting with callback `f`, then the `connect` event: only the discovery request is pending. */
  method StartDiscovery(client: TcpClient, discoveryId: string, f: nat)
    requires client.conn.requests == map[]
    modifies client, client.conn
    ensures client.conn.requests == map[discoveryId := Pending("methods", Undefined, Discovery(UserFn(f)))]
    ensures client.conn.effects == old(client.conn.effects)
  {
    var _ := client.Connect(Some(f), 0);
    client.OnConnect(discoveryId);
  }

  /** The successful answer to the pending discovery request installs the stubs and calls `f` with no error. */
  method AnswerDiscovery(client: TcpClient, discoveryId: string, discovered: map<string, Value>, f: nat)
    requires discoveryId != ""
    requires client.conn.requests == map[discoveryId := Pending("methods", Undefined, Discovery(UserFn(f)))]
    requires client.registry.stubs == {}
    modifies client.conn, client.events, client.registry
    ensures client.registry.methods == Obj(discovered) && client.registry.stubs == discovered.Keys
    ensures client.conn.requests == map[]
    ensures client.conn.effects == old(client.conn.effects) + [Called(f, Undefined, Undefined)]
  {
    var response := map["id" := Str(discoveryId), "r" := Obj(discovered), "result" := Obj(discovered)];
    assert KeyOf(response) == discoveryId;
    client.OnMessage(response);
  }
}
