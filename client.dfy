/**
 * The base client of src/lib/Client.js: the same request table and discovery
 * as the TCP client, but the transport (tcp or tls) follows the `protocol`
 * option, a fire-and-forget request carries `nr = 1` and a fresh id, and the
 * hooks a subclass must provide (`requestSend`, `initializeStream`) throw
 * until overridden. `sender` stands for the subclass: None is the base class
 * itself, Some(codec) a subclass writing that codec's envelope.
 */
module LibClient {
  import opened JsValues
  import opened Protocol
  import Tcp

  const OverrideSend: string := "Please override methode _requestSend"
  const OverrideStream: string := "Please override methode _initialize"

  predicate EndsWithS(s: string)
  {
    |s| > 0 && s[|s| - 1] == 's'
  }

  /**
   * `options.protocol.match(/s$/)`: the match array ['s'] or null; anything
   * but a string has no `match` method.
   */
  function TlsFlag(protocol: Value): (r: Result<Value>)
    ensures r.Throws? <==> !protocol.Str?
    ensures r.Ok? ==> (Truthy(r.value) <==> EndsWithS(protocol.s))
  {
    if !protocol.Str? then Throws(TypeError("options.protocol.match is not a function"))
    else if EndsWithS(protocol.s) then Ok(Arr([Str("s")]))
    else Ok(Null)
  }

  datatype Transport = TcpSocket | TlsSocket

  /** Where a client connects. */
  datatype Target = Target(transport: Transport, port: Option<int>, host: string)

  /** The host Node's `tls.connect` uses when none is given. */
  const DefaultHost: string := "localhost"

  /** `tlsConnect`/`tcpConnect` as intended: both use the configured port and host. */
  function ConnectTarget(tls: bool, port: Option<int>, host: string): (t: Target)
    ensures t.transport == (if tls then TlsSocket else TcpSocket)
    ensures t.port == port && t.host == host
  {
    Target(if tls then TlsSocket else TcpSocket, port, host)
  }

  /** As written, `tlsConnect` passes `this.host`, which is never assigned, so TLS goes to the default host. */
  function ConnectTargetAsWritten(tls: bool, port: Option<int>, host: string): Target
  {
    if tls then Target(TlsSocket, port, DefaultHost) else Target(TcpSocket, port, host)
  }

  /** A TLS client configured for any other host than the default connects somewhere else; TCP is unaffected. */
  lemma TlsIgnoresConfiguredHost(port: Option<int>, host: string)
    ensures host != DefaultHost ==> ConnectTargetAsWritten(true, port, host).host != ConnectTarget(true, port, host).host
    ensures ConnectTargetAsWritten(false, port, host) == ConnectTarget(false, port, host)
  {
  }

  /**
   * `if (!op.params) op.params = {}; op.params.nr = 1;`: falsy parameters
   * become `{nr: 1}`, an object gains `nr = 1` and keeps its other keys, and
   * (class code being strict) setting a property on a string, number or
   * boolean throws.
   */
  function WithNr(params: Value): (r: Result<Value>)
    ensures !Truthy(params) ==> r == Ok(Obj(map["nr" := Num(1)]))
    ensures params.Obj? ==> r.Ok? && r.value.Obj? && r.value.props.Keys == params.props.Keys + {"nr"}
    ensures params.Obj? ==> r.value.props["nr"] == Num(1)
                            && forall k :: k in params.props && k != "nr" ==> r.value.props[k] == params.props[k]
    ensures r.Throws? <==> Truthy(params) && (params.Bool? || params.Num? || params.Str?)
    ensures params.Arr? || params.Fn? || params.ErrorObj? ==> r == Ok(params)
  {
    if !Truthy(params) then Ok(Obj(map["nr" := Num(1)]))
    else
      match params
      case Obj(m) => Ok(Obj(m["nr" := Num(1)]))
      case Bool(_) => Throws(TypeError("Cannot create property 'nr' on boolean"))
      case Num(_) => Throws(TypeError("Cannot create property 'nr' on number"))
      case Str(_) => Throws(TypeError("Cannot create property 'nr' on string"))
      case _ => Ok(params)
  }

  /** A call that returns `value` unless it threw. */
  function Thrown<T>(c: Completion, value: T): (r: Result<T>)
    ensures r.Throws? <==> c.Threw?
    ensures c.Threw? ==> r.exception == c.exception
    ensures c.Normal? ==> r == Ok(value)
  {
    match c
    case Threw(e) => Throws(e)
    case Normal => Ok(value)
  }

  class BaseClient {
    const port: Option<int>
    const host: string
    const options: JsObject
    const sender: Option<Tcp.Codec>
    const conn: Correlator
    const events: EventSurface
    const registry: Registry
    var connectCallback: Option<Callback>
    var socketOps: seq<SocketOp>
    var target: Option<Target>

    constructor Init(port: Option<int>, host: string, options: JsObject, sender: Option<Tcp.Codec>)
      ensures this.port == port && this.host == host && this.options == options && this.sender == sender
      ensures !conn.isConnected && conn.requests == map[] && conn.sent == [] && conn.effects == []
      ensures registry.methods == Arr([]) && registry.stubs == {}
      ensures events.listeners == [] && events.snapshot == None && events.emitted == []
      ensures connectCallback == None && socketOps == [] && target == None
    {
      this.port := port;
      this.host := host;
      this.options := options;
      this.sender := sender;
      conn := new Correlator();
      events := new EventSurface();
      registry := new Registry();
      connectCallback := None;
      socketOps := [];
      target := None;
    }

    /**
     * `new BaseClient(port, host, options)`: `options || {}` is kept by
     * reference and gains `tls`, truthy exactly when `protocol` ends in "s";
     * without a string `protocol` (always so for `{}`) the constructor throws.
     */
    static method Create(port: Option<int>, host: string, options: JsObject?, sender: Option<Tcp.Codec>)
      returns (r: Result<BaseClient>)
      modifies options
      ensures options == null ==> r.Throws?
      ensures options != null ==>
        match TlsFlag(Field(old(options.props), "protocol"))
        case Throws(e) => r == Throws(e) && options.props == old(options.props)
        case Ok(flag) =>
          && r.Ok? && fresh(r.value) && r.value.options == options && r.value.sender == sender
          && r.value.port == port && r.value.host == host
          && options.props == old(options.props)["tls" := flag]
          && !r.value.conn.isConnected && r.value.conn.requests == map[] && r.value.registry.stubs == {}
    {
      if options == null {
        return Throws(TlsFlag(Undefined).exception);
      }
      var flag := TlsFlag(Field(options.props, "protocol"));
      if flag.Throws? {
        return Throws(flag.exception);
      }
      options.props := options.props["tls" := flag.value];
      var c := new BaseClient.Init(port, host, options, sender);
      r := Ok(c);
    }

    /** What `request(op)` completes with, given whether the client was connected. */
    function RequestOutcome(op: Op, connected: bool): Completion
    {
      if op.callback.Some? || op.promise.Some? then
        if connected && sender.None? then Threw(Error(OverrideSend)) else Normal
      else
        match WithNr(op.params)
        case Throws(e) => Threw(e)
        case Ok(_) => if sender.None? then Threw(Error(OverrideSend)) else Normal
    }

    /** One write by the subclass's `requestSend`, or nothing when the base class throws. */
    twostate predicate SendStep(id: Value, methodName: string, params: Value)
      reads conn
    {
      && conn.requests == old(conn.requests) && conn.effects == old(conn.effects)
      && conn.isConnected == old(conn.isConnected)
      && conn.sent == old(conn.sent) + (if sender.Some? then [Tcp.Envelope(sender.value, id, methodName, params)] else [])
    }

    /** `requestSend(id, method, params)`. */
    method RequestSend(id: Value, methodName: string, params: Value) returns (c: Completion)
      modifies conn
      ensures c == if sender.None? then Threw(Error(OverrideSend)) else Normal
      ensures SendStep(id, methodName, params)
    {
      if sender.None? {
        return Threw(Error(OverrideSend));
      }
      conn.Send(Tcp.Envelope(sender.value, id, methodName, params));
      c := Normal;
    }

    /**
     * The state change of `requestPush`: refused while disconnected; while
     * connected the entry is stored first, so it stays pending even when
     * `requestSend` then throws.
     */
    twostate predicate PushStep(id: string, methodName: string, params: Value, callback: Callback)
      reads conn
    {
      && conn.isConnected == old(conn.isConnected)
      && (if old(conn.isConnected) then
            && conn.requests == old(conn.requests)[id := Pending(methodName, params, callback)]
            && conn.effects == old(conn.effects)
            && conn.sent == old(conn.sent) + (if sender.Some? then [Tcp.Envelope(sender.value, Str(id), methodName, params)] else [])
          else
            && conn.requests == old(conn.requests) && conn.sent == old(conn.sent)
            && conn.effects == old(conn.effects) + Settle(callback, NotConnected, Undefined))
    }

    /** `requestPush(id, method, params, callback)`. */
    method RequestPush(id: string, methodName: string, params: Value, callback: Callback) returns (c: Completion)
      modifies conn
      ensures c == if old(conn.isConnected) && sender.None? then Threw(Error(OverrideSend)) else Normal
      ensures PushStep(id, methodName, params, callback)
    {
      if !conn.isConnected {
        conn.Invoke(callback, NotConnected, Undefined);
        return Normal;
      }
      conn.Record(id, Pending(methodName, params, callback));
      c := RequestSend(Str(id), methodName, params);
    }

    /** The state change of `request(op)` with fresh id `id`. */
    twostate predicate RequestStep(op: Op, id: string)
      reads conn
    {
      if op.callback.Some? then PushStep(id, op.methodName, op.params, op.callback.value)
      else if op.promise.Some? then PushStep(id, op.methodName, op.params, Adapter(op.promise.value))
      else
        match WithNr(op.params)
        case Throws(_) =>
          && conn.requests == old(conn.requests) && conn.effects == old(conn.effects)
          && conn.isConnected == old(conn.isConnected) && conn.sent == old(conn.sent)
        case Ok(p) => SendStep(Str(id), op.methodName, p)
    }

    /**
     * `request(op)`: a callback or a resolve/reject pair goes through
     * `requestPush`; with neither, the parameters are marked `nr = 1` and sent
     * under the fresh id with no table entry and no connected check.
     */
    method Request(op: Op, id: string) returns (c: Completion)
      modifies conn
      ensures c == RequestOutcome(op, old(conn.isConnected))
      ensures RequestStep(op, id)
    {
      if op.callback.Some? {
        c := RequestPush(id, op.methodName, op.params, op.callback.value);
      } else if op.promise.Some? {
        c := RequestPush(id, op.methodName, op.params, Adapter(op.promise.value));
      } else {
        match WithNr(op.params)
        case Throws(e) =>
          c := Threw(e);
        case Ok(p) =>
          c := RequestSend(Str(id), op.methodName, p);
      }
    }

    /**
     * Calling the stub installed for `name`: the null-safe three-way choice on
     * the last argument. On the promise path an exception thrown while
     * requesting rejects the returned promise instead of escaping.
     */
    method Stub(name: string, args: seq<Value>, id: string, promise: nat) returns (r: Result<StubReturn>)
      modifies conn
      ensures name !in registry.stubs ==> r.Throws? && unchanged(conn)
      ensures name in registry.stubs ==>
        match StubConvention(args)
        case WithCallback(f) =>
          var op := Op(name, FirstParams(args), Some(UserFn(f)), None);
          && RequestStep(op, id)
          && r == Thrown(RequestOutcome(op, old(conn.isConnected)), NoValue)
        case FireAndForget =>
          var op := Op(name, FirstParams(args), None, None);
          && RequestStep(op, id)
          && r == Thrown(RequestOutcome(op, old(conn.isConnected)), NoValue)
        case AsPromise =>
          var op := Op(name, FirstParams(args), None, Some(promise));
          && r == Ok(PromiseHandle(promise))
          && (match RequestOutcome(op, old(conn.isConnected))
              case Normal => RequestStep(op, id)
              case Threw(e) =>
                && conn.isConnected == old(conn.isConnected) && conn.sent == old(conn.sent)
                && conn.requests == old(conn.requests)[id := Pending(name, FirstParams(args), Adapter(promise))]
                && conn.effects == old(conn.effects) + [Rejected(promise, ExceptionValue(e))])
    {
      if name !in registry.stubs {
        return Throws(TypeError("client." + name + " is not a function"));
      }
      match StubConvention(args)
      case WithCallback(f) =>
        var c := Request(Op(name, FirstParams(args), Some(UserFn(f)), None), id);
        r := Thrown(c, NoValue);
      case FireAndForget =>
        var c := Request(Op(name, FirstParams(args), None, None), id);
        r := Thrown(c, NoValue);
      case AsPromise =>
        var c := Request(Op(name, FirstParams(args), None, Some(promise)), id);
        if c.Threw? {
          conn.Invoke(Adapter(promise), ExceptionValue(c.exception), Undefined);
        }
        r := Ok(PromiseHandle(promise));
    }

    /**
     * `connect(callback)`: `initializeStream` throws unless overridden; then
     * the socket is opened over TLS exactly when `options.tls` is truthy.
     */
    method Connect(callback: Option<nat>, promise: nat) returns (r: Result<StubReturn>)
      modifies this
      ensures sender.None? ==> r == Throws(Error(OverrideStream)) && connectCallback == old(connectCallback)
                               && target == old(target)
      ensures sender.Some? ==>
        && r == Ok(if callback.Some? then NoValue else PromiseHandle(promise))
        && connectCallback == Some(ConnectCallback(callback, promise))
        && target == Some(ConnectTarget(Truthy(Field(options.props, "tls")), port, host))
      ensures socketOps == old(socketOps)
    {
      if sender.None? {
        return Throws(Error(OverrideStream));
      }
      connectCallback := Some(ConnectCallback(callback, promise));
      target := Some(ConnectTarget(Truthy(Field(options.props, "tls")), port, host));
      r := Ok(if callback.Some? then NoValue else PromiseHandle(promise));
    }

    /** `onConnect(callback)`: the flag is set before the discovery request. */
    method OnConnect(discoveryId: string) returns (c: Completion)
      requires connectCallback.Some?
      modifies conn
      ensures conn.isConnected
      ensures conn.requests == old(conn.requests)[discoveryId := Pending("methods", Undefined, Discovery(connectCallback.value))]
      ensures conn.sent == old(conn.sent) + (if sender.Some? then [Tcp.Envelope(sender.value, Str(discoveryId), "methods", Undefined)] else [])
      ensures conn.effects == old(conn.effects)
      ensures c == if sender.None? then Threw(Error(OverrideSend)) else Normal
    {
      conn.SetConnected(true);
      c := Request(Op("methods", Undefined, Some(Discovery(connectCallback.value)), None), discoveryId);
    }

    /**
     * A response as a subclass's handler would read it (`dec`; this class
     * defines no handler of its own), followed by the callbacks of this
     * class: a successful discovery replaces `_methods` and installs one stub
     * per key.
     */
    method OnResponse(dec: Decoder, response: map<string, Value>)
      modifies conn, events, registry
      ensures var inbound := Classify(dec, old(conn.requests), response);
        && conn.requests == Remaining(old(conn.requests), inbound)
        && conn.effects == old(conn.effects)
             + (if inbound.Matched? then Settle(inbound.entry.callback, inbound.error, inbound.result) else [])
        && conn.sent == old(conn.sent) && conn.isConnected == old(conn.isConnected)
        && (if inbound.Orphan? then events.EmitStep("error", inbound.error) else unchanged(events))
        && (if inbound.Matched? && Installs(inbound.entry.callback, inbound.error) then
              registry.methods == inbound.result && registry.stubs == old(registry.stubs) + EnumerableKeys(inbound.result)
            else unchanged(registry))
    {
      var inbound := conn.Dispatch(dec, response);
      if inbound.Orphan? {
        events.Emit("error", inbound.error);
      }
      if inbound.Matched? && Installs(inbound.entry.callback, inbound.error) {
        registry.Install(inbound.result);
      }
    }

    /**
     * `close(callback)`: counts the pending requests without removing them,
     * ends the socket and calls the callback with no arguments.
     */
    method Close(callback: Option<nat>) returns (pending: nat)
      modifies this, conn
      ensures pending == |old(conn.requests)|
      ensures conn.requests == old(conn.requests) && conn.isConnected == old(conn.isConnected) && conn.sent == old(conn.sent)
      ensures conn.effects == old(conn.effects) + (if callback.Some? then [Called(callback.value, Undefined, Undefined)] else [])
      ensures socketOps == old(socketOps) + [End]
      ensures connectCallback == old(connectCallback) && target == old(target)
    {
      pending := conn.PendingCount();
      socketOps := socketOps + [End];
      if callback.Some? {
        conn.Invoke(UserFn(callback.value), Undefined, Undefined);
      }
    }

    /** `onSocketTimeout`: emit, then the public `close()`; unlike the TCP client the flag is left alone. */
    method OnSocketTimeout() returns (pending: nat)
      modifies this, conn, events
      ensures events.EmitStep("timeout", Undefined)
      ensures pending == |old(conn.requests)|
      ensures conn.isConnected == old(conn.isConnected)
      ensures conn.requests == old(conn.requests) && conn.sent == old(conn.sent) && conn.effects == old(conn.effects)
      ensures socketOps == old(socketOps) + [End] && connectCallback == old(connectCallback)
    {
      events.Emit("timeout", Undefined);
      pending := Close(None);
    }

    /** `onSocketClose`. */
    method OnSocketClose()
      modifies conn, events
      ensures events.EmitStep("close", Undefined)
      ensures !conn.isConnected
      ensures conn.requests == old(conn.requests) && conn.sent == old(conn.sent) && conn.effects == old(conn.effects)
    {
      events.Emit("close", Undefined);
      conn.SetConnected(false);
    }

    /** `onSocketEnd`: the socket is then destroyed. */
    method OnSocketEnd()
      modifies this, conn, events
      ensures events.EmitStep("end", Undefined)
      ensures !conn.isConnected && socketOps == old(socketOps) + [Destroy]
      ensures conn.requests == old(conn.requests) && conn.sent == old(conn.sent) && conn.effects == old(conn.effects)
      ensures connectCallback == old(connectCallback) && target == old(target)
    {
      events.Emit("end", Undefined);
      conn.SetConnected(false);
      socketOps := socketOps + [Destroy];
    }

    /** `onSocketDestroy`. */
    method OnSocketDestroy()
      modifies conn, events
      ensures events.EmitStep("destroy", Undefined)
      ensures !conn.isConnected
      ensures conn.requests == old(conn.requests) && conn.sent == old(conn.sent) && conn.effects == old(conn.effects)
    {
      events.Emit("destroy", Undefined);
      conn.SetConnected(false);
    }

    /** `onSocketclose` (never bound to a socket event): clears the flag and destroys the socket, without an event. */
    method OnSocketclose()
      modifies this, conn
      ensures !conn.isConnected && socketOps == old(socketOps) + [Destroy]
      ensures conn.requests == old(conn.requests) && conn.sent == old(conn.sent) && conn.effects == old(conn.effects)
      ensures connectCallback == old(connectCallback) && target == old(target)
    {
      conn.SetConnected(false);
      socketOps := socketOps + [Destroy];
    }

    /** The socket's `error` event: connect's callback gets the error, then it is emitted; the flag is left alone. */
    method OnSocketError(err: Value)
      requires connectCallback.Some?
      modifies this, conn, events
      ensures conn.effects == old(conn.effects) + Settle(old(connectCallback.value), err, Undefined)
      ensures events.EmitStep("error", err)
      ensures socketOps == old(socketOps) + [Destroy]
      ensures conn.isConnected == old(conn.isConnected) && conn.requests == old(conn.requests) && conn.sent == old(conn.sent)
      ensures connectCallback == old(connectCallback) && target == old(target)
    {
      conn.Invoke(connectCallback.value, err, Undefined);
      events.Emit("error", err);
      socketOps := socketOps + [Destroy];
    }

    /** `pipeSocket(socket)`: the base class only checks that a socket was passed. */
    method PipeSocket(socket: Value) returns (c: Completion)
      ensures c.Threw? <==> !Truthy(socket)
      ensures c.Threw? ==> c.exception == Error("No socket passed into function pipeSocket()")
    {
      c := if Truthy(socket) then Normal else Threw(Error("No socket passed into function pipeSocket()"));
    }

    /** `unpipeSocket(socket)`. */
    method UnpipeSocket(socket: Value) returns (c: Completion)
      ensures c.Threw? <==> !Truthy(socket)
      ensures c.Threw? ==> c.exception == Error("No socket passed into function unpipeSocket()")
    {
      c := if Truthy(socket) then Normal else Threw(Error("No socket passed into function unpipeSocket()"));
    }
  }

  /** The base class on its own cannot send: a connected push records the entry and then throws. */
  method BaseClassCannotSend(client: BaseClient, id: string, methodName: string, params: Value, f: nat)
    returns (c: Completion)
    requires client.sender.None? && client.conn.isConnected
    modifies client.conn
    ensures c == Threw(Error(OverrideSend))
    ensures client.conn.sent == old(client.conn.sent)
    ensures id in client.conn.requests
  {
    c := client.RequestPush(id, methodName, params, UserFn(f));
  }
}
