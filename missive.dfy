/**
 * src/tcpMissive.js: a self-contained copy of the TCP client with the binary
 * layer built in. Its stubs know only two conventions (callback or promise)
 * and every request goes through the table.
 */
module Missive {
  import opened JsValues
  import opened Protocol
  import Binary

  /** A function as last argument means callback; anything else, including `{lazy: true}`, a promise. */
  function TwoWayConvention(args: seq<Value>): (r: Convention)
    ensures r.WithCallback? <==> LastArg(args).Fn?
    ensures r.WithCallback? ==> LastArg(args) == Fn(r.f)
    ensures !r.FireAndForget?
  {
    if LastArg(args).Fn? then WithCallback(LastArg(args).ref) else AsPromise
  }

  /** The two-way stub turns exactly the fire-and-forget calls of the three-way stub into promise calls. */
  lemma TwoWayHasNoFireAndForget(args: seq<Value>)
    ensures StubConvention(args).FireAndForget? ==> TwoWayConvention(args) == AsPromise
    ensures !StubConvention(args).FireAndForget? ==> TwoWayConvention(args) == StubConvention(args)
  {
  }

  class MissiveClient {
    const port: Option<int>
    const host: string
    const version: string
    const conn: Correlator
    const events: EventSurface
    const registry: Registry
    var connectCallback: Option<Callback>
    var socketOps: seq<SocketOp>

    constructor(port: Option<int>, host: string, version: string)
      ensures this.port == port && this.host == host && this.version == version
      ensures !conn.isConnected && conn.requests == map[] && conn.sent == [] && conn.effects == []
      ensures registry.methods == Arr([]) && registry.stubs == {}
      ensures events.listeners == [] && events.snapshot == None && events.emitted == []
      ensures connectCallback == None && socketOps == []
    {
      this.port := port;
      this.host := host;
      this.version := version;
      conn := new Correlator();
      events := new EventSurface();
      registry := new Registry();
      connectCallback := None;
      socketOps := [];
    }

    /** `_requestPush(id, method, params, callback)`, writing the `{id, m, p?}` record. */
    method RequestPush(id: string, methodName: string, params: Value, callback: Callback)
      modifies conn
      ensures conn.PushStep(id, methodName, params, callback, Binary.Record(Str(id), methodName, params))
    {
      conn.Push(id, methodName, params, callback, Binary.Record(Str(id), methodName, params));
    }

    /**
     * `_request(op)`: the callback, or else the promise adapter, is pushed; it
     * is only ever called with one of the two.
     */
    method Request(op: Op, id: string)
      requires op.callback.Some? || op.promise.Some?
      modifies conn
      ensures conn.PushStep(id, op.methodName, op.params,
                            if op.callback.Some? then op.callback.value else Adapter(op.promise.value),
                            Binary.Record(Str(id), op.methodName, op.params))
    {
      if op.callback.Some? {
        RequestPush(id, op.methodName, op.params, op.callback.value);
      } else {
        RequestPush(id, op.methodName, op.params, Adapter(op.promise.value));
      }
    }

    /** Calling the stub installed for `name`: callback or promise, with the first argument (or undefined) as parameters. */
    method Stub(name: string, args: seq<Value>, id: string, promise: nat) returns (r: Result<StubReturn>)
      modifies conn
      ensures name !in registry.stubs ==> r.Throws? && unchanged(conn)
      ensures name in registry.stubs && LastArg(args).Fn? ==>
        r == Ok(NoValue)
        && conn.PushStep(id, name, FirstParams(args), UserFn(LastArg(args).ref), Binary.Record(Str(id), name, FirstParams(args)))
      ensures name in registry.stubs && !LastArg(args).Fn? ==>
        r == Ok(PromiseHandle(promise))
        && conn.PushStep(id, name, FirstParams(args), Adapter(promise), Binary.Record(Str(id), name, FirstParams(args)))
    {
      if name !in registry.stubs {
        return Throws(TypeError("client." + name + " is not a function"));
      }
      match TwoWayConvention(args)
      case WithCallback(f) =>
        Request(Op(name, FirstParams(args), Some(UserFn(f)), None), id);
        r := Ok(NoValue);
      case AsPromise =>
        Request(Op(name, FirstParams(args), None, Some(promise)), id);
        r := Ok(PromiseHandle(promise));
    }

    /** `connect(callback)`. */
    method Connect(callback: Option<nat>, promise: nat) returns (r: StubReturn)
      modifies this
      ensures connectCallback == Some(ConnectCallback(callback, promise))
      ensures r == if callback.Some? then NoValue else PromiseHandle(promise)
      ensures socketOps == old(socketOps)
    {
      connectCallback := Some(ConnectCallback(callback, promise));
      r := if callback.Some? then NoValue else PromiseHandle(promise);
    }

    /** The socket's `connect` event: flag set, then the discovery request. */
    method OnConnect(discoveryId: string)
      requires connectCallback.Some?
      modifies conn
      ensures conn.isConnected
      ensures conn.requests == old(conn.requests)[discoveryId := Pending("methods", Undefined, Discovery(connectCallback.value))]
      ensures conn.sent == old(conn.sent) + [Binary.Record(Str(discoveryId), "methods", Undefined)]
      ensures conn.effects == old(conn.effects)
    {
      conn.SetConnected(true);
      Request(Op("methods", Undefined, Some(Discovery(connectCallback.value)), None), discoveryId);
    }

    /**
     * The `message` handler: falsy ids are dropped, orphans reported as
     * `error`, a match delivers `(error, r)` with `versions` results stamped
     * and deletes only its entry; a successful discovery installs the stubs.
     */
    method OnMessage(response: map<string, Value>)
      modifies conn, events, registry
      ensures var inbound := Classify(Binary.MessageDecoder(version), old(conn.requests), response);
        && conn.requests == Remaining(old(conn.requests), inbound)
        && conn.effects == old(conn.effects)
             + (if inbound.Matched? then Settle(inbound.entry.callback, inbound.error, inbound.result) else [])
        && conn.sent == old(conn.sent) && conn.isConnected == old(conn.isConnected)
        && (if inbound.Orphan? then events.EmitStep("error", inbound.error) else unchanged(events))
        && (if inbound.Matched? && Installs(inbound.entry.callback, inbound.error) then
              registry.methods == inbound.result && registry.stubs == old(registry.stubs) + EnumerableKeys(inbound.result)
            else unchanged(registry))
    {
      var inbound := conn.Dispatch(Binary.MessageDecoder(version), response);
      if inbound.Orphan? {
        events.Emit("error", inbound.error);
      }
      if inbound.Matched? && Installs(inbound.entry.callback, inbound.error) {
        registry.Install(inbound.result);
      }
    }

    /** The socket's `timeout` event: emit, then `_close()` clears the flag and ends the socket. */
    method OnTimeout()
      modifies this, conn, events
      ensures events.EmitStep("timeout", Undefined)
      ensures !conn.isConnected && socketOps == old(socketOps) + [End]
      ensures conn.requests == old(conn.requests) && conn.sent == old(conn.sent) && conn.effects == old(conn.effects)
      ensures connectCallback == old(connectCallback)
    {
      events.Emit("timeout", Undefined);
      conn.SetConnected(false);
      socketOps := socketOps + [End];
    }

    /** The socket's `error` event: connect's callback gets the error, it is emitted, and the socket is destroyed. */
    method OnError(err: Value)
      requires connectCallback.Some?
      modifies this, conn, events
      ensures conn.effects == old(conn.effects) + Settle(old(connectCallback.value), err, Undefined)
      ensures events.EmitStep("error", err)
      ensures socketOps == old(socketOps) + [Destroy]
      ensures conn.isConnected == old(conn.isConnected) && conn.requests == old(conn.requests) && conn.sent == old(conn.sent)
      ensures connectCallback == old(connectCallback)
    {
      conn.Invoke(connectCallback.value, err, Undefined);
      events.Emit("error", err);
      socketOps := socketOps + [Destroy];
    }

    /** The socket's `close` event. */
    method OnClose()
      modifies conn, events
      ensures events.EmitStep("close", Undefined)
      ensures !conn.isConnected
      ensures conn.requests == old(conn.requests) && conn.sent == old(conn.sent) && conn.effects == old(conn.effects)
    {
      events.Emit("close", Undefined);
      conn.SetConnected(false);
    }

    /** The socket's `end` event: the socket is then destroyed. */
    method OnEnd()
      modifies this, conn, events
      ensures events.EmitStep("end", Undefined)
      ensures !conn.isConnected && socketOps == old(socketOps) + [Destroy]
      ensures conn.requests == old(conn.requests) && conn.sent == old(conn.sent) && conn.effects == old(conn.effects)
      ensures connectCallback == old(connectCallback)
    {
      events.Emit("end", Undefined);
      conn.SetConnected(false);
      socketOps := socketOps + [Destroy];
    }

    /** The socket's `destroy` event. */
    method OnDestroy()
      modifies conn, events
      ensures events.EmitStep("destroy", Undefined)
      ensures !conn.isConnected
      ensures conn.requests == old(conn.requests) && conn.sent == old(conn.sent) && conn.effects == old(conn.effects)
    {
      events.Emit("destroy", Undefined);
      conn.SetConnected(false);
    }

    /** `close(callback)`: pending requests are counted and left in the table. */
    method Close(callback: Option<nat>) returns (pending: nat)
      modifies this, conn
      ensures pending == |old(conn.requests)|
      ensures conn.requests == old(conn.requests) && conn.isConnected == old(conn.isConnected) && conn.sent == old(conn.sent)
      ensures conn.effects == old(conn.effects) + (if callback.Some? then [Called(callback.value, Undefined, Undefined)] else [])
      ensures socketOps == old(socketOps) + [End] && connectCallback == old(connectCallback)
    {
      pending := conn.PendingCount();
      socketOps := socketOps + [End];
      if callback.Some? {
        conn.Invoke(UserFn(callback.value), Undefined, Undefined);
      }
    }
  }
}
