/**
 * src/tcpJayson.js: a self-contained JSON-RPC client whose requests take an
 * argument list. Scalar parameters are wrapped into an array (the
 * "structured params" rule of section 4.2 of the JSON-RPC 2.0
 * specification), a stub call with a callback returns the client for
 * chaining, and responses are matched without an id check or version stamp.
 */
module Jayson {
  import opened JsValues
  import opened Protocol
  import JsonRpc

  /**
   * The `params` member `_requestSend` writes: none for null or undefined,
   * a number or string wrapped in a one-element array, anything else as is.
   */
  function NormaliseParams(params: Value): (r: Option<Value>)
    ensures r.None? <==> IsNullish(params)
    ensures r.Some? && (params.Num? || params.Str?) ==> r.value == Arr([params])
    ensures r.Some? && !(params.Num? || params.Str?) ==> r.value == params
  {
    if IsNullish(params) then None
    else if params.Num? || params.Str? then Some(Arr([params]))
    else Some(params)
  }

  /** `{jsonrpc: "2.0", id, method}` plus the normalised `params` when there are any, before serialisation. */
  function Request(id: Value, methodName: string, params: Value): Value
  {
    match NormaliseParams(params)
    case None => Obj(map["jsonrpc" := Str("2.0"), "id" := id, "method" := Str(methodName)])
    case Some(p) => JsonRpc.Request(id, methodName, p)
  }

  /** The JSON text written for a request, as the server parses it. */
  function Written(id: Value, methodName: string, params: Value): (r: Value)
    ensures r.Obj? && r.props.Keys == {"jsonrpc", "method"}
                                      + (if JsonRpc.Serialisable(id) then {"id"} else {})
                                      + (if !IsNullish(params) && !params.Fn? then {"params"} else {})
    ensures r.props["jsonrpc"] == Str("2.0") && r.props["method"] == Str(methodName)
    ensures "params" in r.props ==> r.props["params"] == JsonRpc.JsonView(NormaliseParams(params).value)
  {
    if IsNullish(params) then
      BareRequestView(id, methodName);
      JsonRpc.JsonView(Request(id, methodName, params))
    else
      JsonRpc.RequestView(id, methodName, NormaliseParams(params).value);
      JsonRpc.JsonView(Request(id, methodName, params))
  }

  /** Without parameters the request has no `params` member at all. */
  lemma BareRequestView(id: Value, methodName: string)
    ensures var r := JsonRpc.JsonView(Obj(map["jsonrpc" := Str("2.0"), "id" := id, "method" := Str(methodName)]));
      && r.Obj? && r.props.Keys == {"jsonrpc", "method"} + (if JsonRpc.Serialisable(id) then {"id"} else {})
      && r.props["jsonrpc"] == Str("2.0") && r.props["method"] == Str(methodName)
  {
    var m := map["jsonrpc" := Str("2.0"), "id" := id, "method" := Str(methodName)];
    JsonRpc.ObjectView(m);
    var r := JsonRpc.JsonView(Obj(m));
    assert m["jsonrpc"] == Str("2.0") && m["method"] == Str(methodName) && m["id"] == id;
    assert m.Keys == {"jsonrpc", "id", "method"};
  }

  /** A scalar parameter arrives as a one-element array; a plain structured one arrives unchanged. */
  lemma ScalarParamsWrapped(id: Value, methodName: string, params: Value)
    ensures params.Num? || params.Str? ==> Written(id, methodName, params).props["params"] == Arr([params])
    ensures JsonRpc.Plain(params) && (params.Arr? || params.Obj?) ==> Written(id, methodName, params).props["params"] == params
  {
    if params.Num? || params.Str? {
      var w := JsonRpc.JsonView(Arr([params]));
      assert JsonRpc.JsonView(params) == params;
      assert w.items[0] == params;
      assert w == Arr([params]);
    }
    JsonRpc.PlainUnchanged(params);
  }

  /** How `_request` splits its argument list (the method name already shifted off). */
  datatype Split = Split(params: Value, callback: Option<nat>)

  /**
   * A function at the end is popped and becomes the callback, the remaining
   * arguments are the parameters (undefined when none remain); without a
   * function the whole list, possibly empty, is the parameters.
   */
  function SplitArgs(args: seq<Value>): (r: Split)
    ensures LastArg(args).Fn? ==> r.callback == Some(LastArg(args).ref)
    ensures LastArg(args).Fn? && |args| == 1 ==> r.params == Undefined
    ensures LastArg(args).Fn? && |args| > 1 ==> r.params == Arr(args[..|args| - 1])
    ensures !LastArg(args).Fn? ==> r.callback == None && r.params == Arr(args)
  {
    if LastArg(args).Fn? then
      var rest := args[..|args| - 1];
      Split(if rest == [] then Undefined else Arr(rest), Some(LastArg(args).ref))
    else Split(Arr(args), None)
  }

  /**
   * Requests built from an argument list always carry their parameters as an
   * array, or none at all exactly when the callback was the only argument, so
   * the boolean and object cases of the normalisation never arise here.
   */
  lemma {:induction false} ClientParamsStructured(id: Value, methodName: string, args: seq<Value>)
    ensures var w := Written(id, methodName, SplitArgs(args).params);
            && ("params" in w.props ==> w.props["params"].Arr?)
            && ("params" !in w.props <==> LastArg(args).Fn? && |args| == 1)
  {
    var p := SplitArgs(args).params;
    if p.Arr? {
      assert NormaliseParams(p) == Some(p);
      assert JsonRpc.JsonView(p).Arr?;
    }
  }

  /** The discovery call `['methods', callback]` sends no parameters. */
  lemma DiscoverySendsNoParams(f: nat)
    ensures SplitArgs([Fn(f)]) == Split(Undefined, Some(f))
    ensures "params" !in Written(Str("id"), "methods", Undefined).props
  {
  }

  class JaysonClient {
    const port: Option<int>
    const host: string
    const conn: Correlator
    const events: EventSurface
    const registry: Registry
    var connectCallback: Option<Callback>
    var socketOps: seq<SocketOp>

    constructor(port: Option<int>, host: string)
      ensures this.port == port && this.host == host
      ensures !conn.isConnected && conn.requests == map[] && conn.sent == [] && conn.effects == []
      ensures registry.methods == Arr([]) && registry.stubs == {}
      ensures events.listeners == [] && events.snapshot == None && events.emitted == []
      ensures connectCallback == None && socketOps == []
    {
      this.port := port;
      this.host := host;
      conn := new Correlator();
      events := new EventSurface();
      registry := new Registry();
      connectCallback := None;
      socketOps := [];
    }

    /** `_requestPush(id, method, params, callback)`, writing one JSON text. */
    method RequestPush(id: string, methodName: string, params: Value, callback: Callback)
      modifies conn
      ensures conn.PushStep(id, methodName, params, callback, Written(Str(id), methodName, params))
    {
      conn.Push(id, methodName, params, callback, Written(Str(id), methodName, params));
    }

    /**
     * `_request([method, ...args], resolve, reject)`: a callback at the end of
     * the list is used as it is, otherwise the promise adapter.
     */
    method Request(methodName: string, args: seq<Value>, id: string, promise: Option<nat>)
      requires LastArg(args).Fn? || promise.Some?
      modifies conn
      ensures var split := SplitArgs(args);
        conn.PushStep(id, methodName, split.params,
                      if split.callback.Some? then UserFn(split.callback.value) else Adapter(promise.value),
                      Written(Str(id), methodName, split.params))
    {
      var split := SplitArgs(args);
      if split.callback.Some? {
        RequestPush(id, methodName, split.params, UserFn(split.callback.value));
      } else {
        RequestPush(id, methodName, split.params, Adapter(promise.value));
      }
    }

    /**
     * Calling the stub installed for `name`: the name is prepended to the
     * arguments; with a callback at the end the client itself is returned,
     * otherwise a promise.
     */
    method Stub(name: string, args: seq<Value>, id: string, promise: nat) returns (r: Result<StubReturn>)
      modifies conn
      ensures name !in registry.stubs ==> r.Throws? && unchanged(conn)
      ensures name in registry.stubs && LastArg(args).Fn? ==>
        r == Ok(Chained)
        && conn.PushStep(id, name, SplitArgs(args).params, UserFn(LastArg(args).ref),
                         Written(Str(id), name, SplitArgs(args).params))
      ensures name in registry.stubs && !LastArg(args).Fn? ==>
        r == Ok(PromiseHandle(promise))
        && conn.PushStep(id, name, Arr(args), Adapter(promise), Written(Str(id), name, Arr(args)))
    {
      if name !in registry.stubs {
        return Throws(TypeError("client." + name + " is not a function"));
      }
      var full := [Str(name)] + args;
      if LastArg(full).Fn? {
        assert LastArg(args) == LastArg(full);
        Request(name, args, id, None);
        r := Ok(Chained);
      } else {
        Request(name, args, id, Some(promise));
        r := Ok(PromiseHandle(promise));
      }
    }

    /** `connect(callback)`. */
    method Connect(callback: Option<nat>, promise: nat) returns (r: StubReturn)
      modifies this
      ensures connectCallback == Some(ConnectCallback(callback, promise))
      ensures r == if callback.Some? then NoValue else PromiseHandle(promise)
      ensures socketOps == old(socketOps)
    {
      connectCallback := Some(ConnectCallback(callback, promise));
      r := if callback.Some? then NoValue else PromiseHandle(promise);
    }

    /** The socket's `connect` event: flag set, then `_request(['methods', callback])`. */
    method OnConnect(discoveryId: string)
      requires connectCallback.Some?
      modifies conn
      ensures conn.isConnected
      ensures conn.requests == old(conn.requests)[discoveryId := Pending("methods", Undefined, Discovery(connectCallback.value))]
      ensures conn.sent == old(conn.sent) + [Written(Str(discoveryId), "methods", Undefined)]
      ensures conn.effects == old(conn.effects)
    {
      conn.SetConnected(true);
      RequestPush(discoveryId, "methods", Undefined, Discovery(connectCallback.value));
    }

    /**
     * The `data` handler: no id check, no version stamp; an orphan is reported
     * as `error`, a match delivers `(error, result)` and deletes its entry.
     */
    method OnData(response: map<string, Value>)
      modifies conn, events, registry
      ensures var inbound := Classify(Decoder(false, "result", None), old(conn.requests), response);
        && conn.requests == Remaining(old(conn.requests), inbound)
        && conn.effects == old(conn.effects)
             + (if inbound.Matched? then Settle(inbound.entry.callback, inbound.error, Field(response, "result")) else [])
        && conn.sent == old(conn.sent) && conn.isConnected == old(conn.isConnected)
        && (if inbound.Orphan? then events.EmitStep("error", inbound.error) else unchanged(events))
        && (if inbound.Matched? && Installs(inbound.entry.callback, inbound.error) then
              registry.methods == Field(response, "result")
              && registry.stubs == old(registry.stubs) + EnumerableKeys(Field(response, "result"))
            else unchanged(registry))
    {
      var inbound := conn.Dispatch(Decoder(false, "result", None), response);
      if inbound.Orphan? {
        events.Emit("error", inbound.error);
      }
      if inbound.Matched? && Installs(inbound.entry.callback, inbound.error) {
        registry.Install(inbound.result);
      }
    }

    /**
     * The socket's `timeout` event: emit, then `_close()` clears the flag and
     * calls `end()` on `this.conn`, a field that is never set (the socket is
     * `_conn`), so the handler throws and the socket is not ended.
     */
    method OnTimeout() returns (c: Completion)
      modifies conn, events
      ensures events.EmitStep("timeout", Undefined)
      ensures c == Threw(TypeError("Cannot read properties of undefined (reading 'end')"))
      ensures !conn.isConnected
      ensures conn.requests == old(conn.requests) && conn.sent == old(conn.sent) && conn.effects == old(conn.effects)
    {
      events.Emit("timeout", Undefined);
      conn.SetConnected(false);
      c := Threw(TypeError("Cannot read properties of undefined (reading 'end')"));
    }

    /** The socket's `error` event: connect's callback gets the error, it is emitted, and the socket is destroyed. */
    method OnError(err: Value)
      requires connectCallback.Some?
      modifies this, conn, events
      ensures conn.effects == old(conn.effects) + Settle(old(connectCallback.value), err, Undefined)
      ensures events.EmitStep("error", err)
      ensures socketOps == old(socketOps) + [Destroy]
      ensures conn.isConnected == old(conn.isConnected) && conn.requests == old(conn.requests) && conn.sent == old(conn.sent)
      ensures connectCallback == old(connectCallback)
    {
      conn.Invoke(connectCallback.value, err, Undefined);
      events.Emit("error", err);
      socketOps := socketOps + [Destroy];
    }

    /** The socket's `close` event. */
    method OnClose()
      modifies conn, events
      ensures events.EmitStep("close", Undefined)
      ensures !conn.isConnected
      ensures conn.requests == old(conn.requests) && conn.sent == old(conn.sent) && conn.effects == old(conn.effects)
    {
      events.Emit("close", Undefined);
      conn.SetConnected(false);
    }

    /** The socket's `end` event: unlike the other clients, the socket is not destroyed. */
    method OnEnd()
      modifies conn, events
      ensures events.EmitStep("end", Undefined)
      ensures !conn.isConnected
      ensures conn.requests == old(conn.requests) && conn.sent == old(conn.sent) && conn.effects == old(conn.effects)
    {
      events.Emit("end", Undefined);
      conn.SetConnected(false);
    }

    /** The socket's `destroy` event. */
    method OnDestroy()
      modifies conn, events
      ensures events.EmitStep("destroy", Undefined)
      ensures !conn.isConnected
      ensures conn.requests == old(conn.requests) && conn.sent == old(conn.sent) && conn.effects == old(conn.effects)
    {
      events.Emit("destroy", Undefined);
      conn.SetConnected(false);
    }

    /** `close(callback)`: pending requests are counted and left in the table. */
    method Close(callback: Option<nat>) returns (pending: nat)
      modifies this, conn
      ensures pending == |old(conn.requests)|
      ensures conn.requests == old(conn.requests) && conn.isConnected == old(conn.isConnected) && conn.sent == old(conn.sent)
      ensures conn.effects == old(conn.effects) + (if callback.Some? then [Called(callback.value, Undefined, Undefined)] else [])
      ensures socketOps == old(socketOps) + [End] && connectCallback == old(connectCallback)
    {
      pending := conn.PendingCount();
      socketOps := socketOps + [End];
      if callback.Some? {
        conn.Invoke(UserFn(callback.value), Undefined, Undefined);
      }
    }
  }
}
