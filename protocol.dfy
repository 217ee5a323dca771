/**
 * What the four client variants share: pending-request entries and the
 * callbacks stored with them, the decoding profile of a response handler and
 * the matching of responses to pending requests, the stub calling convention,
 * the discovered-method registry and the event surface.
 */
module Protocol {
  import opened JsValues

  // ---------------------------------------------------------------------
  // Pending requests and their callbacks
  // ---------------------------------------------------------------------

  /** The function stored with a pending request. */
  datatype Callback =
    | UserFn(f: nat)             // a function the caller passed
    | Adapter(promise: nat)      // (err, result) => err ? reject(err) : resolve(result), for one promise
    | Discovery(done: Callback)  // the callback of the `methods` request; `done` is connect's callback

  datatype Pending = Pending(methodName: string, params: Value, callback: Callback)

  /** What invoking a callback makes visible to the caller. */
  datatype Effect =
    | Called(f: nat, err: Value, result: Value)
    | Resolved(promise: nat, value: Value)
    | Rejected(promise: nat, reason: Value)

  datatype Event = Event(name: string, payload: Value)

  /** `new Error('not connected')`, passed to a callback when the client is disconnected. */
  const NotConnected: Value := ErrorObj("not connected")

  /** The key a `versions` result is stamped with. */
  const VersionKey: string := "sloki-node-client"

  /** The caller-side function a callback finally reaches. */
  function Root(cb: Callback): (r: Callback)
    ensures !r.Discovery?
  {
    match cb
    case Discovery(done) => Root(done)
    case _ => cb
  }

  predicate AddressedTo(e: Effect, cb: Callback)
  {
    match e
    case Called(f, _, _) => cb == UserFn(f)
    case Resolved(p, _) => cb == Adapter(p)
    case Rejected(p, _) => cb == Adapter(p)
  }

  /** Whether invoking `cb` with `err` installs the discovered methods. */
  predicate Installs(cb: Callback, err: Value)
  {
    cb.Discovery? && !Truthy(err)
  }

  /**
   * The effect of invoking `cb(err, result)`. The promise adapter rejects on a
   * truthy error and otherwise resolves; the discovery callback hands connect's
   * callback either the error or nothing.
   */
  function Settle(cb: Callback, err: Value, result: Value): (r: seq<Effect>)
    ensures |r| == 1 && AddressedTo(r[0], Root(cb))
    ensures cb.Adapter? ==> r[0] == (if Truthy(err) then Rejected(cb.promise, err) else Resolved(cb.promise, result))
    decreases cb
  {
    match cb
    case UserFn(f) => [Called(f, err, result)]
    case Adapter(p) => if Truthy(err) then [Rejected(p, err)] else [Resolved(p, result)]
    case Discovery(done) => if Truthy(err) then Settle(done, err, Undefined) else Settle(done, Undefined, Undefined)
  }

  /**
   * Discovery reports to connect's callback: the error when the `methods` call
   * failed, nothing otherwise; a promise-style connect rejects or resolves with
   * undefined accordingly.
   */
  lemma DiscoveryReportsToConnect(p: nat, f: nat, err: Value, result: Value)
    ensures Settle(Discovery(Adapter(p)), err, result)
            == if Truthy(err) then [Rejected(p, err)] else [Resolved(p, Undefined)]
    ensures Settle(Discovery(UserFn(f)), err, result)
            == if Truthy(err) then [Called(f, err, Undefined)] else [Called(f, Undefined, Undefined)]
  {
  }

  // ---------------------------------------------------------------------
  // Matching responses to pending requests
  // ---------------------------------------------------------------------

  /**
   * How one response handler reads a decoded response: whether it drops a
   * response with a falsy id first, which field holds the result, and the
   * client version it stamps `versions` results with (None: no stamping).
   */
  datatype Decoder = Decoder(requireId: bool, resultField: string, version: Option<string>)

  /** What the handler does with one response. */
  datatype Inbound =
    | Dropped
    | Orphan(error: Value)
    | Matched(key: string, entry: Pending, error: Value, result: Value)

  /**
   * The result of a `versions` call as the caller receives it: an object gains
   * the client's version under VersionKey and keeps every other key. An array
   * result gets a named property that has no place in this model, so it is
   * delivered as is; null is delivered as is (see StampVersionAsWritten).
   */
  function StampVersion(result: Value, version: string): (r: Value)
    ensures result.Obj? ==> r.Obj? && r.props.Keys == result.props.Keys + {VersionKey}
    ensures result.Obj? ==> r.props[VersionKey] == Str(version)
    ensures result.Obj? ==> forall k :: k in result.props && k != VersionKey ==> r.props[k] == result.props[k]
    ensures !result.Obj? ==> r == result
  {
    match result
    case Obj(m) => Obj(m[VersionKey := Str(version)])
    case _ => result
  }

  /**
   * The stamping statement as written: `typeof r === 'object'` also holds for
   * null, and assigning a property of null throws a TypeError.
   */
  function StampVersionAsWritten(result: Value, version: string): Result<Value>
  {
    if TypeOf(result) == "object" && result.Null? then Throws(TypeError("Cannot set properties of null"))
    else Ok(StampVersion(result, version))
  }

  /** A `versions` response whose result is null makes the handler throw before the callback runs. */
  lemma NullVersionsResultThrows(version: string)
    ensures StampVersionAsWritten(Null, version).Throws?
    ensures StampVersion(Null, version) == Null
  {
  }

  /** Apart from null, the statement as written and the corrected stamping agree. */
  lemma StampingAgreesOffNull(result: Value, version: string)
    requires !result.Null?
    ensures StampVersionAsWritten(result, version) == Ok(StampVersion(result, version))
  {
  }

  /** The table key a response's id selects (`this._requests[response.id]`). */
  function KeyOf(response: map<string, Value>): string
  {
    PropertyKey(Field(response, "id"))
  }

  function Classify(dec: Decoder, requests: map<string, Pending>, response: map<string, Value>): (r: Inbound)
    ensures r.Dropped? <==> dec.requireId && !Truthy(Field(response, "id"))
    ensures r.Orphan? <==> !r.Dropped? && KeyOf(response) !in requests
    ensures r.Orphan? ==> r.error == Field(response, "error")
    ensures r.Matched? ==> r.key == KeyOf(response) && r.key in requests && r.entry == requests[r.key]
    ensures r.Matched? ==> r.error == Field(response, "error")
    ensures r.Matched? && (dec.version.None? || r.entry.methodName != "versions")
            ==> r.result == Field(response, dec.resultField)
    ensures r.Matched? && dec.version.Some? && r.entry.methodName == "versions"
            ==> r.result == StampVersion(Field(response, dec.resultField), dec.version.value)
  {
    var id := Field(response, "id");
    if dec.requireId && !Truthy(id) then Dropped
    else
      var key := PropertyKey(id);
      if key !in requests then Orphan(Field(response, "error"))
      else
        var entry := requests[key];
        var raw := Field(response, dec.resultField);
        var result :=
          if dec.version.Some? && entry.methodName == "versions" && TypeOf(raw) == "object"
          then StampVersion(raw, dec.version.value) else raw;
        Matched(key, entry, Field(response, "error"), result)
  }

  /** The table after the handler: a matched entry is deleted, nothing else changes. */
  function Remaining(requests: map<string, Pending>, inbound: Inbound): (r: map<string, Pending>)
    ensures inbound.Matched? ==> r == requests - {inbound.key}
    ensures !inbound.Matched? ==> r == requests
  {
    if inbound.Matched? then requests - {inbound.key} else requests
  }

  /** Handling responses one after another, each against the table the previous ones left. */
  function Replay(dec: Decoder, requests: map<string, Pending>, responses: seq<map<string, Value>>)
    : (map<string, Pending>, seq<Inbound>)
    decreases |responses|
  {
    if responses == [] then (requests, [])
    else
      var first := Classify(dec, requests, responses[0]);
      var (rest, outs) := Replay(dec, Remaining(requests, first), responses[1..]);
      (rest, [first] + outs)
  }

  /** The handler looks only at the entry its response's id selects. */
  lemma ClassifyIgnoresOtherKeys(dec: Decoder, requests: map<string, Pending>, k: string, response: map<string, Value>)
    requires KeyOf(response) != k
    ensures Classify(dec, requests - {k}, response) == Classify(dec, requests, response)
  {
  }

  predicate Answerable(dec: Decoder, requests: map<string, Pending>, response: map<string, Value>)
  {
    (dec.requireId ==> Truthy(Field(response, "id"))) && KeyOf(response) in requests
  }

  /** The keys a sequence of responses selects. */
  function KeysOf(responses: seq<map<string, Value>>): set<string>
  {
    set i | 0 <= i < |responses| :: KeyOf(responses[i])
  }

  lemma KeysOfSplit(responses: seq<map<string, Value>>)
    requires responses != []
    ensures KeysOf(responses) == {KeyOf(responses[0])} + KeysOf(responses[1..])
  {
    var tail := responses[1..];
    forall x | x in KeysOf(responses) ensures x in {KeyOf(responses[0])} + KeysOf(tail) {
      var i :| 0 <= i < |responses| && x == KeyOf(responses[i]);
      if i > 0 { assert x == KeyOf(tail[i - 1]); }
    }
    forall x | x in KeysOf(tail) ensures x in KeysOf(responses) {
      var i :| 0 <= i < |tail| && x == KeyOf(tail[i]);
      assert x == KeyOf(responses[i + 1]);
    }
  }

  /** One step of `Replay` when the first response answers a pending request. */
  lemma ReplayFirst(dec: Decoder, requests: map<string, Pending>, responses: seq<map<string, Value>>)
    requires responses != [] && Answerable(dec, requests, responses[0])
    ensures var smaller := requests - {KeyOf(responses[0])};
      Replay(dec, requests, responses)
      == (Replay(dec, smaller, responses[1..]).0,
          [Classify(dec, requests, responses[0])] + Replay(dec, smaller, responses[1..]).1)
  {
  }

  /** Taking out the first response's entry changes nothing for the other responses. */
  lemma TailUnaffected(dec: Decoder, requests: map<string, Pending>, responses: seq<map<string, Value>>)
    requires responses != []
    requires forall i :: 0 <= i < |responses| ==> Answerable(dec, requests, responses[i])
    requires forall i, j :: 0 <= i < j < |responses| ==> KeyOf(responses[i]) != KeyOf(responses[j])
    ensures var smaller := requests - {KeyOf(responses[0])};
      var tail := responses[1..];
      && (forall i :: 0 <= i < |tail| ==> Answerable(dec, smaller, tail[i]))
      && (forall i :: 0 <= i < |tail| ==> Classify(dec, smaller, tail[i]) == Classify(dec, requests, tail[i]))
      && (forall i, j :: 0 <= i < j < |tail| ==> KeyOf(tail[i]) != KeyOf(tail[j]))
  {
    var k := KeyOf(responses[0]);
    var tail := responses[1..];
    forall i | 0 <= i < |tail|
      ensures Answerable(dec, requests - {k}, tail[i])
      ensures Classify(dec, requests - {k}, tail[i]) == Classify(dec, requests, tail[i])
    {
      assert tail[i] == responses[i + 1];
      ClassifyIgnoresOtherKeys(dec, requests, k, tail[i]);
    }
    forall i, j | 0 <= i < j < |tail| ensures KeyOf(tail[i]) != KeyOf(tail[j]) {
      assert tail[i] == responses[i + 1] && tail[j] == responses[j + 1];
    }
  }

  /**
   * Correlation: when every response answers a different pending request,
   * handling them in arrival order gives each one the outcome it would get
   * against the original table, whatever the order, and removes exactly the
   * answered entries.
   */
  lemma {:induction false} ReplayCorrelates(dec: Decoder, requests: map<string, Pending>, responses: seq<map<string, Value>>)
    requires forall i :: 0 <= i < |responses| ==> Answerable(dec, requests, responses[i])
    requires forall i, j :: 0 <= i < j < |responses| ==> KeyOf(responses[i]) != KeyOf(responses[j])
    ensures |Replay(dec, requests, responses).1| == |responses|
    ensures forall i :: 0 <= i < |responses| ==>
              Replay(dec, requests, responses).1[i] == Classify(dec, requests, responses[i])
              && Replay(dec, requests, responses).1[i].Matched?
    ensures Replay(dec, requests, responses).0 == requests - KeysOf(responses)
    decreases |responses|
  {
    if responses != [] {
      var k := KeyOf(responses[0]);
      var smaller := requests - {k};
      var tail := responses[1..];
      TailUnaffected(dec, requests, responses);
      ReplayCorrelates(dec, smaller, tail);
      ReplayFirst(dec, requests, responses);
      var whole := Replay(dec, requests, responses);
      var outs := Replay(dec, smaller, tail).1;
      forall i | 0 <= i < |responses|
        ensures whole.1[i] == Classify(dec, requests, responses[i]) && whole.1[i].Matched?
      {
        if i > 0 {
          assert whole.1[i] == outs[i - 1] && responses[i] == tail[i - 1];
        }
      }
      KeysOfSplit(responses);
      assert requests - KeysOf(responses) == smaller - KeysOf(tail);
    }
  }

  /** Two answers to two different pending requests may arrive in either order. */
  lemma AnswersCommute(dec: Decoder, requests: map<string, Pending>, a: map<string, Value>, b: map<string, Value>)
    requires Answerable(dec, requests, a) && Answerable(dec, requests, b)
    requires KeyOf(a) != KeyOf(b)
    ensures Replay(dec, requests, [a, b]).0 == Replay(dec, requests, [b, a]).0 == requests - {KeyOf(a), KeyOf(b)}
    ensures Replay(dec, requests, [a, b]).1 == [Classify(dec, requests, a), Classify(dec, requests, b)]
    ensures Replay(dec, requests, [b, a]).1 == [Classify(dec, requests, b), Classify(dec, requests, a)]
  {
    ReplayCorrelates(dec, requests, [a, b]);
    ReplayCorrelates(dec, requests, [b, a]);
    KeysOfPair(a, b);
    KeysOfPair(b, a);
  }

  lemma KeysOfPair(a: map<string, Value>, b: map<string, Value>)
    ensures KeysOf([a, b]) == {KeyOf(a), KeyOf(b)}
  {
    assert KeyOf([a, b][0]) == KeyOf(a) && KeyOf([a, b][1]) == KeyOf(b);
  }

  /**
   * The request table and connection flag every client keeps, with what it
   * writes to the socket (`sent`, one envelope per request) and the callbacks
   * it invokes (`effects`, in order).
   */
  class Correlator {
    var isConnected: bool
    var requests: map<string, Pending>
    var sent: seq<Value>
    var effects: seq<Effect>

    constructor()
      ensures !isConnected && requests == map[] && sent == [] && effects == []
    {
      isConnected := false;
      requests := map[];
      sent := [];
      effects := [];
    }

    /**
     * The state change of `requestPush(id, method, params, callback)`: while
     * disconnected the callback gets Error('not connected') and nothing is
     * recorded or sent; while connected the entry is stored under `id`
     * (replacing any entry with the same id), every other entry is kept, and
     * exactly one envelope is sent.
     */
    twostate predicate PushStep(id: string, methodName: string, params: Value, callback: Callback, envelope: Value)
      reads this
    {
      && isConnected == old(isConnected)
      && (if old(isConnected) then
            && requests == old(requests)[id := Pending(methodName, params, callback)]
            && sent == old(sent) + [envelope]
            && effects == old(effects)
          else
            && requests == old(requests)
            && sent == old(sent)
            && effects == old(effects) + Settle(callback, NotConnected, Undefined))
    }

    method Push(id: string, methodName: string, params: Value, callback: Callback, envelope: Value)
      modifies this
      ensures PushStep(id, methodName, params, callback, envelope)
    {
      if !isConnected {
        Invoke(callback, NotConnected, Undefined);
        return;
      }
      Record(id, Pending(methodName, params, callback));
      Send(envelope);
    }

    /** `this._requests[id] = entry`. */
    method Record(id: string, entry: Pending)
      modifies this
      ensures requests == old(requests)[id := entry]
      ensures isConnected == old(isConnected) && sent == old(sent) && effects == old(effects)
    {
      requests := requests[id := entry];
    }

    /** One write to the socket. */
    method Send(envelope: Value)
      modifies this
      ensures sent == old(sent) + [envelope]
      ensures isConnected == old(isConnected) && requests == old(requests) && effects == old(effects)
    {
      sent := sent + [envelope];
    }

    /** Invoking a callback directly. */
    method Invoke(callback: Callback, err: Value, result: Value)
      modifies this
      ensures effects == old(effects) + Settle(callback, err, result)
      ensures isConnected == old(isConnected) && requests == old(requests) && sent == old(sent)
    {
      effects := effects + Settle(callback, err, result);
    }

    method SetConnected(b: bool)
      modifies this
      ensures isConnected == b
      ensures requests == old(requests) && sent == old(sent) && effects == old(effects)
    {
      isConnected := b;
    }

    /**
     * A response handler's bookkeeping: the entry the id selects (if any) has
     * its callback invoked once with the error and result and is then deleted;
     * nothing else in the table changes and nothing is sent.
     */
    method Dispatch(dec: Decoder, response: map<string, Value>) returns (inbound: Inbound)
      modifies this
      ensures inbound == Classify(dec, old(requests), response)
      ensures requests == Remaining(old(requests), inbound)
      ensures effects == old(effects) + (if inbound.Matched? then Settle(inbound.entry.callback, inbound.error, inbound.result) else [])
      ensures isConnected == old(isConnected) && sent == old(sent)
    {
      inbound := Classify(dec, requests, response);
      if inbound.Matched? {
        Invoke(inbound.entry.callback, inbound.error, inbound.result);
        requests := requests - {inbound.key};
      }
    }

    /** `Object.keys(this._requests).length`. */
    method PendingCount() returns (n: nat)
      ensures n == |requests.Keys|
    {
      n := |requests.Keys|;
    }
  }

  // ---------------------------------------------------------------------
  // Stub calling convention
  // ---------------------------------------------------------------------

  /** A request as `_request(op)` receives it: a callback, a resolve/reject pair (one promise), or neither. */
  datatype Op = Op(methodName: string, params: Value, callback: Option<Callback>, promise: Option<nat>)

  /** What a client asks of its socket. */
  datatype SocketOp = End | Destroy

  /** The callback `connect` hands to the socket: the caller's, or one settling the promise `connect` returns. */
  function ConnectCallback(callback: Option<nat>, promise: nat): (r: Callback)
    ensures callback.Some? ==> r == UserFn(callback.value)
    ensures callback.None? ==> r == Adapter(promise)
  {
    if callback.Some? then UserFn(callback.value) else Adapter(promise)
  }

  /** How a stub call resolves. */
  datatype Convention = WithCallback(f: nat) | FireAndForget | AsPromise

  /** What a stub call returns to its caller. */
  datatype StubReturn = NoValue | PromiseHandle(promise: nat) | Chained

  function LastArg(args: seq<Value>): Value
  {
    if args == [] then Undefined else args[|args| - 1]
  }

  /** `args[0] || undefined`: the parameters a stub sends. */
  function FirstParams(args: seq<Value>): (r: Value)
    ensures Truthy(r) || r == Undefined
    ensures args != [] && Truthy(args[0]) ==> r == args[0]
  {
    if args != [] && Truthy(args[0]) then args[0] else Undefined
  }

  /**
   * The three-way choice on the last argument: a function means callback, a
   * non-null object with a truthy `lazy` means fire-and-forget, anything else
   * (nothing, null, a scalar) means a promise.
   */
  function StubConvention(args: seq<Value>): (r: Convention)
    ensures LastArg(args).Fn? <==> r.WithCallback?
    ensures r.WithCallback? ==> LastArg(args) == Fn(r.f)
    ensures r.FireAndForget? <==>
              TypeOf(LastArg(args)) == "object" && !IsNullish(LastArg(args)) && Truthy(GetProp(LastArg(args), "lazy"))
  {
    var last := LastArg(args);
    if TypeOf(last) == "function" then WithCallback(last.ref)
    else if !IsNullish(last) && TypeOf(last) == "object" && Truthy(GetProp(last, "lazy")) then FireAndForget
    else AsPromise
  }

  /** A null or missing last argument, or a lazy flag that is falsy, never makes a call fire-and-forget. */
  lemma StubConventionDefaultsToPromise(args: seq<Value>, params: Value, m: map<string, Value>)
    ensures StubConvention(args + [Null]) == AsPromise
    ensures StubConvention([]) == AsPromise
    ensures !Truthy(Field(m, "lazy")) ==> StubConvention(args + [Obj(m)]) == AsPromise
    ensures Truthy(Field(m, "lazy")) ==> StubConvention(args + [Obj(m)]) == FireAndForget
  {
    assert LastArg(args + [Null]) == Null;
    assert LastArg(args + [Obj(m)]) == Obj(m);
  }

  // ---------------------------------------------------------------------
  // Discovered methods
  // ---------------------------------------------------------------------

  const MethodNotFound: Value := Str("method not found")

  /**
   * `getMethodDescription(name)`: 'method not found' unless `methods[name]` is
   * truthy, then its `description`. Reading a property of null or undefined
   * throws, which happens when discovery returned nothing.
   */
  function DescriptionOf(methods: Value, name: string): (r: Result<Value>)
    ensures r.Throws? <==> IsNullish(methods)
    ensures r.Ok? && !Truthy(GetProp(methods, name)) ==> r.value == MethodNotFound
    ensures r.Ok? && Truthy(GetProp(methods, name)) ==> r.value == GetProp(GetProp(methods, name), "description")
  {
    if IsNullish(methods) then Throws(TypeError("Cannot read properties of " + PropertyKey(methods)))
    else
      var entry := GetProp(methods, name);
      if !Truthy(entry) then Ok(MethodNotFound) else Ok(GetProp(entry, "description"))
  }

  /** Before discovery the registry is an empty array: every name is 'method not found'. */
  lemma {:induction false} NothingFoundBeforeDiscovery(name: string)
    ensures DescriptionOf(Arr([]), name) == Ok(MethodNotFound)
    ensures ObjectKeys(Arr([])) == Ok({})
  {
    assert !Truthy(GetProp(Arr([]), name)) by {
      if name != "length" {
        match CanonicalIndex(name)
        case Some(i) => assert !(i < 0);
        case None =>
      }
    }
    assert forall k :: k !in EnumerableKeys(Arr([]));
    assert EnumerableKeys(Arr([])) == {};
  }

  /** After discovery of a method map: found exactly for the names with a truthy descriptor. */
  lemma DescriptionAfterDiscovery(m: map<string, Value>, name: string)
    ensures name in m && Truthy(m[name]) ==> DescriptionOf(Obj(m), name) == Ok(GetProp(m[name], "description"))
    ensures !(name in m && Truthy(m[name])) ==> DescriptionOf(Obj(m), name) == Ok(MethodNotFound)
    ensures ObjectKeys(Obj(m)) == Ok(m.Keys)
  {
  }

  /** The discovered-method registry: `_methods` and the stubs installed on the client. */
  class Registry {
    var methods: Value
    var stubs: set<string>

    constructor()
      ensures methods == Arr([]) && stubs == {}
    {
      methods := Arr([]);
      stubs := {};
    }

    /**
     * The success branch of the `methods` callback: `_methods` becomes the
     * response and a stub is installed under each of its keys. Stubs from an
     * earlier discovery stay in place.
     */
    method Install(discovered: Value)
      modifies this
      ensures methods == discovered
      ensures stubs == old(stubs) + EnumerableKeys(discovered)
    {
      methods := discovered;
      var todo := EnumerableKeys(discovered);
      while todo != {}
        invariant todo <= EnumerableKeys(discovered)
        invariant stubs == old(stubs) + (EnumerableKeys(discovered) - todo)
        invariant methods == discovered
        decreases todo
      {
        var name :| name in todo;
        stubs := stubs + {name};
        todo := todo - {name};
      }
    }

    /** `getMethodsName()`: `Object.keys(this._methods)`, which throws when discovery returned nothing. */
    method Names() returns (r: Result<set<string>>)
      ensures r.Throws? <==> IsNullish(methods)
      ensures r.Ok? ==> r.value == EnumerableKeys(methods)
    {
      r := ObjectKeys(methods);
    }

    /** `getMethodDescription(name)`. */
    method Description(name: string) returns (r: Result<Value>)
      ensures r == DescriptionOf(methods, name)
    {
      r := DescriptionOf(methods, name);
    }
  }

  // ---------------------------------------------------------------------
  // Event surface
  // ---------------------------------------------------------------------

  /** The set a snapshot holds once it is taken: an earlier snapshot is never refreshed. */
  function Primed(snapshot: Option<set<string>>, listeners: seq<string>): set<string>
  {
    if snapshot.Some? then snapshot.value else set i | 0 <= i < |listeners| :: listeners[i]
  }

  /**
   * The client's events: the names that have listeners (`eventNames()`), the
   * `_eventsByName` snapshot taken from them on the first emission, and what
   * was emitted.
   */
  class EventSurface {
    var listeners: seq<string>
    var snapshot: Option<set<string>>
    var emitted: seq<Event>

    constructor()
      ensures listeners == [] && snapshot == None && emitted == []
    {
      listeners := [];
      snapshot := None;
      emitted := [];
    }

    /** `client.on(name, ...)`: the name joins `eventNames()`; the snapshot is left alone. */
    method On(name: string)
      modifies this
      ensures listeners == if name in old(listeners) then old(listeners) else old(listeners) + [name]
      ensures snapshot == old(snapshot) && emitted == old(emitted)
    {
      if name !in listeners {
        listeners := listeners + [name];
      }
    }

    /** `_eventExists(name)`: takes the snapshot on the first call, then only reads it. */
    method Exists(name: string) returns (b: bool)
      modifies this
      ensures snapshot == Some(Primed(old(snapshot), old(listeners)))
      ensures b == (name in snapshot.value)
      ensures listeners == old(listeners) && emitted == old(emitted)
    {
      if snapshot.Some? {
        return name in snapshot.value;
      }
      var names: set<string> := {};
      var i := 0;
      while i < |listeners|
        invariant 0 <= i <= |listeners|
        invariant names == set j | 0 <= j < i :: listeners[j]
      {
        names := names + {listeners[i]};
        i := i + 1;
      }
      snapshot := Some(names);
      b := name in names;
    }

    /** The state change of `_emit(name, payload)`. */
    twostate predicate EmitStep(name: string, payload: Value)
      reads this
    {
      && listeners == old(listeners)
      && snapshot == Some(Primed(old(snapshot), old(listeners)))
      && emitted == old(emitted) + (if name in snapshot.value then [Event(name, payload)] else [])
    }

    /** `_emit(name, payload)`: emits only names the snapshot holds. */
    method Emit(name: string, payload: Value)
      modifies this
      ensures EmitStep(name, payload)
    {
      var b := Exists(name);
      if b {
        emitted := emitted + [Event(name, payload)];
      }
    }
  }
}
