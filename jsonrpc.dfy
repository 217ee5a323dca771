/**
 * The JSON-RPC 2.0 application layer: the request object of section 4 of the
 * JSON-RPC 2.0 specification, what of it survives `JSON.stringify`, and the
 * profile of its `data` handler.
 */
module JsonRpc {
  import opened JsValues
  import opened Protocol

  /** Values `JSON.stringify` leaves out of an object (and writes as null inside an array). */
  predicate Serialisable(v: Value)
  {
    !(v.Undefined? || v.Fn?)
  }

  /** Values JSON text can hold as they are: no undefined, function or error object anywhere inside. */
  predicate Plain(v: Value)
    decreases v
  {
    match v
    case Undefined => false
    case Fn(_) => false
    case ErrorObj(_) => false
    case Arr(items) => forall i :: 0 <= i < |items| ==> Plain(items[i])
    case Obj(m) => forall k :: k in m ==> Plain(m[k])
    case _ => true
  }

  /**
   * What a receiver parses from `JSON.stringify(v)`: undefined and function
   * members are dropped from objects and become null in arrays, and an error
   * object has no enumerable field. Undefined stands for "no text at all".
   */
  function JsonView(v: Value): (r: Value)
    ensures Serialisable(r) <==> Serialisable(v)
    decreases v
  {
    match v
    case Undefined => Undefined
    case Fn(_) => Undefined
    case ErrorObj(_) => Obj(map[])
    case Arr(items) =>
      Arr(seq(|items|, i requires 0 <= i < |items| => if Serialisable(items[i]) then JsonView(items[i]) else Null))
    case Obj(m) => Obj(map k | k in m && Serialisable(m[k]) :: JsonView(m[k]))
    case _ => v
  }

  /** Everything a serialisable value turns into is plain JSON. */
  lemma {:induction false} JsonViewIsPlain(v: Value)
    requires Serialisable(v)
    ensures Plain(JsonView(v))
    decreases v
  {
    match v
    case Arr(items) =>
      var r := JsonView(v);
      forall i | 0 <= i < |r.items| ensures Plain(r.items[i]) {
        if Serialisable(items[i]) { JsonViewIsPlain(items[i]); }
      }
    case Obj(m) =>
      var r := JsonView(v);
      forall k | k in r.props ensures Plain(r.props[k]) {
        JsonViewIsPlain(m[k]);
      }
    case _ =>
  }

  /** Plain values go through JSON unchanged. */
  lemma {:induction false} PlainUnchanged(v: Value)
    ensures Plain(v) ==> JsonView(v) == v
    decreases v
  {
    if Plain(v) {
      match v
      case Arr(items) =>
        var r := JsonView(v);
        forall i | 0 <= i < |items| ensures r.items[i] == items[i] {
          assert Plain(items[i]);
          PlainUnchanged(items[i]);
        }
      case Obj(m) =>
        var r := JsonView(v);
        forall k | k in m ensures k in r.props && r.props[k] == m[k] {
          assert Plain(m[k]);
          PlainUnchanged(m[k]);
        }
      case _ =>
    }
  }

  /** Serialising what was parsed gives the same value back. */
  lemma JsonViewIdempotent(v: Value)
    requires Serialisable(v)
    ensures JsonView(JsonView(v)) == JsonView(v)
  {
    JsonViewIsPlain(v);
    PlainUnchanged(JsonView(v));
  }

  /** `{jsonrpc: '2.0', id, method, params}`, before serialisation. */
  function Request(id: Value, methodName: string, params: Value): Value
  {
    Obj(map["jsonrpc" := Str("2.0"), "id" := id, "method" := Str(methodName), "params" := params])
  }

  /**
   * The one JSON text written for a request, as the server parses it: the
   * version tag and method are always there, the parameters are passed through
   * as they are (no array wrapping) and are absent only when not serialisable.
   */
  function Written(id: Value, methodName: string, params: Value): (r: Value)
    ensures r.Obj? && r.props.Keys == {"jsonrpc", "method"}
                                      + (if Serialisable(id) then {"id"} else {})
                                      + (if Serialisable(params) then {"params"} else {})
    ensures r.props["jsonrpc"] == Str("2.0") && r.props["method"] == Str(methodName)
    ensures Plain(id) ==> r.props["id"] == id
    ensures Plain(params) ==> r.props["params"] == params
  {
    RequestView(id, methodName, params);
    JsonView(Request(id, methodName, params))
  }

  /** An object keeps exactly its serialisable members, each as JSON sees it. */
  lemma ObjectView(m: map<string, Value>)
    ensures JsonView(Obj(m)).Obj?
    ensures forall k :: k in JsonView(Obj(m)).props <==> k in m && Serialisable(m[k])
    ensures forall k :: k in JsonView(Obj(m)).props ==> JsonView(Obj(m)).props[k] == JsonView(m[k])
  {
  }

  lemma RequestView(id: Value, methodName: string, params: Value)
    ensures var r := JsonView(Request(id, methodName, params));
      && r.Obj? && r.props.Keys == {"jsonrpc", "method"}
                                   + (if Serialisable(id) then {"id"} else {})
                                   + (if Serialisable(params) then {"params"} else {})
      && r.props["jsonrpc"] == Str("2.0") && r.props["method"] == Str(methodName)
      && (Plain(id) ==> r.props["id"] == id)
      && (Plain(params) ==> r.props["params"] == params)
  {
    var m := map["jsonrpc" := Str("2.0"), "id" := id, "method" := Str(methodName), "params" := params];
    ObjectView(m);
    var r := JsonView(Obj(m));
    RequestViewFields(id, methodName, params, m, r);
    PlainUnchanged(id);
    PlainUnchanged(params);
  }

  lemma RequestViewFields(id: Value, methodName: string, params: Value, m: map<string, Value>, r: Value)
    requires m == map["jsonrpc" := Str("2.0"), "id" := id, "method" := Str(methodName), "params" := params]
    requires r.Obj?
    requires forall k :: k in r.props <==> k in m && Serialisable(m[k])
    requires forall k :: k in r.props ==> r.props[k] == JsonView(m[k])
    ensures r.props.Keys == {"jsonrpc", "method"}
                            + (if Serialisable(id) then {"id"} else {})
                            + (if Serialisable(params) then {"params"} else {})
    ensures r.props["jsonrpc"] == Str("2.0") && r.props["method"] == Str(methodName)
    ensures "id" in r.props ==> r.props["id"] == JsonView(id)
    ensures "params" in r.props ==> r.props["params"] == JsonView(params)
  {
    assert m["jsonrpc"] == Str("2.0") && m["method"] == Str(methodName);
    assert m["id"] == id && m["params"] == params;
  }

  /**
   * The `data` handler: there is no separate id check (a missing id selects
   * the key "undefined"), the result is read from `result`, and `versions`
   * results are stamped.
   */
  function DataDecoder(version: string): (d: Decoder)
    ensures !d.requireId && d.resultField == "result" && d.version == Some(version)
  {
    Decoder(false, "result", Some(version))
  }

  /** Unlike the binary handler, this one never drops a response: it is matched or reported. */
  lemma NeverDropped(version: string, requests: map<string, Pending>, response: map<string, Value>)
    ensures !Classify(DataDecoder(version), requests, response).Dropped?
    ensures "id" !in response && "undefined" !in requests ==> Classify(DataDecoder(version), requests, response).Orphan?
  {
  }
}
