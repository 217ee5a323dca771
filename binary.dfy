/**
 * The binary (missive) application layer: the short-field request record and
 * the profile of its `message` handler.
 */
module Binary {
  import opened JsValues
  import opened Protocol

  /** A request as the server reads it back from a record. */
  datatype Request = Request(id: Value, methodName: string, params: Value)

  /** `{id, m: method}`, plus `p` only when the parameters are truthy. */
  function Record(id: Value, methodName: string, params: Value): (r: Value)
    ensures r.Obj? && r.props.Keys == {"id", "m"} + (if Truthy(params) then {"p"} else {})
    ensures r.props["id"] == id && r.props["m"] == Str(methodName)
    ensures "p" in r.props ==> r.props["p"] == params
  {
    var base := map["id" := id, "m" := Str(methodName)];
    if Truthy(params) then Obj(base["p" := params]) else Obj(base)
  }

  /** The receiving side: the id, the method name and the parameters (undefined when absent). */
  function Read(record: Value): (r: Option<Request>)
    ensures r.Some? <==> record.Obj? && Field(record.props, "m").Str?
  {
    if record.Obj? && Field(record.props, "m").Str? then
      Some(Request(Field(record.props, "id"), Field(record.props, "m").s, Field(record.props, "p")))
    else None
  }

  /**
   * Reading a record back gives the request it was built from, except that
   * falsy parameters arrive as undefined: they were never written.
   */
  lemma ReadRecord(id: Value, methodName: string, params: Value)
    ensures Read(Record(id, methodName, params)) == Some(Request(id, methodName, if Truthy(params) then params else Undefined))
  {
  }

  /** Two requests with truthy parameters have the same record only if they are the same request. */
  lemma RecordInjective(a: Request, b: Request)
    requires Truthy(a.params) && Truthy(b.params)
    requires Record(a.id, a.methodName, a.params) == Record(b.id, b.methodName, b.params)
    ensures a == b
  {
    ReadRecord(a.id, a.methodName, a.params);
    ReadRecord(b.id, b.methodName, b.params);
  }

  /**
   * The `message` handler: a response without a truthy `id` is dropped, the
   * result is read from `r`, and `versions` results are stamped.
   */
  function MessageDecoder(version: string): (d: Decoder)
    ensures d.requireId && d.resultField == "r" && d.version == Some(version)
  {
    Decoder(true, "r", Some(version))
  }

  /** A response with a falsy id changes nothing, whatever the table holds. */
  lemma FalsyIdDropped(version: string, requests: map<string, Pending>, response: map<string, Value>)
    requires !Truthy(Field(response, "id"))
    ensures Classify(MessageDecoder(version), requests, response) == Dropped
    ensures Remaining(requests, Classify(MessageDecoder(version), requests, response)) == requests
  {
  }
}
