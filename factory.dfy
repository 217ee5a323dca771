/**
 * index.js: the exported `Client(url, options)` factory. It checks the URL's
 * scheme, merges the caller's options into one module-wide defaults object
 * (which it then keeps changing), picks the application layer from
 * `options.engine` and builds a TCP client for the URL's host and port.
 */
module Factory {
  import opened JsValues
  import Tcp

  const NoUrl := "no client url specified (i.e tcp://localhost:6370)"
  const BadStart := "URL must start with tcp,tls"
  const NoProtocol := "URL does not contain any implemented protocol (tcp,tls)"
  const UnknownLayer := "Unknow application layer "

  /** The defaults object as the module is loaded: `{engine: 'binary'}`. */
  const InitialDefaults: map<string, Value> := map["engine" := Str("binary")]

  // ---------------------------------------------------------------------
  // URL parsing
  // ---------------------------------------------------------------------

  /** The text of `s` before the first `c` (all of `s` when there is none): `s.split(c)[0]`. */
  function Before(s: string, c: char): (r: string)
    ensures |r| <= |s| && r == s[..|r|]
    ensures c !in r
    ensures |r| < |s| ==> s[|r|] == c
  {
    if s == [] || s[0] == c then [] else [s[0]] + Before(s[1..], c)
  }

  lemma {:induction false} BeforeSeparator(a: string, c: char, b: string)
    requires c !in a
    ensures Before(a + [c] + b, c) == a
    decreases |a|
  {
    if a != [] {
      assert (a + [c] + b)[1..] == a[1..] + [c] + b;
      BeforeSeparator(a[1..], c, b);
    }
  }

  lemma {:induction false} BeforeAll(s: string, c: char)
    requires c !in s
    ensures Before(s, c) == s
    decreases |s|
  {
    if s != [] {
      BeforeAll(s[1..], c);
    }
  }

  /** `url.match(/^([^:]+)/)`: the non-empty text before the first colon, if the URL does not start with one. */
  function Scheme(url: string): (r: Option<string>)
    ensures r.Some? <==> url != [] && url[0] != ':'
    ensures r.Some? ==> r.value != [] && ':' !in r.value && StartsWith(url, r.value)
    ensures r.Some? ==> |r.value| == |url| || url[|r.value|] == ':'
  {
    if url == [] || url[0] == ':' then None else Some(Before(url, ':'))
  }

  /** Whether "tcp://" or "tls://" starts at position `i` of `s`, ignoring letter case when `anyCase`. */
  predicate TransportAt(s: string, i: nat, anyCase: bool)
  {
    i + 6 <= |s|
    && var w := if anyCase then Lower(s[i..i + 6]) else s[i..i + 6];
       (w == "tcp://" || w == "tls://")
  }

  /** The leftmost position from `i` on where a transport prefix starts. */
  function FirstTransport(s: string, i: nat, anyCase: bool): (r: Option<nat>)
    ensures r.Some? ==> i <= r.value && TransportAt(s, r.value, anyCase)
    ensures r.Some? ==> forall j: nat :: i <= j < r.value ==> !TransportAt(s, j, anyCase)
    ensures r.None? ==> forall j: nat :: i <= j ==> !TransportAt(s, j, anyCase)
    decreases |s| - i
  {
    if i + 6 > |s| then None
    else if TransportAt(s, i, anyCase) then Some(i)
    else FirstTransport(s, i + 1, anyCase)
  }

  /**
   * `url.replace(/(tcp|tls):\/\//, '')`: the leftmost "tcp://" or "tls://",
   * wherever it is, is cut out; without one the URL is unchanged. The
   * expression as written is case-sensitive (`anyCase` false), although the
   * scheme check before it is not.
   */
  function StripTransport(s: string, anyCase: bool): (r: string)
    ensures FirstTransport(s, 0, anyCase).None? ==> r == s
    ensures FirstTransport(s, 0, anyCase).Some? ==>
      var i := FirstTransport(s, 0, anyCase).value;
      |r| == |s| - 6 && r == s[..i] + s[i + 6..]
  {
    match FirstTransport(s, 0, anyCase)
    case None => s
    case Some(i) => s[..i] + s[i + 6..]
  }

  /** `parseInt(rest.split(':')[1])`: NaN (None) when there is no second part. */
  function PortOf(rest: string): Option<int>
  {
    var host := Before(rest, ':');
    if |host| < |rest| then ParseInt(Before(rest[|host| + 1..], ':')) else None
  }

  /** `engine.replace(/^(tcp|tls)/, '')`: one leading "tcp" or "tls", in lower case, is removed. */
  function EngineName(engine: string): (r: string)
    ensures |r| <= |engine| && r == engine[|engine| - |r|..]
    ensures r == engine <==> !(StartsWith(engine, "tcp") || StartsWith(engine, "tls"))
    ensures r != engine ==> |r| == |engine| - 3
  {
    if StartsWith(engine, "tcp") || StartsWith(engine, "tls") then engine[3..] else engine
  }

  /** Only the first prefix goes: "tcptls" + name leaves "tls" + name behind. */
  lemma EngineStripsOnePrefix(name: string)
    ensures EngineName("tcp" + name) == name && EngineName("tls" + name) == name
    ensures EngineName("tcptls" + name) == "tls" + name
  {
    assert ("tcp" + name)[3..] == name;
    assert ("tls" + name)[3..] == name;
    assert ("tcptls" + name)[3..] == "tls" + name;
  }

  // ---------------------------------------------------------------------
  // The factory, on values
  // ---------------------------------------------------------------------

  /** `Object.assign(target, options || {})`: every own enumerable property of the options is copied over. */
  function Merge(target: map<string, Value>, options: Value): (r: map<string, Value>)
    ensures r.Keys == target.Keys + (if Truthy(options) then EnumerableKeys(options) else {})
    ensures Truthy(options) ==> forall k :: k in EnumerableKeys(options) ==> r[k] == GetProp(options, k)
    ensures forall k :: k in target && !(Truthy(options) && k in EnumerableKeys(options)) ==> r[k] == target[k]
  {
    if !Truthy(options) then target
    else target + map k | k in EnumerableKeys(options) :: GetProp(options, k)
  }

  /** The client the factory builds: where it connects and which layer it speaks. */
  datatype Endpoint = Endpoint(port: Option<int>, host: string, codec: Tcp.Codec)

  /** What a call returns (or throws), and the shared defaults object after it. */
  datatype Outcome = Outcome(result: Result<Endpoint>, defaults: map<string, Value>)

  /**
   * `Client(url, options)` as a function of the defaults object before the
   * call; `anyCase` says whether the transport prefix is cut out regardless
   * of letter case. The URL is checked before the options are merged.
   */
  function Assemble(defaults: map<string, Value>, url: Value, options: Value, anyCase: bool): (r: Outcome)
    ensures (!Truthy(url) || !url.Str? || Scheme(url.s).None?) ==> r.result.Throws? && r.defaults == defaults
    ensures r.result.Ok? ==> url.Str? && Scheme(url.s).Some? && Lower(Scheme(url.s).value) in {"tcp", "tls"}
    ensures r.result.Ok? ==>
      Field(r.defaults, "engine") == Str(if r.result.value.codec.JsonRpcCodec? then "jsonrpc" else "binary")
    ensures Truthy(url) && url.Str? && Scheme(url.s).Some? ==>
      var merged := Merge(defaults, options);
      && merged.Keys <= r.defaults.Keys <= merged.Keys + {"engine", "tls"}
      && (forall k :: k in merged && k != "engine" && k != "tls" ==> r.defaults[k] == merged[k])
      && (Lower(Scheme(url.s).value) != "tls" ==> Field(r.defaults, "tls") == Field(merged, "tls"))
  {
    if !Truthy(url) then Outcome(Throws(Error(NoUrl)), defaults)
    else if !url.Str? then Outcome(Throws(TypeError("url.match is not a function")), defaults)
    else if Scheme(url.s).None? then Outcome(Throws(Error(BadStart)), defaults)
    else Select(Merge(defaults, options), Lower(Scheme(url.s).value), StripTransport(url.s, anyCase))
  }

  /**
   * The rest of `Client` once the options are merged: the transport must be
   * tcp or tls, the engine a string; the engine is written back without its
   * prefix, must then name a layer, and a tls transport sets `tls: true`.
   */
  function Select(merged: map<string, Value>, transport: string, rest: string): (r: Outcome)
    ensures r.result.Ok? ==> transport in {"tcp", "tls"}
    ensures r.result.Ok? ==>
      Field(r.defaults, "engine") == Str(if r.result.value.codec.JsonRpcCodec? then "jsonrpc" else "binary")
    ensures r.result.Ok? ==> r.result.value.host == Before(rest, ':') && r.result.value.port == PortOf(rest)
    ensures merged.Keys <= r.defaults.Keys <= merged.Keys + {"engine", "tls"}
    ensures "tls" in r.defaults && "tls" !in merged ==> r.result.Ok? && transport == "tls"
    ensures forall k :: k in merged && k != "engine" && (k != "tls" || !r.result.Ok? || transport != "tls") ==> r.defaults[k] == merged[k]
    ensures r.result.Ok? && transport == "tls" ==> Field(r.defaults, "tls") == Bool(true)
  {
    if transport != "tcp" && transport != "tls" then Outcome(Throws(Error(NoProtocol)), merged)
    else
      var engine := Field(merged, "engine");
      if !engine.Str? then Outcome(Throws(TypeError("options.engine.replace is not a function")), merged)
      else
        var layer := EngineName(engine.s);
        var named := merged["engine" := Str(layer)];
        if layer != "jsonrpc" && layer != "binary" then Outcome(Throws(Error(UnknownLayer + layer)), named)
        else
          var codec := if layer == "jsonrpc" then Tcp.JsonRpcCodec else Tcp.BinaryCodec;
          Outcome(Ok(Endpoint(PortOf(rest), Before(rest, ':'), codec)),
                  if transport == "tls" then named["tls" := Bool(true)] else named)
  }

  /** The factory with the transport prefix matched as the scheme check matches it, in any case. */
  function Construct(defaults: map<string, Value>, url: Value, options: Value): Outcome
  {
    Assemble(defaults, url, options, true)
  }

  /** The factory as written: the prefix is only cut out when in lower case. */
  function ConstructAsWritten(defaults: map<string, Value>, url: Value, options: Value): Outcome
  {
    Assemble(defaults, url, options, false)
  }

  // ---------------------------------------------------------------------
  // Properties
  // ---------------------------------------------------------------------

  /** A scheme whose lower-case form is "tcp" or "tls" is three letters, none of them a colon. */
  lemma TransportSchemeHasNoColon(scheme: string)
    requires Lower(scheme) == "tcp" || Lower(scheme) == "tls"
    ensures |scheme| == 3 && ':' !in scheme
  {
  }

  /** The decimal text of an integer is made of digits and a minus sign. */
  lemma IntTextChars(n: int)
    ensures forall i :: 0 <= i < |IntToString(n)| ==> IsDigit(IntToString(n)[i]) || IntToString(n)[i] == '-'
  {
    if n < 0 {
      NegativeTextChars(-n);
    } else {
      NatToStringSpellsN(n);
    }
  }

  lemma NegativeTextChars(m: nat)
    requires m > 0
    ensures var t := IntToString(-(m as int));
      forall i :: 0 <= i < |t| ==> IsDigit(t[i]) || t[i] == '-'
  {
    NatToStringSpellsN(m);
    var digits := NatToString(m);
    var t := IntToString(-(m as int));
    assert t == "-" + digits;
    forall i | 0 <= i < |t| ensures IsDigit(t[i]) || t[i] == '-' {
      if i > 0 {
        assert t[i] == digits[i - 1];
      }
    }
  }

  /** The scheme of `scheme://rest` is found, and the "scheme://" in front is what the replace cuts out. */
  lemma ParsedScheme(scheme: string, rest: string)
    requires Lower(scheme) == "tcp" || Lower(scheme) == "tls"
    ensures Scheme(scheme + "://" + rest) == Some(scheme)
    ensures StripTransport(scheme + "://" + rest, true) == rest
  {
    TransportSchemeHasNoColon(scheme);
    var s := scheme + "://" + rest;
    // The scheme is everything before the first colon.
    assert s == scheme + [':'] + ("//" + rest);
    BeforeSeparator(scheme, ':', "//" + rest);
    // The transport prefix sits at position 0.
    assert s[0..6] == scheme + "://";
    assert Lower(s[0..6]) == Lower(scheme) + "://";
    assert TransportAt(s, 0, true);
    assert s[6..] == rest;
  }

  /** `host:port` splits into the host and the port written after the colon. */
  lemma ParsedHostPort(host: string, port: int)
    requires ':' !in host
    ensures Before(host + ":" + IntToString(port), ':') == host
    ensures PortOf(host + ":" + IntToString(port)) == Some(port)
  {
    ColonSplit(host, IntToString(port));
    IntTextChars(port);
    BeforeAll(IntToString(port), ':');
    ParseIntRoundTrip(port);
  }

  /** The pieces `Client` cuts a well-formed `scheme://host:port` URL into. */
  lemma ParsedUrl(scheme: string, host: string, port: int)
    requires Lower(scheme) == "tcp" || Lower(scheme) == "tls"
    requires ':' !in host
    ensures var s := scheme + "://" + host + ":" + IntToString(port);
      var rest := StripTransport(s, true);
      && Scheme(s) == Some(scheme)
      && rest == host + ":" + IntToString(port)
      && Before(rest, ':') == host
      && PortOf(rest) == Some(port)
  {
    var rest := host + ":" + IntToString(port);
    assert scheme + "://" + host + ":" + IntToString(port) == scheme + "://" + rest;
    ParsedScheme(scheme, rest);
    ParsedHostPort(host, port);
  }

  /**
   * A URL `scheme://host:port`, with the scheme "tcp" or "tls" in any case and
   * a host without a colon, is read back as that host and port; whether a
   * client is built then depends only on the engine named in the merged
   * options, and a tls URL leaves `tls: true` in the defaults.
   */
  lemma UrlRoundTrip(defaults: map<string, Value>, scheme: string, host: string, port: int, options: Value)
    requires Lower(scheme) == "tcp" || Lower(scheme) == "tls"
    requires ':' !in host
    ensures var o := Construct(defaults, Str(scheme + "://" + host + ":" + IntToString(port)), options);
      var engine := Field(Merge(defaults, options), "engine");
      && (o.result.Ok? <==> engine.Str? && EngineName(engine.s) in {"jsonrpc", "binary"})
      && (o.result.Ok? ==> o.result.value.host == host && o.result.value.port == Some(port))
      && (o.result.Ok? ==> (o.result.value.codec.JsonRpcCodec? <==> EngineName(engine.s) == "jsonrpc"))
      && (o.result.Ok? && Lower(scheme) == "tls" ==> Field(o.defaults, "tls") == Bool(true))
      && (Lower(scheme) == "tcp" ==> Field(o.defaults, "tls") == Field(Merge(defaults, options), "tls"))
  {
    ParsedUrl(scheme, host, port);
    var s := scheme + "://" + host + ":" + IntToString(port);
    SchemeAccepted(defaults, Str(s), options, true);
    SelectAccepts(Merge(defaults, options), Lower(scheme), StripTransport(s, true));
  }

  /**
   * With the scheme in lower case the replace as written cuts out the same
   * "tcp://" or "tls://" as the case-insensitive one, so on such URLs the
   * factory as written and `Construct` agree on the client and on the
   * defaults, whatever follows the scheme.
   */
  lemma LowerCaseSchemeAgrees(defaults: map<string, Value>, scheme: string, rest: string, options: Value)
    requires scheme == "tcp" || scheme == "tls"
    ensures ConstructAsWritten(defaults, Str(scheme + "://" + rest), options)
            == Construct(defaults, Str(scheme + "://" + rest), options)
  {
    var s := scheme + "://" + rest;
    ParsedScheme(scheme, rest);
    assert s[0..6] == scheme + "://";
    assert TransportAt(s, 0, false);
    assert FirstTransport(s, 0, false) == Some(0);
    assert StripTransport(s, false) == rest;
    SchemeAccepted(defaults, Str(s), options, false);
    SchemeAccepted(defaults, Str(s), options, true);
  }

  /** With the transport accepted, a client is built exactly when the stripped engine names a layer. */
  lemma SelectAccepts(merged: map<string, Value>, transport: string, rest: string)
    requires transport == "tcp" || transport == "tls"
    ensures var o := Select(merged, transport, rest);
      var engine := Field(merged, "engine");
      && (o.result.Ok? <==> engine.Str? && EngineName(engine.s) in {"jsonrpc", "binary"})
      && (o.result.Ok? ==> (o.result.value.codec.JsonRpcCodec? <==> EngineName(engine.s) == "jsonrpc"))
      && (o.result.Ok? && transport == "tls" ==> Field(o.defaults, "tls") == Bool(true))
  {
  }

  /** The URL is checked before the defaults object is touched; only a rejected scheme or a later error leaves it changed. */
  lemma RejectedUrlLeavesDefaults(defaults: map<string, Value>, url: Value, options: Value)
    ensures !Truthy(url) ==> Construct(defaults, url, options) == Outcome(Throws(Error(NoUrl)), defaults)
    ensures url.Str? && url.s != [] && url.s[0] == ':' ==> Construct(defaults, url, options) == Outcome(Throws(Error(BadStart)), defaults)
    ensures url.Str? && url.s != [] && url.s[0] != ':' && Lower(Scheme(url.s).value) !in {"tcp", "tls"} ==>
      Construct(defaults, url, options) == Outcome(Throws(Error(NoProtocol)), Merge(defaults, options))
  {
  }

  /**
   * The defaults object is shared by every call: once a tls URL has been
   * opened, `tls: true` stays in it, so a later call, even for a tcp URL,
   * builds its client with `tls` set unless its own options override it.
   */
  lemma {:induction false} TlsFlagPersists(defaults: map<string, Value>, url: Value, options: Value)
    requires Field(defaults, "tls") == Bool(true)
    requires Truthy(options) ==> "tls" !in EnumerableKeys(options)
    ensures Field(Construct(defaults, url, options).defaults, "tls") == Bool(true)
  {
    var merged := Merge(defaults, options);
    assert "tls" in merged && merged["tls"] == Bool(true);
    if url.Str? && Scheme(url.s).Some? {
      SchemeAccepted(defaults, url, options, true);
      SelectKeepsTls(merged, Lower(Scheme(url.s).value), StripTransport(url.s, true));
    }
  }

  /** Nothing after the merge ever removes `tls: true`. */
  lemma SelectKeepsTls(merged: map<string, Value>, transport: string, rest: string)
    requires Field(merged, "tls") == Bool(true)
    ensures Field(Select(merged, transport, rest).defaults, "tls") == Bool(true)
  {
  }

  /** Once the URL has a scheme, the rest of the call is `Select` on the merged options. */
  lemma SchemeAccepted(defaults: map<string, Value>, url: Value, options: Value, anyCase: bool)
    requires url.Str? && Scheme(url.s).Some?
    ensures Assemble(defaults, url, options, anyCase)
            == Select(Merge(defaults, options), Lower(Scheme(url.s).value), StripTransport(url.s, anyCase))
  {
  }

  /** The engine written back is the stripped one, so a later call starts from it. */
  lemma EngineWrittenBack(defaults: map<string, Value>, url: Value, options: Value)
    requires url.Str? && Scheme(url.s).Some? && Lower(Scheme(url.s).value) in {"tcp", "tls"}
    requires Field(Merge(defaults, options), "engine").Str?
    ensures Field(Construct(defaults, url, options).defaults, "engine")
            == Str(EngineName(Field(Merge(defaults, options), "engine").s))
  {
    SchemeAccepted(defaults, url, options, true);
  }

  /** Once the URL is accepted, the engine "binary" builds a binary-layer client for the parsed host and port. */
  lemma SelectBinary(merged: map<string, Value>, transport: string, rest: string)
    requires transport == "tcp" || transport == "tls"
    requires Field(merged, "engine") == Str("binary")
    ensures Select(merged, transport, rest).result == Ok(Endpoint(PortOf(rest), Before(rest, ':'), Tcp.BinaryCodec))
  {
    assert "binary"[0] == 'b';
  }

  /** A module just loaded, called without options, builds a binary-layer client. */
  lemma DefaultEngineIsBinary(scheme: string, host: string, port: int)
    requires Lower(scheme) == "tcp" || Lower(scheme) == "tls"
    requires ':' !in host
    ensures var o := Construct(InitialDefaults, Str(scheme + "://" + host + ":" + IntToString(port)), Undefined);
      o.result == Ok(Endpoint(Some(port), host, Tcp.BinaryCodec))
  {
    var s := scheme + "://" + host + ":" + IntToString(port);
    ParsedUrl(scheme, host, port);
    SchemeAccepted(InitialDefaults, Str(s), Undefined, true);
    assert Merge(InitialDefaults, Undefined) == InitialDefaults;
    SelectBinary(InitialDefaults, Lower(scheme), StripTransport(s, true));
  }

  /**
   * A scheme with any capital letter ("TCP", "Tls", "tCp", ...) passes the
   * scheme check, but the case-sensitive replace leaves it in place: whenever
   * a client is built, its host is the scheme and its port NaN. For
   * "TCP://db:6370" that is host "TCP", where `Construct` reads db:6370.
   */
  lemma UppercaseSchemeAsWritten(defaults: map<string, Value>, scheme: string, host: string, port: int, options: Value)
    requires Lower(scheme) == "tcp" || Lower(scheme) == "tls"
    requires scheme != "tcp" && scheme != "tls" && ':' !in host
    ensures var o := ConstructAsWritten(defaults, Str(scheme + "://" + host + ":" + IntToString(port)), options);
      o.result.Ok? ==> o.result.value.host == scheme && o.result.value.port == None
  {
    var s := scheme + "://" + host + ":" + IntToString(port);
    UppercaseUrlPieces(scheme, host, port);
    SchemeAccepted(defaults, Str(s), options, false);
  }

  /**
   * In `scheme://host:port` the only colons are the one after the scheme and
   * the one before the port, so a lower-case "tcp://" or "tls://" could only
   * start at the scheme (which is not in lower case) or at the port (which
   * has no slashes).
   */
  lemma NoLowerTransport(scheme: string, host: string, port: int, k: nat)
    requires |scheme| == 3 && ':' !in scheme && scheme != "tcp" && scheme != "tls"
    requires ':' !in host
    ensures !TransportAt(scheme + "://" + host + ":" + IntToString(port), k, false)
  {
    var digits := IntToString(port);
    IntTextChars(port);
    var s := scheme + "://" + host + ":" + digits;
    var j := 6 + |host|;
    if k + 6 <= |s| {
      var w := s[k..k + 6];
      assert w[3] == s[k + 3] && w[4] == s[k + 4];
      if k == 0 {
        assert w[..3] == scheme;
      } else if k + 3 < 6 {
        assert s[k + 3] == '/';
      } else if k + 3 < j {
        assert s[k + 3] == host[k + 3 - 6];
      } else if k + 3 == j {
        assert s[k + 4] == digits[0];
      } else {
        assert s[k + 3] == digits[k + 3 - j - 1];
      }
    }
  }

  /** The case-sensitive replace finds nothing to cut out of such a URL. */
  lemma NoLowerCasePrefix(scheme: string, host: string, port: int)
    requires |scheme| == 3 && ':' !in scheme && scheme != "tcp" && scheme != "tls"
    requires ':' !in host
    ensures var s := scheme + "://" + host + ":" + IntToString(port);
      StripTransport(s, false) == s
  {
    var s := scheme + "://" + host + ":" + IntToString(port);
    var first := FirstTransport(s, 0, false);
    if first.Some? {
      NoLowerTransport(scheme, host, port, first.value);
      assert false;
    }
  }

  /** How such a URL is cut up when the prefix is matched in lower case only. */
  lemma UppercaseUrlPieces(scheme: string, host: string, port: int)
    requires Lower(scheme) == "tcp" || Lower(scheme) == "tls"
    requires scheme != "tcp" && scheme != "tls" && ':' !in host
    ensures var s := scheme + "://" + host + ":" + IntToString(port);
      && Scheme(s) == Some(scheme) && StripTransport(s, false) == s
      && Before(s, ':') == scheme && PortOf(s) == None
  {
    TransportSchemeHasNoColon(scheme);
    var digits := IntToString(port);
    IntTextChars(port);
    var tail := "//" + host + ":" + digits;
    var s := scheme + ":" + tail;
    assert s == scheme + "://" + host + ":" + digits;
    NoLowerCasePrefix(scheme, host, port);
    ColonSplit(scheme, tail);
    ColonSplit("//" + host, digits);
    SlashesAreNotANumber(host);
  }

  /** Cutting `a:b` at its first colon, when `a` has none, gives `a` and then `b`. */
  lemma ColonSplit(a: string, b: string)
    requires ':' !in a
    ensures Before(a + ":" + b, ':') == a
    ensures PortOf(a + ":" + b) == ParseInt(Before(b, ':'))
  {
    assert a + ":" + b == a + [':'] + b;
    BeforeSeparator(a, ':', b);
    assert (a + ":" + b)[|a| + 1..] == b;
  }

  /** `parseInt` finds no number in text that starts with a slash. */
  lemma SlashesAreNotANumber(host: string)
    ensures ParseInt("//" + host) == None
  {
    TrimStartKeeps("//" + host);
  }

  // ---------------------------------------------------------------------
  // The module state
  // ---------------------------------------------------------------------

  /** The loaded module: its defaults object, shared by every call, and the package version. */
  class ClientModule {
    const defaultOptions: JsObject
    const version: string

    constructor(version: string)
      ensures defaultOptions.props == InitialDefaults && this.version == version
    {
      defaultOptions := new JsObject(InitialDefaults);
      this.version := version;
    }

    /**
     * `Client(url, options)`: the defaults object is changed in place step by
     * step and handed to the new client as its options.
     */
    method Client(url: Value, options: Value) returns (r: Result<Tcp.TcpClient>)
      modifies defaultOptions
      ensures var o := Construct(old(defaultOptions.props), url, options);
        && defaultOptions.props == o.defaults
        && (r.Throws? <==> o.result.Throws?)
        && (r.Throws? ==> r.exception == o.result.exception)
        && (r.Ok? ==> fresh(r.value)
                      && r.value.port == o.result.value.port && r.value.host == o.result.value.host
                      && r.value.codec == o.result.value.codec
                      && r.value.options == defaultOptions && r.value.version == version
                      && !r.value.conn.isConnected && r.value.conn.requests == map[])
    {
      if !Truthy(url) {
        return Throws(Error(NoUrl));
      }
      if !url.Str? {
        return Throws(TypeError("url.match is not a function"));
      }
      var scheme := Scheme(url.s);
      if scheme.None? {
        return Throws(Error(BadStart));
      }
      ghost var before := defaultOptions.props;
      defaultOptions.props := Merge(defaultOptions.props, options);
      SchemeAccepted(before, url, options, true);
      r := Configure(Lower(scheme.value), StripTransport(url.s, true));
    }

    /**
     * The part of `Client` after the merge: check the transport, rewrite the
     * engine, choose the layer, mark tls and build the client.
     */
    method Configure(transport: string, rest: string) returns (r: Result<Tcp.TcpClient>)
      modifies defaultOptions
      ensures var o := Select(old(defaultOptions.props), transport, rest);
        && defaultOptions.props == o.defaults
        && (r.Throws? <==> o.result.Throws?)
        && (r.Throws? ==> r.exception == o.result.exception)
        && (r.Ok? ==> fresh(r.value)
                      && r.value.port == o.result.value.port && r.value.host == o.result.value.host
                      && r.value.codec == o.result.value.codec
                      && r.value.options == defaultOptions && r.value.version == version
                      && !r.value.conn.isConnected && r.value.conn.requests == map[])
    {
      if transport != "tcp" && transport != "tls" {
        return Throws(Error(NoProtocol));
      }
      var host := Before(rest, ':');
      var port := PortOf(rest);
      var engine := Field(defaultOptions.props, "engine");
      if !engine.Str? {
        return Throws(TypeError("options.engine.replace is not a function"));
      }
      var layer := EngineName(engine.s);
      defaultOptions.props := defaultOptions.props["engine" := Str(layer)];
      var codec;
      if layer == "jsonrpc" {
        codec := Tcp.JsonRpcCodec;
      } else if layer == "binary" {
        codec := Tcp.BinaryCodec;
      } else {
        return Throws(Error(UnknownLayer + layer));
      }
      if transport == "tls" {
        defaultOptions.props := defaultOptions.props["tls" := Bool(true)];
      }
      var client := new Tcp.TcpClient(port, host, defaultOptions, codec, version);
      r := Ok(client);
    }
  }
}
