# sloki-node-client: the connection protocol, modelled in Dafny

This project models the client side of the sloki protocol as the Node.js
client implements it. It covers:

- `index.js`, the client factory. It checks the URL, merges the caller's
  options into the module-wide `defaultOptions`, picks the transport and the
  application layer, and builds the client.
- `src/tcp/TCP.js`, the TCP client. It keeps a table of pending requests
  keyed by request id. On the socket's `connect` event it discovers the
  server's methods and installs one stub per method name. It also provides
  the callback and promise calling conventions, the event surface, `close`
  and the method listing.
- `src/tcp/binary.js` and `src/tcp/jsonrpc.js`, the two application layers.
  Each layer fixes how a request is written: the `{id, m, p}` record, or the
  JSON-RPC 2.0 text. It also fixes how a response is matched to a pending
  request: falsy ids dropped or not, the result field `r` or `result`, and
  the version stamp on `versions` results.
- `src/lib/Client.js`, the newer base client. It chooses tls from the
  `protocol` option, adds `nr = 1` to fire-and-forget requests, and throws
  from the hooks a subclass must override.
- `src/tcpMissive.js` and `src/tcpJayson.js`, the two self-contained clients.
  The Missive client has the binary layer built in and only two calling
  conventions. The Jayson client takes argument lists, wraps scalar
  parameters in an array, and returns itself from a call with a callback.

The four clients each carry a copy of the same code: the method registry
with its `for..in` stub loop, the `_eventsByName` event cache with `_emit`,
the request table, and `close`. Module `Protocol` models that shared code
once, as three classes:

- `Correlator` holds the request table, the connection flag, what was sent
  and the effects delivered to callers.
- `Registry` holds `_methods` and the installed stubs.
- `EventSurface` holds the listeners, the cached snapshot and what was
  emitted.

Each client class holds one of each, and its methods are proved against
the shared state-change predicates `PushStep` and `EmitStep`. The pure
parts are functions, each with lemmas about it:

- URL parsing and the engine name.
- `Object.assign`.
- The envelopes and the JSON view of `JSON.stringify`.
- Response classification, and the replay of a sequence of responses.

Module `JsValues` models the JavaScript semantics the core relies on:
truthiness, `typeof`, property access and property keys, `Object.keys`,
`toLowerCase` and `parseInt`.

Request ids (hyperid), callbacks and promises are parameters of the model.
A callback is a number naming a function; a promise is a number naming a
promise. Invoking a callback appends an `Effect`, so the order in which
callers are answered is part of each method's state.

## Model

| member | source | states |
|---|---|---|
| `JsValues.ParseIntRoundTrip` | index.js:31 | `parseInt` of the decimal text of any integer gives back that integer |
| `JsValues.IndexKeyRoundTrip` | src/tcp/TCP.js:38 | the decimal text of an array index is read back as that index, so `for..in` over an array yields exactly its index keys |
| `JsValues.GetProp` | src/tcp/TCP.js:49 | property access reads an object's own field, an array's `length`, and `undefined` on a boolean, number or function |
| `JsValues.ObjectKeys` | src/tcp/TCP.js:222 | `Object.keys` throws exactly on null or undefined and otherwise gives the enumerable keys |
| `JsValues.Lower` | index.js:22 | lower-casing keeps the length and lower-cases each character |
| `JsValues.TrimStart` | index.js:31 | `parseInt` skips a whitespace prefix: the result is a suffix of the input and does not start with whitespace |
| `Protocol.Settle` | src/tcp/TCP.js:176-182 | invoking a callback gives exactly one effect, addressed to the caller-side function; the promise adapter rejects on a truthy error and otherwise resolves with the result |
| `Protocol.DiscoveryReportsToConnect` | src/tcp/TCP.js:31-66 | the discovery callback hands connect's callback the error, or nothing on success; a promise-style connect rejects or resolves with undefined |
| `Protocol.StampVersion` | src/tcp/binary.js:48-50 | an object result of `versions` gains the client version under `sloki-node-client` and keeps every other key; any other result is delivered as is |
| `Protocol.NullVersionsResultThrows` | src/tcp/binary.js:48-50 | as written, a `versions` response with a null result throws; the corrected stamp delivers null |
| `Protocol.StampingAgreesOffNull` | src/tcp/jsonrpc.js:41-43 | on every result other than null, the code as written and the corrected stamp agree |
| `Protocol.Classify` | src/tcp/binary.js:27-56 | a response is dropped exactly when the layer requires an id and the id is falsy; it is an orphan exactly when its key has no pending entry; a match carries the entry under its key, the error, and the result field, stamped for `versions` |
| `Protocol.Remaining` | src/tcp/binary.js:57 | a match deletes only its own entry; a dropped or orphan response leaves the table as it was |
| `Protocol.ClassifyIgnoresOtherKeys` | src/tcp/binary.js:32 | removing another request's entry does not change how a response is classified |
| `Protocol.ReplayCorrelates` | src/tcp/binary.js:25-58 | for answers with distinct keys, each to a pending request, every answer matches its own request in any order, and the table ends as before minus exactly the answered keys |
| `Protocol.AnswersCommute` | src/tcp/jsonrpc.js:23-47 | two answers to different pending requests leave the same table in either order, and each is delivered as if it came alone |
| `Protocol.Correlator.constructor` | src/tcp/TCP.js:18-19 | a new client is disconnected, with no pending request, nothing sent and no effect |
| `Protocol.Correlator.Push` | src/tcp/TCP.js:163-171 | while disconnected the callback gets `Error('not connected')` and nothing is stored or sent; while connected the entry is stored under the id and exactly one envelope is sent |
| `Protocol.Correlator.Record` | src/tcp/TCP.js:169 | the entry is stored under its id; the other entries and the rest of the state stay as they were |
| `Protocol.Correlator.Send` | src/tcp/TCP.js:170 | exactly one envelope is appended to what was sent; nothing else changes |
| `Protocol.Correlator.Invoke` | src/tcp/TCP.js:215-217 | invoking a callback appends its settlement and changes nothing else |
| `Protocol.Correlator.SetConnected` | src/tcp/TCP.js:147 | only the connection flag changes |
| `Protocol.Correlator.Dispatch` | src/tcp/binary.js:25-58 | the response is classified against the table before the call; a match deletes its own entry and settles its callback; nothing is sent |
| `Protocol.Correlator.PendingCount` | src/tcp/TCP.js:210 | the number of pending requests is the size of the table |
| `Protocol.ConnectCallback` | src/tcp/TCP.js:191-204 | connect uses the caller's callback when one is given, and otherwise the promise adapter |
| `Protocol.FirstParams` | src/tcp/TCP.js:46 | a stub's parameters are its first argument when that is truthy, and otherwise undefined |
| `Protocol.StubConvention` | src/lib/Client.js:46-68 | a function as last argument selects the callback convention; a non-null object with a truthy `lazy` selects fire-and-forget; anything else selects a promise |
| `Protocol.StubConventionDefaultsToPromise` | src/lib/Client.js:54-60 | null, no argument at all, and an object whose `lazy` is falsy each select a promise; a truthy `lazy` selects fire-and-forget |
| `Protocol.DescriptionOf` | src/tcp/TCP.js:225-231 | the description throws exactly on a nullish `_methods`; an unknown or falsy entry gives 'method not found'; otherwise it gives the entry's `description` |
| `Protocol.NothingFoundBeforeDiscovery` | src/tcp/TCP.js:20 | before discovery `_methods` is `[]`: every own name is 'method not found' and the method list is empty; names inherited from `Array.prototype`, such as `map`, are the prototype-inherited keys left out below |
| `Protocol.DescriptionAfterDiscovery` | src/tcp/TCP.js:221-231 | after discovery the names are exactly the discovered keys, and a description is found exactly for a truthy entry |
| `Protocol.Registry.constructor` | src/tcp/TCP.js:20 | no methods and no stubs to begin with |
| `Protocol.Registry.Install` | src/tcp/TCP.js:36-65 | `_methods` becomes the discovered value, and a stub is added for each of its enumerable keys, keeping earlier stubs |
| `Protocol.Registry.Names` | src/tcp/TCP.js:221-223 | the method names throw exactly when `_methods` is nullish and are otherwise its enumerable keys |
| `Protocol.Registry.Description` | src/tcp/TCP.js:225-231 | the stateful lookup gives the value of the description function on the current `_methods` |
| `Protocol.EventSurface.constructor` | src/tcp/TCP.js:21 | no listeners, no snapshot, nothing emitted |
| `Protocol.EventSurface.On` | src/tcp/TCP.js:79 | a name joins the listener names once; the snapshot is untouched |
| `Protocol.EventSurface.Exists` | src/tcp/TCP.js:71-85 | the first call takes a snapshot of the listener names and later calls only read it; the answer is membership in the snapshot |
| `Protocol.EventSurface.Emit` | src/tcp/TCP.js:87-91 | an event is emitted exactly when its name is in the snapshot, so listeners added after the first emission are never reached |
| `Binary.Record` | src/tcp/binary.js:73-80 | the record holds `id` and `m`, and holds `p` exactly when the parameters are truthy |
| `Binary.Read` | src/tcp/binary.js:74-77 | a record is read back as a request exactly when it is an object with a string `m` |
| `Binary.ReadRecord` | src/tcp/binary.js:75-77 | reading a written record gives back the id, the method and the parameters, or undefined for falsy parameters |
| `Binary.RecordInjective` | src/tcp/binary.js:74-77 | two requests with truthy parameters that write the same record are the same request |
| `Binary.MessageDecoder` | src/tcp/binary.js:27-56 | the binary layer requires an id, reads `r`, and stamps `versions` results |
| `Binary.FalsyIdDropped` | src/tcp/binary.js:27-30 | a response with a falsy id is dropped and leaves the table as it was |
| `JsonRpc.JsonView` | src/tcp/jsonrpc.js:60 | serialisation keeps a value exactly when it is serialisable |
| `JsonRpc.JsonViewIsPlain` | src/tcp/jsonrpc.js:60 | what a serialisable value serialises to is plain JSON data |
| `JsonRpc.PlainUnchanged` | src/tcp/jsonrpc.js:60 | plain JSON data survives serialisation unchanged |
| `JsonRpc.JsonViewIdempotent` | src/tcp/jsonrpc.js:60 | serialising twice is the same as serialising once |
| `JsonRpc.Written` | src/tcp/jsonrpc.js:50-62 | the written request has `jsonrpc: "2.0"` and `method`, has `id` and `params` exactly when they are serialisable, and keeps plain ids and parameters unchanged |
| `JsonRpc.RequestView` | src/tcp/jsonrpc.js:52-60 | the same keys and fields, stated for the object before serialisation |
| `JsonRpc.DataDecoder` | src/tcp/jsonrpc.js:23-46 | the JSON-RPC layer does not require an id, reads `result`, and stamps `versions` results |
| `JsonRpc.NeverDropped` | src/tcp/jsonrpc.js:25-37 | no response is dropped; one without an id is an orphan unless a request is pending under the key `undefined` |
| `Tcp.NullLastArgumentThrows` | src/tcp/TCP.js:49 | as written, a stub called with null last throws; the null-safe convention gives a promise, and the two agree on every other last argument |
| `Tcp.SocketHookAsWritten` | src/tcp/binary.js:63-71 | as written, the binary layer's pipe and unpipe hooks throw, because they use `_conn` and TCP.js only sets `_socket`; the JSON-RPC layer's hooks never throw |
| `Tcp.BinaryHooksThrowAsWritten` | src/tcp/TCP.js:115-151 | as written, a binary client's connect throws (or its promise rejects), and its error, close, end and destroy handlers throw with the client still connected and the socket not destroyed; the JSON-RPC client's handlers behave as intended |
| `Tcp.TcpClient.constructor` | src/tcp/TCP.js:11-22 | `options \|\| {}` is kept by reference; the client starts disconnected with an empty table, `_methods = []` and no snapshot |
| `Tcp.TcpClient.RequestSend` | src/tcp/binary.js:73-80 | exactly one envelope of the client's layer is sent; the table and the effects do not change |
| `Tcp.TcpClient.RequestPush` | src/tcp/TCP.js:163-171 | the push step with the layer's envelope |
| `Tcp.TcpClient.Request` | src/tcp/TCP.js:173-186 | a callback is pushed as is; a promise is pushed through the adapter; with neither, an envelope with id -1 is sent and nothing is stored |
| `Tcp.TcpClient.Stub` | src/tcp/TCP.js:39-64 | an uninstalled name throws and changes nothing; otherwise the convention decides between callback, fire-and-forget and promise, always with the first argument as parameters |
| `Tcp.TcpClient.Connect` | src/tcp/TCP.js:191-206 | connect stores the callback, or the promise adapter and returns the promise |
| `Tcp.TcpClient.OnConnect` | src/tcp/TCP.js:145-149 | the client becomes connected and exactly one `methods` request is pending and sent, with the discovery callback |
| `Tcp.TcpClient.OnMessage` | src/tcp/binary.js:25-58 | the layer's handler: orphans are emitted as `error`, a match settles and deletes its entry, and a successful discovery installs the stubs |
| `Tcp.TcpClient.OnTimeout` | src/tcp/TCP.js:109-113 | `timeout` is emitted, the client is disconnected and the socket is ended |
| `Tcp.TcpClient.OnError` | src/tcp/TCP.js:115-121 | connect's callback gets the error, `error` is emitted and the socket is destroyed |
| `Tcp.TcpClient.OnClose` | src/tcp/TCP.js:123-128 | `close` is emitted and the client is disconnected |
| `Tcp.TcpClient.OnEnd` | src/tcp/TCP.js:130-136 | `end` is emitted, the client is disconnected and the socket is destroyed |
| `Tcp.TcpClient.OnDestroy` | src/tcp/TCP.js:138-143 | `destroy` is emitted and the client is disconnected |
| `Tcp.TcpClient.Close` | src/tcp/TCP.js:208-219 | the pending requests are counted and left in the table, the socket is ended, and the callback is called with no arguments |
| `Tcp.DiscoveryInstallsStubs` | src/tcp/TCP.js:28-68 | connect followed by a successful `methods` answer installs exactly the discovered names, calls connect's callback with no error, and leaves nothing pending |
| `Tcp.StartDiscovery` | src/tcp/TCP.js:145-149 | after connect and the `connect` event only the discovery request is pending |
| `Tcp.AnswerDiscovery` | src/tcp/TCP.js:31-66 | answering the discovery request installs the stubs and reports success to connect's callback |
| `LibClient.TlsFlag` | src/lib/Client.js:18 | the tls flag is truthy exactly when `protocol` ends in "s", and a `protocol` that is not a string throws |
| `LibClient.ConnectTarget` | src/lib/Client.js:98-114 | the socket kind follows the tls flag, and both kinds connect to the configured port and host |
| `LibClient.TlsIgnoresConfiguredHost` | src/lib/Client.js:99 | as written, a tls connection goes to localhost whatever host was configured; a tcp connection is unaffected |
| `LibClient.WithNr` | src/lib/Client.js:202-205 | fire-and-forget object parameters gain `nr = 1` and keep their other keys, falsy ones become `{nr: 1}`, and a truthy boolean, number or string throws; an array, function or Error is returned without `nr` |
| `LibClient.Thrown` | src/lib/Client.js:192-207 | an exception thrown inside a request propagates to the stub's caller; otherwise the stub returns its value |
| `LibClient.BaseClient.Create` | src/lib/Client.js:12-24 | options are kept by reference and gain `tls`; without a string `protocol` the constructor throws and changes nothing |
| `LibClient.BaseClient.RequestSend` | src/lib/Client.js:231-233 | the base class throws 'Please override methode _requestSend' and sends nothing; a subclass sends one envelope |
| `LibClient.BaseClient.RequestPush` | src/lib/Client.js:182-190 | the push step, where a connected base-class push stores the entry and then throws |
| `LibClient.BaseClient.Request` | src/lib/Client.js:192-207 | a callback or a promise is pushed; with neither, the parameters are marked with `nr` and sent under a fresh id |
| `LibClient.BaseClient.Stub` | src/lib/Client.js:44-69 | the three conventions, with exceptions from sending propagated or turned into a rejected promise |
| `LibClient.BaseClient.Connect` | src/lib/Client.js:235-250 | the base class throws 'Please override methode _initialize'; a subclass stores the callback and the connect target |
| `LibClient.BaseClient.OnConnect` | src/lib/Client.js:116-120 | the client becomes connected and the discovery request is pending |
| `LibClient.BaseClient.OnResponse` | src/lib/Client.js:30-74 | once a response is handed to the request's callback, the `methods` callback of `getMethods` replaces `_methods` on success and installs one stub per key, keeping earlier stubs; the matching of the response to its request is the handler `dec` stands for, which this file does not define |
| `LibClient.BaseClient.Close` | src/lib/Client.js:252-263 | the pending requests are counted and kept, the socket is ended, and the callback is called |
| `LibClient.BaseClient.OnSocketTimeout` | src/lib/Client.js:122-126 | `timeout` is emitted and the client closes, keeping the pending requests |
| `LibClient.BaseClient.OnSocketClose` | src/lib/Client.js:128-133 | `close` is emitted and the client is disconnected |
| `LibClient.BaseClient.OnSocketEnd` | src/lib/Client.js:135-141 | `end` is emitted, the client is disconnected and the socket is destroyed |
| `LibClient.BaseClient.OnSocketDestroy` | src/lib/Client.js:143-148 | `destroy` is emitted and the client is disconnected |
| `LibClient.BaseClient.OnSocketclose` | src/lib/Client.js:150-153 | the client is disconnected and the socket is destroyed, with no event |
| `LibClient.BaseClient.OnSocketError` | src/lib/Client.js:170-176 | connect's callback gets the error, `error` is emitted and the socket is destroyed |
| `LibClient.BaseClient.PipeSocket` | src/lib/Client.js:213-218 | throws exactly when no socket is passed |
| `LibClient.BaseClient.UnpipeSocket` | src/lib/Client.js:220-225 | throws exactly when no socket is passed |
| `LibClient.BaseClassCannotSend` | src/lib/Client.js:182-190 | a connected push on the base class stores the entry, sends nothing and throws |
| `Missive.TwoWayConvention` | src/tcpMissive.js:44-61 | a function as last argument selects the callback; anything else selects a promise, never fire-and-forget |
| `Missive.TwoWayHasNoFireAndForget` | src/tcpMissive.js:45-60 | the two-way stub turns exactly the fire-and-forget calls of the three-way stub into promise calls |
| `Missive.MissiveClient.constructor` | src/tcpMissive.js:15-27 | the client starts disconnected with an empty table and `_methods = []` |
| `Missive.MissiveClient.RequestPush` | src/tcpMissive.js:205-213 | the push step with the `{id, m, p}` record |
| `Missive.MissiveClient.Request` | src/tcpMissive.js:215-226 | the callback, or else the promise adapter, is pushed |
| `Missive.MissiveClient.Stub` | src/tcpMissive.js:44-61 | an uninstalled name throws; otherwise a callback or a promise call with the first argument as parameters |
| `Missive.MissiveClient.Connect` | src/tcpMissive.js:231-246 | connect stores the callback, or the promise adapter and returns the promise |
| `Missive.MissiveClient.OnConnect` | src/tcpMissive.js:182-186 | the client becomes connected and the discovery record is pending and sent |
| `Missive.MissiveClient.OnMessage` | src/tcpMissive.js:88-121 | falsy ids are dropped, orphans emitted as `error`, a match settles with `r` (stamped for `versions`) and deletes its entry |
| `Missive.MissiveClient.OnTimeout` | src/tcpMissive.js:146-150 | `timeout` is emitted, and `_close` disconnects the client and ends the socket |
| `Missive.MissiveClient.OnError` | src/tcpMissive.js:152-158 | connect's callback gets the error, `error` is emitted and the socket is destroyed |
| `Missive.MissiveClient.OnClose` | src/tcpMissive.js:160-165 | `close` is emitted and the client is disconnected |
| `Missive.MissiveClient.OnEnd` | src/tcpMissive.js:167-173 | `end` is emitted, the client is disconnected and the socket is destroyed |
| `Missive.MissiveClient.OnDestroy` | src/tcpMissive.js:175-180 | `destroy` is emitted and the client is disconnected |
| `Missive.MissiveClient.Close` | src/tcpMissive.js:248-259 | the pending requests are counted and kept, the socket is ended, and the callback is called |
| `Jayson.NormaliseParams` | src/tcpJayson.js:163-169 | null or undefined parameters are left out; a number or string is wrapped in a one-element array; anything else is sent as is |
| `Jayson.Written` | src/tcpJayson.js:155-176 | the written request has `jsonrpc` and `method`, `id` when serialisable, and `params` exactly when the parameters are neither nullish nor a function, serialised after normalisation |
| `Jayson.BareRequestView` | src/tcpJayson.js:157-161 | without parameters the request has no `params` member |
| `Jayson.ScalarParamsWrapped` | src/tcpJayson.js:164-167 | a scalar arrives as a one-element array; a plain array or object arrives unchanged |
| `Jayson.SplitArgs` | src/tcpJayson.js:188-205 | a trailing function is popped as the callback, and the rest are the parameters (undefined when none remain); otherwise the whole list is the parameters |
| `Jayson.ClientParamsStructured` | src/tcpJayson.js:191-196 | requests built from an argument list carry an array as `params`, and carry none exactly when the callback was the only argument |
| `Jayson.DiscoverySendsNoParams` | src/tcpJayson.js:32 | the discovery call sends no parameters |
| `Jayson.JaysonClient.constructor` | src/tcpJayson.js:13-25 | the client starts disconnected with an empty table and `_methods = []` |
| `Jayson.JaysonClient.RequestPush` | src/tcpJayson.js:178-186 | the push step with the JSON-RPC text |
| `Jayson.JaysonClient.Request` | src/tcpJayson.js:188-205 | the split parameters are pushed with the trailing callback, or else with the promise adapter |
| `Jayson.JaysonClient.Stub` | src/tcpJayson.js:41-50 | an uninstalled name throws; with a trailing callback the client itself is returned for chaining, otherwise a promise |
| `Jayson.JaysonClient.Connect` | src/tcpJayson.js:210-225 | connect stores the callback, or the promise adapter and returns the promise |
| `Jayson.JaysonClient.OnConnect` | src/tcpJayson.js:142-145 | the client becomes connected and the discovery request is pending and sent |
| `Jayson.JaysonClient.OnData` | src/tcpJayson.js:79-98 | no id check and no version stamp: orphans are emitted as `error`, and a match settles with `result` and deletes its entry |
| `Jayson.JaysonClient.OnTimeout` | src/tcpJayson.js:111-115 | `timeout` is emitted and `_close` disconnects the client, then throws a TypeError on the unset `this.conn`, so the socket is not ended |
| `Jayson.JaysonClient.OnError` | src/tcpJayson.js:117-122 | connect's callback gets the error, `error` is emitted and the socket is destroyed |
| `Jayson.JaysonClient.OnClose` | src/tcpJayson.js:124-128 | `close` is emitted and the client is disconnected |
| `Jayson.JaysonClient.OnEnd` | src/tcpJayson.js:130-134 | `end` is emitted and the client is disconnected; the socket is not destroyed |
| `Jayson.JaysonClient.OnDestroy` | src/tcpJayson.js:136-140 | `destroy` is emitted and the client is disconnected |
| `Jayson.JaysonClient.Close` | src/tcpJayson.js:227-238 | the pending requests are counted and kept, the socket is ended, and the callback is called |
| `Factory.Before` | index.js:29-30 | `split(c)[0]`: the longest prefix without `c`, ending where `c` first occurs |
| `Factory.BeforeSeparator` | index.js:30 | the host is exactly the text before the first colon |
| `Factory.Scheme` | index.js:12-15 | the match `^([^:]+)` succeeds exactly when the URL is non-empty and does not start with a colon, and gives the text before the first colon |
| `Factory.FirstTransport` | index.js:29 | the leftmost position where `tcp://` or `tls://` occurs |
| `Factory.StripTransport` | index.js:29 | `replace` without the `g` flag removes exactly the leftmost transport prefix, or nothing |
| `Factory.EngineName` | index.js:34 | the engine loses one leading `tcp` or `tls`, and nothing else |
| `Factory.EngineStripsOnePrefix` | index.js:34 | `tcpjsonrpc` and `tlsbinary` name the layers; only one prefix is stripped |
| `Factory.Merge` | index.js:17 | `Object.assign(defaultOptions, options \|\| {})`: the caller's enumerable keys override, and the other defaults stay |
| `Factory.Assemble` | index.js:6-54 | a missing URL or a failed scheme match throws before the defaults change; success needs a `tcp` or `tls` scheme and records the chosen engine in the defaults; once the URL is matched, the defaults are the merged options, changed only in `engine` and, for a tls URL, `tls` |
| `Factory.Select` | index.js:28-51 | once the transport is known, host and port are the two pieces around the first colon of what is left of the URL, and the engine decides the layer; the defaults keep every merged key, gain at most `engine` and `tls`, and differ from the merged options only in `engine` and, after a tls URL is accepted, in `tls = true` |
| `Factory.UrlRoundTrip` | index.js:28-51 | for `scheme://host:port` with a scheme in any case, the client gets that host and port; it is built exactly when the engine names a layer; a tls URL sets `tls` in the defaults, and a tcp URL leaves `tls` as the merge left it |
| `Factory.RejectedUrlLeavesDefaults` | index.js:8-26 | each URL error throws its own message; the first two leave the defaults alone, and the transport error comes after the merge |
| `Factory.TlsFlagPersists` | index.js:17-49 | once a tls URL has set `tls` in the shared defaults, every later call keeps it unless its own options override it |
| `Factory.EngineWrittenBack` | index.js:34 | the engine is written back, stripped, into the shared defaults |
| `Factory.SelectBinary` | index.js:40-42 | the `binary` engine builds a binary client for the parsed host and port |
| `Factory.DefaultEngineIsBinary` | index.js:2-4 | with the initial defaults and no options, a well-formed URL gives a binary client |
| `Factory.LowerCaseSchemeAgrees` | index.js:29 | on a lower-case `tcp` or `tls` URL, the factory as written and the case-insensitive one give the same result and the same defaults |
| `Factory.UppercaseSchemeAsWritten` | index.js:29 | as written, a `tcp` or `tls` scheme with any capital letter is accepted but not stripped, so for any host a client built that way gets the scheme as host and no port |
| `Factory.SlashesAreNotANumber` | index.js:31 | the port text `//host` left behind by the unstripped URL does not parse as a number |
| `Factory.ClientModule.constructor` | index.js:2-4 | the module-wide defaults start as `{engine: 'binary'}` |
| `Factory.ClientModule.Client` | index.js:6-54 | the factory throws, or builds a fresh client, exactly as the URL and engine functions say, and leaves the shared defaults as they say |
| `Factory.ClientModule.Configure` | index.js:28-51 | the transport and layer selection builds a client sharing the defaults object as its options |

## Left out

- Sockets, the `missive` and `JSONStream` codecs, and streaming I/O. A
  decoded response is given to the handler as an object, and a written
  request is recorded as a value.
- Responses whose top-level JSON is not an object.
- hyperid: request ids are parameters, and a colliding id overwrites the
  earlier entry, as the code does.
- `process.nextTick` and promise scheduling. A promise is settled at once,
  and `close` runs its deferred body immediately.
- Debug logging.
- The `inflate`/`deflate` flags.
- Prototype-inherited keys, property keys of non-integer numbers, and named
  properties on arrays.
- The order of keys in an object and in `JSON.stringify` output.
- Numbers are modelled as integers; floating point, `NaN` and `Infinity`
  are not modelled. A port that does not parse is `None`.
- `jsonrpc.js:61` writes to `this._conn`, which the TCP client never sets:
  the socket is `_socket`. The model sends the envelope as evidently
  intended.
- jsonrpc.js does not override the empty `_pipeSocket` of TCP.js:93-95, so
  as written its JSONStream is never fed from the socket and no response
  reaches its handler. The model delivers each decoded response to
  `Tcp.TcpClient.OnMessage` as evidently intended.
- The binary client's socket handlers are modelled as intended by
  `Tcp.TcpClient.OnError`, `OnClose`, `OnEnd`, `OnDestroy` and `Connect`;
  what the code as written does is the `src/tcp/binary.js:63-71` finding.
- Piping and unpiping a socket is not recorded in `socketOps`; only `end`
  and `destroy` are.
- LibClient.WithNr: the model returns a new parameters value. In
  src/lib/Client.js:203-204 `nr = 1` is written into the caller's own
  parameters object (`args[0]`, Client.js:57), an Error passed as
  parameters included, so the caller sees the change. The in-place update
  and that aliasing are not captured.
- LibClient.WithNr: an array, a function or an Error passed as parameters
  is returned unchanged, without `nr`, because the model has no named
  properties on those values. For an array or a function the difference
  does not reach the wire. For an Error it does: the source writes an own
  enumerable `nr` onto it, so `JSON.stringify` sends `{"nr":1}`, where the
  model's JSON view of an Error sends `{}`.
- LibClient.BaseClient.Request: the fire-and-forget parameters it sends
  come from `LibClient.WithNr`, so the same in-place update of the caller's
  object is not captured, and an Error sent this way lacks `nr`.
- Missive.MissiveClient.OnMessage: src/tcpMissive.js:111-113 repeats the
  null `versions` stamp of the src/tcp/binary.js:48-50 finding word for
  word, so as written a response with a null result to a pending `versions`
  request throws before the callback runs and before the entry is deleted.
  The model delivers null and deletes the entry as intended
  (`Protocol.StampVersion`). The same holds for the JSON-RPC layer at
  src/tcp/jsonrpc.js:41-43 and `Tcp.TcpClient.OnMessage`.
- A stub whose name shadows one of the client's own methods, such as
  `connect` or `close`, is not modelled. A stub is recorded by name only.
- TLS options (`rejectUnauthorized: false`, `secureProtocol`) are not
  modelled. `rejectUnauthorized: false` at src/lib/Client.js:101 turns off
  certificate checking for every tls connection, which is a security issue:
  any server that answers on the port is trusted, and so is a
  man-in-the-middle.
- LibClient.BaseClient.OnResponse: src/lib/Client.js defines no response
  handler. It stores each request in `_requests` (Client.js:188) and only
  counts the table (Client.js:254); it never looks an entry up by id, never
  deletes one, and never emits `error` for an orphan. Its one subclass,
  src/jsonrpc.js:21, binds `this.onMessage`, which no file defines, so as
  written no request of this client is ever settled and discovery never
  completes. The decoder `dec`, and with it the matching, deletion and
  orphan `error` in this member's contract, stand for a handler that no
  subclass in the repository provides; only the stub installation of the
  `methods` callback (Client.js:30-74) is this file's own code.
- index.js:48 sets `options.tls`, but the TCP client in TCP.js never reads
  it: the connection is always plain `net`. The flag is kept in the
  defaults only.
- A URL or options value that is an object with its own `match` or
  `replace` is not modelled. The URL is a string or a value that throws.
- The messages of `TypeError`s raised by the engine are not modelled.
- `src/dinary.js`, `src/jsonrpc.js` and the examples are not part of this
  model.
- Which events have listeners is an input to the model (`EventSurface.On`).

## Findings

| source | as written | input that shows it | evidently intended | confidence | as-written member | corrected member |
|---|---|---|---|---|---|---|
| src/tcp/TCP.js:49 | `typeof null` is 'object', so a null last argument reaches `lastArgType.lazy` and throws a TypeError | a stub call `client.find(null)` | null falls through to the promise convention, as src/lib/Client.js:54 guards with `lastArg != null` | high, not executed | `Tcp.NullLastArgumentThrows` (on `Tcp.StubConventionAsWritten`) | `Protocol.StubConvention` |
| index.js:29 | the transport prefix is removed case-sensitively, while the scheme check at index.js:22 lower-cases | `Client("TCP://db:6370")` gives host "TCP" and port NaN | the same case-insensitive prefix is removed | high, not executed | `Factory.UppercaseSchemeAsWritten` (on `Factory.ConstructAsWritten`) | `Factory.UrlRoundTrip` (on `Factory.Construct`), which agrees with the code as written on lower-case schemes by `Factory.LowerCaseSchemeAgrees` |
| src/tcp/binary.js:48-50 | `typeof null` is 'object', so a null `versions` result is written to and throws inside the handler; the entry is never deleted. The same code is at src/tcpMissive.js:111-113 and, for `result`, at src/tcp/jsonrpc.js:41-43 | a response `{id, r: null}` to a pending `versions` request | only real objects are stamped, and null is delivered | medium, not executed | `Protocol.NullVersionsResultThrows` (on `Protocol.StampVersionAsWritten`) | `Protocol.StampVersion` |
| src/lib/Client.js:99 | `this.host` is never set (the field is `_host`), so a tls connection goes to localhost | `protocol: 'tls'` with host "db.example" | connect to `this._host`, as the tcp path does at src/lib/Client.js:110 | high, not executed | `LibClient.TlsIgnoresConfiguredHost` (on `LibClient.ConnectTargetAsWritten`) | `LibClient.ConnectTarget` |
| src/tcp/binary.js:63-71 | the pipe and unpipe hooks use `this._conn`, but TCP.js:107 keeps the socket in `this._socket`, so connect throws at TCP.js:151 and the error, close, end and destroy handlers throw before they clear `_isConnected` or destroy the socket | `Client('tcp://db:6370').connect(cb)` with the default binary engine | the hooks pipe `this._socket`, as tcpMissive.js pipes the socket it holds | high, not executed | `Tcp.BinaryHooksThrowAsWritten` (on `Tcp.SocketHookAsWritten`, `Tcp.ConnectAsWritten` and `Tcp.SocketEventAsWritten`) | `Tcp.TcpClient.OnClose`, with `OnError`, `OnEnd`, `OnDestroy` and `Connect` |
