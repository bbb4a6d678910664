# cos-websocket in Dafny

This project models the core of cos-websocket, a small RPC layer over WebSockets:

- A browser-side `WebSocketClient` sends calls `target.message(...args)` as request
  frames `{c, t, m, a}`. It keeps each pending call in a table keyed by the call's id
  (`evalPool`) and settles the call's promise when a reply frame `{s, t, c, m, v, d}`
  carrying that id comes back. It rejects calls that time out and every call when the
  socket closes. It reconnects with a growing spacing between attempts.
- A server-side `WebSocketServer` registers each accepted connection under a fresh
  handle.
- A `WebSocketContext` per connection decodes each request. It finds the handler that
  the `@WebSocketTarget`/`@WebSocketMethod` decorators registered under
  `target#message`. It calls the handler with the context in front of the arguments and
  sends back the handler's response, stamped with the request's id.

The model is split into these files:

- `options.dfy`: `Option` and `Outcome`.
- `keys.dfy`: the decimal text `id + ''` that the client uses as an object key, and its
  exact inverse.
- `json.dfy`: JSON values with JavaScript's `undefined` and truthiness, the property read
  `obj.k`, `JSON.stringify` followed by `JSON.parse` as a normalisation, and `String(v)`.
- `response.dfy` and `request.dfy`: the two frame formats. Each has its encoder, its
  parser and its round trip. Responses also have the mutable object with chainable
  setters.
- `decorator.dfy`: the target and method tables and the checks the decorators make.
- `dispatch.dfy`: the reply a context sends for one inbound text, as a function.
- `server.dfy`: the connection registry, the server's start guard and the context object.
- `client.dfy`: the client object as a class with the same fields.
- `protocol.dfy`: what holds when a client and a server talk to each other.

Several things outside the program become explicit in the model:

- **The clock** is the `now` parameter of each operation that reads it.
- **The socket** is its ready state. `SetReadyState` is the transport's step.
- **Promises** become a `settled` log of `Settlement`s. A rejection still waiting on the
  10 ms timer sits in `scheduled` until `FireDeferredReject` releases it.
- **Listener callbacks** become a log of `Notice`s, one per `invokeListeners` broadcast.
- **Frames the client sends** go to `sent`. Frames a context sends go to its `outbox`.

Four behaviours of the code are easy to miss. The model follows the code in each:

- A failed reply rejects the call with the value `'hi'`, not with the reply's value
  (src/WebSocketClient.ts:276-279).
- `send` takes a fresh call id even when the client is not connected. The id is
  allocated before the connection is checked, so the rejected call uses up an id too
  (src/WebSocketClient.ts:343-345).
- `@WebSocketMethod` has no duplicate check. A second handler for the same
  `target#message` silently replaces the first (src/WebSocketDecorator.ts:30).
- `WebSocketResponse.error` takes no parameter. The diagnostic texts the context passes
  to it are dropped, so the error replies carry an undefined message
  (src/WebSocketResponse.ts:22-24).

## Model

| member | source | states |
|---|---|---|
| Keys.Decimal | src/WebSocketClient.ts:357 | the key `id + ''` is a non-empty digit string, one digit exactly below 10, with no leading zero for a positive id |
| Keys.DecimalValue | src/WebSocketClient.ts:357 | the digits of an id's key have the id as their value |
| Keys.KeyRoundTrip | src/WebSocketClient.ts:357 | every id's key reads back as that id |
| Keys.KeyToIdExact | src/WebSocketClient.ts:264 | a text that reads back as id n is exactly n's key, so a reply can only find the call it names |
| Keys.KeyMatches | src/WebSocketClient.ts:264 | a text reads back as n if and only if it is n's key |
| Keys.DecimalInjective | src/WebSocketClient.ts:101 | distinct ids never share a key |
| JsonValues.NormalizeIsDocument | src/WebSocketContext.ts:56 | what JSON.stringify then JSON.parse yields contains no undefined |
| JsonValues.NormalizeKeepsDocument | src/WebSocketClient.ts:358 | parsed JSON crosses the wire unchanged |
| JsonValues.NormalizeIdempotent | src/WebSocketClient.ts:358 | a second stringify/parse changes nothing |
| JsonValues.GetNormalize | src/WebSocketResponse.ts:88-99 | reading a member of a parsed frame gives that member's own stringify/parse |
| JsonValues.TruthyNormalize | src/WebSocketResponse.ts:90 | stringify/parse never changes whether a value is truthy |
| JsonValues.NumKey | src/WebSocketClient.ts:264 | a numeric callback used as a property key finds the entry of that id |
| WebSocketResponse.SuccessResponse | src/WebSocketResponse.ts:18-20 | `success()` has a truthy flag and every other field unset |
| WebSocketResponse.ErrorResponse | src/WebSocketResponse.ts:22-24 | `error()` has a false flag and every other field unset, the message included |
| WebSocketResponse.Encode | src/WebSocketResponse.ts:75-84 | `toJSON` is an object with exactly the six short keys s, t, c, m, v, d, each holding its field |
| WebSocketResponse.Decode | src/WebSocketResponse.ts:86-103 | parse yields null iff the text is not JSON, the document is falsy or its `t` is falsy; a parsed response always has a truthy type |
| WebSocketResponse.DecodeEncode | src/WebSocketResponse.ts:75-99 | parse of the stringified toJSON of any response with a truthy type gives each field's own stringify/parse |
| WebSocketResponse.RoundTrip | src/WebSocketResponse.ts:75-99 | for a transmittable response with a truthy type, parse(stringify(toJSON)) gives back the same six fields |
| WebSocketResponse.DecodeRejectsFalsyType | src/WebSocketResponse.ts:90-92 | an absent, null, false, zero or empty `t` makes the frame unparseable, whatever else it holds |
| WebSocketResponse.DecodeAcceptsAnyTruthyType | src/WebSocketResponse.ts:90-95 | any truthy `t` is accepted as the type, not only the two response types |
| WebSocketResponse.Response.constructor | src/WebSocketResponse.ts:14-16 | a new response holds the given flag and nothing else |
| WebSocketResponse.Response.Success | src/WebSocketResponse.ts:18-20 | a fresh object equal to `success()` |
| WebSocketResponse.Response.Error | src/WebSocketResponse.ts:22-24 | a fresh object equal to `error()` |
| WebSocketResponse.Response.SetType | src/WebSocketResponse.ts:34-37 | changes the type only and returns the same object |
| WebSocketResponse.Response.SetCallback | src/WebSocketResponse.ts:43-46 | changes the callback only and returns the same object |
| WebSocketResponse.Response.SetMessage | src/WebSocketResponse.ts:52-55 | changes the message only and returns the same object |
| WebSocketResponse.Response.SetValue | src/WebSocketResponse.ts:61-64 | changes the value only and returns the same object |
| WebSocketResponse.Response.SetDebug | src/WebSocketResponse.ts:70-73 | changes the debug field only and returns the same object |
| WebSocketResponse.Response.Parse | src/WebSocketResponse.ts:86-103 | the setter chain builds null exactly when Decode fails, otherwise a fresh object holding Decode's fields |
| WebSocketRequest.Encode | src/WebSocketRequest.ts:31-38 | `toJSON` is an object with exactly the four short keys c, t, m, a, each holding its field |
| WebSocketRequest.Decode | src/WebSocketRequest.ts:17-29 | parse yields null iff the text is not JSON, the document is falsy or its `c` is falsy; a parsed request always has a truthy callback |
| WebSocketRequest.DecodeEncode | src/WebSocketRequest.ts:17-38 | any request with a truthy callback crosses the wire as its fields' own stringify/parse |
| WebSocketRequest.RoundTrip | src/WebSocketRequest.ts:17-38 | a request with a non-zero id, two names and JSON arguments is parsed back exactly |
| WebSocketRequest.DecodeRejectsFalsyCallback | src/WebSocketRequest.ts:21-23 | an absent, null, false, zero or empty `c` makes the frame unparseable |
| WebSocketRequest.DecodeToleratesMissingFields | src/WebSocketRequest.ts:21-25 | only `c` is checked: a frame with a truthy `c` alone parses, with undefined target, message and args |
| WebSocketDecorator.CheckMethod | src/WebSocketDecorator.ts:18-28 | registration passes iff the class has a non-empty target path, the message name is non-empty and the method is named `'on' + messageName`; the target check comes first |
| WebSocketDecorator.Lookup | src/WebSocketDecorator.ts:35-37 | `getMethod(t, m)` finds a handler exactly when one is stored under `t#m`, and then that one |
| WebSocketDecorator.DispatchTable.GetMethod | src/WebSocketDecorator.ts:35-37 | on the table's own handlers: found exactly when a handler is stored under `t#m`, and then that one |
| WebSocketDecorator.LookupAfterStore | src/WebSocketDecorator.ts:30-36 | after a handler is stored, getMethod sees it under that pair's key and any other key unchanged |
| WebSocketDecorator.MethodKeyInjective | src/WebSocketDecorator.ts:35-37 | when target paths contain no '#', distinct (target, message) pairs have distinct keys |
| WebSocketDecorator.MethodKeyCollision | src/WebSocketDecorator.ts:35-37 | with a '#' in the target path, two different pairs reach the same handler |
| WebSocketDecorator.DispatchTable.constructor | src/WebSocketDecorator.ts:1-2 | both tables start empty |
| WebSocketDecorator.DispatchTable.RegisterTarget | src/WebSocketDecorator.ts:4-13 | a path already claimed is refused with nothing changed; otherwise the class is tagged with the path and stored under it |
| WebSocketDecorator.DispatchTable.RegisterMethod | src/WebSocketDecorator.ts:15-33 | the outcome is CheckMethod's; on a pass the handler is stored under `path#message`, overwriting, and on a failure nothing changes |
| Dispatch.CallArgs | src/WebSocketContext.ts:44-45 | the handler's arguments are the context followed by the request's arguments, in order |
| Dispatch.ReplyFor | src/WebSocketContext.ts:22-49 | a server-type reply iff the frame does not parse, with a false flag and no callback; otherwise a client-type reply carrying the request's callback, a false flag for an unknown pair, and otherwise the handler's own response with only callback and type replaced |
| Dispatch.ReplyAsWritten | src/WebSocketContext.ts:22-49 | the code as written: a failed server-type reply for an unparseable frame, a failed reply carrying the request's callback for an unknown pair, and otherwise, when it replies at all, a client-type reply carrying the request's callback |
| Dispatch.AsWrittenAgrees | src/WebSocketContext.ts:44-46 | the code as written sends nothing exactly when a handler exists and the request's `a` is not an array, and otherwise sends ReplyFor's reply |
| Dispatch.AsWrittenDropsArglessCall | src/WebSocketContext.ts:44-46 | `{c:7,t:"Echo",m:"Ping"}` with Echo#Ping registered gets no reply as written, and the context alone as arguments once corrected |
| Dispatch.EchoPing | src/WebSocketContext.ts:33-48 | `{c:7,t:"Echo",m:"Ping",a:["hi"]}` reaches the handler as (context, "hi") and is answered as call 7 with the handler's flag and value |
| WebSocketServer.ConnectionRegistry.constructor | src/WebSocketServer.ts:5-9 | the seed starts at 1 with no connections |
| WebSocketServer.ConnectionRegistry.Register | src/WebSocketServer.ts:11-16 | the new context gets the current seed as a handle that no live entry holds, is stored under it, and the seed moves on by one |
| WebSocketServer.ConnectionRegistry.Unregister | src/WebSocketServer.ts:18-25 | true iff the context's handle is present; only that entry is removed |
| WebSocketServer.Server.constructor | src/WebSocketServer.ts:27-29 | a server on the given port, not listening |
| WebSocketServer.Server.Start | src/WebSocketServer.ts:31-41 | refused when already started, otherwise listening |
| WebSocketServer.Server.OnConnection | src/WebSocketServer.ts:38-40 | every accepted socket is registered under a fresh handle that no live entry holds, with nothing sent yet, and the registry's seed moves on by one |
| WebSocketServer.Context.constructor | src/WebSocketContext.ts:11-16 | a context keeps its handle and has sent nothing |
| WebSocketServer.Context.Send | src/WebSocketContext.ts:55-57 | one stringified frame is appended to what the socket was given |
| WebSocketServer.Context.OnMessage | src/WebSocketContext.ts:22-49 | with the missing-arguments throw corrected, one reply per inbound text, the stringified ReplyFor reply; wherever the code as written replies, the same reply it sends |
| WebSocketServer.Context.OnClose | src/WebSocketContext.ts:51-53 | closing removes exactly this context's handle from the registry |
| WebSocketClient.SeedCounter.Next | src/WebSocketClient.ts:7-13 | each id is one more than the previous one |
| WebSocketClient.NeedInterval | src/WebSocketClient.ts:294 | the required spacing is the interval plus 1500 ms capped at 8000 ms, hence between 1500 and 8000 for a non-negative interval |
| WebSocketClient.SpacingGrows | src/WebSocketClient.ts:292-303 | after a delayed attempt the spacing never shrinks, and it grows by more than 1500 ms until it reaches the cap |
| WebSocketClient.ReplySettlement | src/WebSocketClient.ts:270-280 | a matched reply settles its call with the reply's message; resolved iff the flag is truthy, with the reply's value when resolved and 'hi' when rejected |
| WebSocketClient.PoolKeyExact | src/WebSocketClient.ts:264 | a reply's callback names call n iff its text is n's key |
| WebSocketClient.Client.constructor | src/WebSocketClient.ts:94-98 | the given url, timeout (16000 by default) and debug flag; not started, no socket, no calls, no listeners |
| WebSocketClient.Client.IsConnected | src/WebSocketClient.ts:210-212 | a connected client is never closed |
| WebSocketClient.Client.IsClosed | src/WebSocketClient.ts:214-216 | a client with no socket is closed, and a closed client's socket is neither open nor connecting |
| WebSocketClient.Client.AddListener | src/WebSocketClient.ts:100-109 | a fresh key that reads back as the new id, the observer stored under it, and a direct onOpen only when connected and the observer has one |
| WebSocketClient.Client.RemoveListener | src/WebSocketClient.ts:111-118 | true iff the key names a present listener; then only that one goes, otherwise nothing changes |
| WebSocketClient.Client.Connect | src/WebSocketClient.ts:292-319 | a new connecting socket exactly when the socket is closed and more than the spacing has passed, recording the time and the observed gap and a warning when there was an earlier attempt; otherwise nothing changes |
| WebSocketClient.Client.ConnectNow | src/WebSocketClient.ts:321-325 | connect with the spacing cleared |
| WebSocketClient.Client.Disconnect | src/WebSocketClient.ts:327-340 | true iff the socket was open or connecting, which it then closes |
| WebSocketClient.Client.Start | src/WebSocketClient.ts:182-194 | refused when started; otherwise started with an empty table and cleared spacing, and connected as Connect decides |
| WebSocketClient.Client.Stop | src/WebSocketClient.ts:196-208 | refused when not started; otherwise stopped, socket closing, table emptied without settling any call, spacing cleared |
| WebSocketClient.Client.OnOpen | src/WebSocketClient.ts:218-223 | the spacing is cleared and one open broadcast is made |
| WebSocketClient.Client.OnError | src/WebSocketClient.ts:239-241 | one error broadcast; nothing else changes |
| WebSocketClient.Client.OnClose | src/WebSocketClient.ts:225-237 | the socket is dropped, every pending call is rejected exactly once with 'WebSocketClose', the table is emptied and one close broadcast is made |
| WebSocketClient.Client.Send | src/WebSocketClient.ts:342-366 | a fresh id never used by a call or a listener; when connected the call enters the table and its request frame is sent, otherwise a 'WebSocketClose' rejection is scheduled and the table is untouched |
| WebSocketClient.Client.FireDeferredReject | src/WebSocketClient.ts:360-362 | the oldest scheduled rejection takes effect |
| WebSocketClient.Client.TimedOut | src/WebSocketClient.ts:159-167 | the collected keys are exactly the calls older than the timeout, each once |
| WebSocketClient.Client.Reject | src/WebSocketClient.ts:170-175 | one call leaves the table and is rejected with the given message |
| WebSocketClient.Client.Expire | src/WebSocketClient.ts:159-176 | the calls older than the timeout leave the table and are each rejected exactly once with 'Timeout'; every other call stays |
| WebSocketClient.Client.OnTimer | src/WebSocketClient.ts:156-180 | when started, Expire and then Connect; when not started nothing changes |
| WebSocketClient.Client.OnMessage | src/WebSocketClient.ts:243-290 | non-text events are ignored; an unparseable frame only logs; a client reply for a pending call settles it once (resolved on a truthy flag, else rejected with 'hi') and removes it; a reply for any other id changes nothing; a server push is broadcast |
| Protocol.RequestArrives | src/WebSocketClient.ts:358 | the server parses a client's request back with its id, both names and its arguments as stringified |
| Protocol.ReplyCorrelates | src/WebSocketContext.ts:48 | whatever handlers are registered, the reply to call n parses at the client as a client reply whose callback finds call n and no other |
| Protocol.HandlerOutcomeArrives | src/WebSocketClient.ts:270-280 | for a registered pair, the client settles the call with the handler's own flag, message and value as stringified |
| Protocol.UnknownPairRejects | src/WebSocketContext.ts:35-41 | for an unregistered pair, the client rejects the call with an undefined message and the value 'hi' |

## Left out

- The transport is left out: the `WebSocket` and `uws` objects, their event wiring and the
  actual bytes on the wire. The socket's readiness is a field that `SetReadyState`
  changes. Sent frames are recorded rather than delivered.
- Promises and `async`/`await` are left out. A handler is a pure function from its
  arguments to the response it resolves to. A promise's settlement is a log entry.
- The timers are left out. `setInterval`/`clearInterval` and the timer handle are
  dropped: the tick is the `OnTimer` step and `Start`/`Stop` only set the started flag.
  The 10 ms `setTimeout` of an unconnected send becomes the `scheduled` queue and the
  `FireDeferredReject` step. The zero-delay `setTimeout` around method registration
  becomes the `RegisterMethod` step, run whenever the caller chooses.
- WebSocketClient.SeedCounter.Next and WebSocketServer.ConnectionRegistry.Register: call ids,
  listener keys and connection handles are unbounded naturals. In the code they are doubles,
  and the increment stops at 2^53, after which ids and handles repeat and overwrite live
  entries. The model assumes fewer than 2^53 of each.
- JSON numbers are integers. Floating-point values, `NaN` and their text form are not
  modelled.
- `JSON.stringify` of values other than the frames' `toJSON` objects is not modelled:
  functions, symbols, `toJSON` methods inside arguments and cyclic values.
- Property reads look only at a plain object's own members. Keys inherited from
  `Object.prototype`, such as a callback text `"constructor"`, are not modelled.
- A listener broadcast is recorded as one notice. The per-observer fan-out, which calls
  only the observers that supply the callback, and the text of the log messages are not
  modelled.
- `connect()` reads the clock three times. The model reads it once, as `now`.
- The id counter is one `SeedCounter` object shared by reference. Its sharing across
  several clients is allowed but not reasoned about beyond each client's own calls.
- The server's registry, seed and tables are module-wide statics in the code. They are
  objects passed in explicitly here.
- WebSocketServer.Context.OnMessage: sends the corrected reply of `Dispatch.ReplyFor`. For a
  request whose handler exists but whose `a` member is not an array, the code as written
  throws and sends nothing (see Findings). The model sends the handler's reply, called
  with the context alone. On every other input it sends what the code sends.
- `callArgs.unshift(this)` mutates the parsed request's array in place. The model builds
  the new argument list as a value.
- `WebSocketClientObserver.ts` is not part of this model. An observer is recorded only by
  whether it supplies `onOpen`, the one callback the client calls directly. Its other
  callbacks are reached through broadcasts, which the model records as notices. The `Info`
  log level, which the client never uses, is not modelled.

## Findings

| source | as written | input that shows it | evidently intended | confidence | as-written member | corrected member |
|---|---|---|---|---|---|---|
| src/WebSocketContext.ts:44-46 | the context calls `unshift` on the request's `a` member without checking it; when `a` is missing or not an array this throws inside the async handler, so the caller gets no reply and its call only ends by timeout | `{"c":7,"t":"Echo","m":"Ping"}` with a handler registered for Echo#Ping | treat missing or non-array arguments as none and call the handler with the context alone | not executed | Dispatch.AsWrittenDropsArglessCall | Dispatch.ReplyFor |
