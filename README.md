# cx.com-proxy core, modelled in Dafny

This project models the core of a reverse-tunnel caching proxy and proves properties of the model.

- The **front door** answers HTTP requests. It searches an ordered list of caches, filters headers through an allowlist chosen by status, sends the document, and stores what it fetched.
- The **response cache** keeps documents under the key `"VERB path"`, for the paths its route pattern accepts. It answers a conditional request with a 304 once the request's If-Modified-Since is newer than the cache's baseline.
- The **tunnel server** keeps one active agent under a "newest wins, losers barred forever" rule. It sweeps its connections with pings, and it correlates each dispatched request with the upload that answers it.
- The **agent** turns the tunnel's dispatch messages into backend requests. It builds the upload's headers from the backend's raw header list plus its own `x-capnajax-*` headers, and uploads with a `PUT` to `/_content`.

Files and modules:

- `js.dfy` (`Js`) holds the JavaScript values and primitives the code relies on: truthiness, `||`, ASCII case mapping, decimal text and string search.
- `dict.dfy` (`Dict`) models a plain object as an ordered dictionary: `obj[k]`, `obj[k] = v` and `_.extend`.
- `document.dfy` (`Documents`) and `cache.dfy` (`Caches`) model `src/middleware/cache.js`.
- `server.dfy` (`TunnelServer`) models `src/socket/server.js`, with the receiver's delivery step.
- `proxy.dfy` (`FrontDoor`) models `src/middleware/proxy.js`.
- `client.dfy` (`Agent`) models `src/socket/client.js`.
- `protocol.dfy` (`Protocol`) models the control messages between the server and the agent.

Where the source changes state in place, the model uses a class: `Document`, `Cache`, `Server` and the Express `Response`. Each method's postcondition ties the new state to a function on values. The lemmas are stated about those functions.

Some inputs come from outside the code, so the model takes them as parameters:

- the clock (`now`);
- the If-Modified-Since value, already turned into milliseconds;
- the fresh random request id;
- configuration values;
- the backend's answer.

Sockets and timers become events: `Connect`, `OnMessage`, `OnPong`, `Sweep`, `Timeout` and `Deliver`.

Facts about the code that the model follows:

- The tunnel timeout is 1000 ms (src/socket/server.js:80). The model has no timing at all, only the timeout event.
- There is no per-connection queue and no concurrency cap (src/socket/server.js:71-93), so none is modelled.
- A settled request is never removed from `requestsOutstanding` (src/socket/server.js:82-87). `Server.RequestDocument` therefore requires a fresh id.
- The dispatch is `{path, requestId}`, sent with `activeClient.message` (src/socket/server.js:75), so it carries no method; see Findings.
- `filterHeaders` keeps the headers in the allowlist's order, not in their original order (src/middleware/cache.js:42-44). This follows `_.pick`; see `Documents.PickOrder`.
- `Cache.set` stores the caller's object, not a clone (src/middleware/cache.js:112-120).
- The front door fetches from the backend directly through its HTTP client, not through the tunnel (src/middleware/proxy.js:98-101). The client's default `validateStatus` rejects every answer whose status is not 2xx, as it rejects a failed request. The request has no `.catch`, so in all those cases nothing is sent and nothing is stored.

## Model

| member | source | states |
|---|---|---|
| `Documents.Pick` | src/middleware/cache.js:43 | `_.pick(headers, allow)` is a plain object without repeated names. A name has a value in it exactly when the name is allow-listed and the headers have that property, and the value is the headers' own. |
| `Documents.PickOrder` | src/middleware/cache.js:42-44 | The filtered headers' names are the allow-listed names the headers have, in the allowlist's order. |
| `Documents.FilterFieldsExactly` | src/middleware/cache.js:42-44 | On object-shaped headers, a header survives filtering, with its value, exactly when its name is allow-listed. Every other header is gone. |
| `Documents.HeaderLineRoundTrip` | src/middleware/cache.js:46-55 | A line `name + ":" + value` splits back into that name and that value. The name has no `:` and the value has no line break. |
| `Documents.HeaderLineWithoutColon` | src/middleware/cache.js:46-55 | A line without `:` is both its own name and its own value, as the two `replace` patterns leave it whole. |
| `Documents.HeaderNameKeepsNextLine` | src/middleware/cache.js:48 | `/:.*/` stops at a line break, so text after the break stays part of the name (`"a:b\nc"` has name `"a\nc"`). |
| `Documents.Named` | src/middleware/cache.js:47-48 | The filtered lines are exactly the lines whose name equals the requested one, never more lines than there were. |
| `Documents.NamedAppend` | src/middleware/cache.js:47-48 | Filtering distributes over concatenation, so the lines come back in their original order. |
| `Documents.AddedHeaderIsLastValue` | src/middleware/cache.js:30-56 | After `addHeader(name + ":" + value)`, `getHeaderValues(name)` is the old list with `value` appended. |
| `Documents.CloneCarriesContent` | src/middleware/cache.js:34-40 | A clone has the original's headers and body. Its status is the given one only when that is truthy; `undefined` and 0 keep the original status. |
| `Documents.Document.constructor` | src/middleware/cache.js:23-28 | Stores status, headers and body; missing headers become an empty array. |
| `Documents.Document.AddHeader` | src/middleware/cache.js:30-32 | Appends the line to array headers. Object-shaped headers have no `push`, so the call throws a TypeError and nothing changes. |
| `Documents.Document.Clone` | src/middleware/cache.js:34-40 | Returns a new document whose value is the original's, with status `statusCode \|\| this.statusCode`. |
| `Documents.Document.FilterHeaders` | src/middleware/cache.js:42-44 | The headers become the `_.pick` of themselves by the allowlist. Status and body are unchanged. |
| `Documents.Document.GetHeaders` | src/middleware/cache.js:46-50 | Returns the lines named `name`; it throws a TypeError exactly when the headers are not an array. |
| `Documents.Document.GetHeaderValues` | src/middleware/cache.js:52-56 | Returns one value per line `getHeaders(name)` returns, in the same order; it throws exactly when that does. |
| `Caches.Key` | src/middleware/cache.js:69-75 | `#key`: the upper-cased method, a space and the path when the pattern accepts the path, `WONT_CACHE` (`None`) otherwise. It has no contract of its own; `WontCacheIffIneligible`, `KeyIgnoresVerbCase`, `KeyInjective` and `PathOfKeyOf` state its properties. |
| `Caches.WontCacheIffIneligible` | src/middleware/cache.js:69-75 | `get` and `set` answer `WONT_CACHE` exactly when the pattern rejects the path. `set` then stores nothing, and it never answers `NOT_CACHED`. |
| `Caches.KeyIgnoresVerbCase` | src/middleware/cache.js:71 | `get` and `GET`, or any spelling of a method, share one key. |
| `Caches.KeyInjective` | src/middleware/cache.js:71 | Two requests share a key only when they have the same path and the same method up to case. The methods are tokens, with no space. |
| `Caches.PathOfKeyOf` | src/middleware/cache.js:71 | The text after a key's first space is the request's path. |
| `Caches.StoredKeepsEligible` | src/middleware/cache.js:112-120 | `set` keeps the invariant that every stored key names a path the pattern accepts. |
| `Caches.StoredUnderKeyOnly` | src/middleware/cache.js:112-116 | `set` on an eligible path stores the document under its key, answers `CACHED` and leaves every other key as it was. |
| `Caches.NotCachedIffAbsent` | src/middleware/cache.js:92-94 | `get` answers `NOT_CACHED` exactly when the path is eligible and nothing is stored under its key. It never answers `CACHED`. |
| `Caches.FreshnessRule` | src/middleware/cache.js:96-105 | With a document stored, a request whose date is truthy and after the baseline gets a 304 with the same headers and body. Any other request gets the stored document whole. |
| `Caches.SetThenGet` | src/middleware/cache.js:103-105 | Round trip: after `set(verb, path, d)`, `get` for that path and method in any case, with no date, returns `d`. |
| `Caches.ClearSetThenConditionalGet` | src/middleware/cache.js:77-105 | After a clear at `now` and a `set`, a request dated after `now` is answered 304. One dated at or before `now` gets the document. |
| `Caches.ClearedAnswersNotCached` | src/middleware/cache.js:77-80 | After a clear, every eligible `get` is `NOT_CACHED` and every other one is `WONT_CACHE`. |
| `Caches.Cache.constructor` | src/middleware/cache.js:60-67 | Name and pattern as given, the baseline at the current time, and no documents. |
| `Caches.Cache.Clear` | src/middleware/cache.js:77-80 | The baseline becomes the current time and the documents are emptied, both in one step. |
| `Caches.Cache.Get` | src/middleware/cache.js:82-110 | Answers as the lookup function does on the cache's state. A document answer is a fresh clone. |
| `Caches.Cache.Set` | src/middleware/cache.js:112-120 | Stores the caller's own object under the key when the path is eligible. The stored values and the marker are those of the store function. |
| `TunnelServer.DeadIdRefused` | src/socket/server.js:44-46 | An id in `deadClientIds` is refused and leaves the registry as it was. |
| `TunnelServer.NewIdSupersedes` | src/socket/server.js:49-53 | A live id other than the active one bars the active id and becomes active on this connection. |
| `TunnelServer.SameIdRebinds` | src/socket/server.js:49-53 | Re-identifying with the active id bars nobody and rebinds `activeClient` to the new connection. |
| `TunnelServer.OtherMessagesIgnored` | src/socket/server.js:38-56 | Binary frames, other message types and messages that throw leave the registry as it was. |
| `TunnelServer.IdentifiedKeepsInvariant` | src/socket/server.js:44-53 | A message never shrinks the barred set. After an accepted identification the active id is not barred, and the invariant `activeClientId ∉ deadClientIds` is kept. |
| `TunnelServer.FirstIdentificationBarsNull` | src/socket/server.js:23-52 | The first identification bars `null`, the id the server starts with. |
| `TunnelServer.ReplayGrowsDead` | src/socket/server.js:16-53 | Over any run of messages the barred set only grows, and the invariant holds throughout. |
| `TunnelServer.SupersededNeverReturns` | src/socket/server.js:16-53 | Once an id is barred, it is never active again and stays barred, whatever messages follow. |
| `TunnelServer.HandOver` | src/socket/server.js:42-54 | After agent A and then agent B identify, B is active on its connection, A is barred, and A is refused if it comes back. |
| `TunnelServer.AfterPongsFlags` | src/socket/server.js:10-12 | A pong sets `isAlive` on its own connection and changes nothing else. |
| `TunnelServer.SurvivesTwoSweepsIffPonged` | src/socket/server.js:61-68 | A connection survives two consecutive sweeps exactly when it survived the first and ponged between them. |
| `TunnelServer.TwoSweepsWithoutPong` | src/socket/server.js:61-68 | Without pongs, two sweeps terminate every connection. |
| `TunnelServer.ClosingGetsNoFrames` | src/socket/server.js:61-68 | A closing connection is sent nothing more: a `send` to it is dropped, and the sweep flags it without a ping. An open connection kept by the sweep gets exactly one ping. |
| `TunnelServer.AsWrittenRefusalThrows` | src/socket/server.js:44-46 | As written, refusing a barred id on an open connection leaves it closing with no close frame sent, and the handler throws a TypeError, because 409 is not a close code `ws` accepts. |
| `TunnelServer.IntendedRefusalCloses` | src/socket/server.js:44-46 | With the application close code 4409, the refusal sends the close frame `(4409, 'Dead ClientId')` and the handler returns normally. |
| `TunnelServer.OnlyRefusalTouchesConnection` | src/socket/server.js:38-56 | Whatever the close code, only a refusal changes the handler's connection. The handler throws exactly when parsing or reading the message throws. |
| `TunnelServer.SettledStaysSettled` | src/socket/server.js:77-87 | Once a request is settled, later timeouts and deliveries do not change how it settled. |
| `TunnelServer.FirstEventDecides` | src/socket/server.js:77-87 | Exactly-once settlement: the first event decides. A timeout rejects with `'timeout'`, a delivery resolves with its headers and body, and nothing afterwards changes that. |
| `TunnelServer.LateDeliveryIsNoOp` | src/socket/server.js:77-87 | A delivery after the timeout changes nothing, because the `rejected` flag guards the resolver. |
| `TunnelServer.AsWrittenNeverResolves` | src/socket/server.js:82-87 | As written, no request is ever resolved: it stays pending or is rejected by the timeout. |
| `TunnelServer.AsWrittenLosesUpload` | src/socket/server.js:84 | As written, an upload before the timeout throws a ReferenceError and the request times out. Intended, it resolves. |
| `TunnelServer.AsWrittenNeverDispatches` | src/socket/server.js:73-75 | With an active agent the written call throws a TypeError instead of dispatching; the intended call dispatches. |
| `TunnelServer.Server.constructor` | src/socket/server.js:17-23 | No connections, no active agent, the id `null`, nobody barred, nothing outstanding. |
| `TunnelServer.Server.Connect` | src/socket/server.js:30-34 | A new connection starts alive, with nothing sent. |
| `TunnelServer.Server.OnMessage` | src/socket/server.js:35-57 | The handler's reaction and new registry are those of the registry functions. A refused connection is closed with 409 `'Dead ClientId'` as written: it becomes closing, no close frame is sent, and the handler throws a TypeError. Only the handler's own connection changes. The invariant holds and the barred set only grows. |
| `TunnelServer.Server.OnPong` | src/socket/server.js:10-12 | Marks the connection alive if it is still connected, closing or not. |
| `TunnelServer.Server.Sweep` | src/socket/server.js:61-69 | The connections become the sweep of the old ones: those not alive are terminated, the others are flagged and pinged. A closing connection gets no ping. |
| `TunnelServer.Server.RequestDocument` | src/socket/server.js:71-93 | With no active agent it rejects with `no_client` and registers nothing. Otherwise it sends the `get` dispatch on the active connection (dropped if that is closing) and registers the request as pending with its timer armed. |
| `TunnelServer.Server.Timeout` | src/socket/server.js:77-80 | The request's timer fires: it is marked rejected and, if still pending, rejected with `'timeout'`. |
| `TunnelServer.Server.Deliver` | src/socket/server.js:82-87 | The registered resolver is called if the id is known, and an unknown id is dropped. The resolver is the corrected one, which cancels the timer with `clearTimeout` and resolves; the resolver as written throws a ReferenceError (see Findings). |
| `FrontDoor.PassThrough` | src/middleware/proxy.js:112-116 | The allowlist lookup as intended, by the document's `statusCode`: the 304 list for a 304, the default list otherwise. It has no contract of its own; `AllowlistByStatus`, `AllowlistLowerCase` and `FetchedHeadersAllowListed` state its properties. |
| `FrontDoor.PassThroughAsWritten` | src/middleware/proxy.js:112-116 | The allowlist lookup as written, on `document.status`, which a `Document` does not have: always the default list. It has no contract of its own; `AsWrittenKeepsContentTypeOn304` and `FulfilledUsesDefaultList` state its properties. |
| `FrontDoor.AllowlistByStatus` | src/middleware/proxy.js:15-23 | Each allowlist has no repeated name and is part of the default list. A 304 drops exactly `location` and `content-type`. |
| `FrontDoor.AllowlistLowerCase` | src/middleware/proxy.js:15-23 | Every allow-listed name is already lower case, so it matches the lower-cased names Node gives the response's headers. |
| `FrontDoor.AsWrittenKeepsContentTypeOn304` | src/middleware/proxy.js:112-116 | As written, a 304 that carries `content-type` keeps it. The 304 allowlist drops it. |
| `FrontDoor.FulfilledUsesDefaultList` | src/middleware/proxy.js:30-32 | Every answer that reaches the `then`, which under the client's default `validateStatus` is a 2xx one, is filtered with the default list, as written and as intended alike. |
| `FrontDoor.IsCacheable` | src/middleware/proxy.js:53-55 | Every document may be cached. |
| `FrontDoor.FirstEligible` | src/middleware/proxy.js:83-87 | Finds the first cache whose pattern accepts the path, or none when every pattern rejects it. |
| `FrontDoor.TierAnswerIsFirstEligible` | src/middleware/proxy.js:82-87 | The lookup is the first cache's answer that is not `WONT_CACHE`: that of the first cache accepting the path. It is `WONT_CACHE` only when every cache rejects the path, and never `CACHED`. |
| `FrontDoor.TierStoreShape` | src/middleware/proxy.js:126-130 | Storing changes only the first cache that accepts the path, and changes nothing when no cache does. |
| `FrontDoor.StoreThenLookup` | src/middleware/proxy.js:82-130 | After a store, a lookup of the same path with no date finds the stored document. |
| `FrontDoor.FetchedHeadersAllowListed` | src/middleware/proxy.js:104-130 | What is sent and cached holds exactly the allow-listed headers the backend sent, with the backend's values, plus its status and body. |
| `FrontDoor.SetAllFinds` | src/middleware/proxy.js:64-66 | With unique lower-case names, the response carries each document header's value and keeps its other headers. |
| `FrontDoor.Response.constructor` | src/middleware/proxy.js:72 | A response starts with no headers and nothing sent. |
| `FrontDoor.Response.Set` | src/middleware/proxy.js:65 | `res.set` stores the value under the header's case-insensitive name. |
| `FrontDoor.Response.Send` | src/middleware/proxy.js:68 | `res.status(code).send(body)` records status and body. |
| `FrontDoor.SendDocument` | src/middleware/proxy.js:57-70 | Sets every own key of the document's headers in order, then sends its status and body. |
| `FrontDoor.LookupTiers` | src/middleware/proxy.js:82-87 | The lookup loop's result is the tier search's answer on the caches' states. A document answer is fresh. |
| `FrontDoor.StoreTiers` | src/middleware/proxy.js:126-131 | The store loop stores into the first accepting cache only. It returns `CACHED` exactly when some cache accepts the path. |
| `FrontDoor.Proxy` | src/middleware/proxy.js:72-144 | The backend is asked, with the lower-cased method, exactly when the lookup is `WONT_CACHE` or `NOT_CACHED`. Otherwise the cached document is sent and the caches are unchanged. A fetched 2xx answer is sent and stored filtered. No answer, or an answer with any other status, sends and stores nothing. |
| `FrontDoor.ServeFetched` | src/middleware/proxy.js:102-135 | The `then` of the backend request, which sees only 2xx answers: the fetched document is filtered by the allowlist for its status (the default list, see `FulfilledUsesDefaultList`), sent, and stored in the first accepting cache. |
| `Agent.BackendClientOpts` | src/socket/client.js:35-47 | `backendClientOpts`: `_.extend` of the `host`, `port` and `timeout: 1000` defaults by the caller's options. It has no contract of its own; `BackendOptsOverride` states its properties. |
| `Agent.UplinkClientOpts` | src/socket/client.js:53-71 | `uplinkClientOpts`: `_.extend` of the TLS files, `rejectUnauthorized: !insecure` and `timeout: 1000` by the caller's options. It has no contract of its own; `UplinkOptsOverride` states its properties. |
| `Agent.BackendOptsOverride` | src/socket/client.js:35-47 | A caller's option wins. Otherwise `host`, `port` and `timeout: 1000` are the defaults. |
| `Agent.UplinkOptsOverride` | src/socket/client.js:53-71 | A caller's option wins. Otherwise the TLS files, `rejectUnauthorized = !insecure` and `timeout: 1000` are the defaults. |
| `Agent.BackendRequestPath` | src/socket/client.js:92-97 | The backend request's `path` is the requested path, whatever the client options say. Its timeout is 1000 unless they set one. |
| `Agent.Latest` | src/socket/client.js:109-114 | Finds the value of the last pair with a given name, and none exactly when no pair has that name. |
| `Agent.ForwardedLastWins` | src/socket/client.js:109-123 | The loop keeps exactly the lower-cased names that are forwardable, each with the value of its last occurrence, with no name twice. |
| `Agent.ForwardHeaders` | src/socket/client.js:108-123 | The index loop over `rawHeaders`, stepping by two, builds the forwarded-header object. |
| `Agent.SyntheticOverride` | src/socket/client.js:124-130 | The five `x-capnajax-*` headers override forwarded ones of the same name. The request id and path are the requested ones. Every other forwarded header passes unchanged. |
| `Agent.UplinkIsPutOfContent` | src/socket/client.js:134-139 | The uplink is a `PUT` of `/_content` on the front side, carrying exactly the built headers, with the TLS defaults. |
| `Agent.OnBackendResponse` | src/socket/client.js:104-143 | The response handler's uplink options are those built from the filtered headers and the synthetic headers. |
| `Agent.Handle` | src/socket/client.js:305-332 | The agent's `message` handler: the `switch` on `command \|\| method` inside a `try` that logs what throws. It has no contract of its own; `HandleOnlyGet`, `CommandShadowsMethod` and `UpperCaseMethodIgnored` state its properties. |
| `Agent.HandleOnlyGet` | src/socket/client.js:305-332 | A message reaches `httpGet` exactly when `command`, or `method` when `command` is falsy, is `get`. Binary and malformed messages are logged and nothing is thrown. |
| `Agent.CommandShadowsMethod` | src/socket/client.js:312 | A truthy `command` other than `get` is ignored, even when `method` is `get`. |
| `Agent.UpperCaseMethodIgnored` | src/socket/client.js:312-313 | The switch is case-sensitive: `GET` does nothing. |
| `Protocol.AsWrittenDispatchIgnored` | src/socket/server.js:75 | The dispatch as written, `{path, requestId}`, is ignored by the agent. |
| `Protocol.IntendedDispatchFetches` | src/socket/client.js:311-315 | A dispatch with `command: "get"` makes the agent fetch the path for the request id. |
| `Protocol.HttpGetUplink` | src/socket/client.js:189-200 | `httpGet`: `clientPostProxy('GET', path, {requestId})`, up to the uplink's options. It has no contract of its own; `RequestIdRoundTrip` states its properties. |
| `Protocol.RequestIdRoundTrip` | src/socket/client.js:124-139 | The upload for a fetched request carries the server's request id and the requested path. |
| `Dict.Put` | src/socket/client.js:114 | `obj[k] = v`: `k` reads `v`, other keys are unchanged, and a new key is appended. |
| `Dict.ExtendGet` | src/socket/client.js:124-130 | `_.extend(d, e)`: a key of `e` reads its value from `e`, any other key keeps its value from `d`, and the keys are those of both. |

## Left out

- Real sockets, HTTP and HTTPS clients, timers, `crypto-random-string` and logging are left out. Connections are handles, and timers firing, pongs and uploads are events. Random ids and the current time are parameters.
- Route patterns are opaque predicates on paths. RegExp syntax, and the state a RegExp with the `g` flag keeps between `test` calls, are not modelled.
- `Caches.Cache.Get`: the If-Modified-Since value is taken already converted to milliseconds. `valueOf` on a Date and `Date.parse` on a string happen outside the model, and an unparsable date is `None`.
- `Caches.Cache.Get`: a clone shares the stored document's headers array, so an `addHeader` on the returned clone would also change the stored document. Headers are values here, so this aliasing is not captured. The same holds for `Documents.Document.Clone`.
- `Documents.Property`: lodash reads inherited properties too. Only own properties, plus an array's `length`, are modelled, and `_.has`/`_.get` treating a dotted key as a path is not modelled.
- Object key order follows insertion. JavaScript's rule that integer-like keys come first is not modelled.
- `FrontDoor.Proxy`: the backend request is asynchronous. Its answer is a parameter, and other requests interleaving with it are not modelled. The HTTP client's parsing of the body and Express rewriting `Content-Type`, `ETag` or `Content-Length` on `send` are not modelled.
- `FrontDoor.Response.Set`: Express adds a charset to `Content-Type` values; this is not modelled.
- `TunnelServer.Server.Sweep`: a terminated connection stays `activeClient`, as in the code. The ws library's close handshake after the close frame (the peer's reply and the close timer) is not modelled.
- `TunnelServer.Server.OnMessage`: the exception the handler throws escapes the ws listener. What Node then does with it is not modelled, only that the handler throws. The `RangeError` ws raises for a close reason over 123 bytes is not modelled; the only reason used has 13.
- `TunnelServer.Server.RequestDocument`: the returned promise is not modelled, only how it starts and its settlement in `requestsOutstanding`. The fresh id is required to be unused.
- `TunnelServer.Server.Deliver`: the receiver in src/middleware/receiver.js writes into `headers` while it is still `undefined` (lines 22-24). Its handler throws before it reaches the correlator. The model takes the receiver's intended lookup-and-call step as the delivery. It also calls the corrected resolver `Delivered`, not the one written at src/socket/server.js:84, which throws a ReferenceError; that one is `DeliveredAsWritten` (see Findings).
- `Js.Lower`, `Js.Upper`: case mapping covers ASCII letters only. Node reports header names lower-cased, and methods and header names are HTTP tokens, which are ASCII (section 5.6.2 of RFC 9110), so the non-ASCII mappings of `toLowerCase` and `toUpperCase` cannot be reached through them.
- `client.js` heartbeat and reconnect (lines 265-288) and streaming of the body into the uplink (lines 145-178) are socket and timer management, so they are left out.
- Backend requests always use Node's default method GET, because `clientPostProxy` never puts `method` into the options. `x-capnajax-method` carries the method passed in.
- `clientId`, `path` and `requestId` are strings or absent. Other JSON types are not modelled.
- Configuration parsing, server start-up, Express routing, the health check and the control route are outside this model.

## Findings

| source | as written | input that shows it | evidently intended | confidence | as-written member | corrected member |
|---|---|---|---|---|---|---|
| src/socket/server.js:75 | `activeClient.message(...)` is called on a WebSocket, which has `send`; the TypeError rejects the promise before anything is registered | any `requestDocument` call while an agent is active | send the dispatch with `send` and register the request | high (not executed) | `TunnelServer.AsWrittenNeverDispatches` | `TunnelServer.Server.RequestDocument` |
| src/socket/server.js:84 | the resolver calls `cancelTimout`, which is defined nowhere; the ReferenceError stops it before `resolve` | an upload arriving before the timeout | cancel the timer with `clearTimeout` and resolve, as `TunnelServer.Server.Deliver` does | high (not executed) | `TunnelServer.AsWrittenLosesUpload` | `TunnelServer.FirstEventDecides` |
| src/socket/server.js:75 | the dispatch is `{path, requestId}`, with neither `command` nor `method`, and the agent switches on `command \|\| method` | `{"path":"/a","requestId":"x"}` | a dispatch carrying `command: "get"` | high (not executed) | `Protocol.AsWrittenDispatchIgnored` | `Protocol.IntendedDispatchFetches` |
| src/middleware/proxy.js:113 | the allowlist is looked up by `document.status`, but a `Document` has `statusCode`; the 304 list is never chosen. The defect is latent: under the client's default `validateStatus` a 304 never reaches the `then` (see `FrontDoor.FulfilledUsesDefaultList`) | a backend 304 carrying `content-type`, once the client accepts 304 answers | look up by `statusCode` | high (not executed) | `FrontDoor.AsWrittenKeepsContentTypeOn304` | `FrontDoor.FetchedHeadersAllowListed` |
| src/socket/server.js:46 | `this.close(409, 'Dead ClientId')`: ws accepts only close codes 1000-1014 other than 1004-1006, and 3000-4999, so the socket is set closing and a TypeError is thrown before any close frame is sent | a `clientId` message carrying a barred id, such as agent A's after agent B identified | close with an application code from 4000-4999, such as 4409 | high (not executed) | `TunnelServer.AsWrittenRefusalThrows` | `TunnelServer.IntendedRefusalCloses` |
