# Aardwolf relay: a Dafny model

Aardwolf is a remote debugger. Its HTTP server (`server/server.js`) relays messages
between a debugged mobile runtime and a desktop debugger UI by long polling. This project
models the relay's core and proves properties of it:

- **The `Dispatcher`.** This is a one-way mailbox. It holds a FIFO queue of opaque
  payloads and at most one waiting client connection.
  - `Mailbox` states each operation as a function on a value `Box(queue, client)`.
  - `Dispatch.Dispatcher` is a class. Its fields `queue` and `client` are updated in
    place, and each method is proved to match its `Mailbox` counterpart.
- **Identity resolution (`Identity`).** This picks the registry key a request belongs to:
  - an explicit `targetId` that is already a key;
  - or, on a path containing `/mobile/`, the fingerprint `ip + '-' + ua`, with every
    JavaScript whitespace character replaced by `-`;
  - or else the process-wide default pair.
- **Routing (`Protocol`).** The switch on the path composes Dispatcher operations on the
  resolved pair. It also covers the `ok200` reply and the 404 fallback.
  - `Protocol.Handle` is one request as a function on a value `RelayView`. That value is
    the registry `dispatcherMap` plus the two default Dispatchers.
- **The mutable relay (`Relay.Server`).** It holds the registry as a map from keys to
  entries of two `Dispatcher` objects and a `lastAccessTime`.
  - `Relay.Server.Handle` updates the registry in place.
  - It is proved to leave the objects in exactly the state `Protocol.Handle` gives.
- **Properties (`RelayFacts`).** Lemmas state what the protocol promises, about
  `Protocol.Handle`.

Connections are opaque identities (`ConnId`). Whatever the relay writes to a connection is
a `Completion`: a delivered message, an empty end, `200 {}`, `404 NOT FOUND`, or an answer
from the file/UI services. Every operation returns the completions it causes, in order.

A request can throw inside the handler, and the model records this as a `Fault` in the
reply. The resolution step is not total: a mobile path without a User-Agent header makes
`clientUa.replace` throw (server/server.js:71-72). The model follows the code here and
keeps that failure as `Resolution.NoUserAgent`.

An unknown route is not free of side effects. The session is resolved before the switch,
so an unmatched path containing `/mobile/` creates and stamps the client's session before
the 404 (`RelayFacts.UnmatchedMobilePathCreatesSession`), or throws without a User-Agent.
The model follows the code here.

## Model

| member | source | states |
|---|---|---|
| Mailbox.Process | server/server.js:222-229 | Afterwards no client waits beside a non-empty queue. The bodies delivered, followed by the remaining queue, equal the old queue, so nothing is lost or reordered. When a client waits beside a backlog, exactly one message is delivered, to that client, and the slot empties; with the conservation clause, that message is the head. A mailbox already at rest is left unchanged. |
| Mailbox.End | server/server.js:212-216 | The mailbox is unchanged, including the client slot. The waiting client, if there is one, is completed empty; with no client nothing is sent. |
| Mailbox.ClearMessages | server/server.js:218-220 | The queue becomes empty and the client slot is untouched. |
| Mailbox.SetClient | server/server.js:201-205 | A previously waiting client is ended first. With a backlog, the new client receives the oldest message: it is the last completion, the queue drops its head and no client waits. Without a backlog, the new client waits and only empty ends are sent. Exactly one completion is sent per earlier waiting client and one per delivered message, no more. The result is at rest. |
| Mailbox.AddMessage | server/server.js:207-210 | With no client waiting, the message is appended at the tail and nothing is sent. With a client waiting, that client receives the head of `queue + [m]` and the slot empties. From a mailbox at rest with a waiting client, that client receives `m` itself. |
| Mailbox.AttachToSettled | server/server.js:201-205 | On a mailbox at rest, `setClient(c)` with a backlog sends `c` the oldest message and nothing else, and the queue drops its head. Without a backlog, `c` waits, and the only completion ends the earlier waiting client, if there is one. |
| Mailbox.ApplyConserves | server/server.js:201-210 | For one `addMessage` or `setClient`, the bodies delivered followed by the new queue equal the old queue plus the message added, if any. |
| Mailbox.RunIsFifo | server/server.js:197-229 | For any sequence of `addMessage` and `setClient` calls, the bodies delivered followed by the final queue equal the initial queue followed by the `addMessage` arguments. Every message is delivered or still queued, once, in order. |
| Mailbox.RunSettled | server/server.js:222-229 | Every sequence of `addMessage`, `setClient` and `clearMessages` calls from a mailbox at rest ends at rest: a waiting client implies an empty queue. |
| Mailbox.AttachInOrder | server/server.js:201-205 | Clients that attach one after another to a backlog, with none waiting, each receive the next queued message in queue order. |
| Mailbox.TwoMessagesInOrder | server/server.js:207-210 | If `addMessage(a)` then `addMessage(b)` happen with no client waiting, the first clients to attach after the earlier backlog receive `a` and then `b`. The mailbox ends idle. |
| Dispatch.Dispatcher.constructor | server/server.js:197-199 | A new Dispatcher has an empty queue and no client. |
| Dispatch.Dispatcher.Process | server/server.js:222-229 | The new fields and the completions sent are exactly `Mailbox.Process` of the old fields. |
| Dispatch.Dispatcher.SetClient | server/server.js:201-205 | The new fields and the completions are exactly `Mailbox.SetClient` of the old fields. The Dispatcher is left at rest. |
| Dispatch.Dispatcher.AddMessage | server/server.js:207-210 | The new fields and the completions are exactly `Mailbox.AddMessage` of the old fields. The Dispatcher is left at rest. |
| Dispatch.Dispatcher.End | server/server.js:212-216 | Changes no field. The completions are those of `Mailbox.End`. |
| Dispatch.Dispatcher.ClearMessages | server/server.js:218-220 | The new fields are `Mailbox.ClearMessages` of the old ones. |
| Identity.IndexOf | server/server.js:68 | `indexOf` returns an index greater than -1 exactly when the pattern occurs, and then it returns the first occurrence. |
| Identity.IsMobilePath | server/server.js:68 | No contract of its own: the test `pathname.indexOf('/mobile/') > -1`. Its meaning is stated by `Identity.MobilePathIsSubstringTest`. |
| Identity.MobilePathIsSubstringTest | server/server.js:68 | The mobile test is a substring test, not a prefix test: it holds for `"/mobile/…"` and also for `"/files/data/mobile/…"` and `"/ui/mobile/…"`. |
| Identity.Dash | server/server.js:72 | A whitespace character becomes `-`. Any other character is kept. The result is never whitespace. |
| Identity.Dashify | server/server.js:72 | `replace(/\s/g, '-')` keeps the length and maps each character through `Dash`. |
| Identity.DashifyCollisions | server/server.js:72 | Two user agents have the same normalised form exactly when they have the same length and agree position by position, up to whitespace versus `-`. |
| Identity.DashifyIdempotent | server/server.js:72 | The normalised user agent holds no whitespace, so normalising it again changes nothing. |
| Identity.MobileKey | server/server.js:72 | The key is the ip, then `-`, then the normalised user agent, at known positions. |
| Identity.MobileKeyInjectiveOnIp | server/server.js:72 | For addresses of equal length, equal keys imply equal addresses and equal normalised user agents. |
| Identity.MobileKeyAmbiguousAcrossIps | server/server.js:72 | Without the equal-length condition the key is ambiguous: address `a-b` with agent `c` and address `a` with agent `b c` share a key. The address can be the client-set `x-forwarded-for` header. |
| Identity.Resolve | server/server.js:60-86 | Each branch, stated in both directions. An explicit `targetId` is used exactly when it is non-empty and already a key. Otherwise a path containing `/mobile/` uses the fingerprint key when a User-Agent is present and fails without one. Every other request uses the default pair. |
| Identity.ResolveAsWritten | server/server.js:60-61 | The lookup on the `{}` literal: a `targetId` naming an inherited property also counts as present. Any other `targetId` resolves as in `Resolve`. |
| Protocol.RouteOf | server/server.js:87-186 | The switch compares whole paths: each of the six Dispatcher routes is chosen exactly for its own path. The file/UI services get exactly `/files/list`, `/`, `/ui`, `/ui/` and the paths starting with `/ui/` or `/files/data/`. Every other path gets the 404 fallback. |
| Protocol.RouteOn | server/server.js:87-117 | Every route keeps both Dispatchers at rest. Console and desktop-incoming leave the mobile side alone; outgoing and mobile-incoming leave the desktop side alone. Console and outgoing answer `200 {}` last. An unmatched path answers `404 NOT FOUND` and changes nothing. `/mobile/init` leaves the init connection waiting on an empty mobile queue. |
| Protocol.Ack | server/server.js:190-193 | No contract of its own: `ok200()` writes `200 {}` to the request's own connection. `RelayFacts.ConsoleOnPair` and `RelayFacts.OutgoingOnPair` show it is written last, after any delivery. |
| Protocol.InitRoute | server/server.js:88-94 | The init connection waits on an empty new mobile Dispatcher. The desktop ends idle when a waiting client receives `data`, and otherwise holds exactly `[data]`. The completions are exactly: the old mobile client's empty end, if there was one, then `data` to the waiting desktop client, if there was one. Nothing else is written; in particular the init poll stays open. |
| Protocol.HandleWith | server/server.js:57-117 | `processPostedData` once the pair is chosen. `UserAgentUndefined` is thrown exactly on the missing-User-Agent resolution. A request that throws leaves the relay as it was. No key is removed, and only the fingerprint branch adds one, its own key. |
| Protocol.Handle | server/server.js:57-117 | No contract of its own: `Protocol.HandleWith` on the own-keys resolution. What it does is stated by the `RelayFacts` lemmas. |
| Protocol.HandleAsWritten | server/server.js:57-117 | No contract of its own: `Protocol.HandleWith` on the resolution as written. It is related to `Protocol.Handle` by `RelayFacts.AsWrittenAgrees` and `RelayFacts.InheritedTargetIdThrows`. |
| Protocol.Touch | server/server.js:75-80 | Adds exactly the derived key. An existing entry keeps its Dispatchers and only gets `lastAccessTime = now`. A missing one is created with two idle Dispatchers. No other entry and neither default changes. |
| Relay.RunRoute | server/server.js:96-117 | The Dispatcher calls of each route other than `/mobile/init`, in source order, leave the pair and return completions exactly as `Protocol.RouteOn` gives. |
| Relay.Parked | server/server.js:90-91 | `new Dispatcher()` then `setClient(res)`: a fresh object whose state and completions are `Mailbox.SetClient(Idle, conn)`. |
| Relay.Reset | server/server.js:92-93 | `clearMessages()` then `addMessage(data)`: state and completions are `Mailbox.AddMessage(Mailbox.ClearMessages(old), data)`. |
| Relay.Server.constructor | server/server.js:22-24 | An empty registry and two idle default Dispatchers, which is `Protocol.Initial`. |
| Relay.Server.Insert | server/server.js:76-78 | The registry gains exactly key `k` with the given entry. The other entries are untouched. |
| Relay.Server.CreateSession | server/server.js:75-79 | A missing key gets an entry of two fresh, idle Dispatchers. The other entries are untouched. |
| Relay.Server.Stamp | server/server.js:80 | Only `lastAccessTime` of entry `k` changes, to the given clock reading. |
| Relay.Server.Touch | server/server.js:75-82 | The registry is as `Protocol.Touch` says. The key set grows by exactly `k`. An existing entry keeps its Dispatcher objects; a new one holds fresh ones. |
| Relay.Server.RouteDefaults | server/server.js:84-86 | A route other than `/mobile/init` on the default pair leaves the relay and the completions as `Protocol.RouteOn` says. |
| Relay.Server.RouteSession | server/server.js:81-82 | A route other than `/mobile/init` on a session's Dispatchers leaves that session and the completions as `Protocol.RouteOn` says. Every other slot is unchanged. |
| Relay.Server.ReplaceMobile | server/server.js:90 | The session's mobile slot now holds the given Dispatcher. Nothing else changes. |
| Relay.Server.ResetDesktop | server/server.js:92-93 | The session's desktop Dispatcher holds `Mailbox.AddMessage(Mailbox.ClearMessages(old), data)`. Nothing else changes. |
| Relay.Server.InitSession | server/server.js:88-94 | `/mobile/init` on a session: its state and completions are those of `Protocol.InitRoute`. The key set is unchanged. |
| Relay.Server.OnSession | server/server.js:87-117 | Any route on session `k` leaves the relay and the reply as `Protocol.RouteOn` on that session's pair says. |
| Relay.Server.HandleShared | server/server.js:83-90 | A request resolved to the default pair matches `Protocol.HandleWith` for that resolution. |
| Relay.Server.HandleDerived | server/server.js:68-90 | A request resolved to a fingerprint matches `Protocol.HandleWith` for that resolution. |
| Relay.Server.Handle | server/server.js:57-117 | With the `targetId` lookup counting own keys only, `processPostedData` updates the objects in place to exactly the state `Protocol.Handle` gives, and gives the same reply. No key is ever removed. |
| RelayFacts.InitialWellFormed | server/server.js:22-24 | The start-up relay is well formed: every Dispatcher is at rest. |
| RelayFacts.MobileRoutesAreMobilePaths | server/server.js:68 | The four `/mobile/…` route paths pass the mobile test. |
| RelayFacts.RegistryOnlyGrows | server/server.js:60-86 | No key disappears. A new key appears only on a mobile path, equals the request's fingerprint and carries `lastAccessTime = now`. An entry the request did not resolve to is unchanged. `lastAccessTime` changes only on the fingerprint branch. |
| RelayFacts.HandleSettled | server/server.js:87-117 | Every request keeps every Dispatcher of the relay at rest: from a relay whose Dispatchers are all at rest, they are all at rest afterwards. |
| RelayFacts.HandleWellFormed | server/server.js:72-80 | Every request keeps the relay at rest with every key a fingerprint (it holds a `-`). |
| RelayFacts.OnlyMissingUserAgentFails | server/server.js:60-86 | With own keys only, a request throws exactly when it arrives on a mobile path without a User-Agent, and then nothing changes. |
| RelayFacts.SameClientSameSession | server/server.js:68-82 | Two requests without `targetId` on mobile paths, from the same ip, with user agents normalising alike, reach the same key. The second creates nothing. |
| RelayFacts.InitOnPair | server/server.js:88-94 | On a pair at rest, `/mobile/init` does these things. It ends the old waiting mobile client first. It leaves the init connection waiting on an empty new mobile Dispatcher. The desktop ends either idle, when `data` is delivered to its waiting client, or holding exactly `[data]`. `data` is the only body delivered. The completions are exactly the old mobile client's empty end, if any, then `data` to the waiting desktop client, if any; the init poll stays open. |
| RelayFacts.ConsoleOnPair | server/server.js:96-99 | `/mobile/console` on a pair at rest: a waiting desktop client receives `data` at once and the desktop ends idle, otherwise `data` is appended to the desktop queue; then the request is answered `200 {}`. The mobile side is untouched. |
| RelayFacts.OutgoingOnPair | server/server.js:110-113 | `/desktop/outgoing` on a pair at rest: the same, on the mobile side. |
| RelayFacts.BreakpointOnPair | server/server.js:101-104 | `/mobile/breakpoint` on a pair at rest: the desktop side changes as for `/mobile/console`. The request then receives the oldest mobile message at once, or waits on the empty mobile queue after ending an earlier poll. The completions come in that order. |
| RelayFacts.MobileIncomingOnPair | server/server.js:106-108 | `/mobile/incoming` on a pair at rest: the poll receives the oldest mobile message and the queue drops its head, or it waits on the empty queue and only an earlier waiting poll is ended. The desktop side is untouched. |
| RelayFacts.DesktopIncomingOnPair | server/server.js:115-117 | `/desktop/incoming` on a pair at rest: the same, on the desktop side. |
| RelayFacts.InitStartsGeneration | server/server.js:88-94 | The same facts for a whole `/mobile/init` request on a well-formed relay, with own keys only. It always reaches a session and, given a User-Agent or an own-key `targetId`, never throws. The reply's completions are exactly those of `RelayFacts.InitOnPair`, on the entry as it was (or a fresh idle one). |
| RelayFacts.UnmatchedIsNotFound | server/server.js:185-186 | An unmatched path that does not throw while the session is resolved answers `404 NOT FOUND`. It leaves both defaults and the Dispatchers of every existing entry as they were. (An unmatched path holding `/mobile/` without a User-Agent throws first.) |
| RelayFacts.UnmatchedMobilePathCreatesSession | server/server.js:68-80 | An unmatched path holding `/mobile/`, from a client with a User-Agent but no session yet, still creates and stamps that client's session before the 404. |
| RelayFacts.UnknownMobilePathExample | server/server.js:68-80 | For instance, `/mobile/x` from a new client on a fresh relay answers 404 and leaves one new key, the client's fingerprint. |
| RelayFacts.ConsoleReachesDesktop | server/server.js:96-117 | `/mobile/console` from a new client is acknowledged with `200 {}` and queued. A later `/desktop/incoming` naming that session receives it, and the queue is empty again. |
| RelayFacts.CommandReachesHeldMobile | server/server.js:106-113 | `/mobile/incoming` waits on an empty mobile queue. A later `/desktop/outgoing` naming that session completes it with the command and is itself answered `200 {}`. |
| RelayFacts.InheritedTargetIdThrows | server/server.js:60-67 | As written, `targetId=toString` on any Dispatcher route throws and changes nothing. |
| RelayFacts.AsWrittenAgrees | server/server.js:60-86 | The handler as written and the own-keys handler agree on every request whose `targetId` does not name an inherited property. |
| RelayFacts.InheritedTargetIdIgnored | server/server.js:60-86 | With own keys only, `targetId=toString` behaves as if no `targetId` were given. It throws only on a mobile path without a User-Agent. |

## Left out

- HTTP plumbing: server start-up, CORS and cache headers, the `OPTIONS` short-circuit, and collecting the request body (server/server.js:15-20, 38-55). A request arrives as a `Request` value.
- `JSON.parse` and `JSON.stringify` of payloads. A body is opaque (`Body`), and a body that fails to parse is not modelled.
- `getClientIp` and its fallbacks (server/server.js:25-30). The address and the User-Agent header are inputs.
- `/files/list`, the HTML target listing, static UI files and `/files/data/` (server/server.js:119-182). They depend on `fs`, `path`, `server-util.js` and the rewriter, which are not part of this model.
  - Their answer is the single completion `Collaborator`, and they touch no Dispatcher.
  - This includes the 404 such a service gives for a missing `/ui/` or `/files/data/` file.
  - The listing shows the keys of `dispatcherMap`, and the model keeps those keys as `RelayView.sessions.Keys`.
- `Date.now()`: the clock reading is the request's `now` field.
- `console.log` calls.
- A `targetId` given several times, which arrives as an array.
- An exception is a `Fault` in the reply: the completions written before it, with the state unchanged after it. Ending the Node process is not modelled.
- Relay.Server: registry entries are datatype values holding two Dispatcher references. Stamping or renewing an entry stores a new value under its key instead of assigning a property of a shared entry object. No entry object is ever reachable except through `dispatcherMap`, so the difference cannot be observed.
- Relay.Server: whether every Dispatcher is at rest is proved on the value side (`RelayFacts.HandleSettled`). The class carries only the tags that keep distinct slots apart.
- Relay.Server.Handle / Protocol.Handle: the `targetId` lookup counts only keys the relay created. On `targetId=toString` or another inherited name, the code as written throws on every Dispatcher route, which only `Protocol.HandleAsWritten` models (see "## Findings"). `RelayFacts.AsWrittenAgrees` shows the two agree on every other request.
- Mailbox.RunIsFifo / Mailbox.RunSettled: the operation runs leave out a bare `end()`. After one, the ended response stays in the slot, and the next `process()` writes to a finished response, which Node rejects. The relay calls `end()` on its own only on the mobile Dispatcher that `/mobile/init` then discards.
- `/mobile/init` on the default pair cannot happen, because the path always passes the mobile test. The model answers it as the code would: end the default mobile client, then throw on `dispatcherMap[undefined]`.

## Findings

| source | as written | input that shows it | evidently intended | confidence | as-written member | corrected member |
|---|---|---|---|---|---|---|
| server/server.js:24, 60-67 | `dispatcherMap` is the object literal `{}`, and `dispatcherMap[targetId]` is tested for truthiness. A `targetId` that names an inherited property such as `toString`, `constructor` or `__proto__` passes the test. `dispatcherMap[targetId].mobileDispatcher` is then `undefined`, and the next Dispatcher call throws. | `GET /desktop/incoming?targetId=toString` | Only keys the relay created select a session. Any other `targetId` falls through to the fingerprint or the default pair. | not executed | RelayFacts.InheritedTargetIdThrows | RelayFacts.InheritedTargetIdIgnored |
