# Cushax session engine in Dafny

Cushax keeps server-side page state in step with client-side page views over
a socket.io namespace (`/cushax`). The server registers one handler bundle per
page name. Clients announce page lifecycle transitions (`page:sync` with
`enter` / `leave` / `update`) and custom events (`page:event`). The server
dispatches each message to the matching handler. Handlers push commits back,
either through a page capability bound to (connection, page) or through the
root commit. A synchronous throw in a handler, or a `page:event` property
that is not a function, is answered with a reset (`*`) that names the pages
the client must discard. The current revision (`src/main.ts`) also
has an optional authentication gate. The earlier revision (`src/app.ts`) has
no gate, calls handlers with positional arguments, and sends root commits to
the first client only.

The model replaces the transport with an **outbox**: a sequence of
`ToSocket(id, msg)` and `Broadcast(msg)` records. `Recipients` describes who
receives each record, given the set of connected ids. A handler is a function
from its call arguments to a **script**: the commits it issues in order,
followed by whether it throws. An authentication predicate is a function from
the credential data to a settled verdict: truthy, falsy or rejected.

- `protocol.dfy` (module `Protocol`): values, outbound messages, emissions and
  their delivery, the inbound envelopes, and the reset-page lists. Also the
  page capability and the bookkeeping that sequences handler runs inside one
  try block. Both revisions share all of this.
- `engine.dfy` (module `Engine`): `src/main.ts`. Pure functions (`SyncEmissions`,
  `EventEmissions`, `CommitEmission`, …) say what one inbound message emits.
  They carry the lemmas. The class `Engine.Cushax` holds the registry map, the
  predicate list, the verified flags and the outbox. Its methods perform a
  dispatch step by step, and each is proved to append exactly what the matching
  function says.
- `legacy.dfy` (module `Legacy`): `src/app.ts`, built the same way.
- `scenarios.dfy` (module `Scenarios`): concrete scenarios. These are the demo pages
  of `src/app.ts`, a handshake against a `token === "secret"` predicate, and a
  failing two-field envelope.

Three behaviours of the code are easy to misread:
- The failure reset lists one name per present envelope field, and a name can
  appear more than once. It is not a set of distinct names.
- An empty-string target id is falsy, so `_commit` broadcasts it to the whole
  namespace.
- Handlers are called without `await`, so an asynchronous handler's rejection
  is never caught and never leads to a reset.

## Model

| member | source | states |
|---|---|---|
| Protocol.Recipients | src/main.ts:59-64 | A record addressed to an id reaches at most that id, and reaches it when it is connected. A namespace emission reaches every connected id. Nobody else receives anything. |
| Protocol.SyncResetPages | src/main.ts:122-128 | The failure reset of `page:sync` names exactly the non-empty pages of the present fields. It has at most three entries and none is empty. |
| Protocol.EventResetPages | src/main.ts:148-154 | The failure reset of `page:event` is the event's page name, or empty when that name is empty. |
| Protocol.ResetListsEveryField | src/main.ts:123-127 | An envelope with enter "a" and update "b" is reset as ["a", "b"]. A page named in all three fields is listed three times, with no de-duplication. |
| Protocol.CapabilityIsBound | src/main.ts:158-176 | Whatever name and payload a handler passes, `getPage(s, p).commit` sends `page:sync(p, name, payload)` to s and to no other connection. |
| Engine.CommitReachesTargetOrAll | src/main.ts:54-65 | `_commit` with a socket or a non-empty id (both resolved to the id) sends one `commit` that reaches only that connection. With no target or an empty id, one `commit` reaches every connected client. |
| Engine.ScriptEmissionsAt | src/main.ts:158-176 | Each commit a handler issues appends exactly one emission, at its own position, in call order. |
| Engine.HandlerEmissionsAreCommits | src/main.ts:158-176 | A handler's emissions are only commits. Every `page:sync` among them goes to the capability's connection about the capability's page. A handler never emits a reset or an auth result itself. |
| Engine.HookStepShape | src/main.ts:99-113 | Within one field's work, a reset can only be the last emission. It comes only from a leave, and it names the bundle's own name. |
| Engine.UnknownTargetIsNoop | src/main.ts:91-97 | A field naming an unregistered page, or a registered page without that callback (leave excepted), emits nothing and does not throw. |
| Engine.UnregisteredPagesEmitNothing | src/main.ts:85-130 | An envelope whose fields all name unregistered pages emits nothing at all: no dispatch, no error, no reset. |
| Engine.SyncOrder | src/main.ts:85-121 | When no handler throws, the emissions are those of enter, then leave, then update, and nothing else. |
| Engine.LeaveResetsUnlessKept | src/main.ts:99-113 | Leaving a registered page runs its leave callback. Then, iff `keep` is falsy, it emits the reset [page] after the callback's own emissions. |
| Engine.SyncFailureResetsOnce | src/main.ts:85-129 | A throw in enter, leave or update skips the later fields. What was emitted before the throw stays, and exactly one reset naming every present field's page is appended. |
| Engine.HookStepResetCount | src/main.ts:99-113 | One field's work emits at most one reset. Only a leave can emit one. |
| Engine.SyncResetCount | src/main.ts:85-129 | A lifecycle dispatch emits at most two resets. The catch adds exactly one reset exactly when a handler threw. The leave adds at most one. Without a leave field, a reset is emitted if and only if some handler threw. |
| Engine.PropertyViewsAgree | src/main.ts:236-268 | Custom events and the lifecycle callbacks are keys of one bundle object. Looking up `enter`, `leave` or `update` as an event finds exactly the callback the lifecycle dispatch calls. Any other key except `name` and `keep` is a function exactly when it is a custom event. |
| Engine.EventOutcomes | src/main.ts:132-156 | For a custom event, an unknown page or property emits nothing. A property that is not a function yields only the reset. A callback's commits are followed by the reset [page] iff it throws. |
| Engine.EvaluateAuth | src/main.ts:67-76 | Predicates run in list order and stop at the first falsy or rejecting one, which is the last one run. The result is true iff every predicate passes, including when the list is empty. |
| Engine.Cushax.constructor | src/main.ts:15-16 | A new engine has an empty registry, no predicates, no verified connections and an empty outbox. |
| Engine.Cushax.Auth | src/main.ts:42-44 | `auth(fn)` appends fn after the existing predicates and leaves their order unchanged. |
| Engine.Cushax.Page | src/main.ts:46-48 | `page(b)` makes b the entry for `b.name` (last write wins) and leaves every other entry unchanged. Each entry stays registered under its own name. The bundle must be one object: its custom events do not reuse the keys `name`, `keep`, `enter`, `leave`, `update`. |
| Engine.Cushax.Commit | src/main.ts:54-65 | Appends exactly the routed `commit` emission of `_commit`. |
| Engine.Cushax.OnAuth | src/main.ts:67-83 | Sets the connection's verified flag to whether all predicates pass and appends one `auth` result with that same boolean, addressed to that connection. The gate then admits the connection iff all passed. |
| Engine.Cushax.OnPageCommit | src/main.ts:158-165 | Appends one `page:sync(page, name, payload)` addressed to the given connection. |
| Engine.Cushax.ResetPage | src/main.ts:167-169 | Appends one `*` message with the given pages to the given connection. |
| Engine.Cushax.RunHandler | src/main.ts:92-96 | Performs a handler's commits one by one through the capability or the root commit, appends exactly their emissions, and reports whether it threw. |
| Engine.Cushax.RunField | src/main.ts:91-121 | One field block: lookup, optional callback, and for leave the conditional reset. It appends exactly that step's emissions. |
| Engine.Cushax.OnPageSync | src/main.ts:85-130 | Appends exactly `SyncEmissions`: enter, leave and update in order inside one try block, with the catch emitting the reset. |
| Engine.Cushax.OnPageEvent | src/main.ts:132-156 | Appends exactly `EventEmissions`: property lookup, call, and the reset on a throw. |
| Engine.Cushax.Receive | src/main.ts:29-39 | `auth` always runs. `page:sync` and `page:event` are dispatched iff the predicate list is empty or the connection is verified. Otherwise they change nothing and emit nothing. |
| Legacy.RootCommitReachesFirstClientOnly | src/app.ts:39-43 | The root commit emits at most one `commit`. It is addressed to the first id of the client list and reaches no other connection. |
| Legacy.RootCommitIsNotBroadcast | src/app.ts:39-43 | With clients "a" and "b" connected, "b" never receives the root commit. A namespace-wide broadcast would reach it. |
| Legacy.HandlerEmissionsAreBound | src/app.ts:86-105 | Every handler emission is either a `page:sync` bound to the capability's (connection, page) or a `commit` to the first client. |
| Legacy.UnknownTargetIsNoop | src/app.ts:51-73 | A missing page or callback (leave excepted) is a silent no-op. |
| Legacy.SyncOrder | src/app.ts:45-73 | Without a throw the emissions are enter's, then leave's, then update's. |
| Legacy.LeaveResetsUnlessKept | src/app.ts:57-67 | A leave on a registered page emits the reset [page] after the callback's emissions iff `keep` is falsy. |
| Legacy.SyncFailureResetsOnce | src/app.ts:45-83 | A throw skips the later fields, keeps earlier emissions and appends exactly one reset naming every present field's page. |
| Legacy.Cushax.constructor | src/app.ts:24 | A new engine has an empty registry and outbox. |
| Legacy.Cushax.Page | src/app.ts:35-37 | Overwrites the entry for `options.name` and leaves other entries unchanged. |
| Legacy.Cushax.Commit | src/app.ts:39-43 | Appends exactly the first-client `commit`, or nothing when there are no clients. |
| Legacy.Cushax.OnPageCommit | src/app.ts:86-93 | Appends one `page:sync(page, name, payload)` to the given connection. |
| Legacy.Cushax.ResetPage | src/app.ts:95-98 | Appends one `*` message with the given pages to the given connection. |
| Legacy.Cushax.RunHandler | src/app.ts:52-54 | Performs a positional handler's commits one by one and reports whether it threw. |
| Legacy.Cushax.RunField | src/app.ts:51-73 | One field block of the earlier dispatcher, appending exactly that step's emissions. |
| Legacy.Cushax.OnPageSync | src/app.ts:45-84 | Appends exactly `Legacy.SyncEmissions`. No gate is consulted: every inbound `page:sync` is dispatched. |
| Scenarios.DemoFooEnter | src/app.ts:165-177 | Entering "foo" sends `(foo, changeAge, 18)` and then `(foo, setName, "boen")` to the entering connection only. A null payload makes enter throw and yields the reset ["foo"]. |
| Scenarios.AuthHandshake | src/main.ts:67-83 | With `token === "secret"`, a bad token gets `auth: false` and the next `page:sync` is dropped. The secret gets `auth: true` and the next `page:sync` is dispatched. |
| Scenarios.FailingEnvelopeResetsBothPages | src/main.ts:122-129 | For enter "a" plus update "b", whichever handler throws, the dispatch ends with one reset ["a", "b"] after the emissions made before the throw. |

## Left out

- socket.io is not modelled: `Server`, `Namespace`, `Socket`, `of("/cushax")`, connection and disconnection, and `namespace.clients`. Connections are ids, emissions are outbox records, and the client list is a parameter.
- Compile-time Vuex typing (`Page`, `Payload`, `PageCustomEvent`, `PageOptions` generics, `UnionToIntersection`, `ObjectPropertyToPair`) has no runtime behaviour. Payloads and data are opaque `Value`s.
- Asynchrony is not modelled. `onAuth`'s `await` becomes predicates with settled verdicts. Handlers are not awaited, so only synchronous throws are modelled. Interleaving of messages is not modelled.
- Engine.Cushax.RunHandler: a handler's effects are limited to commits through its capability or the root commit. Direct use of the `socket` argument (its own `emit`, writing `$cushax_verified`) is not modelled.
- Protocol.SyncResetPages: the code builds the list from `Object.values(event)`, so it follows the key order of the client's JSON object. The model uses enter, leave, update. Envelope fields that are present but not objects (`0`, `false`, `null`) and extra envelope keys are not modelled. A null envelope, whose destructuring throws and whose catch block then throws again, is not modelled either.
- Protocol.EventResetPages: `Object.values(event)` would also pick up a `page` field inside `data`, and would throw inside the catch block on null `data`. The model lists only the event's page.
- Engine.Property: the lookup `options[eventName]` covers the bundle's own fields and its custom events. Inherited object members such as `toString` are not modelled.
- Legacy.Cushax.Commit: `namespace.clients` answers through a callback, so the real `commit` is sent after the current dispatch has finished. The model appends it in call order. Arguments beyond (name, payload) are not modelled.
- `keep` is modelled as an optional boolean. Other truthy values are not modelled.
- Logging (`console.log`), `io.listen(80)` and the demo registrations of `src/app.ts` are left out; the demo pages appear only in `Scenarios`. `src/dev.ts` is not part of this model: it is a demo script with timers, randomness and a network listen.

## Findings

| source | as written | input that shows it | evidently intended | confidence | as-written member | corrected member |
|---|---|---|---|---|---|---|
| src/app.ts:39-43 | the root `commit` destructures `[id]` from the namespace's client list and sends only to that first id | two connected clients "a" and "b": a root commit never reaches "b" | a root commit without a target reaches every connected client, as `src/main.ts:63` later does | medium, not executed | Legacy.RootCommitIsNotBroadcast | Engine.CommitReachesTargetOrAll |
