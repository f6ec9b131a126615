# AbortLink: a verified model of the request-cancellation link

`AbortLink` (src/abort.link.js) is an Apollo link that cancels requests when a newer one supersedes them. It is built with the name of a context field (`new AbortLink('abortKey')`). A request whose context gives that field a truthy value is guarded: when a caller subscribes to it, the link does three things in order. It unsubscribes the subscription stored in its `subscriptions` object under that value, forwards the request, and stores the new subscription under the value. A request without such a value is handed to `forward` untouched. Entries are never removed.

The model has three modules:

- `JsValues` (js_values.dfy) covers the JavaScript semantics the link depends on. This includes which context values are falsy (ToBoolean, section 7.1.2 of ECMA-262). It includes the property name a value becomes when it indexes an object (ToPropertyKey, section 7.1.19, with ToString for safe integers, of magnitude below 2^53). It also lists the names every `{}` inherits from Object.prototype.
- `AbortLinks` (abort_link.dfy) holds the state and the class.
  - The state is a `LinkState` value with four fields: the registry's own properties, the state of every subscription (Active, Completed, Cancelled), the branch each subscription was created through, and a log of the calls made on subscriptions.
  - The step functions `AfterSubscribe`, `AfterUnsubscribe` and `AfterComplete` say what subscribing, unsubscribing and completion do to that state.
  - `Consistent` is the registry invariant: at most one active subscription per key, and it is the registered one.
  - The class `AbortLink` has a `contextKey` that the link sets in its constructor and never assigns again. It has a mutable `subscriptions: map<string, HandleId>` and a `handles` table. Its methods `Subscribe`, `Unsubscribe` and `Complete` are proved against the step functions and keep the invariant.
  - `request` is the class function `Request`. It changes nothing. The registry changes only in `Subscribe`, which is the body of the observable at src/abort.link.js:19-27 and runs when a caller subscribes.
- `AbortLinkProperties` (abort_link_properties.dfy) holds the lemmas: the pass-through branch, supersession, isolation between keys, runs of subscribes, unsubscribes and completions, stale entries, and the Object.prototype finding below.

Apollo's `forward`, `Observable` and subscriptions are abstracted. Subscribing to a forwarded request creates a fresh handle, numbered in creation order. `unsubscribe()` turns an Active handle into Cancelled and does nothing to a closed one. A request that finishes on its own turns an Active handle into Completed. The caller's subscription to the guarded observable is identified with the forwarded subscription it wraps.

The code never removes a registry entry: not when a request completes, not when its caller unsubscribes, and it has no "only if still current" check. The model follows the code: no step removes a key (`KeysOnlyGrow`, `RunNeverDeletes`). A stale entry only gets a harmless `unsubscribe()` from the next request under its key (`StaleEntryIsHarmless`, `CompletedThenResubscribe`).

## Model

| member | source | states |
|---|---|---|
| `JsValues.NumberSlotsDistinct` | src/abort.link.js:20-24 | Two different safe integers (magnitude below 2^53) used as keys index different registry properties. |
| `JsValues.DistinctValuesShareSlots` | src/abort.link.js:20-24 | Values of different types can index the same property: 1 and "1", true and "true", -42 and "-42". |
| `AbortLinks.SubscribeOn` | src/abort.link.js:19-27 | A subscribe that succeeds returns a fresh handle id equal to the number of earlier handles and adds exactly one handle. A subscribe that throws leaves the whole state unchanged. |
| `AbortLinks.SubscribePreservesConsistency` | src/abort.link.js:19-27 | Subscribing keeps the invariant. Every entry names an existing handle created under its key. No Object.prototype name is an entry. An active handle created under a key is the one registered there. |
| `AbortLinks.UnsubscribePreservesConsistency` | src/abort.link.js:20 | Unsubscribing any handle keeps the invariant. |
| `AbortLinks.CompletePreservesConsistency` | src/index.jsx:77-80 | A forwarded request completing or erroring on its own keeps the invariant. |
| `AbortLinks.AbortLink.constructor` | src/abort.link.js:4-10 | The link starts with an empty registry, no subscriptions and the given `contextKey`. The link never assigns the key again. |
| `AbortLinks.AbortLink.Unsubscribe` | src/abort.link.js:20 | `unsubscribe()` cancels an active handle and does nothing to a closed one. The registry keeps its entries, and the invariant holds afterwards. |
| `AbortLinks.AbortLink.Complete` | src/index.jsx:77-80 | Completion closes an active handle as Completed. The registry keeps its entries, and the invariant holds afterwards. |
| `AbortLinks.AbortLink.Subscribe` | src/abort.link.js:12-27 | Subscribing to what `request` returned changes the link's state and result exactly as `AfterSubscribe` says, and the invariant holds afterwards. |
| `AbortLinkProperties.PassThroughExactlyWhenFalsy` | src/abort.link.js:13-17 | `request` passes through exactly when the context value is undefined, null, false, 0, NaN or "". Otherwise it guards the property name of that value. |
| `AbortLinkProperties.FalsyKeyLeavesRegistryAlone` | src/abort.link.js:15-17 | With a falsy key the caller gets the forwarded subscription. The registry is unchanged and nothing is unsubscribed. |
| `AbortLinkProperties.SupersedeCancelsPrevious` | src/abort.link.js:20-24 | With an existing entry, the stored handle is unsubscribed before the request is forwarded. The new handle then replaces the entry. The old handle ends up closed, and no other handle changes. |
| `AbortLinkProperties.MissingSlotCancelsNothing` | src/abort.link.js:20-24 | With no entry and no inherited name, the optional chain does nothing. The request is forwarded and the new handle is stored. |
| `AbortLinkProperties.OtherSlotsUntouched` | src/abort.link.js:20-24 | Subscribing under one key leaves every other key's entry and that entry's handle state unchanged. |
| `AbortLinkProperties.KeysOnlyGrow` | src/abort.link.js:19-27 | No subscribe removes a key. Unsubscribe and completion leave the registry unchanged. |
| `AbortLinkProperties.StaleEntryIsHarmless` | src/abort.link.js:20-24 | If the registered handle is already closed, the next subscribe under its key leaves it as it is. The new handle is appended and registered. |
| `AbortLinkProperties.CompletedThenResubscribe` | src/abort.link.js:20-24 | A request that completes stays Completed and is not cancelled. A later request under the same key is registered and active. |
| `AbortLinkProperties.UnsubscribeIdempotent` | src/abort.link.js:20 | Unsubscribing twice equals unsubscribing once. Unsubscribing a closed handle changes no handle state. Afterwards the handle is not active. |
| `AbortLinkProperties.CancelledIsFinal` | src/abort.link.js:19-27 | A cancelled handle stays cancelled through every later step. |
| `AbortLinkProperties.SubscribeUnderSlot` | src/abort.link.js:20-24 | Subscribing under a key that is not an Object.prototype name closes the entry's handle, if there is one, and appends an active handle. The key then maps to the new handle. |
| `AbortLinkProperties.RunPreservesConsistency` | src/abort.link.js:19-27 | Every sequence of subscribes, unsubscribes and completions, under any mix of keys and routings, keeps the invariant. |
| `AbortLinkProperties.RunNeverDeletes` | src/abort.link.js:19-27 | Over every sequence of subscribes, unsubscribes and completions, no registry key is removed, no subscription is forgotten, and a cancelled subscription stays cancelled. |
| `AbortLinkProperties.RepeatedSubscribesPreserveConsistency` | src/abort.link.js:19-27 | Any number of repeated subscribes with the same routing keeps the invariant. |
| `AbortLinkProperties.ThrowsExactlyOnPrototypeNames` | src/abort.link.js:20 | In a consistent state, reading `subscriptions[key]` finds an inherited value, and the subscribe ends in a TypeError, exactly when the key is an Object.prototype name. |
| `AbortLinkProperties.LastSubscriberRegistered` | src/abort.link.js:20-24 | After n subscribes under one key, that key maps to the last handle and no other entry changed. |
| `AbortLinkProperties.LastSubscriberWins` | src/abort.link.js:20-24 | After n subscribes under one key, the last handle is active and every earlier handle from the run is Cancelled. Of the older handles, only the one that was registered is unsubscribed. |
| `AbortLinkProperties.NoEarlierSubscriberActive` | src/abort.link.js:20-24 | After n subscribes under one key, no handle ever created under that key is active except the last. |
| `AbortLinkProperties.PrototypeSlotNeverRegisters` | src/abort.link.js:20 | As written, a key that names an Object.prototype member throws on every subscribe, and the state never changes. |
| `AbortLinkProperties.ToStringKeyThrows` | src/abort.link.js:15-20 | As written, the context value "toString" passes the falsy test and then throws on subscribe. |
| `AbortLinkProperties.NullPrototypeAlwaysRegisters` | src/abort.link.js:20-24 | Corrected: with a registry that has no prototype, every key gets its entry and an active handle. |
| `AbortLinkProperties.NullPrototypeAgreesOffPrototype` | src/abort.link.js:20-24 | Corrected: on every key that is not an Object.prototype name, the correction behaves exactly like the code as written. |

## Left out

- src/index.jsx: the schema and resolvers, the mock network link with its delay, the React UI and the client bootstrapping. These are demo plumbing, asynchronous I/O and library calls. Only the completion of a forwarded request (src/index.jsx:77-80) appears, as `Complete`.
- Event delivery: the `next`, `complete` and `error` callbacks and their timing on the event loop are not modelled. A closed handle stands for "delivers nothing more".
- The TypeError thrown at src/abort.link.js:20 is modelled as the outcome `TypeError` with the state unchanged. How the Observable implementation reports it to the caller is not part of this model.
- A forwarded request that completes synchronously inside `subscribe`, before line 24 stores it, is modelled as a subscribe followed by `Complete`. The resulting state is the same.
- The context object is modelled by its own properties, read once. The model assumes nothing mutates it between the reads at lines 15, 20 and 24. A `contextKey` that names a property the context object inherits is not modelled.
- Key values: numbers are safe integers, of magnitude below 2^53 (plus NaN). Fractions, infinities and integral numbers of magnitude 2^53 or more are not modelled: there Number::toString prints the shortest digits that round to the double, not the exact integer, and from 10^21 on it uses exponent notation. Objects are modelled only as plain objects (`PlainObject`: Object.prototype.toString and no Symbol.toStringTag), whose key is "[object Object]". Symbols, arrays, functions, `Map`, `Date`, `Error`, boxed primitives and objects with their own `toString` or `Symbol.toStringTag` are not modelled.
- The write `subscriptions["__proto__"] = ...` is not modelled, because line 20 always throws first for that key.
- Writes to `link.contextKey` from outside the link are not modelled. In the source it is a public field (src/abort.link.js:5); the model keeps it as a `const`.
- `ApolloLink` itself (`super()`, `concat`, `split`) is a library class and is not part of this model.

## Findings

| source | as written | input that shows it | evidently intended | confidence | as-written member | corrected member |
|---|---|---|---|---|---|---|
| src/abort.link.js:4, src/abort.link.js:20 | The registry is the plain object `{}`, and line 20 reads `subscriptions[key]?.unsubscribe()`. For a key that names an Object.prototype member (`toString`, `constructor`, `valueOf`, `__proto__`, ...) the read yields an inherited non-null value. Its `unsubscribe` is undefined, so the call throws a TypeError before the request is forwarded, and no entry is ever stored for that key. | Context `{ abortKey: 'toString' }`, on any subscribe. | Every truthy key gets its own slot, as with a prototype-less object (`Object.create(null)`); property names still make 1 and "1" share a slot. | high; not executed | `AbortLinkProperties.PrototypeSlotNeverRegisters` | `AbortLinkProperties.NullPrototypeAlwaysRegisters` |

The class `AbortLink` keeps the code's behaviour, because it models the code. `NullPrototypeAgreesOffPrototype` proves the correction differs from it only on those twelve keys.
