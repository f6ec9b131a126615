/** What the cancellation link guarantees, stated over the step functions that
    the methods of AbortLinks.AbortLink are proved against. */
module AbortLinkProperties {
  import opened JsValues
  import opened AbortLinks

  /** A caller subscribing `n` times in a row to requests that take routing `r`,
      as the "Increment with abort" button does with the slot "op1". */
  function SubscribeRepeatedly(st: LinkState, r: Routing, n: nat): LinkState
    decreases n
  {
    if n == 0 then st else AfterSubscribe(SubscribeRepeatedly(st, r, n - 1), r).state
  }

  /** `request` passes the operation through exactly when the context value is
      one of JavaScript's falsy values; any other value guards its property name. */
  lemma PassThroughExactlyWhenFalsy(link: AbortLink, context: map<string, Value>)
    ensures link.Request(context) == PassThrough <==>
      ContextValue(context, link.contextKey) in {Undefined, Null, Bool(false), Number(0), NaN, Str("")}
    ensures link.Request(context).Guarded? ==>
      link.Request(context).slot == ToPropertyKey(ContextValue(context, link.contextKey))
  {
  }

  /** Without a truthy key the registry is not touched: the caller gets the
      forwarded subscription and nothing is unsubscribed. */
  lemma FalsyKeyLeavesRegistryAlone(link: AbortLink, context: map<string, Value>, st: LinkState)
    requires !Truthy(ContextValue(context, link.contextKey))
    ensures var step := AfterSubscribe(st, link.Request(context));
      && step.outcome == Subscribed(|st.handles|)
      && step.state.subscriptions == st.subscriptions
      && step.state.handles == st.handles + [Active]
      && step.state.log == st.log + [Forwarded(|st.handles|)]
  {
  }

  /** A key that already has an entry: the stored subscription is unsubscribed
      first, then the request is forwarded, and the new subscription replaces
      the entry. The old subscription ends up closed either way. */
  lemma SupersedeCancelsPrevious(st: LinkState, slot: string)
    requires Consistent(st)
    requires slot in st.subscriptions
    ensures var prev, n := st.subscriptions[slot], |st.handles|;
      var step := AfterSubscribe(st, Guarded(slot));
      && step.outcome == Subscribed(n)
      && step.state.log == st.log + [Unsubscribed(prev), Forwarded(n)]
      && step.state.subscriptions == st.subscriptions[slot := n]
      && step.state.handles[n] == Active
      && step.state.handles[prev] != Active
      && step.state.handles[prev] == (if st.handles[prev] == Active then Cancelled else st.handles[prev])
      && (forall h | 0 <= h < n && h != prev :: step.state.handles[h] == st.handles[h])
  {
  }

  /** A key with no entry and no inherited property: the optional chain stops at
      `undefined`, nothing is unsubscribed, and the new subscription is stored. */
  lemma MissingSlotCancelsNothing(st: LinkState, slot: string)
    requires slot !in st.subscriptions && slot !in ObjectPrototypeMembers
    ensures var step := AfterSubscribe(st, Guarded(slot));
      && step.outcome == Subscribed(|st.handles|)
      && step.state.handles == st.handles + [Active]
      && step.state.log == st.log + [Forwarded(|st.handles|)]
      && step.state.subscriptions == st.subscriptions[slot := |st.handles|]
  {
  }

  /** Subscribing under one key leaves every other key's entry, and the state of
      the subscription stored there, as they were: distinct keys never cancel
      each other. */
  lemma OtherSlotsUntouched(st: LinkState, r: Routing, k: string)
    requires Consistent(st)
    requires r != Guarded(k)
    ensures var next := AfterSubscribe(st, r).state;
      && (k in next.subscriptions <==> k in st.subscriptions)
      && (k in st.subscriptions ==>
            next.subscriptions[k] == st.subscriptions[k]
            && next.handles[st.subscriptions[k]] == st.handles[st.subscriptions[k]])
  {
  }

  /** Entries are never deleted: no step removes a key, and an unsubscribe or a
      completion leaves the whole registry as it was. */
  lemma KeysOnlyGrow(st: LinkState, r: Routing, h: HandleId)
    ensures st.subscriptions.Keys <= AfterSubscribe(st, r).state.subscriptions.Keys
    ensures AfterUnsubscribe(st, h).subscriptions == st.subscriptions
    ensures AfterComplete(st, h).subscriptions == st.subscriptions
  {
  }

  /** A subscription that completed (or was cancelled by its caller) stays
      registered; the next request under its key unsubscribes it harmlessly,
      leaving it as it was, and proceeds normally. */
  lemma StaleEntryIsHarmless(st: LinkState, slot: string)
    requires Consistent(st)
    requires slot in st.subscriptions && st.handles[st.subscriptions[slot]] != Active
    ensures var next := AfterSubscribe(st, Guarded(slot)).state;
      && next.handles == st.handles + [Active]
      && next.subscriptions[slot] == |st.handles|
  {
  }

  /** Request A under key k completes; a later request B under
      k is registered and active, and A stays Completed rather than Cancelled. */
  lemma CompletedThenResubscribe(st: LinkState, slot: string)
    requires Consistent(st)
    requires slot in st.subscriptions
    ensures var a := st.subscriptions[slot];
      var done := AfterComplete(st, a);
      var step := AfterSubscribe(done, Guarded(slot));
      && step.outcome == Subscribed(|st.handles|)
      && step.state.subscriptions[slot] == |st.handles|
      && step.state.handles[|st.handles|] == Active
      && step.state.handles[a] == (if st.handles[a] == Active then Completed else st.handles[a])
  {
  }

  /** Unsubscribing twice is the same as unsubscribing once, and unsubscribing
      a closed subscription changes no state. */
  lemma UnsubscribeIdempotent(st: LinkState, h: HandleId)
    ensures AfterUnsubscribe(AfterUnsubscribe(st, h), h).handles == AfterUnsubscribe(st, h).handles
    ensures h < |st.handles| && st.handles[h] != Active ==> AfterUnsubscribe(st, h).handles == st.handles
    ensures h < |st.handles| ==> AfterUnsubscribe(st, h).handles[h] != Active
  {
  }

  /** A cancelled subscription never becomes active or completed again. */
  lemma CancelledIsFinal(st: LinkState, h: HandleId, r: Routing, g: HandleId)
    requires h < |st.handles| && st.handles[h] == Cancelled
    ensures AfterComplete(st, g).handles[h] == Cancelled
    ensures AfterUnsubscribe(st, g).handles[h] == Cancelled
    ensures AfterSubscribe(st, r).state.handles[h] == Cancelled
  {
  }

  /** The subscription states once the entry under `slot`, if any, has been unsubscribed. */
  function Superseded(st: LinkState, slot: string): (r: seq<HandleState>)
    ensures |r| == |st.handles|
  {
    if slot in st.subscriptions then Close(st.handles, st.subscriptions[slot], Cancelled) else st.handles
  }

  /** One subscribe under a key that is not an Object.prototype name: the entry
      under the key, if any, is unsubscribed and the new subscription replaces it. */
  lemma SubscribeUnderSlot(st: LinkState, slot: string)
    requires slot !in ObjectPrototypeMembers
    ensures var next := AfterSubscribe(st, Guarded(slot)).state;
      && next.handles == Superseded(st, slot) + [Active]
      && next.subscriptions == st.subscriptions[slot := |st.handles|]
      && next.routes == st.routes + [Guarded(slot)]
  {
  }

  /** Any number of subscribes with one routing keeps the registry consistent. */
  lemma {:induction false} RepeatedSubscribesPreserveConsistency(st: LinkState, r: Routing, n: nat)
    requires Consistent(st)
    ensures Consistent(SubscribeRepeatedly(st, r, n))
    decreases n
  {
    if n > 0 {
      RepeatedSubscribesPreserveConsistency(st, r, n - 1);
      SubscribePreservesConsistency(SubscribeRepeatedly(st, r, n - 1), r);
    }
  }

  /** One thing that can happen to the link: a caller subscribes to what
      `request` returned, a subscription is unsubscribed, or a forwarded
      request finishes on its own. */
  datatype Action = Subscribes(r: Routing) | Unsubscribes(h: HandleId) | Completes(h: HandleId)

  function Apply(st: LinkState, a: Action): LinkState {
    match a
    case Subscribes(r) => AfterSubscribe(st, r).state
    case Unsubscribes(h) => AfterUnsubscribe(st, h)
    case Completes(h) => AfterComplete(st, h)
  }

  /** The state after the actions happen in order, under any mix of keys. */
  function Run(st: LinkState, actions: seq<Action>): LinkState
    decreases |actions|
  {
    if actions == [] then st else Apply(Run(st, actions[..|actions| - 1]), actions[|actions| - 1])
  }

  /** Every sequence of subscribes, unsubscribes and completions, under any mix
      of keys and routings, keeps the registry consistent. */
  lemma {:induction false} RunPreservesConsistency(st: LinkState, actions: seq<Action>)
    requires Consistent(st)
    ensures Consistent(Run(st, actions))
    decreases |actions|
  {
    if actions != [] {
      var before := Run(st, actions[..|actions| - 1]);
      RunPreservesConsistency(st, actions[..|actions| - 1]);
      match actions[|actions| - 1]
      case Subscribes(r) => SubscribePreservesConsistency(before, r);
      case Unsubscribes(h) => UnsubscribePreservesConsistency(before, h);
      case Completes(h) => CompletePreservesConsistency(before, h);
    }
  }

  /** Over every sequence of actions no registry key is ever removed, no
      subscription is forgotten, and a cancelled subscription stays cancelled. */
  lemma {:induction false} RunNeverDeletes(st: LinkState, actions: seq<Action>)
    ensures st.subscriptions.Keys <= Run(st, actions).subscriptions.Keys
    ensures |st.handles| <= |Run(st, actions).handles|
    ensures forall h | 0 <= h < |st.handles| && st.handles[h] == Cancelled :: Run(st, actions).handles[h] == Cancelled
    decreases |actions|
  {
    if actions != [] {
      var before := Run(st, actions[..|actions| - 1]);
      RunNeverDeletes(st, actions[..|actions| - 1]);
      var a := actions[|actions| - 1];
      if a.Subscribes? {
        var step := AfterSubscribe(before, a.r);
        assert step.outcome.TypeError? || |step.state.handles| == |before.handles| + 1;
      }
    }
  }

  /** Line 20 throws exactly for the names `{}` inherits: in a consistent state
      the property read finds an inherited value, and the subscribe ends in a
      TypeError, exactly when the key is an Object.prototype name. */
  lemma ThrowsExactlyOnPrototypeNames(st: LinkState, slot: string)
    requires Consistent(st)
    ensures LookupSlot(st.subscriptions, ObjectPrototypeMembers, slot).Inherited? <==> slot in ObjectPrototypeMembers
    ensures AfterSubscribe(st, Guarded(slot)).outcome == TypeError <==> slot in ObjectPrototypeMembers
  {
  }

  /** After `n` subscribes under one key, the registry maps the key to the last
      subscription and nothing else has changed in it. */
  lemma {:induction false} LastSubscriberRegistered(st: LinkState, slot: string, n: nat)
    requires 0 < n && slot !in ObjectPrototypeMembers
    ensures var end := SubscribeRepeatedly(st, Guarded(slot), n);
      && |end.handles| == |st.handles| + n
      && end.subscriptions == st.subscriptions[slot := |st.handles| + n - 1]
    decreases n
  {
    var prev := SubscribeRepeatedly(st, Guarded(slot), n - 1);
    SubscribeUnderSlot(prev, slot);
    if n > 1 {
      LastSubscriberRegistered(st, slot, n - 1);
    }
  }

  /** After `n` subscribes under one key: the last subscription is active, every
      earlier one made in the run is cancelled, and of the older ones only the
      one stored under the key was unsubscribed. */
  lemma {:induction false} LastSubscriberWins(st: LinkState, slot: string, n: nat)
    requires 0 < n && slot !in ObjectPrototypeMembers
    ensures var end := SubscribeRepeatedly(st, Guarded(slot), n);
      var last := |st.handles| + n - 1;
      && |end.handles| == last + 1
      && end.handles[last] == Active
      && (forall h | |st.handles| <= h < last :: end.handles[h] == Cancelled)
      && (forall h | 0 <= h < |st.handles| :: end.handles[h] == Superseded(st, slot)[h])
    decreases n
  {
    var prev := SubscribeRepeatedly(st, Guarded(slot), n - 1);
    SubscribeUnderSlot(prev, slot);
    if n > 1 {
      LastSubscriberRegistered(st, slot, n - 1);
      LastSubscriberWins(st, slot, n - 1);
      assert Superseded(prev, slot) == Close(prev.handles, |st.handles| + n - 2, Cancelled);
    }
  }

  /** After `n` subscribes under one key, no subscription ever made under the
      key other than the last is still active. */
  lemma {:induction false} NoEarlierSubscriberActive(st: LinkState, slot: string, n: nat)
    requires Consistent(st)
    requires 0 < n && slot !in ObjectPrototypeMembers
    ensures var end := SubscribeRepeatedly(st, Guarded(slot), n);
      && |end.routes| == |end.handles| == |st.handles| + n
      && forall h | 0 <= h < |st.handles| + n - 1 && end.routes[h] == Guarded(slot) :: end.handles[h] != Active
  {
    RepeatedSubscribesPreserveConsistency(st, Guarded(slot), n);
    LastSubscriberRegistered(st, slot, n);
  }

  // Registry keys inherited from Object.prototype.

  /** As written: a key that names an Object.prototype member reads an inherited
      value whose `unsubscribe` is undefined, so calling it throws before the
      request is forwarded, and the state is left as it was, however often the
      caller subscribes: such a key never gets an entry. */
  lemma {:induction false} PrototypeSlotNeverRegisters(st: LinkState, slot: string, n: nat)
    requires Consistent(st)
    requires slot in ObjectPrototypeMembers
    ensures AfterSubscribe(st, Guarded(slot)).outcome == TypeError
    ensures SubscribeRepeatedly(st, Guarded(slot), n) == st
    decreases n
  {
    assert slot !in st.subscriptions;
    if n > 0 {
      PrototypeSlotNeverRegisters(st, slot, n - 1);
    }
  }

  /** As written, concretely: the dedup key "toString" passes the falsy test and
      then throws on every subscribe. */
  lemma ToStringKeyThrows(link: AbortLink, st: LinkState)
    requires Consistent(st)
    ensures link.Request(map[link.contextKey := Str("toString")]) == Guarded("toString")
    ensures AfterSubscribe(st, Guarded("toString")).outcome == TypeError
  {
  }

  /** Corrected: the registry as an object without a prototype
      (`Object.create(null)`), so only its own entries are ever read. Keys are
      still property names, so 1 and "1" still share an entry. */
  function AfterSubscribeNullPrototype(st: LinkState, r: Routing): Step {
    SubscribeOn(st, r, {})
  }

  /** Corrected: every truthy key gets its entry, the intended behaviour. */
  lemma NullPrototypeAlwaysRegisters(st: LinkState, slot: string)
    ensures var step := AfterSubscribeNullPrototype(st, Guarded(slot));
      && step.outcome == Subscribed(|st.handles|)
      && step.state.subscriptions == st.subscriptions[slot := |st.handles|]
      && step.state.handles[|st.handles|] == Active
  {
  }

  /** Corrected: on every key that is not an Object.prototype name the
      correction behaves exactly as the link as written. */
  lemma NullPrototypeAgreesOffPrototype(st: LinkState, r: Routing)
    requires !(r.Guarded? && r.slot in ObjectPrototypeMembers)
    ensures AfterSubscribeNullPrototype(st, r) == AfterSubscribe(st, r)
  {
  }
}
