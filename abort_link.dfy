/** The request-cancellation link: a registry object mapping a dedup key to the
    subscription currently in flight under that key. Subscribing to a request
    that carries a key unsubscribes whatever is stored under the key, forwards
    the request, and stores the new subscription under the key.

    Apollo's `forward` and its observables are abstracted: subscribing to a
    forwarded request creates a fresh subscription handle, numbered in creation
    order, whose state is Active until it is unsubscribed (Cancelled) or the
    request finishes on its own (Completed). */
module AbortLinks {
  import opened JsValues

  /** A subscription returned by `forward(operation).subscribe(...)`: its index in creation order. */
  type HandleId = nat

  datatype HandleState = Active | Completed | Cancelled

  /** The branch `request` takes for an operation: hand `forward(operation)` back
      unchanged, or return an observable that guards registry slot `slot`. */
  datatype Routing = PassThrough | Guarded(slot: string)

  /** What the property read `subscriptions[slot]` on the registry object yields. */
  datatype Lookup = Own(handle: HandleId) | Inherited | Missing

  /** What a caller's subscribe to the returned observable ends in: the forwarded
      subscription, or the TypeError thrown by calling a missing `unsubscribe`. */
  datatype Outcome = Subscribed(handle: HandleId) | TypeError

  /** A call made on a subscription, in the order it happens. */
  datatype Event = Forwarded(handle: HandleId) | Unsubscribed(handle: HandleId) | Finished(handle: HandleId)

  /** The link's state as a value. `subscriptions` holds the registry object's own
      properties; `handles` the state of every subscription created so far;
      `routes` the branch each subscription was created through; `log` every call
      on a subscription so far. */
  datatype LinkState = LinkState(
    subscriptions: map<string, HandleId>,
    handles: seq<HandleState>,
    routes: seq<Routing>,
    log: seq<Event>)

  datatype Step = Step(state: LinkState, outcome: Outcome)

  /** `context[field]` on the object `operation.getContext()` returns. */
  function ContextValue(context: map<string, Value>, field: string): Value {
    if field in context then context[field] else Undefined
  }

  /** A property read on an object whose own properties are `own` and which
      inherits the names `inherited` from its prototype. */
  function LookupSlot(own: map<string, HandleId>, inherited: set<string>, slot: string): (r: Lookup)
    ensures r.Own? <==> slot in own
    ensures r.Own? ==> r.handle == own[slot]
    ensures r.Inherited? <==> slot !in own && slot in inherited
  {
    if slot in own then Own(own[slot])
    else if slot in inherited then Inherited
    else Missing
  }

  /** Closes handle `h` with state `final` if it is still active; a closed
      handle stays as it is. */
  function Close(handles: seq<HandleState>, h: HandleId, final: HandleState): (r: seq<HandleState>)
    ensures |r| == |handles|
  {
    if h < |handles| && handles[h] == Active then handles[h := final] else handles
  }

  /** `subscription.unsubscribe()`. */
  function AfterUnsubscribe(st: LinkState, h: HandleId): LinkState {
    st.(handles := Close(st.handles, h, Cancelled), log := st.log + [Unsubscribed(h)])
  }

  /** The forwarded request completes or errors on its own. */
  function AfterComplete(st: LinkState, h: HandleId): LinkState {
    st.(handles := Close(st.handles, h, Completed), log := st.log + [Finished(h)])
  }

  /** Subscribing to the observable `request` returned for routing `r`, on a
      registry object that inherits the names `inherited`. */
  function SubscribeOn(st: LinkState, r: Routing, inherited: set<string>): (step: Step)
    ensures step.outcome.Subscribed? ==> step.outcome.handle == |st.handles| && |step.state.handles| == |st.handles| + 1
    ensures step.outcome.TypeError? ==> step.state == st
  {
    match r
    case PassThrough =>
      var h := |st.handles|;
      Step(LinkState(st.subscriptions, st.handles + [Active], st.routes + [r], st.log + [Forwarded(h)]), Subscribed(h))
    case Guarded(slot) =>
      var found := LookupSlot(st.subscriptions, inherited, slot);
      if found.Inherited? then Step(st, TypeError)
      else
        var before := if found.Own? then AfterUnsubscribe(st, found.handle) else st;
        var h := |before.handles|;
        Step(LinkState(before.subscriptions[slot := h], before.handles + [Active],
                       before.routes + [r], before.log + [Forwarded(h)]),
             Subscribed(h))
  }

  /** The link as written: the registry is the plain object `{}`, which inherits
      from Object.prototype. */
  function AfterSubscribe(st: LinkState, r: Routing): Step {
    SubscribeOn(st, r, ObjectPrototypeMembers)
  }

  /** The registry's invariant: every entry names an existing subscription that
      was created under that slot; no Object.prototype name is an own property;
      and an active subscription created under a slot is the one registered
      there, so at most one active subscription per slot exists. */
  ghost predicate Consistent(st: LinkState) {
    && |st.routes| == |st.handles|
    && (forall k | k in st.subscriptions ::
          st.subscriptions[k] < |st.handles| && st.routes[st.subscriptions[k]] == Guarded(k))
    && (forall k | k in ObjectPrototypeMembers :: k !in st.subscriptions)
    && (forall h | 0 <= h < |st.handles| && st.handles[h] == Active && st.routes[h].Guarded? ::
          st.routes[h].slot in st.subscriptions && st.subscriptions[st.routes[h].slot] == h)
  }

  lemma SubscribePreservesConsistency(st: LinkState, r: Routing)
    requires Consistent(st)
    ensures Consistent(AfterSubscribe(st, r).state)
  {
    var next := AfterSubscribe(st, r).state;
    var n := |st.handles|;
    match r
    case PassThrough =>
      forall h | 0 <= h < |next.handles| && next.handles[h] == Active && next.routes[h].Guarded?
        ensures next.routes[h].slot in next.subscriptions && next.subscriptions[next.routes[h].slot] == h
      {
        assert h < n && next.handles[h] == st.handles[h] && next.routes[h] == st.routes[h];
      }
    case Guarded(slot) =>
      var found := LookupSlot(st.subscriptions, ObjectPrototypeMembers, slot);
      if !found.Inherited? {
        var before := if found.Own? then AfterUnsubscribe(st, found.handle) else st;
        assert next.subscriptions == st.subscriptions[slot := n];
        assert next.handles == before.handles + [Active];
        assert next.routes == st.routes + [r];
        forall h | 0 <= h < |next.handles| && next.handles[h] == Active && next.routes[h].Guarded?
          ensures next.routes[h].slot in next.subscriptions && next.subscriptions[next.routes[h].slot] == h
        {
          if h < n {
            assert before.handles[h] == Active && st.handles[h] == Active;
            assert next.routes[h] == st.routes[h];
          }
        }
      }
  }

  lemma UnsubscribePreservesConsistency(st: LinkState, h: HandleId)
    requires Consistent(st)
    ensures Consistent(AfterUnsubscribe(st, h))
  {
  }

  lemma CompletePreservesConsistency(st: LinkState, h: HandleId)
    requires Consistent(st)
    ensures Consistent(AfterComplete(st, h))
  {
  }

  /** The link object. `contextKey` names the context field that carries the
      dedup key; it is set by the constructor and never assigned again. */
  class AbortLink {
    const contextKey: string
    /** The own properties of the registry object `subscriptions`. */
    var subscriptions: map<string, HandleId>
    /** The state of every subscription created through this link, by HandleId. */
    var handles: seq<HandleState>
    ghost var routes: seq<Routing>
    ghost var log: seq<Event>

    ghost function State(): LinkState
      reads this
    {
      LinkState(subscriptions, handles, routes, log)
    }

    ghost predicate Valid()
      reads this
    {
      Consistent(State())
    }

    constructor (contextKey: string)
      ensures Valid()
      ensures this.contextKey == contextKey
      ensures subscriptions == map[] && handles == [] && log == []
    {
      this.contextKey := contextKey;
      subscriptions := map[];
      handles := [];
      routes := [];
      log := [];
    }

    /** `request(operation, forward)`: the branch taken for an operation whose
        context is `context`. It changes nothing; the registry is only touched
        when the returned observable is subscribed to. */
    function Request(context: map<string, Value>): Routing {
      var v := ContextValue(context, contextKey);
      if Truthy(v) then Guarded(ToPropertyKey(v)) else PassThrough
    }

    /** `subscription.unsubscribe()`, by the link or by the caller. The registry
        keeps its entry either way. */
    method Unsubscribe(h: HandleId)
      requires Valid()
      modifies this
      ensures Valid()
      ensures State() == AfterUnsubscribe(old(State()), h)
    {
      UnsubscribePreservesConsistency(State(), h);
      if h < |handles| && handles[h] == Active {
        handles := handles[h := Cancelled];
      }
      log := log + [Unsubscribed(h)];
    }

    /** The forwarded request for handle `h` completes or errors on its own. The
        registry keeps its entry. */
    method Complete(h: HandleId)
      requires Valid()
      modifies this
      ensures Valid()
      ensures State() == AfterComplete(old(State()), h)
    {
      CompletePreservesConsistency(State(), h);
      if h < |handles| && handles[h] == Active {
        handles := handles[h := Completed];
      }
      log := log + [Finished(h)];
    }

    /** A caller subscribes to the observable `request` returned for routing `r`.
        Pass-through: the caller's subscription is the forwarded one. Guarded:
        the body of the observable, which unsubscribes the entry under the slot,
        forwards the request, and stores the new subscription under the slot. */
    method Subscribe(r: Routing) returns (outcome: Outcome)
      requires Valid()
      modifies this
      ensures Valid()
      ensures Step(State(), outcome) == AfterSubscribe(old(State()), r)
    {
      SubscribePreservesConsistency(State(), r);
      match r {
        case PassThrough =>
          outcome := Subscribed(|handles|);
          handles := handles + [Active];
          routes := routes + [r];
          log := log + [Forwarded(outcome.handle)];
        case Guarded(slot) =>
          if slot in subscriptions {
            Unsubscribe(subscriptions[slot]);
          } else if slot in ObjectPrototypeMembers {
            outcome := TypeError;
            return;
          }
          outcome := Subscribed(|handles|);
          handles := handles + [Active];
          routes := routes + [r];
          log := log + [Forwarded(outcome.handle)];
          subscriptions := subscriptions[slot := outcome.handle];
      }
    }
  }
}
