/**
  Routing of events to saga instances: every event goes to the instance whose
  `CorrelationId` equals the message's `OrderId`. Instances are kept in a map
  keyed by correlation id, so there is at most one per id.
 */
module SagaDispatch {

  import opened Wrappers
  import opened OrderMessages
  import opened OrderSaga

  type Store = map<Guid, Instance>

  /** How a delivery ended: a new instance, a transition of an existing one, or no rule. */
  datatype Status = Created | Transitioned | Unmatched

  datatype Delivery = Delivery(store: Store, status: Status)

  /** The instance an id addresses: the stored one, or a fresh one in `Initial` if there is none. */
  function Current(store: Store, id: Guid): Instance
  {
    if id in store then store[id] else NewInstance(id)
  }

  /** Every stored instance sits under its own id, has left `Initial`, and has the dates its state implies. */
  predicate StoreInvariant(store: Store)
  {
    forall id :: id in store ==>
      store[id].correlationId == id && store[id].currentState != Initial && Consistent(store[id])
  }

  /**
    Delivers one event. An event for an unknown id creates an instance only
    when `Initial` has a rule for it (only `SubmitOrder`); any other event
    for an unknown id is `Unmatched` and creates nothing. Entries under other
    ids are untouched.
   */
  function Dispatch(store: Store, e: Event): (r: Delivery)
    ensures forall id :: id != CorrelateById(e) ==>
      (id in r.store <==> id in store) && (id in store ==> r.store[id] == store[id])
    ensures Current(r.store, CorrelateById(e)) == Deliver(Current(store, CorrelateById(e)), e)
    ensures r.status == Created <==> CorrelateById(e) !in store && e.SubmitOrder?
    ensures r.status == Unmatched <==> Step(Current(store, CorrelateById(e)), e).Unhandled?
    ensures r.status == Unmatched ==> r.store == store
    ensures CorrelateById(e) in r.store <==> CorrelateById(e) in store || r.status == Created
  {
    var id := CorrelateById(e);
    match Step(Current(store, id), e)
    case Unhandled => Delivery(store, Unmatched)
    case Handled(next) => Delivery(store[id := next], if id in store then Transitioned else Created)
  }

  /** The store after a sequence of deliveries, in order. */
  function DispatchAll(store: Store, es: seq<Event>): Store
    decreases |es|
  {
    if es == [] then store else DispatchAll(Dispatch(store, es[0]).store, es[1..])
  }

  /** The events of a sequence that are routed to `id`, in order. */
  function RoutedTo(es: seq<Event>, id: Guid): (r: seq<Event>)
    ensures forall i :: 0 <= i < |r| ==> CorrelateById(r[i]) == id
    ensures |r| <= |es|
    decreases |es|
  {
    if es == [] then []
    else if CorrelateById(es[0]) == id then [es[0]] + RoutedTo(es[1..], id)
    else RoutedTo(es[1..], id)
  }

  /** One delivery keeps the store invariant. */
  lemma DispatchKeepsInvariant(store: Store, e: Event)
    requires StoreInvariant(store)
    ensures StoreInvariant(Dispatch(store, e).store)
  {
  }

  /** Any sequence of deliveries keeps the store invariant. */
  lemma {:induction false} DispatchAllKeepsInvariant(store: Store, es: seq<Event>)
    requires StoreInvariant(store)
    ensures StoreInvariant(DispatchAll(store, es))
    decreases |es|
  {
    if es != [] {
      DispatchKeepsInvariant(store, es[0]);
      DispatchAllKeepsInvariant(Dispatch(store, es[0]).store, es[1..]);
    }
  }

  /**
    Instances are independent: what the store holds for `id` after any
    sequence of deliveries is what the events routed to `id` alone make of it.
   */
  lemma {:induction false} RoutingIsolatesInstances(store: Store, es: seq<Event>, id: Guid)
    ensures Current(DispatchAll(store, es), id) == Run(Current(store, id), RoutedTo(es, id))
    decreases |es|
  {
    if es != [] {
      var next := Dispatch(store, es[0]).store;
      RoutingIsolatesInstances(next, es[1..], id);
      if CorrelateById(es[0]) == id {
        assert RoutedTo(es, id) == [es[0]] + RoutedTo(es[1..], id);
        assert Current(next, id) == Deliver(Current(store, id), es[0]);
      } else {
        assert Current(next, id) == Current(store, id);
      }
    }
  }

  /** Events addressed to other ids leave the entry for `id` exactly as it was, present or absent. */
  lemma {:induction false} OtherIdsUntouched(store: Store, es: seq<Event>, id: Guid)
    requires forall i :: 0 <= i < |es| ==> CorrelateById(es[i]) != id
    ensures id in DispatchAll(store, es) <==> id in store
    ensures id in store ==> DispatchAll(store, es)[id] == store[id]
    decreases |es|
  {
    if es != [] {
      OtherIdsUntouched(Dispatch(store, es[0]).store, es[1..], id);
    }
  }

  /** A non-initial event for an id never seen creates no instance. */
  lemma NonInitialEventCreatesNothing(store: Store, e: Event)
    requires CorrelateById(e) !in store
    requires !e.SubmitOrder?
    ensures Dispatch(store, e) == Delivery(store, Unmatched)
  {
  }

  /** A duplicate `SubmitOrder` neither creates a second instance nor moves the first. */
  lemma DuplicateSubmitIgnored(store: Store, id: Guid)
    ensures var once := Dispatch(store, SubmitOrder(id)).store;
            Dispatch(once, SubmitOrder(id)) == Delivery(once, Unmatched)
  {
  }

  /**
    Two `AcceptOrder`s for an instance in `Submitted`: `DateAccepted` ends up
    holding the first message's date (or the date already there), never the second.
   */
  lemma AcceptTwiceKeepsFirst(store: Store, id: Guid, first: Date, second: Date)
    requires id in store && store[id].currentState == Submitted
    ensures var after := DispatchAll(store, [AcceptOrder(id, first), AcceptOrder(id, second)]);
            id in after && after[id].currentState == Accepted &&
            after[id].dateAccepted == if store[id].dateAccepted.Some? then store[id].dateAccepted else Some(first)
  {
    var once := Dispatch(store, AcceptOrder(id, first)).store;
    assert id in once && once[id].currentState == Accepted;
    assert Dispatch(once, AcceptOrder(id, second)).store == once;
    assert DispatchAll(store, [AcceptOrder(id, first), AcceptOrder(id, second)])
        == DispatchAll(once, [AcceptOrder(id, second)])
        == DispatchAll(once, []);
  }

  /** Once an instance is in `Final`, no later delivery changes it. */
  lemma FinalInstanceIsFrozen(store: Store, es: seq<Event>, id: Guid)
    requires id in store && store[id].currentState == Final
    ensures id in DispatchAll(store, es) && DispatchAll(store, es)[id] == store[id]
  {
    RoutingIsolatesInstances(store, es, id);
    FinalIsFrozen(store[id], RoutedTo(es, id));
    assert Current(DispatchAll(store, es), id).currentState == Final;
  }
}
