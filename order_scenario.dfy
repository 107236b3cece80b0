/**
  The end-to-end order scenario: submit, accept on Christmas 2012, finalize
  on New Year's Eve 2012, for a fresh order id.
 */
module OrderScenario {

  import opened Wrappers
  import opened OrderMessages
  import opened OrderSaga
  import opened SagaDispatch

  const Christmas2012 := Date(2012, 12, 25)
  const NewYearsEve2012 := Date(2012, 12, 31)

  /** The three messages the scenario publishes for order `id`. */
  function ScenarioEvents(id: Guid): seq<Event>
  {
    [SubmitOrder(id),
     AcceptOrder(id, Christmas2012),
     FinalizeOrder(id, Christmas2012, NewYearsEve2012)]
  }

  /**
    Delivered to a store that has never seen `id`, the first message creates
    the instance in `Submitted`, the second moves it to `Accepted` with
    `DateAccepted` set, and the third finalizes it with both dates.
   */
  lemma ScenarioReachesFinal(store: Store, id: Guid)
    requires id !in store
    ensures var d1 := Dispatch(store, SubmitOrder(id));
            && d1.status == Created
            && d1.store[id] == Instance(id, Submitted, None, None)
            && var d2 := Dispatch(d1.store, AcceptOrder(id, Christmas2012));
               && d2.status == Transitioned
               && d2.store[id] == Instance(id, Accepted, Some(Christmas2012), None)
               && var d3 := Dispatch(d2.store, FinalizeOrder(id, Christmas2012, NewYearsEve2012));
                  && d3.status == Transitioned
                  && d3.store[id] == Instance(id, Final, Some(Christmas2012), Some(NewYearsEve2012))
  {
  }

  /**
    Continuing the scenario: a later `AcceptOrder` with another date is not
    handled in `Accepted` and leaves `DateAccepted` alone; after finalizing, a
    repeated `SubmitOrder` is not handled either.
   */
  lemma ScenarioIgnoresLateMessages(store: Store, id: Guid, later: Date)
    requires id !in store
    ensures var accepted := DispatchAll(store, ScenarioEvents(id)[..2]);
            Dispatch(accepted, AcceptOrder(id, later)) == Delivery(accepted, Unmatched)
    ensures var finalized := DispatchAll(store, ScenarioEvents(id));
            && Dispatch(finalized, SubmitOrder(id)) == Delivery(finalized, Unmatched)
            && finalized[id] == Instance(id, Final, Some(Christmas2012), Some(NewYearsEve2012))
  {
    var events := ScenarioEvents(id);
    var s1 := Dispatch(store, events[0]).store;
    var s2 := Dispatch(s1, events[1]).store;
    var s3 := Dispatch(s2, events[2]).store;
    assert DispatchAll(store, events[..2]) == DispatchAll(s1, events[1..2]) == DispatchAll(s2, []);
    assert DispatchAll(store, events) == DispatchAll(s1, events[1..]) == DispatchAll(s2, events[2..])
        == DispatchAll(s3, []);
  }

  /**
    The same scenario on a single `OrderState` object: the framework creates
    it for the order id and each message is consumed in place.
   */
  method ScenarioOnObject(id: Guid) returns (handled: seq<bool>, final: Instance)
    ensures handled == [true, true, true]
    ensures final == Instance(id, Final, Some(Christmas2012), Some(NewYearsEve2012))
  {
    var saga := new OrderState(id);
    var submitted := saga.Consume(SubmitOrder(id));
    var accepted := saga.Consume(AcceptOrder(id, Christmas2012));
    var finalized := saga.Consume(FinalizeOrder(id, Christmas2012, NewYearsEve2012));
    handled := [submitted, accepted, finalized];
    final := saga.Snapshot();
  }
}
