/**
  The order saga: the `OrderState` instance, the transition table that the
  `OrderStateMachine` constructor declares with `Initially`/`During`/`When`,
  and the `Then` actions that fill in the dates.
 */
module OrderSaga {

  import opened Wrappers
  import opened OrderMessages

  /** The machine's states: the built-in `Initial` and `Final`, and `Submitted`, `Accepted`. */
  datatype SagaState = Initial | Submitted | Accepted | Final

  /** A snapshot of an `OrderState` instance. */
  datatype Instance = Instance(
    correlationId: Guid,
    currentState: SagaState,
    dateAccepted: Option<Date>,
    dateFinalized: Option<Date>)

  /** What delivering an event to an instance gives: the updated instance, or no rule for it. */
  datatype Outcome = Handled(next: Instance) | Unhandled

  /** The instance the framework creates for a new correlation id, before any transition. */
  function NewInstance(id: Guid): Instance
  {
    Instance(id, Initial, None, None)
  }

  /**
    The declared transitions, as data: `Initially(When(OnSubmitted).TransitionTo(Submitted))`,
    `During(Submitted, When(OnAccepted)...TransitionTo(Accepted))` and
    `During(Accepted, When(OnFinalized)...Finalize())`. No other pair has a rule.
   */
  const Table: map<(SagaState, EventKind), SagaState> :=
    map[(Initial, OnSubmitted) := Submitted,
        (Submitted, OnAccepted) := Accepted,
        (Accepted, OnFinalized) := Final]

  /** Position of a state along Initial -> Submitted -> Accepted -> Final. */
  function Rank(s: SagaState): nat
  {
    match s
    case Initial => 0
    case Submitted => 1
    case Accepted => 2
    case Final => 3
  }

  /**
    One delivery, written per state as the constructor's blocks are. The
    contract relates the result to the declared table and says, field by
    field, what the `Then` actions write: `DateAccepted` only when unset,
    `DateFinalized` unconditionally, nothing else.
   */
  function Step(inst: Instance, e: Event): (r: Outcome)
    ensures r.Handled? <==> (inst.currentState, KindOf(e)) in Table
    ensures r.Handled? ==> r.next.currentState == Table[(inst.currentState, KindOf(e))]
    ensures r.Handled? ==> r.next.correlationId == inst.correlationId
    ensures r.Handled? ==>
              r.next.dateAccepted ==
              if e.AcceptOrder? && inst.dateAccepted.None? then Some(e.dateAccepted) else inst.dateAccepted
    ensures r.Handled? ==>
              r.next.dateFinalized ==
              if e.FinalizeOrder? then Some(e.dateFinalized) else inst.dateFinalized
  {
    match (inst.currentState, e)
    case (Initial, SubmitOrder(_)) =>
      Handled(inst.(currentState := Submitted))
    case (Submitted, AcceptOrder(_, accepted)) =>
      var date := if inst.dateAccepted.Some? then inst.dateAccepted else Some(accepted);
      Handled(inst.(dateAccepted := date, currentState := Accepted))
    case (Accepted, FinalizeOrder(_, _, finalized)) =>
      Handled(inst.(dateFinalized := Some(finalized), currentState := Final))
    case _ =>
      Unhandled
  }

  /** The instance after an event: the step's result, or the instance itself when no rule applies. */
  function Deliver(inst: Instance, e: Event): Instance
  {
    match Step(inst, e)
    case Handled(next) => next
    case Unhandled => inst
  }

  /** The instance after a sequence of events routed to it, in order. */
  function Run(inst: Instance, es: seq<Event>): Instance
    decreases |es|
  {
    if es == [] then inst else Run(Deliver(inst, es[0]), es[1..])
  }

  /** What the dates look like in each state of a reachable instance. */
  predicate Consistent(inst: Instance)
  {
    match inst.currentState
    case Initial => inst.dateAccepted.None? && inst.dateFinalized.None?
    case Submitted => inst.dateAccepted.None? && inst.dateFinalized.None?
    case Accepted => inst.dateAccepted.Some? && inst.dateFinalized.None?
    case Final => inst.dateAccepted.Some? && inst.dateFinalized.Some?
  }

  // ---------------------------------------------------------------------
  // The table
  // ---------------------------------------------------------------------

  /** Every declared transition moves exactly one stage forward, and `Final` has no rule. */
  lemma TableIsChain(s: SagaState, k: EventKind)
    ensures (s, k) in Table ==> Rank(Table[(s, k)]) == Rank(s) + 1
    ensures s == Final ==> (s, k) !in Table
    ensures (s, k) in Table <==>
      (s == Initial && k == OnSubmitted) || (s == Submitted && k == OnAccepted) || (s == Accepted && k == OnFinalized)
  {
  }

  // ---------------------------------------------------------------------
  // One delivery
  // ---------------------------------------------------------------------

  /** In `Initial` only `SubmitOrder` is handled; it yields `Submitted` and touches no date. */
  lemma InitialHandlesOnlySubmit(id: Guid, e: Event)
    ensures Step(NewInstance(id), e).Handled? <==> e.SubmitOrder?
    ensures e.SubmitOrder? ==> Step(NewInstance(id), e).next == Instance(id, Submitted, None, None)
  {
  }

  /** `AcceptOrder` in `Submitted` moves to `Accepted` and sets an unset `DateAccepted` to the message's date. */
  lemma AcceptInSubmitted(inst: Instance, id: Guid, d: Date)
    requires inst.currentState == Submitted
    ensures Step(inst, AcceptOrder(id, d)).Handled?
    ensures Step(inst, AcceptOrder(id, d)).next.currentState == Accepted
    ensures inst.dateAccepted.None? ==> Step(inst, AcceptOrder(id, d)).next.dateAccepted == Some(d)
    ensures Step(inst, AcceptOrder(id, d)).next.dateFinalized == inst.dateFinalized
  {
  }

  /** No delivery overwrites a `DateAccepted` that is already set. */
  lemma AcceptIsWriteOnce(inst: Instance, e: Event)
    requires inst.dateAccepted.Some?
    ensures Deliver(inst, e).dateAccepted == inst.dateAccepted
  {
  }

  /**
    `FinalizeOrder` in `Accepted` sets `DateFinalized` and moves to `Final`; the
    message's own `DateAccepted` is ignored.
   */
  lemma FinalizeInAccepted(inst: Instance, id: Guid, accepted: Date, finalized: Date)
    requires inst.currentState == Accepted
    ensures Step(inst, FinalizeOrder(id, accepted, finalized)) ==
      Handled(inst.(currentState := Final, dateFinalized := Some(finalized)))
  {
  }

  /** A pair with no declared rule is `Unhandled` and leaves the instance as it was. */
  lemma UndeclaredPairUnhandled(inst: Instance, e: Event)
    requires (inst.currentState, KindOf(e)) !in Table
    ensures Step(inst, e).Unhandled?
    ensures Deliver(inst, e) == inst
  {
  }

  /** A handled event advances the state by exactly one stage and keeps the correlation id. */
  lemma StepAdvancesOneStage(inst: Instance, e: Event)
    requires Step(inst, e).Handled?
    ensures Rank(Step(inst, e).next.currentState) == Rank(inst.currentState) + 1
    ensures Step(inst, e).next.correlationId == inst.correlationId
  {
  }

  /** Delivering any event keeps the date invariant of reachable instances. */
  lemma DeliverKeepsConsistent(inst: Instance, e: Event)
    requires Consistent(inst)
    ensures Consistent(Deliver(inst, e))
  {
  }

  // ---------------------------------------------------------------------
  // Sequences of deliveries
  // ---------------------------------------------------------------------

  /** States only move forward, and the correlation id never changes. */
  lemma {:induction false} RunAdvances(inst: Instance, es: seq<Event>)
    ensures Rank(inst.currentState) <= Rank(Run(inst, es).currentState)
    ensures Run(inst, es).correlationId == inst.correlationId
    decreases |es|
  {
    if es != [] {
      if Step(inst, es[0]).Handled? {
        StepAdvancesOneStage(inst, es[0]);
      }
      RunAdvances(Deliver(inst, es[0]), es[1..]);
    }
  }

  /** Every instance reached by deliveries from a consistent one is consistent. */
  lemma {:induction false} RunKeepsConsistent(inst: Instance, es: seq<Event>)
    requires Consistent(inst)
    ensures Consistent(Run(inst, es))
    decreases |es|
  {
    if es != [] {
      DeliverKeepsConsistent(inst, es[0]);
      RunKeepsConsistent(Deliver(inst, es[0]), es[1..]);
    }
  }

  /**
    Reachable-state invariant of a saga started by the framework: `Accepted`
    implies `DateAccepted` is set, `Final` implies both dates are set, and the
    instance keeps the id it was created for.
   */
  lemma ReachableInvariant(id: Guid, es: seq<Event>)
    ensures Consistent(Run(NewInstance(id), es))
    ensures Run(NewInstance(id), es).currentState == Accepted ==> Run(NewInstance(id), es).dateAccepted.Some?
    ensures Run(NewInstance(id), es).currentState == Final ==>
      Run(NewInstance(id), es).dateAccepted.Some? && Run(NewInstance(id), es).dateFinalized.Some?
    ensures Run(NewInstance(id), es).correlationId == id
  {
    RunKeepsConsistent(NewInstance(id), es);
    RunAdvances(NewInstance(id), es);
  }

  /**
    In a reachable run the `AcceptOrder` guard always finds `DateAccepted`
    unset: an instance in `Submitted` has never been accepted.
   */
  lemma AcceptGuardAlwaysOpen(id: Guid, es: seq<Event>)
    requires Run(NewInstance(id), es).currentState == Submitted
    ensures Run(NewInstance(id), es).dateAccepted.None?
  {
    RunKeepsConsistent(NewInstance(id), es);
  }

  /** Once set, `DateAccepted` keeps its first value through any later deliveries. */
  lemma {:induction false} RunDateAcceptedWriteOnce(inst: Instance, es: seq<Event>)
    requires inst.dateAccepted.Some?
    ensures Run(inst, es).dateAccepted == inst.dateAccepted
    decreases |es|
  {
    if es != [] {
      AcceptIsWriteOnce(inst, es[0]);
      RunDateAcceptedWriteOnce(Deliver(inst, es[0]), es[1..]);
    }
  }

  /** An instance in `Final` accepts no event and never changes again. */
  lemma {:induction false} FinalIsFrozen(inst: Instance, es: seq<Event>)
    requires inst.currentState == Final
    ensures Run(inst, es) == inst
    decreases |es|
  {
    if es != [] {
      UndeclaredPairUnhandled(inst, es[0]);
      FinalIsFrozen(inst, es[1..]);
    }
  }

  /**
    The mutable `OrderState` the framework hands to the `Then` actions. The
    correlation id is fixed when the framework creates the instance.
   */
  class OrderState {
    const correlationId: Guid
    var currentState: SagaState
    var dateAccepted: Option<Date>
    var dateFinalized: Option<Date>

    /** The instance's fields as a value. */
    function Snapshot(): Instance
      reads this
    {
      Instance(correlationId, currentState, dateAccepted, dateFinalized)
    }

    /** The instance created for a new correlation id, in `Initial` with no dates. */
    constructor (id: Guid)
      ensures Snapshot() == NewInstance(id)
    {
      correlationId := id;
      currentState := Initial;
      dateAccepted := None;
      dateFinalized := None;
    }

    /**
      Consumes one event routed to this instance: looks up the rule for the
      current state, runs its `Then` action on the fields in place, then
      transitions. Without a rule nothing changes.
     */
    method Consume(e: Event) returns (handled: bool)
      modifies this
      ensures handled == Step(old(Snapshot()), e).Handled?
      ensures Snapshot() == Deliver(old(Snapshot()), e)
    {
      var rule := (currentState, KindOf(e));
      if rule !in Table {
        return false;
      }
      match e {
        case AcceptOrder(_, accepted) =>
          if dateAccepted.None? {
            dateAccepted := Some(accepted);
          }
        case FinalizeOrder(_, _, finalized) =>
          dateFinalized := Some(finalized);
        case SubmitOrder(_) =>
      }
      currentState := Table[rule];
      handled := true;
    }
  }
}
