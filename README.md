# Order saga state machine

A Dafny model of the order saga of the MassTransit playground: the
`OrderState` saga instance, the `SubmitOrder`, `AcceptOrder` and
`FinalizeOrder` messages, and the `OrderStateMachine` that correlates each
message to an instance by its `OrderId` and moves the instance through
`Initial -> Submitted -> Accepted -> Final`.

- `wrappers.dfy`: `Option`, for the nullable `DateTime?` fields.
- `order_messages.dfy` (module `OrderMessages`): the three message records, the
  machine's three events, and correlation by `OrderId`. `Guid` is an opaque type
  compared only for equality. `Date` is the year, month and day that
  `new DateTime(y, m, d)` takes, also compared only for equality.
- `order_saga.dfy` (module `OrderSaga`):
  - `Table` is the declared transition table, held as data.
  - `Step` is the per-state step rule. Its contract ties it to `Table` and to
    what the `Then` actions write.
  - `Run` applies a sequence of deliveries to one instance.
  - `Consistent` states which dates are set in each state.
  - The class `OrderState` is the mutable instance. Its method `Consume` looks up
    the rule, runs the `Then` action on the fields in place and transitions. It
    is proved to do exactly what `Step` specifies.
- `saga_dispatch.dfy` (module `SagaDispatch`): a map from correlation id to
  instance. `Dispatch` routes one event to the entry keyed by its `OrderId`. A
  `SubmitOrder` for an unknown id creates the instance. Every other event for an
  unknown id is `Unmatched` and creates nothing. Lemmas show that each id's entry
  evolves independently of all other ids.
- `order_scenario.dfy` (module `OrderScenario`): the end-to-end test scenario,
  both through the store and on one `OrderState` object.

Notes on behaviour the model follows from the code:

- `Finalize()` moves the instance to `Final`. Nothing in the machine marks
  final instances as completed, so the instance stays stored in `Final`. The
  test looks it up there (test/SagaStateMachineTest.cs:95-96).
- Only `DateAccepted` has a write-once guard. `DateFinalized` is assigned
  unconditionally (src/SagaStateMachine.cs:79). It still cannot change after
  being set, because `Final` has no rules.
- In every reachable run the guard `!DateAccepted.HasValue` always holds
  (`AcceptGuardAlwaysOpen`). An instance in `Submitted` has never been accepted,
  so the guard's other branch only matters for an instance built some other way.
  The write-once property is proved for arbitrary instances as well
  (`AcceptIsWriteOnce`, `RunDateAcceptedWriteOnce`).
- The `FinalizeOrder` message's own `DateAccepted` is never read
  (`FinalizeInAccepted`).

## Model

| member | source | states |
|---|---|---|
| `OrderMessages.KindOf` | src/SagaStateMachine.cs:44-48 | each message record is delivered as exactly one of the machine's three events |
| `OrderSaga.Step` | src/SagaStateMachine.cs:58-82 | a step is handled exactly when the (state, event) pair is declared; the new state is the declared target; the correlation id is kept; `DateAccepted` is written only by `AcceptOrder` and only when unset; `DateFinalized` is written only by `FinalizeOrder`, with the message's date |
| `OrderSaga.TableIsChain` | src/SagaStateMachine.cs:58-82 | the table declares exactly three rules, each moving one stage forward, and none from `Final` |
| `OrderSaga.InitialHandlesOnlySubmit` | src/SagaStateMachine.cs:58-61 | a new instance handles only `SubmitOrder`, which yields `Submitted` with both dates unset |
| `OrderSaga.AcceptInSubmitted` | src/SagaStateMachine.cs:63-73 | `AcceptOrder` in `Submitted` moves to `Accepted`, sets an unset `DateAccepted` to the message's date and leaves `DateFinalized` alone |
| `OrderSaga.AcceptIsWriteOnce` | src/SagaStateMachine.cs:67-70 | no event overwrites a `DateAccepted` that is already set |
| `OrderSaga.FinalizeInAccepted` | src/SagaStateMachine.cs:75-82 | `FinalizeOrder` in `Accepted` sets `DateFinalized`, moves to `Final` and changes nothing else, ignoring the message's `DateAccepted` |
| `OrderSaga.UndeclaredPairUnhandled` | src/SagaStateMachine.cs:58-82 | every undeclared (state, event) pair is `Unhandled` and leaves the instance unchanged |
| `OrderSaga.StepAdvancesOneStage` | src/SagaStateMachine.cs:58-82 | a handled event advances the state by exactly one stage and keeps the correlation id |
| `OrderSaga.DeliverKeepsConsistent` | src/SagaStateMachine.cs:63-82 | one delivery preserves the per-state date invariant |
| `OrderSaga.RunAdvances` | src/SagaStateMachine.cs:58-82 | along any sequence of deliveries the state never moves backwards and the correlation id never changes |
| `OrderSaga.RunKeepsConsistent` | src/SagaStateMachine.cs:58-82 | any sequence of deliveries preserves the per-state date invariant |
| `OrderSaga.ReachableInvariant` | src/SagaStateMachine.cs:58-82 | every instance reachable from creation keeps its id; in `Accepted` `DateAccepted` is set; in `Final` both dates are set |
| `OrderSaga.AcceptGuardAlwaysOpen` | src/SagaStateMachine.cs:67-70 | in every reachable run an instance in `Submitted` has `DateAccepted` unset |
| `OrderSaga.RunDateAcceptedWriteOnce` | src/SagaStateMachine.cs:67-70 | once set, `DateAccepted` keeps its first value through any later deliveries |
| `OrderSaga.FinalIsFrozen` | src/SagaStateMachine.cs:75-82 | an instance in `Final` never changes again, whatever is delivered |
| `OrderSaga.OrderState.constructor` | src/SagaStateMachine.cs:5-14 | a new instance has the given correlation id, is in `Initial` and has no dates |
| `OrderSaga.OrderState.Consume` | src/SagaStateMachine.cs:58-82 | consuming an event in place reports whether a rule applied and leaves the fields exactly as `Step` specifies, or unchanged |
| `SagaDispatch.Dispatch` | src/SagaStateMachine.cs:54-56 | an event changes only the entry keyed by its `OrderId`; that entry becomes the step's result; only `SubmitOrder` for an unknown id creates an entry; an unhandled event leaves the store unchanged |
| `SagaDispatch.DispatchKeepsInvariant` | src/SagaStateMachine.cs:54-82 | one delivery keeps every entry under its own id, out of `Initial` and with consistent dates |
| `SagaDispatch.DispatchAllKeepsInvariant` | src/SagaStateMachine.cs:54-82 | any sequence of deliveries keeps that store invariant |
| `SagaDispatch.RoutingIsolatesInstances` | src/SagaStateMachine.cs:54-56 | after any sequence of deliveries, each id's entry is what the events routed to that id alone make of it |
| `SagaDispatch.OtherIdsUntouched` | src/SagaStateMachine.cs:54-56 | events for other ids leave an id's entry as it was, present or absent |
| `SagaDispatch.NonInitialEventCreatesNothing` | src/SagaStateMachine.cs:58-61 | an `AcceptOrder` or `FinalizeOrder` for an unknown id is `Unmatched` and creates no instance |
| `SagaDispatch.DuplicateSubmitIgnored` | src/SagaStateMachine.cs:58-63 | a repeated `SubmitOrder` creates no second instance and does not move the first |
| `SagaDispatch.AcceptTwiceKeepsFirst` | src/SagaStateMachine.cs:63-73 | of two `AcceptOrder`s to a submitted order, the first date (or the one already there) is kept |
| `SagaDispatch.FinalInstanceIsFrozen` | src/SagaStateMachine.cs:75-82 | a stored instance in `Final` stays stored and unchanged under any deliveries |
| `OrderScenario.ScenarioReachesFinal` | test/SagaStateMachineTest.cs:37-99 | for a fresh id, submit creates `Submitted`, accept gives `Accepted` with 2012-12-25, and finalize gives `Final` with 2012-12-25 and 2012-12-31 |
| `OrderScenario.ScenarioIgnoresLateMessages` | src/SagaStateMachine.cs:58-82 | in that scenario, a second `AcceptOrder` in `Accepted` and a `SubmitOrder` after `Final` are `Unmatched` and change nothing |
| `OrderScenario.ScenarioOnObject` | test/SagaStateMachineTest.cs:37-99 | the same three messages consumed in place by one `OrderState` are all handled and end in `Final` with both dates |

## Left out

- The test harness, dependency injection, bus publishing, async/await, time-outs and the timeline output: framework and I/O plumbing.
- What the framework does with an unhandled event, or with a non-initial event for an unknown id (an exception or a drop). That code lives inside MassTransit and is not part of this model. The model returns `Unhandled` from a step and `Unmatched` from a dispatch.
- The in-memory saga repository, concurrent delivery, versions, compare-and-swap and retries: the source has no code for them. Deliveries are modelled one at a time, in order.
- Completion and archival of final instances: the machine does not configure completion, so final instances stay stored.
- `DateTime` arithmetic, time of day and `Guid.NewGuid()`: dates and ids are opaque values compared only for equality.
- The string encoding of `CurrentState` (`InstanceState(x => x.CurrentState)`): a datatype of states stands for it.
