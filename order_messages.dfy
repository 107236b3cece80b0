/**
  The three messages the order saga consumes, and the identifiers and dates
  they carry. Identifiers and dates are compared only for equality.
 */
module OrderMessages {

  /** A 128-bit `Guid`, used only as an opaque key. */
  type Guid(==, !new)

  /** A calendar date as `new DateTime(year, month, day)` builds it. */
  datatype Date = Date(year: int, month: int, day: int)

  /** The `SubmitOrder`, `AcceptOrder` and `FinalizeOrder` records. */
  datatype Event =
    | SubmitOrder(orderId: Guid)
    | AcceptOrder(orderId: Guid, dateAccepted: Date)
    | FinalizeOrder(orderId: Guid, dateAccepted: Date, dateFinalized: Date)

  /** The state machine's events `OnSubmitted`, `OnAccepted` and `OnFinalized`, one per record type. */
  datatype EventKind = OnSubmitted | OnAccepted | OnFinalized

  /** The event a message is delivered as: each record type has exactly one event. */
  function KindOf(e: Event): (k: EventKind)
    ensures k == OnSubmitted <==> e.SubmitOrder?
    ensures k == OnAccepted <==> e.AcceptOrder?
    ensures k == OnFinalized <==> e.FinalizeOrder?
  {
    match e
    case SubmitOrder(_) => OnSubmitted
    case AcceptOrder(_, _) => OnAccepted
    case FinalizeOrder(_, _, _) => OnFinalized
  }

  /** Every event is correlated by the message's `OrderId`. */
  function CorrelateById(e: Event): Guid
  {
    e.orderId
  }
}
