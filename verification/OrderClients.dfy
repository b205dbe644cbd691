/**
  How the order service reads the answers of the inventory and payment services.
  A status and a code travel over HTTP; both ends of their meaning are here.
*/
module OrderClients {
  import opened StockLedger
  import opened InventoryMachine
  import opened InventoryRefinement

  datatype HttpReply = HttpReply(status: int, code: string)

  // ---- the inventory side ----

  /** The handlers' success statuses, and classify for errors. */
  function InventoryReply(outcome: Outcome): HttpReply {
    match outcome
    case Granted => HttpReply(201, "")
    case Existing(_) => HttpReply(200, "")
    case Done => HttpReply(200, "")
    case AlreadyDone => HttpReply(200, "")
    case Invalid => HttpReply(400, "VALIDATION_ERROR")
    case UnknownSku(_) => HttpReply(404, "NOT_FOUND")
    case NotFound => HttpReply(404, "NOT_FOUND")
    case Insufficient(_) => HttpReply(409, "INSUFFICIENT_STOCK")
    case Conflict => HttpReply(409, "CONFLICT")
    case InvalidState => HttpReply(409, "INVALID_STATE")
    case Internal => HttpReply(500, "INTERNAL")
  }

  // ---- the order side ----

  datatype Verdict = Success | Rejected | Retry

  /** The switch in Client.Reserve. */
  function ReserveVerdict(r: HttpReply): Verdict {
    if 200 <= r.status < 300 then Success
    else if r.status == 409 && r.code == "CONFLICT" then Retry
    else if 400 <= r.status < 500 then Rejected
    else Retry
  }

  /** The switch in Client.transition. */
  function MoveVerdict(r: HttpReply): Verdict {
    if 200 <= r.status < 300 then Success
    else if r.status == 409 && r.code == "INVALID_STATE" then Success
    else Retry
  }

  /**
    The two switches fit together: a reserve is rejected exactly for an unknown
    SKU or insufficient stock, and retried exactly when nothing was decided.
  */
  lemma ReserveReadsTrue(order: OrderId, lines: seq<Line>, outcome: Outcome)
    requires PossibleAnswer(ReserveCall(order, lines), outcome)
    ensures var v := ReserveVerdict(InventoryReply(outcome));
      && (v == Success <==> outcome == Granted || outcome.Existing?)
      && (v == Rejected <==> outcome.UnknownSku? || outcome.Insufficient?)
      && (v == Retry <==> outcome in {Conflict, Internal})
  {
  }

  lemma MoveReadsTrue(order: OrderId, op: Op, outcome: Outcome)
    requires PossibleAnswer(MoveCall(order, op), outcome)
    ensures var v := MoveVerdict(InventoryReply(outcome));
      && (v == Success <==> outcome in {Done, AlreadyDone, InvalidState})
      && (v == Retry <==> outcome in {NotFound, Conflict, Internal})
  {
  }

  // ---- payment ----

  datatype PaymentResult = PaymentResult(approved: bool, reference: string, decline: string)

  /** What one HTTP call to the payment service comes back with. */
  datatype CaptureReply =
    | NoReply                                                  // transport error, or an unreadable body
    | StatusOnly(status: int)                                  // an error status
    | Body(status: int, approved: bool, reference: string, decline: string)
    | Garbled(status: int)                                     // a 2xx that does not parse

  datatype Attempt = Answered(result: PaymentResult) | Retryable | Failed

  /** authorizeOnce */
  function AuthorizeOnce(r: CaptureReply): (a: Attempt)
    ensures a == Retryable <==> r.NoReply? || r.status >= 500 || r.status == 429
    ensures a.Answered? <==> r.Body? && 200 <= r.status < 300
    ensures a.Answered? ==> a.result.approved == r.approved
    ensures a.Answered? ==> if r.approved then a.result.reference == r.reference else a.result.decline == r.decline
  {
    if r.NoReply? then Retryable
    else if r.status >= 500 || r.status == 429 then Retryable
    else if r.status < 200 || r.status >= 300 then Failed
    else match r
      case Body(_, approved, reference, decline) =>
        Answered(if approved then PaymentResult(true, reference, "") else PaymentResult(false, "", decline))
      case _ => Failed
  }

  const MAX_CAPTURES: nat := 4
}
