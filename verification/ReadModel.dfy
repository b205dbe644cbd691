/** The order read model: what one message does to one row. */
module ReadModel {
  import opened Results
  import opened OrderValues
  import opened OrderAggregate
  import opened EventStore

  datatype Row = Row(customer: CustomerId, status: Status, totalMinor: int, currency: string, version: nat, placedAt: Time)

  /** INSERT ... ON CONFLICT DO UPDATE ... WHERE EXCLUDED.version >= version. */
  function Upserted(row: Option<Row>, p: Row): Row {
    if row.Some? && p.version < row.value.version then row.value else p
  }

  /** UPDATE ... WHERE order_id; nothing when there is no row. */
  function WithStatus(row: Option<Row>, status: Status): Option<Row> {
    if row.Some? then Some(row.value.(status := status)) else None
  }

  /** The row that a placement writes: the code always gives it version 1. */
  function PlacedRow(m: Message): Row
    requires m.PlacedMessage?
  {
    Row(m.customer, Pending, m.totalMinor, m.currency, 1, m.placedAt)
  }

  /** Service.Apply, by message type. */
  function Project(row: Option<Row>, m: Message): Option<Row> {
    match m
    case PlacedMessage(_, _, _, _, _, _, _) => Some(Upserted(row, PlacedRow(m)))
    case ConfirmedMessage(_, _) => WithStatus(row, Confirmed)
    case CancelledMessage(_, _, _) => WithStatus(row, Cancelled)
  }

  function StatusOf(m: Message): Status {
    match m
    case PlacedMessage(_, _, _, _, _, _, _) => Pending
    case ConfirmedMessage(_, _) => Confirmed
    case CancelledMessage(_, _, _) => Cancelled
  }

  /** The row an order's log calls for. */
  function Folded(history: seq<Event>): Row
    requires history != [] && history[0].OrderPlaced?
  {
    var v := Fold(history);
    Row(v.customer, v.status, v.total.minor, v.total.currency, 1, history[0].at)
  }

  /** Everything but the status comes from the placement. */
  predicate SameOrder(row: Row, placed: Message)
    requires placed.PlacedMessage?
  {
    row == PlacedRow(placed).(status := row.status)
  }

  /** A message of the order leaves its status in the row, and the placement's fields as they are. */
  lemma ProjectKeeps(row: Option<Row>, placed: Message, m: Message)
    requires placed.PlacedMessage? && (m.PlacedMessage? ==> m == placed)
    requires row.Some? ==> SameOrder(row.value, placed)
    requires row == None ==> m == placed
    ensures Project(row, m).Some?
    ensures SameOrder(Project(row, m).value, placed) && Project(row, m).value.status == StatusOf(m)
  {
  }

  /**
    A redelivered placement sets a settled order back to PENDING until what follows
    it is delivered again: the version guard never refuses, as all placements carry
    version 1. It leaves the row alone exactly when the order is pending.
  */
  lemma RedeliveryGoesBack(row: Row, placed: Message)
    requires placed.PlacedMessage? && SameOrder(row, placed)
    ensures Project(Some(row), placed) == Some(row.(status := Pending))
    ensures Project(Some(row), placed) == Some(row) <==> row.status == Pending
  {
  }

  lemma FoldedIsLast(o: OrderId, history: seq<Event>)
    requires GoodLog(o, history)
    ensures MessageOf(history[0]).PlacedMessage?
    ensures var row, e := Folded(history), history[0];
      && row.customer == e.customer && row.totalMinor == e.total.minor && row.currency == e.total.currency
      && row.version == 1 && row.placedAt == e.at
      && (row.status == Confirmed <==> history[|history| - 1].OrderConfirmed?)
      && (row.status == Cancelled <==> history[|history| - 1].OrderCancelled?)
    ensures Folded(history) == PlacedRow(MessageOf(history[0])).(status := StatusOf(MessageOf(history[|history| - 1])))
  {
    GoodLogFolds(o, history);
  }
}
