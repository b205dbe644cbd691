/** What the saga guarantees in every run, and over all orders once the sagas have ended. */
module SagaOutcome {
  import opened Results
  import opened MapSum
  import opened StockLedger
  import opened InventoryMachine
  import opened Saga
  import Domain = InventoryDomain
  import Order = OrderAggregate

  // ---- one order ----

  /**
    Saga outcome. Completed: the order is confirmed, its stock committed, and a
    payment of the order's total was captured under the reference on record.
    Cancelled: the order is cancelled, nothing is held, and there is no payment
    or a refused one.
  */
  lemma OutcomeIsConsistent(w: World, o: OrderId)
    requires Saga.Reachable(w) && o in w.orders && w.orders[o].saga.Some?
    ensures var r, i := w.orders[o], w.orders[o].saga.value;
      && (i.state == Completed ==>
            && r.status == Order.Confirmed && ResOf(w.db, o) == Some(Committed)
            && CapturedUnder(r.pay, i.reference) && r.pay.value.amount == r.placed.total)
      && (i.state == Saga.Cancelled ==>
            && r.status == Order.Cancelled
            && ((ResOf(w.db, o) == None && r.pay == None) || (ResOf(w.db, o) == Some(Released) && Refused(r.pay))))
  {
    ReachableInv(w);
    assert OrderOk(w.orders[o], ResOf(w.db, o));
  }

  /**
    Whenever the handler takes a release or commit as done, the reservation is in
    that state, and the answer was not INVALID_STATE: reading that code as success is sound.
  */
  lemma DoneMeansDone(w: World, o: OrderId, a: Answer)
    requires Saga.Reachable(w) && Saga.Enabled(w, Act(o, a)) && CallOf(o, w.orders[o]).Some?
    ensures var call, w' := CallOf(o, w.orders[o]).value, Saga.Step(w, Act(o, a));
      call.MoveCall? ==> ResOf(w'.db, o) == Some(TargetOf(call.op)) && a.outcome != InvalidState
  {
    ReachableInv(w);
    assert OrderOk(w.orders[o], ResOf(w.db, o));
    AnswerMeans(w.db, o, w.orders[o], a);
  }

  /**
    A reservation is made at most once, released only while the payment is
    refused, and committed only after the saga recorded an approval; both are final.
  */
  lemma ReservationMoves(w: World, l: Label, o: OrderId)
    requires Saga.Reachable(w) && Saga.Enabled(w, l) && o in w.orders
    ensures var before, after := ResOf(w.db, o), ResOf(Saga.Step(w, l).db, o);
      before != after ==>
        || (before == None && after == Some(Held))
        || (before == Some(Held) && after == Some(Released) && Refused(w.orders[o].pay))
        || (before == Some(Held) && after == Some(Committed)
            && w.orders[o].saga.Some? && w.orders[o].saga.value.state == Paid
            && CapturedUnder(w.orders[o].pay, w.orders[o].saga.value.reference))
  {
    ReachableInv(w);
    match l
    case Act(p, a) =>
      assert OrderOk(w.orders[p], ResOf(w.db, p));
      if p == o {
        if CallOf(o, w.orders[o]).Some? { AnswerMeans(w.db, o, w.orders[o], a); }
      } else if CallOf(p, w.orders[p]).Some? {
        CallKeepsLedger(w.db, w.orders, CallOf(p, w.orders[p]).value, a.outcome);
      }
    case _ =>
  }

  // ---- progress is never lost ----

  function Rank(saga: Option<Instance>): nat {
    match saga
    case None => 0
    case Some(i) =>
      match i.state
      case Started => 1
      case Reserved => 2
      case Paid => 3
      case Completed => 4
      case Cancelled => 4
  }

  lemma StepRank(w: World, l: Label, o: OrderId)
    requires Saga.Inv(w) && Saga.Enabled(w, l) && o in w.orders
    ensures var w' := Saga.Step(w, l);
      && o in w'.orders && w'.orders[o].placed == w.orders[o].placed
      && Rank(w.orders[o].saga) <= Rank(w'.orders[o].saga)
      && (Rank(w.orders[o].saga) == 4 ==> w'.orders[o].saga == w.orders[o].saga && w'.orders[o].status == w.orders[o].status)
  {
    if l.Act? && l.order == o {
      assert OrderOk(w.orders[o], ResOf(w.db, o));
    }
  }

  /** In every run the persisted state only moves up, and an ended saga never changes again. */
  lemma {:induction false} ProgressIsKept(w: World, ls: seq<Label>, w': World, o: OrderId)
    requires Saga.Inv(w) && Saga.Steps(w, ls, w') && o in w.orders
    ensures o in w'.orders && Rank(w.orders[o].saga) <= Rank(w'.orders[o].saga)
    ensures Rank(w.orders[o].saga) == 4 ==> w'.orders[o].saga == w.orders[o].saga && w'.orders[o].status == w.orders[o].status
    decreases |ls|
  {
    if ls != [] {
      StepRank(w, ls[0], o);
      Saga.StepKeeps(w, ls[0]);
      ProgressIsKept(Saga.Step(w, ls[0]), ls[1..], w', o);
    }
  }

  /** Handling a redelivered event of an ended saga is one read and changes nothing at all. */
  lemma RedeliveryChangesNothing(w: World, o: OrderId, a: Answer)
    requires o in w.orders && w.orders[o].run == None
    requires w.orders[o].saga.Some? && w.orders[o].saga.value.Terminal()
    ensures Saga.Enabled(w, Deliver(o)) && Saga.Enabled(Saga.Step(w, Deliver(o)), Act(o, a))
    ensures Saga.Step(Saga.Step(w, Deliver(o)), Act(o, a)) == w
  {
    var w1 := Saga.Step(w, Deliver(o));
    var w2 := Saga.Step(w1, Act(o, a));
    assert w2.orders[o] == w.orders[o];
    assert w2.orders == w.orders;
  }

  // ---- the whole system ----

  ghost predicate AllEnded(w: World) {
    forall o | o in w.orders :: w.orders[o].saga.Some? && w.orders[o].saga.value.Terminal()
  }

  function ConfirmedQty(r: Record, sku: Sku): int {
    if r.status == Order.Confirmed then QtyOf(r.placed.lines, sku) else 0
  }

  function ConfirmedShares(orders: map<OrderId, Record>, sku: Sku): map<OrderId, int> {
    map o | o in orders :: ConfirmedQty(orders[o], sku)
  }

  /** Quantity of one SKU over exactly the confirmed orders. */
  ghost function Sold(w: World, sku: Sku): int {
    Sum(ConfirmedShares(w.orders, sku))
  }

  lemma SortedQty(lines: seq<Line>, sku: Sku)
    requires ValidLines(lines)
    ensures QtyOf(Domain.SortLines(lines), sku) == QtyOf(lines, sku)
  {
    Domain.SortLinesSpec(lines);
    SameLinesQty(Domain.SortLines(lines), lines, sku);
  }

  /** An ended order has committed stock exactly when it is confirmed, and holds none. */
  lemma EndedShare(w: World, o: OrderId, sku: Sku)
    requires Saga.Inv(w) && o in w.db.res
    requires o in w.orders && w.orders[o].saga.Some? && w.orders[o].saga.value.Terminal()
    ensures Share(w.db.res[o], Held, sku) == 0
    ensures Share(w.db.res[o], Committed, sku) == ConfirmedQty(w.orders[o], sku)
  {
    assert OrderOk(w.orders[o], ResOf(w.db, o));
    SortedQty(w.orders[o].placed.lines, sku);
  }

  lemma NothingHeld(w: World, sku: Sku)
    requires Saga.Inv(w) && AllEnded(w)
    ensures QtyIn(w.db.res, Held, sku) == 0
  {
    forall o | o in w.db.res ensures Share(w.db.res[o], Held, sku) == 0 {
      EndedShare(w, o, sku);
    }
    SumZero(Shares(w.db.res, Held, sku));
  }

  lemma ShippedIsSold(w: World, sku: Sku)
    requires Saga.Inv(w) && AllEnded(w)
    ensures QtyIn(w.db.res, Committed, sku) == Sold(w, sku)
  {
    var shipped, sold := Shares(w.db.res, Committed, sku), ConfirmedShares(w.orders, sku);
    forall o | o in shipped ensures shipped[o] == sold[o] {
      EndedShare(w, o, sku);
    }
    forall o | o in sold && o !in shipped ensures sold[o] == 0 {
      assert OrderOk(w.orders[o], ResOf(w.db, o));
    }
    SumAgree(shipped, sold);
  }

  /**
    Whole system: once all sagas have ended, no stock is reserved, and what has
    left of each SKU is the quantity over exactly the confirmed orders.
  */
  lemma AllEndedBalance(w: World, sku: Sku)
    requires Saga.Reachable(w) && AllEnded(w)
    ensures sku in w.db.stock ==> w.db.stock[sku].reserved == 0
    ensures QtyIn(w.db.res, Committed, sku) == Sold(w, sku)
  {
    ReachableInv(w);
    NothingHeld(w, sku);
    ShippedIsSold(w, sku);
  }
}
