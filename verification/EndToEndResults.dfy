/** What an order's own log, the stock, the payments and the read model say in every run. */
module EndToEndResults {
  import opened Results
  import opened MapSum
  import opened StockLedger
  import opened Saga
  import opened SagaOutcome
  import opened EndToEnd
  import Codec
  import Sys = System
  import Parts = WholeSystem
  import Refinement = InventoryRefinement
  import Recovery = SagaRecovery
  import Log = EventStore
  import Logs = EventStoreInvariant
  import Topic = EventStream
  import Topics = EventStreamInvariant
  import Order = OrderAggregate
  import Pays = PaymentDomain
  import Values = OrderValues

  /**
    Refinement of everything: in every run the parts are in states of their own
    machines, and the orders that the sagas see are exactly those with a log, with the
    lines, total and currency of the first event and in the status that the last event gives.
  */
  lemma SagasFollowLogs(d: Whole)
    requires EndToEnd.Reachable(d)
    ensures Sys.Reachable(d.sys) && Topic.Reachable(d.stream) && OrdersOf(d).Keys == LogOf(d).Keys
    ensures forall o | o in LogOf(d) :: Follows(OrdersOf(d)[o], LogOf(d)[o])
  {
    ReachableWhole(d);
    StoreReachable(d.stream);
    forall o | o in LogOf(d) ensures Follows(OrdersOf(d)[o], LogOf(d)[o]) {
      Logs.LogAndOutbox(d.stream.store, o);
      MatchFollows(o, OrdersOf(d)[o], LogOf(d)[o]);
    }
  }

  lemma MatchFollows(o: OrderId, r: Record, history: seq<Order.Event>)
    requires LogMatches(r, history) && Order.GoodLog(o, history)
    ensures Follows(r, history)
  {
  }

  /** The saga's record says what the log of its order says. */
  predicate Follows(r: Record, history: seq<Order.Event>) {
    && history != [] && history[0].OrderPlaced?
    && r.placed.total == history[0].total.minor && r.placed.currency == history[0].total.currency
    && |r.placed.lines| == |history[0].items|
    && (forall i | 0 <= i < |history[0].items| ::
          r.placed.lines[i].sku == history[0].items[i].sku && r.placed.lines[i].qty == history[0].items[i].qty)
    && (r.status == Order.Confirmed <==> history[|history| - 1].OrderConfirmed?)
    && (r.status == Order.Cancelled <==> history[|history| - 1].OrderCancelled?)
  }

  /** What is charged is what was placed: every stored payment is for the total of an order's first event, in its currency. */
  lemma ChargedIsPlaced(d: Whole, id: Pays.PayId)
    requires EndToEnd.Reachable(d) && id in d.sys.pay.rows
    ensures var p := d.sys.pay.rows[id];
      && p.order in LogOf(d) && LogOf(d)[p.order] != [] && LogOf(d)[p.order][0].OrderPlaced?
      && p.amount == LogOf(d)[p.order][0].total.minor && p.currency == LogOf(d)[p.order][0].total.currency
  {
    SagasFollowLogs(d);
    var o := d.sys.pay.rows[id].order;
    Parts.SystemRefinesWorld(d.sys);
    assert o in LogOf(d);
    Parts.StoredPayment(d.sys, o);
    assert Parts.StoredFor(d.sys.pay.rows, o, id);
    assert Follows(OrdersOf(d)[o], LogOf(d)[o]);
  }

  // ---- what is delivered, and what a confirm or cancel finds ----

  /** Whatever placement of an order is on the topic, it says what the saga's order is. */
  lemma DeliveredIsPlaced(d: Whole, o: OrderId, p: nat)
    requires EndToEnd.Reachable(d) && p < |Topic.TopicOf(d.stream, o)| && IsPlacement(d.stream, Topic.TopicOf(d.stream, o)[p])
    ensures o in OrdersOf(d)
    ensures OrdersOf(d)[o].placed == PlacedOf(d.stream.store.outbox[Topic.TopicOf(d.stream, o)[p]].message)
  {
    ReachableWhole(d);
    Topics.ReachableStream(d.stream);
    var marked := Topics.KeyOf(d.stream, o);
    OnlyPlacement(d.stream, o, marked, p);
    assert LogMatches(OrdersOf(d)[o], LogOf(d)[o]);
  }

  lemma OnlyPlacement(stream: Topic.Stream, o: OrderId, marked: nat, p: nat)
    requires Log.Reachable(stream.store) && Topics.KeyOk(stream, o, marked)
    requires p < |Topic.TopicOf(stream, o)| && IsPlacement(stream, Topic.TopicOf(stream, o)[p])
    ensures o in stream.store.log && stream.store.log[o] != []
    ensures stream.store.outbox[Topic.TopicOf(stream, o)[p]].message == Log.MessageOf(stream.store.log[o][0])
  {
    var topic, ids := Topic.TopicOf(stream, o), Topic.IdsOf(stream, o);
    Topics.IdsFacts(stream.store, o);
    assert Topics.TopicOrder.Known(topic, ids, p);
    var j :| 0 <= j < |ids| && ids[j] == topic[p];
    assert stream.store.outbox[ids[j]].message == Log.MessageOf(Log.LogAt(stream.store, o)[j]);
  }

  /**
    The step in which the saga's machine confirms or cancels an order is possible
    exactly when the handler on the event store is not refused for good.
  */
  lemma GrantedUnlessHopeless(d: Whole, o: OrderId, c: Order.Command)
    requires EndToEnd.Reachable(d) && o in OrdersOf(d) && CommandOf(OrdersOf(d)[o]) == Some(c)
    ensures o in LogOf(d)
    ensures MayAct(d.sys.world.db, o, OrdersOf(d)[o], NoAnswer) <==> !Logs.Hopeless(c, LogOf(d)[o])
  {
    ReachableWhole(d);
    StoreReachable(d.stream);
    assert LogMatches(OrdersOf(d)[o], LogOf(d)[o]);
    Logs.LogAndOutbox(d.stream.store, o);
  }

  /**
    The counterpart for charging: payment opens what an order is charged exactly when
    its total is positive, as the currency of every stored order is three long.
  */
  lemma ChargedUnlessFree(d: Whole, o: OrderId)
    requires EndToEnd.Reachable(d) && o in OrdersOf(d)
    ensures o in LogOf(d) && LogOf(d)[o] != [] && LogOf(d)[o][0].OrderPlaced?
    ensures Chargeable(OrdersOf(d)[o]) <==> LogOf(d)[o][0].total.minor > 0
    ensures var r := OrdersOf(d)[o];
      r.run.Some? && r.run.value.pc == Authorizing && r.pay == None ==>
        ((exists a :: MayAct(d.sys.world.db, o, r, a)) <==> LogOf(d)[o][0].total.minor > 0)
  {
    ReachableWhole(d);
    StoreReachable(d.stream);
    assert LogMatches(OrdersOf(d)[o], LogOf(d)[o]);
    StoredCurrency(d.stream.store, o);
    var r := OrdersOf(d)[o];
    if r.run.Some? && r.run.value.pc == Authorizing && Chargeable(r) {
      assert MayAct(d.sys.world.db, o, r, Charge(true, "", ""));
    }
  }

  lemma StoredCurrency(s: Log.State, o: OrderId)
    requires Log.Reachable(s) && o in s.log
    ensures s.log[o] != [] && s.log[o][0].OrderPlaced? && |s.log[o][0].total.currency| == 3
  {
    Logs.ReachableInv(s);
    var e := s.log[o][0];
    assert Values.CanonicalItem(e.items[0]);
  }

  // ---- why a log ends as it does ----

  /** Nothing, or one event of the order that does what its saga's handler is at, for the handler's reason. */
  predicate Appended(o: OrderId, r: Record, before: seq<Order.Event>, after: seq<Order.Event>) {
    || after == before
    || (&& |after| == |before| + 1 && after[..|before|] == before && after[|before|].order == o && r.run.Some?
        && match r.run.value.pc
           case CancellingOrder(reason) => after[|before|].OrderCancelled? && after[|before|].reason == reason
           case Confirming => after[|before|].OrderConfirmed?
           case _ => false)
  }

  lemma CommandAppends(d: Whole, o: OrderId, r: Record, x: Log.Writer)
    requires Log.Reachable(d.stream.store) && May(d, CommandStep(o)) && o in LogOf(d)
    requires (d.commands[o], x) in WritersOf(d).Items && CommandMatches(o, r, x)
    ensures var log' := LogOf(Do(d, CommandStep(o)));
      o in log' && log' == LogOf(d)[o := log'[o]] && Appended(o, r, LogOf(d)[o], log'[o])
  {
    ExecChanges(d.stream.store, d.commands[o]);
    Logs.CommandIsAtomic(d.stream.store, d.commands[o]);
  }

  /**
    In every run the log of an order changes only by the confirm or cancel that its own
    saga is at, and a cancelled order's event gives the saga's reason.
  */
  lemma OnlyItsSaga(d: Whole, h: Happening, o: OrderId)
    requires EndToEnd.Reachable(d) && May(d, h) && o in LogOf(d)
    ensures var d' := Do(d, h);
      && o in OrdersOf(d) && o in LogOf(d') && Appended(o, OrdersOf(d)[o], LogOf(d)[o], LogOf(d')[o])
      && (h != CommandStep(o) ==> LogOf(d')[o] == LogOf(d)[o])
  {
    ReachableWhole(d);
    StoreReachable(d.stream);
    if h.CommandStep? {
      assert CommandMatches(h.order, OrdersOf(d)[h.order], WritersOf(d)[d.commands[h.order]]);
      CommandAppends(d, h.order, OrdersOf(d)[h.order], WritersOf(d)[d.commands[h.order]]);
    } else if h.SubmitStep? {
      SubmitLeavesLog(d, h.txn, o);
    } else {
      OthersLeaveLog(d, h);
    }
  }

  lemma SubmitLeavesLog(d: Whole, t: Log.TxnId, o: OrderId)
    requires Log.Reachable(d.stream.store) && May(d, SubmitStep(t)) && o in LogOf(d)
    ensures var d' := Do(d, SubmitStep(t)); o in LogOf(d') && LogOf(d')[o] == LogOf(d)[o]
  {
    PlacementLeavesLog(d.stream.store, t, o);
  }

  lemma PlacementLeavesLog(store: Log.State, t: Log.TxnId, o: OrderId)
    requires Log.Reachable(store) && Log.Enabled(store, Log.Exec(t)) && store.writers[t].job.Placing? && o in store.log
    ensures var store' := Log.Apply(store, Log.Exec(t)); o in store'.log && store'.log[o] == store.log[o]
  {
    ExecChanges(store, t);
    if store.writers[t].pc.Committing? { PlacementStarts(store, t); }
  }

  lemma OthersLeaveLog(d: Whole, h: Happening)
    requires !h.CommandStep? && !h.SubmitStep?
    ensures LogOf(Do(d, h)) == LogOf(d)
  {
  }

  // ---- the whole system, once all sagas have ended ----

  function ItemQty(items: seq<Values.LineItem>, sku: Sku): int {
    if items == [] then 0
    else (if items[0].sku == sku then items[0].qty else 0) + ItemQty(items[1..], sku)
  }

  lemma {:induction false} ItemQtyOfLines(items: seq<Values.LineItem>, lines: seq<Line>, sku: Sku)
    requires |items| == |lines| && forall i | 0 <= i < |items| :: lines[i].sku == items[i].sku && lines[i].qty == items[i].qty
    requires Distinct(lines)
    ensures ItemQty(items, sku) == QtyOf(lines, sku)
  {
    if items != [] {
      ItemQtyOfLines(items[1..], lines[1..], sku);
      if Has(lines[1..], sku) {
        var i := IndexOf(lines[1..], sku);
        assert lines[i + 1] == lines[1..][i];
      }
    }
  }

  /** What the log of one order has sold: its items, if its last event is the confirmation. */
  function SoldOf(history: seq<Order.Event>, sku: Sku): int {
    if history != [] && history[0].OrderPlaced? && history[|history| - 1].OrderConfirmed?
    then ItemQty(history[0].items, sku) else 0
  }

  function SoldShares(log: map<OrderId, seq<Order.Event>>, sku: Sku): map<OrderId, int> {
    map o | o in log :: SoldOf(log[o], sku)
  }

  /** Quantity of one SKU over exactly the orders whose log ends with their confirmation. */
  ghost function SoldByLogs(d: Whole, sku: Sku): int {
    Sum(SoldShares(LogOf(d), sku))
  }

  lemma SoldIsSold(d: Whole, sku: Sku)
    requires OrdersOf(d).Keys == LogOf(d).Keys && Saga.Inv(d.sys.world)
    requires forall o | o in LogOf(d) :: Follows(OrdersOf(d)[o], LogOf(d)[o])
    ensures SoldByLogs(d, sku) == Sold(d.sys.world, sku)
  {
    forall o | o in OrdersOf(d) ensures ConfirmedQty(OrdersOf(d)[o], sku) == SoldOf(LogOf(d)[o], sku) {
      assert Follows(OrdersOf(d)[o], LogOf(d)[o]);
      ItemQtyOfLines(LogOf(d)[o][0].items, OrdersOf(d)[o].placed.lines, sku);
    }
    assert ConfirmedShares(OrdersOf(d), sku) == SoldShares(LogOf(d), sku);
  }

  /**
    Whole system, on the rows and the logs: once all sagas have ended no row has
    reserved stock, what has left of each SKU is the quantity over exactly the orders
    whose log ends with OrderConfirmed, and with what is available it is what admins
    put in.
  */
  lemma AllEndedLogs(d: Whole, sku: Sku)
    requires EndToEnd.Reachable(d) && AllEnded(d.sys.world) && sku in d.sys.stock.db.stock
    ensures d.sys.stock.db.stock[sku].reserved == 0
    ensures QtyIn(d.sys.stock.db.res, Committed, sku) == SoldByLogs(d, sku)
    ensures d.sys.stock.db.stock[sku].available + SoldByLogs(d, sku) == Refinement.Deltas(d.sys.stock.log, sku)
  {
    SagasFollowLogs(d);
    Parts.SystemRefinesWorld(d.sys);
    ReachableInv(d.sys.world);
    Parts.AllEndedRows(d.sys, sku);
    SoldIsSold(d, sku);
  }

  // ---- one order ----

  predicate EndsWithConfirmed(history: seq<Order.Event>) {
    |history| == 2 && history[1].OrderConfirmed?
  }

  predicate EndsWithCancelled(history: seq<Order.Event>) {
    |history| == 2 && history[1].OrderCancelled?
  }

  /** The saga's end is the end of the order's log. */
  lemma OutcomeInLog(d: Whole, o: OrderId)
    requires EndToEnd.Reachable(d) && o in OrdersOf(d) && OrdersOf(d)[o].saga.Some?
    ensures o in LogOf(d)
    ensures OrdersOf(d)[o].saga.value.state == Completed ==> EndsWithConfirmed(LogOf(d)[o])
    ensures OrdersOf(d)[o].saga.value.state == Saga.Cancelled ==> EndsWithCancelled(LogOf(d)[o])
  {
    ReachableWhole(d);
    Parts.OutcomeOnRows(d.sys, o);
    StoreReachable(d.stream);
    assert LogMatches(OrdersOf(d)[o], LogOf(d)[o]);
    Logs.LogAndOutbox(d.stream.store, o);
  }

  /**
    From the customer's side: once the saga has ended, the outbox of the order is
    drained and the projector has caught up, the read model shows the saga's outcome,
    for the total that was placed, in its currency.
  */
  lemma CustomerSeesOutcome(d: Whole, o: OrderId)
    requires EndToEnd.Reachable(d) && o in OrdersOf(d) && OrdersOf(d)[o].saga.Some? && OrdersOf(d)[o].saga.value.Terminal()
    requires Topics.CaughtUp(d.stream, o)
    ensures var row := Topic.RowOf(d.stream, o);
      && row.Some? && row.value.totalMinor == OrdersOf(d)[o].placed.total
      && row.value.currency == OrdersOf(d)[o].placed.currency
      && row.value.status == if OrdersOf(d)[o].saga.value.state == Completed then Order.Confirmed else Order.Cancelled
  {
    ReachableWhole(d);
    OutcomeInLog(d, o);
    assert LogMatches(OrdersOf(d)[o], LogOf(d)[o]);
    Topics.ReadModelConverges(d.stream, o);
    Order.GoodLogFolds(o, LogOf(d)[o]);
  }

  // ---- a total that went negative ----

  /** An order whose accumulated total is negative is never confirmed and never cancelled, and no run ends its saga. */
  lemma NegativeNeverEnds(d: Whole, o: OrderId)
    requires EndToEnd.Reachable(d) && o in LogOf(d) && LogOf(d)[o] != []
    requires LogOf(d)[o][0].OrderPlaced? && LogOf(d)[o][0].total.minor < 0
    ensures o in OrdersOf(d) && !Recovery.Ended(OrdersOf(d)[o])
    ensures LogOf(d)[o] == [LogOf(d)[o][0]]
    ensures forall c :: Logs.Hopeless(c, LogOf(d)[o])
  {
    ReachableWhole(d);
    assert LogMatches(OrdersOf(d)[o], LogOf(d)[o]);
    Parts.SystemRefinesWorld(d.sys);
    Saga.ReachableOrder(d.sys.world, o);
    StoreReachable(d.stream);
    Logs.LogAndOutbox(d.stream.store, o);
    NegativeRecord(OrdersOf(d)[o], ResOf(d.sys.world.db, o), LogOf(d)[o], o);
  }

  lemma NegativeRecord(r: Record, res: Option<Status>, history: seq<Order.Event>, o: OrderId)
    requires LogMatches(r, history) && OrderOk(r, res) && Order.GoodLog(o, history) && history[0].total.minor < 0
    ensures !Recovery.Ended(r) && history == [history[0]] && forall c :: Logs.Hopeless(c, history)
  {
  }

  lemma AfterSubmit(e: Order.Event) returns (d: Whole)
    requires e.OrderPlaced? && Log.Validated(e)
    ensures EndToEnd.Reachable(d) && d.sys == Sys.EMPTY_SYS
    ensures LogOf(d) == map[] && WritersOf(d) == map[1 := Log.NewWriter(e.order, Log.Placing(e))]
  {
    assert EndToEnd.Run(EMPTY_WHOLE, [], EMPTY_WHOLE);
    EndToEnd.ReachStep(EMPTY_WHOLE, Submit(1, e));
    d := Do(EMPTY_WHOLE, Submit(1, e));
  }

  lemma SubmitOnward(d: Whole) returns (d': Whole)
    requires EndToEnd.Reachable(d) && May(d, SubmitStep(1))
    ensures EndToEnd.Reachable(d') && d' == SubmitNext(d, 1)
  {
    EndToEnd.ReachStep(d, SubmitStep(1));
    d' := SubmitNext(d, 1);
  }

  /** The only writer is about to insert its event, to announce it, or to commit. */
  ghost predicate Submitting(d: Whole, e: Order.Event, pc: Log.Pc) {
    && EndToEnd.Reachable(d) && LogOf(d) == map[] && WritersOf(d).Keys == {1}
    && var x := WritersOf(d)[1];
       x.order == e.order && x.job == Log.Placing(e) && x.version == 1 && x.changes == [e] && x.pc == pc
  }

  lemma Inserted(e: Order.Event) returns (d: Whole)
    requires e.OrderPlaced? && Log.Validated(e)
    ensures Submitting(d, e, Log.InsertingOutbox(0)) && WritersOf(d)[1].ids == []
  {
    d := AfterSubmit(e);
    d := SubmitOnward(d);
  }

  lemma Announced(e: Order.Event) returns (d: Whole)
    requires e.OrderPlaced? && Log.Validated(e)
    ensures Submitting(d, e, Log.Committing) && |WritersOf(d)[1].ids| == 1
  {
    d := Inserted(e);
    d := SubmitOnward(d);
  }

  /** Every order that validates can be stored. */
  lemma PlacementsHappen(e: Order.Event)
    requires e.OrderPlaced? && Log.Validated(e)
    ensures exists d :: EndToEnd.Reachable(d) && LogOf(d) == map[e.order := [e]]
  {
    var d := Announced(e);
    var d' := SubmitOnward(d);
    assert Log.LogAt(d.stream.store, e.order) + [e] == [e];
    assert LogOf(d') == map[e.order := [e]];
  }

  /**
    One line of two units at 2^62 passes every validation, wraps to a negative total,
    and is stored; its saga ends in no run, whatever inventory and payment answer.
  */
  lemma OverflowNeverEnds(o: OrderId, customer: Values.CustomerId, shipTo: Values.Address, now: Values.Time)
    requires Values.CanonicalAddress(shipTo) && o != 0
    ensures var e := Order.Placement(o, customer, Codec.OVERFLOWING, shipTo, now);
      && (exists d :: EndToEnd.Reachable(d) && LogOf(d) == map[o := [e]])
      && forall d | EndToEnd.Reachable(d) && o in LogOf(d) && LogOf(d)[o] != [] && LogOf(d)[o][0] == e ::
           o in OrdersOf(d) && !Recovery.Ended(OrdersOf(d)[o])
  {
    var e := Order.Placement(o, customer, Codec.OVERFLOWING, shipTo, now);
    Codec.OverflowUnreadable(o, customer, shipTo, now);
    assert Log.Validated(e);
    PlacementsHappen(e);
    NegativeOverflow(e, o, customer, shipTo, now);
    forall d | EndToEnd.Reachable(d) && o in LogOf(d) && LogOf(d)[o] != [] && LogOf(d)[o][0] == e
      ensures o in OrdersOf(d) && !Recovery.Ended(OrdersOf(d)[o])
    {
      NegativeNeverEnds(d, o);
    }
  }

  lemma NegativeOverflow(e: Order.Event, o: OrderId, customer: Values.CustomerId, shipTo: Values.Address, now: Values.Time)
    requires Values.CanonicalAddress(shipTo) && o != 0
    requires e == Order.Placement(o, customer, Codec.OVERFLOWING, shipTo, now)
    ensures e.total.minor < 0
  {
    Codec.OverflowUnreadable(o, customer, shipTo, now);
    Codec.PlacementReadable(o, customer, Codec.OVERFLOWING, shipTo, now);
  }
}
