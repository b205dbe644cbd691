/**
  The whole system: the sagas, the inventory one SQL statement at a time, and the
  payment store one repository call at a time. A handler's call to the inventory
  is a transaction, its call to the payment service a capture; a handler that
  ends takes what it had in flight with it.
*/
module System {
  import opened Results
  import opened StockLedger
  import opened OrderClients
  import opened Saga
  import Stock = InventoryMachine
  import Store = PaymentStore
  import Pays = PaymentDomain

  datatype Sys = Sys(world: World, stock: Stock.State, pay: Store.State,
                     calls: map<OrderId, Stock.TxnId>, captures: map<OrderId, Store.TxnId>)

  const EMPTY_SYS := Sys(EMPTY_WORLD, Stock.INITIAL, Store.INITIAL, map[], map[])

  datatype Event =
    | SagaStep(of: Label)                                        // everything that calls nobody
    | BeginCall(order: OrderId, txn: Stock.TxnId)                   // reserve, release or commit
    | CallStep(order: OrderId, loaded: seq<Line>)                   // one statement of that call
    | SetStock(sku: Sku, available: int)
    | BeginCapture(order: OrderId, capture: Store.TxnId)
    | CaptureStep(order: OrderId, step: Store.Step, lost: bool)     // `lost`: the reply does not arrive
    | Reconcile(step: Store.Step)                                   // webhooks and sweeps

  /** Steps of a handler other than its calls, and deliveries. */
  predicate CallsNobody(w: World, l: Label) {
    match l
    case Place(_, _) => true
    case Deliver(_) => true
    case Drop(_) => true
    case Act(o, _) =>
      && o in w.orders && CallOf(o, w.orders[o]) == None
      && w.orders[o].run.Some? && w.orders[o].run.value.pc != Authorizing
    case _ => false
  }

  predicate CaptureOf(s: Store.State, step: Store.Step) {
    if step.Start? then step.job.CaptureJob? else step.txn in s.txns && s.txns[step.txn].job.CaptureJob?
  }

  predicate MayHappen(s: Sys, e: Event) {
    match e
    case SagaStep(l) => CallsNobody(s.world, l) && Saga.Enabled(s.world, l)
    case BeginCall(o, t) =>
      && o in s.world.orders && CallOf(o, s.world.orders[o]).Some? && o !in s.calls
      && Stock.Enabled(s.stock, Stock.Start(t, CallOf(o, s.world.orders[o]).value))
    case CallStep(o, loaded) => o in s.calls && Stock.Enabled(s.stock, Stock.Exec(s.calls[o], loaded))
    case SetStock(sku, available) => Stock.Enabled(s.stock, Stock.Upsert(sku, available))
    case BeginCapture(o, t) =>
      && o in s.world.orders && s.world.orders[o].run.Some? && s.world.orders[o].run.value.pc == Authorizing
      && o !in s.captures && t !in s.pay.txns
    case CaptureStep(o, step, _) =>
      && o in s.captures && !step.Start? && step.txn == s.captures[o] && Store.Enabled(s.pay, step)
    case Reconcile(step) => Store.Enabled(s.pay, step) && !CaptureOf(s.pay, step)
  }

  /** The handler's error ends its call, which then takes no effect. */
  function Hangup(s: Sys, o: OrderId): Sys {
    s.(stock := if o in s.calls then Stock.Apply(s.stock, Stock.Abort(s.calls[o])) else s.stock,
       pay := if o in s.captures then Store.Apply(s.pay, Store.Abort(s.captures[o])) else s.pay,
       calls := s.calls - {o}, captures := s.captures - {o})
  }

  /** A definite answer moves the handler on, any other ends it with an error. */
  function AnswerLabel(o: OrderId, call: Stock.Call, outcome: Stock.Outcome): Label {
    var v := VerdictOf(call, outcome);
    if v == Success || (v == Rejected && call.ReserveCall?) then Act(o, Inventory(outcome)) else Drop(o)
  }

  function CallNext(s: Sys, o: OrderId, loaded: seq<Line>): Sys
    requires o in s.calls && Stock.Enabled(s.stock, Stock.Exec(s.calls[o], loaded))
  {
    var t := s.calls[o];
    var stock' := Stock.Apply(s.stock, Stock.Exec(t, loaded));
    if stock'.txns[t].Active() then s.(stock := stock')
    else s.(stock := stock', calls := s.calls - {o},
            world := Saga.Step(s.world, AnswerLabel(o, s.stock.txns[t].call, stock'.txns[t].pc.outcome)))
  }

  /** The provider's answer that a capture stores. */
  function ChargeOf(s: Store.State, step: Store.Step): Answer {
    if step.Save? && step.txn in s.txns && s.txns[step.txn].pc.Saving? then
      var p := s.txns[step.txn].pc.pay;
      Charge(p.status == Pays.Captured, p.reference, p.failure)
    else Charge(false, "", "")
  }

  function CaptureNext(s: Sys, o: OrderId, step: Store.Step, lost: bool): Sys
    requires o in s.captures && !step.Start? && step.txn == s.captures[o] && Store.Enabled(s.pay, step)
  {
    var pay' := Store.Apply(s.pay, step);
    if !pay'.txns[step.txn].pc.Ended? then s.(pay := pay')
    else if pay'.replies == s.pay.replies then s.(pay := pay', captures := s.captures - {o})
    else
      var a := ChargeOf(s.pay, step);
      s.(pay := pay', captures := s.captures - {o},
         world := Saga.Step(s.world, if lost then Recharge(o, a) else Act(o, a)))
  }

  /** The rows that a reconciliation step changes. */
  function Changes(s: Store.State, step: Store.Step): seq<Store.Update>
    requires Store.Enabled(s, step)
  {
    if step.Flush? && Store.Apply(s, step).txns[step.txn].pc == Store.Ended(true) then s.txns[step.txn].pc.updates else []
  }

  function Tell(w: World, updates: seq<Store.Update>): World {
    if updates == [] then w
    else
      var n := |updates| - 1;
      var a := updates[n].after;
      Saga.Step(Tell(w, updates[..n]), Provider(a.order, a.status, a.failure))
  }

  /** An event that may not happen changes nothing. */
  function Next(s: Sys, e: Event): Sys {
    if !MayHappen(s, e) then s
    else match e
    case SagaStep(l) =>
      var s' := s.(world := Saga.Step(s.world, l));
      if l.Drop? then Hangup(s', l.order) else s'
    case BeginCall(o, t) =>
      s.(stock := Stock.Apply(s.stock, Stock.Start(t, CallOf(o, s.world.orders[o]).value)), calls := s.calls[o := t])
    case CallStep(o, loaded) => CallNext(s, o, loaded)
    case SetStock(sku, available) =>
      s.(stock := Stock.Apply(s.stock, Stock.Upsert(sku, available)), world := Saga.Step(s.world, Admin(sku, available)))
    case BeginCapture(o, t) =>
      s.(pay := Store.Apply(s.pay, Store.Start(t, Store.CaptureJob(o, s.world.orders[o].placed.total, s.world.orders[o].placed.currency))),
         captures := s.captures[o := t])
    case CaptureStep(o, step, lost) => CaptureNext(s, o, step, lost)
    case Reconcile(step) => s.(pay := Store.Apply(s.pay, step), world := Tell(s.world, Changes(s.pay, step)))
  }

  ghost predicate Run(s: Sys, es: seq<Event>, s': Sys)
    decreases |es|
  {
    if es == [] then s == s' else MayHappen(s, es[0]) && Run(Next(s, es[0]), es[1..], s')
  }

  ghost predicate Reachable(s: Sys) {
    exists es :: Run(EMPTY_SYS, es, s)
  }

  lemma {:induction false} RunSnoc(s: Sys, es: seq<Event>, m: Sys, e: Event)
    requires Run(s, es, m) && MayHappen(m, e)
    ensures Run(s, es + [e], Next(m, e))
    decreases |es|
  {
    if es == [] {
      assert Run(Next(m, e), [], Next(m, e));
      assert ([e])[1..] == [];
    } else {
      RunSnoc(Next(s, es[0]), es[1..], m, e);
      assert (es + [e])[1..] == es[1..] + [e];
    }
  }

  lemma ReachStep(s: Sys, e: Event)
    requires Reachable(s) && MayHappen(s, e)
    ensures Reachable(Next(s, e))
  {
    var es :| Run(EMPTY_SYS, es, s);
    RunSnoc(EMPTY_SYS, es, s, e);
  }

  // ---- how the parts hang together ----

  /** The call in flight is the one that the handler waits for. */
  predicate CallMatches(o: OrderId, r: Record, x: Stock.Txn) {
    x.Active() && CallOf(o, r) == Some(x.call)
  }

  ghost predicate CallsOk(orders: map<OrderId, Record>, txns: map<Stock.TxnId, Stock.Txn>, calls: map<OrderId, Stock.TxnId>) {
    && (forall o | o in calls :: o in orders && calls[o] in txns && CallMatches(o, orders[o], txns[calls[o]]))
    && (forall t | t in txns && txns[t].Active() :: txns[t].call.order in calls && calls[txns[t].call.order] == t)
  }

  /** Past its first SELECT a reserve knows that there is no reservation. */
  ghost predicate SoleReserver(stock: Stock.State, calls: map<OrderId, Stock.TxnId>) {
    forall o | o in calls && calls[o] in stock.txns ::
      var x := stock.txns[calls[o]];
      x.call.ReserveCall? && x.call.order == o && x.pc != Stock.Find ==> o !in stock.db.res
  }

  ghost predicate PayMatches(rows: map<Pays.PayId, Pays.Pay>, o: OrderId, pay: Option<Payment>) {
    match pay
    case None => forall id | id in rows :: rows[id].order != o
    case Some(p) => exists id | id in rows :: rows[id].order == o && p == SeenAs(rows[id])
  }

  /** A stored row as the saga's world sees it. */
  function SeenAs(p: Pays.Pay): Payment {
    Payment(p.status, p.amount, p.reference, p.failure)
  }

  ghost predicate PaysOk(orders: map<OrderId, Record>, rows: map<Pays.PayId, Pays.Pay>) {
    && (forall o | o in orders :: PayMatches(rows, o, orders[o].pay))
    && (forall id | id in rows :: rows[id].order in orders && rows[id].currency == orders[rows[id].order].placed.currency)
  }

  /** A payment as a charge leaves it. */
  predicate JustCharged(p: Pays.Pay) {
    (p.status == Pays.Captured && p.failure == "") || (p.status == Pays.Declined && p.reference == "")
  }

  predicate CaptureJobOk(x: Store.Txn) {
    && x.job.CaptureJob?
    && (x.pc.Looking? || x.pc.Charging? || (x.pc.Saving? && JustCharged(x.pc.pay)))
  }

  predicate CaptureMatches(o: OrderId, r: Record, x: Store.Txn) {
    && CaptureJobOk(x) && x.job.order == o && x.job.amount == r.placed.total && x.job.currency == r.placed.currency
    && r.run.Some? && r.run.value.pc == Authorizing
  }

  ghost predicate CapturesOk(orders: map<OrderId, Record>, txns: map<Store.TxnId, Store.Txn>, captures: map<OrderId, Store.TxnId>) {
    && (forall o | o in captures :: o in orders && captures[o] in txns && CaptureMatches(o, orders[o], txns[captures[o]]))
    && (forall t | t in txns && txns[t].job.CaptureJob? && !txns[t].pc.Ended? ::
          txns[t].job.order in captures && captures[txns[t].job.order] == t)
  }

  /** Each part has a run of its own, and they agree. */
  ghost predicate Inv(s: Sys) {
    && Saga.Reachable(s.world) && Stock.Reachable(s.stock) && Store.Reachable(s.pay)
    && s.world.db == s.stock.db
    && CallsOk(s.world.orders, s.stock.txns, s.calls)
    && SoleReserver(s.stock, s.calls)
    && PaysOk(s.world.orders, s.pay.rows)
    && CapturesOk(s.world.orders, s.pay.txns, s.captures)
  }
}
