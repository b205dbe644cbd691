/** The composed system: inventory calls, payments and handlers as its steps, and what holds in every run, on the database rows themselves. */
module WholeSystem {
  import opened Results
  import opened StockLedger
  import opened Saga
  import opened System
  import opened SagaOutcome
  import Stock = InventoryMachine
  import Repository = InventoryRepository
  import Store = PaymentStore
  import Pays = PaymentDomain
  import Refinement = InventoryRefinement
  import Order = OrderAggregate

  // ---- one statement, on the inventory alone ----

  function After(s: Stock.State, t: Stock.TxnId, loaded: seq<Line>): Stock.State
    requires Stock.Enabled(s, Stock.Exec(t, loaded))
  {
    Stock.Apply(s, Stock.Exec(t, loaded))
  }

  lemma ExecFrame(s: Stock.State, t: Stock.TxnId, loaded: seq<Line>)
    requires Stock.Enabled(s, Stock.Exec(t, loaded))
    ensures t in s.txns && s.txns[t].Active() && t in After(s, t, loaded).txns
    ensures After(s, t, loaded).txns == s.txns[t := After(s, t, loaded).txns[t]]
  {
  }

  /** A statement that does not end its call changes no row; one that does is an atomic call. */
  lemma ExecAtomic(s: Stock.State, t: Stock.TxnId, loaded: seq<Line>)
    requires Stock.Reachable(s) && Stock.Enabled(s, Stock.Exec(t, loaded))
    ensures t in After(s, t, loaded).txns
    ensures var x, s' := s.txns[t], After(s, t, loaded);
      && s'.txns[t].call == x.call
      && (s'.txns[t].Active() ==> s'.db == s.db)
      && (s'.txns[t].pc.Ended? ==>
            && Refinement.AtomicCall(s.db, x.call, s'.txns[t].pc.outcome, s'.db)
            && s'.db == EffectOf(s.db, x.call, s'.txns[t].pc.outcome))
  {
    Repository.ReachableInv(s);
    Refinement.StepRefines(s, Stock.Exec(t, loaded));
    var x, s' := s.txns[t], After(s, t, loaded);
  }

  /** The only reserver of an order gets past its first SELECT only if there is no reservation, and then inserts one itself. */
  lemma ReservesAlone(s: Stock.State, t: Stock.TxnId, loaded: seq<Line>)
    requires Stock.Reachable(s) && Stock.Enabled(s, Stock.Exec(t, loaded))
    requires s.txns[t].call.ReserveCall?
    requires s.txns[t].pc != Stock.Find ==> s.txns[t].call.order !in s.db.res
    ensures t in After(s, t, loaded).txns
    ensures var s' := After(s, t, loaded);
      s'.txns[t].Active() && s'.txns[t].pc != Stock.Find ==> s.txns[t].call.order !in s'.db.res
  {
  }

  // ---- in the system ----

  lemma CallsShrink(orders: map<OrderId, Record>, orders': map<OrderId, Record>, txns: map<Stock.TxnId, Stock.Txn>,
                    txns': map<Stock.TxnId, Stock.Txn>, calls: map<OrderId, Stock.TxnId>, o: OrderId)
    requires CallsOk(orders, txns, calls) && o in calls
    requires calls[o] in txns' && !txns'[calls[o]].Active() && txns' == txns[calls[o] := txns'[calls[o]]]
    requires forall p | p in orders && p != o :: p in orders' && orders'[p] == orders[p]
    ensures CallsOk(orders', txns', calls - {o})
  {
    forall t | t in txns' && txns'[t].Active()
      ensures txns'[t].call.order in calls - {o} && (calls - {o})[txns'[t].call.order] == t
    {
      assert t in txns && txns[t].Active();
    }
    forall p | p in calls - {o}
      ensures p in orders' && calls[p] in txns' && CallMatches(p, orders'[p], txns'[calls[p]])
    {
      assert CallMatches(p, orders[p], txns[calls[p]]);
    }
  }

  /** Orders whose record changed only in what calls and captures do not look at. */
  ghost predicate SameBut(orders: map<OrderId, Record>, orders': map<OrderId, Record>, o: OrderId) {
    && (forall p | p in orders && p != o :: p in orders' && orders'[p] == orders[p])
    && (forall p | p in orders' && p != o :: p in orders)
    && (o in orders <==> o in orders')
    && (o in orders ==> orders'[o].pay == orders[o].pay && orders'[o].placed == orders[o].placed)
  }

  lemma PaysFrame(orders: map<OrderId, Record>, orders': map<OrderId, Record>, rows: map<Pays.PayId, Pays.Pay>, o: OrderId)
    requires PaysOk(orders, rows) && SameBut(orders, orders', o)
    ensures PaysOk(orders', rows)
  {
    forall p | p in orders' ensures PayMatches(rows, p, orders'[p].pay) {
      assert PayMatches(rows, p, orders[p].pay);
    }
  }

  /** A transaction that stays active stays its order's call. */
  lemma CallsGoOn(orders: map<OrderId, Record>, txns: map<Stock.TxnId, Stock.Txn>, txns': map<Stock.TxnId, Stock.Txn>,
                  calls: map<OrderId, Stock.TxnId>, t: Stock.TxnId)
    requires CallsOk(orders, txns, calls) && t in txns && txns[t].Active() && t in txns'
    requires txns' == txns[t := txns'[t]] && txns'[t].call == txns[t].call && txns'[t].Active()
    ensures CallsOk(orders, txns', calls)
  {
  }

  /** `p` has no reservation made behind the back of its own reserve. */
  predicate Sole(x: Stock.Txn, p: OrderId, db: Db) {
    x.call.ReserveCall? && x.call.order == p && x.pc != Stock.Find ==> p !in db.res
  }

  lemma CallStepSole(s: Stock.State, t: Stock.TxnId, loaded: seq<Line>, orders: map<OrderId, Record>, calls: map<OrderId, Stock.TxnId>, o: OrderId)
    requires Stock.Reachable(s) && Stock.Enabled(s, Stock.Exec(t, loaded))
    requires CallsOk(orders, s.txns, calls) && SoleReserver(s, calls) && o in calls && calls[o] == t
    ensures var s' := After(s, t, loaded);
      t in s'.txns && SoleReserver(s', if s'.txns[t].Active() then calls else calls - {o})
  {
    var s' := After(s, t, loaded);
    ExecFrame(s, t, loaded);
    ExecAtomic(s, t, loaded);
    if s.txns[t].call.ReserveCall? { ReservesAlone(s, t, loaded); }
    forall p | p in calls && p != o && calls[p] in s'.txns ensures calls[p] != t && Sole(s'.txns[calls[p]], p, s'.db) {}
  }

  lemma CallEnds(w: World, s: Stock.State, t: Stock.TxnId, loaded: seq<Line>, o: OrderId)
    requires Stock.Reachable(s) && Stock.Enabled(s, Stock.Exec(t, loaded)) && w.db == s.db
    requires o in w.orders && CallOf(o, w.orders[o]) == Some(s.txns[t].call) && Sole(s.txns[t], o, s.db)
    ensures var s' := After(s, t, loaded);
      && t in s'.txns
      && (s'.txns[t].pc.Ended? ==>
            var l := AnswerLabel(o, s.txns[t].call, s'.txns[t].pc.outcome);
            Saga.Enabled(w, l) && Saga.Step(w, l).db == s'.db)
  {
    ExecAtomic(s, t, loaded);
  }

  lemma AnswerSameBut(w: World, o: OrderId, call: Stock.Call, outcome: Stock.Outcome)
    requires o in w.orders && CallOf(o, w.orders[o]) == Some(call) && Saga.Enabled(w, AnswerLabel(o, call, outcome))
    ensures SameBut(w.orders, Saga.Step(w, AnswerLabel(o, call, outcome)).orders, o)
  {
  }

  /** The links between the parts, when one order's record changed and its call is over. */
  lemma CallOver(s: Sys, o: OrderId, stock': Stock.State, world': World)
    requires System.Inv(s) && o in s.calls && s.calls[o] in stock'.txns && !stock'.txns[s.calls[o]].Active()
    requires stock'.txns == s.stock.txns[s.calls[o] := stock'.txns[s.calls[o]]]
    requires Saga.Reachable(world') && Stock.Reachable(stock') && world'.db == stock'.db
    requires SoleReserver(stock', s.calls - {o}) && SameBut(s.world.orders, world'.orders, o)
    ensures System.Inv(s.(stock := stock', world := world', calls := s.calls - {o}))
  {
    CallsShrink(s.world.orders, world'.orders, s.stock.txns, stock'.txns, s.calls, o);
    PaysFrame(s.world.orders, world'.orders, s.pay.rows, o);
  }

  lemma CallStepKeeps(s: Sys, o: OrderId, loaded: seq<Line>)
    requires System.Inv(s) && MayHappen(s, CallStep(o, loaded))
    ensures System.Inv(Next(s, CallStep(o, loaded)))
  {
    var t := s.calls[o];
    var stock' := After(s.stock, t, loaded);
    Stock.ReachStep(s.stock, Stock.Exec(t, loaded));
    ExecFrame(s.stock, t, loaded);
    ExecAtomic(s.stock, t, loaded);
    CallStepSole(s.stock, t, loaded, s.world.orders, s.calls, o);
    if stock'.txns[t].Active() {
      CallsGoOn(s.world.orders, s.stock.txns, stock'.txns, s.calls, t);
    } else {
      CallEnds(s.world, s.stock, t, loaded, o);
      var call, outcome := s.stock.txns[t].call, stock'.txns[t].pc.outcome;
      var l := AnswerLabel(o, call, outcome);
      AnswerSameBut(s.world, o, call, outcome);
      Saga.Onward(s.world, l, Saga.Step(s.world, l));
      CallOver(s, o, stock', Saga.Step(s.world, l));
    }
  }

  lemma BeginCallLinks(orders: map<OrderId, Record>, s: Stock.State, calls: map<OrderId, Stock.TxnId>, o: OrderId, t: Stock.TxnId, x: Stock.Txn)
    requires CallsOk(orders, s.txns, calls) && SoleReserver(s, calls)
    requires o in orders && o !in calls && t !in s.txns && CallMatches(o, orders[o], x) && x.pc == Stock.Find
    ensures CallsOk(orders, s.txns[t := x], calls[o := t])
    ensures SoleReserver(s.(txns := s.txns[t := x]), calls[o := t])
  {
  }

  /** A new call: the handler has no other in flight, so it is the order's only release or commit. */
  lemma BeginCallKeeps(s: Sys, o: OrderId, t: Stock.TxnId)
    requires System.Inv(s) && MayHappen(s, BeginCall(o, t))
    ensures System.Inv(Next(s, BeginCall(o, t)))
  {
    var call := CallOf(o, s.world.orders[o]).value;
    var step := Stock.Start(t, call);
    assert Stock.OneMover(s.stock, step);
    Stock.ReachStep(s.stock, step);
    BeginCallLinks(s.world.orders, s.stock, s.calls, o, t, Stock.Apply(s.stock, step).txns[t]);
  }

  lemma SetStockKeeps(s: Sys, sku: Sku, available: int)
    requires System.Inv(s) && MayHappen(s, SetStock(sku, available))
    ensures System.Inv(Next(s, SetStock(sku, available)))
  {
    Stock.ReachStep(s.stock, Stock.Upsert(sku, available));
    Saga.Onward(s.world, Admin(sku, available), Saga.Step(s.world, Admin(sku, available)));
  }

  // ---- captures and reconciliation ----

  lemma StoreInv(s: Store.State)
    requires Store.Reachable(s)
    ensures Store.Inv(s)
  {
    var steps :| Store.Run(Store.INITIAL, steps, s);
    Store.RunKeeps(Store.INITIAL, steps, s);
  }

  // ---- one step of a capture, on the store alone ----

  predicate Own(s: Store.State, step: Store.Step, t: Store.TxnId) {
    !step.Start? && step.txn == t && Store.Enabled(s, step) && t in s.txns && CaptureJobOk(s.txns[t])
  }

  /** Before its answer a capture changes no row. */
  lemma CaptureGoesOn(s: Store.State, step: Store.Step, t: Store.TxnId)
    requires Own(s, step, t)
    ensures var s' := Store.Apply(s, step);
      && t in s'.txns && s'.txns == s.txns[t := s'.txns[t]] && s'.txns[t].job == s.txns[t].job
      && (!s'.txns[t].pc.Ended? ==> CaptureJobOk(s'.txns[t]))
      && (s'.replies == s.replies ==> s'.rows == s.rows)
      && (!s'.txns[t].pc.Ended? ==> s'.rows == s.rows)
  {
  }

  /** The answer reports the order's row: one that is there, or the new one. */
  ghost predicate Reported(rows: map<Pays.PayId, Pays.Pay>, rows': map<Pays.PayId, Pays.Pay>, x: Store.Txn)
    requires x.job.CaptureJob?
  {
    if exists id | id in rows :: rows[id].order == x.job.order then rows' == rows
    else
      && x.pc.Saving? && x.pc.pay.id !in rows && rows' == rows[x.pc.pay.id := x.pc.pay]
      && x.pc.pay.order == x.job.order && x.pc.pay.amount == x.job.amount && x.pc.pay.currency == x.job.currency && Pays.Openable(x.job.amount, x.job.currency)
  }

  lemma CaptureAnswers(s: Store.State, step: Store.Step, t: Store.TxnId)
    requires Store.Reachable(s) && Own(s, step, t)
    ensures Store.Apply(s, step).replies != s.replies ==> Reported(s.rows, Store.Apply(s, step).rows, s.txns[t])
  {
    StoreInv(s);
    assert Store.TxnOk(s.rows, s.txns[t]);
  }

  // ---- what the saga sees of it ----

  /** With the answer, the order's record gets the payment that is stored. */
  lemma AnswerSeen(w: World, o: OrderId, rows: map<Pays.PayId, Pays.Pay>, rows': map<Pays.PayId, Pays.Pay>, x: Store.Txn, a: Answer)
    requires o in w.orders && CaptureMatches(o, w.orders[o], x) && PaysOk(w.orders, rows) && Reported(rows, rows', x)
    requires a.Charge? && (x.pc.Saving? ==> a == Charge(x.pc.pay.status == Pays.Captured, x.pc.pay.reference, x.pc.pay.failure))
    ensures MayAct(w.db, o, w.orders[o], a)
    ensures PayMatches(rows', o, Some(Captured(w.orders[o], a)))
  {
    var r := w.orders[o];
    assert PayMatches(rows, o, r.pay);
    if !(exists id | id in rows :: rows[id].order == o) {
      var p := x.pc.pay;
      assert rows'[p.id].order == o && Captured(r, a) == SeenAs(p);
    }
  }

  lemma OthersSeen(orders: map<OrderId, Record>, orders': map<OrderId, Record>, o: OrderId,
                   rows: map<Pays.PayId, Pays.Pay>, rows': map<Pays.PayId, Pays.Pay>, x: Store.Txn)
    requires PaysOk(orders, rows) && x.job.CaptureJob? && x.job.order == o && Reported(rows, rows', x) && o in orders
    requires forall p | p != o :: (p in orders <==> p in orders') && (p in orders ==> orders'[p] == orders[p])
    requires o in orders' && PayMatches(rows', o, orders'[o].pay)
    requires orders'[o].placed == orders[o].placed && x.job.currency == orders[o].placed.currency
    ensures PaysOk(orders', rows')
  {
    forall p | p in orders' && p != o ensures PayMatches(rows', p, orders'[p].pay) {
      assert PayMatches(rows, p, orders[p].pay);
      if orders[p].pay.Some? {
        var id :| id in rows && rows[id].order == p && orders[p].pay.value == SeenAs(rows[id]);
        assert id in rows' && rows'[id] == rows[id];
      }
    }
  }

  lemma CapturesShrink(orders: map<OrderId, Record>, orders': map<OrderId, Record>, txns: map<Store.TxnId, Store.Txn>,
                       txns': map<Store.TxnId, Store.Txn>, captures: map<OrderId, Store.TxnId>, o: OrderId)
    requires CapturesOk(orders, txns, captures) && o in captures
    requires captures[o] in txns' && txns'[captures[o]].pc.Ended? && txns' == txns[captures[o] := txns'[captures[o]]]
    requires forall p | p in orders && p != o :: p in orders' && orders'[p] == orders[p]
    ensures CapturesOk(orders', txns', captures - {o})
  {
  }

  lemma CapturesGoOn(orders: map<OrderId, Record>, txns: map<Store.TxnId, Store.Txn>, txns': map<Store.TxnId, Store.Txn>,
                     captures: map<OrderId, Store.TxnId>, t: Store.TxnId)
    requires CapturesOk(orders, txns, captures) && t in txns && CaptureJobOk(txns[t]) && t in txns'
    requires txns' == txns[t := txns'[t]] && txns'[t].job == txns[t].job && CaptureJobOk(txns'[t])
    ensures CapturesOk(orders, txns', captures)
  {
  }

  lemma CaptureInFlight(s: Sys, o: OrderId)
    requires System.Inv(s) && o in s.captures
    ensures o in s.world.orders && o !in s.calls && s.captures[o] in s.pay.txns
    ensures CaptureMatches(o, s.world.orders[o], s.pay.txns[s.captures[o]])
  {
    assert CaptureMatches(o, s.world.orders[o], s.pay.txns[s.captures[o]]);
    forall p | p in s.calls ensures p in s.world.orders && CallOf(p, s.world.orders[p]).Some? {}
  }

  /** The answered call in the saga's world. */
  function AnsweredLabel(o: OrderId, a: Answer, lost: bool): Label {
    if lost then Recharge(o, a) else Act(o, a)
  }

  lemma AnsweredStep(w: World, o: OrderId, a: Answer, lost: bool)
    requires o in w.orders && MayAct(w.db, o, w.orders[o], a) && w.orders[o].run.value.pc == Authorizing
    ensures Saga.Enabled(w, AnsweredLabel(o, a, lost))
    ensures var w' := Saga.Step(w, AnsweredLabel(o, a, lost));
      && w'.db == w.db && o in w'.orders && w'.orders[o].pay == Some(Captured(w.orders[o], a))
      && w'.orders[o].placed == w.orders[o].placed
      && forall p | p != o :: (p in w.orders <==> p in w'.orders) && (p in w.orders ==> w'.orders[p] == w.orders[p])
  {
  }

  lemma CaptureStepKeeps(s: Sys, o: OrderId, step: Store.Step, lost: bool)
    requires System.Inv(s) && MayHappen(s, CaptureStep(o, step, lost))
    ensures System.Inv(Next(s, CaptureStep(o, step, lost)))
  {
    var t := s.captures[o];
    var pay' := Store.Apply(s.pay, step);
    CaptureInFlight(s, o);
    Store.ReachStep(s.pay, step);
    CaptureGoesOn(s.pay, step, t);
    if !pay'.txns[t].pc.Ended? {
      CapturesGoOn(s.world.orders, s.pay.txns, pay'.txns, s.captures, t);
    } else if pay'.replies == s.pay.replies {
      CapturesShrink(s.world.orders, s.world.orders, s.pay.txns, pay'.txns, s.captures, o);
    } else {
      CaptureReplies(s, o, step, lost);
    }
  }

  predicate EndsWith(pay: Store.State, t: Store.TxnId) {
    t in pay.txns && pay.txns[t].pc.Ended?
  }

  lemma CaptureReplies(s: Sys, o: OrderId, step: Store.Step, lost: bool)
    requires System.Inv(s) && MayHappen(s, CaptureStep(o, step, lost))
    requires Store.Apply(s.pay, step).replies != s.pay.replies && EndsWith(Store.Apply(s.pay, step), step.txn)
    ensures System.Inv(Next(s, CaptureStep(o, step, lost)))
  {
    var x := s.pay.txns[s.captures[o]];
    var pay' := Store.Apply(s.pay, step);
    var a := ChargeOf(s.pay, step);
    CaptureInFlight(s, o);
    Store.ReachStep(s.pay, step);
    CaptureGoesOn(s.pay, step, s.captures[o]);
    CaptureAnswers(s.pay, step, s.captures[o]);
    ChargeMatches(s.pay, step, s.captures[o]);
    AnswerSeen(s.world, o, s.pay.rows, pay'.rows, x, a);
    AnsweredStep(s.world, o, a, lost);
    var w' := Saga.Step(s.world, AnsweredLabel(o, a, lost));
    Saga.Onward(s.world, AnsweredLabel(o, a, lost), w');
    OthersSeen(s.world.orders, w'.orders, o, s.pay.rows, pay'.rows, x);
    CapturesShrink(s.world.orders, w'.orders, s.pay.txns, pay'.txns, s.captures, o);
    CallsLeftAlone(s.world.orders, w'.orders, s.stock.txns, s.calls, o);
  }

  lemma ChargeMatches(s: Store.State, step: Store.Step, t: Store.TxnId)
    requires Own(s, step, t) && Store.Apply(s, step).replies != s.replies
    ensures var x, a := s.txns[t], ChargeOf(s, step);
      a.Charge? && (x.pc.Saving? ==> a == Charge(x.pc.pay.status == Pays.Captured, x.pc.pay.reference, x.pc.pay.failure))
  {
  }

  lemma CallsLeftAlone(orders: map<OrderId, Record>, orders': map<OrderId, Record>, txns: map<Stock.TxnId, Stock.Txn>,
                       calls: map<OrderId, Stock.TxnId>, o: OrderId)
    requires CallsOk(orders, txns, calls) && o !in calls
    requires forall p | p != o && p in orders :: p in orders' && orders'[p] == orders[p]
    ensures CallsOk(orders', txns, calls)
  {}

  lemma BeginCaptureKeeps(s: Sys, o: OrderId, t: Store.TxnId)
    requires System.Inv(s) && MayHappen(s, BeginCapture(o, t))
    ensures System.Inv(Next(s, BeginCapture(o, t)))
  {
    var step := Store.Start(t, Store.CaptureJob(o, s.world.orders[o].placed.total, s.world.orders[o].placed.currency));
    Store.ReachStep(s.pay, step);
    BeginCaptureLinks(s.world.orders, s.pay.txns, s.captures, o, t, Store.Apply(s.pay, step).txns[t]);
  }

  lemma BeginCaptureLinks(orders: map<OrderId, Record>, txns: map<Store.TxnId, Store.Txn>,
                          captures: map<OrderId, Store.TxnId>, o: OrderId, t: Store.TxnId, x: Store.Txn)
    requires CapturesOk(orders, txns, captures) && o in orders && o !in captures && t !in txns && CaptureMatches(o, orders[o], x)
    ensures CapturesOk(orders, txns[t := x], captures[o := t])
  {
  }

  // ---- webhooks and sweeps ----

  /** Only payments differ. */
  ghost predicate OnlyPays(orders: map<OrderId, Record>, orders': map<OrderId, Record>) {
    && orders'.Keys == orders.Keys
    && forall o | o in orders :: orders'[o] == orders[o].(pay := orders'[o].pay)
  }

  lemma OnlyPaysCalls(orders: map<OrderId, Record>, orders': map<OrderId, Record>, txns: map<Stock.TxnId, Stock.Txn>, calls: map<OrderId, Stock.TxnId>)
    requires CallsOk(orders, txns, calls) && OnlyPays(orders, orders')
    ensures CallsOk(orders', txns, calls)
  {
    forall o | o in calls ensures o in orders' && CallMatches(o, orders'[o], txns[calls[o]]) {
      assert CallMatches(o, orders[o], txns[calls[o]]);
    }
  }

  /** No capture is touched. */
  ghost predicate SameCaptures(txns: map<Store.TxnId, Store.Txn>, txns': map<Store.TxnId, Store.Txn>) {
    && (forall t | t in txns' && txns'[t].job.CaptureJob? :: t in txns && txns'[t] == txns[t])
    && (forall t | t in txns && txns[t].job.CaptureJob? :: t in txns' && txns'[t] == txns[t])
  }

  /** One stored change is one provider step. */
  lemma ChangeSeen(w: World, rows: map<Pays.PayId, Pays.Pay>, u: Store.Update)
    requires PaysOk(w.orders, rows) && Store.UpdateOk(rows, u) && rows[u.before.id] == u.before
    requires forall i, j | i in rows && j in rows && i != j :: rows[i].order != rows[j].order
    ensures var l := Provider(u.after.order, u.after.status, u.after.failure);
      && Saga.Enabled(w, l)
      && var w' := Saga.Step(w, l);
         && w'.db == w.db && OnlyPays(w.orders, w'.orders)
         && PaysOk(w'.orders, rows[u.after.id := u.after.(version := u.after.version + 1)])
  {
    var o := u.before.order;
    assert o in w.orders && PayMatches(rows, o, w.orders[o].pay);
    var id :| id in rows && rows[id].order == o && w.orders[o].pay == Some(SeenAs(rows[id]));
    assert id == u.before.id;
    var l := Provider(o, u.after.status, u.after.failure);
    var w' := Saga.Step(w, l);
    var rows' := rows[u.after.id := u.after.(version := u.after.version + 1)];
    forall p | p in w'.orders ensures PayMatches(rows', p, w'.orders[p].pay) {
      assert PayMatches(rows, p, w.orders[p].pay);
      if p != o && w.orders[p].pay.Some? {
        var j :| j in rows && rows[j].order == p && w.orders[p].pay.value == SeenAs(rows[j]);
        assert j in rows' && rows'[j] == rows[j];
      }
      if p == o { assert SeenAs(rows'[id]) == w'.orders[p].pay.value; }
    }
  }

  /** The update was made from the row that is stored. */
  ghost predicate Ready(rows: map<Pays.PayId, Pays.Pay>, u: Store.Update) {
    && Store.UpdateOk(rows, u) && rows[u.before.id] == u.before
    && forall i, j | i in rows && j in rows && i != j :: rows[i].order != rows[j].order
  }

  /** Each update is made from the row that it meets. */
  ghost predicate Chain(rows: map<Pays.PayId, Pays.Pay>, updates: seq<Store.Update>)
    decreases |updates|
  {
    updates == [] ||
    (Chain(rows, updates[..|updates| - 1]) && Ready(Store.Store(rows, updates[..|updates| - 1]), updates[|updates| - 1]))
  }

  lemma NextReady(rows: map<Pays.PayId, Pays.Pay>, updates: seq<Store.Update>)
    requires updates != [] && Store.RowsOk(rows) && Store.UpdatesOk(rows, updates) && Store.Current(rows, updates)
    ensures Ready(Store.Store(rows, updates[..|updates| - 1]), updates[|updates| - 1])
  {
    var n := |updates| - 1;
    Store.StoreGrows(rows, updates[..n]);
    StoreKeepsOrders(rows, updates[..n]);
    assert Store.UpdateOk(rows, updates[n]);
  }

  lemma {:induction false} AllReady(rows: map<Pays.PayId, Pays.Pay>, updates: seq<Store.Update>)
    requires Store.RowsOk(rows) && Store.UpdatesOk(rows, updates) && Store.Current(rows, updates)
    ensures Chain(rows, updates)
    decreases |updates|
  {
    if updates != [] {
      AllReady(rows, updates[..|updates| - 1]);
      NextReady(rows, updates);
    }
  }

  /** The sagas' world has followed the table. */
  ghost predicate Followed(w: World, w': World, rows: map<Pays.PayId, Pays.Pay>) {
    Saga.Reachable(w') && w'.db == w.db && OnlyPays(w.orders, w'.orders) && PaysOk(w'.orders, rows)
  }

  lemma FollowOne(w: World, m: World, rows: map<Pays.PayId, Pays.Pay>, u: Store.Update)
    requires Followed(w, m, rows) && Ready(rows, u)
    ensures Followed(w, Saga.Step(m, Provider(u.after.order, u.after.status, u.after.failure)),
                     rows[u.after.id := u.after.(version := u.after.version + 1)])
  {
    ChangeSeen(m, rows, u);
    var l := Provider(u.after.order, u.after.status, u.after.failure);
    Saga.Onward(m, l, Saga.Step(m, l));
  }

  lemma TellStep(w: World, rows: map<Pays.PayId, Pays.Pay>, updates: seq<Store.Update>)
    requires updates != [] && Ready(Store.Store(rows, updates[..|updates| - 1]), updates[|updates| - 1])
    requires Followed(w, Tell(w, updates[..|updates| - 1]), Store.Store(rows, updates[..|updates| - 1]))
    ensures Followed(w, Tell(w, updates), Store.Store(rows, updates))
  {
    var n := |updates| - 1;
    FollowOne(w, Tell(w, updates[..n]), Store.Store(rows, updates[..n]), updates[n]);
  }

  lemma {:induction false} TellKeeps(w: World, rows: map<Pays.PayId, Pays.Pay>, updates: seq<Store.Update>)
    requires Followed(w, w, rows) && Chain(rows, updates)
    ensures Followed(w, Tell(w, updates), Store.Store(rows, updates))
    decreases |updates|
  {
    if updates != [] {
      TellKeeps(w, rows, updates[..|updates| - 1]);
      TellStep(w, rows, updates);
    }
  }

  lemma StoreKeepsOrders(rows: map<Pays.PayId, Pays.Pay>, updates: seq<Store.Update>)
    requires Store.RowsOk(rows) && Store.UpdatesOk(rows, updates) && Store.Current(rows, updates)
    ensures var now := Store.Store(rows, updates);
      forall i, j | i in now && j in now && i != j :: now[i].order != now[j].order
  {
    Store.StoreGrows(rows, updates);
    var now := Store.Store(rows, updates);
    forall i, j | i in now && j in now && i != j ensures now[i].order != now[j].order {
      assert Store.Later(rows[i], now[i]) && Store.Later(rows[j], now[j]);
    }
  }

  /** A step of a webhook or a sweep changes rows only when it commits. */
  lemma ReconcileRows(s: Store.State, step: Store.Step)
    requires Store.Reachable(s) && Store.Enabled(s, step) && !CaptureOf(s, step)
    ensures Store.Apply(s, step).rows == Store.Store(s.rows, Changes(s, step))
    ensures Store.UpdatesOk(s.rows, Changes(s, step)) && Store.Current(s.rows, Changes(s, step)) && Store.RowsOk(s.rows)
  {
    StoreInv(s);
    if !step.Start? { assert Store.TxnOk(s.rows, s.txns[step.txn]); }
  }

  lemma ReconcileTxns(s: Store.State, step: Store.Step)
    requires Store.Enabled(s, step) && !CaptureOf(s, step)
    ensures SameCaptures(s.txns, Store.Apply(s, step).txns)
  {
    var s' := Store.Apply(s, step);
    assert s'.txns == s.txns[step.txn := s'.txns[step.txn]];
  }

  lemma ReconcileKeeps(s: Sys, step: Store.Step)
    requires System.Inv(s) && MayHappen(s, Reconcile(step))
    ensures System.Inv(Next(s, Reconcile(step)))
  {
    var w' := Tell(s.world, Changes(s.pay, step));
    Store.ReachStep(s.pay, step);
    ReconcileRows(s.pay, step);
    ReconcileTxns(s.pay, step);
    AllReady(s.pay.rows, Changes(s.pay, step));
    TellKeeps(s.world, s.pay.rows, Changes(s.pay, step));
    OnlyPaysCalls(s.world.orders, w'.orders, s.stock.txns, s.calls);
  }

  // ---- steps of a handler that call nobody ----

  /** A handler that is not waiting for an answer has nothing in flight. */
  lemma NothingInFlight(s: Sys, o: OrderId)
    requires System.Inv(s)
    requires o in s.world.orders ==> CallOf(o, s.world.orders[o]) == None
    requires o in s.world.orders && s.world.orders[o].run.Some? ==> s.world.orders[o].run.value.pc != Authorizing
    ensures o !in s.calls && o !in s.captures
  {
    forall p | p in s.calls ensures p in s.world.orders && CallOf(p, s.world.orders[p]).Some? {}
    forall p | p in s.captures
      ensures p in s.world.orders && s.world.orders[p].run.Some? && s.world.orders[p].run.value.pc == Authorizing
    {
      assert CaptureMatches(p, s.world.orders[p], s.pay.txns[s.captures[p]]);
    }
  }

  lemma QuietChange(s: Sys, o: OrderId, w': World)
    requires System.Inv(s) && o !in s.calls && o !in s.captures
    requires Saga.Reachable(w') && w'.db == s.world.db && SameBut(s.world.orders, w'.orders, o)
    ensures System.Inv(s.(world := w'))
  {
    PaysFrame(s.world.orders, w'.orders, s.pay.rows, o);
  }

  lemma PlaceKeeps(s: Sys, o: OrderId, placed: Placed)
    requires System.Inv(s) && MayHappen(s, SagaStep(Place(o, placed)))
    ensures System.Inv(s.(world := Saga.Step(s.world, Place(o, placed))))
  {
    var w' := Saga.Step(s.world, Place(o, placed));
    Saga.Onward(s.world, Place(o, placed), w');
    NothingInFlight(s, o);
    CallsLeftAlone(s.world.orders, w'.orders, s.stock.txns, s.calls, o);
    forall p | p in w'.orders ensures PayMatches(s.pay.rows, p, w'.orders[p].pay) {
      if p != o { assert PayMatches(s.pay.rows, p, s.world.orders[p].pay); }
    }
  }

  lemma QuietStep(w: World, l: Label)
    requires Saga.Reachable(w) && Saga.Enabled(w, l) && CallsNobody(w, l) && (l.Deliver? || l.Act?)
    ensures var w' := Saga.Step(w, l);
      Saga.Reachable(w') && w'.db == w.db && SameBut(w.orders, w'.orders, l.order)
  {
    Saga.Onward(w, l, Saga.Step(w, l));
  }

  lemma QuietStepKeeps(s: Sys, l: Label)
    requires System.Inv(s) && Saga.Enabled(s.world, l) && CallsNobody(s.world, l) && (l.Deliver? || l.Act?)
    ensures System.Inv(s.(world := Saga.Step(s.world, l)))
  {
    QuietStep(s.world, l);
    NothingInFlight(s, l.order);
    QuietChange(s, l.order, Saga.Step(s.world, l));
  }

  // ---- a handler that returns an error ----

  lemma AbortCall(orders: map<OrderId, Record>, stock: Stock.State, calls: map<OrderId, Stock.TxnId>, o: OrderId)
    requires CallsOk(orders, stock.txns, calls) && SoleReserver(stock, calls) && o in calls && Stock.Reachable(stock)
    ensures Stock.Enabled(stock, Stock.Abort(calls[o]))
    ensures var stock' := Stock.Apply(stock, Stock.Abort(calls[o]));
      && stock'.db == stock.db && calls[o] in stock'.txns && !stock'.txns[calls[o]].Active()
      && stock'.txns == stock.txns[calls[o] := stock'.txns[calls[o]]]
      && SoleReserver(stock', calls - {o}) && Stock.Reachable(stock')
  {
    assert CallMatches(o, orders[o], stock.txns[calls[o]]);
    Stock.ReachStep(stock, Stock.Abort(calls[o]));
    forall p | p in calls && p != o ensures calls[p] != calls[o] {}
  }

  lemma HangupIs(s: Sys, o: OrderId)
    requires o in s.calls ==> o !in s.captures && Stock.Enabled(s.stock, Stock.Abort(s.calls[o]))
    requires o in s.captures ==> Store.Enabled(s.pay, Store.Abort(s.captures[o]))
    ensures o in s.calls ==>
      Hangup(s, o) == s.(stock := Stock.Apply(s.stock, Stock.Abort(s.calls[o])), calls := s.calls - {o})
    ensures o in s.captures && o !in s.calls ==>
      Hangup(s, o) == s.(pay := Store.Apply(s.pay, Store.Abort(s.captures[o])), captures := s.captures - {o})
    ensures o !in s.calls && o !in s.captures ==> Hangup(s, o) == s
  {
  }

  lemma HangupCall(s: Sys, o: OrderId, w': World)
    requires System.Inv(s) && o in s.calls && Saga.Reachable(w') && w'.db == s.world.db && SameBut(s.world.orders, w'.orders, o)
    ensures System.Inv(Hangup(s.(world := w'), o))
  {
    AbortCall(s.world.orders, s.stock, s.calls, o);
    CallOver(s, o, Stock.Apply(s.stock, Stock.Abort(s.calls[o])), w');
    HangupIs(s.(world := w'), o);
  }

  lemma AbortCapture(orders: map<OrderId, Record>, pay: Store.State, captures: map<OrderId, Store.TxnId>, o: OrderId)
    requires CapturesOk(orders, pay.txns, captures) && o in captures && Store.Reachable(pay)
    ensures Store.Enabled(pay, Store.Abort(captures[o]))
    ensures var pay' := Store.Apply(pay, Store.Abort(captures[o]));
      && pay'.rows == pay.rows && captures[o] in pay'.txns && pay'.txns[captures[o]].pc.Ended?
      && pay'.txns == pay.txns[captures[o] := pay'.txns[captures[o]]] && Store.Reachable(pay')
  {
    assert CaptureMatches(o, orders[o], pay.txns[captures[o]]);
    Store.ReachStep(pay, Store.Abort(captures[o]));
  }

  lemma HangupCapture(s: Sys, o: OrderId, w': World)
    requires System.Inv(s) && o in s.captures && Saga.Reachable(w') && w'.db == s.world.db && SameBut(s.world.orders, w'.orders, o)
    ensures System.Inv(Hangup(s.(world := w'), o))
  {
    CaptureInFlight(s, o);
    AbortCapture(s.world.orders, s.pay, s.captures, o);
    var pay' := Store.Apply(s.pay, Store.Abort(s.captures[o]));
    CapturesShrink(s.world.orders, w'.orders, s.pay.txns, pay'.txns, s.captures, o);
    PaysFrame(s.world.orders, w'.orders, s.pay.rows, o);
    HangupIs(s.(world := w'), o);
  }

  lemma DropStep(w: World, o: OrderId)
    requires Saga.Reachable(w) && Saga.Enabled(w, Drop(o))
    ensures var w' := Saga.Step(w, Drop(o));
      Saga.Reachable(w') && w'.db == w.db && SameBut(w.orders, w'.orders, o)
  {
    Saga.Onward(w, Drop(o), Saga.Step(w, Drop(o)));
  }

  lemma DropKeeps(s: Sys, o: OrderId)
    requires System.Inv(s) && Saga.Enabled(s.world, Drop(o))
    ensures System.Inv(Hangup(s.(world := Saga.Step(s.world, Drop(o))), o))
  {
    var w' := Saga.Step(s.world, Drop(o));
    DropStep(s.world, o);
    if o in s.calls {
      HangupCall(s, o, w');
    } else if o in s.captures {
      HangupCapture(s, o, w');
    } else {
      QuietChange(s, o, w');
      HangupIs(s.(world := w'), o);
    }
  }

  /** Every event keeps the parts in agreement, and each part in a run of its own. */
  lemma EventKeeps(s: Sys, e: Event)
    requires System.Inv(s) && MayHappen(s, e)
    ensures System.Inv(Next(s, e))
  {
    match e
    case SagaStep(l) =>
      if l.Drop? { DropKeeps(s, l.order); }
      else if l.Place? { PlaceKeeps(s, l.order, l.placed); }
      else { QuietStepKeeps(s, l); }
    case BeginCall(o, t) => BeginCallKeeps(s, o, t);
    case CallStep(o, loaded) => CallStepKeeps(s, o, loaded);
    case SetStock(sku, available) => SetStockKeeps(s, sku, available);
    case BeginCapture(o, t) => BeginCaptureKeeps(s, o, t);
    case CaptureStep(o, step, lost) => CaptureStepKeeps(s, o, step, lost);
    case Reconcile(step) => ReconcileKeeps(s, step);
  }

  lemma {:induction false} RunKeeps(s: Sys, es: seq<Event>, s': Sys)
    requires System.Inv(s) && System.Run(s, es, s')
    ensures System.Inv(s')
    decreases |es|
  {
    if es != [] {
      EventKeeps(s, es[0]);
      RunKeeps(Next(s, es[0]), es[1..], s');
    }
  }

  lemma EmptyIsReachable()
    ensures System.Inv(EMPTY_SYS)
  {
    assert Saga.Steps(EMPTY_WORLD, [], EMPTY_WORLD);
    assert Stock.Run(Stock.INITIAL, [], Stock.INITIAL);
    assert Store.Run(Store.INITIAL, [], Store.INITIAL);
  }

  /**
    Refinement of the whole: in every run of the composed system the sagas behave
    as in a run of the atomic world, over exactly the committed inventory rows and
    the stored payments; and the inventory and the payment store are in states of
    their own machines, where at most one release or commit per order is in flight.
  */
  lemma SystemRefinesWorld(s: Sys)
    requires System.Reachable(s)
    ensures Saga.Reachable(s.world) && s.world.db == s.stock.db && PaysOk(s.world.orders, s.pay.rows)
    ensures Stock.Reachable(s.stock) && Store.Reachable(s.pay)
  {
    EmptyIsReachable();
    var es :| System.Run(EMPTY_SYS, es, s);
    RunKeeps(EMPTY_SYS, es, s);
  }

  /**
    Whole system, on the rows: once all sagas have ended, no row has reserved
    stock, the stock that has left is the quantity over exactly the confirmed
    orders, and with what is available it is what admins put in.
  */
  lemma AllEndedRows(s: Sys, sku: Sku)
    requires System.Reachable(s) && AllEnded(s.world) && sku in s.stock.db.stock
    ensures s.stock.db.stock[sku].reserved == 0
    ensures QtyIn(s.stock.db.res, Committed, sku) == Sold(s.world, sku)
    ensures s.stock.db.stock[sku].available + Sold(s.world, sku) == Refinement.Deltas(s.stock.log, sku)
  {
    SystemRefinesWorld(s);
    AllEndedBalance(s.world, sku);
    Refinement.StockConserved(s.stock, sku);
  }

  ghost predicate StoredFor(rows: map<Pays.PayId, Pays.Pay>, o: OrderId, id: Pays.PayId) {
    id in rows && rows[id].order == o
  }

  /**
    Outcome of one order, on the rows. A completed saga: confirmed, committed, and
    the one stored payment of the order was captured for its total under the
    reference on record. A cancelled saga: cancelled, nothing held or committed,
    and no stored payment of the order is approved.
  */
  lemma OutcomeOnRows(s: Sys, o: OrderId)
    requires System.Reachable(s) && o in s.world.orders && s.world.orders[o].saga.Some?
    ensures var r, i := s.world.orders[o], s.world.orders[o].saga.value;
      && (i.state == Completed ==>
            && r.status == Order.Confirmed
            && o in s.stock.db.res && s.stock.db.res[o].status == Committed
            && (exists id :: StoredFor(s.pay.rows, o, id))
            && (forall id | StoredFor(s.pay.rows, o, id) ::
                  s.pay.rows[id].reference == i.reference && s.pay.rows[id].amount == r.placed.total
                  && s.pay.rows[id].status != Pays.Declined && s.pay.rows[id].status != Pays.Pending))
      && (i.state == Saga.Cancelled ==>
            && r.status == Order.Cancelled
            && (o in s.stock.db.res ==> s.stock.db.res[o].status == Released)
            && (forall id | StoredFor(s.pay.rows, o, id) :: !s.pay.rows[id].Approved()))
  {
    SystemRefinesWorld(s);
    OutcomeIsConsistent(s.world, o);
    StoredPayment(s, o);
  }

  /** All rows of an order are the one that the saga sees. */
  lemma StoredPayment(s: Sys, o: OrderId)
    requires System.Reachable(s) && o in s.world.orders
    ensures var p := s.world.orders[o].pay;
      && (p.Some? ==> exists id :: StoredFor(s.pay.rows, o, id))
      && (forall id | StoredFor(s.pay.rows, o, id) :: p == Some(SeenAs(s.pay.rows[id])))
    ensures forall id | StoredFor(s.pay.rows, o, id) ::
      s.pay.rows[id].amount == s.world.orders[o].placed.total && s.pay.rows[id].currency == s.world.orders[o].placed.currency
  {
    SystemRefinesWorld(s);
    var p := s.world.orders[o].pay;
    assert PayMatches(s.pay.rows, o, p);
    ReachableInv(s.world);
    assert OrderOk(s.world.orders[o], ResOf(s.world.db, o));
    if p.Some? {
      var j :| j in s.pay.rows && s.pay.rows[j].order == o && p.value == SeenAs(s.pay.rows[j]);
      assert StoredFor(s.pay.rows, o, j);
      forall id | StoredFor(s.pay.rows, o, id) ensures id == j {
        Store.OnePaymentPerOrder(s.pay, id, j);
      }
    }
  }
}
