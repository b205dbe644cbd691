/** When a handler that meets no fault ends the saga, when no handler ever can, and a run that must be excluded. */
module SagaRecovery {
  import opened Results
  import opened Int64
  import opened StockLedger
  import opened InventoryMachine
  import opened Saga
  import opened SagaOutcome
  import Domain = InventoryDomain
  import Order = OrderAggregate
  import Pays = PaymentDomain

  // ---- a handler that is not dropped ends the saga ----

  /** Statements left at most. */
  function Left(pc: Saga.Pc): nat {
    match pc
    case Loading => 9
    case Creating => 8
    case Reserving => 7
    case SavingReserved => 6
    case Authorizing => 5
    case SavingPaid => 4
    case CommittingStock => 3
    case Releasing(_) => 3
    case Confirming => 2
    case CancellingOrder(_) => 2
    case SavingCompleted => 1
    case SavingCancelled => 1
  }

  predicate Ended(r: Record) {
    r.saga.Some? && r.saga.value.Terminal()
  }

  lemma ActProgress(db: Db, o: OrderId, r: Record, a: Answer)
    requires OrderOk(r, ResOf(db, o)) && MayAct(db, o, r, a)
    ensures var r' := Advance(r, a);
      if r'.run.Some? then Left(r'.run.value.pc) < Left(r.run.value.pc) else Ended(r')
  {
  }

  function Acts(ls: seq<Label>, o: OrderId): nat {
    if ls == [] then 0 else ActOf(ls[0], o) + Acts(ls[1..], o)
  }

  function ActOf(l: Label, o: OrderId): nat {
    if l.Act? && l.order == o then 1 else 0
  }

  predicate Undropped(ls: seq<Label>, o: OrderId) {
    forall i | 0 <= i < |ls| :: ls[i] != Drop(o)
  }

  /** The saga has ended, or the handler at work needs at most `n` more statements. */
  predicate Near(r: Record, n: nat) {
    Ended(r) || (r.run.Some? && Left(r.run.value.pc) <= n)
  }

  lemma StepNear(w: World, l: Label, o: OrderId, n: nat)
    requires Saga.Inv(w) && Saga.Enabled(w, l) && o in w.orders && l != Drop(o)
    requires Near(w.orders[o], n + ActOf(l, o))
    ensures o in Saga.Step(w, l).orders && Near(Saga.Step(w, l).orders[o], n)
  {
    if Ended(w.orders[o]) {
      StepRank(w, l, o);
    } else if ActOf(l, o) == 0 {
    } else {
      assert OrderOk(w.orders[o], ResOf(w.db, o));
      ActProgress(w.db, o, w.orders[o], l.answer);
    }
  }

  /**
    A handler that gets to take nine statements (one read at least), and is not
    dropped, ends its saga, whatever admins, providers and other orders do meanwhile.
  */
  lemma {:induction false} UndroppedHandlerEnds(w: World, ls: seq<Label>, w': World, o: OrderId)
    requires Saga.Inv(w) && Saga.Steps(w, ls, w') && o in w.orders && Undropped(ls, o)
    requires Near(w.orders[o], Acts(ls, o))
    ensures o in w'.orders && Ended(w'.orders[o])
    decreases |ls|
  {
    if ls != [] {
      StepNear(w, ls[0], o, Acts(ls[1..], o));
      Saga.StepKeeps(w, ls[0]);
      UndroppedHandlerEnds(Saga.Step(w, ls[0]), ls[1..], w', o);
    }
  }

  // ---- when a statement cannot get a definite answer ----

  predicate LineRefused(stock: map<Sku, Row>, l: Line) {
    l.sku !in stock || stock[l.sku].available < l.qty
  }

  predicate Refusable(stock: map<Sku, Row>, lines: seq<Line>) {
    exists i | 0 <= i < |lines| :: LineRefused(stock, lines[i])
  }

  function LinesOf(r: Record): seq<Line> {
    Domain.SortLines(r.placed.lines)
  }

  /** Only an int64 counter stands in the way. */
  predicate ReserveOverflows(db: Db, r: Record) {
    !Refusable(db.stock, LinesOf(r)) && !Allows(Reserve, db.stock, LinesOf(r))
  }

  predicate ReleaseOverflows(db: Db, o: OrderId) {
    o in db.res && db.res[o].status == Held && !Allows(Release, db.stock, db.res[o].lines)
  }

  /** The next statement fails, however often it is tried in this state. */
  predicate Blocked(db: Db, o: OrderId, r: Record) {
    r.run.Some? &&
    match r.run.value.pc
    case Reserving => o !in db.res && ReserveOverflows(db, r)
    case Releasing(_) => ReleaseOverflows(db, o)
    case Authorizing => r.pay == None && !Chargeable(r)
    case CancellingOrder(_) => !Loadable(r)
    case Confirming => r.status == Order.Cancelled
    case _ => false
  }

  /** What the provider says when it is asked. */
  datatype Env = Env(approved: bool, reference: string, why: string)

  function FirstRefused(stock: map<Sku, Row>, lines: seq<Line>): Outcome {
    if lines == [] then Granted
    else if lines[0].sku !in stock then UnknownSku(lines[0].sku)
    else if stock[lines[0].sku].available < lines[0].qty then Insufficient(lines[0].sku)
    else FirstRefused(stock, lines[1..])
  }

  lemma {:induction false} FirstRefusedSpec(stock: map<Sku, Row>, lines: seq<Line>)
    ensures var f := FirstRefused(stock, lines);
      if Refusable(stock, lines) then
        exists i :: 0 <= i < |lines| && LineRefused(stock, lines[i])
          && f == if lines[i].sku !in stock then UnknownSku(lines[i].sku) else Insufficient(lines[i].sku)
      else f == Granted
  {
    if lines != [] {
      if LineRefused(stock, lines[0]) {
      } else {
        FirstRefusedSpec(stock, lines[1..]);
        if Refusable(stock, lines[1..]) {
          var i :| 0 <= i < |lines[1..]| && LineRefused(stock, lines[1..][i])
            && FirstRefused(stock, lines[1..]) ==
                 if lines[1..][i].sku !in stock then UnknownSku(lines[1..][i].sku) else Insufficient(lines[1..][i].sku);
          assert lines[i + 1] == lines[1..][i];
        } else {
          forall i | 0 <= i < |lines| ensures !LineRefused(stock, lines[i]) {
            if i > 0 { assert !LineRefused(stock, lines[1..][i - 1]); }
          }
        }
      }
    }
  }

  /** What an inventory that nobody else uses answers. */
  function Alone(db: Db, call: Call): Outcome {
    if call.ReserveCall? then
      if call.order in db.res then Existing(db.res[call.order].status)
      else if Refusable(db.stock, call.lines) then FirstRefused(db.stock, call.lines)
      else if Allows(Reserve, db.stock, call.lines) then Granted
      else Internal
    else if call.order !in db.res then NotFound
    else if db.res[call.order].status == TargetOf(call.op) then AlreadyDone
    else if db.res[call.order].status != Held then InvalidState
    else if Allows(call.op, db.stock, db.res[call.order].lines) then Done
    else Internal
  }

  lemma AloneIsAtomic(db: Db, call: Call)
    requires call.ReserveCall? ==> Distinct(call.lines)
    requires call.MoveCall? ==> call.op != Reserve
    ensures Possible(db, call, Alone(db, call))
  {
    if call.ReserveCall? && call.order !in db.res && Refusable(db.stock, call.lines) {
      FirstRefusedSpec(db.stock, call.lines);
      var i :| 0 <= i < |call.lines| && LineRefused(db.stock, call.lines[i])
        && FirstRefused(db.stock, call.lines) ==
             if call.lines[i].sku !in db.stock then UnknownSku(call.lines[i].sku) else Insufficient(call.lines[i].sku);
      assert IndexOf(call.lines, call.lines[i].sku) == i;
    }
  }

  /** The answer of an environment without faults. */
  function AloneAnswer(db: Db, o: OrderId, r: Record, env: Env): Answer {
    if CallOf(o, r).Some? then Inventory(Alone(db, CallOf(o, r).value))
    else Charge(env.approved, env.reference, env.why)
  }

  lemma HeldAllowsCommit(db: Db, o: OrderId)
    requires LedgerOk(db) && o in db.res && db.res[o].status == Held
    ensures Allows(Commit, db.stock, db.res[o].lines)
  {
    var lines := db.res[o].lines;
    forall i | 0 <= i < |lines| ensures lines[i].sku in db.stock && RowAllows(Commit, db.stock[lines[i].sku], lines[i].qty) {
      HeldIsCovered(db, o, i);
    }
  }

  lemma RefusalIsRefusable(db: Db, call: Call, outcome: Outcome)
    requires call.ReserveCall? && Possible(db, call, outcome) && (outcome.UnknownSku? || outcome.Insufficient?)
    ensures Refusable(db.stock, call.lines)
  {
  }

  lemma BlockedCall(w: World, o: OrderId, a: Answer)
    requires Saga.Inv(w) && o in w.orders && CallOf(o, w.orders[o]).Some?
    ensures Blocked(w.db, o, w.orders[o]) ==> !MayAct(w.db, o, w.orders[o], a)
  {
    var r := w.orders[o];
    if r.run.value.pc == Reserving && MayAct(w.db, o, r, a) && Blocked(w.db, o, r) {
      if a.outcome.UnknownSku? || a.outcome.Insufficient? {
        RefusalIsRefusable(w.db, ReserveOf(o, r.placed), a.outcome);
      }
    }
  }

  lemma UnblockedCall(w: World, o: OrderId, env: Env)
    requires Saga.Inv(w) && o in w.orders && CallOf(o, w.orders[o]).Some? && !Blocked(w.db, o, w.orders[o])
    ensures MayAct(w.db, o, w.orders[o], AloneAnswer(w.db, o, w.orders[o], env))
  {
    var r := w.orders[o];
    var call := CallOf(o, r).value;
    assert OrderOk(r, ResOf(w.db, o));
    Domain.SortLinesSpec(r.placed.lines);
    AloneIsAtomic(w.db, call);
    match r.run.value.pc
    case Reserving =>
      if o !in w.db.res && Refusable(w.db.stock, call.lines) { FirstRefusedSpec(w.db.stock, call.lines); }
    case Releasing(_) =>
    case CommittingStock => if w.db.res[o].status == Held { HeldAllowsCommit(w.db, o); }
  }

  /**
    A statement can get no definite answer exactly in five cases: an order that cannot
    be charged, its total not being positive or its currency not three long; a cancelled order that is to be
    confirmed; an order with a negative total, which cannot be loaded, that is to be
    cancelled; and a stock counter that would pass int64 in a reserve or a release.
  */
  lemma BlockedIff(w: World, o: OrderId)
    requires Saga.Inv(w) && o in w.orders && w.orders[o].run.Some?
    ensures (forall a :: !Saga.Enabled(w, Act(o, a))) <==> Blocked(w.db, o, w.orders[o])
  {
    var r := w.orders[o];
    assert OrderOk(r, ResOf(w.db, o));
    var env := Env(true, "", "");
    if Blocked(w.db, o, r) {
      forall a ensures !Saga.Enabled(w, Act(o, a)) {
        if CallOf(o, r).Some? { BlockedCall(w, o, a); }
      }
    } else {
      if CallOf(o, r).Some? { UnblockedCall(w, o, env); }
      assert Saga.Enabled(w, Act(o, AloneAnswer(w.db, o, r, env)));
    }
  }

  // ---- one handler without faults, exactly ----

  /** The handler run to its end with nobody in between. */
  function Finish(w: World, o: OrderId, env: Env): (w': World)
    requires o in w.orders
    ensures o in w'.orders && w'.orders[o].run == None
    decreases if w.orders[o].run.Some? then 1 + Left(w.orders[o].run.value.pc) else 0
  {
    var r := w.orders[o];
    if r.run == None then w
    else
      var a := AloneAnswer(w.db, o, r, env);
      if MayAct(w.db, o, r, a) then Finish(Saga.Step(w, Act(o, a)), o, env)
      else Saga.Step(w, Drop(o))
  }

  /** From a held reservation on: `granted` when it was granted just now. */
  predicate DoomedPayment(db: Db, o: OrderId, r: Record, env: Env, granted: bool) {
    if r.pay == None && !Chargeable(r) then true
    else if if r.pay.Some? then Approved(r.pay.value) else env.approved then r.status == Order.Cancelled
    else !granted && ReleaseOverflows(db, o)
  }

  predicate DoomedStart(db: Db, o: OrderId, r: Record, env: Env) {
    if o in db.res then DoomedPayment(db, o, r, env, false)
    else if Allows(Reserve, db.stock, LinesOf(r)) then DoomedPayment(db, o, r, env, true)
    else !Refusable(db.stock, LinesOf(r)) || !Loadable(r)
  }

  /** By the persisted state of the saga: a fault-free handler cannot end it now. */
  predicate Doomed(db: Db, o: OrderId, r: Record, env: Env) {
    match r.saga
    case None => DoomedStart(db, o, r, env)
    case Some(i) =>
      match i.state
      case Started => DoomedStart(db, o, r, env)
      case Reserved => DoomedPayment(db, o, r, env, false)
      case Paid => r.status == Order.Cancelled
      case _ => false
  }

  predicate DoomedAt(db: Db, o: OrderId, r: Record, env: Env)
    requires r.run.Some?
  {
    match r.run.value.pc
    case Loading => Doomed(db, o, r, env)
    case Creating => DoomedStart(db, o, r, env)
    case Reserving => DoomedStart(db, o, r, env)
    case SavingReserved => DoomedPayment(db, o, r, env, false)
    case Authorizing => DoomedPayment(db, o, r, env, false)
    case Releasing(_) => ReleaseOverflows(db, o)
    case SavingPaid => r.status == Order.Cancelled
    case CommittingStock => r.status == Order.Cancelled
    case Confirming => r.status == Order.Cancelled
    case CancellingOrder(_) => !Loadable(r)
    case _ => false
  }

  /** What was granted can be given back. */
  lemma GrantThenRelease(db: Db, lines: seq<Line>)
    requires LedgerOk(db) && ValidLines(lines) && Allows(Reserve, db.stock, lines)
    ensures Allows(Release, Shift(Reserve, db.stock, lines), lines)
  {
  }

  lemma GrantDoom(db: Db, o: OrderId, r: Record, env: Env)
    requires LedgerOk(db) && ValidLines(LinesOf(r)) && o !in db.res && Allows(Reserve, db.stock, LinesOf(r))
    ensures DoomedPayment(ReserveAll(db, o, LinesOf(r)), o, r, env, false) == DoomedPayment(db, o, r, env, true)
  {
    GrantThenRelease(db, LinesOf(r));
  }

  lemma ReserveDoom(db: Db, o: OrderId, r: Record, env: Env)
    requires LedgerOk(db) && ValidLines(LinesOf(r)) && r.run.Some? && r.run.value.pc == Reserving
    requires OrderOk(r, ResOf(db, o)) && MayAct(db, o, r, AloneAnswer(db, o, r, env))
    ensures var a := AloneAnswer(db, o, r, env);
      Advance(r, a).run.Some? && DoomedAt(DbAfter(db, o, r, a), o, Advance(r, a), env) == DoomedAt(db, o, r, env)
  {
    var a := AloneAnswer(db, o, r, env);
    if o in db.res {
      assert a.outcome.Existing?;
    } else if Refusable(db.stock, LinesOf(r)) {
      FirstRefusedSpec(db.stock, LinesOf(r));
      assert Advance(r, a).run.value.pc == CancellingOrder(REJECTED);
    } else {
      assert a.outcome == Granted;
      GrantDoom(db, o, r, env);
    }
  }

  lemma MoveDoom(db: Db, o: OrderId, r: Record, env: Env)
    requires OrderOk(r, ResOf(db, o)) && r.run.Some? && (r.run.value.pc.Releasing? || r.run.value.pc == CommittingStock)
    requires MayAct(db, o, r, AloneAnswer(db, o, r, env))
    ensures var a := AloneAnswer(db, o, r, env);
      Advance(r, a).run.Some? && DoomedAt(DbAfter(db, o, r, a), o, Advance(r, a), env) == DoomedAt(db, o, r, env)
  {
  }

  lemma LocalDoom(db: Db, o: OrderId, r: Record, env: Env)
    requires OrderOk(r, ResOf(db, o)) && r.run.Some? && CallOf(o, r) == None
    requires MayAct(db, o, r, AloneAnswer(db, o, r, env))
    ensures var r' := Advance(r, AloneAnswer(db, o, r, env));
      if r'.run.Some? then DoomedAt(db, o, r', env) == DoomedAt(db, o, r, env)
      else Ended(r') && !DoomedAt(db, o, r, env)
  {
    var r' := Advance(r, AloneAnswer(db, o, r, env));
  }

  lemma StepDoom(w: World, o: OrderId, env: Env)
    requires Saga.Inv(w) && o in w.orders && w.orders[o].run.Some?
    requires MayAct(w.db, o, w.orders[o], AloneAnswer(w.db, o, w.orders[o], env))
    ensures var r, a := w.orders[o], AloneAnswer(w.db, o, w.orders[o], env);
      && var r' := Advance(r, a);
         if r'.run.Some? then DoomedAt(DbAfter(w.db, o, r, a), o, r', env) == DoomedAt(w.db, o, r, env)
         else Ended(r') && !DoomedAt(w.db, o, r, env)
  {
    var r := w.orders[o];
    assert OrderOk(r, ResOf(w.db, o));
    if r.run.value.pc == Reserving {
      Domain.SortLinesSpec(r.placed.lines);
      ReserveDoom(w.db, o, r, env);
    } else if CallOf(o, r).Some? {
      MoveDoom(w.db, o, r, env);
    } else {
      LocalDoom(w.db, o, r, env);
    }
  }

  lemma BlockedIsDoomed(w: World, o: OrderId, env: Env)
    requires Saga.Inv(w) && o in w.orders && w.orders[o].run.Some?
    requires !MayAct(w.db, o, w.orders[o], AloneAnswer(w.db, o, w.orders[o], env))
    ensures DoomedAt(w.db, o, w.orders[o], env) && !Ended(w.orders[o])
  {
    var r := w.orders[o];
    assert OrderOk(r, ResOf(w.db, o));
    if CallOf(o, r).Some? && !Blocked(w.db, o, r) { UnblockedCall(w, o, env); }
  }

  lemma {:induction false} FinishIff(w: World, o: OrderId, env: Env)
    requires Saga.Inv(w) && o in w.orders && w.orders[o].run.Some?
    ensures Ended(Finish(w, o, env).orders[o]) <==> !DoomedAt(w.db, o, w.orders[o], env)
    decreases Left(w.orders[o].run.value.pc)
  {
    var r := w.orders[o];
    var a := AloneAnswer(w.db, o, r, env);
    if MayAct(w.db, o, r, a) {
      var w' := Saga.Step(w, Act(o, a));
      StepDoom(w, o, env);
      if w'.orders[o].run.Some? {
        ActProgress(w.db, o, r, a);
        Saga.StepKeeps(w, Act(o, a));
        FinishIff(w', o, env);
      }
    } else {
      BlockedIsDoomed(w, o, env);
    }
  }

  /** Redelivery, and one handler without faults. */
  function Redelivered(w: World, o: OrderId, env: Env): (w': World)
    requires o in w.orders && w.orders[o].run == None
    ensures o in w'.orders && w'.orders[o].run == None
  {
    Finish(Saga.Step(w, Deliver(o)), o, env)
  }

  lemma EndedRedelivered(w: World, o: OrderId, env: Env)
    requires o in w.orders && w.orders[o].run == None && Ended(w.orders[o])
    ensures Redelivered(w, o, env) == w
  {
    var w1 := Saga.Step(w, Deliver(o));
    var a := AloneAnswer(w1.db, o, w1.orders[o], env);
    RedeliveryChangesNothing(w, o, a);
    assert MayAct(w1.db, o, w1.orders[o], a);
    assert Finish(w1, o, env) == Finish(Saga.Step(w1, Act(o, a)), o, env);
  }

  /**
    Recoverability. From every reachable state in which no handler is at work,
    redelivery and one handler without faults end the saga if and only if the
    state is not doomed; and then a further redelivery changes nothing.
  */
  lemma RestartEndsIff(w: World, o: OrderId, env: Env)
    requires Saga.Reachable(w) && o in w.orders && w.orders[o].run == None
    ensures Ended(Redelivered(w, o, env).orders[o]) <==> !Doomed(w.db, o, w.orders[o], env)
    ensures !Doomed(w.db, o, w.orders[o], env) ==>
      forall later :: Redelivered(Redelivered(w, o, env), o, later) == Redelivered(w, o, env)
  {
    ReachableInv(w);
    var w' := Redelivered(w, o, env);
    if Ended(w'.orders[o]) {
      forall later ensures Redelivered(w', o, later) == w' { EndedRedelivered(w', o, later); }
    }
    LoadingDoom(w, o, env);
    FinishIff(Saga.Step(w, Deliver(o)), o, env);
  }

  lemma LoadingDoom(w: World, o: OrderId, env: Env)
    requires Saga.Inv(w) && o in w.orders && w.orders[o].run == None
    ensures var w' := Saga.Step(w, Deliver(o));
      Saga.Inv(w') && w'.orders[o].run.Some? && DoomedAt(w'.db, o, w'.orders[o], env) == Doomed(w.db, o, w.orders[o], env)
  {
    Saga.StepKeeps(w, Deliver(o));
  }

  /** No counter of any SKU can pass int64 by moving units between available and reserved. */
  predicate Roomy(stock: map<Sku, Row>) {
    forall s | s in stock :: stock[s].available + stock[s].reserved <= MAX_INT64
  }

  /** The order was cancelled on a rejection, and yet stock is held for it or would be granted now. */
  predicate LateGrant(db: Db, o: OrderId, r: Record) {
    && r.status == Order.Cancelled && !Ended(r)
    && if o in db.res then db.res[o].status != Released else Allows(Reserve, db.stock, LinesOf(r))
  }

  /** The payment can turn out approved, or has been. */
  predicate MayBeApproved(r: Record) {
    r.pay == None || Approved(r.pay.value) || (r.saga.Some? && r.saga.value.state == Paid)
  }

  /** The payment can turn out refused, while the saga waits for it. */
  predicate MayBeRefused(r: Record) {
    (r.pay == None || !Approved(r.pay.value)) && !(r.saga.Some? && r.saga.value.state == Paid)
  }

  /** Approved, the order cannot be confirmed; or refused, or first of all, a counter would pass int64. */
  predicate Hindered(db: Db, o: OrderId, r: Record) {
    && !Ended(r)
    && (|| (MayBeApproved(r) && LateGrant(db, o, r))
        || (MayBeRefused(r) && ReleaseOverflows(db, o))
        || (o !in db.res && ReserveOverflows(db, r)))
  }

  /** When the order can be charged some answer of the provider is fatal exactly when the saga is hindered. */
  lemma HinderedIff(db: Db, o: OrderId, r: Record)
    requires OrderOk(r, ResOf(db, o)) && Chargeable(r)
    ensures (exists env :: Doomed(db, o, r, env)) <==> Hindered(db, o, r)
  {
    var approving, refusing := Env(true, "", ""), Env(false, "", "");
    assert Hindered(db, o, r) ==> Doomed(db, o, r, approving) || Doomed(db, o, r, refusing);
  }

  lemma RoomyRelease(db: Db, o: OrderId)
    requires LedgerOk(db) && Roomy(db.stock)
    ensures !ReleaseOverflows(db, o)
  {
    if o in db.res && db.res[o].status == Held {
      var lines := db.res[o].lines;
      forall i | 0 <= i < |lines| ensures lines[i].sku in db.stock && RowAllows(Release, db.stock[lines[i].sku], lines[i].qty) {
        HeldIsCovered(db, o, i);
      }
    }
  }

  /**
    An order that can be charged is recoverable whatever the provider says if and
    only if it is not hindered. While no counter can pass int64, only a late grant
    hinders it, and only if its payment can still be approved.
  */
  lemma ChargeableRecovers(w: World, o: OrderId)
    requires Saga.Reachable(w) && o in w.orders && w.orders[o].run == None && Chargeable(w.orders[o])
    ensures var r := w.orders[o];
      && ((forall env :: Ended(Redelivered(w, o, env).orders[o])) <==> !Hindered(w.db, o, r))
      && (Roomy(w.db.stock) ==> (Hindered(w.db, o, r) <==> MayBeApproved(r) && LateGrant(w.db, o, r)))
  {
    ReachableInv(w);
    var r := w.orders[o];
    HinderedIff(w.db, o, r);
    forall env ensures Ended(Redelivered(w, o, env).orders[o]) <==> !Doomed(w.db, o, r, env) {
      RestartEndsIff(w, o, env);
    }
    if Roomy(w.db.stock) {
      RoomyRelease(w.db, o);
    }
  }

  // ---- when no handler ever can ----

  /**
    A negative total, so that payment refuses the charge and nothing can be loaded; or
    paid for an order that was cancelled; or holding stock for an order that cannot be charged.
  */
  predicate Stuck(w: World, o: OrderId) {
    && o in w.orders
    && var r := w.orders[o];
       || !Loadable(r)
       || (r.saga.Some? && r.saga.value.state == Paid && r.status == Order.Cancelled)
       || (r.saga.Some? && r.saga.value.state == Reserved && r.pay == None && !Chargeable(r))
  }

  lemma StepStuck(w: World, l: Label, o: OrderId)
    requires Saga.Inv(w) && Stuck(w, o) && Saga.Enabled(w, l)
    ensures Stuck(Saga.Step(w, l), o)
  {
    assert OrderOk(w.orders[o], ResOf(w.db, o));
  }

  /** From a stuck state no run ever ends the saga. */
  lemma {:induction false} StuckForever(w: World, ls: seq<Label>, w': World, o: OrderId)
    requires Saga.Inv(w) && Stuck(w, o) && Saga.Steps(w, ls, w')
    ensures Stuck(w', o) && !Ended(w'.orders[o])
    decreases |ls|
  {
    if ls != [] {
      StepStuck(w, ls[0], o);
      Saga.StepKeeps(w, ls[0]);
      StuckForever(Saga.Step(w, ls[0]), ls[1..], w', o);
    }
  }

  // ---- a late grant ----

  /** A world with one order. */
  function One(db: Db, o: OrderId, r: Record): World {
    World(db, map[o := r])
  }

  /** One statement of the only order's handler. */
  lemma Statement(db: Db, o: OrderId, r: Record, a: Answer, db': Db, r': Record)
    requires Saga.Reachable(One(db, o, r)) && MayAct(db, o, r, a)
    requires r' == Advance(r, a) && db' == DbAfter(db, o, r, a)
    ensures Saga.Reachable(One(db', o, r'))
  {
    Onward(One(db, o, r), Act(o, a), One(db', o, r'));
  }

  function Wants(sku: Sku, qty: int, total: int, currency: string): Placed {
    Placed([Line(sku, qty)], total, currency)
  }

  const NO_STOCK := Db(map[], map[])

  lemma OneLine(sku: Sku, qty: int)
    requires 0 < qty <= 100_000
    ensures ValidLines([Line(sku, qty)]) && Domain.SortLines([Line(sku, qty)]) == [Line(sku, qty)]
    ensures Has([Line(sku, qty)], sku) && QtyOf([Line(sku, qty)], sku) == qty
  {
    var lines := [Line(sku, qty)];
    assert Domain.SortLines(lines[1..]) == [];
    assert IndexOf(lines, sku) == 0;
  }

  function Fresh(sku: Sku, qty: int, total: int, currency: string, saga: Option<Instance>, run: Option<Run>): Record {
    Record(Wants(sku, qty, total, currency), Order.Pending, saga, run, None)
  }

  lemma AboutToReserve(o: OrderId, sku: Sku, qty: int, total: int, currency: string)
    requires 0 < qty <= 100_000
    ensures Saga.Reachable(One(NO_STOCK, o, Fresh(sku, qty, total, currency, Some(NEW_INSTANCE), Some(Run(Reserving, NEW_INSTANCE)))))
  {
    OneLine(sku, qty);
    var db := NO_STOCK;
    assert Saga.Steps(EMPTY_WORLD, [], EMPTY_WORLD);
    var r0 := Fresh(sku, qty, total, currency, None, None);
    Onward(EMPTY_WORLD, Place(o, r0.placed), One(db, o, r0));
    var r1 := r0.(run := Some(Run(Loading, NEW_INSTANCE)));
    Onward(One(db, o, r0), Deliver(o), One(db, o, r1));
    var r2 := r0.(run := Some(Run(Creating, NEW_INSTANCE)));
    Statement(db, o, r1, NoAnswer, db, r2);
    Statement(db, o, r2, NoAnswer, db, Fresh(sku, qty, total, currency, Some(NEW_INSTANCE), Some(Run(Reserving, NEW_INSTANCE))));
  }

  /** Rejected and cancelled, but not saved. */
  function RejectedUnsaved(sku: Sku, qty: int, total: int, currency: string): Record {
    Record(Wants(sku, qty, total, currency), Order.Cancelled, Some(NEW_INSTANCE), None, None)
  }

  /** An order can be left rejected and cancelled, with a saga that is not saved, exactly when its total is not negative. */
  lemma CancelledUnsaved(o: OrderId, sku: Sku, qty: int, total: int, currency: string)
    requires 0 < qty <= 100_000
    ensures Saga.Reachable(One(NO_STOCK, o, RejectedUnsaved(sku, qty, total, currency))) <==> total >= 0
  {
    if total >= 0 {
      ReachCancelled(o, sku, qty, total, currency);
    } else {
      var r := RejectedUnsaved(sku, qty, total, currency);
      if Saga.Reachable(One(NO_STOCK, o, r)) {
        ReachableOrder(One(NO_STOCK, o, r), o);
      }
    }
  }

  lemma ReachCancelled(o: OrderId, sku: Sku, qty: int, total: int, currency: string)
    requires 0 < qty <= 100_000 && total >= 0
    ensures Saga.Reachable(One(NO_STOCK, o, RejectedUnsaved(sku, qty, total, currency)))
  {
    AboutToReserve(o, sku, qty, total, currency);
    OneLine(sku, qty);
    var db := NO_STOCK;
    var r3 := Fresh(sku, qty, total, currency, Some(NEW_INSTANCE), Some(Run(Reserving, NEW_INSTANCE)));
    assert Possible(db, ReserveOf(o, r3.placed), UnknownSku(sku));
    var r4 := r3.(run := Some(Run(CancellingOrder(REJECTED), NEW_INSTANCE)));
    Statement(db, o, r3, Inventory(UnknownSku(sku)), db, r4);
    var i := NEW_INSTANCE.(state := Saga.Cancelled, reason := REJECTED);
    var r5 := r4.(status := Order.Cancelled, run := Some(Run(SavingCancelled, i)));
    Statement(db, o, r4, NoAnswer, db, r5);
    Onward(One(db, o, r5), Drop(o), One(db, o, r5.(run := None)));
  }

  function Stocked(sku: Sku, qty: int): Db {
    Db(map[sku := Row(qty, 0, 0)], map[])
  }

  function HeldDb(o: OrderId, sku: Sku, qty: int): Db {
    Db(map[sku := Row(0, qty, 1)], map[o := Reservation(Held, [Line(sku, qty)])])
  }

  function CommittedDb(o: OrderId, sku: Sku, qty: int): Db {
    Db(map[sku := Row(0, 0, 2)], map[o := Reservation(Committed, [Line(sku, qty)])])
  }

  /** Stock arrives, and the redelivered event gets it. */
  lemma GrantedLate(o: OrderId, sku: Sku, qty: int, total: int, currency: string)
    requires 0 < qty <= 100_000 && total >= 0
    ensures var i := NEW_INSTANCE.(state := Reserved, held := true);
      Saga.Reachable(One(HeldDb(o, sku, qty), o,
        Record(Wants(sku, qty, total, currency), Order.Cancelled, Some(NEW_INSTANCE), Some(Run(SavingReserved, i)), None)))
  {
    CancelledUnsaved(o, sku, qty, total, currency);
    OneLine(sku, qty);
    var r := RejectedUnsaved(sku, qty, total, currency);
    var db := Stocked(sku, qty);
    assert Restock(NO_STOCK, sku, qty) == db;
    Onward(One(NO_STOCK, o, r), Admin(sku, qty), One(db, o, r));
    var r1 := r.(run := Some(Run(Loading, NEW_INSTANCE)));
    Onward(One(db, o, r), Deliver(o), One(db, o, r1));
    var r2 := r.(run := Some(Run(Reserving, NEW_INSTANCE)));
    Statement(db, o, r1, NoAnswer, db, r2);
    var call := ReserveOf(o, r.placed);
    assert ReserveAll(db, o, call.lines) == HeldDb(o, sku, qty) by {
      assert Shift(Reserve, db.stock, call.lines) == map[sku := Row(0, qty, 1)];
    }
    assert Possible(db, call, Granted);
    Statement(db, o, r2, Inventory(Granted), HeldDb(o, sku, qty), Advance(r2, Inventory(Granted)));
  }

  /** The saga's record of a captured payment for the cancelled order. */
  function PaidLate(sku: Sku, qty: int, total: int, currency: string, reference: string, run: Option<Run>): Record {
    Record(Wants(sku, qty, total, currency), Order.Cancelled, Some(Instance(Paid, true, reference, "")), run,
           Some(Payment(Pays.Captured, total, reference, "")))
  }

  lemma PaidAndHeld(o: OrderId, sku: Sku, qty: int, total: int, currency: string, reference: string)
    requires 0 < qty <= 100_000 && total > 0 && |currency| == 3
    ensures Saga.Reachable(One(HeldDb(o, sku, qty), o,
      PaidLate(sku, qty, total, currency, reference, Some(Run(CommittingStock, Instance(Paid, true, reference, ""))))))
  {
    GrantedLate(o, sku, qty, total, currency);
    var db := HeldDb(o, sku, qty);
    var i := NEW_INSTANCE.(state := Reserved, held := true);
    var r := Record(Wants(sku, qty, total, currency), Order.Cancelled, Some(NEW_INSTANCE), Some(Run(SavingReserved, i)), None);
    var r1 := r.(saga := Some(i), run := Some(Run(Authorizing, i)));
    Statement(db, o, r, NoAnswer, db, r1);
    var paid := Instance(Paid, true, reference, "");
    var r2 := PaidLate(sku, qty, total, currency, reference, Some(Run(SavingPaid, paid))).(saga := Some(i));
    Statement(db, o, r1, Charge(true, reference, ""), db, r2);
    Statement(db, o, r2, NoAnswer, db, PaidLate(sku, qty, total, currency, reference, Some(Run(CommittingStock, paid))));
  }

  lemma PaidAndCommitted(o: OrderId, sku: Sku, qty: int, total: int, currency: string, reference: string)
    requires 0 < qty <= 100_000 && total > 0 && |currency| == 3
    ensures Saga.Reachable(One(CommittedDb(o, sku, qty), o,
      PaidLate(sku, qty, total, currency, reference, Some(Run(Confirming, Instance(Paid, true, reference, ""))))))
  {
    PaidAndHeld(o, sku, qty, total, currency, reference);
    OneLine(sku, qty);
    var db := HeldDb(o, sku, qty);
    var paid := Instance(Paid, true, reference, "");
    var r3 := PaidLate(sku, qty, total, currency, reference, Some(Run(CommittingStock, paid)));
    assert MoveAll(Commit, db, o) == CommittedDb(o, sku, qty) by {
      assert Shift(Commit, db.stock, [Line(sku, qty)]) == map[sku := Row(0, 0, 2)];
    }
    assert Possible(db, MoveCall(o, Commit), Done);
    Statement(db, o, r3, Inventory(Done), CommittedDb(o, sku, qty),
              PaidLate(sku, qty, total, currency, reference, Some(Run(Confirming, paid))));
  }

  /**
    For every order of one line with a positive total there is a run after which
    the order is cancelled although its payment is captured and its stock has
    left, and from which no further run ends the saga.
  */
  lemma CancelledThenPaid(o: OrderId, sku: Sku, qty: int, total: int, currency: string, reference: string)
    requires 0 < qty <= 100_000 && total > 0 && |currency| == 3
    ensures exists w: World ::
      && Saga.Reachable(w) && o in w.orders && w.orders[o].placed == Wants(sku, qty, total, currency)
      && w.orders[o].status == Order.Cancelled
      && w.orders[o].pay == Some(Payment(Pays.Captured, total, reference, ""))
      && ResOf(w.db, o) == Some(Committed)
      && Stuck(w, o)
  {
    PaidAndCommitted(o, sku, qty, total, currency, reference);
    var w := One(CommittedDb(o, sku, qty), o,
                 PaidLate(sku, qty, total, currency, reference, Some(Run(Confirming, Instance(Paid, true, reference, "")))));
    assert Stuck(w, o);
  }
}
