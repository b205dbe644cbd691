/**
  The fulfilment saga of every order, over an atomic inventory ledger, one
  payment per order and the order's own status. A run of the handler goes from
  statement to statement; between any two it may be dropped (crash, lost reply,
  error) and later be started again by redelivery, while admins change stock and
  the payment provider settles, refunds or fails what was captured.
*/
module Saga {
  import Int64
  import opened Results
  import opened StockLedger
  import opened InventoryMachine
  import opened InventoryRefinement
  import opened OrderClients
  import Domain = InventoryDomain
  import Pays = PaymentDomain
  import Order = OrderAggregate

  // ---- the saga instance ----

  datatype SagaState = Started | Reserved | Paid | Completed | Cancelled

  datatype Instance = Instance(state: SagaState, held: bool, reference: string, reason: string) {
    predicate Terminal() { state == Completed || state == Cancelled }
  }

  const NEW_INSTANCE := Instance(Started, false, "", "")

  const REJECTED := "inventory reservation rejected"

  function DeclineReason(why: string): string {
    if why == "" then "payment declined" else "payment declined: " + why
  }

  // ---- the world ----

  /** What the order.placed event says. */
  datatype Placed = Placed(lines: seq<Line>, total: int, currency: string)

  datatype Payment = Payment(status: Pays.PayStatus, amount: int, reference: string, failure: string)

  datatype Pc =
    | Loading
    | Creating
    | Reserving
    | SavingReserved
    | Authorizing
    | Releasing(why: string)
    | CancellingOrder(reason: string)
    | SavingCancelled
    | SavingPaid
    | CommittingStock
    | Confirming
    | SavingCompleted

  datatype Run = Run(pc: Pc, inst: Instance)

  /** Everything about one order outside the inventory. */
  datatype Record = Record(placed: Placed, status: Order.Status, saga: Option<Instance>, run: Option<Run>, pay: Option<Payment>)

  datatype World = World(db: Db, orders: map<OrderId, Record>)

  const EMPTY_WORLD := World(Db(map[], map[]), map[])

  datatype Answer =
    | NoAnswer
    | Inventory(outcome: Outcome)
    | Charge(approved: bool, reference: string, why: string)   // the provider's answer, should it be asked

  datatype Label =
    | Place(order: OrderId, placed: Placed)
    | Deliver(order: OrderId)
    | Act(order: OrderId, answer: Answer)
    | Recharge(order: OrderId, answer: Answer)   // a capture whose reply is lost, retried in place
    | Drop(order: OrderId)
    | Provider(order: OrderId, status: Pays.PayStatus, reason: string)
    | Admin(sku: Sku, available: int)

  // ---- calls ----

  function ReserveOf(o: OrderId, placed: Placed): Call {
    ReserveCall(o, Domain.SortLines(placed.lines))
  }

  function EffectOf(db: Db, call: Call, outcome: Outcome): Db {
    if outcome == Granted && call.ReserveCall? then ReserveAll(db, call.order, call.lines)
    else if outcome == Done && call.MoveCall? && call.order in db.res then MoveAll(call.op, db, call.order)
    else db
  }

  /** A reserve is refused only when its first SELECT found no reservation, and nobody else makes one. */
  predicate Possible(db: Db, call: Call, outcome: Outcome) {
    && AtomicCall(db, call, outcome, EffectOf(db, call, outcome))
    && (outcome.UnknownSku? || outcome.Insufficient? ==> call.order !in db.res)
  }

  function CallOf(o: OrderId, r: Record): Option<Call> {
    if r.run == None then None
    else match r.run.value.pc
      case Reserving => Some(ReserveOf(o, r.placed))
      case Releasing(_) => Some(MoveCall(o, Release))
      case CommittingStock => Some(MoveCall(o, Commit))
      case _ => None
  }

  function VerdictOf(call: Call, outcome: Outcome): Verdict {
    if call.ReserveCall? then ReserveVerdict(InventoryReply(outcome)) else MoveVerdict(InventoryReply(outcome))
  }

  /** A payment can be opened for the order. */
  predicate Chargeable(r: Record) {
    Pays.Openable(r.placed.total, r.placed.currency)
  }

  /** The order's events can be read back: a placement whose accumulated total went negative cannot. */
  predicate Loadable(r: Record) {
    r.placed.total >= 0
  }

  /** The statement can run and get a definite answer; without one the run is dropped. */
  predicate MayAct(db: Db, o: OrderId, r: Record, a: Answer) {
    && r.run.Some?
    && match r.run.value.pc
       case Reserving => a.Inventory? && Possible(db, ReserveOf(o, r.placed), a.outcome) && VerdictOf(ReserveOf(o, r.placed), a.outcome) != Retry
       case Releasing(_) => a.Inventory? && Possible(db, MoveCall(o, Release), a.outcome) && VerdictOf(MoveCall(o, Release), a.outcome) == Success
       case CommittingStock => a.Inventory? && Possible(db, MoveCall(o, Commit), a.outcome) && VerdictOf(MoveCall(o, Commit), a.outcome) == Success
       case Authorizing => a.Charge? && (r.pay.Some? || Chargeable(r))
       case CancellingOrder(_) => r.status != Order.Confirmed && Loadable(r)
       case Confirming => r.status != Order.Cancelled && Loadable(r)
       case _ => true
  }

  /** The stored payment after a capture: the existing one, or a new one with the provider's answer. */
  function Captured(r: Record, a: Answer): Payment
    requires a.Charge?
  {
    if r.pay.Some? then r.pay.value
    else if a.approved then Payment(Pays.Captured, r.placed.total, a.reference, "")
    else Payment(Pays.Declined, r.placed.total, "", a.why)
  }

  predicate Approved(p: Payment) {
    p.status == Pays.Captured || p.status == Pays.Settled
  }

  /** What a webhook or a sweep makes of a stored payment. */
  function Reconciled(p: Payment, status: Pays.PayStatus, reason: string): Payment {
    p.(status := status, failure := if status == Pays.Failed then reason else p.failure)
  }

  function Resume(state: SagaState): Pc {
    match state
    case Started => Reserving
    case Reserved => Authorizing
    case _ => CommittingStock
  }

  /** One statement of the handler, on its order's record. */
  function Advance(r: Record, a: Answer): Record
    requires r.run.Some? && (r.run.value.pc == Authorizing ==> a.Charge?)
    requires r.run.value.pc == Reserving ==> a.Inventory?
  {
    var i := r.run.value.inst;
    match r.run.value.pc
    case Loading =>
      if r.saga == None then r.(run := Some(Run(Creating, NEW_INSTANCE)))
      else if r.saga.value.Terminal() then r.(run := None)
      else r.(run := Some(Run(Resume(r.saga.value.state), r.saga.value)))
    case Creating => r.(saga := Some(i), run := Some(Run(Reserving, i)))
    case Reserving =>
      if ReserveVerdict(InventoryReply(a.outcome)) == Rejected then r.(run := Some(Run(CancellingOrder(REJECTED), i)))
      else r.(run := Some(Run(SavingReserved, i.(state := Reserved, held := true))))
    case SavingReserved => r.(saga := Some(i), run := Some(Run(Authorizing, i)))
    case Authorizing =>
      var p := Captured(r, a);
      if Approved(p) then r.(pay := Some(p), run := Some(Run(SavingPaid, i.(state := Paid, reference := p.reference))))
      else r.(pay := Some(p), run := Some(Run(Releasing(p.failure), i)))
    case Releasing(why) => r.(run := Some(Run(CancellingOrder(DeclineReason(why)), i.(held := false))))
    case CancellingOrder(reason) =>
      r.(status := Order.Cancelled, run := Some(Run(SavingCancelled, i.(state := Cancelled, reason := reason))))
    case SavingCancelled => r.(saga := Some(i), run := None)
    case SavingPaid => r.(saga := Some(i), run := Some(Run(CommittingStock, i)))
    case CommittingStock => r.(run := Some(Run(Confirming, i)))
    case Confirming => r.(status := Order.Confirmed, run := Some(Run(SavingCompleted, i.(state := Completed, held := false))))
    case SavingCompleted => r.(saga := Some(i), run := None)
  }

  function DbAfter(db: Db, o: OrderId, r: Record, a: Answer): Db {
    if CallOf(o, r).Some? && a.Inventory? then EffectOf(db, CallOf(o, r).value, a.outcome) else db
  }

  predicate Enabled(w: World, l: Label) {
    match l
    case Place(o, placed) => o !in w.orders && ValidLines(placed.lines)
    case Deliver(o) => o in w.orders && w.orders[o].run == None
    case Act(o, a) => o in w.orders && MayAct(w.db, o, w.orders[o], a)
    case Recharge(o, a) =>
      && o in w.orders && MayAct(w.db, o, w.orders[o], a)
      && w.orders[o].run.value.pc == Authorizing
    case Drop(o) => o in w.orders && w.orders[o].run.Some?
    case Provider(o, status, _) =>
      o in w.orders && w.orders[o].pay.Some? && w.orders[o].pay.value.status != Pays.Pending
      && Pays.Edge(w.orders[o].pay.value.status, status)
    case Admin(_, available) => 0 <= available <= Int64.MAX_INT64
  }

  /** A step that is not enabled changes nothing. */
  function Step(w: World, l: Label): World {
    if !Enabled(w, l) then w
    else match l
    case Place(o, placed) => w.(orders := w.orders[o := Record(placed, Order.Pending, None, None, None)])
    case Deliver(o) => w.(orders := w.orders[o := w.orders[o].(run := Some(Run(Loading, NEW_INSTANCE)))])
    case Act(o, a) => World(DbAfter(w.db, o, w.orders[o], a), w.orders[o := Advance(w.orders[o], a)])
    case Recharge(o, a) => w.(orders := w.orders[o := w.orders[o].(pay := Some(Captured(w.orders[o], a)))])
    case Drop(o) => w.(orders := w.orders[o := w.orders[o].(run := None)])
    case Provider(o, status, reason) =>
      w.(orders := w.orders[o := w.orders[o].(pay := Some(Reconciled(w.orders[o].pay.value, status, reason)))])
    case Admin(sku, available) => w.(db := Restock(w.db, sku, available))
  }

  ghost predicate Steps(w: World, ls: seq<Label>, w': World)
    decreases |ls|
  {
    if ls == [] then w == w' else Enabled(w, ls[0]) && Steps(Step(w, ls[0]), ls[1..], w')
  }

  ghost predicate Reachable(w: World) {
    exists ls :: Steps(EMPTY_WORLD, ls, w)
  }

  lemma {:induction false} StepsSnoc(w: World, ls: seq<Label>, m: World, l: Label)
    requires Steps(w, ls, m) && Enabled(m, l)
    ensures Steps(w, ls + [l], Step(m, l))
    decreases |ls|
  {
    if ls == [] {
      assert Steps(Step(m, l), [], Step(m, l));
      assert ([l])[1..] == [];
    } else {
      StepsSnoc(Step(w, ls[0]), ls[1..], m, l);
      assert (ls + [l])[1..] == ls[1..] + [l];
    }
  }

  lemma Onward(w: World, l: Label, w': World)
    requires Reachable(w) && Enabled(w, l) && Step(w, l) == w'
    ensures Reachable(w')
  {
    var ls :| Steps(EMPTY_WORLD, ls, w);
    StepsSnoc(EMPTY_WORLD, ls, w, l);
  }

  // ---- invariant of one order ----

  function ResOf(db: Db, o: OrderId): Option<Status> {
    if o in db.res then Some(db.res[o].status) else None
  }

  predicate Refused(p: Option<Payment>) {
    p.Some? && Pays.Refused(p.value.status)
  }

  /** A payment that was approved at some time, under this reference. */
  predicate CapturedUnder(p: Option<Payment>, reference: string) {
    p.Some? && p.value.reference == reference && p.value.status != Pays.Pending && p.value.status != Pays.Declined
  }

  /** The persisted state of the saga against reservation, payment and order. */
  predicate StoredOk(saga: Option<Instance>, res: Option<Status>, pay: Option<Payment>, status: Order.Status) {
    match saga
    case None => res == None && pay == None && status == Order.Pending
    case Some(i) =>
      match i.state
      case Started =>
        i == NEW_INSTANCE && pay == None && (res == None || res == Some(Held))
        && (status == Order.Pending || status == Order.Cancelled)
      case Reserved =>
        i.held && i.reference == "" && (res == Some(Held) || (res == Some(Released) && Refused(pay)))
        && (status == Order.Pending || status == Order.Cancelled)
      case Paid =>
        i.held && CapturedUnder(pay, i.reference) && (res == Some(Held) || res == Some(Committed))
        && (status == Order.Pending || status == Order.Cancelled || (status == Order.Confirmed && res == Some(Committed)))
      case Completed =>
        !i.held && CapturedUnder(pay, i.reference) && res == Some(Committed) && status == Order.Confirmed
      case Cancelled =>
        !i.held && i.reference == "" && status == Order.Cancelled
        && ((res == None && pay == None) || (res == Some(Released) && Refused(pay)))
  }

  /** The saga has given up: nothing is held, and nothing was or stays paid. */
  predicate GivenUp(saga: Option<Instance>, inst: Instance, res: Option<Status>, pay: Option<Payment>) {
    || (saga == Some(NEW_INSTANCE) && inst == NEW_INSTANCE && res == None)
    || (saga.Some? && saga.value.state == Reserved && inst == saga.value.(held := false) && res == Some(Released) && Refused(pay))
  }

  /** The handler in flight against what is stored. */
  predicate RunOk(run: Run, saga: Option<Instance>, res: Option<Status>, pay: Option<Payment>, status: Order.Status) {
    var i := run.inst;
    match run.pc
    case Loading => true
    case Creating => saga == None && i == NEW_INSTANCE
    case Reserving => saga == Some(i) && i.state == Started
    case SavingReserved => saga == Some(NEW_INSTANCE) && i == NEW_INSTANCE.(state := Reserved, held := true) && res == Some(Held)
    case Authorizing => saga == Some(i) && i.state == Reserved
    case Releasing(_) => saga == Some(i) && i.state == Reserved && Refused(pay)
    case CancellingOrder(_) => GivenUp(saga, i, res, pay)
    case SavingCancelled =>
      && saga.Some? && status == Order.Cancelled
      && GivenUp(saga, i.(state := saga.value.state, reason := saga.value.reason), res, pay) && i.state == Cancelled
    case SavingPaid =>
      && saga.Some? && saga.value.state == Reserved && i == saga.value.(state := Paid, reference := i.reference)
      && res == Some(Held) && CapturedUnder(pay, i.reference)
    case CommittingStock => saga == Some(i) && i.state == Paid
    case Confirming => saga == Some(i) && i.state == Paid && res == Some(Committed)
    case SavingCompleted =>
      && saga.Some? && saga.value.state == Paid && i == saga.value.(state := Completed, held := false)
      && res == Some(Committed) && status == Order.Confirmed
  }

  predicate OrderOk(r: Record, res: Option<Status>) {
    && StoredOk(r.saga, res, r.pay, r.status)
    && (r.run.Some? ==> RunOk(r.run.value, r.saga, res, r.pay, r.status))
    && (r.status != Order.Pending ==> Loadable(r))
    && (r.pay.Some? ==> r.pay.value.status != Pays.Pending && r.pay.value.amount == r.placed.total && Chargeable(r))
  }

  ghost predicate Inv(w: World) {
    && LedgerOk(w.db)
    && (forall o | o in w.db.res :: o in w.orders && w.db.res[o].lines == Domain.SortLines(w.orders[o].placed.lines))
    && (forall o | o in w.orders :: ValidLines(w.orders[o].placed.lines))
    && (forall o | o in w.orders :: OrderOk(w.orders[o], ResOf(w.db, o)))
  }

  // ---- one statement keeps it ----

  /** What a definite inventory answer says about the reservation afterwards. */
  lemma AnswerMeans(db: Db, o: OrderId, r: Record, a: Answer)
    requires OrderOk(r, ResOf(db, o)) && MayAct(db, o, r, a) && CallOf(o, r).Some?
    ensures var res' := ResOf(DbAfter(db, o, r, a), o);
      match r.run.value.pc
      case Reserving =>
        if VerdictOf(CallOf(o, r).value, a.outcome) == Rejected then res' == None else res' == Some(Held)
      case Releasing(_) => res' == Some(Released) && a.outcome in {Done, AlreadyDone}
      case CommittingStock => res' == Some(Committed) && a.outcome in {Done, AlreadyDone}
      case _ => true
  {
  }

  lemma AdvanceCall(db: Db, o: OrderId, r: Record, a: Answer)
    requires OrderOk(r, ResOf(db, o)) && MayAct(db, o, r, a) && CallOf(o, r).Some?
    ensures OrderOk(Advance(r, a), ResOf(DbAfter(db, o, r, a), o))
  {
    AnswerMeans(db, o, r, a);
  }

  /** An approved answer finds the reservation held: once it was released, every answer is a refusal. */
  lemma AdvanceAuthorize(db: Db, o: OrderId, r: Record, a: Answer)
    requires OrderOk(r, ResOf(db, o)) && MayAct(db, o, r, a) && r.run.value.pc == Authorizing
    ensures OrderOk(Advance(r, a), ResOf(db, o))
    ensures Approved(Captured(r, a)) ==> ResOf(db, o) == Some(Held)
  {
  }

  lemma AdvanceKeeps(db: Db, o: OrderId, r: Record, a: Answer)
    requires OrderOk(r, ResOf(db, o)) && MayAct(db, o, r, a)
    ensures OrderOk(Advance(r, a), ResOf(DbAfter(db, o, r, a), o))
  {
    if CallOf(o, r).Some? {
      AdvanceCall(db, o, r, a);
    } else if r.run.value.pc == Authorizing {
      AdvanceAuthorize(db, o, r, a);
    } else {
      AdvanceLocal(r, ResOf(db, o), a);
    }
  }

  /** A statement that calls nobody. */
  lemma AdvanceLocal(r: Record, res: Option<Status>, a: Answer)
    requires OrderOk(r, res) && r.run.Some? && !r.run.value.pc.Releasing?
    requires r.run.value.pc !in {Reserving, CommittingStock, Authorizing}
    requires r.run.value.pc.CancellingOrder? ==> r.status != Order.Confirmed && Loadable(r)
    requires r.run.value.pc == Confirming ==> r.status != Order.Cancelled && Loadable(r)
    ensures OrderOk(Advance(r, a), res)
  {
  }

  ghost predicate InventoryOk(db: Db, orders: map<OrderId, Record>) {
    && LedgerOk(db)
    && (forall o | o in db.res :: o in orders && db.res[o].lines == Domain.SortLines(orders[o].placed.lines))
  }

  /** The call's effect on the ledger, and on nobody else's reservation. */
  lemma CallKeepsLedger(db: Db, orders: map<OrderId, Record>, call: Call, outcome: Outcome)
    requires InventoryOk(db, orders) && call.order in orders && ValidLines(orders[call.order].placed.lines)
    requires Possible(db, call, outcome)
    requires call.ReserveCall? ==> call == ReserveOf(call.order, orders[call.order].placed)
    requires call.MoveCall? ==> call.op != Reserve
    ensures InventoryOk(EffectOf(db, call, outcome), orders)
    ensures forall p | p != call.order :: ResOf(EffectOf(db, call, outcome), p) == ResOf(db, p)
  {
    var o := call.order;
    if call.ReserveCall? {
      Domain.SortLinesSpec(orders[o].placed.lines);
      if outcome == Granted { ReserveKeepsLedger(db, o, call.lines); }
    } else if outcome == Done {
      MoveKeepsLedger(call.op, db, o);
    }
  }

  /** One order's record, and perhaps the ledger, changed. */
  lemma LocalKeeps(w: World, o: OrderId, r: Record, db': Db)
    requires Inv(w) && o in w.orders && r.placed == w.orders[o].placed && OrderOk(r, ResOf(db', o))
    requires InventoryOk(db', w.orders) && forall p | p != o :: ResOf(db', p) == ResOf(w.db, p)
    ensures Inv(World(db', w.orders[o := r]))
  {
    forall p | p in w.orders && p != o ensures OrderOk(w.orders[p], ResOf(db', p)) {
      assert ResOf(db', p) == ResOf(w.db, p);
    }
  }

  lemma ActKeeps(w: World, o: OrderId, a: Answer)
    requires Inv(w) && Enabled(w, Act(o, a))
    ensures Inv(Step(w, Act(o, a)))
  {
    var r := w.orders[o];
    AdvanceKeeps(w.db, o, r, a);
    if CallOf(o, r).Some? { CallKeepsLedger(w.db, w.orders, CallOf(o, r).value, a.outcome); }
    LocalKeeps(w, o, Advance(r, a), DbAfter(w.db, o, r, a));
  }

  /** The provider never makes a refused payment good, nor an approved one declined. */
  lemma ProviderKeeps(r: Record, res: Option<Status>, status: Pays.PayStatus, reason: string)
    requires OrderOk(r, res) && r.pay.Some? && Pays.Edge(r.pay.value.status, status)
    ensures OrderOk(r.(pay := Some(Reconciled(r.pay.value, status, reason))), res)
  {
  }

  lemma PlaceKeeps(w: World, o: OrderId, placed: Placed)
    requires Inv(w) && Enabled(w, Place(o, placed))
    ensures Inv(Step(w, Place(o, placed)))
  {
    assert o !in w.db.res;
  }

  lemma AdminKeeps(w: World, sku: Sku, available: int)
    requires Inv(w) && Enabled(w, Admin(sku, available))
    ensures Inv(Step(w, Admin(sku, available)))
  {
    RestockKeepsLedger(w.db, sku, available);
    forall p | p in w.orders ensures OrderOk(w.orders[p], ResOf(Restock(w.db, sku, available), p)) {
      assert ResOf(Restock(w.db, sku, available), p) == ResOf(w.db, p);
    }
  }

  /** Every step of every interleaving keeps the invariant. */
  lemma StepKeeps(w: World, l: Label)
    requires Inv(w) && Enabled(w, l)
    ensures Inv(Step(w, l))
  {
    match l
    case Place(o, placed) => PlaceKeeps(w, o, placed);
    case Deliver(o) => LocalKeeps(w, o, Step(w, l).orders[o], w.db);
    case Act(o, a) => ActKeeps(w, o, a);
    case Recharge(o, a) =>
      LocalKeeps(w, o, Step(w, l).orders[o], w.db);
    case Drop(o) => LocalKeeps(w, o, Step(w, l).orders[o], w.db);
    case Provider(o, status, reason) =>
      ProviderKeeps(w.orders[o], ResOf(w.db, o), status, reason);
      LocalKeeps(w, o, Step(w, l).orders[o], w.db);
    case Admin(sku, available) => AdminKeeps(w, sku, available);
  }

  lemma {:induction false} StepsKeep(w: World, ls: seq<Label>, w': World)
    requires Inv(w) && Steps(w, ls, w')
    ensures Inv(w')
    decreases |ls|
  {
    if ls != [] {
      StepKeeps(w, ls[0]);
      StepsKeep(Step(w, ls[0]), ls[1..], w');
    }
  }

  lemma ReachableInv(w: World)
    requires Reachable(w)
    ensures Inv(w)
  {
    var ls :| Steps(EMPTY_WORLD, ls, w);
    StepsKeep(EMPTY_WORLD, ls, w);
  }

  lemma ReachableOrder(w: World, o: OrderId)
    requires Reachable(w) && o in w.orders
    ensures OrderOk(w.orders[o], ResOf(w.db, o))
  {
    ReachableInv(w);
  }
}
