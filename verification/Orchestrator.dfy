/**
  The orchestrator and its worker in the form of the Go code. Every call is a
  statement of the saga's machine; before each one, other parties take steps, and
  the call may fail before or after it takes effect.
*/
module Orchestrator {
  import opened Results
  import opened StockLedger
  import opened OrderClients
  import opened Saga
  import opened SagaOutcome
  import opened SagaRecovery
  import Order = OrderAggregate
  import Pays = PaymentDomain

  /** An error before or after the effect, and what a capture's caller gets to see of it. */
  datatype Fault = Fine | FailsBefore(seen: CaptureReply) | FailsAfter(seen: CaptureReply)

  datatype Turn = Turn(steps: seq<Label>, fault: Fault)

  /** Whatever reply does not carry the service's answer. */
  function NoAnswerIn(seen: CaptureReply): (r: CaptureReply)
    ensures !AuthorizeOnce(r).Answered?
    ensures r == if seen.Body? && 200 <= seen.status < 300 then NoReply else seen
  {
    if AuthorizeOnce(seen).Answered? then NoReply else seen
  }

  /** A transport error, a status of at least 500, or 429. */
  predicate Transient(t: Turn) {
    !t.fault.Fine? && var r := NoAnswerIn(t.fault.seen); r.NoReply? || r.status >= 500 || r.status == 429
  }

  /** A status outside 2xx that is not transient, or a 2xx that does not parse. */
  predicate ForGood(t: Turn) {
    && !t.fault.Fine?
    && var r := NoAnswerIn(t.fault.seen); !r.NoReply? && r.status < 500 && r.status != 429 && !(r.Body? && 200 <= r.status < 300)
  }

  /** The first `n` turns failed: all but the last in a way that is retried, the last for good or as the fourth. */
  predicate GaveUp(turns: seq<Turn>, n: nat) {
    && 0 < n <= |turns| && n <= 4
    && (forall i | 0 <= i < n - 1 :: Transient(turns[i]))
    && (ForGood(turns[n - 1]) || (n == 4 && Transient(turns[n - 1])))
  }

  /** Fewer than four turns fail, all in a way that is retried, and the next call is answered. */
  predicate AnsweredAfter(turns: seq<Turn>, k: nat) {
    && k < 4 && k <= |turns|
    && (forall i | 0 <= i < k :: Transient(turns[i]))
    && (k < |turns| ==> turns[k].fault.Fine?)
  }

  lemma GaveUpUnanswered(turns: seq<Turn>, n: nat)
    requires GaveUp(turns, n)
    ensures forall k: nat :: !AnsweredAfter(turns, k)
  {
  }

  lemma ReachStep(w: World, l: Label)
    requires Saga.Reachable(w) && Saga.Enabled(w, l)
    ensures Saga.Reachable(Saga.Step(w, l))
  {
    Saga.Onward(w, l, Saga.Step(w, l));
  }

  /** A step of somebody other than the handlers of `mine`. */
  predicate Foreign(l: Label, mine: set<OrderId>) {
    l.Deliver? || l.Act? || l.Recharge? || l.Drop? ==> l.order !in mine
  }

  /** What only the handler changes is as it was. */
  predicate SameHandler(a: Record, b: Record) {
    a.placed == b.placed && a.saga == b.saga && a.status == b.status && a.run == b.run && (a.pay.Some? ==> b.pay.Some?)
  }

  predicate Untouched(before: World, now: World, mine: set<OrderId>) {
    && (forall o | o in mine && o in before.orders :: o in now.orders && SameHandler(before.orders[o], now.orders[o]))
    && (forall o | o in mine && o in now.orders && o !in before.orders :: now.orders[o].run == None)
  }

  /** Working on `o` leaves the other orders' handlers alone, and an ended saga ended. */
  predicate Kept(before: World, now: World, mine: set<OrderId>, o: OrderId) {
    && Untouched(before, now, mine - {o})
    && (o in before.orders && Ended(before.orders[o]) ==> o in now.orders && Ended(now.orders[o]))
  }

  /** Where the code goes on after a save, a release or a commit. */
  function NextRun(pc: Saga.Pc, inst: Instance): Option<Run> {
    match pc
    case Creating => Some(Run(Reserving, inst))
    case SavingReserved => Some(Run(Authorizing, inst))
    case SavingPaid => Some(Run(CommittingStock, inst))
    case Releasing(why) => Some(Run(CancellingOrder(DeclineReason(why)), inst.(held := false)))
    case CommittingStock => Some(Run(Confirming, inst))
    case _ => None
  }

  lemma OwnStep(w: World, l: Label, mine: set<OrderId>, o: OrderId)
    requires Saga.Reachable(w) && Saga.Enabled(w, l) && o in w.orders
    requires l == Drop(o) || (l.Act? && l.order == o) || (l.Recharge? && l.order == o)
    ensures Kept(w, Saga.Step(w, l), mine, o)
  {
    ReachableInv(w);
    StepRank(w, l, o);
  }

  /** Those of `mine` other than `o` have no handler at work. */
  ghost predicate Idle(w: World, mine: set<OrderId>, o: OrderId) {
    forall p | p in mine && p in w.orders && p != o :: w.orders[p].run == None
  }

  /** Past its first read, a handler works on a saga that has not ended. */
  lemma AtWorkNotEnded(w: World, o: OrderId)
    requires Saga.Reachable(w) && o in w.orders && w.orders[o].run.Some? && w.orders[o].run.value.pc != Loading
    ensures !Ended(w.orders[o])
  {
    ReachableOrder(w, o);
  }

  class Orchestrator {
    var w: World
    var turns: seq<Turn>
    const env: Env
    /** The orders of this worker's partitions. */
    const mine: set<OrderId>

    ghost predicate Valid()
      reads this
    {
      Saga.Reachable(w)
    }

    constructor (w: World, turns: seq<Turn>, env: Env, mine: set<OrderId>)
      requires Saga.Reachable(w)
      ensures Valid() && this.w == w && this.turns == turns && this.env == env && this.mine == mine
    {
      this.w, this.turns, this.env, this.mine := w, turns, env, mine;
    }

    /** The handler of `o` is at this statement. */
    predicate At(o: OrderId, pc: Saga.Pc)
      reads this
    {
      o in mine && o in w.orders && w.orders[o].run.Some? && w.orders[o].run.value.pc == pc
    }

    function Inst(o: OrderId): Instance
      reads this
      requires o in w.orders && w.orders[o].run.Some?
    {
      w.orders[o].run.value.inst
    }

    /** Others of this worker's orders are idle. */
    ghost predicate IdleBut(o: OrderId)
      reads this
    {
      Idle(w, mine, o)
    }

    method Do(l: Label)
      requires Valid() && Saga.Enabled(w, l)
      modifies this`w
      ensures Valid() && w == Saga.Step(old(w), l)
    {
      ReachStep(w, l);
      w := Saga.Step(w, l);
    }

    /** Everybody else takes steps. */
    method Others() returns (fault: Fault)
      requires Valid()
      modifies this
      ensures Valid() && Untouched(old(w), w, mine)
      ensures old(turns) == [] ==> fault == Fine && w == old(w) && turns == []
      ensures old(turns) != [] ==> turns == old(turns)[1..] && fault == old(turns)[0].fault
    {
      if turns == [] { return Fine; }
      var turn, rest := turns[0], turns[1..];
      turns := rest;
      for i := 0 to |turn.steps|
        invariant Valid() && Untouched(old(w), w, mine) && turns == rest
      {
        if Foreign(turn.steps[i], mine) && Saga.Enabled(w, turn.steps[i]) {
          Do(turn.steps[i]);
        }
      }
      return turn.fault;
    }

    /** The handler returns an error: nothing of it is left. */
    method Fail(o: OrderId)
      requires Valid() && o in w.orders && w.orders[o].run.Some?
      modifies this`w
      ensures Valid() && w == Saga.Step(old(w), Drop(o)) && Kept(old(w), w, mine, o)
      ensures old(w.orders[o].run.value.pc) != Loading ==> !Ended(w.orders[o])
    {
      if w.orders[o].run.value.pc != Loading { AtWorkNotEnded(w, o); }
      OwnStep(w, Drop(o), mine, o);
      Do(Drop(o));
    }

    method Perform(o: OrderId, a: Answer)
      requires Valid() && o in w.orders && MayAct(w.db, o, w.orders[o], a)
      modifies this`w
      ensures Valid() && w == Saga.Step(old(w), Act(o, a)) && Kept(old(w), w, mine, o)
    {
      OwnStep(w, Act(o, a), mine, o);
      Do(Act(o, a));
    }

    /** The handler's statement on the record `at`, with this answer. */
    ghost predicate Answered(o: OrderId, at: Record, a: Answer)
      reads this
    {
      && o in w.orders && at.run.Some?
      && (at.run.value.pc == Authorizing ==> a.Charge?) && (at.run.value.pc == Reserving ==> a.Inventory?)
      && w.orders[o] == Advance(at, a)
      && (CallOf(o, at).Some? ==> a.Inventory? && VerdictOf(CallOf(o, at).value, a.outcome) != Retry)
    }

    /** The effect of the statement, and perhaps an error before or after it. */
    method Effect(o: OrderId, fault: Fault) returns (answer: Option<Answer>)
      requires Valid() && o in w.orders && w.orders[o].run.Some?
      modifies this`w
      ensures Valid() && o in w.orders && Kept(old(w), w, mine, o)
      ensures answer == None ==> w.orders[o].run == None
      ensures answer.Some? ==> Answered(o, old(w.orders[o]), answer.value)
      ensures fault == Fine ==> Finish(w, o, env) == Finish(old(w), o, env) && (answer == None ==> !Ended(w.orders[o]))
    {
      var a := AloneAnswer(w.db, o, w.orders[o], env);
      if fault.FailsBefore? || !MayAct(w.db, o, w.orders[o], a) {
        Fail(o);
        return None;
      }
      Perform(o, a);
      if fault.FailsAfter? {
        if w.orders[o].run.Some? { Fail(o); }
        return None;
      }
      return Some(a);
    }

    /**
      One statement: everybody else, then the effect, then perhaps an error. With
      an answer, the record has advanced by it from what only this handler changes.
    */
    method Take(o: OrderId) returns (answer: Option<Answer>, ghost at: Record)
      requires Valid() && o in mine && o in w.orders && w.orders[o].run.Some? && IdleBut(o)
      modifies this
      ensures Valid() && o in w.orders && IdleBut(o) && Kept(old(w), w, mine, o)
      ensures SameHandler(old(w.orders[o]), at)
      ensures answer == None ==> w.orders[o].run == None
      ensures answer.Some? ==> Answered(o, at, answer.value)
      ensures old(turns) == [] ==>
        && turns == [] && Finish(w, o, env) == Finish(old(w), o, env) && (answer == None ==> !Ended(w.orders[o]))
    {
      var fault := Others();
      ghost var m := w;
      at := w.orders[o];
      answer := Effect(o, fault);
    }

    // ---- the ports ----

    method LoadSaga(o: OrderId) returns (ok: bool, found: Option<Instance>)
      requires Valid() && At(o, Loading) && IdleBut(o)
      modifies this
      ensures Valid() && o in w.orders && IdleBut(o) && Kept(old(w), w, mine, o)
      ensures !ok ==> w.orders[o].run == None
      ensures ok ==> found == w.orders[o].saga == old(w.orders[o].saga)
      ensures ok && found == None ==> At(o, Creating) && Inst(o) == NEW_INSTANCE
      ensures ok && found.Some? ==>
        if found.value.Terminal() then w.orders[o].run == None else At(o, Resume(found.value.state)) && Inst(o) == found.value
      ensures old(turns) == [] ==> turns == [] && Finish(w, o, env) == Finish(old(w), o, env)
      ensures old(turns) == [] && !ok ==> !Ended(w.orders[o])
    {
      var answer, _ := Take(o);
      return answer.Some?, w.orders[o].saga;
    }

    /** The upsert of the saga row; `next` is where the code goes on. */
    method SaveSaga(o: OrderId, inst: Instance) returns (ok: bool)
      requires Valid() && o in mine && o in w.orders && w.orders[o].run.Some? && IdleBut(o) && Inst(o) == inst
      requires w.orders[o].run.value.pc in {Creating, SavingReserved, SavingCancelled, SavingPaid, SavingCompleted}
      modifies this
      ensures Valid() && o in w.orders && IdleBut(o) && Kept(old(w), w, mine, o)
      ensures !ok ==> w.orders[o].run == None
      ensures ok ==> w.orders[o].saga == Some(inst)
      ensures ok ==> w.orders[o].run == NextRun(old(w.orders[o].run.value.pc), inst)
      ensures old(turns) == [] ==> turns == [] && Finish(w, o, env) == Finish(old(w), o, env)
      ensures old(turns) == [] && !ok ==> !Ended(w.orders[o])
    {
      var answer, _ := Take(o);
      return answer.Some?;
    }

    /** Client.Reserve: ok and not rejected means that stock is held. */
    method Reserve(o: OrderId) returns (ok: bool, rejected: bool)
      requires Valid() && At(o, Reserving) && IdleBut(o)
      modifies this
      ensures Valid() && o in w.orders && IdleBut(o) && Kept(old(w), w, mine, o)
      ensures !ok ==> w.orders[o].run == None
      ensures ok && rejected ==> At(o, CancellingOrder(REJECTED)) && Inst(o) == old(Inst(o))
      ensures ok && !rejected ==> At(o, SavingReserved) && Inst(o) == old(Inst(o)).(state := Reserved, held := true)
      ensures old(turns) == [] ==> turns == [] && Finish(w, o, env) == Finish(old(w), o, env)
      ensures old(turns) == [] && !ok ==> !Ended(w.orders[o])
    {
      var answer, _ := Take(o);
      if answer == None { return false, false; }
      match ReserveVerdict(InventoryReply(answer.value.outcome))
      case Success => return true, false;
      case Rejected => return true, true;
      case Retry => return false, false;
    }

    /** Client.Release and Client.Commit, where INVALID_STATE reads as success. */
    method Transition(o: OrderId) returns (ok: bool)
      requires Valid() && o in mine && o in w.orders && w.orders[o].run.Some? && IdleBut(o)
      requires w.orders[o].run.value.pc.Releasing? || w.orders[o].run.value.pc == CommittingStock
      modifies this
      ensures Valid() && o in w.orders && IdleBut(o) && Kept(old(w), w, mine, o)
      ensures !ok ==> w.orders[o].run == None
      ensures ok ==> w.orders[o].run == NextRun(old(w.orders[o].run.value.pc), old(Inst(o)))
      ensures old(turns) == [] ==> turns == [] && Finish(w, o, env) == Finish(old(w), o, env)
      ensures old(turns) == [] && !ok ==> !Ended(w.orders[o])
    {
      var answer, _ := Take(o);
      return answer.Some?;
    }

    method ConfirmOrder(o: OrderId) returns (ok: bool)
      requires Valid() && At(o, Confirming) && IdleBut(o)
      modifies this
      ensures Valid() && o in w.orders && IdleBut(o) && Kept(old(w), w, mine, o)
      ensures !ok ==> w.orders[o].run == None
      ensures ok ==> At(o, SavingCompleted) && Inst(o) == old(Inst(o)).(state := Completed, held := false)
      ensures ok ==> w.orders[o].status == Order.Confirmed
      ensures old(turns) == [] ==> turns == [] && Finish(w, o, env) == Finish(old(w), o, env)
      ensures old(turns) == [] && !ok ==> !Ended(w.orders[o])
    {
      var answer, _ := Take(o);
      return answer.Some?;
    }

    method CancelOrder(o: OrderId, reason: string) returns (ok: bool)
      requires Valid() && At(o, CancellingOrder(reason)) && IdleBut(o)
      modifies this
      ensures Valid() && o in w.orders && IdleBut(o) && Kept(old(w), w, mine, o)
      ensures !ok ==> w.orders[o].run == None
      ensures ok ==> At(o, SavingCancelled) && Inst(o) == old(Inst(o)).(state := Saga.Cancelled, reason := reason)
      ensures ok ==> w.orders[o].status == Order.Cancelled
      ensures old(turns) == [] ==> turns == [] && Finish(w, o, env) == Finish(old(w), o, env)
      ensures old(turns) == [] && !ok ==> !Ended(w.orders[o])
    {
      var answer, _ := Take(o);
      return answer.Some?;
    }

    /** The body of a 201 reply, for the stored payment. */
    function CaptureBody(p: Payment): CaptureReply {
      Body(201, Approved(p), p.reference, p.failure)
    }

    /** The capture takes effect and its answer arrives. */
    method CaptureAnswered(o: OrderId, a: Answer) returns (reply: CaptureReply)
      requires Valid() && At(o, Authorizing) && MayAct(w.db, o, w.orders[o], a) && IdleBut(o)
      modifies this`w
      ensures Valid() && w == Saga.Step(old(w), Act(o, a)) && IdleBut(o) && Kept(old(w), w, mine, o)
      ensures w.orders[o].pay.Some? && reply == CaptureBody(w.orders[o].pay.value)
      ensures w.orders[o].run == Some(if reply.approved
        then Run(SavingPaid, old(Inst(o)).(state := Paid, reference := reply.reference))
        else Run(Releasing(reply.decline), old(Inst(o))))
    {
      Perform(o, a);
      return CaptureBody(w.orders[o].pay.value);
    }

    /** The capture takes effect and its answer is lost. */
    method CaptureLost(o: OrderId, a: Answer)
      requires Valid() && At(o, Authorizing) && MayAct(w.db, o, w.orders[o], a) && IdleBut(o)
      modifies this`w
      ensures Valid() && At(o, Authorizing) && Inst(o) == old(Inst(o)) && IdleBut(o) && Kept(old(w), w, mine, o)
      ensures w.orders[o].placed == old(w.orders[o].placed)
    {
      OwnStep(w, Recharge(o, a), mine, o);
      Do(Recharge(o, a));
    }

    /** What a capture's reply leaves of the handler: it goes on, or is where it was. */
    predicate AfterCapture(o: OrderId, before: Instance, reply: CaptureReply)
      reads this
    {
      if AuthorizeOnce(reply).Answered? then
        && o in w.orders && w.orders[o].pay.Some? && reply == CaptureBody(w.orders[o].pay.value)
        && w.orders[o].run == Some(if reply.approved
             then Run(SavingPaid, before.(state := Paid, reference := reply.reference))
             else Run(Releasing(reply.decline), before))
      else At(o, Authorizing) && Inst(o) == before
    }

    /** One HTTP call: the capture may take effect although its answer does not come back. */
    method CaptureOnce(o: OrderId) returns (reply: CaptureReply)
      requires Valid() && At(o, Authorizing) && IdleBut(o)
      modifies this
      ensures Valid() && o in w.orders && IdleBut(o) && Kept(old(w), w, mine, o)
      ensures w.orders[o].placed == old(w.orders[o].placed) && AfterCapture(o, old(Inst(o)), reply)
      ensures !(reply.Body? && 200 <= reply.status < 300) && Chargeable(w.orders[o]) ==>
        old(turns) != [] && !old(turns)[0].fault.Fine? && reply == NoAnswerIn(old(turns)[0].fault.seen)
      ensures old(turns) != [] ==> turns == old(turns)[1..]
      ensures reply.NoReply? || reply.status >= 500 || reply.status == 429 ==> old(turns) != [] && !old(turns)[0].fault.Fine?
      ensures old(turns) == [] ==> turns == []
      ensures old(turns) == [] && AuthorizeOnce(reply).Answered? ==> Finish(w, o, env) == Finish(old(w), o, env)
      ensures old(turns) == [] && AuthorizeOnce(reply) == Failed ==> Finish(old(w), o, env) == Saga.Step(w, Drop(o))
    {
      var fault := Others();
      ghost var m := w;
      reply := Called(o, fault);
    }

    /** The call itself, and what comes back of it. */
    method Called(o: OrderId, fault: Fault) returns (reply: CaptureReply)
      requires Valid() && At(o, Authorizing) && IdleBut(o)
      modifies this`w
      ensures Valid() && o in w.orders && IdleBut(o) && Kept(old(w), w, mine, o)
      ensures w.orders[o].placed == old(w.orders[o].placed) && AfterCapture(o, old(Inst(o)), reply)
      ensures !AuthorizeOnce(reply).Answered? && Chargeable(w.orders[o]) ==> !fault.Fine? && reply == NoAnswerIn(fault.seen)
      ensures AuthorizeOnce(reply) == Retryable ==> !fault.Fine?
      ensures fault.Fine? && AuthorizeOnce(reply).Answered? ==> Finish(w, o, env) == Finish(old(w), o, env)
      ensures fault.Fine? && AuthorizeOnce(reply) == Failed ==> Finish(old(w), o, env) == Saga.Step(w, Drop(o))
    {
      if fault.FailsBefore? { return NoAnswerIn(fault.seen); }
      var a := Charge(env.approved, env.reference, env.why);
      if !MayAct(w.db, o, w.orders[o], a) { return StatusOnly(400); }
      if fault.FailsAfter? {
        CaptureLost(o, a);
        return NoAnswerIn(fault.seen);
      }
      reply := CaptureAnswered(o, a);
    }

    /**
      Client.Authorize: retried in place while the failure is transient. Giving up on
      an order that can be charged means that four calls in a row failed, or that one of the first
      four failed in a way that is not retried.
    */
    method Authorize(o: OrderId) returns (result: Option<PaymentResult>)
      requires Valid() && At(o, Authorizing) && IdleBut(o)
      modifies this
      ensures Valid() && o in w.orders && IdleBut(o) && Kept(old(w), w, mine, o)
      ensures result == None ==> w.orders[o].run == None
      ensures result == None && old(Chargeable(w.orders[o])) ==>
        exists n | 0 < n <= |old(turns)| :: GaveUp(old(turns), n) && turns == old(turns)[n..]
      ensures old(Chargeable(w.orders[o])) ==> forall k: nat | AnsweredAfter(old(turns), k) :: result.Some?
      ensures result.Some? ==> w.orders[o].pay.Some? && var p := w.orders[o].pay.value;
        && (result.value.approved <==> p.status == Pays.Captured || p.status == Pays.Settled)
        && if result.value.approved then result.value.reference == p.reference else result.value.decline == p.failure
      ensures result.Some? ==> w.orders[o].run == Some(if result.value.approved
             then Run(SavingPaid, old(Inst(o)).(state := Paid, reference := result.value.reference))
             else Run(Releasing(result.value.decline), old(Inst(o))))
      ensures old(turns) == [] ==> turns == [] && Finish(w, o, env) == Finish(old(w), o, env)
      ensures old(turns) == [] && result == None ==> !Ended(w.orders[o])
    {
      for attempt := 0 to MAX_CAPTURES
        invariant Valid() && At(o, Authorizing) && IdleBut(o) && Kept(old(w), w, mine, o) && Inst(o) == old(Inst(o))
        invariant old(turns) == [] ==> turns == [] && attempt == 0 && w == old(w)
        invariant w.orders[o].placed == old(w.orders[o].placed)
        invariant attempt <= |old(turns)| && turns == old(turns)[attempt..]
        invariant Chargeable(w.orders[o]) ==>
          forall i | 0 <= i < attempt :: Transient(old(turns)[i])
      {
        var reply := CaptureOnce(o);
        match AuthorizeOnce(reply) {
          case Answered(r) => return Some(r);
          case Failed =>
            if Chargeable(w.orders[o]) { GaveUpUnanswered(old(turns), attempt + 1); }
            Fail(o);
            return None;
          case Retryable =>
        }
      }
      if Chargeable(w.orders[o]) { GaveUpUnanswered(old(turns), 4); }
      Fail(o);
      return None;
    }

    // ---- Handle ----

    method Cancel(o: OrderId, inst: Instance, reason: string) returns (ok: bool)
      requires Valid() && At(o, CancellingOrder(reason)) && IdleBut(o) && Inst(o) == inst
      modifies this
      ensures Valid() && o in w.orders && IdleBut(o) && Kept(old(w), w, mine, o) && w.orders[o].run == None
      ensures ok ==> w.orders[o].saga == Some(inst.(state := Saga.Cancelled, reason := reason))
      ensures old(turns) == [] ==> turns == [] && w == Finish(old(w), o, env)
      ensures old(turns) == [] && !ok ==> !Ended(w.orders[o])
    {
      ok := CancelOrder(o, reason);
      if ok {
        ok := SaveSaga(o, inst.(state := Saga.Cancelled, reason := reason));
      }
    }

    /** Step 1: reserve stock. `going` means that the saga goes on, as RESERVED. */
    method ReserveStep(o: OrderId, inst: Instance) returns (ok: bool, going: bool)
      requires Valid() && At(o, Reserving) && IdleBut(o) && Inst(o) == inst
      modifies this
      ensures Valid() && o in w.orders && IdleBut(o) && Kept(old(w), w, mine, o)
      ensures going ==> ok && At(o, Authorizing) && Inst(o) == inst.(state := Reserved, held := true)
      ensures !going ==> w.orders[o].run == None
      ensures ok && !going ==>
        w.orders[o].saga == Some(inst.(state := Saga.Cancelled, reason := "inventory reservation rejected")) && Ended(w.orders[o])
      ensures old(turns) == [] ==> turns == [] && Finish(w, o, env) == Finish(old(w), o, env)
      ensures old(turns) == [] && !ok ==> !Ended(w.orders[o])
    {
      var rejected;
      ok, rejected := Reserve(o);
      if !ok { return false, false; }
      if rejected {
        ok := Cancel(o, inst, REJECTED);
        return ok, false;
      }
      ok := SaveSaga(o, inst.(state := Reserved, held := true));
      return ok, ok;
    }

    /** A clean decline: release the stock and cancel the order. */
    method Compensate(o: OrderId, inst: Instance, decline: string) returns (ok: bool)
      requires Valid() && At(o, Releasing(decline)) && IdleBut(o) && Inst(o) == inst
      modifies this
      ensures Valid() && o in w.orders && IdleBut(o) && Kept(old(w), w, mine, o) && w.orders[o].run == None
      ensures ok ==> w.orders[o].saga == Some(inst.(held := false, state := Saga.Cancelled,
        reason := if decline == "" then "payment declined" else "payment declined: " + decline))
      ensures old(turns) == [] ==> turns == [] && Finish(w, o, env) == Finish(old(w), o, env)
      ensures old(turns) == [] && !ok ==> !Ended(w.orders[o])
    {
      ok := Transition(o);
      if ok { ok := Cancel(o, inst.(held := false), DeclineReason(decline)); }
    }

    /** Step 2: authorize payment, or compensate. */
    method PayStep(o: OrderId, inst: Instance) returns (ok: bool, going: bool, now: Instance)
      requires Valid() && At(o, Authorizing) && IdleBut(o) && Inst(o) == inst
      modifies this
      ensures Valid() && o in w.orders && IdleBut(o) && Kept(old(w), w, mine, o)
      ensures going ==> ok && At(o, CommittingStock) && Inst(o) == now == inst.(state := Paid, reference := now.reference)
      ensures !going ==> w.orders[o].run == None
      ensures ok && !going ==> Ended(w.orders[o])
      ensures old(turns) == [] ==> turns == [] && Finish(w, o, env) == Finish(old(w), o, env)
      ensures old(turns) == [] && !ok ==> !Ended(w.orders[o])
    {
      var result := Authorize(o);
      if result == None { return false, false, inst; }
      if !result.value.approved {
        ok := Compensate(o, inst, result.value.decline);
        return ok, false, inst;
      }
      now := inst.(state := Paid, reference := result.value.reference);
      ok := SaveSaga(o, now);
      return ok, ok, now;
    }

    /** Step 3: commit the stock and confirm the order. */
    method CommitStep(o: OrderId, inst: Instance) returns (ok: bool)
      requires Valid() && At(o, CommittingStock) && IdleBut(o) && Inst(o) == inst
      modifies this
      ensures Valid() && o in w.orders && IdleBut(o) && Kept(old(w), w, mine, o) && w.orders[o].run == None
      ensures ok ==> w.orders[o].saga == Some(inst.(state := Completed, held := false))
      ensures old(turns) == [] ==> turns == [] && Finish(w, o, env) == Finish(old(w), o, env)
      ensures old(turns) == [] && !ok ==> !Ended(w.orders[o])
    {
      ok := Transition(o);
      if !ok { return; }
      ok := ConfirmOrder(o);
      if !ok { return; }
      ok := SaveSaga(o, inst.(state := Completed, held := false));
    }

    /** Load the saga, or create it. */
    method Begin(o: OrderId) returns (ok: bool, inst: Instance)
      requires Valid() && o in mine && o in w.orders && w.orders[o].run == None && IdleBut(o)
      modifies this
      ensures Valid() && o in w.orders && IdleBut(o) && Kept(old(w), w, mine, o)
      ensures !ok ==> w.orders[o].run == None
      ensures ok && inst.Terminal() ==> w.orders[o].run == None && Ended(w.orders[o])
      ensures ok && !inst.Terminal() ==> At(o, Resume(inst.state)) && Inst(o) == inst
      ensures old(turns) == [] ==> turns == [] && Finish(w, o, env) == Redelivered(old(w), o, env)
      ensures old(turns) == [] && !ok ==> !Ended(w.orders[o])
    {
      Do(Deliver(o));
      var found;
      ok, found := LoadSaga(o);
      if !ok { return false, NEW_INSTANCE; }
      if found == None {
        ok := SaveSaga(o, NEW_INSTANCE);
        return ok, NEW_INSTANCE;
      }
      return true, found.value;
    }

    /**
      Handle: no error means that the saga has ended. Undisturbed, the handler does
      what the saga's statements do one after the other, and it returns without an
      error exactly when the state was not doomed.
    */
    method Handle(o: OrderId) returns (ok: bool)
      requires Valid() && o in mine && o in w.orders && w.orders[o].run == None && IdleBut(o)
      modifies this
      ensures Valid() && o in w.orders && w.orders[o].run == None && IdleBut(o) && Kept(old(w), w, mine, o)
      ensures ok ==> Ended(w.orders[o]) && w.orders[o].saga.Some? && w.orders[o].saga.value.state in {Completed, Saga.Cancelled}
      ensures old(turns) == [] ==> turns == [] && w == Redelivered(old(w), o, env)
      ensures old(turns) == [] ==> (ok <==> !Doomed(old(w.db), o, old(w.orders[o]), env)) && (ok <==> Ended(w.orders[o]))
    {
      RestartEndsIff(w, o, env);
      ok := Proceed(o);
    }

    method Proceed(o: OrderId) returns (ok: bool)
      requires Valid() && o in mine && o in w.orders && w.orders[o].run == None && IdleBut(o)
      modifies this
      ensures Valid() && o in w.orders && w.orders[o].run == None && IdleBut(o) && Kept(old(w), w, mine, o)
      ensures ok ==> Ended(w.orders[o])
      ensures old(turns) == [] ==> turns == [] && w == Redelivered(old(w), o, env)
      ensures old(turns) == [] && !ok ==> !Ended(w.orders[o])
    {
      var inst;
      ok, inst := Begin(o);
      if !ok || inst.Terminal() { return; }
      var going := true;
      if inst.state == Started {
        ok, going := ReserveStep(o, inst);
        inst := inst.(state := Reserved, held := true);
      }
      if going && inst.state == Reserved {
        ok, going, inst := PayStep(o, inst);
      }
      if going {
        ok := CommitStep(o, inst);
      }
    }
  }

  datatype Message = PlacedMessage(order: OrderId) | OtherMessage | UnreadableMessage

  /** The consume loop: an offset is committed only after its message was dealt with. */
  class Worker {
    const orchestrator: Orchestrator
    var offset: nat
    var dead: seq<nat>

    constructor (orchestrator: Orchestrator)
      ensures this.orchestrator == orchestrator && offset == 0 && dead == []
    {
      this.orchestrator, offset, dead := orchestrator, 0, [];
    }

    /** The events of this partition: their orders exist, and no handler of this worker is at work. */
    ghost predicate Ready(topic: seq<Message>)
      reads this, orchestrator
    {
      && orchestrator.Valid() && offset <= |topic|
      && (forall i | 0 <= i < |topic| && topic[i].PlacedMessage? ::
            topic[i].order in orchestrator.mine && topic[i].order in orchestrator.w.orders)
      && (forall p | p in orchestrator.mine && p in orchestrator.w.orders :: orchestrator.w.orders[p].run == None)
    }

    /** Every message before the offset, from `from` on, has had its effect. */
    ghost predicate Done(topic: seq<Message>, from: nat)
      reads this, orchestrator
    {
      forall i | from <= i < offset && i < |topic| ::
        && (topic[i].PlacedMessage? ==>
              topic[i].order in orchestrator.w.orders && Ended(orchestrator.w.orders[topic[i].order]))
        && (topic[i].UnreadableMessage? ==> i in dead)
    }

    /** The loop stands at a placed event whose saga has not ended. */
    ghost predicate AtFailure(topic: seq<Message>)
      reads this, orchestrator
    {
      && offset < |topic| && topic[offset].PlacedMessage? && topic[offset].order in orchestrator.w.orders
      && !Ended(orchestrator.w.orders[topic[offset].order])
    }

    /** The message at the offset: the saga is run, or the dead-letter topic takes an unreadable one. */
    method Process(topic: seq<Message>, ghost from: nat, deadLetters: bool) returns (ok: bool)
      requires Ready(topic) && offset < |topic| && Done(topic, from)
      modifies this`dead, orchestrator
      ensures Ready(topic) && Done(topic, from)
      ensures ok ==>
        && (topic[offset].PlacedMessage? ==>
              topic[offset].order in orchestrator.w.orders && Ended(orchestrator.w.orders[topic[offset].order]))
        && (topic[offset].UnreadableMessage? ==> offset in dead)
      ensures old(orchestrator.turns) == [] ==>
        orchestrator.turns == [] && (!ok && deadLetters ==> AtFailure(topic))
    {
      match topic[offset] {
        case PlacedMessage(o) =>
          ok := orchestrator.Handle(o);
        case UnreadableMessage =>
          if !deadLetters { return false; }
          dead := dead + [offset];
          ok := true;
        case OtherMessage =>
          ok := true;
      }
    }

    /**
      Runs until a handler fails, the dead-letter topic or the offset commit fails,
      or the topic is read to its end. Whatever lies behind the offset has ended.
      Undisturbed, only a saga that cannot end stops it before the end of the topic.
    */
    method Run(topic: seq<Message>, deadLetters: bool, commits: nat)
      requires Ready(topic)
      modifies this, orchestrator
      ensures Ready(topic) && old(offset) <= offset && Done(topic, old(offset))
      ensures old(orchestrator.turns) == [] && deadLetters && commits >= |topic| ==> offset == |topic| || AtFailure(topic)
    {
      var committed := 0;
      while offset < |topic|
        invariant Ready(topic) && old(offset) <= offset && Done(topic, old(offset))
        invariant committed == offset - old(offset) && (old(orchestrator.turns) == [] ==> orchestrator.turns == [])
        decreases |topic| - offset
      {
        var ok := Process(topic, old(offset), deadLetters);
        if !ok { return; }
        if committed == commits { return; }
        committed := committed + 1;
        offset := offset + 1;
      }
    }
  }
}
