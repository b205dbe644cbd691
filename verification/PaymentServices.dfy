/**
  PaymentService and ReconciliationService in the form of the Java code. Each
  repository call is a step of the store's machine; other transactions run
  before every one of them.
*/
module PaymentServices {
  import opened Results
  import opened Texts
  import opened PaymentDomain
  import opened PaymentStore

  lemma ReachableRows(s: State)
    requires Reachable(s)
    ensures RowsOk(s.rows)
  {
    var steps :| Run(INITIAL, steps, s);
    RunKeeps(INITIAL, steps, s);
  }

  /** A transaction that is not saving keeps no id from anybody. */
  lemma SameFresh(s: State, t: TxnId, s': State)
    requires t in s'.txns && s'.rows == s.rows && s'.txns == s.txns[t := s'.txns[t]]
    requires !s'.txns[t].pc.Saving? && (t in s.txns ==> !s.txns[t].pc.Saving?)
    ensures forall id :: FreshId(s', id) == FreshId(s, id)
  {
    forall id ensures FreshId(s', id) == FreshId(s, id) {
      forall u | u in s.txns && s.txns[u].pc.Saving? ensures u in s'.txns && s'.txns[u] == s.txns[u] {}
      forall u | u in s'.txns && s'.txns[u].pc.Saving? ensures u in s.txns && s'.txns[u] == s.txns[u] {}
    }
  }

  /** Captured under the provider's reference, or declined for the provider's reason. */
  predicate ChargedAs(p: Pay, answer: Answer) {
    if answer.approved
    then p.status == Captured && p.reference == (if answer.reference.Some? then answer.reference.value else "") && p.failure == ""
    else p.status == Declined && p.reference == "" && p.failure == (if answer.why.Some? then answer.why.value else "")
  }

  /** What a webhook makes of a payment. */
  function Reaction(job: Job, p: Pay): Change
    requires job.WebhookJob?
  {
    if ActOf(job) == None then Same else Transit(p, ActOf(job).value)
  }

  function AfterChange(p: Pay, c: Change): Pc {
    match c
    case Changed(q) => Flushing([Update(p, q)])
    case Same => Flushing([])
    case Illegal => Ended(false)
  }

  /** A webhook of this kind may be applied to a payment in this status. */
  predicate MayTake(kind: string, status: PayStatus) {
    && (kind == "payment.settled" ==> status == Captured || status == Settled)
    && (kind == "payment.refunded" ==> status == Captured || status == Settled || status == Refunded)
    && (kind == "payment.failed" ==> status == Captured || status == PayStatus.Failed)
  }

  /** What a webhook that is applied leaves of the payment: a new version in the status it reports, or what it was. */
  predicate Took(kind: string, reason: Option<string>, before: Pay, after: Pay) {
    var moved := before.(version := before.version + 1);
    if kind == "payment.settled" && before.status == Captured then after == moved.(status := Settled)
    else if kind == "payment.refunded" && (before.status == Captured || before.status == Settled) then after == moved.(status := Refunded)
    else if kind == "payment.failed" && before.status == Captured
    then after == moved.(status := PayStatus.Failed, failure := if reason.Some? then reason.value else "")
    else after == before
  }

  lemma ReactionIs(job: Job, p: Pay)
    requires job.WebhookJob?
    ensures var c := Reaction(job, p);
      && (c.Illegal? <==> !MayTake(job.kind, p.status))
      && (c.Same? ==> Took(job.kind, job.reason, p, p))
      && (c.Changed? ==> Took(job.kind, job.reason, p, c.pay.(version := p.version + 1)) && c.pay.version == p.version && c.pay.id == p.id)
  {
  }

  /** The webhook finds this payment, and may be applied to it. */
  predicate Accepts(rows: map<PayId, Pay>, job: Job, id: PayId)
    requires job.WebhookJob?
  {
    id in rows && Locates(rows, job, At(id)) && MayTake(job.kind, rows[id].status)
  }

  /** One payment took the webhook, and nothing else changed. */
  predicate Reacted(rows: map<PayId, Pay>, job: Job, id: PayId, rows': map<PayId, Pay>)
    requires job.WebhookJob?
  {
    id in rows && id in rows' && rows' == rows[id := rows'[id]] && Took(job.kind, job.reason, rows[id], rows'[id])
  }

  /** Whether some payment accepts the webhook shows at the one that is located. */
  lemma OneAccepted(rows: map<PayId, Pay>, job: Job, hit: Hit)
    requires RowsOk(rows) && job.WebhookJob? && Locates(rows, job, hit)
    ensures (exists id :: Accepts(rows, job, id)) <==> hit.At? && Accepts(rows, job, hit.id)
  {
  }

  /** The status that a webhook of this kind reports. */
  predicate Reports(kind: string, status: PayStatus) {
    || (kind == "payment.settled" && status == Settled)
    || (kind == "payment.refunded" && status == Refunded)
    || (kind == "payment.failed" && status == PayStatus.Failed)
  }

  /** The change that a webhook makes of the located payment. */
  predicate ChangeOf(rows: map<PayId, Pay>, job: Job, id: PayId, change: Option<Update>)
    requires job.WebhookJob? && id in rows
  {
    match Reaction(job, rows[id])
    case Changed(q) => change == Some(Update(rows[id], q))
    case Same => change == None
    case Illegal => false
  }

  lemma ReactedIsStored(rows: map<PayId, Pay>, job: Job, id: PayId, change: Option<Update>)
    requires RowsOk(rows) && job.WebhookJob? && id in rows && ChangeOf(rows, job, id, change)
    ensures var updates := if change.Some? then [change.value] else [];
      Current(rows, updates) && Reacted(rows, job, id, Store(rows, updates))
  {
    if change.Some? {
      assert ([change.value])[..0] == [];
    } else {
      assert rows == rows[id := rows[id]];
    }
  }

  datatype Turn = Turn(steps: seq<Step>, fails: bool)

  /** The payments and webhook_events tables, shared with every other transaction. */
  class Database {
    var s: State
    var turns: seq<Turn>

    ghost predicate Valid()
      reads this
    {
      Reachable(s)
    }

    /** Everybody else, then perhaps a failure of this transaction. */
    method Others(t: TxnId) returns (ok: bool)
      requires Valid() && t in s.txns && !s.txns[t].pc.Ended?
      modifies this
      ensures Valid() && t in s.txns
      ensures ok ==> s.txns[t] == old(s.txns[t])
      ensures !ok ==> s.txns[t] == Txn(old(s.txns[t]).job, Ended(false))
      ensures old(turns) == [] ==> ok && s == old(s) && turns == []
    {
      if turns == [] { return true; }
      var turn, rest := turns[0], turns[1..];
      turns := rest;
      for i := 0 to |turn.steps|
        invariant Valid() && t in s.txns && s.txns[t] == old(s.txns[t])
      {
        if turn.steps[i].txn != t && Enabled(s, turn.steps[i]) {
          Do(turn.steps[i]);
        }
      }
      if turn.fails { Do(Abort(t)); }
      return !turn.fails;
    }

    method Do(step: Step)
      requires Valid() && Enabled(s, step)
      modifies this`s
      ensures Valid() && s == Apply(old(s), step)
    {
      ReachStep(s, step);
      s := Apply(s, step);
    }

    method Begin(t: TxnId, job: Job)
      requires Valid() && t !in s.txns
      modifies this`s
      ensures Valid() && t in s.txns && s.rows == old(s.rows) && s.seen == old(s.seen)
      ensures forall id :: FreshId(s, id) == FreshId(old(s), id)
      ensures s.txns[t] == Txn(job, if job.CaptureJob? then Looking else if job.WebhookJob? then Checking else Sweeping)
    {
      Do(Start(t, job));
      SameFresh(old(s), t, s);
    }

    /** recordIfNew: false for an event that is already stored. */
    method RecordIfNew(t: TxnId) returns (isNew: bool)
      requires Valid() && t in s.txns && s.txns[t].job.WebhookJob? && s.txns[t].pc == Checking
      modifies this`s
      ensures Valid() && t in s.txns && s.rows == old(s.rows) && s.seen == old(s.seen)
      ensures s.txns[t] == Txn(old(s.txns[t]).job, if isNew then Locating else Ended(true))
      ensures isNew == (old(s.txns[t]).job.event !in s.seen)
    {
      isNew := s.txns[t].job.event !in s.seen;
      Do(Check(t));
    }

    /** No row, an ambiguous reference or an illegal transition end the transaction. */
    method Choose(t: TxnId, hit: Hit)
      requires Valid() && t in s.txns && s.txns[t].job.WebhookJob? && s.txns[t].pc == Locating
      requires Locates(s.rows, s.txns[t].job, hit)
      modifies this`s
      ensures Valid() && t in s.txns && s.rows == old(s.rows) && s.seen == old(s.seen)
      ensures s.txns[t].job == old(s.txns[t]).job
      ensures hit.At? ==> hit.id in s.rows && s.txns[t].pc == AfterChange(s.rows[hit.id], Reaction(s.txns[t].job, s.rows[hit.id]))
      ensures !hit.At? ==> s.txns[t].pc == Ended(false)
    {
      Do(Locate(t, hit));
    }

    method Load(t: TxnId, ids: seq<PayId>, answers: seq<Settlement>)
      requires Valid() && t in s.txns && s.txns[t].job.SweepJob? && s.txns[t].pc == Sweeping
      requires Distinct(ids) && |ids| == |answers|
      requires forall i | 0 <= i < |ids| :: ids[i] in s.rows && s.rows[ids[i]].status == Captured
      modifies this`s
      ensures Valid() && t in s.txns && s.rows == old(s.rows) && RowsOk(s.rows)
      ensures s.txns[t] == Txn(SweepJob, Flushing(SweepUpdates(s.rows, ids, answers)))
    {
      ReachableRows(s);
      Do(Sweep(t, ids, answers));
    }

    /** Flush and commit: all changed rows at the versions that were read, or nothing. */
    method CommitTx(t: TxnId) returns (ok: bool)
      requires Valid() && t in s.txns && s.txns[t].pc.Flushing?
      modifies this`s
      ensures Valid() && t in s.txns && s.txns[t].pc == Ended(ok)
      ensures ok ==> s.rows == Store(old(s.rows), old(s.txns[t]).pc.updates)
      ensures var x := old(s.txns[t]);
        ok <==> (Current(old(s.rows), x.pc.updates) && !(x.job.WebhookJob? && x.job.event in old(s.seen)))
      ensures !ok ==> s.rows == old(s.rows) && s.seen == old(s.seen)
      ensures ok && old(s.txns[t]).job.WebhookJob? ==>
        s.handled == old(s.handled) + [old(s.txns[t]).job.event] && s.seen == old(s.seen) + {old(s.txns[t]).job.event}
    {
      Do(Flush(t));
      return s.txns[t].pc == Ended(true);
    }

    /** The idempotency check: a stored payment answers the call. */
    method LookUp(t: TxnId, hit: Hit)
      requires Valid() && t in s.txns && s.txns[t].job.CaptureJob? && s.txns[t].pc == Looking
      requires FindsByOrder(s.rows, s.txns[t].job.order, hit)
      modifies this`s
      ensures Valid() && t in s.txns && s.rows == old(s.rows)
      ensures forall id :: FreshId(s, id) == FreshId(old(s), id)
      ensures hit.At? ==> s.txns[t].pc.Ended? && s.replies == old(s.replies) + [ReplyOf(s.rows[hit.id])]
      ensures !hit.At? ==> s.txns[t] == Txn(old(s.txns[t]).job,
        if Openable(old(s.txns[t]).job.amount, old(s.txns[t]).job.currency) then Charging else Ended(false))
    {
      Do(Look(t, hit));
      SameFresh(old(s), t, s);
    }

    method Charge(t: TxnId, pay: Pay, answer: Answer)
      requires Valid() && t in s.txns && s.txns[t].job.CaptureJob? && s.txns[t].pc == Charging && FreshId(s, pay.id)
      requires pay == ChargedPay(pay.id, s.txns[t].job, answer)
      modifies this`s
      ensures Valid() && t in s.txns && s.rows == old(s.rows)
      ensures s.txns[t] == Txn(old(s.txns[t]).job, Saving(pay))
    {
      Do(Step.Charge(t, pay.id, answer));
    }

    /** INSERT of a charged payment; the unique order id refuses a second row. */
    method SaveNew(t: TxnId, hit: Hit, recovers: bool)
      requires Valid() && t in s.txns && s.txns[t].pc.Saving? && FindsByOrder(s.rows, s.txns[t].pc.pay.order, hit)
      modifies this`s
      ensures Valid() && t in s.txns && s.txns[t].pc.Ended?
      ensures var p := old(s.txns[t]).pc.pay;
        && (hit.Nowhere? ==> s.rows == old(s.rows)[p.id := p] && s.replies == old(s.replies) + [ReplyOf(p)])
        && (hit.At? ==> s.rows == old(s.rows))
        && (hit.At? && recovers ==> s.replies == old(s.replies) + [ReplyOf(s.rows[hit.id])])
    {
      Do(Save(t, hit, recovers));
    }

    /** findByOrderId: a search of the whole table. */
    method FindByOrder(order: OrderId) returns (hit: Hit)
      requires Valid()
      ensures FindsByOrder(s.rows, order, hit)
    {
      var ids := s.rows.Keys;
      while ids != {}
        invariant ids <= s.rows.Keys
        invariant forall id | id in s.rows && id !in ids :: s.rows[id].order != order
        decreases |ids|
      {
        var id :| id in ids;
        if s.rows[id].order == order { return At(id); }
        ids := ids - {id};
      }
      return Nowhere;
    }

    /** findByProviderReference: fails when more than one row matches. */
    method FindByReference(reference: string) returns (hit: Hit)
      requires Valid()
      ensures FindsByReference(s.rows, reference, hit)
    {
      var ids := s.rows.Keys;
      hit := Nowhere;
      while ids != {}
        invariant ids <= s.rows.Keys && !hit.Ambiguous?
        invariant hit.At? ==> hit.id in s.rows && hit.id !in ids && s.rows[hit.id].reference == reference
        invariant forall id | id in s.rows && id !in ids && s.rows[id].reference == reference :: hit == At(id)
        decreases |ids|
      {
        var id :| id in ids;
        if s.rows[id].reference == reference {
          if hit.At? {
            assert id != hit.id;
            return Ambiguous;
          }
          hit := At(id);
        }
        ids := ids - {id};
      }
    }
  }

  predicate HasPayment(rows: map<PayId, Pay>, order: OrderId) {
    exists p | p in rows :: rows[p].order == order
  }

  datatype CaptureReply = Answered(approved: bool, reference: string) | Unanswered

  class PaymentService {
    const db: Database

    constructor (db: Database)
      ensures this.db == db
    {
      this.db := db;
    }

    /** The charge, and the aggregate that it makes. */
    method ChargeNew(t: TxnId, job: Job, id: PayId, charge: Answer) returns (ok: bool)
      requires db.Valid() && t in db.s.txns && db.s.txns[t] == Txn(job, Charging) && job.CaptureJob?
      modifies db
      ensures db.Valid() && t in db.s.txns
      ensures ok ==> db.s.txns[t] == Txn(job, Saving(ChargedPay(id, job, charge)))
      ensures !ok ==> db.s.txns[t].pc.Ended?
      ensures old(db.turns) == [] ==> db.turns == [] && db.s.rows == old(db.s.rows) && ok == FreshId(old(db.s), id)
    {
      var payment := new Payment.Rehydrate(Open(id, job.order, job.amount, job.currency));
      ok := db.Others(t);
      if !ok { return; }
      if !FreshId(db.s, id) { db.Do(Abort(t)); return false; }
      var moved;
      if charge.approved { moved := payment.Capture(charge.reference); } else { moved := payment.Decline(charge.why); }
      db.Charge(t, payment.AsPay(), charge);
      return true;
    }

    /**
      Capture, idempotent by order id. An answer reports the stored payment of the
      order as it is at this moment; without an answer nothing is known. Undisturbed,
      the call answers unless the arguments cannot be opened, and a first call
      answers what the provider says.
    */
    method Capture(t: TxnId, order: OrderId, amount: int, currency: string, id: PayId, charge: Answer, recovers: bool)
      returns (r: CaptureReply)
      requires db.Valid() && t !in db.s.txns
      modifies db
      ensures db.Valid() && t in db.s.txns && db.s.txns[t].pc.Ended?
      ensures r.Answered? ==>
        && db.s.replies != [] && db.s.replies[|db.s.replies| - 1] == Reply(order, r.approved, r.reference)
        && exists p | p in db.s.rows :: db.s.rows[p].order == order && db.s.rows[p].reference == r.reference
             && (r.approved <==> db.s.rows[p].status == Captured || db.s.rows[p].status == Settled)
      ensures old(db.turns) == [] ==>
        && (r.Answered? <==> HasPayment(old(db.s.rows), order) || (Openable(amount, currency) && FreshId(old(db.s), id)))
        && (r.Answered? && !HasPayment(old(db.s.rows), order) ==>
              && id !in old(db.s.rows) && id in db.s.rows && db.s.rows == old(db.s.rows)[id := db.s.rows[id]]
              && db.s.rows[id].order == order && db.s.rows[id].amount == amount && db.s.rows[id].currency == currency
              && ChargedAs(db.s.rows[id], charge) && r.approved == charge.approved && r.reference == db.s.rows[id].reference)
        && (r.Unanswered? || HasPayment(old(db.s.rows), order) ==> db.s.rows == old(db.s.rows))
    {
      var job := CaptureJob(order, amount, currency);
      db.Begin(t, job);
      var ok := db.Others(t);
      if !ok { return Unanswered; }
      var existing := db.FindByOrder(order);
      db.LookUp(t, existing);
      if existing.At? { return Reported(existing.id); }
      if amount <= 0 || |currency| != 3 { return Unanswered; }

      ok := ChargeNew(t, job, id, charge);
      if !ok { return Unanswered; }
      ok := db.Others(t);
      if !ok { return Unanswered; }
      var duplicate := db.FindByOrder(order);
      db.SaveNew(t, duplicate, recovers);
      if duplicate.Nowhere? { return Reported(id); }
      return if recovers then Reported(duplicate.id) else Unanswered;
    }

    /** PaymentResult.of */
    function Reported(id: PayId): CaptureReply
      reads db
      requires id in db.s.rows
    {
      Answered(db.s.rows[id].Approved(), db.s.rows[id].reference)
    }
  }

  class ReconciliationService {
    const db: Database

    constructor (db: Database)
      ensures this.db == db
    {
      this.db := db;
    }

    /** By reference when there is a usable one that finds something, else by order. */
    method LocatePayment(job: Job) returns (hit: Hit)
      requires db.Valid() && job.WebhookJob?
      ensures Locates(db.s.rows, job, hit)
      ensures hit.At? ==> hit.id in db.s.rows
      ensures hit.At? ==>
        if job.reference.Some? && !IsBlank(job.reference.value) && (exists id :: id in db.s.rows && db.s.rows[id].reference == job.reference.value)
        then db.s.rows[hit.id].reference == job.reference.value
        else job.target == Some(db.s.rows[hit.id].order)
    {
      if UsableReference(job) {
        hit := db.FindByReference(job.reference.value);
        if !hit.Nowhere? { return; }
      }
      if job.target.Some? {
        hit := db.FindByOrder(job.target.value);
        return;
      }
      return Nowhere;
    }

    /** The switch on the event type. */
    method React(job: Job, payment: Payment) returns (moved: Change)
      requires job.WebhookJob?
      modifies payment
      ensures moved == Reaction(job, old(payment.AsPay()))
      ensures payment.AsPay() == if moved.Changed? then moved.pay else old(payment.AsPay())
    {
      match job.kind {
        case "payment.settled" => moved := payment.Settle();
        case "payment.refunded" => moved := payment.Refund();
        case "payment.failed" => moved := payment.Fail(job.reason);
        case _ => moved := Same;
      }
    }

    /** Everything before the commit: the payment the webhook is about, and the change to be stored. */
    method Prepare(t: TxnId, job: Job) returns (change: Option<Update>, ready: bool)
      requires db.Valid() && t !in db.s.txns && job.WebhookJob?
      modifies db
      ensures db.Valid() && t in db.s.txns
      ensures !ready ==> db.s.txns[t].pc.Ended?
      ensures ready ==> db.s.txns[t] == Txn(job, Flushing(if change.Some? then [change.value] else []))
      ensures ready && change.Some? ==> Reports(job.kind, change.value.after.status)
      ensures old(db.turns) == [] ==>
        && db.turns == [] && db.s.rows == old(db.s.rows) && db.s.seen == old(db.s.seen) && RowsOk(db.s.rows)
        && (ready <==> job.event !in db.s.seen && exists id :: Accepts(db.s.rows, job, id))
        && (ready ==> exists id :: Accepts(db.s.rows, job, id) && ChangeOf(db.s.rows, job, id, change))
    {
      change := None;
      ReachableRows(db.s);
      db.Begin(t, job);
      var ok := db.Others(t);
      if !ok { return None, false; }
      var isNew := db.RecordIfNew(t);
      if !isNew { return None, false; }

      ok := db.Others(t);
      if !ok { return None, false; }
      change, ready := ChangeFor(t, job);
    }

    /** The located payment, and what the webhook makes of it; nothing is stored yet. */
    method ChangeFor(t: TxnId, job: Job) returns (change: Option<Update>, ready: bool)
      requires db.Valid() && t in db.s.txns && db.s.txns[t] == Txn(job, Locating) && job.WebhookJob?
      modifies db`s
      ensures db.Valid() && t in db.s.txns
      ensures !ready ==> db.s.txns[t].pc.Ended?
      ensures ready ==> db.s.txns[t] == Txn(job, Flushing(if change.Some? then [change.value] else []))
      ensures ready && change.Some? ==> Reports(job.kind, change.value.after.status)
      ensures db.s.rows == old(db.s.rows) && db.s.seen == old(db.s.seen) && RowsOk(db.s.rows)
      ensures ready <==> exists id :: Accepts(db.s.rows, job, id)
      ensures ready ==> exists id :: Accepts(db.s.rows, job, id) && ChangeOf(db.s.rows, job, id, change)
    {
      ReachableRows(db.s);
      var hit := LocatePayment(job);
      OneAccepted(db.s.rows, job, hit);
      db.Choose(t, hit);
      if !hit.At? { return None, false; }
      ReactionIs(job, db.s.rows[hit.id]);
      var row := db.s.rows[hit.id];
      var payment := new Payment.Rehydrate(row);
      var moved := React(job, payment);
      match moved {
        case Illegal => return None, false;
        case Same => return None, true;
        case Changed(_) =>
          return Some(Update(row, payment.AsPay())), true;
      }
    }

    /**
      A webhook takes effect together with the record of its event id, on the
      payment it locates, and only if that payment did not change meanwhile;
      otherwise it stores nothing. Undisturbed, it commits exactly when the event is
      new and it locates a payment that may take the change.
    */
    method HandleWebhook(t: TxnId, job: Job) returns (committed: bool, change: Option<Update>)
      requires db.Valid() && t !in db.s.txns && job.WebhookJob?
      modifies db
      ensures db.Valid() && t in db.s.txns && db.s.txns[t].pc.Ended?
      ensures committed ==> db.s.handled != [] && db.s.handled[|db.s.handled| - 1] == job.event && job.event in db.s.seen
      ensures committed && change.Some? ==>
        change.value.after.id in db.s.rows && Reports(job.kind, db.s.rows[change.value.after.id].status)
      ensures old(db.turns) == [] ==>
        && (committed <==> job.event !in old(db.s.seen) && exists id :: Accepts(old(db.s.rows), job, id))
        && (committed ==> exists id :: Accepts(old(db.s.rows), job, id) && Reacted(old(db.s.rows), job, id, db.s.rows))
        && (committed ==> db.s.seen == old(db.s.seen) + {job.event})
        && (!committed ==> db.s.rows == old(db.s.rows) && db.s.seen == old(db.s.seen))
    {
      var ready;
      change, ready := Prepare(t, job);
      if !ready { return false, None; }
      var ok := db.Others(t);
      if !ok { return false, None; }
      ghost var rows := db.s.rows;
      if old(db.turns) == [] {
        var id :| Accepts(rows, job, id) && ChangeOf(rows, job, id, change);
        ReactedIsStored(rows, job, id, change);
      }
      committed := db.CommitTx(t);
    }

    /** What the sweep makes of the rows it read, in its loop. */
    method Settlements(rows: map<PayId, Pay>, ids: seq<PayId>, answers: seq<Settlement>) returns (updates: seq<Update>)
      requires |ids| == |answers| && forall i | 0 <= i < |ids| :: ids[i] in rows && rows[ids[i]].status == Captured
      ensures updates == SweepUpdates(rows, ids, answers)
    {
      updates := [];
      for i := 0 to |ids|
        invariant updates + SweepUpdates(rows, ids[i..], answers[i..]) == SweepUpdates(rows, ids, answers)
      {
        var payment := new Payment.Rehydrate(rows[ids[i]]);
        var moved := Same;
        match answers[i] {
          case ProviderSettled => moved := payment.Settle();
          case ProviderFailed => moved := payment.Fail(Some("settlement failed"));
          case ProviderPending =>
        }
        if moved.Changed? { updates := updates + [Update(rows[ids[i]], payment.AsPay())]; }
      }
    }

    /**
      One sweep over captured payments. `ids` are those the query returns, and
      `answers` what the provider says of each. Either every definite answer is
      stored or, when any of the rows moved meanwhile, none. Undisturbed, they are
      stored if all the payments were captured, and no other payment is touched.
    */
    method SweepStaleCaptured(t: TxnId, ids: seq<PayId>, answers: seq<Settlement>) returns (committed: bool)
      requires db.Valid() && t !in db.s.txns
      requires Distinct(ids) && |ids| == |answers|
      modifies db
      ensures db.Valid() && t in db.s.txns && db.s.txns[t].pc.Ended?
      ensures committed ==> EachReported(ids, answers, db.s.rows)
      ensures old(db.turns) == [] ==>
        && (committed <==> AllCaptured(old(db.s.rows), ids))
        && (!committed ==> db.s.rows == old(db.s.rows))
        && (committed ==> OthersSame(old(db.s.rows), ids, answers, db.s.rows) && EachSwept(old(db.s.rows), ids, answers, db.s.rows))
    {
      db.Begin(t, SweepJob);
      var ok := db.Others(t);
      if !ok { return false; }
      if !AllCaptured(db.s.rows, ids) {
        db.Do(Abort(t));
        return false;
      }
      var rows := db.s.rows;
      db.Load(t, ids, answers);
      var updates := Settlements(rows, ids, answers);
      assert db.s.txns[t].pc == Flushing(updates);

      ok := db.Others(t);
      if !ok { return false; }
      SweepStored(db.s, t, rows, ids, answers);
      SweepAlone(rows, ids, answers);
      committed := db.CommitTx(t);
    }
  }

  predicate AllCaptured(rows: map<PayId, Pay>, ids: seq<PayId>) {
    forall i | 0 <= i < |ids| :: ids[i] in rows && rows[ids[i]].status == Captured
  }

  /** The provider gave a definite answer on the payment. */
  predicate Answers(ids: seq<PayId>, answers: seq<Settlement>, id: PayId) {
    exists i | 0 <= i < |ids| && i < |answers| :: ids[i] == id && !answers[i].ProviderPending?
  }

  /** No payment without a definite answer is touched. */
  predicate OthersSame(rows: map<PayId, Pay>, ids: seq<PayId>, answers: seq<Settlement>, rows': map<PayId, Pay>) {
    rows'.Keys == rows.Keys && forall id | id in rows && !Answers(ids, answers, id) :: rows'[id] == rows[id]
  }

  /** Updates are made from the rows as they are, for definite answers only. */
  lemma {:induction false} SweepUpdatesFrom(rows: map<PayId, Pay>, ids: seq<PayId>, answers: seq<Settlement>, k: nat)
    requires RowsOk(rows) && |ids| == |answers| && AllCaptured(rows, ids) && k < |SweepUpdates(rows, ids, answers)|
    ensures var u := SweepUpdates(rows, ids, answers)[k];
      u.before.id in rows && u.before == rows[u.before.id] && Answers(ids, answers, u.before.id)
  {
    var all, rest := SweepUpdates(rows, ids, answers), SweepUpdates(rows, ids[1..], answers[1..]);
    var d := |all| - |rest|;
    if k < d {
      assert all[0].before == rows[ids[0]];
    } else {
      SweepUpdatesFrom(rows, ids[1..], answers[1..], k - d);
      assert all[k] == rest[k - d];
      var i :| 0 <= i < |ids[1..]| && i < |answers[1..]| && ids[1..][i] == all[k].before.id && !answers[1..][i].ProviderPending?;
      assert ids[i + 1] == all[k].before.id;
    }
  }

  lemma SweepAlone(rows: map<PayId, Pay>, ids: seq<PayId>, answers: seq<Settlement>)
    requires RowsOk(rows) && Distinct(ids) && |ids| == |answers| && AllCaptured(rows, ids)
    ensures var updates := SweepUpdates(rows, ids, answers);
      Current(rows, updates) && OthersSame(rows, ids, answers, Store(rows, updates))
  {
    var updates := SweepUpdates(rows, ids, answers);
    SweepOk(rows, ids, answers);
    forall k | 0 <= k < |updates|
      ensures updates[k].before.id in rows && updates[k].before == rows[updates[k].before.id] && Answers(ids, answers, updates[k].before.id)
    {
      SweepUpdatesFrom(rows, ids, answers, k);
    }
    StoreGrows(rows, updates);
  }

  /** What a definite answer makes of a captured payment. */
  function Swept(p: Pay, a: Settlement): Pay {
    if a.ProviderSettled? then p.(status := Settled) else p.(status := PayStatus.Failed, failure := "settlement failed")
  }

  /** Every payment with a definite answer has the status that the provider reports. */
  predicate EachReported(ids: seq<PayId>, answers: seq<Settlement>, rows: map<PayId, Pay>) {
    forall i | 0 <= i < |ids| && i < |answers| && !answers[i].ProviderPending? ::
      ids[i] in rows && rows[ids[i]].status == if answers[i].ProviderSettled? then Settled else PayStatus.Failed
  }

  /** Every payment with a definite answer is in the state that the provider reports, at the next version. */
  predicate EachSwept(rows: map<PayId, Pay>, ids: seq<PayId>, answers: seq<Settlement>, rows': map<PayId, Pay>) {
    forall i | 0 <= i < |ids| && i < |answers| && !answers[i].ProviderPending? ::
      && ids[i] in rows && ids[i] in rows'
      && var p := rows[ids[i]];
         rows'[ids[i]] == if answers[i].ProviderSettled? then p.(status := Settled, version := p.version + 1)
                          else p.(status := PayStatus.Failed, failure := "settlement failed", version := p.version + 1)
  }

  lemma {:induction false} SweepHas(rows: map<PayId, Pay>, ids: seq<PayId>, answers: seq<Settlement>, i: nat)
    requires |ids| == |answers| && forall j | 0 <= j < |ids| :: ids[j] in rows && rows[ids[j]].status == Captured
    requires RowsOk(rows) && i < |ids| && !answers[i].ProviderPending?
    ensures exists k | 0 <= k < |SweepUpdates(rows, ids, answers)| ::
      SweepUpdates(rows, ids, answers)[k].after == Swept(rows[ids[i]], answers[i])
  {
    var all := SweepUpdates(rows, ids, answers);
    if i == 0 {
      assert all[0].after == Swept(rows[ids[0]], answers[0]);
    } else {
      SweepHas(rows, ids[1..], answers[1..], i - 1);
      var rest := SweepUpdates(rows, ids[1..], answers[1..]);
      var k :| 0 <= k < |rest| && rest[k].after == Swept(rows[ids[i]], answers[i]);
      var d := |all| - |rest|;
      assert all[k + d] == rest[k];
    }
  }

  lemma {:induction false} StorePuts(rows: map<PayId, Pay>, updates: seq<Update>, k: nat)
    requires k < |updates|
    requires forall i, j | 0 <= i < j < |updates| :: updates[i].after.id != updates[j].after.id
    ensures updates[k].after.id in Store(rows, updates)
    ensures var a := updates[k].after; Store(rows, updates)[a.id] == a.(version := a.version + 1)
  {
    if k < |updates| - 1 { StorePuts(rows, updates[..|updates| - 1], k); }
  }

  lemma SweptAt(now: map<PayId, Pay>, rows: map<PayId, Pay>, ids: seq<PayId>, answers: seq<Settlement>, i: nat)
    requires |ids| == |answers| && AllCaptured(rows, ids) && RowsOk(rows) && UpdatesOk(now, SweepUpdates(rows, ids, answers))
    requires i < |ids| && !answers[i].ProviderPending?
    ensures var rows', a := Store(now, SweepUpdates(rows, ids, answers)), Swept(rows[ids[i]], answers[i]);
      ids[i] in rows' && rows'[ids[i]] == a.(version := a.version + 1)
  {
    var updates := SweepUpdates(rows, ids, answers);
    forall k | 0 <= k < |updates| ensures updates[k].after.id == updates[k].before.id {
      assert UpdateOk(now, updates[k]);
    }
    SweepHas(rows, ids, answers, i);
    var k :| 0 <= k < |updates| && updates[k].after == Swept(rows[ids[i]], answers[i]);
    StorePuts(now, updates, k);
  }

  lemma SweepStored(s: State, t: TxnId, rows: map<PayId, Pay>, ids: seq<PayId>, answers: seq<Settlement>)
    requires Reachable(s) && t in s.txns && RowsOk(rows) && |ids| == |answers| && AllCaptured(rows, ids)
    requires s.txns[t].pc == Flushing(SweepUpdates(rows, ids, answers))
    ensures var rows' := Store(s.rows, s.txns[t].pc.updates); EachSwept(rows, ids, answers, rows') && EachReported(ids, answers, rows')
  {
    var steps :| Run(INITIAL, steps, s);
    RunKeeps(INITIAL, steps, s);
    assert TxnOk(s.rows, s.txns[t]);
    forall i | 0 <= i < |ids| && !answers[i].ProviderPending?
      ensures var rows', a := Store(s.rows, s.txns[t].pc.updates), Swept(rows[ids[i]], answers[i]);
        ids[i] in rows' && rows'[ids[i]] == a.(version := a.version + 1)
    {
      SweptAt(s.rows, rows, ids, answers, i);
    }
  }
}
