/**
  Captures, provider webhooks and settlement sweeps, interleaved. Rows carry
  JPA's @Version: a transaction commits an update only if the row still has the
  version that the transaction read.
*/
module PaymentStore {
  import opened Results
  import opened PaymentDomain
  import opened Texts

  type TxnId = nat

  datatype Job =
    | CaptureJob(order: OrderId, amount: int, currency: string)
    | WebhookJob(event: string, kind: string, reference: Option<string>, target: Option<OrderId>, reason: Option<string>)
    | SweepJob

  datatype Update = Update(before: Pay, after: Pay)

  datatype Pc =
    | Looking                        // findByOrderId
    | Charging                       // the gateway
    | Saving(pay: Pay)               // INSERT and commit
    | Checking                       // existsById of the webhook event
    | Locating                       // find the payment of a webhook
    | Sweeping                       // findCapturedOlderThan, then the provider's answers
    | Flushing(updates: seq<Update>) // commit of the changed rows
    | Ended(ok: bool)

  datatype Txn = Txn(job: Job, pc: Pc)

  /** An answer to a capture, recorded when the row it reports was read or stored. */
  datatype Reply = Reply(order: OrderId, approved: bool, reference: string)

  datatype State = State(rows: map<PayId, Pay>, seen: set<string>, txns: map<TxnId, Txn>,
                         replies: seq<Reply>, handled: seq<string>)

  datatype Answer = Answer(approved: bool, reference: Option<string>, why: Option<string>)

  datatype Settlement = ProviderSettled | ProviderFailed | ProviderPending

  datatype Hit = At(id: PayId) | Nowhere | Ambiguous

  datatype Step =
    | Start(txn: TxnId, job: Job)
    | Look(txn: TxnId, hit: Hit)
    | Charge(txn: TxnId, id: PayId, answer: Answer)
    | Save(txn: TxnId, hit: Hit, recovers: bool)   // `recovers`: a duplicate key is seen in time to re-read the row
    | Check(txn: TxnId)
    | Locate(txn: TxnId, hit: Hit)
    | Sweep(txn: TxnId, ids: seq<PayId>, answers: seq<Settlement>)
    | Flush(txn: TxnId)
    | Abort(txn: TxnId)

  const INITIAL := State(map[], {}, map[], [], [])

  /** What a finder answers when at most one row may match. */
  predicate FindsByOrder(rows: map<PayId, Pay>, order: OrderId, hit: Hit) {
    match hit
    case At(id) => id in rows && rows[id].order == order
    case Nowhere => forall id | id in rows :: rows[id].order != order
    case Ambiguous => false
  }

  predicate FindsByReference(rows: map<PayId, Pay>, reference: string, hit: Hit) {
    match hit
    case At(id) =>
      && id in rows && rows[id].reference == reference
      && forall j | j in rows && j != id :: rows[j].reference != reference
    case Nowhere => forall id | id in rows :: rows[id].reference != reference
    case Ambiguous => exists i, j | i in rows && j in rows :: i != j && rows[i].reference == reference && rows[j].reference == reference
  }

  predicate UsableReference(job: Job)
    requires job.WebhookJob?
  {
    job.reference.Some? && !IsBlank(job.reference.value)
  }

  /** By reference first; by order only when that finds nothing. */
  predicate Locates(rows: map<PayId, Pay>, job: Job, hit: Hit)
    requires job.WebhookJob?
  {
    if UsableReference(job) && !FindsByReference(rows, job.reference.value, Nowhere)
    then FindsByReference(rows, job.reference.value, hit)
    else if job.target.Some? then FindsByOrder(rows, job.target.value, hit)
    else hit == Nowhere
  }

  function ActOf(job: Job): Option<Act>
    requires job.WebhookJob?
  {
    if job.kind == "payment.settled" then Some(Settle)
    else if job.kind == "payment.refunded" then Some(Refund)
    else if job.kind == "payment.failed" then Some(Fail(job.reason))
    else None
  }

  /** The charged payment, or None when Payment.open rejects the arguments. */
  function ChargedPay(id: PayId, job: Job, answer: Answer): Pay
    requires job.CaptureJob?
  {
    var open := Open(id, job.order, job.amount, job.currency);
    var act := if answer.approved then Capture(answer.reference) else Decline(answer.why);
    Transit(open, act).pay
  }

  function SweepUpdates(rows: map<PayId, Pay>, ids: seq<PayId>, answers: seq<Settlement>): seq<Update>
    requires |ids| == |answers| && forall i | 0 <= i < |ids| :: ids[i] in rows && rows[ids[i]].status == Captured
  {
    if ids == [] then []
    else
      var p := rows[ids[0]];
      var rest := SweepUpdates(rows, ids[1..], answers[1..]);
      match answers[0]
      case ProviderSettled => [Update(p, Transit(p, Settle).pay)] + rest
      case ProviderFailed => [Update(p, Transit(p, Fail(Some("settlement failed"))).pay)] + rest
      case ProviderPending => rest
  }

  predicate Distinct(ids: seq<PayId>) {
    forall i, j | 0 <= i < j < |ids| :: ids[i] != ids[j]
  }

  /** Nobody else's charge in progress uses the id (identifiers are fresh UUIDs). */
  predicate FreshId(s: State, id: PayId) {
    id !in s.rows && forall u | u in s.txns && s.txns[u].pc.Saving? :: s.txns[u].pc.pay.id != id
  }

  predicate Enabled(s: State, step: Step) {
    match step
    case Start(t, _) => t !in s.txns
    case Look(t, hit) =>
      t in s.txns && s.txns[t].pc == Looking && s.txns[t].job.CaptureJob? && FindsByOrder(s.rows, s.txns[t].job.order, hit)
    case Charge(t, id, _) =>
      t in s.txns && s.txns[t].pc == Charging && s.txns[t].job.CaptureJob? && FreshId(s, id)
    case Save(t, hit, _) => t in s.txns && s.txns[t].pc.Saving? && FindsByOrder(s.rows, s.txns[t].pc.pay.order, hit)
    case Check(t) => t in s.txns && s.txns[t].pc == Checking && s.txns[t].job.WebhookJob?
    case Locate(t, hit) =>
      t in s.txns && s.txns[t].pc == Locating && s.txns[t].job.WebhookJob? && Locates(s.rows, s.txns[t].job, hit)
    case Sweep(t, ids, answers) =>
      && t in s.txns && s.txns[t].pc == Sweeping && Distinct(ids) && |ids| == |answers|
      && forall i | 0 <= i < |ids| :: ids[i] in s.rows && s.rows[ids[i]].status == Captured
    case Flush(t) => t in s.txns && s.txns[t].pc.Flushing?
    case Abort(t) => t in s.txns && !s.txns[t].pc.Ended?
  }

  predicate Current(rows: map<PayId, Pay>, updates: seq<Update>) {
    forall i | 0 <= i < |updates| :: updates[i].before.id in rows && rows[updates[i].before.id].version == updates[i].before.version
  }

  function Store(rows: map<PayId, Pay>, updates: seq<Update>): map<PayId, Pay> {
    if updates == [] then rows
    else
      var n := |updates| - 1;
      var a := updates[n].after;
      Store(rows, updates[..n])[a.id := a.(version := a.version + 1)]
  }

  function Go(s: State, t: TxnId, pc: Pc): State
    requires t in s.txns
  {
    s.(txns := s.txns[t := s.txns[t].(pc := pc)])
  }

  function ReplyOf(p: Pay): Reply { Reply(p.order, p.Approved(), p.reference) }

  /** A step that is not enabled changes nothing. */
  function Apply(s: State, step: Step): State {
    if !Enabled(s, step) then s
    else match step
    case Start(t, job) =>
      s.(txns := s.txns[t := Txn(job,
           if job.CaptureJob? then Looking else if job.WebhookJob? then Checking else Sweeping)])
    case Look(t, hit) =>
      if hit.At? then Go(s, t, Ended(true)).(replies := s.replies + [ReplyOf(s.rows[hit.id])])
      else if Openable(s.txns[t].job.amount, s.txns[t].job.currency) then Go(s, t, Charging)
      else Go(s, t, Ended(false))
    case Charge(t, id, answer) => Go(s, t, Saving(ChargedPay(id, s.txns[t].job, answer)))
    case Save(t, hit, recovers) =>
      if hit.Nowhere? then
        var p := s.txns[t].pc.pay;
        Go(s, t, Ended(true)).(rows := s.rows[p.id := p], replies := s.replies + [ReplyOf(p)])
      else if recovers && hit.At? then
        Go(s, t, Ended(true)).(replies := s.replies + [ReplyOf(s.rows[hit.id])])
      else Go(s, t, Ended(false))
    case Check(t) => if s.txns[t].job.event in s.seen then Go(s, t, Ended(true)) else Go(s, t, Locating)
    case Locate(t, hit) =>
      if !hit.At? then Go(s, t, Ended(false))
      else
        var p := s.rows[hit.id];
        var act := ActOf(s.txns[t].job);
        if act == None then Go(s, t, Flushing([]))
        else (match Transit(p, act.value)
              case Changed(q) => Go(s, t, Flushing([Update(p, q)]))
              case Same => Go(s, t, Flushing([]))
              case Illegal => Go(s, t, Ended(false)))
    case Sweep(t, ids, answers) => Go(s, t, Flushing(SweepUpdates(s.rows, ids, answers)))
    case Flush(t) =>
      var updates := s.txns[t].pc.updates;
      var job := s.txns[t].job;
      if !Current(s.rows, updates) || (job.WebhookJob? && job.event in s.seen) then Go(s, t, Ended(false))
      else
        Go(s, t, Ended(true)).(
          rows := Store(s.rows, updates),
          seen := if job.WebhookJob? then s.seen + {job.event} else s.seen,
          handled := if job.WebhookJob? then s.handled + [job.event] else s.handled)
    case Abort(t) => Go(s, t, Ended(false))
  }

  ghost predicate Run(s: State, steps: seq<Step>, s': State)
    decreases |steps|
  {
    if steps == [] then s == s' else Enabled(s, steps[0]) && Run(Apply(s, steps[0]), steps[1..], s')
  }

  ghost predicate Reachable(s: State) {
    exists steps :: Run(INITIAL, steps, s)
  }

  lemma {:induction false} RunSnoc(s: State, steps: seq<Step>, m: State, step: Step)
    requires Run(s, steps, m) && Enabled(m, step)
    ensures Run(s, steps + [step], Apply(m, step))
    decreases |steps|
  {
    if steps == [] {
      assert Run(Apply(m, step), [], Apply(m, step));
      assert ([step])[1..] == [];
    } else {
      RunSnoc(Apply(s, steps[0]), steps[1..], m, step);
      assert (steps + [step])[1..] == steps[1..] + [step];
    }
  }

  lemma ReachStep(s: State, step: Step)
    requires Reachable(s) && Enabled(s, step)
    ensures Reachable(Apply(s, step))
  {
    var steps :| Run(INITIAL, steps, s);
    RunSnoc(INITIAL, steps, s, step);
  }

  // ---- invariant ----

  /** Everything about a payment that no reconciliation may touch. */
  predicate SamePayment(p: Pay, q: Pay) {
    p.id == q.id && p.order == q.order && p.amount == q.amount && p.currency == q.currency && p.reference == q.reference
  }

  /** From one stored state of a payment to a later one. */
  predicate Later(p: Pay, q: Pay) {
    && SamePayment(p, q) && p.version <= q.version
    && (p.version == q.version ==> p == q)
    && (p.status == q.status || Edge(p.status, q.status))
  }

  predicate UpdateOk(rows: map<PayId, Pay>, u: Update) {
    && u.before.id in rows && Later(u.before, rows[u.before.id])
    && SamePayment(u.before, u.after) && u.after.version == u.before.version
    && Edge(u.before.status, u.after.status) && u.before.status != Pending
    && (u.after.status != Failed ==> u.after.failure == u.before.failure)
  }

  predicate UpdatesOk(rows: map<PayId, Pay>, updates: seq<Update>) {
    && (forall i | 0 <= i < |updates| :: UpdateOk(rows, updates[i]))
    && (forall i, j | 0 <= i < j < |updates| :: updates[i].before.id != updates[j].before.id)
  }

  predicate RowsOk(rows: map<PayId, Pay>) {
    && (forall id | id in rows :: rows[id].id == id && rows[id].status != Pending && rows[id].amount > 0)
    && (forall i, j | i in rows && j in rows && i != j :: rows[i].order != rows[j].order)
  }

  predicate TxnOk(rows: map<PayId, Pay>, x: Txn) {
    && (x.pc.Looking? || x.pc.Charging? ==> x.job.CaptureJob?)
    && (x.pc.Charging? || x.pc.Saving? ==> x.job.CaptureJob? && Openable(x.job.amount, x.job.currency))
    && (x.pc.Saving? ==>
          && x.job.CaptureJob? && x.pc.pay.id !in rows && x.pc.pay.order == x.job.order && x.pc.pay.amount == x.job.amount > 0
          && x.pc.pay.currency == x.job.currency
          && (x.pc.pay.status == Captured || x.pc.pay.status == Declined))
    && (x.pc.Flushing? ==> UpdatesOk(rows, x.pc.updates))
  }

  /** A reply stays true of the stored payment: refusals are final, references fixed. */
  predicate ReplyOk(rows: map<PayId, Pay>, r: Reply) {
    exists id | id in rows :: rows[id].order == r.order && rows[id].reference == r.reference
      && (if r.approved then rows[id].status != Declined else Refused(rows[id].status))
  }

  /** The webhook events on record, and those that were applied. */
  predicate EventsOk(seen: set<string>, handled: seq<string>) {
    && (forall i, j | 0 <= i < j < |handled| :: handled[i] != handled[j])
    && (forall i | 0 <= i < |handled| :: handled[i] in seen)
  }

  ghost predicate Inv(s: State) {
    && RowsOk(s.rows)
    && (forall t | t in s.txns :: TxnOk(s.rows, s.txns[t]))
    && (forall t, u | t in s.txns && u in s.txns && t != u && s.txns[t].pc.Saving? && s.txns[u].pc.Saving? ::
          s.txns[t].pc.pay.id != s.txns[u].pc.pay.id)
    && (forall i | 0 <= i < |s.replies| :: ReplyOk(s.rows, s.replies[i]))
    && EventsOk(s.seen, s.handled)
  }

  /** How the table may change in one step. */
  ghost predicate Grows(rows: map<PayId, Pay>, rows': map<PayId, Pay>) {
    forall id | id in rows :: id in rows' && Later(rows[id], rows'[id])
  }

  /** Only updated rows change. */
  lemma {:induction false} StoreOthers(rows: map<PayId, Pay>, updates: seq<Update>)
    requires forall i | 0 <= i < |updates| :: UpdateOk(rows, updates[i])
    ensures Store(rows, updates).Keys == rows.Keys
    ensures forall id | id in rows && (forall i | 0 <= i < |updates| :: updates[i].before.id != id) ::
      Store(rows, updates)[id] == rows[id]
  {
    if updates != [] {
      var n := |updates| - 1;
      StoreOthers(rows, updates[..n]);
      assert UpdateOk(rows, updates[n]);
    }
  }

  lemma {:induction false} StoreLater(rows: map<PayId, Pay>, updates: seq<Update>, id: PayId)
    requires id in rows && rows[id].status != Pending && Current(rows, updates)
    requires forall i | 0 <= i < |updates| :: UpdateOk(rows, updates[i])
    ensures id in Store(rows, updates)
    ensures Later(rows[id], Store(rows, updates)[id]) && Store(rows, updates)[id].status != Pending
  {
    if updates != [] {
      var n := |updates| - 1;
      assert UpdateOk(rows, updates[n]);
      if updates[n].before.id != id { StoreLater(rows, updates[..n], id); }
    }
  }

  lemma StoreGrows(rows: map<PayId, Pay>, updates: seq<Update>)
    requires RowsOk(rows) && UpdatesOk(rows, updates) && Current(rows, updates)
    ensures Store(rows, updates).Keys == rows.Keys
    ensures forall id | id in rows && (forall i | 0 <= i < |updates| :: updates[i].before.id != id) ::
      Store(rows, updates)[id] == rows[id]
    ensures forall id | id in rows :: Later(rows[id], Store(rows, updates)[id]) && Store(rows, updates)[id].status != Pending
  {
    StoreOthers(rows, updates);
    forall id | id in rows ensures Later(rows[id], Store(rows, updates)[id]) && Store(rows, updates)[id].status != Pending {
      StoreLater(rows, updates, id);
    }
  }

  /** A changed table keeps what does not act, as long as no pending insert is taken away its id. */
  lemma OthersKeep(s: State, rows': map<PayId, Pay>, u: TxnId)
    requires Inv(s) && Grows(s.rows, rows') && u in s.txns
    requires s.txns[u].pc.Saving? ==> s.txns[u].pc.pay.id !in rows'
    ensures TxnOk(rows', s.txns[u])
  {
  }

  lemma SweepOk(rows: map<PayId, Pay>, ids: seq<PayId>, answers: seq<Settlement>)
    requires RowsOk(rows) && Distinct(ids) && |ids| == |answers|
    requires forall i | 0 <= i < |ids| :: ids[i] in rows && rows[ids[i]].status == Captured
    ensures UpdatesOk(rows, SweepUpdates(rows, ids, answers))
    ensures forall i | 0 <= i < |SweepUpdates(rows, ids, answers)| :: SweepUpdates(rows, ids, answers)[i].before.id in ids
  {
    if ids != [] { SweepOk(rows, ids[1..], answers[1..]); }
  }

  lemma NewReply(rows: map<PayId, Pay>, id: PayId)
    requires RowsOk(rows) && id in rows
    ensures ReplyOk(rows, ReplyOf(rows[id]))
  {
  }

  /** A step that leaves the table alone and moves one transaction. */
  lemma LocalKeeps(s: State, t: TxnId, x: Txn, replies: seq<Reply>)
    requires Inv(s) && TxnOk(s.rows, x)
    requires x.pc.Saving? ==> FreshId(s, x.pc.pay.id) || (t in s.txns && s.txns[t].pc == x.pc)
    requires replies == s.replies || (exists id | id in s.rows :: replies == s.replies + [ReplyOf(s.rows[id])])
    ensures Inv(s.(txns := s.txns[t := x], replies := replies))
  {
  }

  lemma SaveKeeps(s: State, t: TxnId, hit: Hit, recovers: bool)
    requires Inv(s) && Enabled(s, Save(t, hit, recovers)) && hit.Nowhere?
    ensures Inv(Apply(s, Save(t, hit, recovers)))
  {
    var p := s.txns[t].pc.pay;
    var s' := Apply(s, Save(t, hit, recovers));
    assert TxnOk(s.rows, s.txns[t]);
    assert Grows(s.rows, s'.rows);
    forall u | u in s'.txns ensures TxnOk(s'.rows, s'.txns[u]) {
      if u != t { OthersKeep(s, s'.rows, u); }
    }
    forall i | 0 <= i < |s'.replies| ensures ReplyOk(s'.rows, s'.replies[i]) {
      if i >= |s.replies| { NewReply(s'.rows, p.id); }
    }
  }

  lemma FlushRows(s: State, t: TxnId)
    requires Inv(s) && Enabled(s, Flush(t)) && Current(s.rows, s.txns[t].pc.updates)
    ensures var rows' := Store(s.rows, s.txns[t].pc.updates);
      RowsOk(rows') && Grows(s.rows, rows') && rows'.Keys == s.rows.Keys
  {
    assert TxnOk(s.rows, s.txns[t]);
    StoreGrows(s.rows, s.txns[t].pc.updates);
  }

  /** Rows that moved on under the same ids keep everybody's work and every reply. */
  lemma MovedRowsKeep(s: State, t: TxnId, rows': map<PayId, Pay>, seen': set<string>, handled': seq<string>)
    requires Inv(s) && RowsOk(rows') && Grows(s.rows, rows') && rows'.Keys == s.rows.Keys && t in s.txns
    requires EventsOk(seen', handled')
    ensures Inv(State(rows', seen', s.txns[t := s.txns[t].(pc := Ended(true))], s.replies, handled'))
  {
    forall u | u in s.txns && u != t ensures TxnOk(rows', s.txns[u]) { OthersKeep(s, rows', u); }
    forall i | 0 <= i < |s.replies| ensures ReplyOk(rows', s.replies[i]) {}
  }

  lemma FlushKeeps(s: State, t: TxnId)
    requires Inv(s) && Enabled(s, Flush(t))
    ensures Inv(Apply(s, Flush(t)))
  {
    var s' := Apply(s, Flush(t));
    if s'.txns[t].pc == Ended(true) {
      FlushRows(s, t);
      MovedRowsKeep(s, t, s'.rows, s'.seen, s'.handled);
    } else {
      LocalKeeps(s, t, s'.txns[t], s.replies);
    }
  }

  lemma LocateKeeps(s: State, t: TxnId, hit: Hit)
    requires Inv(s) && Enabled(s, Locate(t, hit))
    ensures Inv(Apply(s, Locate(t, hit)))
  {
    var s' := Apply(s, Locate(t, hit));
    if hit.At? && ActOf(s.txns[t].job).Some? { TransitFollowsGraph(s.rows[hit.id], ActOf(s.txns[t].job).value); }
    assert TxnOk(s.rows, s'.txns[t]);
    LocalKeeps(s, t, s'.txns[t], s.replies);
  }

  lemma ChargeKeeps(s: State, t: TxnId, id: PayId, answer: Answer)
    requires Inv(s) && Enabled(s, Charge(t, id, answer))
    ensures Inv(Apply(s, Charge(t, id, answer)))
  {
  }

  lemma StepKeeps(s: State, step: Step)
    requires Inv(s) && Enabled(s, step)
    ensures Inv(Apply(s, step))
  {
    var s' := Apply(s, step);
    match step
    case Start(t, job) => LocalKeeps(s, t, s'.txns[t], s.replies);
    case Look(t, hit) => LocalKeeps(s, t, s'.txns[t], s'.replies);
    case Charge(t, id, answer) => ChargeKeeps(s, t, id, answer);
    case Save(t, hit, recovers) =>
      if hit.Nowhere? { SaveKeeps(s, t, hit, recovers); } else { LocalKeeps(s, t, s'.txns[t], s'.replies); }
    case Check(t) => LocalKeeps(s, t, s'.txns[t], s.replies);
    case Locate(t, hit) => LocateKeeps(s, t, hit);
    case Sweep(t, ids, answers) =>
      SweepOk(s.rows, ids, answers);
      LocalKeeps(s, t, s'.txns[t], s.replies);
    case Flush(t) => FlushKeeps(s, t);
    case Abort(t) => LocalKeeps(s, t, s'.txns[t], s.replies);
  }

  lemma {:induction false} RunKeeps(s: State, steps: seq<Step>, s': State)
    requires Inv(s) && Run(s, steps, s')
    ensures Inv(s')
    decreases |steps|
  {
    if steps != [] {
      StepKeeps(s, steps[0]);
      RunKeeps(Apply(s, steps[0]), steps[1..], s');
    }
  }

  // ---- what holds of every run ----

  /** At most one stored payment per order. */
  lemma OnePaymentPerOrder(s: State, i: PayId, j: PayId)
    requires Reachable(s) && i in s.rows && j in s.rows && s.rows[i].order == s.rows[j].order
    ensures i == j
  {
    var steps :| Run(INITIAL, steps, s);
    RunKeeps(INITIAL, steps, s);
  }

  lemma StepGrows(s: State, step: Step)
    requires Inv(s) && Enabled(s, step)
    ensures Grows(s.rows, Apply(s, step).rows)
  {
    match step
    case Save(t, hit, _) => if hit.Nowhere? { assert TxnOk(s.rows, s.txns[t]); }
    case Flush(t) => if Apply(s, step).txns[t].pc == Ended(true) { FlushRows(s, t); }
    case _ =>
  }

  /**
    A stored payment is never removed, its order, amount, currency and reference
    never change, and its status only moves along the lifecycle graph, with the
    version going up at every change.
  */
  lemma {:induction false} PaymentHistory(s: State, steps: seq<Step>, s': State, id: PayId)
    requires Inv(s) && Run(s, steps, s') && id in s.rows
    ensures id in s'.rows && Later(s.rows[id], s'.rows[id])
    decreases |steps|
  {
    if steps != [] {
      var m := Apply(s, steps[0]);
      StepKeeps(s, steps[0]);
      StepGrows(s, steps[0]);
      PaymentHistory(m, steps[1..], s', id);
    }
  }

  /** Each webhook event is applied at most once. */
  lemma WebhookOnce(s: State, i: nat, j: nat)
    requires Reachable(s) && i < j < |s.handled|
    ensures s.handled[i] != s.handled[j]
  {
    var steps :| Run(INITIAL, steps, s);
    RunKeeps(INITIAL, steps, s);
  }

  /** Replies follow the stored payment, so refusal can only come after approval. */
  ghost predicate RepliesOrdered(s: State) {
    forall i, j | 0 <= i < j < |s.replies| && s.replies[i].order == s.replies[j].order ::
      (!s.replies[i].approved ==> !s.replies[j].approved) && s.replies[i].reference == s.replies[j].reference
  }

  lemma FollowsReply(s: State, s': State, i: nat)
    requires Inv(s) && Inv(s') && Grows(s.rows, s'.rows) && i < |s.replies|
    requires |s'.replies| == |s.replies| + 1 && s.replies[i].order == s'.replies[|s.replies|].order
    requires exists id | id in s'.rows :: s'.replies[|s.replies|] == ReplyOf(s'.rows[id])
    ensures !s.replies[i].approved ==> !s'.replies[|s.replies|].approved
    ensures s.replies[i].reference == s'.replies[|s.replies|].reference
  {
  }

  /** A step adds at most one reply, about a row that is there afterwards. */
  lemma ReplyAdded(s: State, step: Step)
    requires Enabled(s, step) && Apply(s, step).replies != s.replies
    ensures var s' := Apply(s, step);
      && |s'.replies| == |s.replies| + 1 && s'.replies[..|s.replies|] == s.replies
      && exists id | id in s'.rows :: s'.replies[|s.replies|] == ReplyOf(s'.rows[id])
  {
    var s' := Apply(s, step);
    var hit := if step.Look? || step.Save? then step.hit else Nowhere;
    var id := if hit.At? then hit.id else s.txns[step.txn].pc.pay.id;
    assert s'.replies[|s.replies|] == ReplyOf(s'.rows[id]);
  }

  lemma StepReplies(s: State, step: Step)
    requires Inv(s) && RepliesOrdered(s) && Enabled(s, step)
    ensures RepliesOrdered(Apply(s, step))
  {
    var s' := Apply(s, step);
    StepKeeps(s, step);
    if s'.replies != s.replies {
      var n := |s.replies|;
      ReplyAdded(s, step);
      StepGrows(s, step);
      forall i | 0 <= i < n && s.replies[i].order == s'.replies[n].order
        ensures !s.replies[i].approved ==> !s'.replies[n].approved
        ensures s.replies[i].reference == s'.replies[n].reference
      {
        FollowsReply(s, s', i);
      }
    }
  }

  lemma {:induction false} RunReplies(s: State, steps: seq<Step>, s': State)
    requires Inv(s) && RepliesOrdered(s) && Run(s, steps, s')
    ensures RepliesOrdered(s')
    decreases |steps|
  {
    if steps != [] {
      StepKeeps(s, steps[0]);
      StepReplies(s, steps[0]);
      RunReplies(Apply(s, steps[0]), steps[1..], s');
    }
  }

  /**
    Stable refusal: once a capture of an order is answered with a refusal, every
    later answer for that order is a refusal; and all answers name one reference.
  */
  lemma StableRefusal(s: State, i: nat, j: nat)
    requires Reachable(s) && i < j < |s.replies| && s.replies[i].order == s.replies[j].order
    ensures !s.replies[i].approved ==> !s.replies[j].approved
    ensures s.replies[i].reference == s.replies[j].reference
  {
    var steps :| Run(INITIAL, steps, s);
    RunReplies(INITIAL, steps, s);
  }
}
