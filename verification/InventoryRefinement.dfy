/** The interleaved statements implement an atomic ledger. */
module InventoryRefinement {
  import opened MapSum
  import opened StockLedger
  import opened InventoryMachine
  import opened InventoryInvariant

  /**
    What a call does when it takes effect in one step at its last statement.
    Conflict and Internal are the answers a caller may retry; they change nothing.
  */
  predicate AtomicCall(db: Db, call: Call, outcome: Outcome, db': Db) {
    var o := call.order;
    match outcome
    case Granted =>
      && call.ReserveCall? && o !in db.res
      && Allows(Reserve, db.stock, call.lines) && db' == ReserveAll(db, o, call.lines)
    case Existing(status) => call.ReserveCall? && o in db.res && status == db.res[o].status && db' == db
    case UnknownSku(sku) => call.ReserveCall? && Has(call.lines, sku) && sku !in db.stock && db' == db
    case Insufficient(sku) =>
      && call.ReserveCall? && Has(call.lines, sku)
      && sku in db.stock && db.stock[sku].available < QtyOf(call.lines, sku) && db' == db
    case Done =>
      && call.MoveCall? && o in db.res && db.res[o].status == Held
      && Allows(call.op, db.stock, db.res[o].lines) && db' == MoveAll(call.op, db, o)
    case AlreadyDone => call.MoveCall? && o in db.res && db.res[o].status == TargetOf(call.op) && db' == db
    case NotFound => call.MoveCall? && o !in db.res && db' == db
    case InvalidState =>
      && call.MoveCall? && o in db.res && db' == db
      && db.res[o].status != Held && db.res[o].status != TargetOf(call.op)
    case Invalid => false
    case Conflict => db' == db
    case Internal => db' == db
  }

  /** Every line of a release or commit in flight is covered by the committed row. */
  lemma MoveIsCovered(db: Db, x: Txn, j: nat)
    requires LedgerOk(db) && TxnOk(db, x) && x.call.MoveCall? && InFlight(x) && j < |x.lines|
    ensures var l := x.lines[j]; l.sku in db.stock && l.qty <= db.stock[l.sku].reserved
  {
    var stored := db.res[x.call.order].lines;
    assert x.lines[j] in x.lines;
    var i :| 0 <= i < |stored| && stored[i] == x.lines[j];
    HeldIsCovered(db, x.call.order, i);
  }

  /** A refusal names a line whose committed row, at this very read, cannot serve it. */
  lemma ReadAnswers(db: Db, x: Txn)
    requires LedgerOk(db) && TxnOk(db, x) && x.pc == Reading
    ensures var x' := ReadStatement(db, x);
      x'.call == x.call && (x'.pc.Ended? ==> AtomicCall(db, x.call, x'.pc.outcome, db))
  {
    var l := x.lines[|x.rows|];
    assert IndexOf(x.lines, l.sku) == |x.rows|;
    assert 0 < l.qty;
    if x.call.MoveCall? {
      MoveIsCovered(db, x, |x.rows|);
      assert Adjust(x.call.op, db.stock[l.sku], l.qty).Ok?;
    }
  }

  /** A database error out of the guarded UPDATE means that a counter would pass int64. */
  lemma WriteAnswers(db: Db, x: Txn, now: nat)
    requires LedgerOk(db) && TxnOk(db, x) && x.pc == Writing
    ensures var x' := WriteStatement(db, x, now);
      && x'.call == x.call
      && (x'.pc.Ended? ==> x'.pc.outcome in {Conflict, Internal})
      && (x'.pc == Ended(Internal) ==>
            !RowAllows(x.call.Action(), db.stock[x.lines[x.w].sku], x.lines[x.w].qty))
  {
    assert ReadOk(db, x.call.Action(), x.lines[x.w], x.rows[x.w]);
    if db.stock[x.lines[x.w].sku].version == x.rows[x.w].version {
      StorableIffAllowed(x.call.Action(), x.rows[x.w], x.lines[x.w].qty);
    }
  }

  /**
    Refinement: each step leaves the committed rows alone, or is an admin upsert,
    or is one atomic call; and whichever statement ends a call, the answer is the
    one the atomic call gives at that moment.
  */
  lemma StepRefines(s: State, step: Step)
    requires Inv(s) && Enabled(s, step)
    ensures var s' := Apply(s, step);
      match step
      case Start(_, _) => s'.db == s.db
      case Abort(_) => s'.db == s.db
      case Upsert(sku, available) => s'.db == Restock(s.db, sku, available)
      case Exec(t, _) =>
        && s'.txns[t].call == s.txns[t].call
        && (s'.txns[t].Active() ==> s'.db == s.db)
        && (s'.txns[t].pc.Ended? ==> AtomicCall(s.db, s.txns[t].call, s'.txns[t].pc.outcome, s'.db))
  {
    if step.Exec? {
      var x := s.txns[step.txn];
      match x.pc
      case Find =>
      case Reading => ReadAnswers(s.db, x);
      case Writing => WriteAnswers(s.db, x, |s.log|);
      case Recording =>
      case Reread =>
      case Committing => CommitIsAtomic(s.db, x);
    }
  }

  /**
    The answers a call can get. A release or commit is never refused for want of
    reserved stock or of a stock row, and no call meets ErrValidation.
  */
  predicate PossibleAnswer(call: Call, outcome: Outcome) {
    match outcome
    case Granted => call.ReserveCall?
    case Existing(_) => call.ReserveCall?
    case UnknownSku(_) => call.ReserveCall?
    case Insufficient(_) => call.ReserveCall?
    case Done => call.MoveCall?
    case AlreadyDone => call.MoveCall?
    case NotFound => call.MoveCall?
    case InvalidState => call.MoveCall?
    case Invalid => false
    case Conflict => true
    case Internal => true
  }

  ghost predicate Answered(s: State) {
    forall t | t in s.txns && s.txns[t].pc.Ended? :: PossibleAnswer(s.txns[t].call, s.txns[t].pc.outcome)
  }

  lemma StepAnswered(s: State, step: Step)
    requires Inv(s) && Answered(s) && Enabled(s, step)
    ensures Answered(Apply(s, step))
  {
    StepRefines(s, step);
    var s' := Apply(s, step);
    forall t | t in s'.txns && s'.txns[t].pc.Ended? ensures PossibleAnswer(s'.txns[t].call, s'.txns[t].pc.outcome) {
      if t in s.txns && s'.txns[t] == s.txns[t] {}
    }
  }

  lemma {:induction false} RunAnswered(s: State, steps: seq<Step>, s': State)
    requires Inv(s) && Answered(s) && Run(s, steps, s')
    ensures Answered(s')
    decreases |steps|
  {
    if steps != [] {
      StepKeeps(s, steps[0]);
      StepAnswered(s, steps[0]);
      RunAnswered(Apply(s, steps[0]), steps[1..], s');
    }
  }

  lemma OnlyPossibleAnswers(s: State, t: TxnId)
    requires Reachable(s) && t in s.txns && s.txns[t].pc.Ended?
    ensures PossibleAnswer(s.txns[t].call, s.txns[t].pc.outcome)
  {
    var steps :| Run(INITIAL, steps, s);
    RunAnswered(INITIAL, steps, s);
  }

  // ---- what ErrConcurrency means ----

  predicate TouchesAny(e: Entry, lines: seq<Line>) {
    exists i | 0 <= i < |lines| :: e.Touches(lines[i].sku)
  }

  /** A commit between two moments touched one of the lines. */
  predicate Disturbed(log: seq<Entry>, lines: seq<Line>, from: nat, to: nat) {
    exists k | from <= k < to && k < |log| :: TouchesAny(log[k], lines)
  }

  /** The lines a call is about; for a release or commit, those of the stored reservation. */
  function LinesOf(db: Db, call: Call): seq<Line> {
    if call.ReserveCall? then call.lines
    else if call.order in db.res then db.res[call.order].lines
    else []
  }

  predicate TouchedSince(log: seq<Entry>, sku: Sku, from: nat) {
    exists k | from <= k < |log| :: log[k].Touches(sku)
  }

  ghost predicate RetryOk(s: State, x: Txn) {
    && |x.starts| >= 1
    && (forall a | 0 <= a < |x.starts| :: x.starts[a] <= |s.log|)
    && (forall j | 0 <= j < |x.rows| && j < |x.lines| && x.lines[j].sku in s.db.stock ::
          s.db.stock[x.lines[j].sku].version != x.rows[j].version ==>
            TouchedSince(s.log, x.lines[j].sku, x.starts[|x.starts| - 1]))
    && (forall a | 0 <= a < |x.starts| - 1 ::
          Disturbed(s.log, LinesOf(s.db, x.call), x.starts[a], x.starts[a + 1]))
    && (x.call.MoveCall? && |x.starts| > 1 ==> x.call.order in s.db.res)
    && (x.pc == Ended(Conflict) ==>
          && |x.starts| == MAX_ATTEMPTS
          && Disturbed(s.log, LinesOf(s.db, x.call), x.starts[MAX_ATTEMPTS - 1], |s.log|))
  }

  /** Logged commits belong to transactions that ended with success. */
  ghost predicate LogOk(s: State) {
    forall k | 0 <= k < |s.log| && s.log[k].TxnCommit? ::
      s.log[k].txn in s.txns && Succeeded(s.txns[s.log[k].txn])
  }

  ghost predicate RetryInv(s: State) {
    LogOk(s) && forall t | t in s.txns :: RetryOk(s, s.txns[t])
  }

  /** Whoever changes a row leaves an entry that touches it. */
  ghost predicate Recorded(s: State, s': State) {
    && s.log <= s'.log
    && (forall k | k in s.db.stock :: k in s'.db.stock)
    && (forall k | k in s.db.stock && s'.db.stock[k] != s.db.stock[k] :: TouchedSince(s'.log, k, |s.log|))
    && (forall o | o in s.db.res :: o in s'.db.res && s'.db.res[o].lines == s.db.res[o].lines)
  }

  lemma StepRecorded(s: State, step: Step)
    requires Inv(s) && Enabled(s, step)
    ensures Recorded(s, Apply(s, step))
  {
    var s' := Apply(s, step);
    if step.Exec? && s.txns[step.txn].pc.Committing? {
      var x := s.txns[step.txn];
      CommitIsAtomic(s.db, x);
      assert s'.log[|s.log|].TxnCommit? && s'.log[|s.log|].lines == x.lines;
    } else if step.Upsert? {
      assert s'.log[|s.log|] == StockSet(step.sku, s'.log[|s.log|].delta);
    }
  }

  /** A transaction that does not act keeps its history. */
  lemma BystanderRetry(s: State, s': State, y: Txn)
    requires RetryOk(s, y) && Recorded(s, s')
    requires forall j | 0 <= j < |y.rows| && j < |y.lines| :: y.lines[j].sku in s.db.stock
    ensures RetryOk(s', y)
  {}

  /** A failed guard proves that somebody committed to that row during this attempt. */
  lemma FailedGuard(s: State, x: Txn)
    requires Inv(s) && TxnOk(s.db, x) && RetryOk(s, x) && x.pc == Writing
    requires x.lines[x.w].sku in s.db.stock
    requires s.db.stock[x.lines[x.w].sku].version != x.rows[x.w].version
    ensures Disturbed(s.log, LinesOf(s.db, x.call), x.starts[|x.starts| - 1], |s.log|)
  {
    var sku := x.lines[x.w].sku;
    var lines := LinesOf(s.db, x.call);
    var k :| x.starts[|x.starts| - 1] <= k < |s.log| && s.log[k].Touches(sku);
    assert x.lines[x.w] in x.lines;
    var i :| 0 <= i < |lines| && lines[i] == x.lines[x.w];
    assert TouchesAny(s.log[k], lines);
  }

  lemma RestartRetry(s: State, x: Txn)
    requires RetryOk(s, x) && |x.starts| <= MAX_ATTEMPTS && (x.call.MoveCall? ==> x.call.order in s.db.res)
    requires Disturbed(s.log, LinesOf(s.db, x.call), x.starts[|x.starts| - 1], |s.log|)
    ensures RetryOk(s, Restart(x, |s.log|))
  {
  }

  /** Within an attempt the rows read so far are kept, extended by the committed row, or dropped. */
  predicate SameAttempt(db: Db, x: Txn, x': Txn) {
    && x'.starts == x.starts && x'.call == x.call
    && (x'.pc.Ended? ==> x'.pc.outcome != Conflict)
    && (|| x'.rows == []
        || (x'.lines == x.lines && x'.rows == x.rows)
        || (x'.lines == x.lines && |x.rows| < |x.lines| && x.lines[|x.rows|].sku in db.stock
            && x'.rows == x.rows + [db.stock[x.lines[|x.rows|].sku]]))
  }

  lemma AttemptRetry(s: State, x: Txn, x': Txn)
    requires RetryOk(s, x) && SameAttempt(s.db, x, x')
    ensures RetryOk(s, x')
  {
  }

  /** The only way to a further attempt is a guard that failed. */
  lemma StatementAttempt(db: Db, x: Txn, loaded: seq<Line>, now: nat)
    requires TxnOk(db, x) && x.Active() && x.pc != Committing && Placed(db, x)
    requires x.pc == Writing ==>
      x.lines[x.w].sku in db.stock && db.stock[x.lines[x.w].sku].version == x.rows[x.w].version
    ensures SameAttempt(db, x, Statement(db, x, loaded, now))
  {
  }

  lemma StatementRetry(s: State, t: TxnId, loaded: seq<Line>)
    requires Inv(s) && RetryInv(s) && Enabled(s, Exec(t, loaded)) && s.txns[t].pc != Committing
    ensures RetryOk(s, Statement(s.db, s.txns[t], loaded, |s.log|))
  {
    var x := s.txns[t];
    assert RetryOk(s, x) && TxnOk(s.db, x);
    if x.pc == Writing {
      assert ReadOk(s.db, x.call.Action(), x.lines[x.w], x.rows[x.w]);
      if s.db.stock[x.lines[x.w].sku].version != x.rows[x.w].version {
        FailedGuard(s, x);
        RestartRetry(s, x);
        return;
      }
    }
    StatementAttempt(s.db, x, loaded, |s.log|);
    AttemptRetry(s, x, Statement(s.db, x, loaded, |s.log|));
  }

  lemma CommittedRetry(s: State, t: TxnId, loaded: seq<Line>)
    requires Inv(s) && RetryInv(s) && Enabled(s, Exec(t, loaded)) && s.txns[t].pc == Committing
    ensures RetryOk(Apply(s, Exec(t, loaded)), Statement(s.db, s.txns[t], loaded, |s.log|))
  {
    var x := s.txns[t];
    var s' := Apply(s, Exec(t, loaded));
    assert RetryOk(s, x);
    StepRecorded(s, Exec(t, loaded));
    forall j | 0 <= j < |x.rows| ensures x.lines[j].sku in s.db.stock { assert ReadOk(s.db, x.call.Action(), x.lines[j], x.rows[j]); }
    BystanderRetry(s, s', x);
  }

  predicate Succeeded(x: Txn) {
    x.pc == Ended(Granted) || x.pc == Ended(Done)
  }

  lemma StepLog(s: State, step: Step)
    requires LogOk(s) && Enabled(s, step)
    ensures LogOk(Apply(s, step))
  {
  }

  lemma OthersRetry(s: State, step: Step, u: TxnId)
    requires Inv(s) && RetryInv(s) && Enabled(s, step) && u in s.txns
    requires !step.Upsert? ==> u != step.txn
    ensures RetryOk(Apply(s, step), s.txns[u])
  {
    var y := s.txns[u];
    assert TxnOk(s.db, y) && RetryOk(s, y);
    StepRecorded(s, step);
    forall j | 0 <= j < |y.rows| && j < |y.lines| ensures y.lines[j].sku in s.db.stock {
      assert ReadOk(s.db, y.call.Action(), y.lines[j], y.rows[j]);
    }
    BystanderRetry(s, Apply(s, step), y);
  }

  lemma ActorRetry(s: State, step: Step)
    requires Inv(s) && RetryInv(s) && Enabled(s, step) && !step.Upsert?
    ensures RetryOk(Apply(s, step), Apply(s, step).txns[step.txn])
  {
    match step
    case Start(t, call) =>
    case Abort(t) =>
    case Exec(t, loaded) =>
      if s.txns[t].pc == Committing {
        CommittedRetry(s, t, loaded);
      } else {
        StatementRetry(s, t, loaded);
      }
  }

  lemma StepRetry(s: State, step: Step)
    requires Inv(s) && RetryInv(s) && Enabled(s, step)
    ensures RetryInv(Apply(s, step))
  {
    var s' := Apply(s, step);
    StepLog(s, step);
    if !step.Upsert? { ActorRetry(s, step); }
    forall u | u in s'.txns ensures RetryOk(s', s'.txns[u]) {
      if step.Upsert? || u != step.txn { OthersRetry(s, step, u); }
    }
  }

  lemma {:induction false} RunRetry(s: State, steps: seq<Step>, s': State)
    requires Inv(s) && RetryInv(s) && Run(s, steps, s')
    ensures Inv(s') && RetryInv(s')
    decreases |steps|
  {
    if steps != [] {
      StepKeeps(s, steps[0]);
      StepRetry(s, steps[0]);
      RunRetry(Apply(s, steps[0]), steps[1..], s');
    }
  }

  /** Attempt `a` lasts until the next one starts, or until now. */
  function AttemptEnd(starts: seq<nat>, a: nat, now: nat): nat {
    if a + 1 < |starts| then starts[a + 1] else now
  }

  /** During attempt `a` somebody other than `t` committed to one of the lines. */
  ghost predicate DisturbedByOther(log: seq<Entry>, t: TxnId, lines: seq<Line>, starts: seq<nat>, a: nat)
    requires a < |starts|
  {
    exists k | starts[a] <= k < AttemptEnd(starts, a, |log|) && k < |log| :: !log[k].By(t) && TouchesAny(log[k], lines)
  }

  ghost predicate AllDisturbed(s: State, t: TxnId, lines: seq<Line>) {
    && t in s.txns && |s.txns[t].starts| == 5
    && forall a | 0 <= a < 5 :: DisturbedByOther(s.log, t, lines, s.txns[t].starts, a)
  }

  /**
    A call that gave up with a conflict made exactly five attempts, and inside
    each of them another transaction committed to one of the call's SKUs.
  */
  lemma ConflictMeansFiveCommits(s: State, t: TxnId)
    requires Reachable(s) && t in s.txns && s.txns[t].pc == Ended(Conflict)
    ensures AllDisturbed(s, t, LinesOf(s.db, s.txns[t].call))
  {
    var steps :| Run(INITIAL, steps, s);
    RunRetry(INITIAL, steps, s);
    assert RetryOk(s, s.txns[t]);
    forall a | 0 <= a < MAX_ATTEMPTS ensures DisturbedByOther(s.log, t, LinesOf(s.db, s.txns[t].call), s.txns[t].starts, a) {
      AttemptDisturbed(s, t, a);
    }
  }

  lemma AttemptDisturbed(s: State, t: TxnId, a: nat)
    requires LogOk(s) && t in s.txns && RetryOk(s, s.txns[t]) && s.txns[t].pc == Ended(Conflict) && a < MAX_ATTEMPTS
    ensures DisturbedByOther(s.log, t, LinesOf(s.db, s.txns[t].call), s.txns[t].starts, a)
  {
    var x := s.txns[t];
    var lines := LinesOf(s.db, x.call);
    var to := AttemptEnd(x.starts, a, |s.log|);
    assert Disturbed(s.log, lines, x.starts[a], to);
    var k :| x.starts[a] <= k < to && k < |s.log| && TouchesAny(s.log[k], lines);
    assert !s.log[k].By(t);
  }

  // ---- conservation over whole runs ----

  function DeltaOf(e: Entry, sku: Sku): int {
    if e.StockSet? && e.sku == sku then e.delta else 0
  }

  /** Net stock that admin upserts brought in. */
  function Deltas(log: seq<Entry>, sku: Sku): int {
    if log == [] then 0 else Deltas(log[..|log| - 1], sku) + DeltaOf(log[|log| - 1], sku)
  }

  ghost predicate Conserved(s: State) {
    forall sku :: if sku in s.db.stock then Total(s.db, sku) == Deltas(s.log, sku) else Deltas(s.log, sku) == 0
  }

  lemma NothingCommittedOfUnknown(db: Db, sku: Sku)
    requires LedgerOk(db) && sku !in db.stock
    ensures QtyIn(db.res, StockLedger.Committed, sku) == 0
  {
    forall o | o in db.res ensures Share(db.res[o], StockLedger.Committed, sku) == 0 {
      assert !Has(db.res[o].lines, sku);
    }
    SumZero(Shares(db.res, StockLedger.Committed, sku));
  }

  lemma CommitConserves(s: State, t: TxnId, sku: Sku)
    requires Inv(s) && t in s.txns && s.txns[t].pc == Committing && Placed(s.db, s.txns[t])
    ensures sku in CommitDb(s.db, s.txns[t]).stock <==> sku in s.db.stock
    ensures sku in s.db.stock ==> Total(CommitDb(s.db, s.txns[t]), sku) == Total(s.db, sku)
  {
    var x := s.txns[t];
    CommitIsAtomic(s.db, x);
    if sku in s.db.stock {
      if x.call.ReserveCall? {
        ReserveConserves(s.db, x.call.order, x.lines, sku);
      } else {
        MoveConserves(x.call.op, s.db, x.call.order, sku);
      }
    }
  }

  lemma StepConserves(s: State, step: Step)
    requires Inv(s) && Conserved(s) && Enabled(s, step)
    ensures Conserved(Apply(s, step))
  {
    var s' := Apply(s, step);
    forall sku ensures if sku in s'.db.stock then Total(s'.db, sku) == Deltas(s'.log, sku) else Deltas(s'.log, sku) == 0 {
      if step.Upsert? {
        if sku !in s.db.stock { NothingCommittedOfUnknown(s.db, sku); }
      } else if step.Exec? && s.txns[step.txn].pc == Committing {
        CommitConserves(s, step.txn, sku);
      }
    }
  }

  lemma {:induction false} RunConserves(s: State, steps: seq<Step>, s': State)
    requires Inv(s) && Conserved(s) && Run(s, steps, s')
    ensures Inv(s') && Conserved(s')
    decreases |steps|
  {
    if steps != [] {
      StepKeeps(s, steps[0]);
      StepConserves(s, steps[0]);
      RunConserves(Apply(s, steps[0]), steps[1..], s');
    }
  }

  /** No unit is created or lost by any interleaving: on hand + held + gone is what admins put in. */
  lemma StockConserved(s: State, sku: Sku)
    requires Reachable(s) && sku in s.db.stock
    ensures s.db.stock[sku].available + s.db.stock[sku].reserved + QtyIn(s.db.res, StockLedger.Committed, sku)
         == Deltas(s.log, sku)
  {
    var steps :| Run(INITIAL, steps, s);
    RunConserves(INITIAL, steps, s);
  }
}
