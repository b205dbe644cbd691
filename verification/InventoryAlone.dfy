/** A call that runs with no other transaction at work ends, and answers what an inventory of its own would. */
module InventoryAlone {
  import opened StockLedger
  import opened InventoryMachine
  import opened InventoryInvariant
  import opened InventoryRefinement
  import Repository = InventoryRepository
  import Recovery = SagaRecovery

  predicate Refusal(outcome: Outcome) {
    outcome.UnknownSku? || outcome.Insufficient?
  }

  /** The same answer, but for the line that a refused reserve names. */
  predicate Alike(call: Call, a: Outcome, b: Outcome) {
    a == b || (call.ReserveCall? && Refusal(a) && Refusal(b))
  }

  /** No other transaction is at work, nothing was committed since `t` began, and nobody else reserves for its order. */
  predicate Undisturbed(s: State, t: TxnId) {
    && t in s.txns && s.txns[t].Active() && Repository.OthersEnded(s, t) && s.txns[t].starts == [|s.log|]
    && (s.txns[t].call.ReserveCall? && s.txns[t].pc != Find ==> s.txns[t].call.order !in s.db.res)
  }

  /** The lines as the SELECT returns them, in the order in which they are stored. */
  function Stored(s: State, t: TxnId): seq<Line>
    requires t in s.txns
  {
    var o := s.txns[t].call.order;
    if o in s.db.res then s.db.res[o].lines else []
  }

  lemma StatementEnabled(s: State, t: TxnId)
    requires Reachable(s) && Undisturbed(s, t)
    ensures Enabled(s, Exec(t, Stored(s, t)))
  {
    Repository.AlwaysPlaced(s, t);
    Repository.NobodyToWaitFor(s, t);
    if s.txns[t].call.order in s.db.res { Repository.StoredLines(s, s.txns[t].call.order); }
  }

  // ---- it ends ----

  function Phase(pc: Pc): nat {
    match pc
    case Find => 3
    case Reading => 2
    case Writing => 2
    case Recording => 1
    case _ => 0
  }

  /** Reads and writes to come. */
  function Left(x: Txn): nat {
    if |x.rows| + x.w <= 2 * |x.lines| then 2 * |x.lines| - |x.rows| - x.w else 0
  }

  predicate Sooner(x': Txn, x: Txn) {
    Phase(x'.pc) < Phase(x.pc) || (Phase(x'.pc) == Phase(x.pc) && x'.lines == x.lines && Left(x') < Left(x))
  }

  lemma StatementSooner(db: Db, x: Txn, loaded: seq<Line>, now: nat)
    requires TxnOk(db, x) && x.Active() && x.pc != Committing && x.pc != Reread && Placed(db, x)
    requires x.pc == Writing ==> x.lines[x.w].sku in db.stock && db.stock[x.lines[x.w].sku].version == x.rows[x.w].version
    requires x.call.ReserveCall? && x.pc != Find ==> x.call.order !in db.res
    ensures var x' := Statement(db, x, loaded, now);
      x'.starts == x.starts && (x'.Active() ==> Sooner(x', x) && x'.pc != Reread)
  {
  }

  // ---- what it answers ----

  lemma FindAlike(db: Db, x: Txn, loaded: seq<Line>)
    requires TxnOk(db, x) && x.pc == Find
    ensures var x' := FindStatement(db, x, loaded); x'.pc.Ended? ==> x'.pc.outcome == Recovery.Alone(db, x.call)
  {
  }

  lemma ReadAlike(db: Db, x: Txn)
    requires LedgerOk(db) && TxnOk(db, x) && x.pc == Reading && (x.call.ReserveCall? ==> x.call.order !in db.res)
    ensures var x' := ReadStatement(db, x); x'.pc.Ended? ==> Alike(x.call, x'.pc.outcome, Recovery.Alone(db, x.call))
  {
    var x' := ReadStatement(db, x);
    ReadAnswers(db, x);
    if x'.pc.Ended? {
      assert Recovery.LineRefused(db.stock, x.lines[|x.rows|]);
      Recovery.FirstRefusedSpec(db.stock, x.lines);
    }
  }

  /** Every row that an undisturbed reserve has read still serves its line. */
  lemma AllServed(db: Db, x: Txn)
    requires TxnOk(db, x) && x.call.ReserveCall? && |x.rows| == |x.lines|
    requires forall j | 0 <= j < |x.rows| :: x.lines[j].sku in db.stock && x.rows[j] == db.stock[x.lines[j].sku]
    ensures !Recovery.Refusable(db.stock, x.lines)
  {
    forall j | 0 <= j < |x.lines| ensures !Recovery.LineRefused(db.stock, x.lines[j]) {
      assert ReadOk(db, Reserve, x.lines[j], x.rows[j]);
    }
  }

  lemma RowsCurrent(s: State, x: Txn)
    requires TxnOk(s.db, x) && RetryOk(s, x) && x.starts == [|s.log|]
    ensures forall j | 0 <= j < |x.rows| :: x.lines[j].sku in s.db.stock && x.rows[j] == s.db.stock[x.lines[j].sku]
  {
    forall j | 0 <= j < |x.rows| ensures x.lines[j].sku in s.db.stock && x.rows[j] == s.db.stock[x.lines[j].sku] {
      assert ReadOk(s.db, x.call.Action(), x.lines[j], x.rows[j]);
    }
  }

  lemma WriteAlike(s: State, x: Txn)
    requires LedgerOk(s.db) && TxnOk(s.db, x) && RetryOk(s, x) && x.pc == Writing && x.starts == [|s.log|]
    requires x.call.ReserveCall? ==> x.call.order !in s.db.res
    ensures var x' := WriteStatement(s.db, x, |s.log|); x'.pc.Ended? ==> x'.pc.outcome == Recovery.Alone(s.db, x.call)
  {
    var x' := WriteStatement(s.db, x, |s.log|);
    Repository.WriteAlone(s, x);
    if x'.pc.Ended? {
      if x.call.ReserveCall? {
        RowsCurrent(s, x);
        AllServed(s.db, x);
      } else {
        Repository.OverflowOfStored(s.db, x);
      }
    }
  }

  lemma CommitAlike(db: Db, x: Txn)
    requires LedgerOk(db) && TxnOk(db, x) && x.pc == Committing
    ensures Recovery.Alone(db, x.call) == if x.call.ReserveCall? then Granted else Done
  {
    CommitIsAtomic(db, x);
  }

  /** The next statement keeps the call undisturbed and brings its end nearer, or ends it as an inventory of its own would. */
  lemma StatementAlone(s: State, t: TxnId, loaded: seq<Line>)
    requires Reachable(s) && Undisturbed(s, t) && Enabled(s, Exec(t, loaded))
    ensures var s' := Apply(s, Exec(t, loaded));
      && t in s'.txns && s'.txns[t].call == s.txns[t].call
      && if s'.txns[t].Active()
         then Undisturbed(s', t) && Sooner(s'.txns[t], s.txns[t])
         else Alike(s.txns[t].call, s'.txns[t].pc.outcome, Recovery.Alone(s.db, s.txns[t].call))
  {
    Repository.TxnFacts(s, t);
    StatementCases(s, s.txns[t], loaded);
  }

  lemma StatementCases(s: State, x: Txn, loaded: seq<Line>)
    requires LedgerOk(s.db) && TxnOk(s.db, x) && RetryOk(s, x) && x.Active() && Placed(s.db, x) && x.starts == [|s.log|]
    requires x.call.ReserveCall? && x.pc != Find ==> x.call.order !in s.db.res
    ensures var x' := Statement(s.db, x, loaded, |s.log|);
      && x'.call == x.call
      && if x'.Active()
         then x.pc != Committing && x'.starts == x.starts && Sooner(x', x) && (x.call.ReserveCall? ==> x.call.order !in s.db.res)
         else Alike(x.call, x'.pc.outcome, Recovery.Alone(s.db, x.call))
  {
    match x.pc
    case Find =>
      FindAlike(s.db, x, loaded);
      StatementSooner(s.db, x, loaded, |s.log|);
    case Reading =>
      ReadAlike(s.db, x);
      StatementSooner(s.db, x, loaded, |s.log|);
    case Writing =>
      Repository.WriteAlone(s, x);
      WriteAlike(s, x);
      StatementSooner(s.db, x, loaded, |s.log|);
    case Recording => StatementSooner(s.db, x, loaded, |s.log|);
    case Reread =>
    case Committing => CommitAlike(s.db, x);
  }
}
