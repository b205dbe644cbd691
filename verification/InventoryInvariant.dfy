/** What every interleaving of inventory transactions keeps. */
module InventoryInvariant {
  import opened Results
  import opened StockLedger
  import opened InventoryMachine

  /** The optimistic guard: an equal version means an unchanged row. */
  predicate Fresh(seen: Row, now: Row) {
    seen.version <= now.version && (seen.version == now.version ==> seen == now)
  }

  predicate InFlight(x: Txn) {
    x.pc.Reading? || x.pc.Writing? || x.pc.Recording? || x.pc.Committing?
  }

  /** How far a transaction is, by program point. */
  ghost predicate Shape(x: Txn) {
    && 1 <= |x.starts| <= MAX_ATTEMPTS
    && ValidLines(x.lines)
    && (x.call.ReserveCall? ==> x.lines == x.call.lines)
    && (x.call.MoveCall? ==> x.call.op != Reserve)
    && x.w <= |x.rows| <= |x.lines|
    && match x.pc
       case Reading => |x.rows| < |x.lines| && x.w == (if x.call.ReserveCall? then 0 else |x.rows|)
       case Writing => x.w < |x.lines| && |x.rows| == (if x.call.ReserveCall? then |x.lines| else x.w + 1)
       case Recording => x.w == |x.rows| == |x.lines|
       case Committing => x.w == |x.rows| == |x.lines|
       case _ => x.rows == [] && x.w == 0
  }

  predicate ReadOk(db: Db, op: Op, l: Line, seen: Row) {
    && l.sku in db.stock
    && Fresh(seen, db.stock[l.sku])
    && Adjust(op, seen, l.qty).Ok?
  }

  predicate WriteOk(db: Db, op: Op, l: Line, seen: Row) {
    && l.sku in db.stock
    && db.stock[l.sku] == seen
    && NewRow(op, seen, l.qty).Some? && NewRow(op, seen, l.qty).value.Storable()
  }

  ghost predicate TxnOk(db: Db, x: Txn) {
    && Shape(x)
    && (forall j | 0 <= j < |x.rows| :: ReadOk(db, x.call.Action(), x.lines[j], x.rows[j]))
    && (forall j | 0 <= j < x.w :: WriteOk(db, x.call.Action(), x.lines[j], x.rows[j]))
    && (x.call.MoveCall? && InFlight(x) ==>
          && x.call.order in db.res && db.res[x.call.order].status == Held
          && SameLines(x.lines, db.res[x.call.order].lines))
    && (x.call.ReserveCall? && x.pc.Committing? ==> x.call.order !in db.res)
    && (x.pc.Reread? ==> x.call.ReserveCall? && x.call.order in db.res)
  }

  /** No two transactions hold one row, insert one order, or move one order. */
  ghost predicate PairOk(x: Txn, y: Txn) {
    && (forall s :: !(x.Holds(s) && y.Holds(s)))
    && (x.pc.Committing? && y.pc.Committing? && x.call.ReserveCall? && y.call.ReserveCall? ==>
          x.call.order != y.call.order)
    && (x.Active() && y.Active() && x.call.MoveCall? && y.call.MoveCall? ==>
          x.call.order != y.call.order)
  }

  ghost predicate Inv(s: State) {
    && LedgerOk(s.db)
    && (forall t | t in s.txns :: TxnOk(s.db, s.txns[t]))
    && (forall t, u | t in s.txns && u in s.txns && t != u :: PairOk(s.txns[t], s.txns[u]))
  }

  // ---- one statement of one transaction ----

  lemma FindKeeps(db: Db, x: Txn, loaded: seq<Line>)
    requires LedgerOk(db) && TxnOk(db, x) && x.pc == Find
    requires x.call.MoveCall? && x.call.order in db.res ==>
      Distinct(loaded) && SameLines(loaded, db.res[x.call.order].lines)
    ensures TxnOk(db, FindStatement(db, x, loaded))
  {
    if x.call.MoveCall? && x.call.order in db.res {
      var stored := db.res[x.call.order].lines;
      forall i | 0 <= i < |loaded| ensures 0 < loaded[i].qty <= 100_000 {
        assert loaded[i] in loaded;
        assert loaded[i] in stored;
      }
    }
  }

  /** One more row read or written within the same attempt. */
  lemma AdvanceKeeps(db: Db, x: Txn, x': Txn)
    requires TxnOk(db, x) && InFlight(x) && InFlight(x') && Shape(x')
    requires x'.call == x.call && x'.lines == x.lines
    requires x'.rows == x.rows
      || (|x.rows| < |x.lines| && |x'.rows| == |x.rows| + 1 && x'.rows[..|x.rows|] == x.rows
          && ReadOk(db, x.call.Action(), x.lines[|x.rows|], x'.rows[|x.rows|]))
    requires x'.w == x.w
      || (x'.w == x.w + 1 && WriteOk(db, x.call.Action(), x.lines[x.w], x'.rows[x.w]))
    requires x'.call.ReserveCall? && x'.pc.Committing? ==> x'.call.order !in db.res
    ensures TxnOk(db, x')
  {
  }

  lemma WriteShape(db: Db, x: Txn, now: nat)
    requires Shape(x) && x.pc == Writing
    ensures Shape(WriteStatement(db, x, now))
  {
  }

  lemma ReadKeeps(db: Db, x: Txn)
    requires LedgerOk(db) && TxnOk(db, x) && x.pc == Reading
    ensures TxnOk(db, ReadStatement(db, x))
  {
    var x' := ReadStatement(db, x);
    if x'.pc.Ended? {
    } else {
      AdvanceKeeps(db, x, x');
    }
  }

  lemma WriteKeeps(db: Db, x: Txn, now: nat)
    requires LedgerOk(db) && TxnOk(db, x) && x.pc == Writing
    ensures TxnOk(db, WriteStatement(db, x, now))
  {
    var x' := WriteStatement(db, x, now);
    if x'.pc.Ended? {
    } else {
      WriteShape(db, x, now);
      assert ReadOk(db, x.call.Action(), x.lines[x.w], x.rows[x.w]);
      if x'.w == x.w + 1 {
        AdvanceKeeps(db, x, x');
      }
    }
  }

  lemma StatementKeeps(db: Db, x: Txn, loaded: seq<Line>, now: nat)
    requires LedgerOk(db) && TxnOk(db, x) && x.Active() && x.pc != Committing
    requires x.pc == Find && x.call.MoveCall? && x.call.order in db.res ==>
      Distinct(loaded) && SameLines(loaded, db.res[x.call.order].lines)
    ensures Placed(db, x)
    ensures TxnOk(db, Statement(db, x, loaded, now))
  {
    match x.pc
    case Find => FindKeeps(db, x, loaded);
    case Reading => ReadKeeps(db, x);
    case Writing => WriteKeeps(db, x, now);
    case Recording =>
    case Reread =>
  }

  /** The acting transaction gains at most one lock, and only through a guarded UPDATE that matched. */
  lemma StatementLocks(db: Db, x: Txn, loaded: seq<Line>, now: nat, k: Sku)
    requires TxnOk(db, x) && x.Active() && x.pc != Committing && Placed(db, x)
    ensures var x' := Statement(db, x, loaded, now);
      x'.Holds(k) ==> x.Holds(k) || (x.pc == Writing && x.lines[x.w].sku == k
                                     && k in db.stock && db.stock[k].version == x.rows[x.w].version)
  {
  }

  lemma StatementCommitting(db: Db, x: Txn, loaded: seq<Line>, now: nat)
    requires TxnOk(db, x) && x.Active() && x.pc != Committing && Placed(db, x)
    ensures var x' := Statement(db, x, loaded, now);
      x'.call == x.call
      && (x'.pc == Committing ==> x.pc == Recording && (x.call.ReserveCall? ==> x.call.order !in db.res))
  {
  }

  lemma StatementKeepsPair(s: State, t: TxnId, u: TxnId, loaded: seq<Line>, now: nat)
    requires Inv(s) && t in s.txns && u in s.txns && t != u
    requires s.txns[t].Active() && s.txns[t].pc != Committing && Placed(s.db, s.txns[t])
    requires !WaitsFor(s, t, u)
    ensures PairOk(Statement(s.db, s.txns[t], loaded, now), s.txns[u])
    ensures PairOk(s.txns[u], Statement(s.db, s.txns[t], loaded, now))
  {
    var x, y := s.txns[t], s.txns[u];
    var x' := Statement(s.db, x, loaded, now);
    assert PairOk(x, y) && TxnOk(s.db, x);
    StatementCommitting(s.db, x, loaded, now);
    forall k ensures !(x'.Holds(k) && y.Holds(k)) {
      StatementLocks(s.db, x, loaded, now, k);
    }
  }

  lemma LocalStepKeeps(s: State, t: TxnId, x': Txn)
    requires Inv(s) && TxnOk(s.db, x')
    requires forall u | u in s.txns && u != t :: PairOk(x', s.txns[u]) && PairOk(s.txns[u], x')
    ensures Inv(s.(txns := s.txns[t := x']))
  {}

  // ---- COMMIT ----

  /** Only a counter passing int64 makes the row that the UPDATE would store unacceptable. */
  lemma StorableIffAllowed(op: Op, seen: Row, qty: int)
    requires seen.InRange() && 0 < qty <= 100_000 && Adjust(op, seen, qty).Ok?
    ensures NewRow(op, seen, qty).Some?
    ensures NewRow(op, seen, qty).value.Storable() <==> RowAllows(op, seen, qty)
    ensures RowAllows(op, seen, qty) ==> NewRow(op, seen, qty).value == Moved(op, seen, qty)
  {
  }

  lemma WrittenIsMoved(db: Db, x: Txn, j: nat)
    requires LedgerOk(db) && TxnOk(db, x) && j < x.w
    ensures x.lines[j].sku in db.stock
    ensures RowAllows(x.call.Action(), db.stock[x.lines[j].sku], x.lines[j].qty)
    ensures Written(x, j) == Some(Moved(x.call.Action(), db.stock[x.lines[j].sku], x.lines[j].qty))
  {
    assert WriteOk(db, x.call.Action(), x.lines[j], x.rows[j]);
    assert ReadOk(db, x.call.Action(), x.lines[j], x.rows[j]);
    StorableIffAllowed(x.call.Action(), x.rows[j], x.lines[j].qty);
  }

  lemma CommitStock(db: Db, x: Txn)
    requires LedgerOk(db) && TxnOk(db, x) && x.pc == Committing && Placed(db, x)
    ensures Allows(x.call.Action(), db.stock, x.lines)
    ensures CommitDb(db, x).stock == Shift(x.call.Action(), db.stock, x.lines)
  {
    forall j | 0 <= j < |x.lines|
      ensures x.lines[j].sku in db.stock
           && RowAllows(x.call.Action(), db.stock[x.lines[j].sku], x.lines[j].qty)
    {
      WrittenIsMoved(db, x, j);
    }
    forall s | s in db.stock ensures CommitDb(db, x).stock[s] == Shift(x.call.Action(), db.stock, x.lines)[s] {
      if Has(x.lines, s) { WrittenIsMoved(db, x, IndexOf(x.lines, s)); }
    }
  }

  lemma SameLinesShift(op: Op, stock: map<Sku, Row>, a: seq<Line>, b: seq<Line>)
    requires Distinct(a) && Distinct(b) && SameLines(a, b)
    ensures Shift(op, stock, a) == Shift(op, stock, b)
  {
    forall s | s in stock ensures Shift(op, stock, a)[s] == Shift(op, stock, b)[s] {
      SameLinesQty(a, b, s);
    }
  }

  lemma SameLinesAllows(op: Op, stock: map<Sku, Row>, a: seq<Line>, b: seq<Line>)
    requires SameLines(a, b) && Allows(op, stock, a)
    ensures Allows(op, stock, b)
  {
    forall i | 0 <= i < |b| ensures b[i].sku in stock && RowAllows(op, stock[b[i].sku], b[i].qty) {
      assert b[i] in b;
      var j :| 0 <= j < |a| && a[j] == b[i];
    }
  }

  /** The rows written are those of the atomic step, although they were computed from earlier reads. */
  lemma CommitIsAtomic(db: Db, x: Txn)
    requires LedgerOk(db) && TxnOk(db, x) && x.pc == Committing
    ensures Placed(db, x)
    ensures x.call.ReserveCall? ==>
      && x.call.order !in db.res && Allows(Reserve, db.stock, x.lines)
      && CommitDb(db, x) == ReserveAll(db, x.call.order, x.lines)
    ensures x.call.MoveCall? ==>
      && x.call.order in db.res && db.res[x.call.order].status == Held
      && Allows(x.call.op, db.stock, db.res[x.call.order].lines)
      && CommitDb(db, x) == MoveAll(x.call.op, db, x.call.order)
  {
    CommitStock(db, x);
    if x.call.MoveCall? {
      SameLinesShift(x.call.op, db.stock, x.lines, db.res[x.call.order].lines);
      SameLinesAllows(x.call.op, db.stock, x.lines, db.res[x.call.order].lines);
    }
  }

  /** Rows only move to higher versions, and nobody touches a row somebody else has locked. */
  ghost predicate Evolves(db: Db, db': Db, y: Txn) {
    && (forall s | s in db.stock :: s in db'.stock && (db'.stock[s] == db.stock[s] || db.stock[s].version < db'.stock[s].version))
    && (forall s | s in db.stock && y.Holds(s) :: db'.stock[s] == db.stock[s])
    && (forall o | o in db.res :: o in db'.res)
    && (y.call.MoveCall? && InFlight(y) && y.call.order in db.res ==> db'.res[y.call.order] == db.res[y.call.order])
    && (y.call.ReserveCall? && y.pc.Committing? && y.call.order !in db.res ==> y.call.order !in db'.res)
  }

  lemma EvolvesKeeps(db: Db, db': Db, y: Txn)
    requires TxnOk(db, y) && Evolves(db, db', y)
    ensures TxnOk(db', y)
  {
  }

  lemma CommitEvolves(s: State, t: TxnId, u: TxnId)
    requires Inv(s) && t in s.txns && u in s.txns && t != u && s.txns[t].pc == Committing
    ensures Evolves(s.db, CommitDb(s.db, s.txns[t]), s.txns[u])
  {
    var x, y := s.txns[t], s.txns[u];
    assert PairOk(x, y) && TxnOk(s.db, x) && TxnOk(s.db, y);
    CommitIsAtomic(s.db, x);
    forall k | k in s.db.stock && Has(x.lines, k) ensures !y.Holds(k) {
      assert x.Holds(k);
    }
    if x.call.MoveCall? {
      var stored := s.db.res[x.call.order].lines;
      forall k ensures Has(x.lines, k) == Has(stored, k) {
        SameLinesQty(x.lines, stored, k);
      }
    }
  }

  lemma CommitKeeps(s: State, t: TxnId, outcome: Outcome, log: seq<Entry>)
    requires Inv(s) && t in s.txns && s.txns[t].pc == Committing
    ensures Placed(s.db, s.txns[t])
    ensures Inv(State(CommitDb(s.db, s.txns[t]), s.txns[t := End(s.txns[t], outcome)], log))
  {
    var x := s.txns[t];
    CommitIsAtomic(s.db, x);
    var db' := CommitDb(s.db, x);
    if x.call.ReserveCall? {
      ReserveKeepsLedger(s.db, x.call.order, x.lines);
    } else {
      MoveKeepsLedger(x.call.op, s.db, x.call.order);
    }
    forall u | u in s.txns && u != t ensures TxnOk(db', s.txns[u]) {
      CommitEvolves(s, t, u);
      EvolvesKeeps(s.db, db', s.txns[u]);
    }
    EndKeeps(s, t, outcome, db', log);
  }

  lemma EndOk(db: Db, x: Txn, outcome: Outcome, db': Db)
    requires TxnOk(db, x)
    ensures TxnOk(db', End(x, outcome))
  {
  }

  lemma EndPair(x: Txn, y: Txn, outcome: Outcome)
    requires PairOk(x, y)
    ensures PairOk(End(x, outcome), y) && PairOk(y, End(x, outcome))
  {
  }

  lemma EndKeeps(s: State, t: TxnId, outcome: Outcome, db': Db, log: seq<Entry>)
    requires Inv(s) && t in s.txns && LedgerOk(db')
    requires forall u | u in s.txns && u != t :: TxnOk(db', s.txns[u])
    ensures Inv(State(db', s.txns[t := End(s.txns[t], outcome)], log))
  {
    var s' := State(db', s.txns[t := End(s.txns[t], outcome)], log);
    forall u | u in s'.txns ensures TxnOk(db', s'.txns[u]) {
      if u == t { EndOk(s.db, s.txns[t], outcome, db'); }
    }
    forall u, v | u in s'.txns && v in s'.txns && u != v ensures PairOk(s'.txns[u], s'.txns[v]) {
      assert PairOk(s.txns[u], s.txns[v]);
      if u == t { EndPair(s.txns[t], s.txns[v], outcome); }
      if v == t { EndPair(s.txns[t], s.txns[u], outcome); }
    }
  }

  // ---- whole steps ----

  lemma ExecKeeps(s: State, t: TxnId, loaded: seq<Line>)
    requires Inv(s) && Enabled(s, Exec(t, loaded))
    ensures Inv(Apply(s, Exec(t, loaded)))
  {
    var x := s.txns[t];
    if x.pc == Committing {
      CommitKeeps(s, t, if x.call.ReserveCall? then Granted else Done, s.log + [TxnCommit(t, x.call.order, x.call.Action(), x.lines)]);
    } else {
      StatementKeeps(s.db, x, loaded, |s.log|);
      var x' := Statement(s.db, x, loaded, |s.log|);
      forall u | u in s.txns && u != t ensures PairOk(x', s.txns[u]) && PairOk(s.txns[u], x') {
        StatementKeepsPair(s, t, u, loaded, |s.log|);
      }
      LocalStepKeeps(s, t, x');
    }
  }

  lemma UpsertKeeps(s: State, sku: Sku, available: int)
    requires Inv(s) && Enabled(s, Upsert(sku, available))
    ensures Inv(Apply(s, Upsert(sku, available)))
  {
    RestockKeepsLedger(s.db, sku, available);
    var db' := Restock(s.db, sku, available);
    forall u | u in s.txns ensures TxnOk(db', s.txns[u]) {
      EvolvesKeeps(s.db, db', s.txns[u]);
    }
  }

  /** Every enabled step keeps the invariant, whatever the interleaving. */
  lemma StepKeeps(s: State, step: Step)
    requires Inv(s) && Enabled(s, step) && OneMover(s, step)
    ensures Inv(Apply(s, step))
  {
    match step
    case Start(t, call) =>
      var x := Apply(s, step).txns[t];
      assert TxnOk(s.db, x);
      LocalStepKeeps(s, t, x);
    case Exec(t, loaded) => ExecKeeps(s, t, loaded);
    case Abort(t) => LocalStepKeeps(s, t, End(s.txns[t], Internal));
    case Upsert(sku, available) => UpsertKeeps(s, sku, available);
  }

  lemma {:induction false} RunKeeps(s: State, steps: seq<Step>, s': State)
    requires Inv(s) && Run(s, steps, s')
    ensures Inv(s')
    decreases |steps|
  {
    if steps != [] {
      StepKeeps(s, steps[0]);
      RunKeeps(Apply(s, steps[0]), steps[1..], s');
    }
  }

  /**
    Ledger agreement: in every reachable state the committed rows have, for each
    SKU, `reserved` equal to the quantity over HELD reservations and
    non-negative counters.
  */
  lemma LedgerAgreement(s: State, sku: Sku)
    requires Reachable(s) && sku in s.db.stock
    ensures s.db.stock[sku].reserved == QtyIn(s.db.res, Held, sku)
    ensures s.db.stock[sku].available >= 0 && s.db.stock[sku].reserved >= 0
  {
    var steps :| Run(INITIAL, steps, s);
    RunKeeps(INITIAL, steps, s);
  }
}
