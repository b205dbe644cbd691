/**
  InventoryRepository in the form of the Go code: retry loops around one
  transaction, statement after statement, while everybody else's transactions
  run in between. Every statement is a step of the machine, so the theorems
  about runs hold for these methods too.
*/
module InventoryRepository {
  import opened Int64
  import opened Results
  import opened StockLedger
  import opened InventoryMachine
  import opened InventoryInvariant
  import opened InventoryRefinement
  import Domain = InventoryDomain

  /** What happens before a statement: steps of other transactions, and perhaps a lost connection. */
  datatype Turn = Turn(steps: seq<Step>, fails: bool)

  lemma ReachableInv(s: State)
    requires Reachable(s)
    ensures Inv(s)
  {
    var steps :| Run(INITIAL, steps, s);
    RunKeeps(INITIAL, steps, s);
  }

  /** The machine is ready for the next statement of `t`. */
  lemma AlwaysPlaced(s: State, t: TxnId)
    requires Reachable(s) && t in s.txns && s.txns[t].Active()
    ensures Placed(s.db, s.txns[t])
  {
    ReachableInv(s);
    if s.txns[t].pc == Committing {
      CommitIsAtomic(s.db, s.txns[t]);
    } else {
      assert TxnOk(s.db, s.txns[t]);
    }
  }

  /** After a unique violation the other reservation is there. */
  lemma RereadFinds(s: State, t: TxnId)
    requires Reachable(s) && t in s.txns && s.txns[t].pc == Reread
    ensures s.txns[t].call.order in s.db.res
  {
    ReachableInv(s);
    assert TxnOk(s.db, s.txns[t]);
  }

  /** A stored reservation has valid lines. */
  lemma StoredLines(s: State, o: OrderId)
    requires Reachable(s) && o in s.db.res
    ensures ValidLines(s.db.res[o].lines)
  {
    ReachableInv(s);
  }

  // ---- a call that nobody disturbs ----

  /** Adding to, or taking from, a counter of some line's row would pass int64. */
  predicate Overflows(op: Op, stock: map<Sku, Row>, lines: seq<Line>) {
    exists i | 0 <= i < |lines| ::
      && lines[i].sku in stock && Adjust(op, stock[lines[i].sku], lines[i].qty).Ok?
      && !RowAllows(op, stock[lines[i].sku], lines[i].qty)
  }

  /** The answer of the atomic call, with its effect; an error only where a counter would overflow. */
  predicate ExactAnswer(db: Db, call: Call, outcome: Outcome, db': Db) {
    && AtomicCall(db, call, outcome, db') && outcome != Conflict
    && (outcome == Internal ==> Overflows(call.Action(), db.stock, LinesOf(db, call)))
  }

  predicate OthersEnded(s: State, t: TxnId) {
    forall u | u in s.txns && u != t :: !s.txns[u].Active()
  }

  lemma NobodyToWaitFor(s: State, t: TxnId)
    requires Reachable(s) && t in s.txns && OthersEnded(s, t)
    ensures forall u | u in s.txns :: !WaitsFor(s, t, u)
  {
    ReachableInv(s);
    forall u | u in s.txns ensures !WaitsFor(s, t, u) {
      if u != t { assert TxnOk(s.db, s.txns[u]); }
    }
  }

  lemma QuietHoldsNothing(s: State)
    requires Reachable(s) && forall u | u in s.txns :: !s.txns[u].Active()
    ensures forall sku :: !RowLocked(s, sku)
  {
    ReachableInv(s);
    forall u, sku | u in s.txns ensures !s.txns[u].Holds(sku) { assert TxnOk(s.db, s.txns[u]); }
  }

  lemma TxnFacts(s: State, t: TxnId)
    requires Reachable(s) && t in s.txns
    ensures LedgerOk(s.db) && TxnOk(s.db, s.txns[t]) && RetryOk(s, s.txns[t])
  {
    var steps :| Run(INITIAL, steps, s);
    RunRetry(INITIAL, steps, s);
  }

  /** Nothing was committed since the attempt began, so a guarded UPDATE matches, and fails only if a counter would overflow. */
  lemma WriteAlone(s: State, x: Txn)
    requires LedgerOk(s.db) && TxnOk(s.db, x) && RetryOk(s, x) && x.pc == Writing && x.starts == [|s.log|]
    ensures x.lines[x.w].sku in s.db.stock && s.db.stock[x.lines[x.w].sku].version == x.rows[x.w].version
    ensures Written(x, x.w).Some?
    ensures !Written(x, x.w).value.Storable() ==> Overflows(x.call.Action(), s.db.stock, x.lines)
  {
    var l := x.lines[x.w];
    assert ReadOk(s.db, x.call.Action(), l, x.rows[x.w]);
    StorableIffAllowed(x.call.Action(), x.rows[x.w], l.qty);
  }

  lemma UndisturbedWrite(s: State, t: TxnId)
    requires Reachable(s) && t in s.txns && s.txns[t].pc == Writing && s.txns[t].starts == [|s.log|]
    ensures var x := s.txns[t];
      && x.w < |x.lines| && x.w < |x.rows|
      && x.lines[x.w].sku in s.db.stock && s.db.stock[x.lines[x.w].sku].version == x.rows[x.w].version
      && Written(x, x.w).Some?
      && (!Written(x, x.w).value.Storable() ==> Overflows(x.call.Action(), s.db.stock, LinesOf(s.db, x.call)))
  {
    TxnFacts(s, t);
    WriteAlone(s, s.txns[t]);
    OverflowOfStored(s.db, s.txns[t]);
  }

  lemma ReadIsExact(db: Db, x: Txn)
    requires LedgerOk(db) && TxnOk(db, x) && x.pc == Reading
    ensures var x' := ReadStatement(db, x);
      x'.pc.Ended? ==> ExactAnswer(db, x.call, x'.pc.outcome, db)
  {
    ReadAnswers(db, x);
  }

  lemma ReadExactly(s: State, t: TxnId)
    requires Reachable(s) && t in s.txns && s.txns[t].pc == Reading
    ensures |s.txns[t].rows| < |s.txns[t].lines|
    ensures var x' := ReadStatement(s.db, s.txns[t]);
      x'.pc.Ended? ==> ExactAnswer(s.db, s.txns[t].call, x'.pc.outcome, s.db)
  {
    TxnFacts(s, t);
    ReadIsExact(s.db, s.txns[t]);
  }

  lemma OverflowOfSame(op: Op, stock: map<Sku, Row>, a: seq<Line>, b: seq<Line>)
    requires SameLines(a, b) && Overflows(op, stock, a)
    ensures Overflows(op, stock, b)
  {
    var i :| 0 <= i < |a| && a[i].sku in stock && Adjust(op, stock[a[i].sku], a[i].qty).Ok?
      && !RowAllows(op, stock[a[i].sku], a[i].qty);
    assert a[i] in b;
    var j :| 0 <= j < |b| && b[j] == a[i];
  }

  /** The lines of a release or commit in flight are those stored. */
  lemma OverflowOfStored(db: Db, x: Txn)
    requires TxnOk(db, x) && x.pc == Writing
    ensures Overflows(x.call.Action(), db.stock, x.lines) ==> Overflows(x.call.Action(), db.stock, LinesOf(db, x.call))
  {
    if x.call.MoveCall? && Overflows(x.call.op, db.stock, x.lines) {
      OverflowOfSame(x.call.op, db.stock, x.lines, db.res[x.call.order].lines);
    }
  }

  lemma CommitAnswers(s: State, t: TxnId)
    requires Reachable(s) && t in s.txns && s.txns[t].pc == Committing && Enabled(s, Exec(t, []))
    ensures var s' := Apply(s, Exec(t, []));
      AtomicCall(s.db, s.txns[t].call, if s.txns[t].call.ReserveCall? then Granted else Done, s'.db)
  {
    ReachableInv(s);
    StepRefines(s, Exec(t, []));
  }

  /** A statement of somebody else leaves the transaction alone and logs nothing in its name. */
  ghost predicate Untouched(before: State, now: State, t: TxnId) {
    && t in before.txns && t in now.txns && now.txns[t] == before.txns[t]
    && before.log <= now.log
    && forall k | |before.log| <= k < |now.log| :: !now.log[k].By(t)
  }

  /** The aggregate holds what `op` makes of the row, still at the version that was read. */
  ghost predicate Adjusted(item: Domain.StockItem, op: Op, row: Row, line: Line)
    reads item
  {
    item.sku == line.sku && item.version == row.version && Adjust(op, row, line.qty) == Ok(item.AsRow())
  }

  /** What the caller hears of an ended call: its outcome, or an error when the acknowledgement of its COMMIT was lost. */
  predicate Told(x: Txn, r: Outcome) {
    x.pc == Ended(r) || (r == Internal && Succeeded(x))
  }

  datatype WriteResult = AllWritten | VersionMoved | WriteFailed

  class InventoryRepository {
    var s: State
    var turns: seq<Turn>
    /** ORDER BY sku, in the database's collation. */
    const orderBy: seq<Line> -> seq<Line>

    ghost predicate Valid()
      reads this
    {
      && Reachable(s)
      && forall ls | ValidLines(ls) ::
           Distinct(orderBy(ls)) && |orderBy(ls)| == |ls| && SameLines(orderBy(ls), ls)
    }

    predicate Blocked(t: TxnId)
      reads this
      requires t in s.txns
    {
      exists u | u in s.txns :: WaitsFor(s, t, u)
    }

    /** Nobody else is at work or will be, and nothing was committed since `t` began. */
    predicate Alone(t: TxnId)
      reads this
    {
      turns == [] && t in s.txns && OthersEnded(s, t) && s.txns[t].starts == [|s.log|]
    }

    /** Nobody is at work or will be. */
    predicate Quiet()
      reads this
    {
      turns == [] && forall u | u in s.txns :: !s.txns[u].Active()
    }

    // ---- interleaving ----

    method Others(t: TxnId, steps: seq<Step>)
      requires Valid() && t in s.txns
      modifies this`s
      ensures Valid() && Untouched(old(s), s, t)
    {
      for i := 0 to |steps|
        invariant Valid() && Untouched(old(s), s, t)
      {
        if (steps[i].Upsert? || steps[i].txn != t) && Enabled(s, steps[i]) && OneMover(s, steps[i]) {
          ReachStep(s, steps[i]);
          s := Apply(s, steps[i]);
        }
      }
    }

    /** Wait until the next statement of `t` can run; otherwise the transaction is rolled back. */
    method Await(t: TxnId) returns (ok: bool)
      requires Valid() && t in s.txns && s.txns[t].Active()
      modifies this
      ensures Valid() && t in s.txns
      ensures ok ==> Untouched(old(s), s, t) && !Blocked(t)
      ensures !ok ==> s.txns[t] == End(old(s.txns[t]), Internal)
      ensures old(Alone(t)) ==> ok && s == old(s) && turns == []
    {
      if OthersEnded(s, t) { NobodyToWaitFor(s, t); }
      while turns != []
        invariant Valid() && Untouched(old(s), s, t)
        invariant old(turns) == [] ==> turns == [] && s == old(s)
        decreases |turns|
      {
        var turn := turns[0];
        turns := turns[1..];
        Others(t, turn.steps);
        if turn.fails { Rollback(t); return false; }
        if !Blocked(t) { return true; }
      }
      if Blocked(t) { Rollback(t); return false; }
      return true;
    }

    method Rollback(t: TxnId)
      requires Valid() && t in s.txns && s.txns[t].Active()
      modifies this`s
      ensures Valid() && s == Apply(old(s), Abort(t))
    {
      ReachStep(s, Abort(t));
      s := Apply(s, Abort(t));
    }

    method Perform(t: TxnId, loaded: seq<Line>)
      requires Valid() && t in s.txns && s.txns[t].Active() && !Blocked(t)
      requires s.txns[t].pc == Find && s.txns[t].call.MoveCall? && s.txns[t].call.order in s.db.res ==>
        loaded == orderBy(s.db.res[s.txns[t].call.order].lines)
      modifies this`s
      ensures Valid() && Enabled(old(s), Exec(t, loaded)) && s == Apply(old(s), Exec(t, loaded))
    {
      AlwaysPlaced(s, t);
      if s.txns[t].call.order in s.db.res { StoredLines(s, s.txns[t].call.order); }
      ReachStep(s, Exec(t, loaded));
      s := Apply(s, Exec(t, loaded));
    }

    // ---- statements ----

    /** SELECT the reservation of the order. */
    method FindReservation(t: TxnId) returns (found: Option<Status>)
      requires Valid() && t in s.txns && s.txns[t].call.ReserveCall? && s.txns[t].pc == Find && !Blocked(t)
      modifies this`s
      ensures Valid() && s.db == old(s.db) && s.log == old(s.log) && t in s.txns
      ensures var o := old(s.txns[t]).call.order;
        found == if o in s.db.res then Some(s.db.res[o].status) else None
      ensures s.txns[t] == if found.Some? then End(old(s.txns[t]), Existing(found.value)) else Next(old(s.txns[t]))
      ensures old(Alone(t)) ==> Alone(t)
    {
      var o := s.txns[t].call.order;
      found := if o in s.db.res then Some(s.db.res[o].status) else None;
      Perform(t, []);
    }

    /** SELECT available, reserved, version FROM stock_items WHERE sku. */
    method LoadStockItem(t: TxnId, sku: Sku) returns (found: Option<Row>)
      requires Valid() && t in s.txns && s.txns[t].pc == Reading && !Blocked(t)
      requires |s.txns[t].rows| < |s.txns[t].lines| && sku == s.txns[t].lines[|s.txns[t].rows|].sku
      modifies this`s
      ensures Valid() && s.db == old(s.db) && s.log == old(s.log) && t in s.txns
      ensures found == if sku in s.db.stock then Some(s.db.stock[sku]) else None
      ensures s.txns[t] == ReadStatement(s.db, old(s.txns[t]))
      ensures old(Alone(t)) ==> Alone(t)
      ensures s.txns[t].pc.Ended? ==> ExactAnswer(s.db, s.txns[t].call, s.txns[t].pc.outcome, s.db)
    {
      ReadExactly(s, t);
      found := if sku in s.db.stock then Some(s.db.stock[sku]) else None;
      Perform(t, []);
    }

    /** UPDATE stock_items ... WHERE sku AND version; Some(n) rows, or a violated CHECK. */
    method UpdateStock(t: TxnId, sku: Sku, available: int, reserved: int, version: nat) returns (affected: Option<nat>)
      requires Valid() && t in s.txns && s.txns[t].pc == Writing && !Blocked(t)
      requires s.txns[t].w < |s.txns[t].lines| && s.txns[t].w < |s.txns[t].rows|
      requires sku == s.txns[t].lines[s.txns[t].w].sku && version == s.txns[t].rows[s.txns[t].w].version
      requires Written(s.txns[t], s.txns[t].w) == Some(Row(available, reserved, version + 1))
      modifies this`s
      ensures Valid() && s.db == old(s.db) && s.log == old(s.log) && t in s.txns
      ensures affected == None ==> s.txns[t] == End(old(s.txns[t]), Internal)
      ensures affected == Some(0) ==> s.txns[t] == Restart(old(s.txns[t]), |s.log|)
      ensures affected == Some(1) ==> s.txns[t] == Next(old(s.txns[t]).(w := old(s.txns[t]).w + 1))
      ensures affected.Some? ==> affected.value <= 1
      ensures old(Alone(t)) ==> Alone(t) && affected != Some(0)
      ensures old(Alone(t)) && affected == None ==>
        Overflows(s.txns[t].call.Action(), s.db.stock, LinesOf(s.db, s.txns[t].call))
    {
      if Alone(t) { UndisturbedWrite(s, t); }
      affected :=
        if sku !in s.db.stock || s.db.stock[sku].version != version then Some(0)
        else if available < 0 || reserved < 0 then None
        else Some(1);
      Perform(t, []);
    }

    /** INSERT INTO reservations and their lines; false on a unique violation. */
    method InsertReservation(t: TxnId) returns (ok: bool)
      requires Valid() && t in s.txns && s.txns[t].pc == Recording && s.txns[t].call.ReserveCall? && !Blocked(t)
      modifies this`s
      ensures Valid() && s.db == old(s.db) && s.log == old(s.log) && t in s.txns
      ensures ok == (old(s.txns[t]).call.order !in s.db.res)
      ensures s.txns[t] == if ok then old(s.txns[t]).(pc := Committing) else old(s.txns[t]).(pc := Reread, rows := [], w := 0)
      ensures old(Alone(t)) ==> Alone(t)
    {
      ok := s.txns[t].call.order !in s.db.res;
      Perform(t, []);
    }

    /** COMMIT, which takes effect although its acknowledgement may be lost. */
    method CommitTx(t: TxnId) returns (acknowledged: bool)
      requires Valid() && t in s.txns && s.txns[t].pc == Committing && !Blocked(t)
      modifies this
      ensures Valid() && t in s.txns
      ensures old(turns) == [] ==> acknowledged
      ensures var x := old(s.txns[t]);
        && s.log == old(s.log) + [TxnCommit(t, x.call.order, x.call.Action(), x.lines)]
        && s.txns[t] == End(x, if x.call.ReserveCall? then Granted else Done)
        && AtomicCall(old(s.db), x.call, s.txns[t].pc.outcome, s.db)
    {
      AlwaysPlaced(s, t);
      CommitAnswers(s, t);
      Perform(t, []);
      acknowledged := turns == [] || !turns[0].fails;
      if turns != [] { turns := turns[1..]; }
    }

    /** UPDATE reservations SET status. */
    method UpdateReservation(t: TxnId)
      requires Valid() && t in s.txns && s.txns[t].pc == Recording && s.txns[t].call.MoveCall? && !Blocked(t)
      modifies this`s
      ensures Valid() && s.db == old(s.db) && s.log == old(s.log) && t in s.txns
      ensures s.txns[t] == old(s.txns[t]).(pc := Committing)
      ensures old(Alone(t)) ==> Alone(t)
    {
      Perform(t, []);
    }

    /** SELECT the reservation of the order, then its lines. */
    method LoadReservation(t: TxnId) returns (found: Option<StockLedger.Reservation>)
      requires Valid() && t in s.txns && s.txns[t].call.MoveCall? && s.txns[t].pc == Find && !Blocked(t)
      modifies this`s
      ensures Valid() && s.db == old(s.db) && s.log == old(s.log) && t in s.txns
      ensures var x := old(s.txns[t]);
        && (found.Some? <==> x.call.order in s.db.res)
        && (found.Some? ==> found.value.status == s.db.res[x.call.order].status)
        && s.txns[t] == FindStatement(s.db, x, if found.Some? then found.value.lines else [])
      ensures old(Alone(t)) ==> Alone(t)
    {
      var o := s.txns[t].call.order;
      if o in s.db.res {
        found := Some(StockLedger.Reservation(s.db.res[o].status, orderBy(s.db.res[o].lines)));
        Perform(t, found.value.lines);
      } else {
        found := None;
        Perform(t, []);
      }
    }

    /** The SELECT after a unique violation. */
    method RereadReservation(t: TxnId, order: OrderId) returns (r: Option<Outcome>)
      requires Valid() && t in s.txns && s.txns[t].pc == Reread && s.txns[t].call.order == order && !Blocked(t)
      modifies this`s
      ensures Valid() && t in s.txns && s.txns[t].call == old(s.txns[t]).call
      ensures order in s.db.res && r == Some(Existing(s.db.res[order].status)) && s.txns[t].pc == Ended(r.value)
    {
      RereadFinds(s, t);
      r := Some(Existing(s.db.res[order].status));
      Perform(t, []);
    }

    // ---- Reserve ----

    /** The items hold the adjusted rows, at the versions that were read. */
    ghost predicate Loaded(items: seq<Domain.StockItem>, rows: seq<Row>, lines: seq<Line>)
      reads set i | 0 <= i < |items| :: items[i]
    {
      && |items| == |rows| <= |lines|
      && forall j | 0 <= j < |items| :: Adjusted(items[j], Op.Reserve, rows[j], lines[j])
    }

    /** Read the next row and adjust the aggregate built from it. */
    method LoadAndAdjust(t: TxnId, op: Op, line: Line)
      returns (failed: Option<Outcome>, item: Domain.StockItem, ghost row: Row)
      requires Valid() && t in s.txns && s.txns[t].pc == Reading && s.txns[t].call.Action() == op
      requires |s.txns[t].rows| < |s.txns[t].lines| && s.txns[t].lines[|s.txns[t].rows|] == line
      modifies this
      ensures Valid() && t in s.txns && s.txns[t].call == old(s.txns[t]).call && fresh(item)
      ensures failed.Some? ==>
        s.txns[t].pc == Ended(failed.value) && failed.value !in {Granted, Done, AlreadyDone} && !failed.value.Existing?
      ensures failed == None ==>
        && s.txns[t] == Next(old(s.txns[t]).(rows := old(s.txns[t]).rows + [row]))
        && Adjusted(item, op, row, line)
      ensures old(Alone(t)) ==>
        Alone(t) && s.db == old(s.db) && (failed.Some? ==> ExactAnswer(s.db, s.txns[t].call, failed.value, s.db))
    {
      row := Row(0, 0, 0);
      item := new Domain.StockItem.Rehydrate(line.sku, Row(0, 0, 0));
      var ok := Await(t);
      if !ok { return Some(Internal), item, row; }
      var found := LoadStockItem(t, line.sku);
      if found == None { return Some(UnknownSku(line.sku)), item, row; }
      item := new Domain.StockItem.Rehydrate(line.sku, found.value);
      row := found.value;
      var err;
      match op {
        case Reserve => err := item.Reserve(line.qty);
        case Release => err := item.Release(line.qty);
        case Commit => err := item.Commit(line.qty);
      }
      match err {
        case Some(InsufficientStock) => failed := Some(Insufficient(line.sku));
        case Some(ValidationError) => failed := Some(Invalid);
        case None => failed := None;
      }
    }

    /** First loop of an attempt: read each row and reserve on the aggregate. */
    method ReserveItems(t: TxnId, lines: seq<Line>) returns (failed: Option<Outcome>, items: seq<Domain.StockItem>, ghost rows: seq<Row>)
      requires Valid() && t in s.txns && s.txns[t].call.ReserveCall?
      requires s.txns[t].lines == lines && s.txns[t].rows == [] && s.txns[t].w == 0 && s.txns[t] == Next(s.txns[t])
      modifies this
      ensures Valid() && t in s.txns && s.txns[t].call == old(s.txns[t]).call
      ensures failed.Some? ==> s.txns[t].pc == Ended(failed.value) && !failed.value.Granted? && !failed.value.Existing?
      ensures failed == None ==> Loaded(items, rows, lines) && |items| == |lines|
      ensures failed == None ==> s.txns[t] == Next(old(s.txns[t]).(rows := rows))
      ensures old(Alone(t)) ==>
        Alone(t) && s.db == old(s.db) && (failed.Some? ==> ExactAnswer(s.db, s.txns[t].call, failed.value, s.db))
    {
      ghost var base := s.txns[t];
      items, rows := [], [];
      for i := 0 to |lines|
        invariant Valid() && t in s.txns && s.txns[t] == Next(base.(rows := rows))
        invariant Loaded(items, rows, lines) && |items| == i
        invariant old(Alone(t)) ==> Alone(t) && s.db == old(s.db)
      {
        var f, item, row := LoadAndAdjust(t, Op.Reserve, lines[i]);
        if f.Some? { return f, items, rows; }
        items, rows := items + [item], rows + [row];
      }
      failed := None;
    }

    /** The guarded UPDATE that stores one adjusted item. */
    method PersistItem(t: TxnId, item: Domain.StockItem, ghost row: Row, ghost line: Line) returns (done: WriteResult)
      requires Valid() && t in s.txns && s.txns[t].pc == Writing
      requires s.txns[t].w < |s.txns[t].lines| && s.txns[t].w < |s.txns[t].rows|
      requires s.txns[t].lines[s.txns[t].w] == line && s.txns[t].rows[s.txns[t].w] == row
      requires Adjusted(item, s.txns[t].call.Action(), row, line)
      modifies this
      ensures Valid() && t in s.txns && s.txns[t].call == old(s.txns[t]).call
      ensures done == AllWritten ==> s.txns[t] == Next(old(s.txns[t]).(w := old(s.txns[t]).w + 1))
      ensures done == VersionMoved ==> RestartOf(s.txns[t], old(s.txns[t])) && s.txns[t].lines == old(s.txns[t]).lines
      ensures done == WriteFailed ==> s.txns[t].pc == Ended(Internal)
      ensures old(Alone(t)) ==>
        && Alone(t) && s.db == old(s.db) && done != VersionMoved
        && (done == WriteFailed ==> ExactAnswer(s.db, s.txns[t].call, Internal, s.db))
    {
      var ok := Await(t);
      if !ok { return WriteFailed; }
      var affected := UpdateStock(t, item.sku, item.available, item.reserved, item.version);
      if affected == None { return WriteFailed; }
      if affected == Some(0) { return VersionMoved; }
      return AllWritten;
    }

    /** Second loop: one guarded UPDATE per item. */
    method PersistItems(t: TxnId, lines: seq<Line>, items: seq<Domain.StockItem>, ghost rows: seq<Row>) returns (done: WriteResult)
      requires Valid() && t in s.txns && s.txns[t].call.ReserveCall? && s.txns[t].lines == lines
      requires Loaded(items, rows, lines) && |items| == |lines|
      requires s.txns[t].rows == rows && s.txns[t].w == 0 && s.txns[t] == Next(s.txns[t])
      modifies this
      ensures Valid() && t in s.txns && s.txns[t].call == old(s.txns[t]).call
      ensures done == AllWritten ==> s.txns[t].pc == Recording && s.txns[t].lines == lines
      ensures done == VersionMoved ==> RestartOf(s.txns[t], old(s.txns[t])) && s.txns[t].lines == old(s.txns[t]).lines
      ensures done == WriteFailed ==> s.txns[t].pc == Ended(Internal)
      ensures old(Alone(t)) ==>
        && Alone(t) && s.db == old(s.db) && done != VersionMoved
        && (done == WriteFailed ==> ExactAnswer(s.db, s.txns[t].call, Internal, s.db))
    {
      ghost var base := s.txns[t];
      for i := 0 to |items|
        invariant Valid() && t in s.txns && s.txns[t] == Next(base.(w := i))
        invariant Loaded(items, rows, lines)
        invariant old(Alone(t)) ==> Alone(t) && s.db == old(s.db)
      {
        done := PersistItem(t, items[i], rows[i], lines[i]);
        if done != AllWritten { return; }
      }
      return AllWritten;
    }

    /**
      One attempt. None asks for another one, exactly when a guarded UPDATE found
      another version; any other outcome ends the call and is the machine's.
    */
    method ReserveOnce(t: TxnId, order: OrderId, lines: seq<Line>) returns (r: Option<Outcome>)
      requires Valid() && t in s.txns
      requires s.txns[t] == Txn(ReserveCall(order, lines), s.txns[t].starts, lines, [], 0, Find)
      modifies this
      ensures Valid() && t in s.txns && s.txns[t].call == ReserveCall(order, lines)
      ensures r.Some? ==> Told(s.txns[t], r.value)
      ensures r == None ==> RestartOf(s.txns[t], old(s.txns[t])) && s.txns[t].lines == lines
      ensures r.Some? && s.txns[t].pc == Ended(Granted) ==>
        Recorded(t, Op.Reserve, order) && s.db.res[order] == StockLedger.Reservation(Held, lines)
      ensures r.Some? && r.value.Existing? ==> order in s.db.res && s.db.res[order].status == r.value.status
      ensures old(Alone(t)) ==> r.Some? && ExactAnswer(old(s.db), ReserveCall(order, lines), r.value, s.db)
    {
      var ok := Await(t);
      if !ok { return Some(Internal); }
      var existing := FindReservation(t);
      if existing.Some? { return Some(Existing(existing.value)); }

      var failed, items, rows := ReserveItems(t, lines);
      if failed.Some? { return failed; }
      var done := PersistItems(t, lines, items, rows);
      if done == WriteFailed { return Some(Internal); }
      if done == VersionMoved { return None; }

      r := FinishReserve(t, order, lines);
    }

    /** The reservation and its lines, and COMMIT; or the other reservation that got in first. */
    method FinishReserve(t: TxnId, order: OrderId, lines: seq<Line>) returns (r: Option<Outcome>)
      requires Valid() && t in s.txns && s.txns[t].call == ReserveCall(order, lines)
      requires s.txns[t].pc == Recording && s.txns[t].lines == lines
      modifies this
      ensures Valid() && t in s.txns && s.txns[t].call == ReserveCall(order, lines)
      ensures r.Some? && Told(s.txns[t], r.value)
      ensures s.txns[t].pc == Ended(Granted) ==>
        Recorded(t, Op.Reserve, order) && s.db.res[order] == StockLedger.Reservation(Held, lines)
      ensures r.value.Existing? ==> order in s.db.res && s.db.res[order].status == r.value.status
      ensures old(Alone(t)) && order !in old(s.db.res) ==> ExactAnswer(old(s.db), ReserveCall(order, lines), r.value, s.db)
    {
      var ok := Await(t);
      if !ok { return Some(Internal); }
      var inserted := InsertReservation(t);
      ok := Await(t);
      if !ok { return Some(Internal); }
      if !inserted {
        r := RereadReservation(t, order);
        return;
      }
      var acknowledged := CommitTx(t);
      return Some(if acknowledged then Granted else Internal);
    }

    /** The last commit is this call's, and the order has a reservation. */
    ghost predicate Recorded(t: TxnId, op: Op, order: OrderId)
      reads this
    {
      && s.log != [] && s.log[|s.log| - 1].TxnCommit? && s.log[|s.log| - 1].txn == t
      && s.log[|s.log| - 1].op == op && s.log[|s.log| - 1].order == order
      && order in s.db.res
    }

    /** Whether `t` ever committed anything. */
    ghost predicate Committed(t: TxnId)
      reads this
    {
      exists k :: 0 <= k < |s.log| && s.log[k].By(t)
    }

    method Begin(t: TxnId, call: Call)
      requires Valid() && t !in s.txns && Enabled(s, Start(t, call)) && OneMover(s, Start(t, call))
      modifies this`s
      ensures Valid() && s == Apply(old(s), Start(t, call))
    {
      ReachStep(s, Start(t, call));
      s := Apply(s, Start(t, call));
    }

    /**
      Reserve. GRANTED means that exactly now the sorted lines were stored as one
      HELD reservation. An internal error means that, with the acknowledgement lost,
      or that nothing was committed; every other answer that nothing was. A conflict
      means five attempts, each disturbed by somebody else's commit.
      Undisturbed, the answer is that of the atomic call, and an error means that a
      counter would pass int64.
    */
    method Reserve(t: TxnId, order: OrderId, lines: seq<Line>) returns (r: Outcome)
      requires Valid() && t !in s.txns && ValidLines(lines)
      modifies this
      ensures Valid() && t in s.txns && Told(s.txns[t], r)
      ensures r == Granted || (r == Internal && Committed(t)) ==>
        && Recorded(t, Op.Reserve, order)
        && s.db.res[order] == StockLedger.Reservation(Held, Domain.SortLines(lines))
      ensures r !in {Granted, Internal} ==> !Committed(t)
      ensures r.Existing? ==> order in s.db.res && s.db.res[order].status == r.status
      ensures r == Conflict ==> AllDisturbed(s, t, Domain.SortLines(lines))
      ensures s.txns[t].call == ReserveCall(order, Domain.SortLines(lines)) && PossibleAnswer(s.txns[t].call, r)
      ensures old(Quiet()) ==> ExactAnswer(old(s.db), ReserveCall(order, Domain.SortLines(lines)), r, s.db)
    {
      var sorted := Domain.SortLines(lines);
      Domain.SortLinesSpec(lines);
      Begin(t, ReserveCall(order, sorted));
      for attempt := 0 to MAX_ATTEMPTS
        invariant Valid() && t in s.txns && s.txns[t].call == ReserveCall(order, sorted)
        invariant attempt < MAX_ATTEMPTS ==>
          |s.txns[t].starts| == attempt + 1
          && s.txns[t] == Txn(ReserveCall(order, sorted), s.txns[t].starts, sorted, [], 0, Find)
        invariant attempt == MAX_ATTEMPTS ==> s.txns[t].pc == Ended(Conflict)
        invariant old(Quiet()) ==> attempt == 0 && Alone(t) && s.db == old(s.db)
      {
        var result := ReserveOnce(t, order, sorted);
        if result.Some? {
          r := result.value;
          AnswerFacts(s, t);
          return;
        }
      }
      AnswerFacts(s, t);
      return Conflict;
    }

    // ---- Release and Commit ----

    /** The loop of an attempt: read, adjust and update one row after the other. */
    method MoveItems(t: TxnId, op: Op, lines: seq<Line>) returns (r: Option<Outcome>, moved: bool)
      requires Valid() && t in s.txns && s.txns[t].call.MoveCall? && s.txns[t].call.op == op
      requires s.txns[t].lines == lines && s.txns[t].rows == [] && s.txns[t].w == 0 && s.txns[t] == Next(s.txns[t])
      modifies this
      ensures Valid() && t in s.txns && s.txns[t].call == old(s.txns[t]).call
      ensures moved ==> s.txns[t].pc == Recording
      ensures !moved && r.Some? ==> s.txns[t].pc == Ended(r.value) && r.value !in {Granted, Done, AlreadyDone}
      ensures !moved && r == None ==> RestartOf(s.txns[t], old(s.txns[t]))
      ensures old(Alone(t)) ==>
        && Alone(t) && s.db == old(s.db)
        && (!moved ==> r.Some? && ExactAnswer(s.db, s.txns[t].call, r.value, s.db))
    {
      ghost var base := s.txns[t];
      ghost var rows: seq<Row> := [];
      for i := 0 to |lines|
        invariant Valid() && t in s.txns && s.txns[t] == Next(base.(rows := rows, w := i)) && |rows| == i
        invariant old(Alone(t)) ==> Alone(t) && s.db == old(s.db)
      {
        var f, item, row := LoadAndAdjust(t, op, lines[i]);
        if f.Some? { return f, false; }
        rows := rows + [row];
        var done := PersistItem(t, item, row, lines[i]);
        if done == WriteFailed { return Some(Internal), false; }
        if done == VersionMoved { return None, false; }
      }
      return None, true;
    }

    /** One attempt; None asks for another one. */
    method TransitionOnce(t: TxnId, order: OrderId, op: Op) returns (r: Option<Outcome>)
      requires Valid() && t in s.txns && op != Op.Reserve
      requires s.txns[t] == Txn(MoveCall(order, op), s.txns[t].starts, s.txns[t].lines, [], 0, Find)
      modifies this
      ensures Valid() && t in s.txns && s.txns[t].call == MoveCall(order, op)
      ensures r.Some? ==> Told(s.txns[t], r.value)
      ensures r == None ==> RestartOf(s.txns[t], old(s.txns[t]))
      ensures r.Some? && s.txns[t].pc == Ended(Done) ==> Recorded(t, op, order) && s.db.res[order].status == TargetOf(op)
      ensures r == Some(AlreadyDone) ==> order in s.db.res && s.db.res[order].status == TargetOf(op)
      ensures old(Alone(t)) ==> r.Some? && ExactAnswer(old(s.db), MoveCall(order, op), r.value, s.db)
    {
      var ok := Await(t);
      if !ok { return Some(Internal); }
      var found := LoadReservation(t);
      if found == None { return Some(NotFound); }
      var res := new Domain.Reservation.Rehydrate(order, found.value.status, found.value.lines);
      var answer;
      if op == Op.Release { answer := res.Release(); } else { answer := res.Commit(); }
      if answer == Domain.IllegalTransition { return Some(InvalidState); }
      if answer == Domain.Unchanged { return Some(AlreadyDone); }

      var f, moved := MoveItems(t, op, res.lines);
      if !moved { return f; }
      r := FinishMove(t);
    }

    /** The status, and COMMIT. */
    method FinishMove(t: TxnId) returns (r: Option<Outcome>)
      requires Valid() && t in s.txns && s.txns[t].call.MoveCall? && s.txns[t].pc == Recording
      modifies this
      ensures Valid() && t in s.txns && s.txns[t].call == old(s.txns[t]).call
      ensures r in {Some(Internal), Some(Done)} && Told(s.txns[t], r.value)
      ensures var c := old(s.txns[t]).call;
        s.txns[t].pc == Ended(Done) ==> Recorded(t, c.op, c.order) && s.db.res[c.order].status == TargetOf(c.op)
      ensures old(Alone(t)) ==> ExactAnswer(old(s.db), old(s.txns[t]).call, r.value, s.db)
    {
      var ok := Await(t);
      if !ok { return Some(Internal); }
      UpdateReservation(t);
      ok := Await(t);
      if !ok { return Some(Internal); }
      var acknowledged := CommitTx(t);
      return Some(if acknowledged then Done else Internal);
    }

    /**
      Release or Commit. DONE means that exactly now the whole reservation moved. An
      internal error means that, with the acknowledgement lost, or that nothing was
      committed; every other answer that nothing was. It never fails for want of
      reserved stock or of a stock row. Undisturbed, the answer is that of the atomic
      call, and an error means that a counter would pass int64.
    */
    method Transition(t: TxnId, order: OrderId, op: Op) returns (r: Outcome)
      requires Valid() && t !in s.txns && op != Op.Reserve
      requires OneMover(s, Start(t, MoveCall(order, op)))
      modifies this
      ensures Valid() && t in s.txns && Told(s.txns[t], r)
      ensures s.txns[t].call == MoveCall(order, op) && PossibleAnswer(s.txns[t].call, r)
      ensures r == Done || (r == Internal && Committed(t)) ==> Recorded(t, op, order) && s.db.res[order].status == TargetOf(op)
      ensures r !in {Done, Internal} ==> !Committed(t)
      ensures r in {Done, AlreadyDone} ==> order in s.db.res && s.db.res[order].status == TargetOf(op)
      ensures r == Conflict ==> order in s.db.res && AllDisturbed(s, t, s.db.res[order].lines)
      ensures old(Quiet()) ==> ExactAnswer(old(s.db), MoveCall(order, op), r, s.db)
    {
      Begin(t, MoveCall(order, op));
      for attempt := 0 to MAX_ATTEMPTS
        invariant Valid() && t in s.txns && s.txns[t].call == MoveCall(order, op)
        invariant attempt < MAX_ATTEMPTS ==>
          |s.txns[t].starts| == attempt + 1
          && s.txns[t] == Txn(MoveCall(order, op), s.txns[t].starts, s.txns[t].lines, [], 0, Find)
        invariant attempt == MAX_ATTEMPTS ==> s.txns[t].pc == Ended(Conflict)
        invariant old(Quiet()) ==> attempt == 0 && Alone(t) && s.db == old(s.db)
      {
        var result := TransitionOnce(t, order, op);
        if result.Some? {
          r := result.value;
          AnswerFacts(s, t);
          return;
        }
      }
      AnswerFacts(s, t);
      return Conflict;
    }

    // ---- admin ----

    /** UpsertStock: one statement, which waits while somebody holds the row. Undisturbed, it is the atomic restock. */
    method UpsertStock(sku: Sku, available: int) returns (ok: bool)
      requires Valid() && 0 <= available <= MAX_INT64
      modifies this
      ensures Valid()
      ensures ok ==> sku in s.db.stock && s.db.stock[sku].available == available
      ensures old(Quiet()) ==> ok && s.db == Restock(old(s.db), sku, available)
    {
      if Quiet() { QuietHoldsNothing(s); }
      while turns != []
        invariant Valid()
        invariant old(turns) == [] ==> turns == [] && s == old(s)
        decreases |turns|
      {
        var turn, rest := turns[0], turns[1..];
        turns := rest;
        for i := 0 to |turn.steps|
          invariant Valid() && turns == rest
        {
          if Enabled(s, turn.steps[i]) && OneMover(s, turn.steps[i]) {
            ReachStep(s, turn.steps[i]);
            s := Apply(s, turn.steps[i]);
          }
        }
        if turn.fails { return false; }
        if !RowLocked(s, sku) { break; }
      }
      if RowLocked(s, sku) { return false; }
      ReachStep(s, Upsert(sku, available));
      s := Apply(s, Upsert(sku, available));
      return true;
    }
  }

  /** A transaction that starts over, or has used up its attempts. */
  predicate RestartOf(now: Txn, before: Txn) {
    && now.call == before.call
    && (|before.starts| < MAX_ATTEMPTS ==>
          |now.starts| == |before.starts| + 1 && now == Txn(now.call, now.starts, now.lines, [], 0, Find))
    && (|before.starts| >= MAX_ATTEMPTS ==> now.pc == Ended(Conflict))
  }

  /** What the answer of an ended call says about the commits so far. */
  lemma AnswerFacts(s: State, t: TxnId)
    requires Reachable(s) && t in s.txns && s.txns[t].pc.Ended?
    ensures !Succeeded(s.txns[t]) ==> forall k | 0 <= k < |s.log| :: !s.log[k].By(t)
    ensures s.txns[t].pc.outcome == Conflict ==> AllDisturbed(s, t, LinesOf(s.db, s.txns[t].call))
    ensures PossibleAnswer(s.txns[t].call, s.txns[t].pc.outcome)
    ensures s.txns[t].pc.outcome == Conflict && s.txns[t].call.MoveCall? ==> s.txns[t].call.order in s.db.res
  {
    var steps :| Run(INITIAL, steps, s);
    RunRetry(INITIAL, steps, s);
    assert RetryOk(s, s.txns[t]);
    if s.txns[t].pc.outcome == Conflict { ConflictMeansFiveCommits(s, t); }
    OnlyPossibleAnswers(s, t);
  }
}
