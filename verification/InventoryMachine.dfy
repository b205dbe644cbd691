/**
  The inventory repository, one SQL statement at a time.

  Any number of transactions interleave. A statement sees the rows committed
  when it runs plus its own transaction's writes (READ COMMITTED), and an
  updated row stays locked until its transaction ends. A transaction keeps the
  rows it read, so that a guarded UPDATE can be compared with what it saw.
*/
module InventoryMachine {
  import opened Results
  import opened Int64
  import opened StockLedger

  type TxnId = nat

  /** maxOCCRetries. */
  const MAX_ATTEMPTS: nat := 5

  datatype Call =
    | ReserveCall(order: OrderId, lines: seq<Line>)
    | MoveCall(order: OrderId, op: Op)
  {
    function Action(): Op {
      match this
      case ReserveCall(_, _) => Reserve
      case MoveCall(_, op) => op
    }
  }

  datatype Outcome =
    | Granted                     // a new reservation was committed
    | Existing(status: Status)    // the order already had one
    | UnknownSku(sku: Sku)
    | Insufficient(sku: Sku)
    | Done                        // a release or commit was committed
    | AlreadyDone
    | NotFound
    | InvalidState
    | Invalid                     // ErrValidation out of a StockItem
    | Conflict                    // ErrConcurrency, retries exhausted
    | Internal                    // any other database error

  datatype Pc =
    | Find                        // SELECT the reservation of the order (and its lines)
    | Reading                     // SELECT the next stock row
    | Writing                     // UPDATE the next stock row, guarded by version
    | Recording                   // INSERT the reservation, or UPDATE its status
    | Committing                  // COMMIT
    | Reread                      // the SELECT after a unique violation
    | Ended(outcome: Outcome)

  /**
    `starts` holds the length of the commit log when each attempt began, so
    |starts| is the number of the current attempt. The first `w` lines have been
    written and are locked; the first |rows| lines have been read.
  */
  datatype Txn = Txn(call: Call, starts: seq<nat>, lines: seq<Line>, rows: seq<Row>, w: nat, pc: Pc) {
    predicate Active() { !pc.Ended? }

    predicate Holds(sku: Sku) { IndexOf(lines, sku) < w }
  }

  /** History of the commits, for the claims about retries and conservation. */
  datatype Entry =
    | TxnCommit(txn: TxnId, order: OrderId, op: Op, lines: seq<Line>)
    | StockSet(sku: Sku, delta: int)
  {
    predicate Touches(s: Sku) {
      match this
      case TxnCommit(_, _, _, ls) => Has(ls, s)
      case StockSet(k, _) => k == s
    }

    predicate By(t: TxnId) { TxnCommit? && txn == t }
  }

  datatype State = State(db: Db, txns: map<TxnId, Txn>, log: seq<Entry>)

  datatype Step =
    | Start(txn: TxnId, call: Call)
    | Exec(txn: TxnId, loaded: seq<Line>)   // `loaded`: the lines in the order the SELECT returns them
    | Abort(txn: TxnId)                     // lost connection, crash, failed COMMIT
    | Upsert(sku: Sku, available: int)

  const INITIAL := State(Db(map[], map[]), map[], [])

  // ---- statements ----

  /** After a read or a write: which statement comes next. */
  function Next(x: Txn): Txn {
    x.(pc :=
      if x.w == |x.lines| then Recording
      else if x.call.ReserveCall? then (if |x.rows| < |x.lines| then Reading else Writing)
      else (if |x.rows| == x.w then Reading else Writing))
  }

  function End(x: Txn, outcome: Outcome): Txn {
    x.(pc := Ended(outcome), rows := [], w := 0)
  }

  function FindStatement(db: Db, x: Txn, loaded: seq<Line>): Txn {
    var o := x.call.order;
    if x.call.ReserveCall? then
      if o in db.res then End(x, Existing(db.res[o].status)) else Next(x)
    else if o !in db.res then End(x, NotFound)
    else if db.res[o].status == TargetOf(x.call.op) then End(x, AlreadyDone)
    else if db.res[o].status != Held then End(x, InvalidState)
    else Next(x.(lines := loaded))
  }

  function ReadStatement(db: Db, x: Txn): Txn
    requires |x.rows| < |x.lines|
  {
    var l := x.lines[|x.rows|];
    if l.sku !in db.stock then End(x, UnknownSku(l.sku))
    else match Adjust(x.call.Action(), db.stock[l.sku], l.qty)
      case Ok(_) => Next(x.(rows := x.rows + [db.stock[l.sku]]))
      case Err(InsufficientStock) => End(x, Insufficient(l.sku))
      case Err(ValidationError) => End(x, Invalid)
  }

  /** The row an UPDATE stores: the adjusted row that was read, at the next version. */
  function NewRow(op: Op, seen: Row, qty: int): Option<Row> {
    match Adjust(op, seen, qty)
    case Ok(r) => Some(r.(version := r.version + 1))
    case Err(_) => None
  }

  function Written(x: Txn, i: nat): Option<Row>
    requires i < |x.rows| && i < |x.lines|
  {
    NewRow(x.call.Action(), x.rows[i], x.lines[i].qty)
  }

  function Restart(x: Txn, now: nat): Txn {
    if |x.starts| < MAX_ATTEMPTS then x.(starts := x.starts + [now], rows := [], w := 0, pc := Find)
    else End(x, Conflict)
  }

  function WriteStatement(db: Db, x: Txn, now: nat): Txn
    requires x.w < |x.lines| && x.w < |x.rows|
  {
    var sku := x.lines[x.w].sku;
    if sku !in db.stock || db.stock[sku].version != x.rows[x.w].version then Restart(x, now)
    else match Written(x, x.w)
      case Some(r) => if r.Storable() then Next(x.(w := x.w + 1)) else End(x, Internal)
      case None => End(x, Internal)
  }

  function RecordStatement(db: Db, x: Txn): Txn {
    if x.call.ReserveCall? && x.call.order in db.res then x.(pc := Reread, rows := [], w := 0)
    else x.(pc := Committing)
  }

  function RereadStatement(db: Db, x: Txn): Txn {
    var o := x.call.order;
    if o in db.res then End(x, Existing(db.res[o].status)) else End(x, Internal)
  }

  /** The rows of a committing transaction replace the committed ones. */
  function CommitDb(db: Db, x: Txn): Db
    requires |x.rows| == |x.lines|
    requires x.call.MoveCall? ==> x.call.order in db.res
  {
    Db(
      map s | s in db.stock ::
        if Has(x.lines, s) && Written(x, IndexOf(x.lines, s)).Some?
        then Written(x, IndexOf(x.lines, s)).value
        else db.stock[s],
      db.res[x.call.order :=
        if x.call.ReserveCall? then Reservation(Held, x.lines)
        else db.res[x.call.order].(status := TargetOf(x.call.op))])
  }

  /** Each statement finds its transaction as far along as its place in the code implies. */
  predicate Placed(db: Db, x: Txn) {
    match x.pc
    case Reading => |x.rows| < |x.lines|
    case Writing => x.w < |x.lines| && x.w < |x.rows|
    case Committing => |x.rows| == |x.lines| && (x.call.MoveCall? ==> x.call.order in db.res)
    case _ => true
  }

  /** `t` has to wait for `u`: a lock on the row its next statement would change. */
  predicate WaitsFor(s: State, t: TxnId, u: TxnId) {
    && t in s.txns && u in s.txns && t != u
    && var x, y := s.txns[t], s.txns[u];
       match x.pc
       case Writing =>
         && x.w < |x.lines| && x.w < |x.rows|
         && var sku := x.lines[x.w].sku;
            sku in s.db.stock && s.db.stock[sku].version == x.rows[x.w].version && y.Holds(sku)
       case Recording =>
         && y.pc == Committing && y.call.order == x.call.order
         && (x.call.ReserveCall? ==> y.call.ReserveCall? && x.call.order !in s.db.res)
         && (x.call.MoveCall? ==> y.call.MoveCall?)
       case _ => false
  }

  /** An admin upsert waits for whoever holds the row, and holds nothing itself. */
  predicate RowLocked(s: State, sku: Sku) {
    exists u | u in s.txns :: s.txns[u].Holds(sku)
  }

  predicate Enabled(s: State, step: Step) {
    match step
    case Start(t, call) =>
      && t !in s.txns
      && (call.ReserveCall? ==> ValidLines(call.lines))
      && (call.MoveCall? ==> call.op != Reserve)
    case Exec(t, loaded) =>
      && t in s.txns && s.txns[t].Active() && Placed(s.db, s.txns[t])
      && (forall u | u in s.txns :: !WaitsFor(s, t, u))
      && (s.txns[t].pc == Find && s.txns[t].call.MoveCall? && s.txns[t].call.order in s.db.res ==>
            Distinct(loaded) && |loaded| == |s.db.res[s.txns[t].call.order].lines|
            && SameLines(loaded, s.db.res[s.txns[t].call.order].lines))
    case Abort(t) => t in s.txns && s.txns[t].Active()
    case Upsert(sku, available) => 0 <= available <= MAX_INT64 && !RowLocked(s, sku)
  }

  /** The new value of the acting transaction, for every statement but COMMIT. */
  function Statement(db: Db, x: Txn, loaded: seq<Line>, now: nat): Txn
    requires Placed(db, x)
  {
    match x.pc
    case Find => FindStatement(db, x, loaded)
    case Reading => ReadStatement(db, x)
    case Writing => WriteStatement(db, x, now)
    case Recording => RecordStatement(db, x)
    case Reread => RereadStatement(db, x)
    case Committing => End(x, if x.call.ReserveCall? then Granted else Done)
    case Ended(_) => x
  }

  /** A step that is not enabled changes nothing. */
  function Apply(s: State, step: Step): State {
    if !Enabled(s, step) then s
    else match step
    case Start(t, call) =>
      var x := Txn(call, [|s.log|], if call.ReserveCall? then call.lines else [], [], 0, Find);
      s.(txns := s.txns[t := x])
    case Exec(t, loaded) =>
      var x := s.txns[t];
      var x' := Statement(s.db, x, loaded, |s.log|);
      if x.pc == Committing then
        State(CommitDb(s.db, x), s.txns[t := x'], s.log + [TxnCommit(t, x.call.order, x.call.Action(), x.lines)])
      else
        s.(txns := s.txns[t := x'])
    case Abort(t) => s.(txns := s.txns[t := End(s.txns[t], Internal)])
    case Upsert(sku, available) =>
      State(Restock(s.db, sku, available), s.txns,
            s.log + [StockSet(sku, available - (if sku in s.db.stock then s.db.stock[sku].available else 0))])
  }

  /** The hypothesis on callers: one Release or Commit of an order at a time. */
  predicate OneMover(s: State, step: Step) {
    step.Start? && step.call.MoveCall? ==>
      forall u | u in s.txns && s.txns[u].Active() && s.txns[u].call.MoveCall? ::
        s.txns[u].call.order != step.call.order
  }

  /** Runs under that hypothesis. */
  ghost predicate Run(s: State, steps: seq<Step>, s': State)
    decreases |steps|
  {
    if steps == [] then s == s'
    else Enabled(s, steps[0]) && OneMover(s, steps[0]) && Run(Apply(s, steps[0]), steps[1..], s')
  }

  ghost predicate Reachable(s: State) {
    exists steps :: Run(INITIAL, steps, s)
  }

  lemma {:induction false} RunSnoc(s: State, steps: seq<Step>, m: State, step: Step)
    requires Run(s, steps, m) && Enabled(m, step) && OneMover(m, step)
    ensures Run(s, steps + [step], Apply(m, step))
    decreases |steps|
  {
    if steps == [] {
      assert Run(Apply(m, step), [], Apply(m, step));
      assert ([step])[1..] == [];
    } else {
      RunSnoc(Apply(s, steps[0]), steps[1..], m, step);
      assert (steps + [step])[1..] == steps[1..] + [step];
    }
  }

  lemma ReachStep(s: State, step: Step)
    requires Reachable(s) && Enabled(s, step) && OneMover(s, step)
    ensures Reachable(Apply(s, step))
  {
    var steps :| Run(INITIAL, steps, s);
    RunSnoc(INITIAL, steps, s, step);
  }
}
