/**
  The stock ledger as values: one row per SKU, one reservation per order, and
  the atomic all-lines step that a successful call is meant to perform.
*/
module StockLedger {
  import opened Results
  import opened MapSum
  import opened Int64

  type Sku = string
  type OrderId = nat

  datatype Row = Row(available: int, reserved: int, version: nat) {
    predicate InRange() {
      0 <= available <= MAX_INT64 && 0 <= reserved <= MAX_INT64
    }

    /** The CHECK constraints of stock_items. */
    predicate Storable() {
      0 <= available && 0 <= reserved
    }
  }

  datatype Op = Reserve | Release | Commit

  datatype StockError = ValidationError | InsufficientStock

  /** What the StockItem method for `op` does to the ledger of one SKU. */
  function Adjust(op: Op, r: Row, qty: int): Result<Row, StockError> {
    if qty <= 0 then Err(ValidationError)
    else match op
      case Reserve =>
        if qty > r.available then Err(InsufficientStock)
        else Ok(r.(available := Wrap64(r.available - qty), reserved := Wrap64(r.reserved + qty)))
      case Release =>
        if qty > r.reserved then Err(ValidationError)
        else Ok(r.(reserved := Wrap64(r.reserved - qty), available := Wrap64(r.available + qty)))
      case Commit =>
        if qty > r.reserved then Err(ValidationError)
        else Ok(r.(reserved := Wrap64(r.reserved - qty)))
  }

  datatype Line = Line(sku: Sku, qty: int)

  datatype Status = Held | Committed | Released

  datatype Reservation = Reservation(status: Status, lines: seq<Line>)

  /** The committed rows: stock_items, and reservations joined with their lines. */
  datatype Db = Db(stock: map<Sku, Row>, res: map<OrderId, Reservation>)

  // ---- lines ----

  /** Position of the line for `sku`, or the length when there is none. */
  function IndexOf(lines: seq<Line>, sku: Sku): (i: nat)
    ensures i <= |lines|
    ensures i < |lines| ==> lines[i].sku == sku
    ensures forall j | 0 <= j < i :: lines[j].sku != sku
  {
    if lines == [] || lines[0].sku == sku then 0 else
      var i := IndexOf(lines[1..], sku);
      assert forall j | 0 < j < 1 + i :: lines[j] == lines[1..][j - 1];
      1 + i
  }

  predicate Has(lines: seq<Line>, sku: Sku) {
    IndexOf(lines, sku) < |lines|
  }

  function QtyOf(lines: seq<Line>, sku: Sku): int {
    if Has(lines, sku) then lines[IndexOf(lines, sku)].qty else 0
  }

  predicate Distinct(lines: seq<Line>) {
    forall i, j | 0 <= i < j < |lines| :: lines[i].sku != lines[j].sku
  }

  /** Lines as the reserve handler passes them on. */
  predicate ValidLines(lines: seq<Line>) {
    && Distinct(lines)
    && forall i | 0 <= i < |lines| :: 0 < lines[i].qty <= 100_000
  }

  /** The same set of rows in some order, as two SELECTs may return them. */
  predicate SameLines(a: seq<Line>, b: seq<Line>) {
    (forall l | l in a :: l in b) && (forall l | l in b :: l in a)
  }

  lemma SameLinesQty(a: seq<Line>, b: seq<Line>, sku: Sku)
    requires Distinct(a) && Distinct(b) && SameLines(a, b)
    ensures Has(a, sku) == Has(b, sku)
    ensures QtyOf(a, sku) == QtyOf(b, sku)
  {
    if Has(a, sku) {
      var l := a[IndexOf(a, sku)];
      assert l in a && l in b;
      var j :| 0 <= j < |b| && b[j] == l;
      assert IndexOf(b, sku) == j;
    }
    if Has(b, sku) {
      var l := b[IndexOf(b, sku)];
      assert l in b && l in a;
    }
  }

  // ---- sums over reservations ----

  function Share(r: Reservation, status: Status, sku: Sku): int {
    if r.status == status then QtyOf(r.lines, sku) else 0
  }

  function Shares(res: map<OrderId, Reservation>, status: Status, sku: Sku): map<OrderId, int> {
    map o | o in res :: Share(res[o], status, sku)
  }

  /** Quantity of one SKU over all reservations in one status. */
  ghost function QtyIn(res: map<OrderId, Reservation>, status: Status, sku: Sku): int {
    Sum(Shares(res, status, sku))
  }

  lemma QtyInPut(res: map<OrderId, Reservation>, o: OrderId, r: Reservation, status: Status, sku: Sku)
    ensures QtyIn(res[o := r], status, sku)
         == QtyIn(res, status, sku) - (if o in res then Share(res[o], status, sku) else 0) + Share(r, status, sku)
  {
    SumPut(Shares(res, status, sku), o, Share(r, status, sku));
    assert Shares(res[o := r], status, sku) == Shares(res, status, sku)[o := Share(r, status, sku)];
  }

  // ---- the atomic ledger ----

  /** The ledger agrees with the reservations. */
  ghost predicate LedgerOk(db: Db) {
    && (forall s | s in db.stock :: db.stock[s].InRange())
    && (forall s | s in db.stock :: db.stock[s].reserved == QtyIn(db.res, Held, s))
    && (forall o | o in db.res :: ValidLines(db.res[o].lines))
    && (forall o, s | o in db.res && Has(db.res[o].lines, s) :: s in db.stock)
  }

  /** One row after `op` on `qty` units, in exact arithmetic, with the version bump of the UPDATE. */
  function Moved(op: Op, r: Row, qty: int): Row {
    match op
    case Reserve => Row(r.available - qty, r.reserved + qty, r.version + 1)
    case Release => Row(r.available + qty, r.reserved - qty, r.version + 1)
    case Commit => Row(r.available, r.reserved - qty, r.version + 1)
  }

  /** `op` on every line at once. */
  function Shift(op: Op, stock: map<Sku, Row>, lines: seq<Line>): map<Sku, Row> {
    map s | s in stock :: if Has(lines, s) then Moved(op, stock[s], QtyOf(lines, s)) else stock[s]
  }

  predicate RowAllows(op: Op, r: Row, qty: int) {
    match op
    case Reserve => qty <= r.available && r.reserved + qty <= MAX_INT64
    case Release => qty <= r.reserved && r.available + qty <= MAX_INT64
    case Commit => qty <= r.reserved
  }

  predicate Allows(op: Op, stock: map<Sku, Row>, lines: seq<Line>) {
    forall i | 0 <= i < |lines| :: lines[i].sku in stock && RowAllows(op, stock[lines[i].sku], lines[i].qty)
  }

  function TargetOf(op: Op): Status {
    match op
    case Reserve => Held
    case Release => Released
    case Commit => Committed
  }

  function ReserveAll(db: Db, o: OrderId, lines: seq<Line>): Db {
    Db(Shift(Reserve, db.stock, lines), db.res[o := Reservation(Held, lines)])
  }

  function MoveAll(op: Op, db: Db, o: OrderId): Db
    requires o in db.res
  {
    Db(Shift(op, db.stock, db.res[o].lines), db.res[o := db.res[o].(status := TargetOf(op))])
  }

  /** The admin upsert: overwrite `available`, keep `reserved`, bump the version. */
  function Restock(db: Db, sku: Sku, available: int): Db {
    db.(stock := db.stock[sku :=
      if sku in db.stock then Row(available, db.stock[sku].reserved, db.stock[sku].version + 1)
      else Row(available, 0, 0)])
  }

  lemma AllowsAt(op: Op, stock: map<Sku, Row>, lines: seq<Line>, sku: Sku)
    requires Allows(op, stock, lines) && Has(lines, sku)
    ensures sku in stock && RowAllows(op, stock[sku], QtyOf(lines, sku))
  {
  }

  lemma ReserveKeepsLedger(db: Db, o: OrderId, lines: seq<Line>)
    requires LedgerOk(db) && o !in db.res && ValidLines(lines) && Allows(Reserve, db.stock, lines)
    ensures LedgerOk(ReserveAll(db, o, lines))
  {
    var n := ReserveAll(db, o, lines);
    forall s | s in n.stock
      ensures n.stock[s].InRange() && n.stock[s].reserved == QtyIn(n.res, Held, s)
    {
      QtyInPut(db.res, o, Reservation(Held, lines), Held, s);
      if Has(lines, s) { AllowsAt(Reserve, db.stock, lines, s); }
    }
    forall p, s | p in n.res && Has(n.res[p].lines, s)
      ensures s in n.stock
    {
      if p == o { AllowsAt(Reserve, db.stock, lines, s); }
    }
  }

  lemma MoveKeepsLedger(op: Op, db: Db, o: OrderId)
    requires op != Reserve
    requires LedgerOk(db) && o in db.res && db.res[o].status == Held && Allows(op, db.stock, db.res[o].lines)
    ensures LedgerOk(MoveAll(op, db, o))
  {
    var lines := db.res[o].lines;
    var n := MoveAll(op, db, o);
    forall s | s in n.stock
      ensures n.stock[s].InRange() && n.stock[s].reserved == QtyIn(n.res, Held, s)
    {
      QtyInPut(db.res, o, n.res[o], Held, s);
      if Has(lines, s) { AllowsAt(op, db.stock, lines, s); }
    }
  }

  lemma RestockKeepsLedger(db: Db, sku: Sku, available: int)
    requires LedgerOk(db) && 0 <= available <= MAX_INT64
    ensures LedgerOk(Restock(db, sku, available))
  {
    if sku !in db.stock {
      forall o | o in db.res ensures Share(db.res[o], Held, sku) == 0 {
        assert !Has(db.res[o].lines, sku);
      }
      SumZero(Shares(db.res, Held, sku));
    }
  }

  /** A held line never exceeds what the ledger holds, so only an overflow of `available` can stop a move. */
  lemma HeldIsCovered(db: Db, o: OrderId, i: nat)
    requires LedgerOk(db) && o in db.res && db.res[o].status == Held && i < |db.res[o].lines|
    ensures var l := db.res[o].lines[i];
      l.sku in db.stock && l.qty <= db.stock[l.sku].reserved
  {
    var lines := db.res[o].lines;
    var l := lines[i];
    assert IndexOf(lines, l.sku) == i;
    var shares := Shares(db.res, Held, l.sku);
    forall p | p in shares ensures shares[p] >= 0 {
      assert ValidLines(db.res[p].lines);
    }
    SumBounds(shares, o);
  }

  // ---- conservation ----

  /** Units of one SKU on hand, held, and gone. */
  ghost function Total(db: Db, sku: Sku): int
    requires sku in db.stock
  {
    db.stock[sku].available + db.stock[sku].reserved + QtyIn(db.res, Committed, sku)
  }

  lemma ReserveConserves(db: Db, o: OrderId, lines: seq<Line>, sku: Sku)
    requires o !in db.res && sku in db.stock
    ensures Total(ReserveAll(db, o, lines), sku) == Total(db, sku)
  {
    QtyInPut(db.res, o, Reservation(Held, lines), Committed, sku);
  }

  lemma MoveConserves(op: Op, db: Db, o: OrderId, sku: Sku)
    requires op != Reserve && o in db.res && db.res[o].status == Held && sku in db.stock
    ensures Total(MoveAll(op, db, o), sku) == Total(db, sku)
  {
    QtyInPut(db.res, o, MoveAll(op, db, o).res[o], Committed, sku);
  }
}
