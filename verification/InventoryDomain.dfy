/** The inventory aggregates and the reserve handler, in the form the Go code has them. */
module InventoryDomain {
  import Int64
  import opened Results
  import opened Texts
  import opened StockLedger

  // ---- value objects ----

  function NewSku(s: string): (r: Result<Sku, StockError>)
    ensures r.Ok? <==> 1 <= |TrimSpace(s)| <= 64
    ensures if r.Ok? then r.value == TrimSpace(s) else r.error == ValidationError
  {
    var t := TrimSpace(s);
    if t == "" || |t| > 64 then Err(ValidationError) else Ok(t)
  }

  function NewQuantity(v: int): (r: Result<int, StockError>)
    ensures r.Ok? <==> 1 <= v <= 100_000
    ensures if r.Ok? then r.value == v else r.error == ValidationError
  {
    if v <= 0 || v > 100_000 then Err(ValidationError) else Ok(v)
  }

  // ---- the ledger of one SKU ----

  /** Either the whole adjustment or, with an error, none of it. */
  predicate Adjusted(op: Op, before: Row, qty: int, after: Row, err: Option<StockError>) {
    match Adjust(op, before, qty)
    case Ok(row) => err == None && after == row
    case Err(e) => err == Some(e) && after == before
  }

  class StockItem {
    const sku: Sku
    var available: int
    var reserved: int
    const version: nat

    function AsRow(): Row
      reads this
    {
      Row(available, reserved, version)
    }

    constructor Rehydrate(sku: Sku, row: Row)
      ensures this.sku == sku && AsRow() == row
    {
      this.sku := sku;
      this.available := row.available;
      this.reserved := row.reserved;
      this.version := row.version;
    }

    method Reserve(qty: int) returns (err: Option<StockError>)
      modifies this
      ensures Adjusted(Op.Reserve, old(AsRow()), qty, AsRow(), err)
      ensures err == if qty <= 0 then Some(ValidationError) else if qty > old(available) then Some(InsufficientStock) else None
    {
      if qty <= 0 { return Some(ValidationError); }
      if qty > available { return Some(InsufficientStock); }
      available := Int64.Wrap64(available - qty);
      reserved := Int64.Wrap64(reserved + qty);
      return None;
    }

    method Release(qty: int) returns (err: Option<StockError>)
      modifies this
      ensures Adjusted(Op.Release, old(AsRow()), qty, AsRow(), err)
      ensures err == if 0 < qty <= old(reserved) then None else Some(ValidationError)
    {
      if qty <= 0 { return Some(ValidationError); }
      if qty > reserved { return Some(ValidationError); }
      reserved := Int64.Wrap64(reserved - qty);
      available := Int64.Wrap64(available + qty);
      return None;
    }

    method Commit(qty: int) returns (err: Option<StockError>)
      modifies this
      ensures Adjusted(Op.Commit, old(AsRow()), qty, AsRow(), err)
      ensures err == if 0 < qty <= old(reserved) then None else Some(ValidationError)
    {
      if qty <= 0 { return Some(ValidationError); }
      if qty > reserved { return Some(ValidationError); }
      reserved := Int64.Wrap64(reserved - qty);
      return None;
    }
  }

  /** A hold that is given back leaves the ledger as it was; one that is committed removes exactly its quantity. */
  lemma HoldThenSettle(r: Row, qty: int)
    requires r.InRange() && r.reserved + qty <= Int64.MAX_INT64
    ensures var held := Adjust(Reserve, r, qty);
      && (held.Ok? <==> 0 < qty <= r.available)
      && (held.Ok? ==> held.value == r.(available := r.available - qty, reserved := r.reserved + qty))
      && (held.Ok? ==> Adjust(Release, held.value, qty) == Ok(r))
      && (held.Ok? ==> Adjust(Commit, held.value, qty) == Ok(r.(available := r.available - qty)))
  {
  }

  // ---- the reservation lifecycle ----

  datatype MoveResult = Changed | Unchanged | IllegalTransition

  /** What asking for `op` answers in a given status. */
  function MoveAnswer(op: Op, status: Status): MoveResult {
    if status == TargetOf(op) then Unchanged
    else if status == Held then Changed
    else IllegalTransition
  }

  class Reservation {
    const order: OrderId
    var status: Status
    const lines: seq<Line>

    constructor Rehydrate(order: OrderId, status: Status, lines: seq<Line>)
      ensures this.order == order && this.status == status && this.lines == lines
    {
      this.order := order;
      this.status := status;
      this.lines := lines;
    }

    /** HELD on creation; empty or duplicate lines are refused. */
    static method New(order: OrderId, lines: seq<Line>) returns (r: Option<Reservation>)
      ensures r.Some? <==> lines != [] && Distinct(lines)
      ensures r.Some? ==> fresh(r.value) && r.value.order == order && r.value.status == Held && r.value.lines == lines
    {
      if |lines| == 0 { return None; }
      var seen: set<Sku> := {};
      for i := 0 to |lines|
        invariant forall k :: k in seen <==> exists j | 0 <= j < i :: lines[j].sku == k
        invariant forall j, k | 0 <= j < k < i :: lines[j].sku != lines[k].sku
      {
        if lines[i].sku in seen { return None; }
        seen := seen + {lines[i].sku};
      }
      var x := new Reservation.Rehydrate(order, Held, lines);
      return Some(x);
    }

    method Release() returns (m: MoveResult)
      modifies this
      ensures m == MoveAnswer(Op.Release, old(status))
      ensures (m == Changed <==> old(status) == Held) && (m == Unchanged <==> old(status) == Released)
      ensures status == if m == Changed then Released else old(status)
    {
      match status
      case Released => return Unchanged;
      case Held => status := Released; return Changed;
      case Committed => return IllegalTransition;
    }

    method Commit() returns (m: MoveResult)
      modifies this
      ensures m == MoveAnswer(Op.Commit, old(status))
      ensures (m == Changed <==> old(status) == Held) && (m == Unchanged <==> old(status) == Committed)
      ensures status == if m == Changed then Committed else old(status)
    {
      match status
      case Committed => return Unchanged;
      case Held => status := Committed; return Changed;
      case Released => return IllegalTransition;
    }
  }

  // ---- the reserve handler ----

  predicate AcceptableLine(l: Line) {
    1 <= |TrimSpace(l.sku)| <= 64 && 1 <= l.qty <= 100_000
  }

  function Normal(l: Line): Line {
    Line(TrimSpace(l.sku), l.qty)
  }

  predicate AcceptableInput(input: seq<Line>) {
    && input != []
    && (forall i | 0 <= i < |input| :: AcceptableLine(input[i]))
    && (forall i, j | 0 <= i < j < |input| :: Normal(input[i]).sku != Normal(input[j]).sku)
  }

  function Skus(lines: seq<Line>): set<Sku> {
    set i | 0 <= i < |lines| :: lines[i].sku
  }

  lemma SkusSnoc(lines: seq<Line>, l: Line)
    ensures Skus(lines + [l]) == Skus(lines) + {l.sku}
    ensures Distinct(lines) && l.sku !in Skus(lines) ==> Distinct(lines + [l])
  {
    var all := lines + [l];
    forall i | 0 <= i < |all| ensures all[i].sku in Skus(lines) + {l.sku} {
      if i < |lines| { assert all[i] == lines[i]; }
    }
    forall i | 0 <= i < |lines| ensures lines[i].sku in Skus(all) { assert all[i] == lines[i]; }
    assert all[|lines|] == l;
  }

  /** One line of the request. */
  method CheckLine(input: Line) returns (r: Result<Line, StockError>)
    ensures r.Ok? <==> AcceptableLine(input)
    ensures if r.Ok? then r.value == Normal(input) && r.value.sku == TrimSpace(input.sku) && r.value.qty == input.qty else r.error == ValidationError
  {
    var sku := NewSku(input.sku);
    if sku.Err? { return Err(sku.error); }
    var qty := NewQuantity(input.qty);
    if qty.Err? { return Err(qty.error); }
    return Ok(Line(sku.value, qty.value));
  }

  /** The first lines of the request are acceptable, and these are they. */
  predicate Passed(input: seq<Line>, lines: seq<Line>) {
    |lines| <= |input| && forall i | 0 <= i < |lines| :: AcceptableLine(input[i]) && lines[i] == Normal(input[i])
  }

  lemma SkuTwice(input: seq<Line>, lines: seq<Line>, n: nat)
    requires Passed(input, lines) && |lines| == n < |input| && Normal(input[n]).sku in Skus(lines)
    ensures !AcceptableInput(input)
  {
    var i :| 0 <= i < n && lines[i].sku == Normal(input[n]).sku;
    assert Normal(input[i]).sku == Normal(input[n]).sku;
  }

  lemma AllPassed(input: seq<Line>, lines: seq<Line>)
    requires Passed(input, lines) && |lines| == |input| && input != [] && Distinct(lines)
    ensures AcceptableInput(input) && ValidLines(lines)
  {
    forall i, j | 0 <= i < j < |input| ensures Normal(input[i]).sku != Normal(input[j]).sku {
      assert lines[i].sku != lines[j].sku;
    }
  }

  /** Validation before the store is called: exactly the acceptable inputs pass, trimmed and in order. */
  method CheckReserve(input: seq<Line>) returns (r: Result<seq<Line>, StockError>)
    ensures r.Ok? <==> AcceptableInput(input)
    ensures r.Ok? ==> ValidLines(r.value) && |r.value| == |input|
    ensures r.Ok? ==> forall i | 0 <= i < |input| :: r.value[i] == Normal(input[i])
    ensures r.Err? ==> r.error == ValidationError
  {
    if |input| == 0 { return Err(ValidationError); }
    var lines: seq<Line> := [];
    var seen: set<Sku> := {};
    for n := 0 to |input|
      invariant |lines| == n && seen == Skus(lines) && Distinct(lines)
      invariant Passed(input, lines)
    {
      var line := CheckLine(input[n]);
      if line.Err? { return Err(line.error); }
      if line.value.sku in seen {
        SkuTwice(input, lines, n);
        return Err(ValidationError);
      }
      SkusSnoc(lines, line.value);
      seen := seen + {line.value.sku};
      lines := lines + [line.value];
    }
    AllPassed(input, lines);
    return Ok(lines);
  }

  // ---- sort.Slice by SKU ----

  predicate SortedBySku(lines: seq<Line>) {
    forall i, j | 0 <= i < j < |lines| :: Less(lines[i].sku, lines[j].sku)
  }

  function Insert(l: Line, lines: seq<Line>): seq<Line> {
    if lines == [] || Less(l.sku, lines[0].sku) then [l] + lines else [lines[0]] + Insert(l, lines[1..])
  }

  function SortLines(lines: seq<Line>): seq<Line> {
    if lines == [] then [] else Insert(lines[0], SortLines(lines[1..]))
  }

  lemma {:induction false} InsertKeeps(l: Line, lines: seq<Line>)
    ensures multiset(Insert(l, lines)) == multiset{l} + multiset(lines)
  {
    if !(lines == [] || Less(l.sku, lines[0].sku)) {
      InsertKeeps(l, lines[1..]);
      assert lines == [lines[0]] + lines[1..];
    }
  }

  lemma {:induction false} InsertSorts(l: Line, lines: seq<Line>)
    requires SortedBySku(lines) && forall i | 0 <= i < |lines| :: lines[i].sku != l.sku
    ensures SortedBySku(Insert(l, lines))
  {
    var r := Insert(l, lines);
    if lines == [] {
    } else if Less(l.sku, lines[0].sku) {
      forall j | 0 < j < |r| ensures Less(r[0].sku, r[j].sku) {
        if j > 1 { LessTransitive(l.sku, lines[0].sku, lines[j - 1].sku); }
      }
    } else {
      LessTotal(l.sku, lines[0].sku);
      InsertSorts(l, lines[1..]);
      InsertKeeps(l, lines[1..]);
      forall j | 0 < j < |r| ensures Less(r[0].sku, r[j].sku) {
        assert r[j] in multiset(Insert(l, lines[1..]));
        assert r[j] == l || r[j] in lines[1..];
      }
    }
  }

  lemma {:induction false} SortKeeps(lines: seq<Line>)
    ensures multiset(SortLines(lines)) == multiset(lines)
  {
    if lines != [] {
      SortKeeps(lines[1..]);
      InsertKeeps(lines[0], SortLines(lines[1..]));
      assert lines == [lines[0]] + lines[1..];
    }
  }

  lemma {:induction false} SortSorts(lines: seq<Line>)
    requires Distinct(lines)
    ensures SortedBySku(SortLines(lines))
  {
    if lines != [] {
      SortSorts(lines[1..]);
      SortKeeps(lines[1..]);
      var rest := SortLines(lines[1..]);
      forall i | 0 <= i < |rest| ensures rest[i].sku != lines[0].sku {
        assert rest[i] in multiset(lines[1..]);
      }
      InsertSorts(lines[0], rest);
    }
  }

  /** Sorting keeps the lines and puts them in the order that rows are locked. */
  lemma SortLinesSpec(lines: seq<Line>)
    requires ValidLines(lines)
    ensures ValidLines(SortLines(lines)) && SortedBySku(SortLines(lines)) && SameLines(lines, SortLines(lines))
  {
    SortKeeps(lines);
    SortSorts(lines);
    var r := SortLines(lines);
    forall l ensures l in lines <==> l in r {
      assert l in lines <==> l in multiset(lines);
      assert l in r <==> l in multiset(r);
    }
    forall i, j | 0 <= i < j < |r| ensures r[i].sku != r[j].sku {
      LessIrreflexive(r[i].sku);
    }
    forall i | 0 <= i < |r| ensures 0 < r[i].qty <= 100_000 {
      assert r[i] in r;
    }
  }
}
