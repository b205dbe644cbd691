/**
  Why callers must keep to one release or commit of an order at a time. The status
  is read without a lock and rewritten without a guard, so two releases that both
  find the reservation HELD both give its stock back.
*/
module InventoryTwoMovers {
  import opened Results
  import opened StockLedger
  import opened InventoryMachine

  /** Runs of enabled steps, whatever callers do. */
  ghost predicate AnyRun(s: State, steps: seq<Step>, s': State)
    decreases |steps|
  {
    if steps == [] then s == s' else Enabled(s, steps[0]) && AnyRun(Apply(s, steps[0]), steps[1..], s')
  }

  ghost predicate Possible(s: State) {
    exists steps :: AnyRun(INITIAL, steps, s)
  }

  lemma AnySnoc(s: State, steps: seq<Step>, m: State, step: Step)
    requires AnyRun(s, steps, m) && Enabled(m, step)
    ensures AnyRun(s, steps + [step], Apply(m, step))
    decreases |steps|
  {
    if steps == [] {
      assert AnyRun(Apply(m, step), [], Apply(m, step));
      assert ([step])[1..] == [];
    } else {
      AnySnoc(Apply(s, steps[0]), steps[1..], m, step);
      assert (steps + [step])[1..] == steps[1..] + [step];
    }
  }

  lemma Onward(s: State, step: Step, s': State)
    requires Possible(s) && Enabled(s, step) && Apply(s, step) == s'
    ensures Possible(s')
  {
    var steps :| AnyRun(INITIAL, steps, s);
    AnySnoc(INITIAL, steps, s, step);
  }

  function With(s: State, t: TxnId, x: Txn): State {
    s.(txns := s.txns[t := x])
  }

  /** Nobody but `t` holds a row or is about to commit. */
  predicate Clear(s: State, t: TxnId) {
    forall u | u in s.txns && u != t :: s.txns[u].w == 0 && s.txns[u].pc != Committing
  }

  lemma Advance(s: State, t: TxnId, x: Txn, loaded: seq<Line>, x': Txn)
    requires Possible(With(s, t, x)) && Clear(s, t)
    requires x.Active() && x.pc != Committing && Placed(s.db, x) && Statement(s.db, x, loaded, |s.log|) == x'
    requires x.pc == Find && x.call.MoveCall? && x.call.order in s.db.res ==>
      && Distinct(loaded) && |loaded| == |s.db.res[x.call.order].lines| && SameLines(loaded, s.db.res[x.call.order].lines)
    ensures Possible(With(s, t, x'))
  {
    Onward(With(s, t, x), Exec(t, loaded), With(s, t, x'));
  }

  /** One unit of one SKU. */
  function Unit(a: Sku): seq<Line> { [Line(a, 1)] }

  lemma UnitIndex(a: Sku)
    ensures IndexOf(Unit(a), a) == 0
  {
  }

  /** The rows, read and written, of a call that is about to commit. */
  function Ready(x: Txn, r: Row): Txn {
    x.(rows := [r], w := 1, pc := Committing)
  }

  /** From the first read of its one row to the commit, nobody else in between. */
  lemma ReadToCommit(s: State, t: TxnId, x: Txn, a: Sku, r: Row)
    requires Possible(With(s, t, x)) && Clear(s, t)
    requires x.pc == Reading && x.lines == Unit(a) && x.rows == [] && x.w == 0
    requires a in s.db.stock && s.db.stock[a] == r && r.available <= 2 && r.reserved <= 2
    requires match x.call.Action() case Reserve => r.available >= 1 && r.reserved >= 0 case _ => r.reserved >= 1 && r.available >= 0
    requires x.call.ReserveCall? ==> x.call.order !in s.db.res
    ensures Possible(With(s, t, Ready(x, r)))
  {
    var written := x.(rows := [r], pc := Writing);
    Advance(s, t, x, [], written);
    var recording := written.(w := 1, pc := Recording);
    Advance(s, t, written, [], recording);
    Advance(s, t, recording, [], Ready(x, r));
  }

  /** COMMIT of a one-line call. */
  lemma CommitUnit(s: State, t: TxnId, x: Txn, a: Sku, r: Row, s': State)
    requires Possible(With(s, t, Ready(x, r))) && x.lines == Unit(a)
    requires s.db.stock == map[a := r] && r.available <= 2 && r.reserved <= 2
    requires match x.call.Action() case Reserve => r.available >= 1 && r.reserved >= 0 case _ => r.reserved >= 1 && r.available >= 0
    requires x.call.MoveCall? ==> x.call.order in s.db.res
    requires s'.db.stock == map[a := Moved(x.call.Action(), r, 1)]
    requires s'.db.res == s.db.res[x.call.order :=
      if x.call.ReserveCall? then Reservation(Held, Unit(a)) else s.db.res[x.call.order].(status := TargetOf(x.call.op))]
    requires s'.txns == s.txns[t := End(Ready(x, r), if x.call.ReserveCall? then Granted else Done)]
    requires s'.log == s.log + [TxnCommit(t, x.call.order, x.call.Action(), Unit(a))]
    ensures Possible(s')
  {
    UnitIndex(a);
    var y := Ready(x, r);
    assert Written(y, 0) == Some(Moved(x.call.Action(), r, 1));
    assert CommitDb(s.db, y).stock == s'.db.stock;
    Onward(With(s, t, y), Exec(t, []), s');
  }

  // ---- two orders with one unit each ----

  function Reserving(a: Sku, o: OrderId, start: nat): Txn {
    Txn(ReserveCall(o, Unit(a)), [start], Unit(a), [], 0, Reading)
  }

  function Releasing(a: Sku, start: nat): Txn {
    Txn(MoveCall(1, Release), [start], Unit(a), [], 0, Reading)
  }

  function FirstEnded(a: Sku): Txn { End(Reserving(a, 1, 1), Granted) }
  function SecondEnded(a: Sku): Txn { End(Reserving(a, 2, 2), Granted) }

  function Log3(a: Sku): seq<Entry> {
    [StockSet(a, 2), TxnCommit(1, 1, Reserve, Unit(a)), TxnCommit(2, 2, Reserve, Unit(a))]
  }

  function Stocked(a: Sku): State { State(Db(map[a := Row(2, 0, 0)], map[]), map[], [StockSet(a, 2)]) }

  function OneHeld(a: Sku): State {
    State(Db(map[a := Row(1, 1, 1)], map[1 := Reservation(Held, Unit(a))]), map[1 := FirstEnded(a)], Log3(a)[..2])
  }

  function BothHeld(a: Sku): State {
    State(Db(map[a := Row(0, 2, 2)], map[1 := Reservation(Held, Unit(a)), 2 := Reservation(Held, Unit(a))]),
          map[1 := FirstEnded(a), 2 := SecondEnded(a)], Log3(a))
  }

  lemma BeginReserve(s: State, a: Sku, t: TxnId, o: OrderId)
    requires Possible(s) && t !in s.txns && o !in s.db.res && Clear(s, t)
    ensures Possible(With(s, t, Reserving(a, o, |s.log|)))
  {
    var x := Reserving(a, o, |s.log|);
    Onward(s, Start(t, x.call), With(s, t, x.(pc := Find)));
    Advance(s, t, x.(pc := Find), [], x);
  }

  lemma ReachOneHeld(a: Sku)
    ensures Possible(OneHeld(a))
  {
    assert AnyRun(INITIAL, [], INITIAL);
    Onward(INITIAL, Upsert(a, 2), Stocked(a));
    BeginReserve(Stocked(a), a, 1, 1);
    ReadToCommit(Stocked(a), 1, Reserving(a, 1, 1), a, Row(2, 0, 0));
    CommitUnit(Stocked(a), 1, Reserving(a, 1, 1), a, Row(2, 0, 0), OneHeld(a));
  }

  lemma ReachBothHeld(a: Sku)
    ensures Possible(BothHeld(a))
  {
    ReachOneHeld(a);
    BeginReserve(OneHeld(a), a, 2, 2);
    ReadToCommit(OneHeld(a), 2, Reserving(a, 2, 2), a, Row(1, 1, 1));
    CommitUnit(OneHeld(a), 2, Reserving(a, 2, 2), a, Row(1, 1, 1), BothHeld(a));
  }

  // ---- two releases of the first order ----

  lemma BeginRelease(s: State, a: Sku, t: TxnId)
    requires Possible(s) && t !in s.txns && Clear(s, t)
    requires 1 in s.db.res && s.db.res[1] == Reservation(Held, Unit(a))
    ensures Possible(With(s, t, Releasing(a, |s.log|)))
  {
    var x := Releasing(a, |s.log|);
    var found := x.(lines := [], pc := Find);
    Onward(s, Start(t, x.call), With(s, t, found));
    Advance(s, t, found, Unit(a), x);
  }

  /** Both have found the reservation HELD. */
  function BothFound(a: Sku): State {
    With(With(BothHeld(a), 3, Releasing(a, 3)), 4, Releasing(a, 3))
  }

  function GivenBackOnce(a: Sku): State {
    State(Db(map[a := Row(1, 1, 3)], map[1 := Reservation(Released, Unit(a)), 2 := Reservation(Held, Unit(a))]),
          BothFound(a).txns[3 := End(Ready(Releasing(a, 3), Row(0, 2, 2)), Done)],
          Log3(a) + [TxnCommit(3, 1, Release, Unit(a))])
  }

  function GivenBackTwice(a: Sku): State {
    State(Db(map[a := Row(2, 0, 4)], map[1 := Reservation(Released, Unit(a)), 2 := Reservation(Held, Unit(a))]),
          GivenBackOnce(a).txns[4 := End(Ready(Releasing(a, 3), Row(1, 1, 3)), Done)],
          Log3(a) + [TxnCommit(3, 1, Release, Unit(a)), TxnCommit(4, 1, Release, Unit(a))])
  }

  lemma ReachBothFound(a: Sku)
    ensures Possible(BothFound(a))
  {
    ReachBothHeld(a);
    BeginRelease(BothHeld(a), a, 3);
    BeginRelease(With(BothHeld(a), 3, Releasing(a, 3)), a, 4);
  }

  lemma ReachOnce(a: Sku)
    ensures Possible(GivenBackOnce(a))
  {
    ReachBothFound(a);
    var s := BothFound(a);
    var x, r := Releasing(a, 3), Row(0, 2, 2);
    assert With(s, 3, x) == s;
    ReadToCommit(s, 3, x, a, r);
    CommitUnit(s, 3, x, a, r, GivenBackOnce(a));
  }

  lemma ReachTwice(a: Sku)
    ensures Possible(GivenBackTwice(a))
  {
    ReachOnce(a);
    var s := GivenBackOnce(a);
    var x, r := Releasing(a, 3), Row(1, 1, 3);
    assert With(s, 4, x) == s;
    ReadToCommit(s, 4, x, a, r);
    CommitUnit(s, 4, x, a, r, GivenBackTwice(a));
  }

  /**
    Without the hypothesis on callers the ledger agreement fails: for every SKU there
    is a run of two orders in which both releases of the first one are answered DONE,
    and the second one's reservation is HELD although the row has nothing reserved.
  */
  lemma DoubleRelease(a: Sku)
    ensures exists s ::
      && Possible(s) && a in s.db.stock && s.db.stock[a].reserved == 0
      && 2 in s.db.res && s.db.res[2] == Reservation(Held, Unit(a)) && !LedgerOk(s.db)
  {
    ReachTwice(a);
    var s := GivenBackTwice(a);
    HeldWithoutStock(s.db, a);
  }

  lemma HeldWithoutStock(db: Db, a: Sku)
    requires a in db.stock && db.stock[a].reserved == 0
    requires 2 in db.res && db.res[2] == Reservation(Held, Unit(a))
    ensures !LedgerOk(db)
  {
    if LedgerOk(db) { HeldIsCovered(db, 2, 0); }
  }
}
