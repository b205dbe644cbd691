/**
  Lock ordering. Reserve sorts its lines in Go and a release or commit loads
  them ORDER BY sku in the database, so two orders on SKUs meet on one table.
*/
module InventoryDeadlock {
  import opened Results
  import opened StockLedger
  import opened InventoryMachine
  import opened InventoryInvariant

  type SkuOrder = (Sku, Sku) -> bool

  ghost predicate StrictTotal(lt: SkuOrder) {
    && (forall a :: !lt(a, a))
    && (forall a, b, c :: lt(a, b) && lt(b, c) ==> lt(a, c))
    && (forall a, b :: a != b ==> lt(a, b) || lt(b, a))
  }

  predicate Sorted(lt: SkuOrder, lines: seq<Line>) {
    forall i, j | 0 <= i < j < |lines| :: lt(lines[i].sku, lines[j].sku)
  }

  /** Reserve calls carry lines sorted by `go`; the database returns lines sorted by `pg`. */
  ghost predicate InOrder(go: SkuOrder, pg: SkuOrder, s: State, step: Step) {
    && (step.Start? && step.call.ReserveCall? ==> Sorted(go, step.call.lines))
    && (step.Exec? && step.txn in s.txns && s.txns[step.txn].pc == Find && s.txns[step.txn].call.MoveCall? ==>
          Sorted(pg, step.loaded))
  }

  ghost predicate OrderedRun(go: SkuOrder, pg: SkuOrder, s: State, steps: seq<Step>, s': State)
    decreases |steps|
  {
    if steps == [] then s == s'
    else
      && Enabled(s, steps[0]) && OneMover(s, steps[0]) && InOrder(go, pg, s, steps[0])
      && OrderedRun(go, pg, Apply(s, steps[0]), steps[1..], s')
  }

  ghost predicate ReachableIn(go: SkuOrder, pg: SkuOrder, s: State) {
    exists steps :: OrderedRun(go, pg, INITIAL, steps, s)
  }

  // ---- one common order: no cycle ----

  predicate LinesOrdered(lt: SkuOrder, x: Txn) {
    && (InFlight(x) ==> Sorted(lt, x.lines))
    && (x.call.ReserveCall? ==> Sorted(lt, x.call.lines))
  }

  ghost predicate AllOrdered(lt: SkuOrder, s: State) {
    forall t | t in s.txns :: LinesOrdered(lt, s.txns[t])
  }

  lemma StatementOrdered(lt: SkuOrder, db: Db, x: Txn, loaded: seq<Line>, now: nat)
    requires TxnOk(db, x) && Placed(db, x) && LinesOrdered(lt, x)
    requires x.pc == Find && x.call.MoveCall? ==> Sorted(lt, loaded)
    ensures LinesOrdered(lt, Statement(db, x, loaded, now))
  {
  }

  lemma StepOrdered(lt: SkuOrder, s: State, step: Step)
    requires Inv(s) && AllOrdered(lt, s)
    requires Enabled(s, step) && InOrder(lt, lt, s, step)
    ensures AllOrdered(lt, Apply(s, step))
  {
    var s' := Apply(s, step);
    forall t | t in s'.txns ensures LinesOrdered(lt, s'.txns[t]) {
      if step.Exec? && t == step.txn {
        StatementOrdered(lt, s.db, s.txns[t], step.loaded, |s.log|);
      } else if t in s.txns {
        assert LinesOrdered(lt, s.txns[t]);
      }
    }
  }

  lemma {:induction false} RunOrdered(lt: SkuOrder, s: State, steps: seq<Step>, s': State)
    requires Inv(s) && AllOrdered(lt, s) && OrderedRun(lt, lt, s, steps, s')
    ensures Inv(s') && AllOrdered(lt, s')
    decreases |steps|
  {
    if steps != [] {
      StepKeeps(s, steps[0]);
      StepOrdered(lt, s, steps[0]);
      RunOrdered(lt, Apply(s, steps[0]), steps[1..], s');
    }
  }

  /** The SKU that a writing transaction asks for next. */
  function Wanted(s: State, t: TxnId): Sku {
    if t in s.txns && s.txns[t].w < |s.txns[t].lines| then s.txns[t].lines[s.txns[t].w].sku else ""
  }

  lemma ChainClimbs(lt: SkuOrder, s: State, t: TxnId, u: TxnId, v: TxnId, x: TxnId)
    requires AllOrdered(lt, s) && WaitsFor(s, t, u) && WaitsFor(s, u, v) && WaitsFor(s, v, x)
    ensures lt(Wanted(s, t), Wanted(s, u))
  {
  }

  function Succ(n: nat, i: nat): nat {
    if i + 1 < n then i + 1 else 0
  }

  /** Each waits for the next, and the last for the first. */
  ghost predicate WaitCycle(s: State, c: seq<TxnId>) {
    |c| > 0 && forall i | 0 <= i < |c| :: WaitsFor(s, c[i], c[Succ(|c|, i)])
  }

  lemma CycleStep(lt: SkuOrder, s: State, c: seq<TxnId>, i: nat)
    requires AllOrdered(lt, s) && WaitCycle(s, c) && i < |c|
    ensures lt(Wanted(s, c[i]), Wanted(s, c[Succ(|c|, i)]))
  {
    var j := Succ(|c|, i);
    var k := Succ(|c|, j);
    ChainClimbs(lt, s, c[i], c[j], c[k], c[Succ(|c|, k)]);
  }

  lemma {:induction false} CycleClimbs(lt: SkuOrder, s: State, c: seq<TxnId>, i: nat)
    requires StrictTotal(lt) && AllOrdered(lt, s) && WaitCycle(s, c) && 0 < i < |c|
    ensures lt(Wanted(s, c[0]), Wanted(s, c[i]))
  {
    CycleStep(lt, s, c, i - 1);
    if i > 1 { CycleClimbs(lt, s, c, i - 1); }
  }

  lemma NoCycle(lt: SkuOrder, s: State, c: seq<TxnId>)
    requires StrictTotal(lt) && AllOrdered(lt, s)
    ensures !WaitCycle(s, c)
  {
    if WaitCycle(s, c) {
      CycleStep(lt, s, c, |c| - 1);
      if |c| > 1 { CycleClimbs(lt, s, c, |c| - 1); }
    }
  }

  // ---- two orders that disagree: a cycle ----

  lemma RunSnoc(go: SkuOrder, pg: SkuOrder, s: State, steps: seq<Step>, m: State, step: Step)
    requires OrderedRun(go, pg, s, steps, m)
    requires Enabled(m, step) && OneMover(m, step) && InOrder(go, pg, m, step)
    ensures OrderedRun(go, pg, s, steps + [step], Apply(m, step))
    decreases |steps|
  {
    if steps == [] {
      assert OrderedRun(go, pg, Apply(m, step), [], Apply(m, step));
      assert ([step])[1..] == [];
    } else {
      RunSnoc(go, pg, Apply(s, steps[0]), steps[1..], m, step);
      assert (steps + [step])[1..] == steps[1..] + [step];
    }
  }

  lemma Onward(go: SkuOrder, pg: SkuOrder, s: State, step: Step)
    requires ReachableIn(go, pg, s)
    requires Enabled(s, step) && OneMover(s, step) && InOrder(go, pg, s, step)
    ensures ReachableIn(go, pg, Apply(s, step))
  {
    var steps :| OrderedRun(go, pg, INITIAL, steps, s);
    RunSnoc(go, pg, INITIAL, steps, s, step);
  }

  function With(s: State, t: TxnId, x: Txn): State {
    s.(txns := s.txns[t := x])
  }

  /** One statement that waits for nobody. */
  lemma Advance(go: SkuOrder, pg: SkuOrder, s: State, t: TxnId, x: Txn, loaded: seq<Line>, x': Txn)
    requires ReachableIn(go, pg, With(s, t, x))
    requires x.Active() && x.pc != Committing && Placed(s.db, x) && Statement(s.db, x, loaded, |s.log|) == x'
    requires x.pc == Writing ==> forall u | u in s.txns && u != t :: !s.txns[u].Holds(x.lines[x.w].sku)
    requires x.pc == Recording ==> forall u | u in s.txns && u != t :: s.txns[u].pc != Committing
    requires x.pc == Find && x.call.MoveCall? ==>
      && x.call.order in s.db.res && Distinct(loaded) && Sorted(pg, loaded)
      && |loaded| == |s.db.res[x.call.order].lines| && SameLines(loaded, s.db.res[x.call.order].lines)
    ensures ReachableIn(go, pg, With(s, t, x'))
  {
    Onward(go, pg, With(s, t, x), Exec(t, loaded));
    assert With(With(s, t, x), t, x') == With(s, t, x');
  }

  /** One unit of each of two SKUs. */
  function Pair(a: Sku, b: Sku): seq<Line> { [Line(a, 1), Line(b, 1)] }

  lemma PairIndex(a: Sku, b: Sku, s: Sku)
    requires a != b
    ensures IndexOf(Pair(a, b), s) == (if s == a then 0 else if s == b then 1 else 2)
  {
  }

  function Stocked(a: Sku, b: Sku): State {
    State(Db(map[a := Row(2, 0, 0), b := Row(2, 0, 0)], map[]), map[], [StockSet(a, 2), StockSet(b, 2)])
  }

  function FirstCall(a: Sku, b: Sku): Txn {
    Txn(ReserveCall(1, Pair(a, b)), [2], Pair(a, b), [], 0, Find)
  }

  /** Order 1 holds one of each. */
  function HeldState(a: Sku, b: Sku): State {
    State(Db(map[a := Row(1, 1, 1), b := Row(1, 1, 1)], map[1 := Reservation(Held, Pair(a, b))]),
          map[1 := FirstCall(a, b).(pc := Ended(Granted))],
          [StockSet(a, 2), StockSet(b, 2), TxnCommit(1, 1, Reserve, Pair(a, b))])
  }

  lemma ReachStocked(go: SkuOrder, pg: SkuOrder, a: Sku, b: Sku)
    requires a != b
    ensures ReachableIn(go, pg, Stocked(a, b))
  {
    assert OrderedRun(go, pg, INITIAL, [], INITIAL);
    Onward(go, pg, INITIAL, Upsert(a, 2));
    var s1 := Apply(INITIAL, Upsert(a, 2));
    assert s1 == State(Db(map[a := Row(2, 0, 0)], map[]), map[], [StockSet(a, 2)]);
    Onward(go, pg, s1, Upsert(b, 2));
    assert Apply(s1, Upsert(b, 2)) == Stocked(a, b);
  }

  lemma ReachReading(go: SkuOrder, pg: SkuOrder, a: Sku, b: Sku)
    requires a != b && go(a, b)
    ensures ReachableIn(go, pg, With(Stocked(a, b), 1, FirstCall(a, b).(rows := [Row(2, 0, 0), Row(2, 0, 0)], pc := Writing)))
  {
    ReachStocked(go, pg, a, b);
    var s := Stocked(a, b);
    var r := Row(2, 0, 0);
    var x := FirstCall(a, b);
    Onward(go, pg, s, Start(1, x.call));
    assert Apply(s, Start(1, x.call)) == With(s, 1, x);
    var x1 := x.(pc := Reading);
    Advance(go, pg, s, 1, x, [], x1);
    var x2 := x1.(rows := [r]);
    Advance(go, pg, s, 1, x1, [], x2);
    var x3 := x2.(rows := [r, r], pc := Writing);
    Advance(go, pg, s, 1, x2, [], x3);
  }

  function FirstCommit(a: Sku, b: Sku): Txn {
    FirstCall(a, b).(rows := [Row(2, 0, 0), Row(2, 0, 0)], w := 2, pc := Committing)
  }

  lemma ReachCommitting(go: SkuOrder, pg: SkuOrder, a: Sku, b: Sku)
    requires a != b && go(a, b)
    ensures ReachableIn(go, pg, With(Stocked(a, b), 1, FirstCommit(a, b)))
  {
    ReachReading(go, pg, a, b);
    var s := Stocked(a, b);
    var x3 := FirstCall(a, b).(rows := [Row(2, 0, 0), Row(2, 0, 0)], pc := Writing);
    var x4 := x3.(w := 1);
    Advance(go, pg, s, 1, x3, [], x4);
    var x5 := x4.(w := 2, pc := Recording);
    Advance(go, pg, s, 1, x4, [], x5);
    Advance(go, pg, s, 1, x5, [], x5.(pc := Committing));
  }

  lemma FirstCommitDb(a: Sku, b: Sku)
    requires a != b
    ensures CommitDb(Stocked(a, b).db, FirstCommit(a, b)) == HeldState(a, b).db
  {
    PairIndex(a, b, a);
    PairIndex(a, b, b);
    var db' := CommitDb(Stocked(a, b).db, FirstCommit(a, b));
    assert NewRow(Reserve, Row(2, 0, 0), 1) == Some(Row(1, 1, 1));
    assert db'.stock[a] == Row(1, 1, 1) && db'.stock[b] == Row(1, 1, 1);
    assert db'.stock == HeldState(a, b).db.stock;
  }

  lemma ReachHeld(go: SkuOrder, pg: SkuOrder, a: Sku, b: Sku)
    requires a != b && go(a, b)
    ensures ReachableIn(go, pg, HeldState(a, b))
  {
    ReachCommitting(go, pg, a, b);
    FirstCommitDb(a, b);
    var s := With(Stocked(a, b), 1, FirstCommit(a, b));
    assert Placed(s.db, s.txns[1]);
    Onward(go, pg, s, Exec(1, []));
    var s' := Apply(s, Exec(1, []));
    assert s'.txns == HeldState(a, b).txns && s'.log == HeldState(a, b).log && s'.db == HeldState(a, b).db;
  }

  /** A release of order 1 that has locked `b` and is about to lock `a`. */
  function Releasing(a: Sku, b: Sku): Txn {
    Txn(MoveCall(1, Release), [3], Pair(b, a), [Row(1, 1, 1), Row(1, 1, 1)], 1, Writing)
  }

  /** A reserve for order 2 that has locked `a` and is about to lock `b`. */
  function Reserving(a: Sku, b: Sku): Txn {
    Txn(ReserveCall(2, Pair(a, b)), [3], Pair(a, b), [Row(1, 1, 1), Row(1, 1, 1)], 1, Writing)
  }

  lemma StartReleasing(go: SkuOrder, pg: SkuOrder, a: Sku, b: Sku)
    requires a != b && go(a, b)
    ensures ReachableIn(go, pg, With(HeldState(a, b), 2, Txn(MoveCall(1, Release), [3], [], [], 0, Find)))
  {
    ReachHeld(go, pg, a, b);
    Onward(go, pg, HeldState(a, b), Start(2, MoveCall(1, Release)));
  }

  lemma ReachReleasing(go: SkuOrder, pg: SkuOrder, a: Sku, b: Sku)
    requires a != b && go(a, b) && pg(b, a)
    ensures ReachableIn(go, pg, With(HeldState(a, b), 2, Releasing(a, b)))
  {
    StartReleasing(go, pg, a, b);
    PairIndex(b, a, a);
    PairIndex(b, a, b);
    var s := HeldState(a, b);
    var r := Row(1, 1, 1);
    var x := Txn(MoveCall(1, Release), [3], [], [], 0, Find);
    var x1 := x.(lines := Pair(b, a), pc := Reading);
    assert SameLines(Pair(b, a), Pair(a, b));
    Advance(go, pg, s, 2, x, Pair(b, a), x1);
    var x2 := x1.(rows := [r], pc := Writing);
    Advance(go, pg, s, 2, x1, [], x2);
    var x3 := x2.(w := 1, pc := Reading);
    Advance(go, pg, s, 2, x2, [], x3);
    var x4 := Releasing(a, b);
    Advance(go, pg, s, 2, x3, [], x4);
  }

  lemma StartReserving(go: SkuOrder, pg: SkuOrder, a: Sku, b: Sku)
    requires a != b && go(a, b) && pg(b, a)
    ensures ReachableIn(go, pg, With(With(HeldState(a, b), 2, Releasing(a, b)), 3,
              Txn(ReserveCall(2, Pair(a, b)), [3], Pair(a, b), [], 0, Find)))
  {
    ReachReleasing(go, pg, a, b);
    Onward(go, pg, With(HeldState(a, b), 2, Releasing(a, b)), Start(3, ReserveCall(2, Pair(a, b))));
  }

  lemma ReachBoth(go: SkuOrder, pg: SkuOrder, a: Sku, b: Sku)
    requires a != b && go(a, b) && pg(b, a)
    ensures ReachableIn(go, pg, With(With(HeldState(a, b), 2, Releasing(a, b)), 3, Reserving(a, b)))
  {
    StartReserving(go, pg, a, b);
    PairIndex(a, b, a);
    PairIndex(a, b, b);
    PairIndex(b, a, a);
    PairIndex(b, a, b);
    var s := With(HeldState(a, b), 2, Releasing(a, b));
    var r := Row(1, 1, 1);
    var x := Txn(ReserveCall(2, Pair(a, b)), [3], Pair(a, b), [], 0, Find);
    var x1 := x.(pc := Reading);
    Advance(go, pg, s, 3, x, [], x1);
    var x2 := x1.(rows := [r]);
    Advance(go, pg, s, 3, x1, [], x2);
    var x3 := x2.(rows := [r, r], pc := Writing);
    Advance(go, pg, s, 3, x2, [], x3);
    var x4 := Reserving(a, b);
    Advance(go, pg, s, 3, x3, [], x4);
  }

  lemma DisagreementDeadlocks(go: SkuOrder, pg: SkuOrder, a: Sku, b: Sku)
    requires a != b && go(a, b) && pg(b, a)
    ensures exists s, c :: ReachableIn(go, pg, s) && WaitCycle(s, c)
  {
    ReachBoth(go, pg, a, b);
    PairIndex(a, b, a);
    PairIndex(b, a, b);
    var s := With(With(HeldState(a, b), 2, Releasing(a, b)), 3, Reserving(a, b));
    assert WaitsFor(s, 2, 3) && WaitsFor(s, 3, 2);
    assert WaitCycle(s, [2, 3]);
  }

  /**
    Transactions can never wait for one another in a circle if and only if Go's
    order on SKUs and the database's are the same.
  */
  lemma DeadlockFreeIffOrdersAgree(go: SkuOrder, pg: SkuOrder)
    requires StrictTotal(go) && StrictTotal(pg)
    ensures (forall a, b :: go(a, b) ==> pg(a, b))
       <==> (forall s, c | ReachableIn(go, pg, s) :: !WaitCycle(s, c))
  {
    if forall a, b :: go(a, b) ==> pg(a, b) {
      forall s, c | ReachableIn(go, pg, s) ensures !WaitCycle(s, c) {
        var steps :| OrderedRun(go, pg, INITIAL, steps, s);
        SameOrderRun(go, pg, INITIAL, steps, s);
        RunOrdered(go, INITIAL, steps, s);
        NoCycle(go, s, c);
      }
    } else {
      var a, b :| go(a, b) && !pg(a, b);
      DisagreementDeadlocks(go, pg, a, b);
    }
  }

  lemma {:induction false} SameOrderRun(go: SkuOrder, pg: SkuOrder, s: State, steps: seq<Step>, s': State)
    requires StrictTotal(go) && StrictTotal(pg) && forall a, b :: go(a, b) ==> pg(a, b)
    requires OrderedRun(go, pg, s, steps, s')
    ensures OrderedRun(go, go, s, steps, s')
    decreases |steps|
  {
    if steps != [] {
      SameOrderRun(go, pg, Apply(s, steps[0]), steps[1..], s');
    }
  }

}
