/**
  An order's own steps in the composed system: with nothing else in flight they take its
  saga one statement on, as if nobody else were there; and none of them leads out of a
  doomed state.
*/
module SystemRecovery {
  import opened Results
  import opened StockLedger
  import opened Saga
  import opened WholeSystem
  import Sys = System
  import Recovery = SagaRecovery
  import Alone = InventoryAlone
  import Stock = InventoryMachine
  import Store = PaymentStore
  import Pays = PaymentDomain
  import Domain = InventoryDomain

  // ---- an order's own steps ----

  /** What the provider says when it is asked. */
  predicate SaysEnv(step: Store.Step, env: Recovery.Env) {
    step.Charge? ==> step.answer == Store.Answer(env.approved, Some(env.reference), Some(env.why))
  }

  /** A step of the handler of `o`, of its calls and captures, or a delivery to it. */
  predicate OwnPart(e: Sys.Event, o: OrderId, env: Recovery.Env) {
    match e
    case SagaStep(l) => (l.Deliver? || l.Act? || l.Drop?) && l.order == o
    case BeginCall(p, _) => p == o
    case CallStep(p, _) => p == o
    case BeginCapture(p, _) => p == o
    case CaptureStep(p, step, _) => p == o && SaysEnv(step, env)
    case _ => false
  }

  // ---- what one statement of the saga comes to ----

  /** The saga's world after its next statement, with the answers of an undisturbed environment. */
  function NextWorld(w: World, o: OrderId, env: Recovery.Env): World
    requires o in w.orders && w.orders[o].run.Some?
  {
    var a := Recovery.AloneAnswer(w.db, o, w.orders[o], env);
    if MayAct(w.db, o, w.orders[o], a) then Saga.Step(w, Act(o, a)) else Saga.Step(w, Drop(o))
  }

  lemma NextKeeps(w: World, o: OrderId, env: Recovery.Env)
    requires o in w.orders && w.orders[o].run.Some?
    ensures o in NextWorld(w, o, env).orders
  {
  }

  lemma NextIsNearer(w: World, o: OrderId, env: Recovery.Env)
    requires Saga.Reachable(w) && o in w.orders && w.orders[o].run.Some?
    ensures var w' := NextWorld(w, o, env);
      && o in w'.orders && Recovery.Finish(w', o, env) == Recovery.Finish(w, o, env)
      && (w'.orders[o].run.Some? ==> Recovery.Left(w'.orders[o].run.value.pc) < Recovery.Left(w.orders[o].run.value.pc))
  {
    Saga.ReachableOrder(w, o);
    var a := Recovery.AloneAnswer(w.db, o, w.orders[o], env);
    if MayAct(w.db, o, w.orders[o], a) { Recovery.ActProgress(w.db, o, w.orders[o], a); }
  }

  // ---- inventory calls ----

  lemma SameVerdict(call: Stock.Call, a: Stock.Outcome, b: Stock.Outcome)
    requires Alone.Alike(call, a, b)
    ensures VerdictOf(call, a) == VerdictOf(call, b)
    ensures forall db :: EffectOf(db, call, a) == EffectOf(db, call, b)
  {
  }

  /** Possible answers with one verdict and one effect move the handler in one way. */
  lemma MovesAlike(db: Db, o: OrderId, r: Record, call: Stock.Call, a: Stock.Outcome, b: Stock.Outcome)
    requires CallOf(o, r) == Some(call) && Possible(db, call, b)
    requires VerdictOf(call, a) == VerdictOf(call, b) && EffectOf(db, call, a) == EffectOf(db, call, b)
    ensures MayAct(db, o, r, Inventory(a)) ==> MayAct(db, o, r, Inventory(b))
    ensures Sys.AnswerLabel(o, call, b).Act? <==> MayAct(db, o, r, Inventory(b))
    ensures MayAct(db, o, r, Inventory(a)) ==> Advance(r, Inventory(a)) == Advance(r, Inventory(b))
    ensures DbAfter(db, o, r, Inventory(a)) == DbAfter(db, o, r, Inventory(b))
  {
  }

  /** An answer like that of an inventory of its own moves the saga's world as that one does. */
  lemma AnswerIsNext(w: World, o: OrderId, call: Stock.Call, outcome: Stock.Outcome, env: Recovery.Env)
    requires Saga.Inv(w) && o in w.orders && CallOf(o, w.orders[o]) == Some(call)
    requires Alone.Alike(call, outcome, Recovery.Alone(w.db, call))
    requires Saga.Enabled(w, Sys.AnswerLabel(o, call, outcome))
    ensures Saga.Step(w, Sys.AnswerLabel(o, call, outcome)) == NextWorld(w, o, env)
  {
    var r, alone := w.orders[o], Recovery.Alone(w.db, call);
    SameVerdict(call, outcome, alone);
    Domain.SortLinesSpec(r.placed.lines);
    Recovery.AloneIsAtomic(w.db, call);
    MovesAlike(w.db, o, r, call, outcome, alone);
  }

  lemma CallStarts(s: Sys.Sys, o: OrderId, t: Stock.TxnId)
    requires Sys.Inv(s) && s.calls == map[] && t !in s.stock.txns && o in s.world.orders && CallOf(o, s.world.orders[o]).Some?
    ensures Sys.MayHappen(s, Sys.BeginCall(o, t))
    ensures var s' := Sys.Next(s, Sys.BeginCall(o, t)); s'.calls == map[o := t] && Alone.Undisturbed(s'.stock, t)
  {
    LinesAreValid(s.world, o);
  }

  lemma LinesAreValid(w: World, o: OrderId)
    requires Saga.Reachable(w) && o in w.orders && CallOf(o, w.orders[o]).Some?
    ensures var call := CallOf(o, w.orders[o]).value;
      (call.ReserveCall? ==> ValidLines(call.lines)) && (call.MoveCall? ==> call.op != Reserve)
  {
    Saga.ReachableInv(w);
    Domain.SortLinesSpec(w.orders[o].placed.lines);
  }

  /** The end of the call is the saga's next statement. */
  lemma CallAnswered(s: Sys.Sys, o: OrderId, loaded: seq<Line>, env: Recovery.Env)
    requires Sys.Inv(s) && o in s.calls && Stock.Enabled(s.stock, Stock.Exec(s.calls[o], loaded)) && s.calls[o] in s.stock.txns
    requires var x' := After(s.stock, s.calls[o], loaded).txns[s.calls[o]];
      x'.pc.Ended? && Alone.Alike(s.stock.txns[s.calls[o]].call, x'.pc.outcome, Recovery.Alone(s.stock.db, s.stock.txns[s.calls[o]].call))
    ensures o in s.world.orders && s.world.orders[o].run.Some? && Sys.CallNext(s, o, loaded).world == NextWorld(s.world, o, env)
  {
    var t := s.calls[o];
    CallEnds(s.world, s.stock, t, loaded, o);
    Saga.ReachableInv(s.world);
    AnswerIsNext(s.world, o, s.stock.txns[t].call, After(s.stock, t, loaded).txns[t].pc.outcome, env);
  }

  /** A statement of an undisturbed call, on the sagas, stock and payments. */
  lemma UndisturbedStatement(s: Sys.Sys, o: OrderId, loaded: seq<Line>, env: Recovery.Env)
    requires Sys.Inv(s) && o in s.calls && Alone.Undisturbed(s.stock, s.calls[o])
    requires Stock.Enabled(s.stock, Stock.Exec(s.calls[o], loaded))
    ensures o in s.world.orders && s.world.orders[o].run.Some?
    ensures var s', t := Sys.Next(s, Sys.CallStep(o, loaded)), s.calls[o];
      && s'.captures == s.captures && t in s.stock.txns
      && if o in s'.calls
         then s'.world == s.world && s'.calls == s.calls && Alone.Undisturbed(s'.stock, t) && Alone.Sooner(s'.stock.txns[t], s.stock.txns[t])
         else s'.world == NextWorld(s.world, o, env) && s'.calls == s.calls - {o}
  {
    Alone.StatementAlone(s.stock, s.calls[o], loaded);
    if !After(s.stock, s.calls[o], loaded).txns[s.calls[o]].Active() { CallAnswered(s, o, loaded, env); }
  }

  // ---- captures ----

  function JobOf(o: OrderId, r: Record): Store.Job {
    Store.CaptureJob(o, r.placed.total, r.placed.currency)
  }

  /** The stored payment of the order, as the finder has it. */
  lemma FindPayment(s: Sys.Sys, o: OrderId) returns (hit: Store.Hit)
    requires Sys.Inv(s) && o in s.world.orders
    ensures Store.FindsByOrder(s.pay.rows, o, hit) && (hit.At? <==> s.world.orders[o].pay.Some?) && !hit.Ambiguous?
  {
    assert Sys.PayMatches(s.pay.rows, o, s.world.orders[o].pay);
    if s.world.orders[o].pay.Some? {
      var id :| id in s.pay.rows && s.pay.rows[id].order == o;
      hit := Store.At(id);
    } else {
      hit := Store.Nowhere;
    }
  }

  /** With an answer the world takes the saga's next statement. */
  lemma AnsweredIsNext(w: World, o: OrderId, a: Answer, env: Recovery.Env)
    requires o in w.orders && w.orders[o].run.Some? && w.orders[o].run.value.pc == Authorizing && a.Charge?
    requires w.orders[o].pay.Some? || Chargeable(w.orders[o])
    requires w.orders[o].pay == None ==>
      Captured(w.orders[o], a) == Captured(w.orders[o], Charge(env.approved, env.reference, env.why))
    ensures Saga.Step(w, Act(o, a)) == NextWorld(w, o, env)
  {
  }

  lemma FoundReplies(s: Sys.Sys, o: OrderId, t: Store.TxnId, hit: Store.Hit)
    requires o in s.captures && s.captures[o] == t && Store.Enabled(s.pay, Store.Look(t, hit)) && hit.At?
    ensures Sys.CaptureNext(s, o, Store.Look(t, hit), false)
         == s.(pay := Store.Apply(s.pay, Store.Look(t, hit)), captures := s.captures - {o},
               world := Saga.Step(s.world, Act(o, Charge(false, "", ""))))
  {
    assert |Store.Apply(s.pay, Store.Look(t, hit)).replies| == |s.pay.replies| + 1;
  }

  /** What the provider's answer makes of the payment. */
  function ChargedFor(o: OrderId, r: Record, id: Pays.PayId, env: Recovery.Env): Pays.Pay {
    Store.ChargedPay(id, JobOf(o, r), Store.Answer(env.approved, Some(env.reference), Some(env.why)))
  }

  lemma SavedReplies(s: Sys.Sys, o: OrderId, t: Store.TxnId)
    requires o in s.captures && s.captures[o] == t && Store.Enabled(s.pay, Store.Save(t, Store.Nowhere, false))
    ensures var p := s.pay.txns[t].pc.pay;
      Sys.CaptureNext(s, o, Store.Save(t, Store.Nowhere, false), false)
        == s.(pay := Store.Apply(s.pay, Store.Save(t, Store.Nowhere, false)), captures := s.captures - {o},
              world := Saga.Step(s.world, Act(o, Charge(p.status == Pays.Captured, p.reference, p.failure))))
  {
    assert |Store.Apply(s.pay, Store.Save(t, Store.Nowhere, false)).replies| == |s.pay.replies| + 1;
  }

  /** The new payment's reply is the saga's next statement. */
  lemma SaveIsNext(s: Sys.Sys, o: OrderId, id: Pays.PayId, env: Recovery.Env)
    requires o in s.world.orders && s.world.orders[o].run.Some? && s.world.orders[o].run.value.pc == Authorizing
    requires s.world.orders[o].pay == None && Chargeable(s.world.orders[o])
    requires o in s.captures && s.captures[o] in s.pay.txns && Store.FindsByOrder(s.pay.rows, o, Store.Nowhere)
    requires s.pay.txns[s.captures[o]].pc == Store.Saving(ChargedFor(o, s.world.orders[o], id, env))
    ensures Store.Enabled(s.pay, Store.Save(s.captures[o], Store.Nowhere, false))
    ensures var s' := Sys.CaptureNext(s, o, Store.Save(s.captures[o], Store.Nowhere, false), false);
      s'.world == NextWorld(s.world, o, env) && s'.captures == s.captures - {o} && s'.calls == s.calls
  {
    var p := ChargedFor(o, s.world.orders[o], id, env);
    SavedReplies(s, o, s.captures[o]);
    AnsweredIsNext(s.world, o, Charge(p.status == Pays.Captured, p.reference, p.failure), env);
  }

  // ---- the handler's own steps ----

  /** The handler is at a statement in which its order's log has no part. */
  predicate Logless(w: World, o: OrderId) {
    o in w.orders && match w.orders[o].run
      case None => false
      case Some(r) => !r.pc.CancellingOrder? && r.pc != Confirming
  }

  predicate Own(s: Sys.Sys, e: Sys.Event, o: OrderId, env: Recovery.Env) {
    OwnPart(e, o, env) && (e.SagaStep? ==> e.of.Drop? || (e.of.Act? && Logless(s.world, o)))
  }

  ghost predicate OwnRun(s: Sys.Sys, es: seq<Sys.Event>, s': Sys.Sys, o: OrderId, env: Recovery.Env)
    decreases |es|
  {
    if es == [] then s == s'
    else Sys.MayHappen(s, es[0]) && Own(s, es[0], o, env) && OwnRun(Sys.Next(s, es[0]), es[1..], s', o, env)
  }

  ghost predicate Leads(s: Sys.Sys, s': Sys.Sys, o: OrderId, env: Recovery.Env) {
    exists es :: OwnRun(s, es, s', o, env)
  }

  predicate Takes(s: Sys.Sys, e: Sys.Event, s': Sys.Sys, o: OrderId, env: Recovery.Env) {
    Sys.MayHappen(s, e) && Own(s, e, o, env) && s' == Sys.Next(s, e)
  }

  lemma OneStep(s: Sys.Sys, e: Sys.Event, s': Sys.Sys, o: OrderId, env: Recovery.Env)
    requires Sys.Inv(s) && Takes(s, e, s', o, env)
    ensures Sys.Inv(s') && Leads(s, s', o, env)
  {
    EventKeeps(s, e);
    assert OwnRun(s', [], s', o, env);
    LeadsFirst(s, e, s', s', o, env);
  }

  lemma LeadsFirst(s: Sys.Sys, e: Sys.Event, m: Sys.Sys, s': Sys.Sys, o: OrderId, env: Recovery.Env)
    requires Takes(s, e, m, o, env) && Leads(m, s', o, env)
    ensures Leads(s, s', o, env)
  {
    var es :| OwnRun(m, es, s', o, env);
    assert ([e] + es)[1..] == es;
    assert OwnRun(s, [e] + es, s', o, env);
  }

  lemma {:induction false} RunsOn(s: Sys.Sys, es: seq<Sys.Event>, m: Sys.Sys, s': Sys.Sys, o: OrderId, env: Recovery.Env)
    requires OwnRun(s, es, m, o, env) && Leads(m, s', o, env)
    ensures Leads(s, s', o, env)
    decreases |es|
  {
    if es != [] {
      var n := Sys.Next(s, es[0]);
      RunsOn(n, es[1..], m, s', o, env);
      LeadsFirst(s, es[0], n, s', o, env);
    }
  }

  lemma LeadsOn(s: Sys.Sys, m: Sys.Sys, s': Sys.Sys, o: OrderId, env: Recovery.Env)
    requires Leads(s, m, o, env) && Leads(m, s', o, env)
    ensures Leads(s, s', o, env)
  {
    var es :| OwnRun(s, es, m, o, env);
    RunsOn(s, es, m, s', o, env);
  }

  /** Nothing is in flight. */
  ghost predicate Idle(s: Sys.Sys, o: OrderId) {
    Sys.Inv(s) && o in s.world.orders && s.calls == map[] && s.captures == map[]
  }

  /** The saga of `o` has taken its next statement, and nothing is in flight. */
  ghost predicate Goes(s: Sys.Sys, s': Sys.Sys, o: OrderId, env: Recovery.Env) {
    && o in s.world.orders && s.world.orders[o].run.Some?
    && Idle(s', o) && Leads(s, s', o, env) && s'.world == NextWorld(s.world, o, env)
  }

  lemma GoesOn(s: Sys.Sys, m: Sys.Sys, s': Sys.Sys, o: OrderId, env: Recovery.Env)
    requires Leads(s, m, o, env) && m.world == s.world && Goes(m, s', o, env)
    ensures Goes(s, s', o, env)
  {
    LeadsOn(s, m, s', o, env);
  }

  lemma FreshNat(used: set<nat>) returns (n: nat)
    ensures n !in used
  {
    n := 0;
    var rest := used;
    while n in used
      invariant rest <= used && forall k | k in used && k !in rest :: k < n
      invariant forall k | k in rest :: k >= n
      decreases |rest|
    {
      rest := rest - {n};
      n := n + 1;
    }
  }

  // ---- inventory calls ----

  ghost predicate InCall(s: Sys.Sys, o: OrderId) {
    && Sys.Inv(s) && o in s.world.orders && s.captures == map[] && s.calls.Keys == {o}
    && Alone.Undisturbed(s.stock, s.calls[o])
  }

  lemma CallBegins(s: Sys.Sys, o: OrderId, r: Record, env: Recovery.Env) returns (s': Sys.Sys)
    requires Idle(s, o) && (o, r) in s.world.orders.Items && CallOf(o, r).Some?
    ensures InCall(s', o) && Leads(s, s', o, env) && s'.world == s.world
  {
    var t := FreshNat(s.stock.txns.Keys);
    CallStarts(s, o, t);
    s' := Sys.Next(s, Sys.BeginCall(o, t));
    OneStep(s, Sys.BeginCall(o, t), s', o, env);
  }

  function PhaseOf(s: Sys.Sys, o: OrderId): nat {
    if o in s.calls && s.calls[o] in s.stock.txns then Alone.Phase(s.stock.txns[s.calls[o]].pc) else 0
  }

  function LeftOf(s: Sys.Sys, o: OrderId): nat {
    if o in s.calls && s.calls[o] in s.stock.txns then Alone.Left(s.stock.txns[s.calls[o]]) else 0
  }

  predicate Nearer(s: Sys.Sys, s': Sys.Sys, o: OrderId) {
    PhaseOf(s', o) < PhaseOf(s, o) || (PhaseOf(s', o) == PhaseOf(s, o) && LeftOf(s', o) < LeftOf(s, o))
  }

  /** What a statement of the call changes. */
  predicate CallMoved(s: Sys.Sys, s': Sys.Sys, o: OrderId, env: Recovery.Env) {
    && o in s.calls && o in s.world.orders && s.world.orders[o].run.Some? && s'.captures == map[] && o in s'.world.orders
    && if o in s'.calls
       then s'.world == s.world && s'.calls == s.calls && Alone.Undisturbed(s'.stock, s.calls[o]) && Nearer(s, s', o)
       else s'.world == NextWorld(s.world, o, env) && s'.calls == map[]
  }

  /** The call is nearer to its end, or has ended. */
  ghost predicate CallWentOn(s: Sys.Sys, s': Sys.Sys, o: OrderId, env: Recovery.Env) {
    if o in s'.calls
    then InCall(s', o) && s'.world == s.world && Nearer(s, s', o)
    else Goes(s, s', o, env)
  }

  lemma CallTakes(s: Sys.Sys, o: OrderId, env: Recovery.Env) returns (e: Sys.Event, s': Sys.Sys)
    requires InCall(s, o)
    ensures e == Sys.CallStep(o, Alone.Stored(s.stock, s.calls[o])) && Takes(s, e, s', o, env)
  {
    e := Sys.CallStep(o, Alone.Stored(s.stock, s.calls[o]));
    Alone.StatementEnabled(s.stock, s.calls[o]);
    s' := Sys.Next(s, e);
  }

  lemma CallStatement(s: Sys.Sys, o: OrderId, e: Sys.Event, s': Sys.Sys, env: Recovery.Env)
    requires InCall(s, o) && e == Sys.CallStep(o, Alone.Stored(s.stock, s.calls[o])) && s' == Sys.Next(s, e)
    requires Stock.Enabled(s.stock, Stock.Exec(s.calls[o], e.loaded))
    ensures CallMoved(s, s', o, env)
  {
    UndisturbedStatement(s, o, e.loaded, env);
    NextKeeps(s.world, o, env);
    if o in s'.calls { SoonerIsNearer(s, s', o); }
  }

  lemma SoonerIsNearer(s: Sys.Sys, s': Sys.Sys, o: OrderId)
    requires o in s.calls && s'.calls == s.calls && s.calls[o] in s.stock.txns && s.calls[o] in s'.stock.txns
    requires Alone.Sooner(s'.stock.txns[s.calls[o]], s.stock.txns[s.calls[o]])
    ensures Nearer(s, s', o)
  {
  }

  lemma CallMovedOn(s: Sys.Sys, s': Sys.Sys, o: OrderId, env: Recovery.Env)
    requires s.calls.Keys == {o} && CallMoved(s, s', o, env) && Sys.Inv(s') && Leads(s, s', o, env)
    ensures CallWentOn(s, s', o, env)
  {
  }

  /** The next statement of the call brings it nearer to its end, or ends it. */
  lemma CallGoesOn(s: Sys.Sys, o: OrderId, env: Recovery.Env) returns (s': Sys.Sys)
    requires InCall(s, o)
    ensures Leads(s, s', o, env) && CallWentOn(s, s', o, env)
  {
    var e;
    e, s' := CallTakes(s, o, env);
    OneStep(s, e, s', o, env);
    CallStatement(s, o, e, s', env);
    CallMovedOn(s, s', o, env);
  }

  lemma {:induction false} CallRuns(s: Sys.Sys, o: OrderId, env: Recovery.Env) returns (s': Sys.Sys)
    requires InCall(s, o)
    ensures Goes(s, s', o, env)
    decreases PhaseOf(s, o), LeftOf(s, o)
  {
    var m := CallGoesOn(s, o, env);
    s' := m;
    if o in m.calls {
      s' := CallRuns(m, o, env);
      GoesOn(s, m, s', o, env);
    }
  }

  // ---- captures ----

  /** A capture of `o` is at `pc`, and nothing else is in flight. */
  ghost predicate InCapture(s: Sys.Sys, o: OrderId, r: Record, pc: Store.Pc) {
    && Sys.Inv(s) && s.calls == map[] && s.captures.Keys == {o} && s.captures[o] in s.pay.txns
    && s.pay.txns[s.captures[o]] == Store.Txn(JobOf(o, r), pc)
    && (o, r) in s.world.orders.Items && r.run.Some? && r.run.value.pc == Authorizing
  }

  /** One step of the capture. */
  lemma CaptureStatement(s: Sys.Sys, o: OrderId, step: Store.Step, s': Sys.Sys, env: Recovery.Env)
    requires Sys.Inv(s) && SaysEnv(step, env) && Takes(s, Sys.CaptureStep(o, step, false), s', o, env)
    ensures Sys.Inv(s') && Leads(s, s', o, env)
  {
    OneStep(s, Sys.CaptureStep(o, step, false), s', o, env);
  }

  lemma CaptureBegins(s: Sys.Sys, o: OrderId, r: Record, env: Recovery.Env) returns (s': Sys.Sys)
    requires Idle(s, o) && (o, r) in s.world.orders.Items && r.run.Some? && r.run.value.pc == Authorizing
    ensures InCapture(s', o, r, Store.Looking) && Leads(s, s', o, env) && s'.world == s.world
  {
    var t := FreshNat(s.pay.txns.Keys);
    s' := Sys.Next(s, Sys.BeginCapture(o, t));
    OneStep(s, Sys.BeginCapture(o, t), s', o, env);
  }

  lemma CaptureFound(s: Sys.Sys, o: OrderId, r: Record, hit: Store.Hit, env: Recovery.Env) returns (s': Sys.Sys)
    requires InCapture(s, o, r, Store.Looking) && Store.FindsByOrder(s.pay.rows, o, hit) && hit.At? && r.pay.Some?
    ensures Goes(s, s', o, env)
  {
    var t := s.captures[o];
    s' := Sys.CaptureNext(s, o, Store.Look(t, hit), false);
    CaptureStatement(s, o, Store.Look(t, hit), s', env);
    FoundReplies(s, o, t, hit);
    AnsweredIsNext(s.world, o, Charge(false, "", ""), env);
  }

  lemma Dropped(s: Sys.Sys, o: OrderId, r: Record, env: Recovery.Env) returns (s': Sys.Sys)
    requires Idle(s, o) && (o, r) in s.world.orders.Items && r.run.Some? && r.run.value.pc == Authorizing && r.pay == None && !Chargeable(r)
    ensures Goes(s, s', o, env)
  {
    s' := Sys.Next(s, Sys.SagaStep(Drop(o)));
    OneStep(s, Sys.SagaStep(Drop(o)), s', o, env);
    assert s'.calls == map[] && s'.captures == map[];
  }

  lemma CaptureRefused(s: Sys.Sys, o: OrderId, r: Record, env: Recovery.Env) returns (s': Sys.Sys)
    requires InCapture(s, o, r, Store.Looking) && Store.FindsByOrder(s.pay.rows, o, Store.Nowhere) && r.pay == None && !Chargeable(r)
    ensures Goes(s, s', o, env)
  {
    var step := Store.Look(s.captures[o], Store.Nowhere);
    var m := Sys.CaptureNext(s, o, step, false);
    CaptureStatement(s, o, step, m, env);
    assert m.captures == map[];
    s' := Dropped(m, o, r, env);
    GoesOn(s, m, s', o, env);
  }

  lemma CaptureOpens(s: Sys.Sys, o: OrderId, r: Record, env: Recovery.Env) returns (s': Sys.Sys)
    requires InCapture(s, o, r, Store.Looking) && Store.FindsByOrder(s.pay.rows, o, Store.Nowhere) && Chargeable(r)
    ensures InCapture(s', o, r, Store.Charging) && Leads(s, s', o, env) && s'.world == s.world && s'.pay.rows == s.pay.rows
  {
    var step := Store.Look(s.captures[o], Store.Nowhere);
    s' := Sys.CaptureNext(s, o, step, false);
    CaptureStatement(s, o, step, s', env);
  }

  lemma FreshPayId(pay: Store.State) returns (id: nat)
    ensures Store.FreshId(pay, id)
  {
    var txns := pay.txns;
    var saving := set u | u in txns && txns[u].pc.Saving? :: txns[u].pc.pay.id;
    id := FreshNat(pay.rows.Keys + saving);
    forall u | u in txns && txns[u].pc.Saving? ensures txns[u].pc.pay.id != id { assert txns[u].pc.pay.id in saving; }
  }

  lemma CaptureCharges(s: Sys.Sys, o: OrderId, r: Record, env: Recovery.Env) returns (s': Sys.Sys, id: nat)
    requires InCapture(s, o, r, Store.Charging)
    ensures InCapture(s', o, r, Store.Saving(ChargedFor(o, r, id, env))) && Leads(s, s', o, env)
    ensures s'.world == s.world && s'.pay.rows == s.pay.rows
  {
    id := FreshPayId(s.pay);
    var step := Store.Charge(s.captures[o], id, Store.Answer(env.approved, Some(env.reference), Some(env.why)));
    s' := Sys.CaptureNext(s, o, step, false);
    CaptureStatement(s, o, step, s', env);
  }

  lemma SavedIdle(s: Sys.Sys, o: OrderId, s': Sys.Sys, env: Recovery.Env)
    requires s.calls == map[] && s.captures.Keys == {o} && Sys.Inv(s')
    requires o in s.world.orders && s.world.orders[o].run.Some? && s'.world == NextWorld(s.world, o, env)
    requires s'.calls == s.calls && s'.captures == s.captures - {o}
    ensures Idle(s', o)
  {
  }

  lemma CaptureSaves(s: Sys.Sys, o: OrderId, r: Record, id: nat, env: Recovery.Env) returns (s': Sys.Sys)
    requires InCapture(s, o, r, Store.Saving(ChargedFor(o, r, id, env)))
    requires Store.FindsByOrder(s.pay.rows, o, Store.Nowhere) && r.pay == None && Chargeable(r)
    ensures Goes(s, s', o, env)
  {
    SaveIsNext(s, o, id, env);
    var e := Sys.CaptureStep(o, Store.Save(s.captures[o], Store.Nowhere, false), false);
    s' := Sys.Next(s, e);
    OneStep(s, e, s', o, env);
    SavedIdle(s, o, s', env);
  }

  lemma CaptureRuns(s: Sys.Sys, o: OrderId, r: Record, env: Recovery.Env) returns (s': Sys.Sys)
    requires InCapture(s, o, r, Store.Looking)
    ensures Goes(s, s', o, env)
  {
    var hit := FindPayment(s, o);
    if hit.At? {
      s' := CaptureFound(s, o, r, hit, env);
    } else if !Chargeable(r) {
      s' := CaptureRefused(s, o, r, env);
    } else {
      var m := CaptureOpens(s, o, r, env);
      var n, id := CaptureCharges(m, o, r, env);
      s' := CaptureSaves(n, o, r, id, env);
      GoesOn(m, n, s', o, env);
      GoesOn(s, m, s', o, env);
    }
  }

  // ---- the next statement ----

  lemma LocalStatement(s: Sys.Sys, o: OrderId, r: Record, env: Recovery.Env) returns (s': Sys.Sys)
    requires Idle(s, o) && Logless(s.world, o) && (o, r) in s.world.orders.Items && CallOf(o, r) == None && r.run.Some? && r.run.value.pc != Authorizing
    ensures Goes(s, s', o, env)
  {
    var l := Act(o, Recovery.AloneAnswer(s.world.db, o, r, env));
    s' := Sys.Next(s, Sys.SagaStep(l));
    OneStep(s, Sys.SagaStep(l), s', o, env);
  }

  /** The next statement, if the log has no part in it, as a run of the handler's own steps. */
  lemma StatementRuns(s: Sys.Sys, o: OrderId, env: Recovery.Env) returns (s': Sys.Sys)
    requires Idle(s, o) && Logless(s.world, o)
    ensures Goes(s, s', o, env)
  {
    var r := s.world.orders[o];
    if CallOf(o, r).Some? {
      var m := CallBegins(s, o, r, env);
      s' := CallRuns(m, o, env);
      GoesOn(s, m, s', o, env);
    } else if r.run.value.pc == Authorizing {
      var m := CaptureBegins(s, o, r, env);
      s' := CaptureRuns(m, o, r, env);
      GoesOn(s, m, s', o, env);
    } else {
      s' := LocalStatement(s, o, r, env);
    }
  }

  // ---- the saga's world ----

  /** A handler without faults cannot end the saga, from where it is or from the start. */
  predicate DoomedRecord(db: Db, o: OrderId, r: Record, env: Recovery.Env) {
    if r.run == None then Recovery.Doomed(db, o, r, env)
    else Recovery.DoomedAt(db, o, r, env) && (r.run.value.pc == SavingPaid ==> r.pay.Some? && Approved(r.pay.value))
  }

  predicate DoomedWorld(w: World, o: OrderId, env: Recovery.Env) {
    o in w.orders && DoomedRecord(w.db, o, w.orders[o], env)
  }

  lemma DoomedNotEnded(w: World, o: OrderId, env: Recovery.Env)
    requires Saga.Inv(w) && DoomedWorld(w, o, env)
    ensures !Recovery.Ended(w.orders[o])
  {
    assert OrderOk(w.orders[o], ResOf(w.db, o));
  }

  lemma DroppedDoomed(w: World, o: OrderId, env: Recovery.Env)
    requires Saga.Inv(w) && DoomedWorld(w, o, env) && w.orders[o].run.Some?
    ensures DoomedWorld(Saga.Step(w, Drop(o)), o, env)
  {
    assert OrderOk(w.orders[o], ResOf(w.db, o));
  }

  lemma NextDoomed(w: World, o: OrderId, env: Recovery.Env)
    requires Saga.Inv(w) && DoomedWorld(w, o, env) && w.orders[o].run.Some?
    ensures DoomedWorld(NextWorld(w, o, env), o, env)
  {
    var r := w.orders[o];
    assert OrderOk(r, ResOf(w.db, o));
    if MayAct(w.db, o, r, Recovery.AloneAnswer(w.db, o, r, env)) {
      Recovery.StepDoom(w, o, env);
    } else {
      DroppedDoomed(w, o, env);
    }
  }

  function SaidBy(env: Recovery.Env): Answer {
    Charge(env.approved, env.reference, env.why)
  }

  /** What one of the order's own steps may do to the saga's world. */
  predicate Moves(w: World, w': World, o: OrderId, env: Recovery.Env) {
    && o in w.orders
    && (|| w' == w
        || if w.orders[o].run == None then w' == Saga.Step(w, Deliver(o))
           else w' == NextWorld(w, o, env) || w' == Saga.Step(w, Drop(o)) || w' == Saga.Step(w, Recharge(o, SaidBy(env))))
  }

  lemma MovesDoomed(w: World, w': World, o: OrderId, env: Recovery.Env)
    requires Saga.Inv(w) && DoomedWorld(w, o, env) && Moves(w, w', o, env)
    ensures DoomedWorld(w', o, env)
  {
    if w.orders[o].run == None {
      Recovery.LoadingDoom(w, o, env);
    } else {
      NextDoomed(w, o, env);
      DroppedDoomed(w, o, env);
    }
  }

  // ---- a definite answer is the only one ----

  /** An answer that moves the handler on is the one that an inventory of its own gives. */
  lemma DefiniteIsAlone(w: World, o: OrderId, a: Answer)
    requires Saga.Inv(w) && Saga.Enabled(w, Act(o, a)) && CallOf(o, w.orders[o]).Some? && a.Inventory?
    ensures var call := CallOf(o, w.orders[o]).value; Alone.Alike(call, a.outcome, Recovery.Alone(w.db, call))
  {
    var call := CallOf(o, w.orders[o]).value;
    if call.ReserveCall? && (a.outcome.UnknownSku? || a.outcome.Insufficient?) {
      Recovery.RefusalIsRefusable(w.db, call, a.outcome);
      Recovery.FirstRefusedSpec(w.db.stock, call.lines);
    }
  }

  lemma CallActIsNext(w: World, o: OrderId, a: Answer, env: Recovery.Env)
    requires Saga.Inv(w) && Saga.Enabled(w, Act(o, a)) && CallOf(o, w.orders[o]).Some?
    ensures Saga.Step(w, Act(o, a)) == NextWorld(w, o, env)
  {
    DefiniteIsAlone(w, o, a);
    assert Sys.AnswerLabel(o, CallOf(o, w.orders[o]).value, a.outcome) == Act(o, a);
    AnswerIsNext(w, o, CallOf(o, w.orders[o]).value, a.outcome, env);
  }

  lemma ActIsNext(w: World, o: OrderId, a: Answer, env: Recovery.Env)
    requires Saga.Inv(w) && Saga.Enabled(w, Act(o, a))
    requires w.orders[o].run.value.pc == Authorizing && w.orders[o].pay == None ==>
      Captured(w.orders[o], a) == Captured(w.orders[o], SaidBy(env))
    ensures Saga.Step(w, Act(o, a)) == NextWorld(w, o, env)
  {
    if CallOf(o, w.orders[o]).Some? {
      CallActIsNext(w, o, a, env);
    } else if w.orders[o].run.value.pc == Authorizing {
      AnsweredIsNext(w, o, a, env);
    }
  }

  /** The label of a call or a command, if it can happen at all. */
  lemma LabelMoves(w: World, l: Label, o: OrderId, env: Recovery.Env)
    requires Saga.Inv(w) && o in w.orders && w.orders[o].run.Some?
    requires l.Act? || l == Drop(o) || (l.Recharge? && l.order == o)
    requires l.Act? ==> l.order == o
    requires (l.Act? || l.Recharge?) && w.orders[o].run.value.pc == Authorizing && w.orders[o].pay == None && l.answer.Charge? ==>
      Captured(w.orders[o], l.answer) == Captured(w.orders[o], SaidBy(env))
    ensures Moves(w, Saga.Step(w, l), o, env)
  {
    if l.Act? && Saga.Enabled(w, l) { ActIsNext(w, o, l.answer, env); }
  }

  // ---- the provider's answer in flight ----

  /** A capture of `o` that is about to store a payment has the answer of `env`. */
  predicate Told(s: Sys.Sys, o: OrderId, env: Recovery.Env) {
    o in s.world.orders && o in s.captures && s.captures[o] in s.pay.txns && s.pay.txns[s.captures[o]].pc.Saving? ==>
      var p := s.pay.txns[s.captures[o]].pc.pay; p == ChargedFor(o, s.world.orders[o], p.id, env)
  }

  /** The reply to the handler, if there is one: what is stored, or what the provider said. */
  lemma ReplyTold(s: Sys.Sys, o: OrderId, step: Store.Step, lost: bool, env: Recovery.Env)
    requires Sys.Inv(s) && Told(s, o, env) && Sys.MayHappen(s, Sys.CaptureStep(o, step, lost))
    requires Store.Apply(s.pay, step).replies != s.pay.replies
    ensures o in s.world.orders && s.world.orders[o].run.Some?
    ensures var r, a := s.world.orders[o], Sys.ChargeOf(s.pay, step);
      r.pay == None ==> Captured(r, a) == Captured(r, SaidBy(env))
  {
    var r, t := s.world.orders[o], s.captures[o];
    CaptureInFlight(s, o);
    CaptureAnswers(s.pay, step, t);
    assert Sys.PayMatches(s.pay.rows, o, r.pay);
  }

  // ---- one step ----

  lemma CallEndMoves(w: World, o: OrderId, call: Stock.Call, outcome: Stock.Outcome, env: Recovery.Env)
    requires Saga.Reachable(w) && o in w.orders && w.orders[o].run.Some?
    ensures Moves(w, Saga.Step(w, Sys.AnswerLabel(o, call, outcome)), o, env)
  {
    Saga.ReachableInv(w);
    LabelMoves(w, Sys.AnswerLabel(o, call, outcome), o, env);
  }

  lemma CallStepTold(s: Sys.Sys, o: OrderId, loaded: seq<Line>, env: Recovery.Env)
    requires Sys.Inv(s) && Told(s, o, env) && o in s.world.orders && Sys.MayHappen(s, Sys.CallStep(o, loaded))
    ensures var s' := Sys.Next(s, Sys.CallStep(o, loaded)); Moves(s.world, s'.world, o, env) && s'.captures == s.captures && s'.pay == s.pay
  {
    var t := s.calls[o];
    var stock' := Stock.Apply(s.stock, Stock.Exec(t, loaded));
    if !stock'.txns[t].Active() {
      CallEndMoves(s.world, o, s.stock.txns[t].call, stock'.txns[t].pc.outcome, env);
    }
  }

  lemma ReplyMoves(s: Sys.Sys, o: OrderId, step: Store.Step, lost: bool, env: Recovery.Env)
    requires Sys.Inv(s) && Told(s, o, env) && o in s.world.orders && Sys.MayHappen(s, Sys.CaptureStep(o, step, lost))
    requires Store.Apply(s.pay, step).replies != s.pay.replies
    ensures Moves(s.world, Saga.Step(s.world, AnsweredLabel(o, Sys.ChargeOf(s.pay, step), lost)), o, env)
  {
    Saga.ReachableInv(s.world);
    ReplyTold(s, o, step, lost, env);
    LabelMoves(s.world, AnsweredLabel(o, Sys.ChargeOf(s.pay, step), lost), o, env);
  }

  lemma StaysTold(s: Sys.Sys, o: OrderId, step: Store.Step, lost: bool, env: Recovery.Env)
    requires Told(s, o, env) && o in s.world.orders && Sys.MayHappen(s, Sys.CaptureStep(o, step, lost)) && SaysEnv(step, env)
    requires s.captures[o] in s.pay.txns && Sys.CaptureMatches(o, s.world.orders[o], s.pay.txns[s.captures[o]])
    ensures Told(s.(pay := Store.Apply(s.pay, step)), o, env)
  {
  }

  lemma CaptureStepTold(s: Sys.Sys, o: OrderId, step: Store.Step, lost: bool, env: Recovery.Env)
    requires Sys.Inv(s) && Told(s, o, env) && o in s.world.orders && Sys.MayHappen(s, Sys.CaptureStep(o, step, lost)) && SaysEnv(step, env)
    ensures var s' := Sys.Next(s, Sys.CaptureStep(o, step, lost)); Moves(s.world, s'.world, o, env) && Told(s', o, env)
  {
    var pay' := Store.Apply(s.pay, step);
    CaptureInFlight(s, o);
    StaysTold(s, o, step, lost, env);
    if pay'.txns[step.txn].pc.Ended? && pay'.replies != s.pay.replies { ReplyMoves(s, o, step, lost, env); }
  }

  lemma SagaStepTold(s: Sys.Sys, l: Label, o: OrderId, env: Recovery.Env)
    requires Sys.Inv(s) && Told(s, o, env) && o in s.world.orders && Sys.MayHappen(s, Sys.SagaStep(l))
    requires (l.Deliver? || l.Act? || l.Drop?) && l.order == o
    ensures var s' := Sys.Next(s, Sys.SagaStep(l)); Moves(s.world, s'.world, o, env) && Told(s', o, env)
  {
    Saga.ReachableInv(s.world);
    if l.Act? { ActIsNext(s.world, o, l.answer, env); }
  }

  lemma PartTold(s: Sys.Sys, e: Sys.Event, o: OrderId, env: Recovery.Env)
    requires Sys.Inv(s) && Told(s, o, env) && o in s.world.orders && Sys.MayHappen(s, e) && OwnPart(e, o, env)
    ensures var s' := Sys.Next(s, e); Moves(s.world, s'.world, o, env) && Told(s', o, env)
  {
    match e
    case SagaStep(l) => SagaStepTold(s, l, o, env);
    case BeginCall(_, _) =>
    case CallStep(_, loaded) =>
      CallStepTold(s, o, loaded, env);
    case BeginCapture(_, _) =>
    case CaptureStep(_, step, lost) => CaptureStepTold(s, o, step, lost, env);
    case _ =>
  }
}
