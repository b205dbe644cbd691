/**
  Recovery in the composed system. With no call of any handler in flight, a delivered
  order has a run of its own steps, one statement after the other, that does to the
  saga's world what a handler without faults does to it; and from a doomed state no run
  of its own steps, while the provider answers as it does, ends its saga.
*/
module EndToEndRecovery {
  import opened Results
  import opened StockLedger
  import opened Saga
  import opened EndToEnd
  import opened SystemRecovery
  import Sys = System
  import Recovery = SagaRecovery
  import Parts = SystemRecovery
  import Log = EventStore
  import Logs = EventStoreInvariant
  import Topic = EventStream
  import Order = OrderAggregate

  // ---- an order's own steps ----

  /** A step of the handler of `o`, of its calls, captures and commands, or a delivery to it. */
  predicate Own(h: Happening, o: OrderId, env: Recovery.Env) {
    match h
    case Part(e) => OwnPart(e, o, env)
    case BeginCommand(p, _, _) => p == o
    case CommandStep(p) => p == o
    case _ => false
  }

  ghost predicate OwnRun(d: Whole, hs: seq<Happening>, d': Whole, o: OrderId, env: Recovery.Env)
    decreases |hs|
  {
    if hs == [] then d == d' else May(d, hs[0]) && Own(hs[0], o, env) && OwnRun(Do(d, hs[0]), hs[1..], d', o, env)
  }

  ghost predicate Leads(d: Whole, d': Whole, o: OrderId, env: Recovery.Env) {
    exists hs :: OwnRun(d, hs, d', o, env)
  }

  ghost predicate Takes(d: Whole, h: Happening, d': Whole, o: OrderId, env: Recovery.Env) {
    May(d, h) && Own(h, o, env) && d' == Do(d, h)
  }

  lemma LeadsFirst(d: Whole, h: Happening, m: Whole, d': Whole, o: OrderId, env: Recovery.Env)
    requires Takes(d, h, m, o, env) && Leads(m, d', o, env)
    ensures Leads(d, d', o, env)
  {
    var hs :| OwnRun(m, hs, d', o, env);
    assert ([h] + hs)[1..] == hs;
    assert OwnRun(d, [h] + hs, d', o, env);
  }

  lemma {:induction false} RunsOn(d: Whole, hs: seq<Happening>, m: Whole, d': Whole, o: OrderId, env: Recovery.Env)
    requires OwnRun(d, hs, m, o, env) && Leads(m, d', o, env)
    ensures Leads(d, d', o, env)
    decreases |hs|
  {
    if hs != [] {
      var n := Do(d, hs[0]);
      RunsOn(n, hs[1..], m, d', o, env);
      LeadsFirst(d, hs[0], n, d', o, env);
    }
  }

  lemma LeadsOn(d: Whole, m: Whole, d': Whole, o: OrderId, env: Recovery.Env)
    requires Leads(d, m, o, env) && Leads(m, d', o, env)
    ensures Leads(d, d', o, env)
  {
    var hs :| OwnRun(d, hs, m, o, env);
    RunsOn(d, hs, m, d', o, env);
  }

  /** Nothing is in flight. */
  ghost predicate Idle(d: Whole, o: OrderId) {
    EndToEnd.Inv(d) && o in OrdersOf(d) && d.sys.calls == map[] && d.sys.captures == map[] && d.commands == map[]
  }

  /** The saga of `o` has taken its next statement, and nothing is in flight. */
  ghost predicate Arrives(d: Whole, d': Whole, o: OrderId, env: Recovery.Env) {
    && o in OrdersOf(d) && OrdersOf(d)[o].run.Some?
    && Idle(d', o) && d'.sys.world == NextWorld(d.sys.world, o, env)
  }

  ghost predicate Goes(d: Whole, d': Whole, o: OrderId, env: Recovery.Env) {
    Arrives(d, d', o, env) && Leads(d, d', o, env)
  }

  // ---- statements in which the log has no part ----

  /** A run of the handler's own steps on the composed system is one here. */
  lemma {:induction false} PartsRun(d: Whole, es: seq<Sys.Event>, s': Sys.Sys, o: OrderId, env: Recovery.Env)
    requires EndToEnd.Inv(d) && d.commands == map[] && Parts.OwnRun(d.sys, es, s', o, env)
    ensures EndToEnd.Inv(d.(sys := s')) && Leads(d, d.(sys := s'), o, env)
    decreases |es|
  {
    if es == [] {
      assert OwnRun(d, [], d, o, env);
    } else {
      var h := Part(es[0]);
      var m := Do(d, h);
      HappeningKeeps(d, h);
      PartsRun(m, es[1..], s', o, env);
      LeadsFirst(d, h, m, d.(sys := s'), o, env);
    }
  }

  lemma PartsGo(d: Whole, o: OrderId, env: Recovery.Env) returns (d': Whole)
    requires Idle(d, o) && Parts.Logless(d.sys.world, o)
    ensures Goes(d, d', o, env)
  {
    PartsInv(d.sys);
    var s' := Parts.StatementRuns(d.sys, o, env);
    var es :| Parts.OwnRun(d.sys, es, s', o, env);
    PartsRun(d, es, s', o, env);
    d' := d.(sys := s');
  }

  // ---- confirm and cancel ----

  function Statements(pc: Log.Pc): nat {
    match pc
    case Loading => 4
    case InsertingEvent(_) => 3
    case InsertingOutbox(_) => 2
    case Committing => 1
    case Ended(_) => 0
  }

  /** A command whose view of its order's log is not outdated. */
  predicate UpToDate(x: Log.Writer, history: seq<Order.Event>) {
    x.job.Commanding? && x.Active() && (x.pc.InsertingEvent? ==> x.Expected() == |history|)
  }

  /** Nobody has inserted the version that the only command of an order inserts. */
  lemma NobodyHasVersion(store: Log.State, t: Log.TxnId)
    requires Log.Reachable(store) && t in store.writers && store.writers[t].job.Commanding? && store.writers[t].Active()
    requires forall u | u in store.writers && u != t && store.writers[u].Active() && store.writers[u].job.Commanding? ::
      store.writers[u].order != store.writers[t].order
    ensures Log.Enabled(store, Log.Exec(t))
  {
    Logs.ReachableWriter(store, t);
    PlacersReachable(store);
    forall u | u in store.writers ensures !Log.WaitsFor(store, t, u) {
      Logs.ReachableWriter(store, u);
      assert Placer(store.writers[u]);
    }
  }

  /** What a load comes to: the end, or one event at the end of the log that was read. */
  predicate LoadedWell(x: Log.Writer, x': Log.Writer, history: seq<Order.Event>)
    requires x.job.Commanding?
  {
    if x'.Active() then Statements(x'.pc) < 4 && UpToDate(x', history)
    else EndsWell(x.job.command, history, x'.pc)
  }

  /** Success, or a refusal for good. */
  predicate EndsWell(c: Order.Command, history: seq<Order.Event>, pc: Log.Pc) {
    pc == Log.Ended(Log.Saved) || pc == Log.Ended(Log.NoChange)
    || (pc.Ended? && pc.outcome.Refused? && Logs.Hopeless(c, history))
  }

  lemma LoadComesTo(store: Log.State, x: Log.Writer)
    requires x.job.Commanding? && x.pc == Log.Loading && x.ids == []
    requires x.order in store.log ==> Order.GoodLog(x.order, store.log[x.order]) && Log.Validated(store.log[x.order][0])
    ensures LoadedWell(x, Log.LoadStatement(store, x), Log.LogAt(store, x.order))
  {
    Logs.LoadDecides(store, x);
    Logs.DecidesUnlessHopeless(store, x);
    Logs.LoadHasRead(store, x);
  }

  lemma StoredLogIsGood(store: Log.State, o: OrderId)
    requires Log.Reachable(store)
    ensures o in store.log ==> Order.GoodLog(o, store.log[o]) && Log.Validated(store.log[o][0])
  {
    Logs.ReachableInv(store);
  }

  lemma LoadingWriter(store: Log.State, t: Log.TxnId)
    requires Log.Reachable(store) && t in store.writers && store.writers[t].pc == Log.Loading
    ensures store.writers[t].ids == [] && store.writers[t].job.Commanding?
  {
    Logs.ReachableWriter(store, t);
  }

  lemma SaveAlone(store: Log.State, t: Log.TxnId)
    requires Log.Reachable(store) && Log.Enabled(store, Log.Exec(t)) && store.writers[t].Saving() && !store.writers[t].pc.Committing?
    requires UpToDate(store.writers[t], Log.LogAt(store, store.writers[t].order))
    ensures var x' := Logs.Statement(store, store.writers[t]);
      UpToDate(x', Log.LogAt(store, store.writers[t].order)) && Statements(x'.pc) < Statements(store.writers[t].pc)
  {
    Logs.ReachableWriter(store, t);
  }

  /** The next statement brings the command nearer to its end, or ends it as the log demands. */
  lemma CommandAlone(store: Log.State, t: Log.TxnId)
    requires Log.Reachable(store) && Log.Enabled(store, Log.Exec(t))
    requires UpToDate(store.writers[t], Log.LogAt(store, store.writers[t].order))
    ensures t in Log.Apply(store, Log.Exec(t)).writers
    ensures var x, store' := store.writers[t], Log.Apply(store, Log.Exec(t));
      if store'.writers[t].Active()
      then UpToDate(store'.writers[t], Log.LogAt(store', x.order)) && Statements(store'.writers[t].pc) < Statements(x.pc)
      else EndsWell(x.job.command, Log.LogAt(store, x.order), store'.writers[t].pc)
  {
    ExecChanges(store, t);
    var x := store.writers[t];
    if x.pc == Log.Loading {
      LoadingWriter(store, t);
      StoredLogIsGood(store, x.order);
      LoadComesTo(store, x);
    } else if !x.pc.Committing? {
      SaveAlone(store, t);
    }
  }

  /** A command of `o` is under way, and nothing else is in flight. */
  ghost predicate InCommand(d: Whole, o: OrderId) {
    && EndToEnd.Inv(d) && o in OrdersOf(d) && d.sys.calls == map[] && d.sys.captures == map[]
    && d.commands.Keys == {o} && d.commands[o] in WritersOf(d)
    && UpToDate(WritersOf(d)[d.commands[o]], Log.LogAt(d.stream.store, o))
  }

  lemma CommandBegins(d: Whole, o: OrderId, r: Record, env: Recovery.Env) returns (d': Whole)
    requires Idle(d, o) && (o, r) in OrdersOf(d).Items && CommandOf(r).Some?
    ensures InCommand(d', o) && Leads(d, d', o, env) && d'.sys == d.sys
  {
    var t := Parts.FreshNat(WritersOf(d).Keys);
    var h := BeginCommand(o, t, 0);
    HappeningKeeps(d, h);
    d' := Do(d, h);
    assert OwnRun(d', [], d', o, env);
    CommandBegun(d, o, r, t, d');
    LeadsFirst(d, h, d', d', o, env);
  }

  lemma CommandBegun(d: Whole, o: OrderId, r: Record, t: Log.TxnId, d': Whole)
    requires Idle(d, o) && (o, r) in OrdersOf(d).Items && CommandOf(r).Some? && t !in WritersOf(d)
    requires d' == Do(d, BeginCommand(o, t, 0)) && EndToEnd.Inv(d')
    ensures May(d, BeginCommand(o, t, 0)) && InCommand(d', o) && d'.sys == d.sys
  {
  }

  lemma OnlyCommand(d: Whole, o: OrderId)
    requires InCommand(d, o)
    ensures May(d, CommandStep(o)) && CommandMatches(o, OrdersOf(d)[o], WritersOf(d)[d.commands[o]])
  {
    StoreReachable(d.stream);
    assert CommandMatches(o, OrdersOf(d)[o], WritersOf(d)[d.commands[o]]);
    NobodyHasVersion(d.stream.store, d.commands[o]);
  }

  /** The end of a command is the saga's next statement. */
  lemma CommandIsNext(s: Sys.Sys, o: OrderId, r: Record, history: seq<Order.Event>, outcome: Log.Outcome, env: Recovery.Env)
    requires (o, r) in s.world.orders.Items && LogMatches(r, history) && Order.GoodLog(o, history) && CommandOf(r).Some?
    requires if outcome == Log.Saved || outcome == Log.NoChange then MayAct(Db(map[], map[]), o, r, NoAnswer)
      else Logs.Hopeless(CommandOf(r).value, history)
    requires s.calls == map[] && s.captures == map[]
    ensures CommandMoved(s, Sys.Next(s, Sys.SagaStep(CommandLabel(o, outcome))), o, env)
  {
  }

  predicate CommandMoved(s: Sys.Sys, s': Sys.Sys, o: OrderId, env: Recovery.Env) {
    && o in s.world.orders && s.world.orders[o].run.Some? && s'.world == NextWorld(s.world, o, env)
    && s'.calls == map[] && s'.captures == map[] && o in s'.world.orders
  }

  function StatementsOf(d: Whole, o: OrderId): nat {
    if o in d.commands && d.commands[o] in WritersOf(d) then Statements(WritersOf(d)[d.commands[o]].pc) else 0
  }

  /** What a statement of the command changes. */
  predicate CommandWent(d: Whole, d': Whole, o: OrderId, env: Recovery.Env) {
    if o in d'.commands
    then d'.sys == d.sys && d'.commands == d.commands && d.commands[o] in WritersOf(d')
      && UpToDate(WritersOf(d')[d.commands[o]], Log.LogAt(d'.stream.store, o)) && StatementsOf(d', o) < StatementsOf(d, o)
    else d'.commands == map[] && CommandMoved(d.sys, d'.sys, o, env)
  }

  lemma CommandEnds(d: Whole, o: OrderId, stream': Topic.Stream, x': Log.Writer, outcome: Log.Outcome, env: Recovery.Env)
    requires InCommand(d, o) && CommandWrites(d, o, stream', x') && x'.pc == Log.Ended(outcome)
    ensures CommandMoved(d.sys, Sys.Next(d.sys, Sys.SagaStep(CommandLabel(o, outcome))), o, env)
  {
    OnlyCommand(d, o);
    StoreReachable(d.stream);
    var store, t := d.stream.store, d.commands[o];
    CommandAlone(store, t);
    Logs.LogAndOutbox(store, o);
    assert LogMatches(OrdersOf(d)[o], LogOf(d)[o]);
    if outcome == Log.Saved || outcome == Log.NoChange {
      SuccessStore(d, o, stream', x');
    }
    CommandIsNext(d.sys, o, OrdersOf(d)[o], LogOf(d)[o], outcome, env);
  }

  lemma CommandStatement(d: Whole, o: OrderId, d': Whole, env: Recovery.Env)
    requires InCommand(d, o) && Takes(d, CommandStep(o), d', o, env)
    ensures CommandWent(d, d', o, env)
  {
    StoreReachable(d.stream);
    CommandAlone(d.stream.store, d.commands[o]);
    var x' := Write(d.stream, Log.Exec(d.commands[o])).store.writers[d.commands[o]];
    if x'.pc.Ended? {
      CommandEnds(d, o, Write(d.stream, Log.Exec(d.commands[o])), x', x'.pc.outcome, env);
      assert d.commands - {o} == map[];
    }
  }

  /** The command is under way and nearer to its end, or has ended. */
  lemma CommandWentOn(d: Whole, d': Whole, o: OrderId, env: Recovery.Env)
    requires o in OrdersOf(d) && d.sys.calls == map[] && d.sys.captures == map[] && d.commands.Keys == {o}
    requires CommandWent(d, d', o, env) && EndToEnd.Inv(d')
    ensures if o in d'.commands then InCommand(d', o) && d'.sys == d.sys && StatementsOf(d', o) < StatementsOf(d, o) else Arrives(d, d', o, env)
  {
  }

  lemma {:induction false} CommandRuns(d: Whole, o: OrderId, env: Recovery.Env) returns (d': Whole)
    requires InCommand(d, o)
    ensures Goes(d, d', o, env)
    decreases StatementsOf(d, o)
  {
    OnlyCommand(d, o);
    var m := Do(d, CommandStep(o));
    HappeningKeeps(d, CommandStep(o));
    CommandStatement(d, o, m, env);
    CommandWentOn(d, m, o, env);
    if o in m.commands {
      d' := CommandRuns(m, o, env);
    } else {
      d' := m;
      assert OwnRun(m, [], m, o, env);
    }
    LeadsFirst(d, CommandStep(o), m, d', o, env);
  }

  // ---- a whole handler ----

  lemma StatementGoes(d: Whole, o: OrderId, r: Record, env: Recovery.Env) returns (d': Whole)
    requires Idle(d, o) && (o, r) in OrdersOf(d).Items && r.run.Some?
    ensures Goes(d, d', o, env)
  {
    if CommandOf(r).Some? {
      var m := CommandBegins(d, o, r, env);
      d' := CommandRuns(m, o, env);
      LeadsOn(d, m, d', o, env);
    } else {
      d' := PartsGo(d, o, env);
    }
  }

  /** Statements to come at most. */
  function Ahead(d: Whole, o: OrderId): nat {
    if o in OrdersOf(d) && OrdersOf(d)[o].run.Some? then 1 + Recovery.Left(OrdersOf(d)[o].run.value.pc) else 0
  }

  ghost predicate Finishes(d: Whole, d': Whole, o: OrderId, env: Recovery.Env) {
    o in OrdersOf(d) && Idle(d', o) && Leads(d, d', o, env) && d'.sys.world == Recovery.Finish(d.sys.world, o, env)
  }

  lemma {:induction false} HandlerRuns(d: Whole, o: OrderId, env: Recovery.Env) returns (d': Whole)
    requires Idle(d, o)
    ensures Finishes(d, d', o, env)
    decreases Ahead(d, o)
  {
    var r := OrdersOf(d)[o];
    if r.run == None {
      assert OwnRun(d, [], d, o, env);
      d' := d;
    } else {
      WorldReachable(d);
      NextIsNearer(d.sys.world, o, env);
      var m := StatementGoes(d, o, r, env);
      d' := HandlerRuns(m, o, env);
      LeadsOn(d, m, d', o, env);
    }
  }

  lemma WorldReachable(d: Whole)
    requires EndToEnd.Inv(d)
    ensures Saga.Reachable(d.sys.world)
  {
    PartsInv(d.sys);
  }

  lemma Delivered(d: Whole, o: OrderId, r: Record, env: Recovery.Env) returns (d': Whole)
    requires Idle(d, o) && (o, r) in OrdersOf(d).Items && r.run == None && OnTopic(d.stream, o)
    ensures Idle(d', o) && Leads(d, d', o, env) && Redelivers(d.sys.world, d'.sys.world, o)
  {
    var h := Part(Sys.SagaStep(Deliver(o)));
    HappeningKeeps(d, h);
    d' := Do(d, h);
    assert OwnRun(d', [], d', o, env);
    LeadsFirst(d, h, d', d', o, env);
  }

  predicate Redelivers(w: World, w': World, o: OrderId) {
    Saga.Enabled(w, Deliver(o)) && w' == Saga.Step(w, Deliver(o))
  }

  /** A run of the order's own steps that does what a redelivery and a handler without faults do, and leaves nothing in flight. */
  ghost predicate Recovers(d: Whole, d': Whole, o: OrderId, env: Recovery.Env) {
    && EndToEnd.Reachable(d') && Idle(d', o) && Leads(d, d', o, env)
    && Saga.Enabled(d.sys.world, Deliver(o)) && d'.sys.world == Recovery.Redelivered(d.sys.world, o, env)
  }

  lemma {:induction false} OwnRunReaches(d: Whole, hs: seq<Happening>, d': Whole, o: OrderId, env: Recovery.Env)
    requires EndToEnd.Reachable(d) && OwnRun(d, hs, d', o, env)
    ensures EndToEnd.Reachable(d')
    decreases |hs|
  {
    if hs != [] {
      EndToEnd.ReachStep(d, hs[0]);
      OwnRunReaches(Do(d, hs[0]), hs[1..], d', o, env);
    }
  }

  /**
    Recovery of everything. From every reachable state with no handler's call in
    flight, in which the order's placement is on the topic and its handler is gone,
    there is a run of the order's own steps, statement by statement on inventory,
    payments and logs, that does what a handler without faults does; and that run ends
    the saga if and only if the state is not doomed.
  */
  lemma ComposedRecovery(d: Whole, o: OrderId, env: Recovery.Env)
    requires EndToEnd.Reachable(d) && o in OrdersOf(d) && OrdersOf(d)[o].run == None && OnTopic(d.stream, o)
    requires d.sys.calls == map[] && d.sys.captures == map[] && d.commands == map[]
    ensures exists d' :: Recovers(d, d', o, env)
    ensures forall d' | Recovers(d, d', o, env) ::
      o in OrdersOf(d') && (Recovery.Ended(OrdersOf(d')[o]) <==> !Recovery.Doomed(d.sys.world.db, o, OrdersOf(d)[o], env))
  {
    ReachableWhole(d);
    var m := Delivered(d, o, OrdersOf(d)[o], env);
    var d' := HandlerRuns(m, o, env);
    LeadsOn(d, m, d', o, env);
    var hs :| OwnRun(d, hs, d', o, env);
    OwnRunReaches(d, hs, d', o, env);
    assert Recovers(d, d', o, env);
    WorldReachable(d);
    Recovery.RestartEndsIff(d.sys.world, o, env);
  }

  // ---- an order is doomed ----

  lemma CommandLabelTold(s: Sys.Sys, o: OrderId, outcome: Log.Outcome, env: Recovery.Env)
    requires Sys.Reachable(s) && Told(s, o, env) && o in s.world.orders
    ensures var s' := Sys.Next(s, Sys.SagaStep(CommandLabel(o, outcome))); Moves(s.world, s'.world, o, env) && Told(s', o, env)
  {
    var l := CommandLabel(o, outcome);
    PartsInv(s);
    if Sys.MayHappen(s, Sys.SagaStep(l)) { SagaStepTold(s, l, o, env); }
  }

  lemma CommandSys(d: Whole, o: OrderId)
    requires May(d, CommandStep(o))
    ensures var s' := Do(d, CommandStep(o)).sys;
      s' == d.sys || exists outcome :: s' == Sys.Next(d.sys, Sys.SagaStep(CommandLabel(o, outcome)))
  {
  }

  lemma CommandTold(d: Whole, o: OrderId, env: Recovery.Env)
    requires EndToEnd.Inv(d) && Told(d.sys, o, env) && o in OrdersOf(d) && May(d, CommandStep(o))
    ensures var s' := Do(d, CommandStep(o)).sys; Moves(d.sys.world, s'.world, o, env) && Told(s', o, env)
  {
    CommandSys(d, o);
    if Do(d, CommandStep(o)).sys != d.sys {
      var outcome :| Do(d, CommandStep(o)).sys == Sys.Next(d.sys, Sys.SagaStep(CommandLabel(o, outcome)));
      CommandLabelTold(d.sys, o, outcome, env);
    }
  }

  lemma OwnTold(d: Whole, h: Happening, o: OrderId, env: Recovery.Env)
    requires EndToEnd.Inv(d) && Told(d.sys, o, env) && o in OrdersOf(d) && May(d, h) && Own(h, o, env)
    ensures var d' := Do(d, h); Moves(d.sys.world, d'.sys.world, o, env) && Told(d'.sys, o, env)
  {
    PartsInv(d.sys);
    match h
    case Part(e) => PartTold(d.sys, e, o, env);
    case BeginCommand(_, _, _) =>
    case CommandStep(_) => CommandTold(d, o, env);
    case _ =>
  }

  // ---- every run ----

  /** No run of an order's own steps leads out of a doomed state, wherever the other orders are. */
  lemma {:induction false} NoOwnRunEnds(d: Whole, hs: seq<Happening>, d': Whole, o: OrderId, env: Recovery.Env)
    requires EndToEnd.Inv(d) && Told(d.sys, o, env) && DoomedWorld(d.sys.world, o, env) && OwnRun(d, hs, d', o, env)
    ensures o in OrdersOf(d') && DoomedWorld(d'.sys.world, o, env) && !Recovery.Ended(OrdersOf(d')[o])
    decreases |hs|
  {
    WorldReachable(d);
    Saga.ReachableInv(d.sys.world);
    if hs == [] {
      DoomedNotEnded(d.sys.world, o, env);
    } else {
      HappeningKeeps(d, hs[0]);
      OwnTold(d, hs[0], o, env);
      MovesDoomed(d.sys.world, Do(d, hs[0]).sys.world, o, env);
      NoOwnRunEnds(Do(d, hs[0]), hs[1..], d', o, env);
    }
  }

  /** Some run of the order's own steps ends its saga. */
  ghost predicate CanEnd(d: Whole, o: OrderId, env: Recovery.Env) {
    exists d' :: Leads(d, d', o, env) && o in OrdersOf(d') && Recovery.Ended(OrdersOf(d')[o])
  }

  /**
    Recoverability of the whole. From every reachable state with no handler's call in
    flight, in which the order's placement is on the topic and its handler is gone, some
    run of the order's own steps, however often its handler is dropped and delivered
    again, ends its saga if and only if the state is not doomed.
  */
  lemma RecoverableIff(d: Whole, o: OrderId, env: Recovery.Env)
    requires EndToEnd.Reachable(d) && o in OrdersOf(d) && OrdersOf(d)[o].run == None && OnTopic(d.stream, o)
    requires d.sys.calls == map[] && d.sys.captures == map[] && d.commands == map[]
    ensures CanEnd(d, o, env) <==> !Recovery.Doomed(d.sys.world.db, o, OrdersOf(d)[o], env)
  {
    ReachableWhole(d);
    if Recovery.Doomed(d.sys.world.db, o, OrdersOf(d)[o], env) {
      forall d' | Leads(d, d', o, env) ensures o in OrdersOf(d') && !Recovery.Ended(OrdersOf(d')[o]) {
        var hs :| OwnRun(d, hs, d', o, env);
        NoOwnRunEnds(d, hs, d', o, env);
      }
    } else {
      ComposedRecovery(d, o, env);
      var d' :| Recovers(d, d', o, env);
      assert Leads(d, d', o, env) && o in OrdersOf(d') && Recovery.Ended(OrdersOf(d')[o]);
    }
  }
}
