/**
  Everything together: the composed system of sagas, inventory and payments, and the
  event store, outbox, relay, topic and read model. An order comes into being when its
  placement commits; its saga is delivered what the topic has; a confirm or cancel of a
  saga is a handler on the event store, one statement after the other.
*/
module EndToEnd {
  import opened Results
  import opened StockLedger
  import opened Saga
  import opened PlacedEvent
  import Sys = System
  import Log = EventStore
  import Topic = EventStream
  import Order = OrderAggregate
  import Values = OrderValues
  import Logs = EventStoreInvariant
  import Topics = EventStreamInvariant
  import Parts = WholeSystem

  // ---- the machine ----

  datatype Whole = Whole(sys: Sys.Sys, stream: Topic.Stream, commands: map<OrderId, Log.TxnId>)

  const EMPTY_WHOLE := Whole(Sys.EMPTY_SYS, Topic.EMPTY_STREAM, map[])

  datatype Happening =
    | Part(event: Sys.Event)                                         // anything but placing, confirming and cancelling
    | Submit(txn: Log.TxnId, placement: Order.Event)                 // PlaceOrder has staged its event
    | SubmitStep(txn: Log.TxnId)                                     // one statement of its save
    | SubmitLost(txn: Log.TxnId)
    | BeginCommand(order: OrderId, txn: Log.TxnId, now: Values.Time) // the handler confirms or cancels
    | CommandStep(order: OrderId)                                    // one statement of that
    | Publish(move: Topic.Move)                                      // relay and projector

  /** What the saga is told of a placement. */
  function PlacedOf(m: Log.Message): Placed
    requires m.PlacedMessage?
  {
    Placed(ReserveLines(m), m.totalMinor, m.currency)
  }

  /** The command that the handler of an order is at. */
  function CommandOf(r: Record): Option<Order.Command> {
    if r.run == None then None
    else match r.run.value.pc
      case CancellingOrder(reason) => Some(Order.Cancel(reason))
      case Confirming => Some(Order.Confirm)
      case _ => None
  }

  function WritersOf(d: Whole): map<Log.TxnId, Log.Writer> { d.stream.store.writers }

  function LogOf(d: Whole): map<OrderId, seq<Order.Event>> { d.stream.store.log }

  function OrdersOf(d: Whole): map<OrderId, Record> { d.sys.world.orders }

  predicate IsPlacement(stream: Topic.Stream, id: nat) {
    id in stream.store.outbox && stream.store.outbox[id].message.PlacedMessage?
  }

  /** The order's placement is on the topic, and so may be delivered, again and again. */
  predicate OnTopic(stream: Topic.Stream, o: OrderId) {
    exists p | 0 <= p < |Topic.TopicOf(stream, o)| :: IsPlacement(stream, Topic.TopicOf(stream, o)[p])
  }

  /** A step of the composed system in which the order's log has no part. */
  predicate Apart(d: Whole, e: Sys.Event) {
    e.SagaStep? ==>
      match e.of
      case Place(_, _) => false
      case Deliver(o) => OnTopic(d.stream, o)
      case Act(o, _) => o in OrdersOf(d) && CommandOf(OrdersOf(d)[o]) == None
      case _ => true
  }

  predicate WriterMay(d: Whole, step: Log.Step) {
    Log.Enabled(d.stream.store, step)
  }

  ghost predicate May(d: Whole, h: Happening) {
    match h
    case Part(e) => Sys.MayHappen(d.sys, e) && Apart(d, e)
    case Submit(t, e) => e.OrderPlaced? && WriterMay(d, Log.Start(t, e.order, Log.Placing(e)))
    case SubmitStep(t) => WriterMay(d, Log.Exec(t)) && WritersOf(d)[t].job.Placing?
    case SubmitLost(t) => WriterMay(d, Log.Abort(t)) && WritersOf(d)[t].job.Placing?
    case BeginCommand(o, t, _) => o in OrdersOf(d) && CommandOf(OrdersOf(d)[o]).Some? && o !in d.commands && t !in WritersOf(d)
    case CommandStep(o) => o in d.commands && WriterMay(d, Log.Exec(d.commands[o]))
    case Publish(move) => !move.Handler? && Topic.May(d.stream, move)
  }

  function Write(stream: Topic.Stream, step: Log.Step): Topic.Stream {
    stream.(store := Log.Apply(stream.store, step))
  }

  /** The handler's error ends its command. */
  function Hangup(d: Whole, o: OrderId): Whole {
    if o in d.commands then
      d.(stream := Write(d.stream, Log.Abort(d.commands[o])), commands := d.commands - {o})
    else d
  }

  /** No error moves the handler on, any other end of the command is its own. */
  function CommandLabel(o: OrderId, outcome: Log.Outcome): Label {
    if outcome == Log.Saved || outcome == Log.NoChange then Act(o, NoAnswer) else Drop(o)
  }

  function CommandNext(d: Whole, o: OrderId): Whole
    requires o in d.commands && WriterMay(d, Log.Exec(d.commands[o]))
  {
    var t := d.commands[o];
    var stream' := Write(d.stream, Log.Exec(t));
    var pc := stream'.store.writers[t].pc;
    if !pc.Ended? then d.(stream := stream')
    else Whole(Sys.Next(d.sys, Sys.SagaStep(CommandLabel(o, pc.outcome))), stream', d.commands - {o})
  }

  /** The commit of a placement brings the order into the saga's world. */
  function SubmitNext(d: Whole, t: Log.TxnId): Whole
    requires WriterMay(d, Log.Exec(t)) && WritersOf(d)[t].job.Placing?
  {
    var stream' := Write(d.stream, Log.Exec(t));
    if WritersOf(d)[t].pc.Committing? && WritersOf(d)[t].job.event.OrderPlaced? then
      var e := WritersOf(d)[t].job.event;
      d.(stream := stream', sys := Sys.Next(d.sys, Sys.SagaStep(Place(e.order, PlacedOf(Log.MessageOf(e))))))
    else d.(stream := stream')
  }

  /** What may not happen changes nothing. */
  ghost function Do(d: Whole, h: Happening): Whole {
    if !May(d, h) then d
    else match h
    case Part(e) =>
      var d' := d.(sys := Sys.Next(d.sys, e));
      if e.SagaStep? && e.of.Drop? then Hangup(d', e.of.order) else d'
    case Submit(t, e) => d.(stream := Write(d.stream, Log.Start(t, e.order, Log.Placing(e))))
    case SubmitStep(t) => SubmitNext(d, t)
    case SubmitLost(t) => d.(stream := Write(d.stream, Log.Abort(t)))
    case BeginCommand(o, t, now) =>
      d.(stream := Write(d.stream, Log.Start(t, o, Log.Commanding(CommandOf(OrdersOf(d)[o]).value, now))),
         commands := d.commands[o := t])
    case CommandStep(o) => CommandNext(d, o)
    case Publish(move) => d.(stream := Topic.Made(d.stream, move))
  }

  ghost predicate Run(d: Whole, hs: seq<Happening>, d': Whole)
    decreases |hs|
  {
    if hs == [] then d == d' else May(d, hs[0]) && Run(Do(d, hs[0]), hs[1..], d')
  }

  ghost predicate Reachable(d: Whole) {
    exists hs :: Run(EMPTY_WHOLE, hs, d)
  }

  lemma {:induction false} RunSnoc(d: Whole, hs: seq<Happening>, m: Whole, h: Happening)
    requires Run(d, hs, m) && May(m, h)
    ensures Run(d, hs + [h], Do(m, h))
    decreases |hs|
  {
    if hs == [] {
      assert Run(Do(m, h), [], Do(m, h));
      assert ([h])[1..] == [];
    } else {
      RunSnoc(Do(d, hs[0]), hs[1..], m, h);
      assert (hs + [h])[1..] == hs[1..] + [h];
    }
  }

  lemma ReachStep(d: Whole, h: Happening)
    requires Reachable(d) && May(d, h)
    ensures Reachable(Do(d, h))
  {
    var hs :| Run(EMPTY_WHOLE, hs, d);
    RunSnoc(EMPTY_WHOLE, hs, d, h);
  }

  // ---- how the parts hang together ----

  /** The saga's record of an order and the order's own log. */
  predicate LogMatches(r: Record, history: seq<Order.Event>) {
    && history != [] && history[0].OrderPlaced?
    && r.placed == PlacedOf(Log.MessageOf(history[0])) && r.status == Order.StatusAfter(history)
  }

  ghost predicate OrdersOk(orders: map<OrderId, Record>, log: map<OrderId, seq<Order.Event>>) {
    orders.Keys == log.Keys && forall o | o in orders :: LogMatches(orders[o], log[o])
  }

  /** The handler on the event store is the one that the saga waits for. */
  predicate CommandMatches(o: OrderId, r: Record, x: Log.Writer) {
    x.Active() && x.order == o && x.job.Commanding? && CommandOf(r) == Some(x.job.command)
  }

  ghost predicate CommandsOk(orders: map<OrderId, Record>, writers: map<Log.TxnId, Log.Writer>, commands: map<OrderId, Log.TxnId>) {
    && (forall o | o in commands :: o in orders && commands[o] in writers && CommandMatches(o, orders[o], writers[commands[o]]))
    && (forall t | t in writers && writers[t].Active() && writers[t].job.Commanding? ::
          writers[t].order in commands && commands[writers[t].order] == t)
  }

  /** Each part has a run of its own, and they agree. */
  ghost predicate Inv(d: Whole) {
    && Sys.Reachable(d.sys) && Topic.Reachable(d.stream)
    && OrdersOk(OrdersOf(d), LogOf(d))
    && CommandsOk(OrdersOf(d), WritersOf(d), d.commands)
  }

  // ---- steps in which the logs have no part ----

  /** Orders, their placements and statuses are as they were, and commands but `dropped`'s are waited for. */
  ghost predicate Kept(w: World, w': World, dropped: set<OrderId>) {
    && w'.orders.Keys == w.orders.Keys
    && forall o | o in w.orders :: RecordKept(w.orders[o], w'.orders[o], o in dropped)
  }

  predicate RecordKept(r: Record, r': Record, dropped: bool) {
    r'.placed == r.placed && r'.status == r.status && (!dropped && CommandOf(r).Some? ==> CommandOf(r') == CommandOf(r))
  }

  lemma LabelKeeps(w: World, l: Label)
    requires Saga.Enabled(w, l) && !l.Place?
    requires l.Act? ==> CommandOf(w.orders[l.order]) == None
    ensures Kept(w, Saga.Step(w, l), if l.Drop? then {l.order} else {})
  {
    var w' := Saga.Step(w, l);
    forall o | o in w.orders ensures RecordKept(w.orders[o], w'.orders[o], l.Drop? && o == l.order) {
      if l.Act? && o != l.order { assert w'.orders[o] == w.orders[o]; }
    }
  }

  lemma TryKeeps(w: World, l: Label)
    requires !l.Place? && !l.Drop? && (l.Act? && l.order in w.orders ==> CommandOf(w.orders[l.order]) == None)
    ensures Kept(w, Saga.Step(w, l), {})
  {
    if Saga.Enabled(w, l) { LabelKeeps(w, l); }
  }

  lemma {:induction false} TellKeeps(w: World, updates: seq<Sys.Store.Update>)
    ensures Kept(w, Sys.Tell(w, updates), {})
  {
    if updates != [] {
      var n := |updates| - 1;
      TellKeeps(w, updates[..n]);
      var a := updates[n].after;
      TryKeeps(Sys.Tell(w, updates[..n]), Provider(a.order, a.status, a.failure));
    }
  }

  /** A handler that waits for inventory or payment is not at a command. */
  lemma CallEndsKeeps(s: Sys.Sys, o: OrderId, l: Label)
    requires Sys.Inv(s) && o in s.calls && (l.Act? || l.Drop?) && l.order == o
    ensures Kept(s.world, Saga.Step(s.world, l), {})
  {
    if Saga.Enabled(s.world, l) { LabelKeeps(s.world, l); }
  }

  lemma CaptureEndsKeeps(s: Sys.Sys, o: OrderId, l: Label)
    requires Sys.Inv(s) && o in s.captures && (l.Act? || l.Recharge?) && l.order == o
    ensures Kept(s.world, Saga.Step(s.world, l), {})
  {
    assert Sys.CaptureMatches(o, s.world.orders[o], s.pay.txns[s.captures[o]]);
    TryKeeps(s.world, l);
  }

  function DroppedBy(e: Sys.Event): set<OrderId> {
    if e.SagaStep? && e.of.Drop? then {e.of.order} else {}
  }

  lemma CallStepKeeps(s: Sys.Sys, o: OrderId, loaded: seq<Line>)
    requires Sys.Inv(s) && Sys.MayHappen(s, Sys.CallStep(o, loaded))
    ensures Kept(s.world, Sys.Next(s, Sys.CallStep(o, loaded)).world, {})
  {
    var t := s.calls[o];
    var stock' := Sys.Stock.Apply(s.stock, Sys.Stock.Exec(t, loaded));
    if !stock'.txns[t].Active() {
      CallEndsKeeps(s, o, Sys.AnswerLabel(o, s.stock.txns[t].call, stock'.txns[t].pc.outcome));
    }
  }

  lemma CaptureWorld(s: Sys.Sys, o: OrderId, step: Sys.Store.Step, lost: bool)
    requires Sys.MayHappen(s, Sys.CaptureStep(o, step, lost))
    ensures var w', a := Sys.Next(s, Sys.CaptureStep(o, step, lost)).world, Sys.ChargeOf(s.pay, step);
      w' == s.world || w' == Saga.Step(s.world, if lost then Recharge(o, a) else Act(o, a))
  {
  }

  lemma CaptureStepKeeps(s: Sys.Sys, o: OrderId, step: Sys.Store.Step, lost: bool)
    requires Sys.Inv(s) && Sys.MayHappen(s, Sys.CaptureStep(o, step, lost))
    ensures Kept(s.world, Sys.Next(s, Sys.CaptureStep(o, step, lost)).world, {})
  {
    var a := Sys.ChargeOf(s.pay, step);
    CaptureWorld(s, o, step, lost);
    CaptureEndsKeeps(s, o, if lost then Recharge(o, a) else Act(o, a));
  }

  lemma PartKeeps(d: Whole, e: Sys.Event)
    requires Sys.Inv(d.sys) && May(d, Part(e))
    ensures Kept(d.sys.world, Sys.Next(d.sys, e).world, DroppedBy(e))
  {
    match e
    case SagaStep(l) => LabelKeeps(d.sys.world, l);
    case CallStep(o, loaded) => CallStepKeeps(d.sys, o, loaded);
    case SetStock(sku, available) => TryKeeps(d.sys.world, Admin(sku, available));
    case CaptureStep(o, step, lost) => CaptureStepKeeps(d.sys, o, step, lost);
    case Reconcile(step) => TellKeeps(d.sys.world, Sys.Changes(d.sys.pay, step));
    case _ =>
  }

  lemma KeptOrders(w: World, w': World, dropped: set<OrderId>, log: map<OrderId, seq<Order.Event>>)
    requires Kept(w, w', dropped) && OrdersOk(w.orders, log)
    ensures OrdersOk(w'.orders, log)
  {
    forall o | o in w'.orders ensures LogMatches(w'.orders[o], log[o]) {
      assert RecordKept(w.orders[o], w'.orders[o], o in dropped);
      assert LogMatches(w.orders[o], log[o]);
    }
  }

  lemma KeptCommands(w: World, w': World, dropped: set<OrderId>, writers: map<Log.TxnId, Log.Writer>, commands: map<OrderId, Log.TxnId>)
    requires Kept(w, w', dropped) && CommandsOk(w.orders, writers, commands) && commands.Keys !! dropped
    ensures CommandsOk(w'.orders, writers, commands)
  {
    forall o | o in commands ensures o in w'.orders && CommandMatches(o, w'.orders[o], writers[commands[o]]) {
      assert RecordKept(w.orders[o], w'.orders[o], o in dropped);
      assert CommandMatches(o, w.orders[o], writers[commands[o]]);
    }
  }

  // ---- steps on the event store ----

  lemma StoreReachable(stream: Topic.Stream)
    requires Topic.Reachable(stream)
    ensures Log.Reachable(stream.store)
  {
    Topics.ReachableStream(stream);
  }

  lemma WriteReaches(stream: Topic.Stream, step: Log.Step)
    requires Topic.Reachable(stream) && Log.Enabled(stream.store, step)
    ensures Topic.Reachable(Write(stream, step)) && Log.Reachable(stream.store)
  {
    Topic.ReachStep(stream, Topic.Handler(step));
    StoreReachable(stream);
  }

  /** A writer that is no command in flight comes, goes on or goes. */
  lemma OtherWriter(orders: map<OrderId, Record>, writers: map<Log.TxnId, Log.Writer>, commands: map<OrderId, Log.TxnId>,
                    t: Log.TxnId, x: Log.Writer)
    requires CommandsOk(orders, writers, commands) && (t in writers ==> writers[t].job.Placing?)
    requires x.job.Placing?
    ensures CommandsOk(orders, writers[t := x], commands)
  {
    forall o | o in commands ensures commands[o] != t && CommandMatches(o, orders[o], writers[commands[o]]) {}
  }

  lemma CommandEndsLinks(orders: map<OrderId, Record>, writers: map<Log.TxnId, Log.Writer>, commands: map<OrderId, Log.TxnId>,
                         o: OrderId, x: Log.Writer)
    requires CommandsOk(orders, writers, commands) && o in commands && !x.Active()
    ensures CommandsOk(orders, writers[commands[o] := x], commands - {o})
  {
    forall p | p in commands - {o} ensures commands[p] != commands[o] && CommandMatches(p, orders[p], writers[commands[p]]) {
      assert CommandMatches(o, orders[o], writers[commands[o]]);
    }
    forall t | t in writers && t != commands[o] && writers[t].Active() && writers[t].job.Commanding?
      ensures writers[t].order in commands - {o} && (commands - {o})[writers[t].order] == t
    {
    }
  }

  lemma CommandGoesOn(orders: map<OrderId, Record>, writers: map<Log.TxnId, Log.Writer>, commands: map<OrderId, Log.TxnId>,
                      o: OrderId, x: Log.Writer)
    requires CommandsOk(orders, writers, commands) && o in commands
    requires x.Active() && x.order == writers[commands[o]].order && x.job == writers[commands[o]].job
    ensures CommandsOk(orders, writers[commands[o] := x], commands)
  {
    forall p | p in commands ensures CommandMatches(p, orders[p], writers[commands[o] := x][commands[p]]) {
      assert CommandMatches(p, orders[p], writers[commands[p]]);
    }
  }

  lemma CommandBegins(orders: map<OrderId, Record>, writers: map<Log.TxnId, Log.Writer>, commands: map<OrderId, Log.TxnId>,
                      o: OrderId, t: Log.TxnId, x: Log.Writer)
    requires CommandsOk(orders, writers, commands) && o in orders && o !in commands && t !in writers && CommandMatches(o, orders[o], x)
    ensures CommandsOk(orders, writers[t := x], commands[o := t])
  {
    forall p | p in commands ensures commands[p] != t && CommandMatches(p, orders[p], writers[commands[p]]) {}
  }

  /** An error of the handler ends its command, which leaves the log as it is. */
  lemma HangupKeeps(d: Whole, o: OrderId, w': World)
    requires Topic.Reachable(d.stream) && CommandsOk(OrdersOf(d), WritersOf(d), d.commands) && Kept(d.sys.world, w', {o})
    ensures var d' := Hangup(d, o);
      && Topic.Reachable(d'.stream) && LogOf(d') == LogOf(d) && d'.sys == d.sys
      && CommandsOk(w'.orders, WritersOf(d'), d'.commands)
  {
    if o in d.commands {
      var t := d.commands[o];
      assert CommandMatches(o, OrdersOf(d)[o], WritersOf(d)[t]);
      WriteReaches(d.stream, Log.Abort(t));
      CommandEndsLinks(OrdersOf(d), WritersOf(d), d.commands, o, Log.Finish(WritersOf(d)[t], Log.Broken));
      KeptCommands(d.sys.world, w', {o}, WritersOf(Hangup(d, o)), d.commands - {o});
    } else {
      KeptCommands(d.sys.world, w', {o}, WritersOf(d), d.commands);
    }
  }

  lemma PartInv(d: Whole, e: Sys.Event)
    requires Inv(d) && May(d, Part(e))
    ensures Inv(Do(d, Part(e)))
  {
    PartsInv(d.sys);
    PartKeeps(d, e);
    Sys.ReachStep(d.sys, e);
    var w' := Sys.Next(d.sys, e).world;
    KeptOrders(d.sys.world, w', DroppedBy(e), LogOf(d));
    if e.SagaStep? && e.of.Drop? {
      HangupKeeps(d, e.of.order, w');
      HangupCommutes(d, e);
    } else {
      KeptCommands(d.sys.world, w', {}, WritersOf(d), d.commands);
    }
  }

  lemma HangupCommutes(d: Whole, e: Sys.Event)
    requires May(d, Part(e)) && e.SagaStep? && e.of.Drop?
    ensures Do(d, Part(e)) == Hangup(d, e.of.order).(sys := Sys.Next(d.sys, e))
  {
  }

  lemma PartsInv(s: Sys.Sys)
    requires Sys.Reachable(s)
    ensures Sys.Inv(s)
  {
    var es :| Sys.Run(Sys.EMPTY_SYS, es, s);
    Parts.EmptyIsReachable();
    Parts.RunKeeps(Sys.EMPTY_SYS, es, s);
  }

  // ---- confirm and cancel ----

  lemma IdsInHand(s: Log.State, t: Log.TxnId)
    requires Log.Reachable(s) && t in s.writers && s.writers[t].pc.Committing?
    ensures |s.writers[t].ids| == |s.writers[t].changes|
  {
    Logs.ReachableWriter(s, t);
  }

  /** A writer's next statement on the store, unless it is COMMIT. */
  lemma StatementChanges(s: Log.State, t: Log.TxnId)
    requires Log.Enabled(s, Log.Exec(t)) && !s.writers[t].pc.Committing?
    ensures t in Log.Apply(s, Log.Exec(t)).writers
    ensures var x, s' := s.writers[t], Log.Apply(s, Log.Exec(t));
      && s'.writers == s.writers[t := s'.writers[t]] && s'.writers[t].order == x.order && s'.writers[t].job == x.job
      && s'.log == s.log
  {
    Logs.ExecFrame(s, t);
    Logs.StatementSame(s, s.writers[t]);
  }

  /** A writer's next statement on the store, and what it does to the logs. */
  lemma ExecChanges(s: Log.State, t: Log.TxnId)
    requires Log.Reachable(s) && Log.Enabled(s, Log.Exec(t))
    ensures t in Log.Apply(s, Log.Exec(t)).writers
    ensures var x, s' := s.writers[t], Log.Apply(s, Log.Exec(t));
      && s'.writers == s.writers[t := s'.writers[t]] && s'.writers[t].order == x.order && s'.writers[t].job == x.job
      && (!x.pc.Committing? ==> s'.log == s.log)
      && (x.pc.Committing? ==> s'.log == s.log[x.order := Log.LogAt(s, x.order) + x.changes] && s'.writers[t].pc == Log.Ended(Log.Saved))
  {
    if s.writers[t].pc.Committing? {
      IdsInHand(s, t);
    } else {
      StatementChanges(s, t);
    }
  }

  lemma OthersMatch(orders: map<OrderId, Record>, writers: map<Log.TxnId, Log.Writer>, commands: map<OrderId, Log.TxnId>,
                    o: OrderId, r: Record)
    requires CommandsOk(orders, writers, commands) && o !in commands
    ensures CommandsOk(orders[o := r], writers, commands)
  {
  }

  /** What a command's success means on the store for its order's record. */
  lemma SuccessOnStore(store: Log.State, t: Log.TxnId, r: Record)
    requires Log.Reachable(store) && Log.Enabled(store, Log.Exec(t)) && store.writers[t].order in store.log
    requires CommandMatches(store.writers[t].order, r, store.writers[t]) && LogMatches(r, store.log[store.writers[t].order])
    requires t in Log.Apply(store, Log.Exec(t)).writers
    requires Log.Apply(store, Log.Exec(t)).writers[t].pc in {Log.Ended(Log.Saved), Log.Ended(Log.NoChange)}
    ensures var o, log' := store.writers[t].order, Log.Apply(store, Log.Exec(t)).log;
      && o in log' && log' == store.log[o := log'[o]]
      && MayAct(Db(map[], map[]), o, r, NoAnswer) && LogMatches(Advance(r, NoAnswer), log'[o])
  {
    ExecChanges(store, t);
    Logs.CommandIsAtomic(store, t);
    Logs.SuccessHasRead(store, t);
  }

  /** The statement of a command on its store, and the writer it leaves. */
  ghost predicate CommandWrites(d: Whole, o: OrderId, stream': Topic.Stream, x: Log.Writer) {
    && Inv(d) && o in d.commands && WriterMay(d, Log.Exec(d.commands[o])) && stream' == Write(d.stream, Log.Exec(d.commands[o]))
    && d.commands[o] in stream'.store.writers && x == stream'.store.writers[d.commands[o]]
  }

  /** What an ended command leaves of the store. */
  lemma SuccessStore(d: Whole, o: OrderId, stream': Topic.Stream, x: Log.Writer)
    requires CommandWrites(d, o, stream', x) && x.pc in {Log.Ended(Log.Saved), Log.Ended(Log.NoChange)}
    ensures Topic.Reachable(stream') && o in OrdersOf(d) && CommandOf(OrdersOf(d)[o]).Some?
    ensures stream'.store.writers == WritersOf(d)[d.commands[o] := stream'.store.writers[d.commands[o]]]
    ensures o in stream'.store.log && stream'.store.log == LogOf(d)[o := stream'.store.log[o]]
    ensures MayAct(Db(map[], map[]), o, OrdersOf(d)[o], NoAnswer) && LogMatches(Advance(OrdersOf(d)[o], NoAnswer), stream'.store.log[o])
  {
    var t, store := d.commands[o], d.stream.store;
    var r := OrdersOf(d)[o];
    assert CommandMatches(o, r, store.writers[t]) && LogMatches(r, LogOf(d)[o]);
    WriteReaches(d.stream, Log.Exec(t));
    SuccessOnStore(store, t, r);
    ExecChanges(store, t);
  }

  lemma SuccessInv(d: Whole, o: OrderId, sys': Sys.Sys, stream': Topic.Stream, x: Log.Writer, r: Record, history: seq<Order.Event>)
    requires Inv(d) && o in d.commands && !x.Active() && LogMatches(r, history)
    requires Sys.Reachable(sys') && sys'.world.orders == OrdersOf(d)[o := r]
    requires Topic.Reachable(stream') && stream'.store.log == LogOf(d)[o := history]
    requires stream'.store.writers == WritersOf(d)[d.commands[o] := x]
    ensures Inv(Whole(sys', stream', d.commands - {o}))
  {
    SuccessLinks(OrdersOf(d), WritersOf(d), d.commands, LogOf(d), o, x, r, history);
  }

  lemma CommandSucceeds(d: Whole, o: OrderId, stream': Topic.Stream, x: Log.Writer)
    requires CommandWrites(d, o, stream', x) && x.pc in {Log.Ended(Log.Saved), Log.Ended(Log.NoChange)}
    ensures Inv(Whole(Sys.Next(d.sys, Sys.SagaStep(CommandLabel(o, x.pc.outcome))), stream', d.commands - {o}))
  {
    SuccessStore(d, o, stream', x);
    SuccessOnSys(d.sys, o, x.pc.outcome);
    SuccessInv(d, o, Sys.Next(d.sys, Sys.SagaStep(CommandLabel(o, x.pc.outcome))), stream', x, Advance(OrdersOf(d)[o], NoAnswer), stream'.store.log[o]);
  }

  lemma SuccessLinks(orders: map<OrderId, Record>, writers: map<Log.TxnId, Log.Writer>, commands: map<OrderId, Log.TxnId>,
                     log: map<OrderId, seq<Order.Event>>, o: OrderId, x: Log.Writer, r: Record, history: seq<Order.Event>)
    requires CommandsOk(orders, writers, commands) && o in commands && !x.Active()
    requires OrdersOk(orders, log) && LogMatches(r, history)
    ensures CommandsOk(orders[o := r], writers[commands[o] := x], commands - {o})
    ensures OrdersOk(orders[o := r], log[o := history])
  {
    CommandEndsLinks(orders, writers, commands, o, x);
    OthersMatch(orders, writers[commands[o] := x], commands - {o}, o, r);
  }

  lemma SuccessOnSys(s: Sys.Sys, o: OrderId, outcome: Log.Outcome)
    requires Sys.Reachable(s) && o in s.world.orders && CommandOf(s.world.orders[o]).Some?
    requires (outcome == Log.Saved || outcome == Log.NoChange) && MayAct(Db(map[], map[]), o, s.world.orders[o], NoAnswer)
    ensures var s' := Sys.Next(s, Sys.SagaStep(CommandLabel(o, outcome)));
      Sys.Reachable(s') && s'.world.orders == s.world.orders[o := Advance(s.world.orders[o], NoAnswer)]
  {
    Sys.ReachStep(s, Sys.SagaStep(Act(o, NoAnswer)));
  }

  lemma CommandFails(d: Whole, o: OrderId, stream': Topic.Stream, x: Log.Writer)
    requires CommandWrites(d, o, stream', x) && x.pc.Ended? && x.pc !in {Log.Ended(Log.Saved), Log.Ended(Log.NoChange)}
    ensures Inv(Whole(Sys.Next(d.sys, Sys.SagaStep(CommandLabel(o, x.pc.outcome))), stream', d.commands - {o}))
  {
    var t := d.commands[o];
    assert CommandMatches(o, OrdersOf(d)[o], WritersOf(d)[t]);
    WriteReaches(d.stream, Log.Exec(t));
    ExecChanges(d.stream.store, t);
    FailureOnSys(d.sys, o, x.pc.outcome);
    var w' := Sys.Next(d.sys, Sys.SagaStep(CommandLabel(o, x.pc.outcome))).world;
    CommandEndsLinks(OrdersOf(d), WritersOf(d), d.commands, o, x);
    KeptCommands(d.sys.world, w', {o}, stream'.store.writers, d.commands - {o});
    KeptOrders(d.sys.world, w', {o}, LogOf(d));
  }

  lemma FailureOnSys(s: Sys.Sys, o: OrderId, outcome: Log.Outcome)
    requires Sys.Reachable(s) && o in s.world.orders && CommandOf(s.world.orders[o]).Some?
    requires outcome != Log.Saved && outcome != Log.NoChange
    ensures var s' := Sys.Next(s, Sys.SagaStep(CommandLabel(o, outcome)));
      Sys.Reachable(s') && Kept(s.world, s'.world, {o})
  {
    LabelKeeps(s.world, Drop(o));
    Sys.ReachStep(s, Sys.SagaStep(Drop(o)));
  }

  lemma CommandGoesOnInv(d: Whole, o: OrderId, stream': Topic.Stream, x: Log.Writer)
    requires CommandWrites(d, o, stream', x) && x.Active()
    ensures Inv(d.(stream := stream'))
  {
    var t := d.commands[o];
    WriteReaches(d.stream, Log.Exec(t));
    ExecChanges(d.stream.store, t);
    CommandGoesOn(OrdersOf(d), WritersOf(d), d.commands, o, x);
  }

  lemma CommandStepInv(d: Whole, o: OrderId)
    requires Inv(d) && May(d, CommandStep(o))
    ensures Inv(Do(d, CommandStep(o)))
  {
    var t := d.commands[o];
    var stream' := Write(d.stream, Log.Exec(t));
    var x := stream'.store.writers[t];
    if x.Active() {
      CommandGoesOnInv(d, o, stream', x);
    } else if x.pc in {Log.Ended(Log.Saved), Log.Ended(Log.NoChange)} {
      CommandSucceeds(d, o, stream', x);
    } else {
      CommandFails(d, o, stream', x);
    }
  }

  lemma BeginCommandInv(d: Whole, o: OrderId, t: Log.TxnId, now: Values.Time)
    requires Inv(d) && May(d, BeginCommand(o, t, now))
    ensures Inv(Do(d, BeginCommand(o, t, now)))
  {
    var job := Log.Commanding(CommandOf(OrdersOf(d)[o]).value, now);
    WriteReaches(d.stream, Log.Start(t, o, job));
    CommandBegins(OrdersOf(d), WritersOf(d), d.commands, o, t, Log.NewWriter(o, job));
  }

  // ---- placing ----

  /** A placement commits only for an order that has no log, and starts it. */
  lemma PlacementStarts(s: Log.State, t: Log.TxnId)
    requires Log.Reachable(s) && Log.Enabled(s, Log.Exec(t)) && s.writers[t].job.Placing? && s.writers[t].pc.Committing?
    ensures var x := s.writers[t];
      && x.job.event.OrderPlaced? && x.job.event.order == x.order && Log.Validated(x.job.event)
      && x.order !in s.log && x.changes == [x.job.event]
  {
    Logs.ReachableInv(s);
    Logs.ReachableWriter(s, t);
    PlacersReachable(s);
    assert Placer(s.writers[t]);
  }

  predicate Placer(x: Log.Writer) {
    x.job.Placing? ==>
      && x.job.event.OrderPlaced? && x.job.event.order == x.order && Log.Validated(x.job.event)
      && x.changes == [x.job.event] && x.version == 1
  }

  ghost predicate Placers(s: Log.State) {
    forall t | t in s.writers :: Placer(s.writers[t])
  }

  lemma StatementPlacer(s: Log.State, t: Log.TxnId)
    requires Log.Enabled(s, Log.Exec(t)) && Placer(s.writers[t])
    ensures t in Log.Apply(s, Log.Exec(t)).writers && Placer(Log.Apply(s, Log.Exec(t)).writers[t])
  {
    assert s.writers[t].pc == Log.Loading ==> !s.writers[t].job.Placing?;
  }

  lemma StepPlacers(s: Log.State, step: Log.Step)
    requires Placers(s) && Log.Enabled(s, step)
    ensures Placers(Log.Apply(s, step))
  {
    var s' := Log.Apply(s, step);
    forall t | t in s'.writers ensures Placer(s'.writers[t]) {
      if t in s.writers {
        assert Placer(s.writers[t]);
        if step.Exec? && step.txn == t { StatementPlacer(s, t); }
      }
    }
  }

  lemma {:induction false} RunPlacers(s: Log.State, steps: seq<Log.Step>, s': Log.State)
    requires Placers(s) && Log.Run(s, steps, s')
    ensures Placers(s')
    decreases |steps|
  {
    if steps != [] {
      StepPlacers(s, steps[0]);
      RunPlacers(Log.Apply(s, steps[0]), steps[1..], s');
    }
  }

  lemma PlacersReachable(s: Log.State)
    requires Log.Reachable(s)
    ensures Placers(s)
  {
    var steps :| Log.Run(Log.INITIAL, steps, s);
    RunPlacers(Log.INITIAL, steps, s);
  }

  lemma PlacedWorld(s: Sys.Sys, o: OrderId, placed: Placed)
    requires o !in s.world.orders && ValidLines(placed.lines)
    ensures Sys.MayHappen(s, Sys.SagaStep(Place(o, placed)))
    ensures Sys.Next(s, Sys.SagaStep(Place(o, placed))).world.orders
         == s.world.orders[o := Record(placed, Order.Pending, None, None, None)]
  {
  }

  lemma NewOrder(orders: map<OrderId, Record>, log: map<OrderId, seq<Order.Event>>, e: Order.Event)
    requires OrdersOk(orders, log) && e.OrderPlaced? && e.order !in log
    ensures OrdersOk(orders[e.order := Record(PlacedOf(Log.MessageOf(e)), Order.Pending, None, None, None)], log[e.order := [e]])
  {
  }

  lemma SubmitCommits(d: Whole, t: Log.TxnId, x: Log.Writer)
    requires Inv(d) && May(d, SubmitStep(t)) && (t, x) in WritersOf(d).Items && x.pc.Committing?
    ensures Inv(Do(d, SubmitStep(t)))
  {
    var store := d.stream.store;
    StoreReachable(d.stream);
    PlacementStarts(store, t);
    ExecChanges(store, t);
    var e := store.writers[t].job.event;
    var placed := PlacedOf(Log.MessageOf(e));
    PlacedPassesInventory(e);
    PlacedWorld(d.sys, e.order, placed);
    Sys.ReachStep(d.sys, Sys.SagaStep(Place(e.order, placed)));
    WriteReaches(d.stream, Log.Exec(t));
    assert Log.LogAt(store, e.order) + [e] == [e];
    NewOrder(OrdersOf(d), LogOf(d), e);
    OtherWriter(OrdersOf(d), WritersOf(d), d.commands, t, Log.Apply(store, Log.Exec(t)).writers[t]);
    OthersMatch(OrdersOf(d), Log.Apply(store, Log.Exec(t)).writers, d.commands, e.order, Record(placed, Order.Pending, None, None, None));
  }

  lemma SubmitStepInv(d: Whole, t: Log.TxnId)
    requires Inv(d) && May(d, SubmitStep(t))
    ensures Inv(Do(d, SubmitStep(t)))
  {
    if WritersOf(d)[t].pc.Committing? {
      SubmitCommits(d, t, WritersOf(d)[t]);
    } else {
      WriteReaches(d.stream, Log.Exec(t));
      ExecChanges(d.stream.store, t);
      OtherWriter(OrdersOf(d), WritersOf(d), d.commands, t, Log.Apply(d.stream.store, Log.Exec(t)).writers[t]);
    }
  }

  lemma SubmitInv(d: Whole, t: Log.TxnId, e: Order.Event)
    requires Inv(d) && May(d, Submit(t, e))
    ensures Inv(Do(d, Submit(t, e)))
  {
    WriteReaches(d.stream, Log.Start(t, e.order, Log.Placing(e)));
    OtherWriter(OrdersOf(d), WritersOf(d), d.commands, t, Log.NewWriter(e.order, Log.Placing(e)));
  }

  lemma SubmitLostInv(d: Whole, t: Log.TxnId)
    requires Inv(d) && May(d, SubmitLost(t))
    ensures Inv(Do(d, SubmitLost(t)))
  {
    WriteReaches(d.stream, Log.Abort(t));
    OtherWriter(OrdersOf(d), WritersOf(d), d.commands, t, Log.Finish(WritersOf(d)[t], Log.Broken));
  }

  // ---- every run ----

  /** Whatever happens, the parts stay in agreement, each in a run of its own. */
  lemma HappeningKeeps(d: Whole, h: Happening)
    requires Inv(d) && May(d, h)
    ensures Inv(Do(d, h))
  {
    match h
    case Part(e) => PartInv(d, e);
    case Submit(t, e) => SubmitInv(d, t, e);
    case SubmitStep(t) => SubmitStepInv(d, t);
    case SubmitLost(t) => SubmitLostInv(d, t);
    case BeginCommand(o, t, now) => BeginCommandInv(d, o, t, now);
    case CommandStep(o) => CommandStepInv(d, o);
    case Publish(move) => Topic.ReachStep(d.stream, move);
  }

  lemma {:induction false} RunKeeps(d: Whole, hs: seq<Happening>, d': Whole)
    requires Inv(d) && Run(d, hs, d')
    ensures Inv(d')
    decreases |hs|
  {
    if hs != [] {
      HappeningKeeps(d, hs[0]);
      RunKeeps(Do(d, hs[0]), hs[1..], d');
    }
  }

  lemma EmptyInv()
    ensures Inv(EMPTY_WHOLE)
  {
    assert Sys.Run(Sys.EMPTY_SYS, [], Sys.EMPTY_SYS);
    assert Topic.Run(Topic.EMPTY_STREAM, [], Topic.EMPTY_STREAM);
  }

  lemma ReachableWhole(d: Whole)
    requires Reachable(d)
    ensures Inv(d)
  {
    var hs :| Run(EMPTY_WHOLE, hs, d);
    EmptyInv();
    RunKeeps(EMPTY_WHOLE, hs, d);
  }
}
