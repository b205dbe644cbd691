/**
  A run in which the read model goes back. The relay publishes a settled order's
  batch and fails before the mark; the projector reads it; the relay publishes the
  batch again, and the redelivered placement sets the row back to PENDING.
*/
module Redelivery {
  import opened Results
  import opened OrderValues
  import opened OrderAggregate
  import opened EventStore
  import opened ReadModel
  import opened EventStream
  import EventStoreInvariant

  predicate Readable(e: Event) {
    e.OrderPlaced? && Validated(e) && e.total.minor >= 0
  }

  // ---- the store ----

  /** The store with one writer, and perhaps the counter, moved on. */
  function With(s: State, t: TxnId, x: Writer, nextId: nat): State {
    s.(writers := s.writers[t := x], nextId := nextId)
  }

  /** Nobody else is at work, and `t` is about to insert its one event at the end of the log. */
  predicate AboutToSave(s: State, t: TxnId) {
    && t in s.writers && (forall u | u in s.writers && u != t :: !s.writers[u].Active())
    && var x := s.writers[t];
       x.pc == InsertingEvent(0) && |x.changes| == 1 && x.ids == [] && x.Expected() == |LogAt(s, x.order)|
  }

  lemma InsertOne(s: State, t: TxnId)
    requires EventStore.Reachable(s) && AboutToSave(s, t)
    ensures EventStore.Reachable(With(s, t, s.writers[t].(pc := InsertingOutbox(0)), s.nextId))
  {
    EventStore.ReachStep(s, Exec(t));
    assert EventStore.Apply(s, Exec(t)) == With(s, t, s.writers[t].(pc := InsertingOutbox(0)), s.nextId);
  }

  lemma AnnounceOne(s: State, t: TxnId)
    requires EventStore.Reachable(s) && AboutToSave(s, t)
    ensures EventStore.Reachable(With(s, t, s.writers[t].(pc := Committing, ids := [s.nextId]), s.nextId + 1))
  {
    InsertOne(s, t);
    var m := With(s, t, s.writers[t].(pc := InsertingOutbox(0)), s.nextId);
    EventStore.ReachStep(m, Exec(t));
    assert [] + [s.nextId] == [s.nextId];
    assert EventStore.Apply(m, Exec(t)) == With(s, t, s.writers[t].(pc := Committing, ids := [s.nextId]), s.nextId + 1);
  }

  /** A save that nobody disturbs. */
  function SavedState(s: State, t: TxnId): State
    requires AboutToSave(s, t)
  {
    var x := s.writers[t];
    State(s.log[x.order := LogAt(s, x.order) + x.changes],
          s.outbox[s.nextId := OutRow(x.changes[0].order, MessageOf(x.changes[0]))], s.nextId + 1,
          s.writers[t := Finish(x.(ids := [s.nextId]), Saved)])
  }

  lemma SaveOne(s: State, t: TxnId)
    requires EventStore.Reachable(s) && AboutToSave(s, t)
    ensures EventStore.Reachable(SavedState(s, t))
  {
    AnnounceOne(s, t);
    var x := s.writers[t].(pc := Committing, ids := [s.nextId]);
    var m := With(s, t, x, s.nextId + 1);
    EventStoreInvariant.OneRow(m.outbox, x.ids, x.changes);
    EventStore.ReachStep(m, Exec(t));
    assert EventStore.Apply(m, Exec(t)) == SavedState(s, t);
  }

  function FirstRow(e: Event): map<nat, OutRow> { map[0 := OutRow(e.order, MessageOf(e))] }

  function BothRows(e: Event, c: Event): map<nat, OutRow> {
    FirstRow(e)[1 := OutRow(c.order, MessageOf(c))]
  }

  /** A store with one order, and its writers done. */
  predicate HasOnly(s: State, o: OrderId, history: seq<Event>, outbox: map<nat, OutRow>) {
    && s.log == map[o := history] && s.outbox == outbox && s.nextId == |history|
    && forall t | t in s.writers :: !s.writers[t].Active()
  }

  /** The order is placed. */
  lemma PlacedStore(e: Event) returns (s: State)
    requires Readable(e)
    ensures EventStore.Reachable(s) && HasOnly(s, e.order, [e], FirstRow(e)) && 2 !in s.writers
  {
    assert EventStore.Run(EventStore.INITIAL, [], EventStore.INITIAL);
    var m := With(EventStore.INITIAL, 1, NewWriter(e.order, Placing(e)), 0);
    EventStore.ReachStep(EventStore.INITIAL, Start(1, e.order, Placing(e)));
    SaveOne(m, 1);
    s := SavedState(m, 1);
    assert [] + [e] == [e];
  }

  /** The handler of a command on a placed order, when it has loaded the order. */
  function LoadedWriter(e: Event, command: Command, now: Time): Writer
    requires e.OrderPlaced?
  {
    var c := Closing(e.order, command, now);
    Writer(e.order, Commanding(command, now), Applied(Fold([e]), c), 2, [c], [], InsertingEvent(0))
  }

  lemma RaisedOnPlaced(e: Event, command: Command, now: Time)
    requires e.OrderPlaced?
    ensures var v := Fold([e]);
      Decide(v, command, now).Ok? && Raised(v, command, now) == [Closing(e.order, command, now)]
  {
    GoodLogFolds(e.order, [e]);
  }

  lemma LoadsPlaced(s: State, e: Event, command: Command, now: Time)
    requires Readable(e) && LogAt(s, e.order) == [e]
    ensures LoadStatement(s, NewWriter(e.order, Commanding(command, now))) == LoadedWriter(e, command, now)
  {
    LoadedIsLog(e.order, [e]);
    RaisedOnPlaced(e, command, now);
  }

  lemma StartedStore(s: State, e: Event, command: Command, now: Time)
    requires Readable(e) && EventStore.Reachable(s) && HasOnly(s, e.order, [e], FirstRow(e)) && 2 !in s.writers
    ensures EventStore.Reachable(With(s, 2, NewWriter(e.order, Commanding(command, now)), 1))
  {
    EventStore.ReachStep(s, Start(2, e.order, Commanding(command, now)));
    assert EventStore.Apply(s, Start(2, e.order, Commanding(command, now)))
        == With(s, 2, NewWriter(e.order, Commanding(command, now)), 1);
  }

  /** A load that nobody disturbs. */
  lemma LoadOne(s: State, t: TxnId, x: Writer)
    requires forall u | u in s.writers :: !s.writers[u].Active()
    requires x.pc == Loading && x.job.Commanding? && EventStore.Reachable(With(s, t, x, s.nextId))
    ensures EventStore.Reachable(With(s, t, LoadStatement(s, x), s.nextId))
  {
    var m := With(s, t, x, s.nextId);
    EventStore.ReachStep(m, Exec(t));
    assert LoadStatement(m, x) == LoadStatement(s, x);
    assert EventStore.Apply(m, Exec(t)) == With(s, t, LoadStatement(s, x), s.nextId);
  }

  lemma LoadedStore(s: State, e: Event, command: Command, now: Time)
    requires Readable(e) && EventStore.Reachable(s) && HasOnly(s, e.order, [e], FirstRow(e)) && 2 !in s.writers
    ensures EventStore.Reachable(With(s, 2, LoadedWriter(e, command, now), 1))
  {
    StartedStore(s, e, command, now);
    LoadsPlaced(s, e, command, now);
    LoadOne(s, 2, NewWriter(e.order, Commanding(command, now)));
  }

  /** The order is settled. */
  lemma SettledStore(e: Event, command: Command, now: Time) returns (s: State)
    requires Readable(e)
    ensures var c := Closing(e.order, command, now);
      EventStore.Reachable(s) && HasOnly(s, e.order, [e, c], BothRows(e, c))
  {
    var c := Closing(e.order, command, now);
    var placed := PlacedStore(e);
    LoadedStore(placed, e, command, now);
    var m := With(placed, 2, LoadedWriter(e, command, now), 1);
    SaveOne(m, 2);
    s := SavedState(m, 2);
    assert [e] + [c] == [e, c];
  }

  // ---- the stream ----

  /** A run of handlers is a run of the stream. */
  lemma {:induction false} HandlersRun(st: Stream, steps: seq<Step>, s: State)
    requires EventStream.Reachable(st) && EventStore.Run(st.store, steps, s)
    ensures EventStream.Reachable(st.(store := s))
    decreases |steps|
  {
    if steps != [] {
      EventStream.ReachStep(st, Handler(steps[0]));
      HandlersRun(Made(st, Handler(steps[0])), steps[1..], s);
    }
  }

  lemma Onward(st: Stream, move: Move) returns (st': Stream)
    requires EventStream.Reachable(st) && May(st, move)
    ensures st' == Made(st, move) && EventStream.Reachable(st')
  {
    EventStream.ReachStep(st, move);
    st' := Made(st, move);
  }

  /** The two rows of an order that is the only one, and settled. */
  ghost predicate Settled(st: Stream, e: Event, c: Event) {
    && EventStream.Reachable(st) && e.OrderPlaced? && !c.OrderPlaced? && c.order == e.order
    && LogAt(st.store, e.order) == [e, c] && st.store.outbox == BothRows(e, c) && st.store.nextId == 2
    && st.published == {}
  }

  lemma BatchIsBoth(st: Stream, e: Event, c: Event)
    requires Settled(st, e, c)
    ensures Batch(st, 2) == [0, 1] && Of([0, 1], st.store.outbox, e.order) == [0, 1]
  {
    BothUnpublished(st.store.outbox);
    BothOf(st.store.outbox, e.order);
  }

  lemma BothUnpublished(outbox: map<nat, OutRow>)
    requires 0 in outbox && 1 in outbox
    ensures Unpublished(outbox, {}, 2) == [0, 1]
  {
    assert Unpublished(outbox, {}, 1) == [0];
  }

  lemma BothOf(outbox: map<nat, OutRow>, o: OrderId)
    requires 0 in outbox && 1 in outbox && outbox[0].order == o && outbox[1].order == o
    ensures Of([0, 1], outbox, o) == [0, 1]
  {
    assert [0, 1][..1] == [0] && [0][..0] == [];
    assert Of([0], outbox, o) == [0];
  }

  /** The relay has published the first `n` records of its batch. */
  ghost predicate Publishes(st: Stream, e: Event, c: Event, n: nat) {
    && Settled(st, e, c) && st.relay.Publishing? && st.relay.batch == [0, 1] && SentOf(st.relay, e.order) == n
  }

  lemma SelectBoth(st: Stream, e: Event, c: Event) returns (st': Stream)
    requires Settled(st, e, c) && st.relay.Idle?
    ensures Publishes(st', e, c, 0) && st' == st.(relay := st'.relay)
  {
    BatchIsBoth(st, e, c);
    st' := Onward(st, Select(2));
  }

  lemma SendNext(st: Stream, e: Event, c: Event, n: nat) returns (st': Stream)
    requires Publishes(st, e, c, n) && n < 2
    ensures Publishes(st', e, c, n + 1)
    ensures TopicOf(st', e.order) == TopicOf(st, e.order) + [n]
    ensures st' == st.(relay := st'.relay, topic := st'.topic)
  {
    BatchIsBoth(st, e, c);
    st' := Onward(st, Send(e.order));
  }

  /** The projector reads both records. */
  lemma ReadBoth(st: Stream, e: Event, c: Event) returns (st': Stream)
    requires Settled(st, e, c) && TopicOf(st, e.order) == [0, 1] && PosOf(st, e.order) == 0 && RowOf(st, e.order) == None
    ensures Settled(st', e, c) && st'.relay == st.relay
    ensures TopicOf(st', e.order) == [0, 1] && PosOf(st', e.order) == 2
    ensures RowOf(st', e.order) == Some(PlacedRow(MessageOf(e)).(status := StatusOf(MessageOf(c))))
  {
    st' := Onward(st, Consume(e.order));
    st' := Onward(st', Consume(e.order));
  }

  /** Handlers have settled the order, and nothing has been published yet. */
  lemma SettledStream(e: Event, command: Command, now: Time) returns (st: Stream)
    requires Readable(e)
    ensures Settled(st, e, Closing(e.order, command, now)) && st == EMPTY_STREAM.(store := st.store)
  {
    var s := SettledStore(e, command, now);
    var steps :| EventStore.Run(EventStore.INITIAL, steps, s);
    assert EventStream.Run(EMPTY_STREAM, [], EMPTY_STREAM);
    HandlersRun(EMPTY_STREAM, steps, s);
    st := EMPTY_STREAM.(store := s);
  }

  /** Both records are published and read, and the relay fails before the mark. */
  lemma Unmarked(e: Event, c: Event, st: Stream) returns (st': Stream)
    requires Settled(st, e, c) && st == EMPTY_STREAM.(store := st.store)
    ensures Settled(st', e, c) && st'.relay.Idle? && TopicOf(st', e.order) == [0, 1] && PosOf(st', e.order) == 2
    ensures RowOf(st', e.order) == Some(PlacedRow(MessageOf(e)).(status := StatusOf(MessageOf(c))))
  {
    st' := SelectBoth(st, e, c);
    st' := SendNext(st', e, c, 0);
    st' := SendNext(st', e, c, 1);
    st' := ReadBoth(st', e, c);
    st' := Onward(st', GiveUp);
  }

  /**
    For every readable order, and either end of it, there is a reachable state whose
    row is the fold of the settled log, and in which the next record read, a copy of
    the placement, sets the row back to PENDING.
  */
  lemma SettledGoesBack(e: Event, command: Command, now: Time)
    requires Readable(e)
    ensures exists st :: Regresses(st, e, Closing(e.order, command, now))
  {
    var c := Closing(e.order, command, now);
    var st := SettledStream(e, command, now);
    st := Unmarked(e, c, st);
    st := SelectBoth(st, e, c);
    st := SendNext(st, e, c, 0);
    GoesBack(st, e, c);
  }

  lemma GoesBack(st: Stream, e: Event, c: Event)
    requires Settled(st, e, c) && TopicOf(st, e.order) == [0, 1, 0] && PosOf(st, e.order) == 2
    requires RowOf(st, e.order) == Some(PlacedRow(MessageOf(e)).(status := StatusOf(MessageOf(c))))
    ensures Regresses(st, e, c)
  {
    FoldedIsLast(e.order, [e, c]);
  }

  /** The row is up to date with the settled log, and the next record takes it back. */
  ghost predicate Regresses(st: Stream, e: Event, c: Event) {
    && EventStream.Reachable(st) && LogAt(st.store, e.order) == [e, c] && e.OrderPlaced?
    && RowOf(st, e.order) == Some(Folded([e, c])) && Folded([e, c]).status != Pending
    && May(st, Consume(e.order))
    && RowOf(Made(st, Consume(e.order)), e.order) == Some(Folded([e, c]).(status := Pending))
  }
}
