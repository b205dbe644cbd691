/** Relay safety and convergence of the read model, in every run. */
module EventStreamInvariant {
  import opened Results
  import opened OrderValues
  import opened OrderAggregate
  import opened EventStore
  import opened EventStoreInvariant
  import opened ReadModel
  import opened EventStream
  import opened TopicOrder

  // ---- the batch of one key ----

  /** Those of `ids` that are not published. */
  function Unmarked(ids: seq<nat>, published: set<nat>): seq<nat> {
    if ids == [] then []
    else
      var n := |ids| - 1;
      Unmarked(ids[..n], published) + (if ids[n] !in published then [ids[n]] else [])
  }

  lemma {:induction false} UnpublishedOf(outbox: map<nat, OutRow>, published: set<nat>, o: OrderId, n: nat)
    ensures Of(Unpublished(outbox, published, n), outbox, o) == Unmarked(OutIds(outbox, o, n), published)
  {
    if n > 0 {
      var before, ids, id := Unpublished(outbox, published, n - 1), OutIds(outbox, o, n - 1), n - 1;
      UnpublishedOf(outbox, published, o, n - 1);
      if id in outbox && id !in published {
        assert Unpublished(outbox, published, n) == before + [id];
      } else {
        assert Unpublished(outbox, published, n) == before;
      }
      if id in outbox && outbox[id].order == o {
        assert OutIds(outbox, o, n) == ids + [id];
      } else {
        assert OutIds(outbox, o, n) == ids;
      }
    }
  }

  lemma {:induction false} UnpublishedIn(outbox: map<nat, OutRow>, published: set<nat>, n: nat)
    ensures forall i | 0 <= i < |Unpublished(outbox, published, n)| :: Unpublished(outbox, published, n)[i] in outbox
  {
    if n > 0 { UnpublishedIn(outbox, published, n - 1); }
  }

  /** The published ones are the first `marked`. */
  predicate MarkedPrefix(ids: seq<nat>, published: set<nat>, marked: nat) {
    marked <= |ids| && forall i | 0 <= i < |ids| :: ids[i] in published <==> i < marked
  }

  lemma {:induction false} UnmarkedIsSuffix(ids: seq<nat>, published: set<nat>, marked: nat)
    requires MarkedPrefix(ids, published, marked)
    ensures Unmarked(ids, published) == ids[marked..]
    decreases |ids|
  {
    if ids != [] {
      var n := |ids| - 1;
      if marked <= n {
        UnmarkedIsSuffix(ids[..n], published, marked);
        assert ids[marked..] == ids[..n][marked..] + [ids[n]];
      } else {
        UnmarkedIsSuffix(ids[..n], published, n);
      }
    }
  }

  lemma {:induction false} OfPrefix(ids: seq<nat>, outbox: map<nat, OutRow>, o: OrderId, m: nat)
    requires m <= |ids|
    ensures Of(ids[..m], outbox, o) <= Of(ids, outbox, o)
    decreases |ids|
  {
    if m == |ids| {
      assert ids[..m] == ids;
    } else {
      OfPrefix(ids[..|ids| - 1], outbox, o, m);
      assert ids[..|ids| - 1][..m] == ids[..m];
    }
  }

  lemma {:induction false} OfMembers(ids: seq<nat>, outbox: map<nat, OutRow>, o: OrderId, id: nat)
    ensures id in Of(ids, outbox, o) <==> id in ids && id in outbox && outbox[id].order == o
  {
    if ids != [] {
      OfMembers(ids[..|ids| - 1], outbox, o, id);
      assert ids == ids[..|ids| - 1] + [ids[|ids| - 1]];
    }
  }

  /** Rows that come later do not change a batch. */
  lemma {:induction false} OfFrame(ids: seq<nat>, outbox: map<nat, OutRow>, outbox': map<nat, OutRow>, o: OrderId)
    requires forall i | 0 <= i < |ids| :: ids[i] in outbox && ids[i] in outbox' && outbox'[ids[i]] == outbox[ids[i]]
    ensures Of(ids, outbox', o) == Of(ids, outbox, o)
  {
    if ids != [] { OfFrame(ids[..|ids| - 1], outbox, outbox', o); }
  }

  /** A selected batch holds, of each key, the first unmarked rows. */
  lemma SelectedPart(st: Stream, size: nat, o: OrderId, marked: nat)
    requires MarkedPrefix(IdsOf(st, o), st.published, marked)
    ensures var part := Of(Batch(st, size), st.store.outbox, o);
      marked + |part| <= |IdsOf(st, o)| && part == IdsOf(st, o)[marked..marked + |part|]
  {
    var pending := Unpublished(st.store.outbox, st.published, st.store.nextId);
    UnpublishedOf(st.store.outbox, st.published, o, st.store.nextId);
    UnmarkedIsSuffix(IdsOf(st, o), st.published, marked);
    OfPrefix(pending, st.store.outbox, o, Min(size, |pending|));
    var part := Of(Batch(st, size), st.store.outbox, o);
    assert part <= IdsOf(st, o)[marked..];
  }

  // ---- the invariant of one key ----

  predicate RowOk(row: Option<Row>, pos: nat, topic: seq<nat>, outbox: map<nat, OutRow>, ids: seq<nat>) {
    && pos <= |topic|
    && (row.Some? ==> ids != [] && ids[0] in outbox && outbox[ids[0]].message.PlacedMessage? && SameOrder(row.value, outbox[ids[0]].message))
    && (pos > 0 ==> row.Some?)
    && (pos > 0 && pos == |topic| ==> topic[pos - 1] in outbox && row.value.status == StatusOf(outbox[topic[pos - 1]].message))
  }

  /** What the relay and the projector have to do with one key. */
  datatype Key = Key(topic: seq<nat>, publishing: bool, part: seq<nat>, sent: nat, row: Option<Row>, pos: nat)

  function KeyAt(st: Stream, o: OrderId): Key {
    Key(TopicOf(st, o), st.relay.Publishing?, BatchOf(st, o), SentOf(st.relay, o), RowOf(st, o), PosOf(st, o))
  }

  /** All that is said of one key, with the number of its marked rows. */
  ghost predicate KeyState(k: Key, ids: seq<nat>, outbox: map<nat, OutRow>, published: set<nat>, marked: nat) {
    && MarkedPrefix(ids, published, marked)
    && TopicOk(k.topic, ids, marked)
    && (k.publishing ==> Sending(k.topic, ids, marked, k.part, k.sent))
    && RowOk(k.row, k.pos, k.topic, outbox, ids)
  }

  ghost predicate KeyOk(st: Stream, o: OrderId, marked: nat) {
    KeyState(KeyAt(st, o), IdsOf(st, o), st.store.outbox, st.published, marked)
  }

  ghost predicate KeyInv(st: Stream, o: OrderId) {
    exists marked :: KeyOk(st, o, marked)
  }

  ghost predicate StreamInv(st: Stream) {
    && EventStore.Reachable(st.store)
    && (forall id | id in st.published :: id in st.store.outbox)
    && (st.relay.Publishing? ==> forall i | 0 <= i < |st.relay.batch| :: st.relay.batch[i] in st.store.outbox)
    && (forall o :: KeyInv(st, o))
  }

  // ---- handlers ----

  /** The outbox of one order has grown at its end, and no row has changed. */
  ghost predicate Grown(s: State, s': State, o: OrderId) {
    && OutIds(s.outbox, o, s.nextId) <= OutIds(s'.outbox, o, s'.nextId)
    && (forall id | id in s.outbox :: id in s'.outbox && s'.outbox[id] == s.outbox[id])
    && (forall i | |OutIds(s.outbox, o, s.nextId)| <= i < |OutIds(s'.outbox, o, s'.nextId)| ::
          OutIds(s'.outbox, o, s'.nextId)[i] !in s.outbox)
  }

  lemma CommitGrows(s: State, x: Writer, o: OrderId, writers: map<TxnId, Writer>)
    requires Progress(x, |LogAt(s, x.order)|) && IdOk(x, s.outbox, s.nextId) && x.pc.Committing?
    ensures Grown(s, Stored(s, x).(writers := writers), o)
  {
    CommitIds(s, x, o);
    OneRow(s.outbox, x.ids, x.changes);
  }

  lemma QuietGrows(s: State, s': State, o: OrderId)
    requires s'.outbox == s.outbox && s.nextId <= s'.nextId && forall id | id in s.outbox :: id < s.nextId
    ensures Grown(s, s', o)
  {
    SameIds(s.outbox, o, s.nextId, s'.nextId);
  }

  lemma StatementQuiet(s: State, step: Step)
    requires EventStore.Enabled(s, step) && !(step.Exec? && s.writers[step.txn].pc.Committing?)
    ensures EventStore.Apply(s, step).outbox == s.outbox && s.nextId <= EventStore.Apply(s, step).nextId
  {
  }

  /** A step of a handler adds at most one row at the end of its order's outbox. */
  lemma StoreStepGrows(s: State, step: Step, o: OrderId)
    requires EventStore.Reachable(s) && EventStore.Enabled(s, step)
    ensures Grown(s, EventStore.Apply(s, step), o)
  {
    EventStoreInvariant.ReachableInv(s);
    if step.Exec? && s.writers[step.txn].pc.Committing? {
      var x := s.writers[step.txn];
      assert Progress(x, |LogAt(s, x.order)|) && IdOk(x, s.outbox, s.nextId);
      CommitGrows(s, x, o, s.writers[step.txn := Finish(x, Saved)]);
    } else {
      StatementQuiet(s, step);
      QuietGrows(s, EventStore.Apply(s, step), o);
    }
  }

  /** The order's ids ascend, and its messages are those of its log. */
  lemma IdsFacts(s: State, o: OrderId)
    requires EventStore.Reachable(s)
    ensures var ids := OutIds(s.outbox, o, s.nextId);
      && Ascending(ids) && |ids| == |LogAt(s, o)|
      && (forall i | 0 <= i < |ids| :: ids[i] in s.outbox && s.outbox[ids[i]].message == MessageOf(LogAt(s, o)[i]))
      && (ids != [] ==> GoodLog(o, LogAt(s, o)))
  {
    EventStoreInvariant.ReachableInv(s);
    OutIdsIn(s.outbox, o, s.nextId);
    assert OutboxFollows(s, o);
  }

  lemma GrownState(k: Key, ids: seq<nat>, ids': seq<nat>, outbox: map<nat, OutRow>, outbox': map<nat, OutRow>, published: set<nat>, marked: nat)
    requires KeyState(k, ids, outbox, published, marked) && ids <= ids' && Ascending(ids')
    requires forall id | id in outbox :: id in outbox' && outbox'[id] == outbox[id]
    requires forall i | |ids| <= i < |ids'| :: ids'[i] !in published
    ensures KeyState(k, ids', outbox', published, marked)
  {
    GrowKeeps(k.topic, ids, ids', marked);
    if k.publishing { assert ids'[marked..marked + |k.part|] == ids[marked..marked + |k.part|]; }
  }

  lemma GrownKey(st: Stream, store': State, o: OrderId)
    requires Grown(st.store, store', o)
    requires st.relay.Publishing? ==> forall i | 0 <= i < |st.relay.batch| :: st.relay.batch[i] in st.store.outbox
    ensures KeyAt(st.(store := store'), o) == KeyAt(st, o)
  {
    if st.relay.Publishing? { OfFrame(st.relay.batch, st.store.outbox, store'.outbox, o); }
  }

  lemma GrownKeepsKey(st: Stream, store': State, o: OrderId, marked: nat)
    requires KeyOk(st, o, marked) && Grown(st.store, store', o)
    requires forall id | id in st.published :: id in st.store.outbox
    requires st.relay.Publishing? ==> forall i | 0 <= i < |st.relay.batch| :: st.relay.batch[i] in st.store.outbox
    requires Ascending(OutIds(store'.outbox, o, store'.nextId))
    ensures KeyOk(st.(store := store'), o, marked)
  {
    GrownKey(st, store', o);
    GrownState(KeyAt(st, o), IdsOf(st, o), OutIds(store'.outbox, o, store'.nextId), st.store.outbox, store'.outbox, st.published, marked);
  }

  lemma HandlerKeepsKey(st: Stream, step: Step, o: OrderId)
    requires StreamInv(st) && EventStore.Enabled(st.store, step)
    ensures KeyInv(st.(store := EventStore.Apply(st.store, step)), o)
  {
    var store' := EventStore.Apply(st.store, step);
    assert KeyInv(st, o);
    var marked :| KeyOk(st, o, marked);
    StoreStepGrows(st.store, step, o);
    EventStore.ReachStep(st.store, step);
    IdsFacts(store', o);
    GrownKeepsKey(st, store', o, marked);
    assert KeyOk(st.(store := store'), o, marked);
  }

  lemma HandlerKeeps(st: Stream, step: Step)
    requires StreamInv(st) && EventStore.Enabled(st.store, step)
    ensures StreamInv(st.(store := EventStore.Apply(st.store, step)))
  {
    EventStore.ReachStep(st.store, step);
    StoreStepGrows(st.store, step, 0);
    forall o ensures KeyInv(st.(store := EventStore.Apply(st.store, step)), o) {
      HandlerKeepsKey(st, step, o);
    }
  }

  // ---- the relay ----

  lemma KeyOf(st: Stream, o: OrderId) returns (marked: nat)
    requires StreamInv(st)
    ensures KeyOk(st, o, marked)
  {
    assert KeyInv(st, o);
    marked :| KeyOk(st, o, marked);
  }

  lemma SelectKeepsKey(st: Stream, size: nat, o: OrderId, marked: nat)
    requires KeyOk(st, o, marked) && st.relay.Idle?
    ensures KeyOk(st.(relay := Publishing(Batch(st, size), map[])), o, marked)
  {
    SelectedPart(st, size, o, marked);
    var topic := TopicOf(st, o);
    assert topic[|topic|..] == [];
    var part := Of(Batch(st, size), st.store.outbox, o);
    assert KeyAt(st.(relay := Publishing(Batch(st, size), map[])), o) == KeyAt(st, o).(publishing := true, part := part, sent := 0);
  }

  lemma SendState(k: Key, ids: seq<nat>, outbox: map<nat, OutRow>, published: set<nat>, marked: nat)
    requires KeyState(k, ids, outbox, published, marked) && k.publishing && k.sent < |k.part|
    ensures KeyState(k.(topic := k.topic + [k.part[k.sent]], sent := k.sent + 1), ids, outbox, published, marked)
  {
    SendKeeps(k.topic, ids, marked, k.part, k.sent);
  }

  lemma SentKey(st: Stream, key: OrderId, o: OrderId)
    requires May(st, Send(key))
    ensures var k := KeyAt(st, o);
      KeyAt(Made(st, Send(key)), o) == if o == key then k.(topic := k.topic + [k.part[k.sent]], sent := k.sent + 1) else k
  {
  }

  lemma SendKeepsKey(st: Stream, key: OrderId, o: OrderId, marked: nat)
    requires KeyOk(st, o, marked) && May(st, Send(key))
    ensures KeyOk(Made(st, Send(key)), o, marked)
  {
    SentKey(st, key, o);
    if key == o { SendState(KeyAt(st, o), IdsOf(st, o), st.store.outbox, st.published, marked); }
  }

  lemma MarkState(k: Key, ids: seq<nat>, outbox: map<nat, OutRow>, published: set<nat>, batch: seq<nat>, marked: nat)
    requires KeyState(k, ids, outbox, published, marked) && k.publishing && k.sent >= |k.part|
    requires forall i | 0 <= i < |ids| :: ids[i] in k.part <==> ids[i] in batch
    ensures KeyState(k.(publishing := false, part := [], sent := 0), ids, outbox, published + (set id | id in batch), marked + |k.part|)
  {
    MarkKeeps(k.topic, ids, marked, k.part);
  }

  lemma MarkedKey(st: Stream, o: OrderId)
    requires May(st, Mark)
    ensures KeyAt(Made(st, Mark), o) == KeyAt(st, o).(publishing := false, part := [], sent := 0)
    ensures KeyAt(st, o).publishing && KeyAt(st, o).sent >= |KeyAt(st, o).part|
  {
    assert SentOf(st.relay, o) >= |BatchOf(st, o)|;
  }

  lemma BatchMembers(st: Stream, o: OrderId)
    requires st.relay.Publishing?
    ensures var ids := IdsOf(st, o); forall i | 0 <= i < |ids| :: ids[i] in BatchOf(st, o) <==> ids[i] in st.relay.batch
  {
    var ids := IdsOf(st, o);
    OutIdsIn(st.store.outbox, o, st.store.nextId);
    forall i | 0 <= i < |ids| ensures ids[i] in BatchOf(st, o) <==> ids[i] in st.relay.batch {
      OfMembers(st.relay.batch, st.store.outbox, o, ids[i]);
    }
  }

  lemma MarkKeepsKey(st: Stream, o: OrderId, marked: nat)
    requires KeyOk(st, o, marked) && May(st, Mark)
    ensures KeyOk(Made(st, Mark), o, marked + |BatchOf(st, o)|)
  {
    MarkedKey(st, o);
    BatchMembers(st, o);
    MarkState(KeyAt(st, o), IdsOf(st, o), st.store.outbox, st.published, st.relay.batch, marked);
  }

  // ---- the projector ----

  lemma ConsumeKeepsRow(st: Stream, o: OrderId, marked: nat)
    requires EventStore.Reachable(st.store) && KeyOk(st, o, marked) && May(st, Consume(o))
    ensures var row := Project(RowOf(st, o), st.store.outbox[TopicOf(st, o)[PosOf(st, o)]].message);
      row.Some? && RowOk(row, PosOf(st, o) + 1, TopicOf(st, o), st.store.outbox, IdsOf(st, o))
  {
    var topic, ids, outbox, pos := TopicOf(st, o), IdsOf(st, o), st.store.outbox, PosOf(st, o);
    IdsFacts(st.store, o);
    FirstIsFirst(topic, ids, marked);
    assert Known(topic, ids, pos);
    var j :| 0 <= j < |ids| && ids[j] == topic[pos];
    var placed, m := outbox[ids[0]].message, outbox[topic[pos]].message;
    var log := LogAt(st.store, o);
    assert placed == MessageOf(log[0]) && m == MessageOf(log[j]);
    ProjectKeeps(RowOf(st, o), placed, m);
  }

  lemma ConsumedKey(st: Stream, key: OrderId, o: OrderId)
    requires May(st, Consume(key))
    requires Project(RowOf(st, key), st.store.outbox[TopicOf(st, key)[PosOf(st, key)]].message).Some?
    ensures var k := KeyAt(st, o);
      KeyAt(Made(st, Consume(key)), o) ==
        if o == key then k.(row := Project(k.row, st.store.outbox[k.topic[k.pos]].message), pos := k.pos + 1) else k
  {
  }

  lemma ConsumeKeepsKey(st: Stream, key: OrderId, o: OrderId)
    requires StreamInv(st) && May(st, Consume(key))
    ensures KeyInv(Made(st, Consume(key)), o)
  {
    var marked := KeyOf(st, o);
    var own := KeyOf(st, key);
    ConsumeKeepsRow(st, key, own);
    ConsumedKey(st, key, o);
    if key == o { ConsumeKeepsRow(st, o, marked); }
    assert KeyOk(Made(st, Consume(key)), o, marked);
  }

  lemma RewindKeepsKey(st: Stream, key: OrderId, to: nat, o: OrderId, marked: nat)
    requires KeyOk(st, o, marked) && May(st, Rewind(key, to))
    ensures KeyOk(Made(st, Rewind(key, to)), o, marked)
  {
    assert KeyAt(Made(st, Rewind(key, to)), o) == if o == key then KeyAt(st, o).(pos := to) else KeyAt(st, o);
  }

  lemma GiveUpKeepsKey(st: Stream, o: OrderId, marked: nat)
    requires KeyOk(st, o, marked)
    ensures KeyOk(st.(relay := Idle), o, marked)
  {
  }

  lemma MoveKeepsKey(st: Stream, m: Move, o: OrderId)
    requires StreamInv(st) && May(st, m) && !m.Handler?
    ensures KeyInv(Made(st, m), o)
  {
    var marked := KeyOf(st, o);
    match m
    case Select(size) =>
      SelectKeepsKey(st, size, o, marked);
      assert KeyOk(Made(st, m), o, marked);
    case Send(key) => SendKeepsKey(st, key, o, marked);
    case Mark =>
      MarkKeepsKey(st, o, marked);
      assert KeyOk(Made(st, m), o, marked + |BatchOf(st, o)|);
    case GiveUp => GiveUpKeepsKey(st, o, marked);
    case Consume(key) => ConsumeKeepsKey(st, key, o);
    case Rewind(key, to) => RewindKeepsKey(st, key, to, o, marked);
  }

  lemma MoveKeeps(st: Stream, m: Move)
    requires StreamInv(st) && May(st, m)
    ensures StreamInv(Made(st, m))
  {
    if m.Handler? {
      HandlerKeeps(st, m.step);
    } else {
      UnpublishedIn(st.store.outbox, st.published, st.store.nextId);
      forall o ensures KeyInv(Made(st, m), o) {
        MoveKeepsKey(st, m, o);
      }
    }
  }

  lemma {:induction false} RunKeeps(st: Stream, ms: seq<Move>, st': Stream)
    requires StreamInv(st) && EventStream.Run(st, ms, st')
    ensures StreamInv(st')
    decreases |ms|
  {
    if ms != [] {
      MoveKeeps(st, ms[0]);
      RunKeeps(Made(st, ms[0]), ms[1..], st');
    }
  }

  lemma EmptyOk()
    ensures StreamInv(EMPTY_STREAM)
  {
    assert EventStore.Run(EventStore.INITIAL, [], EventStore.INITIAL);
    forall o ensures KeyInv(EMPTY_STREAM, o) { assert KeyOk(EMPTY_STREAM, o, 0); }
  }

  lemma ReachableStream(st: Stream)
    requires EventStream.Reachable(st)
    ensures StreamInv(st)
  {
    var ms :| EventStream.Run(EMPTY_STREAM, ms, st);
    EmptyOk();
    RunKeeps(EMPTY_STREAM, ms, st);
  }

  // ---- what holds of every run ----

  /** A row marked published has been on the topic of its order. */
  lemma MarkedWasPublished(st: Stream, id: nat)
    requires EventStream.Reachable(st) && id in st.published
    ensures id in st.store.outbox && id in TopicOf(st, st.store.outbox[id].order)
  {
    ReachableStream(st);
    var o := st.store.outbox[id].order;
    var marked := KeyOf(st, o);
    EventStoreInvariant.ReachableInv(st.store);
    OutIdsIn(st.store.outbox, o, st.store.nextId);
    assert id in IdsOf(st, o);
    var i :| 0 <= i < |IdsOf(st, o)| && IdsOf(st, o)[i] == id;
  }

  /**
    A drain that is rolled back marks nothing: whatever was sent of its batch, and
    whatever handlers and projector do meanwhile, what comes next is what would have.
  */
  lemma {:induction false} FailedDrainMarksNothing(st: Stream, ms: seq<Move>, st': Stream)
    requires EventStream.Run(st, ms, st') && forall i | 0 <= i < |ms| :: ms[i] != Mark
    ensures st'.published == st.published
    ensures forall id | id in st.store.outbox && id !in st.published :: id in st'.store.outbox && id !in st'.published
    decreases |ms|
  {
    if ms != [] {
      OutboxKeeps(st, ms[0]);
      FailedDrainMarksNothing(Made(st, ms[0]), ms[1..], st');
    }
  }

  lemma {:induction false} OutRowsKeep(outbox: map<nat, OutRow>, ids: seq<nat>, changes: seq<Event>)
    requires |ids| == |changes|
    ensures outbox.Keys <= OutRows(outbox, ids, changes).Keys
  {
    if ids != [] { OutRowsKeep(outbox, ids[..|ids| - 1], changes[..|ids| - 1]); }
  }

  /** No move takes a row out of the outbox. */
  lemma OutboxKeeps(st: Stream, m: Move)
    requires May(st, m)
    ensures st.store.outbox.Keys <= Made(st, m).store.outbox.Keys
  {
    if m.Handler? && m.step.Exec? {
      var x := st.store.writers[m.step.txn];
      if x.pc.Committing? && |x.ids| == |x.changes| { OutRowsKeep(st.store.outbox, x.ids, x.changes); }
    }
  }

  /** The events of one order first appear in the order of its log. */
  lemma FirstAppearInLogOrder(st: Stream, o: OrderId, i: nat, j: nat, p: nat, q: nat)
    requires EventStream.Reachable(st) && i < j < |IdsOf(st, o)|
    requires IsFirst(TopicOf(st, o), p, IdsOf(st, o)[i]) && q < |TopicOf(st, o)| && TopicOf(st, o)[q] == IdsOf(st, o)[j]
    ensures p < q
  {
    ReachableStream(st);
    var marked := KeyOf(st, o);
    FirstCopiesInOrder(TopicOf(st, o), IdsOf(st, o), marked, i, j, p, q);
  }

  /** Once both are marked, the last copy of an earlier event precedes the last copy of a later one. */
  lemma LastCopiesInLogOrder(st: Stream, o: OrderId, i: nat, j: nat, p: nat, q: nat)
    requires EventStream.Reachable(st) && i < j < |IdsOf(st, o)|
    requires IdsOf(st, o)[i] in st.published && IdsOf(st, o)[j] in st.published
    requires IsLast(TopicOf(st, o), p, IdsOf(st, o)[i]) && IsLast(TopicOf(st, o), q, IdsOf(st, o)[j])
    ensures p < q
  {
    ReachableStream(st);
    var marked := KeyOf(st, o);
    LastCopiesInOrder(TopicOf(st, o), IdsOf(st, o), marked, i, j, p, q);
  }

  /** The record that the projector reads next. */
  function NextRecord(st: Stream, o: OrderId): Message
    requires May(st, Consume(o))
  {
    st.store.outbox[TopicOf(st, o)[PosOf(st, o)]].message
  }

  /**
    In every run, reading a record of an order leaves the record's own status in the
    row, later or earlier than what is there, and so changes the row exactly when the
    two differ: a redelivered placement keeps it exactly while it is pending.
  */
  lemma ConsumeKeepsIff(st: Stream, o: OrderId)
    requires EventStream.Reachable(st) && May(st, Consume(o)) && RowOf(st, o).Some?
    ensures var row, m, after := RowOf(st, o).value, NextRecord(st, o), RowOf(Made(st, Consume(o)), o);
      && after == Some(row.(status := StatusOf(m)))
      && (after == Some(row) <==> row.status == StatusOf(m))
      && (m.PlacedMessage? ==> (after == Some(row) <==> row.status == Pending))
  {
    ReachableStream(st);
    var marked := KeyOf(st, o);
    ConsumeIsStatus(st, o, marked);
  }

  lemma ConsumeIsStatus(st: Stream, o: OrderId, marked: nat)
    requires EventStore.Reachable(st.store) && KeyOk(st, o, marked) && May(st, Consume(o)) && RowOf(st, o).Some?
    ensures Project(RowOf(st, o), NextRecord(st, o)) == Some(RowOf(st, o).value.(status := StatusOf(NextRecord(st, o))))
  {
    var topic, ids := TopicOf(st, o), IdsOf(st, o);
    IdsFacts(st.store, o);
    assert Known(topic, ids, PosOf(st, o));
    var j :| 0 <= j < |ids| && ids[j] == topic[PosOf(st, o)];
    assert NextRecord(st, o) == MessageOf(LogAt(st.store, o)[j]);
    ProjectKeeps(RowOf(st, o), st.store.outbox[ids[0]].message, NextRecord(st, o));
  }

  /** Every row of the order is marked, and the projector is at the end of its records. */
  ghost predicate CaughtUp(st: Stream, o: OrderId) {
    && (forall i | 0 <= i < |IdsOf(st, o)| :: IdsOf(st, o)[i] in st.published)
    && PosOf(st, o) == |TopicOf(st, o)|
  }

  lemma AllMarked(ids: seq<nat>, published: set<nat>, marked: nat)
    requires MarkedPrefix(ids, published, marked) && forall i | 0 <= i < |ids| :: ids[i] in published
    ensures marked == |ids|
  {
    assert ids != [] ==> ids[|ids| - 1] in published;
  }

  lemma CaughtUpRow(st: Stream, o: OrderId, marked: nat)
    requires KeyOk(st, o, marked) && CaughtUp(st, o) && IdsOf(st, o) != []
    ensures var ids, outbox := IdsOf(st, o), st.store.outbox;
      && RowOf(st, o).Some? && ids[0] in outbox && ids[|ids| - 1] in outbox && outbox[ids[0]].message.PlacedMessage?
      && SameOrder(RowOf(st, o).value, outbox[ids[0]].message)
      && RowOf(st, o).value.status == StatusOf(outbox[ids[|ids| - 1]].message)
  {
    AllMarked(IdsOf(st, o), st.published, marked);
    DrainedEndsWithLast(TopicOf(st, o), IdsOf(st, o));
  }

  /**
    Convergence: whatever failed, was published twice or was read again, once an
    order's outbox is drained and the projector has caught up, the order's row is
    the fold of its log.
  */
  lemma ReadModelConverges(st: Stream, o: OrderId)
    requires EventStream.Reachable(st) && CaughtUp(st, o) && o in st.store.log
    ensures GoodLog(o, st.store.log[o]) && RowOf(st, o) == Some(Folded(st.store.log[o]))
  {
    ReachableStream(st);
    var marked := KeyOf(st, o);
    LogAndOutbox(st.store, o);
    IdsFacts(st.store, o);
    CaughtUpRow(st, o, marked);
    FoldedIsLast(o, st.store.log[o]);
  }
}
