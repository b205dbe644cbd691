/**
  From the outbox to the read model: one relay that publishes batches and marks
  them in one transaction, a topic that keeps one sequence per key, and a projector
  that reads forward and may be set back.

  A record is named by its outbox id. The topic of a key is the subsequence of its
  partition; being set back in a partition sets the projector back in some of its
  keys, and here any key may be set back on its own.
*/
module EventStream {
  import opened Results
  import opened OrderValues
  import opened EventStore
  import opened ReadModel

  datatype Relay =
    | Idle
    | Publishing(batch: seq<nat>, sent: map<OrderId, nat>)   // per key, how much of the batch is out

  datatype Stream = Stream(store: State, published: set<nat>, relay: Relay,
                           topic: map<OrderId, seq<nat>>, rows: map<OrderId, Row>, pos: map<OrderId, nat>)

  const EMPTY_STREAM := Stream(EventStore.INITIAL, {}, Idle, map[], map[], map[])

  datatype Move =
    | Handler(step: Step)            // a handler's statement on the event store
    | Select(size: nat)              // the relay's SELECT ... LIMIT, within its transaction
    | Send(order: OrderId)           // one record of the batch reaches the broker
    | Mark                           // all records out, UPDATE and COMMIT
    | GiveUp                         // publish error, crash or failed commit: nothing is marked
    | Consume(order: OrderId)        // the projector applies its next record of the key
    | Rewind(order: OrderId, to: nat)

  // ---- queries ----

  /** Unpublished rows with ids below `n`, ascending. */
  function Unpublished(outbox: map<nat, OutRow>, published: set<nat>, n: nat): seq<nat> {
    if n == 0 then []
    else Unpublished(outbox, published, n - 1) + (if n - 1 in outbox && n - 1 !in published then [n - 1] else [])
  }

  function Min(a: nat, b: nat): nat { if a <= b then a else b }

  function Batch(st: Stream, size: nat): seq<nat> {
    var pending := Unpublished(st.store.outbox, st.published, st.store.nextId);
    pending[..Min(size, |pending|)]
  }

  /** The part of a batch that belongs to one key. */
  function Of(ids: seq<nat>, outbox: map<nat, OutRow>, o: OrderId): seq<nat> {
    if ids == [] then []
    else
      var n := |ids| - 1;
      Of(ids[..n], outbox, o) + (if ids[n] in outbox && outbox[ids[n]].order == o then [ids[n]] else [])
  }

  function SentOf(relay: Relay, o: OrderId): nat {
    if relay.Publishing? && o in relay.sent then relay.sent[o] else 0
  }

  function BatchOf(st: Stream, o: OrderId): seq<nat> {
    if st.relay.Publishing? then Of(st.relay.batch, st.store.outbox, o) else []
  }

  function TopicOf(st: Stream, o: OrderId): seq<nat> {
    if o in st.topic then st.topic[o] else []
  }

  function PosOf(st: Stream, o: OrderId): nat {
    if o in st.pos then st.pos[o] else 0
  }

  function RowOf(st: Stream, o: OrderId): Option<Row> {
    if o in st.rows then Some(st.rows[o]) else None
  }

  function IdsOf(st: Stream, o: OrderId): seq<nat> {
    OutIds(st.store.outbox, o, st.store.nextId)
  }

  ghost predicate AllSent(st: Stream) {
    forall o :: SentOf(st.relay, o) >= |BatchOf(st, o)|
  }

  // ---- steps ----

  ghost predicate May(st: Stream, m: Move) {
    match m
    case Handler(step) => EventStore.Enabled(st.store, step)
    case Select(_) => st.relay.Idle?
    case Send(o) => st.relay.Publishing? && SentOf(st.relay, o) < |BatchOf(st, o)|
    case Mark => st.relay.Publishing? && AllSent(st)
    case GiveUp => st.relay.Publishing?
    case Consume(o) =>
      PosOf(st, o) < |TopicOf(st, o)| && TopicOf(st, o)[PosOf(st, o)] in st.store.outbox
    case Rewind(o, to) => to <= PosOf(st, o)
  }

  function Made(st: Stream, m: Move): Stream
    requires May(st, m)
  {
    match m
    case Handler(step) => st.(store := EventStore.Apply(st.store, step))
    case Select(size) =>
      if Batch(st, size) == [] then st else st.(relay := Publishing(Batch(st, size), map[]))
    case Send(o) =>
      st.(topic := st.topic[o := TopicOf(st, o) + [BatchOf(st, o)[SentOf(st.relay, o)]]],
          relay := st.relay.(sent := st.relay.sent[o := SentOf(st.relay, o) + 1]))
    case Mark => st.(published := st.published + (set id | id in st.relay.batch), relay := Idle)
    case GiveUp => st.(relay := Idle)
    case Consume(o) =>
      var row := Project(RowOf(st, o), st.store.outbox[TopicOf(st, o)[PosOf(st, o)]].message);
      st.(rows := if row.Some? then st.rows[o := row.value] else st.rows, pos := st.pos[o := PosOf(st, o) + 1])
    case Rewind(o, to) => st.(pos := st.pos[o := to])
  }

  ghost predicate Run(st: Stream, ms: seq<Move>, st': Stream)
    decreases |ms|
  {
    if ms == [] then st == st' else May(st, ms[0]) && Run(Made(st, ms[0]), ms[1..], st')
  }

  ghost predicate Reachable(st: Stream) {
    exists ms :: Run(EMPTY_STREAM, ms, st)
  }

  lemma {:induction false} RunSnoc(st: Stream, ms: seq<Move>, m: Stream, move: Move)
    requires Run(st, ms, m) && May(m, move)
    ensures Run(st, ms + [move], Made(m, move))
    decreases |ms|
  {
    if ms == [] {
      assert Run(Made(m, move), [], Made(m, move));
      assert ([move])[1..] == [];
    } else {
      RunSnoc(Made(st, ms[0]), ms[1..], m, move);
      assert (ms + [move])[1..] == ms[1..] + [move];
    }
  }

  lemma ReachStep(st: Stream, move: Move)
    requires Reachable(st) && May(st, move)
    ensures Reachable(Made(st, move))
  {
    var ms :| Run(EMPTY_STREAM, ms, st);
    RunSnoc(EMPTY_STREAM, ms, st, move);
  }
}
