/** RelayStore.DrainBatch and the relay's loop in the form of the Go code. */
module RelayWorker {
  import opened OrderValues
  import opened EventStore
  import opened EventStream
  import opened EventStreamInvariant
  import opened TopicOrder
  import EventStoreInvariant

  /**
    How a cycle goes: `broker` are the keys whose next record still gets out when the
    publish fails; a commit may fail, or take effect while its acknowledgement is lost.
  */
  datatype Cycle = Succeeds | PublishFails(broker: seq<OrderId>) | CommitFails | CommitUnacknowledged

  lemma {:induction false} UnpublishedAscends(outbox: map<nat, OutRow>, published: set<nat>, n: nat)
    ensures var p := Unpublished(outbox, published, n);
      Ascending(p) && forall i | 0 <= i < |p| :: p[i] < n && p[i] in outbox && p[i] !in published
  {
    if n > 0 { UnpublishedAscends(outbox, published, n - 1); }
  }

  lemma {:induction false} UnpublishedHas(outbox: map<nat, OutRow>, published: set<nat>, n: nat, id: nat)
    requires id in outbox && id !in published && id < n
    ensures id in Unpublished(outbox, published, n)
  {
    if id < n - 1 { UnpublishedHas(outbox, published, n - 1, id); }
  }

  /** A batch: no duplicates, nothing published before. */
  lemma BatchIsFresh(st: Stream, size: nat)
    ensures var b := Batch(st, size);
      |b| <= size && Ascending(b) && forall i | 0 <= i < |b| :: b[i] in st.store.outbox && b[i] !in st.published
  {
    var p := Unpublished(st.store.outbox, st.published, st.store.nextId);
    UnpublishedAscends(st.store.outbox, st.published, st.store.nextId);
    var b := Batch(st, size);
    assert forall i | 0 <= i < |b| :: b[i] == p[i];
  }

  /** A batch leaves out no unpublished row that comes before one of its own; a short batch leaves out none. */
  lemma BatchIsFirst(st: Stream, size: nat, id: nat)
    requires EventStream.Reachable(st) && id in st.store.outbox && id !in st.published
    requires |Batch(st, size)| < size || exists i :: 0 <= i < |Batch(st, size)| && id < Batch(st, size)[i]
    ensures id in Batch(st, size)
  {
    ReachableStream(st);
    EventStoreInvariant.ReachableInv(st.store);
    var p, b := Unpublished(st.store.outbox, st.published, st.store.nextId), Batch(st, size);
    UnpublishedAscends(st.store.outbox, st.published, st.store.nextId);
    UnpublishedHas(st.store.outbox, st.published, st.store.nextId, id);
    var k :| 0 <= k < |p| && p[k] == id;
    if |b| < size {
      assert b == p;
    } else {
      var i :| 0 <= i < |b| && id < b[i];
      assert b[i] == p[i];
      assert k < i;
      assert b[k] == p[k];
    }
  }

  lemma SentPart(st: Stream, i: nat)
    requires st.relay.Publishing? && i < |st.relay.batch| && st.relay.batch[i] in st.store.outbox
    requires forall o :: SentOf(st.relay, o) == |Of(st.relay.batch[..i], st.store.outbox, o)|
    ensures var o := st.store.outbox[st.relay.batch[i]].order;
      && May(st, Send(o))
      && forall p :: SentOf(Made(st, Send(o)).relay, p) == |Of(st.relay.batch[..i + 1], st.store.outbox, p)|
  {
    var batch, outbox := st.relay.batch, st.store.outbox;
    var o := outbox[batch[i]].order;
    assert batch[..i + 1] == batch[..i] + [batch[i]];
    OfPrefix(batch, outbox, o, i + 1);
    forall p ensures |Of(batch[..i + 1], outbox, p)| == |Of(batch[..i], outbox, p)| + (if p == o then 1 else 0) {}
  }

  class RelayStore {
    var st: Stream

    ghost predicate Valid()
      reads this
    {
      EventStream.Reachable(st)
    }

    constructor (st: Stream)
      requires EventStream.Reachable(st)
      ensures Valid() && this.st == st
    {
      this.st := st;
    }

    method Do(move: Move)
      requires Valid() && May(st, move)
      modifies this
      ensures Valid() && st == Made(old(st), move)
    {
      EventStream.ReachStep(st, move);
      st := Made(st, move);
    }

    /** Handlers commit and the projector reads while the relay is at work. */
    method Others(moves: seq<Move>)
      requires Valid()
      modifies this
      ensures Valid() && st.relay == old(st.relay) && st.published == old(st.published)
      ensures st.relay.Publishing? ==> forall o :: Of(st.relay.batch, st.store.outbox, o) == Of(st.relay.batch, old(st.store.outbox), o)
    {
      ReachableStream(st);
      for i := 0 to |moves|
        invariant Valid() && st.relay == old(st.relay) && st.published == old(st.published)
        invariant forall id | id in old(st.store.outbox) :: id in st.store.outbox && st.store.outbox[id] == old(st.store.outbox)[id]
      {
        if moves[i].Handler? && EventStore.Enabled(st.store, moves[i].step) {
          ReachableStream(st);
          StoreStepGrows(st.store, moves[i].step, 0);
          Do(moves[i]);
        } else if moves[i].Consume? && PosOf(st, moves[i].order) < |TopicOf(st, moves[i].order)|
                  && TopicOf(st, moves[i].order)[PosOf(st, moves[i].order)] in st.store.outbox {
          Do(moves[i]);
        } else if moves[i].Rewind? && moves[i].to <= PosOf(st, moves[i].order) {
          Do(moves[i]);
        }
      }
      if st.relay.Publishing? {
        forall o ensures Of(st.relay.batch, st.store.outbox, o) == Of(st.relay.batch, old(st.store.outbox), o) {
          OfFrame(st.relay.batch, old(st.store.outbox), st.store.outbox, o);
        }
      }
    }

    /** Publisher.Publish without an error: every record is on the topic, each key's in batch order. */
    method PublishAll()
      requires Valid() && st.relay.Publishing? && st.relay.sent == map[]
      modifies this
      ensures Valid() && AllSent(st) && st.published == old(st.published) && st.store == old(st.store)
      ensures st.relay.Publishing? && st.relay.batch == old(st.relay.batch)
    {
      ReachableStream(st);
      var batch := st.relay.batch;
      for i := 0 to |batch|
        invariant Valid() && st.relay.Publishing? && st.relay.batch == batch
        invariant st.published == old(st.published) && st.store == old(st.store)
        invariant forall o :: SentOf(st.relay, o) == |Of(batch[..i], st.store.outbox, o)|
      {
        SentPart(st, i);
        Do(Send(st.store.outbox[batch[i]].order));
      }
      assert batch[..|batch|] == batch;
    }

    /** A failing publish: of each key, some first part of its records gets out. */
    method PublishSome(broker: seq<OrderId>)
      requires Valid() && st.relay.Publishing?
      modifies this
      ensures Valid() && st.relay.Publishing? && st.published == old(st.published)
    {
      for i := 0 to |broker|
        invariant Valid() && st.relay.Publishing? && st.published == old(st.published)
      {
        if SentOf(st.relay, broker[i]) < |BatchOf(st, broker[i])| { Do(Send(broker[i])); }
      }
    }

    /**
      DrainBatch: the first unpublished rows, in outbox order, are all on the topic
      and marked, or an error leaves every mark as it was; only when the commit's
      acknowledgement is lost are the rows marked although it reports an error.
    */
    method DrainBatch(batchSize: nat, meanwhile: seq<Move>, cycle: Cycle) returns (processed: nat, ok: bool)
      requires Valid() && st.relay.Idle?
      modifies this
      ensures Valid() && st.relay.Idle?
      ensures var b := Batch(old(st), batchSize);
        st.published ==
          if ok || (cycle.CommitUnacknowledged? && b != []) then old(st.published) + (set id | id in b) else old(st.published)
      ensures processed == if ok then |Batch(old(st), batchSize)| else 0
      ensures ok <==> cycle.Succeeds? || Batch(old(st), batchSize) == []
    {
      var records := Batch(st, batchSize);
      if |records| == 0 { return 0, true; }
      Do(Select(batchSize));
      if cycle.PublishFails? {
        PublishSome(cycle.broker);
        Do(GiveUp);
        return 0, false;
      }
      PublishAll();
      if cycle.CommitFails? {
        Do(GiveUp);
        return 0, false;
      }
      Others(meanwhile);
      assert AllSent(st);
      Do(Mark);
      if cycle.CommitUnacknowledged? { return 0, false; }
      return |records|, true;
    }
  }

  /** The rows marked by a drain are new ones. */
  lemma DrainCounts(st: Stream, batchSize: nat)
    ensures |st.published + (set id | id in Batch(st, batchSize))| == |st.published| + |Batch(st, batchSize)|
  {
    BatchIsFresh(st, batchSize);
    var b := Batch(st, batchSize);
    var s := set id | id in b;
    DistinctCount(b, s);
    assert st.published * s == {};
    assert |st.published + s| == |st.published| + |s|;
  }

  lemma {:induction false} DistinctCount(ids: seq<nat>, s: set<nat>)
    requires Ascending(ids) && forall id :: id in s <==> id in ids
    ensures |s| == |ids|
    decreases |ids|
  {
    if ids == [] {
      assert s == {};
    } else {
      var n := |ids| - 1;
      var last := ids[n];
      forall id ensures id in s - {last} <==> id in ids[..n] {
        if id in s && id != last {
          var i :| 0 <= i < |ids| && ids[i] == id;
          assert ids[..n][i] == id;
        }
      }
      DistinctCount(ids[..n], s - {last});
    }
  }

  class Worker {
    const store: RelayStore
    const batchSize: nat
    var relayed: nat

    constructor (store: RelayStore, batchSize: nat)
      ensures this.store == store && this.batchSize == batchSize && relayed == 0
    {
      this.store, this.batchSize, relayed := store, batchSize, 0;
    }

    /**
      One cycle after another. The metric counts only rows that got marked, and all of
      them unless an acknowledgement was lost; the rows that head the outbox at the start
      are among them if the first cycle succeeds.
    */
    method Run(cycles: seq<(seq<Move>, Cycle)>)
      requires store.Valid() && store.st.relay.Idle?
      modifies this, store
      ensures store.Valid() && store.st.relay.Idle? && old(store.st.published) <= store.st.published
      ensures relayed - old(relayed) <= |store.st.published| - |old(store.st.published)|
      ensures (forall i | 0 <= i < |cycles| :: !cycles[i].1.CommitUnacknowledged?) ==>
        relayed - old(relayed) == |store.st.published| - |old(store.st.published)|
      ensures cycles != [] && cycles[0].1.Succeeds? ==>
        forall id | id in Batch(old(store.st), batchSize) :: id in store.st.published
    {
      for i := 0 to |cycles|
        invariant store.Valid() && store.st.relay.Idle? && old(store.st.published) <= store.st.published
        invariant relayed - old(relayed) <= |store.st.published| - |old(store.st.published)|
        invariant (forall j | 0 <= j < i :: !cycles[j].1.CommitUnacknowledged?) ==>
          relayed - old(relayed) == |store.st.published| - |old(store.st.published)|
        invariant i == 0 ==> store.st == old(store.st)
        invariant i > 0 && cycles[0].1.Succeeds? ==> forall id | id in Batch(old(store.st), batchSize) :: id in store.st.published
      {
        ghost var before := store.st;
        var processed, ok := store.DrainBatch(batchSize, cycles[i].0, cycles[i].1);
        DrainCounts(before, batchSize);
        if processed > 0 { relayed := relayed + processed; }
        store.Others(cycles[i].0);
      }
    }
  }
}
