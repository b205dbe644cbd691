/**
  OrderRepository and the confirm and cancel handlers in the form of the Go code.
  Every database statement is a step of the event store's machine; other handlers
  take steps before each one, and the connection may be lost.
*/
module OrderHandlers {
  import opened Results
  import opened OrderValues
  import opened OrderAggregate
  import opened Codec
  import opened EventStore
  import opened EventStoreInvariant

  datatype Turn = Turn(steps: seq<Step>, fails: bool)

  /** lifecycleOutbox: messages of confirmed and cancelled events. */
  function Lifecycle(changes: seq<Event>): seq<Message> {
    if changes == [] then []
    else
      var n := |changes| - 1;
      Lifecycle(changes[..n]) + (if changes[n].OrderPlaced? then [] else [MessageOf(changes[n])])
  }

  /** toOutbox: messages of placed events. */
  function Placements(changes: seq<Event>): seq<Message> {
    if changes == [] then []
    else
      var n := |changes| - 1;
      Placements(changes[..n]) + (if changes[n].OrderPlaced? then [MessageOf(changes[n])] else [])
  }

  /** Each handler announces every event that it stores. */
  lemma {:induction false} EveryEventAnnounced(changes: seq<Event>)
    ensures (forall i | 0 <= i < |changes| :: !changes[i].OrderPlaced?) ==> Lifecycle(changes) == MessagesOf(changes)
    ensures (forall i | 0 <= i < |changes| :: changes[i].OrderPlaced?) ==> Placements(changes) == MessagesOf(changes)
  {
    if changes != [] {
      var n := |changes| - 1;
      EveryEventAnnounced(changes[..n]);
      assert MessagesOf(changes) == MessagesOf(changes[..n]) + [MessageOf(changes[n])];
    }
  }

  method LifecycleOutbox(changes: seq<Event>) returns (messages: seq<Message>)
    ensures messages == Lifecycle(changes)
  {
    messages := [];
    for i := 0 to |changes|
      invariant messages == Lifecycle(changes[..i])
    {
      assert changes[..i + 1][..i] == changes[..i];
      match changes[i] {
        case OrderConfirmed(o, at) => messages := messages + [ConfirmedMessage(o, at)];
        case OrderCancelled(o, why, at) => messages := messages + [CancelledMessage(o, why, at)];
        case OrderPlaced(_, _, _, _, _, _) =>
      }
    }
    assert changes[..|changes|] == changes;
  }

  /** What a handler that has loaded `v` at version `n` goes on with, or why it is done. */
  predicate AfterLoad(x: Writer, v: View, n: nat, history: seq<Event>, x': Writer)
    requires x.job.Commanding?
  {
    var raised, d := Raised(v, x.job.command, x.job.now), Decide(v, x.job.command, x.job.now);
    if raised != [] then
      !Hopeless(x.job.command, history)
      && x' == x.(view := Applied(v, raised[0]), version := n + 1, changes := raised, pc := InsertingEvent(0))
    else
      && x'.pc.Ended?
      && (d.Err? ==> Hopeless(x.job.command, history))
      && (d.Ok? ==> !Hopeless(x.job.command, history) && |history| == 2 && StatusAfter(history) == Goal(x.job.command))
  }

  lemma LoadedLength(s: State, o: OrderId)
    ensures Loaded(LogAt(s, o)).Ok? ==> |Loaded(LogAt(s, o)).value| == |LogAt(s, o)|
  {
    CollectAt(EachRead(LogAt(s, o)));
  }

  /** The log ends with the event that the writer's command was to append. */
  predicate Closes(x: Writer, history: seq<Event>)
    requires x.job.Commanding?
  {
    |history| == 2 && history[1] == Closing(x.order, x.job.command, x.job.now) && StatusAfter(history) == Goal(x.job.command)
  }

  /** Nobody else is at work. */
  predicate Alone(s: State, t: TxnId) {
    forall u | u in s.writers && u != t :: !s.writers[u].Active()
  }

  /** The order_events and outbox tables, shared with every other handler. */
  class OrderDatabase {
    var s: State
    var turns: seq<Turn>

    ghost predicate Valid()
      reads this
    {
      EventStore.Reachable(s)
    }

    constructor (s: State, turns: seq<Turn>)
      requires EventStore.Reachable(s)
      ensures Valid() && this.s == s && this.turns == turns
    {
      this.s, this.turns := s, turns;
    }

    predicate Blocked(t: TxnId)
      reads this
    {
      exists u | u in s.writers :: WaitsFor(s, t, u)
    }

    method Do(step: Step)
      requires Valid() && EventStore.Enabled(s, step)
      modifies this`s
      ensures Valid() && s == EventStore.Apply(old(s), step)
    {
      EventStore.ReachStep(s, step);
      s := EventStore.Apply(s, step);
    }

    /** Other handlers' statements; false when the connection is lost, which ends this handler. */
    method Await(t: TxnId) returns (ok: bool)
      requires Valid() && t in s.writers && s.writers[t].Active()
      modifies this
      ensures Valid() && t in s.writers
      ensures ok ==> s.writers[t] == old(s.writers[t]) && !Blocked(t)
      ensures !ok ==> s.writers[t] == Finish(old(s.writers[t]), Broken)
      ensures old(turns) == [] && !old(Blocked(t)) ==> ok && s == old(s) && turns == []
    {
      while turns != []
        invariant Valid() && t in s.writers && s.writers[t] == old(s.writers[t])
        invariant old(turns) == [] ==> turns == [] && s == old(s)
        decreases |turns|
      {
        var turn, rest := turns[0], turns[1..];
        turns := rest;
        for i := 0 to |turn.steps|
          invariant Valid() && t in s.writers && s.writers[t] == old(s.writers[t]) && turns == rest
        {
          if turn.steps[i].txn != t && EventStore.Enabled(s, turn.steps[i]) { Do(turn.steps[i]); }
        }
        if turn.fails { Do(Abort(t)); return false; }
        if !Blocked(t) { return true; }
      }
      if Blocked(t) { Do(Abort(t)); return false; }
      return true;
    }
  }

  class OrderRepository {
    const db: OrderDatabase

    constructor (db: OrderDatabase)
      ensures this.db == db
    {
      this.db := db;
    }

    /** Decode the rows one by one, stopping at the first that cannot be read. */
    method ReadRows(history: seq<Event>) returns (r: Result<seq<Event>, OrderError>)
      ensures r == Collect(EachRead(history))
    {
      ghost var rs := EachRead(history);
      var events: seq<Event> := [];
      for i := 0 to |history|
        invariant Collect(rs[..i]) == Ok(events)
      {
        assert rs[..i + 1][..i] == rs[..i];
        var eventType, payload := EncodeEvent(history[i]);
        var e := DecodeEvent(eventType, payload);
        if e.Err? {
          CollectStops(rs, i + 1);
          return Err(e.error);
        }
        events := events + [e.value];
      }
      assert rs[..|history|] == rs;
      return Ok(events);
    }

    /** Load: the aggregate of the order's events, as they are now. It fails, or leads to a refusal, only when hopeless. */
    method Load(t: TxnId, id: OrderId) returns (r: Result<Order, OrderError>)
      requires db.Valid() && t in db.s.writers && !db.Blocked(t)
      requires db.s.writers[t].pc == Loading && db.s.writers[t].job.Commanding? && db.s.writers[t].order == id
      modifies db`s
      ensures db.Valid() && t in db.s.writers && db.s.log == old(db.s.log)
      ensures db.s.writers == old(db.s.writers)[t := db.s.writers[t]]
      ensures r.Err? ==> db.s.writers[t].pc.Ended? && Hopeless(old(db.s.writers[t]).job.command, LogAt(db.s, id))
      ensures r.Ok? ==>
        && fresh(r.value) && r.value.changes == [] && r.value.version == |LogAt(db.s, id)|
        && AfterLoad(old(db.s.writers[t]), r.value.Snapshot(), r.value.version, LogAt(db.s, id), db.s.writers[t])
    {
      var rows := LogAt(db.s, id);
      ghost var x := db.s.writers[t];
      CommandIsAtomic(db.s, t);
      RefusedIffHopeless(db.s, t);
      LoadedLength(db.s, id);
      db.Do(Exec(t));
      var history := ReadRows(rows);
      if history.Err? { return Err(history.error); }
      if |rows| == 0 { return Err(OrderNotFound); }
      r := Order.Rehydrate(history.value);
    }

    /** Undisturbed so far, and the order's log is as it was. */
    ghost predicate Quiet(t: TxnId, o: OrderId, history: seq<Event>)
      reads db
    {
      db.turns == [] && Alone(db.s, t) && LogAt(db.s, o) == history
    }

    /** One INSERT per event at its version; the writer waits for whoever holds that version. */
    method InsertEvents(t: TxnId, changes: seq<Event>, expected: int) returns (ok: bool)
      requires db.Valid() && t in db.s.writers && db.s.writers[t].pc == InsertingEvent(0)
      requires changes == db.s.writers[t].changes != [] && expected == db.s.writers[t].Expected()
      modifies db
      ensures db.Valid() && t in db.s.writers
      ensures ok ==> db.s.writers[t] == old(db.s.writers[t]).(pc := InsertingOutbox(0))
      ensures !ok ==> db.s.writers[t].pc.Ended? && db.s.writers[t].pc.outcome != Saved
      ensures var x, history := old(db.s.writers[t]), LogAt(old(db.s), old(db.s.writers[t]).order);
        old(Quiet(t, x.order, history)) ==> (ok <==> expected == |history|) && (ok ==> Quiet(t, x.order, history))
    {
      ghost var x, history := db.s.writers[t], LogAt(db.s, db.s.writers[t].order);
      ghost var quiet := Quiet(t, x.order, history);
      ReachableWriter(db.s, t);
      for i := 0 to |changes|
        invariant db.Valid() && t in db.s.writers
        invariant db.s.writers[t] == x.(pc := if i < |changes| then InsertingEvent(i) else InsertingOutbox(0))
        invariant quiet ==> Quiet(t, x.order, history) && (i > 0 ==> expected == |history|)
      {
        ok := db.Await(t);
        if !ok { return; }
        var version := expected + i + 1;
        var conflict := version <= |LogAt(db.s, db.s.writers[t].order)|;
        db.Do(Exec(t));
        if conflict { return false; }
      }
      return true;
    }

    /** One INSERT per message, each with the next id. */
    method InsertMessages(t: TxnId, outbox: seq<Message>) returns (ok: bool)
      requires db.Valid() && t in db.s.writers && db.s.writers[t].pc == InsertingOutbox(0)
      requires outbox == MessagesOf(db.s.writers[t].changes) != [] && db.s.writers[t].ids == []
      modifies db
      ensures db.Valid() && t in db.s.writers
      ensures ok ==> db.s.writers[t] == old(db.s.writers[t]).(pc := Committing, ids := db.s.writers[t].ids)
      ensures ok ==> |db.s.writers[t].ids| == |db.s.writers[t].changes|
      ensures !ok ==> db.s.writers[t].pc.Ended? && db.s.writers[t].pc.outcome != Saved
      ensures var x, history := old(db.s.writers[t]), LogAt(old(db.s), old(db.s.writers[t]).order);
        old(Quiet(t, x.order, history)) ==> ok && Quiet(t, x.order, history)
    {
      ghost var x, history := db.s.writers[t], LogAt(db.s, db.s.writers[t].order);
      ghost var quiet := Quiet(t, x.order, history);
      for j := 0 to |outbox|
        invariant db.Valid() && t in db.s.writers && |db.s.writers[t].ids| == j
        invariant db.s.writers[t] == x.(pc := if j < |outbox| then InsertingOutbox(j) else Committing, ids := db.s.writers[t].ids)
        invariant quiet ==> Quiet(t, x.order, history)
      {
        ok := db.Await(t);
        if !ok { return; }
        db.Do(Exec(t));
      }
      return true;
    }

    /** COMMIT, which may take effect although its acknowledgement is lost. */
    method Commit(t: TxnId) returns (ok: bool)
      requires db.Valid() && t in db.s.writers && db.s.writers[t].pc == Committing
      requires |db.s.writers[t].ids| == |db.s.writers[t].changes|
      modifies db
      ensures db.Valid() && t in db.s.writers && db.s.writers[t].pc.Ended?
      ensures ok ==> db.s.writers[t].pc == Ended(Saved)
      ensures var x := old(db.s.writers[t]);
        db.s.writers[t].pc == Ended(Saved) ==>
          && EndsWith(LogAt(db.s, x.order), x.changes)
          && x.view == Fold(LogAt(db.s, x.order)) && x.version == |LogAt(db.s, x.order)|
          && (x.job.Commanding? ==> Closes(x, LogAt(db.s, x.order)))
      ensures old(db.turns) == [] ==> ok
    {
      ok := db.Await(t);
      if !ok { return; }
      WinnerAgrees(db.s, t);
      if db.s.writers[t].job.Commanding? { CommandIsAtomic(db.s, t); }
      db.Do(Exec(t));
      ok := db.turns == [] || !db.turns[0].fails;
      if db.turns != [] { db.turns := db.turns[1..]; }
    }

    /**
      Save: events, messages, COMMIT, in one transaction; without an error all of it is
      there, and with one nothing, or all of it when the acknowledgement was lost. The
      handlers pass exactly the messages of the staged events.
    */
    method Save(t: TxnId, agg: Order, expected: int, outbox: seq<Message>) returns (saved: bool)
      requires db.Valid() && t in db.s.writers && db.s.writers[t].pc == InsertingEvent(0)
      requires agg.changes == db.s.writers[t].changes && |agg.changes| > 0 && outbox == MessagesOf(agg.changes)
      requires expected == db.s.writers[t].Expected() && db.s.writers[t].ids == []
      modifies db
      ensures db.Valid() && t in db.s.writers && db.s.writers[t].pc.Ended?
      ensures saved ==> db.s.writers[t].pc == Ended(Saved)
      ensures var x := old(db.s.writers[t]);
        db.s.writers[t].pc == Ended(Saved) ==>
          && EndsWith(LogAt(db.s, x.order), agg.changes)
          && x.view == Fold(LogAt(db.s, x.order)) && x.version == |LogAt(db.s, x.order)|
          && (x.job.Commanding? ==> Closes(x, LogAt(db.s, x.order)))
      ensures var x, history := old(db.s.writers[t]), LogAt(old(db.s), old(db.s.writers[t]).order);
        old(Quiet(t, x.order, history)) ==> (saved <==> expected == |history|)
    {
      saved := InsertEvents(t, agg.changes, expected);
      if !saved { return; }
      saved := InsertMessages(t, outbox);
      if !saved { return; }
      saved := Commit(t);
    }
  }

  /** ConfirmOrderHandler and CancelOrderHandler. */
  class OrderCommands {
    const db: OrderDatabase
    const repo: OrderRepository

    constructor (db: OrderDatabase)
      ensures this.db == db && repo.db == db
    {
      this.db := db;
      repo := new OrderRepository(db);
    }

    /**
      Without an error the order's log ends with the goal of the command, now. The
      aggregate returned, if the handler stored anything, is the fold of that log at
      its version, and the log ends with the command's own event.
    */
    ghost predicate Reached(o: OrderId, c: Command, now: Time, ok: bool, agg: Option<Order>)
      reads this, db, if agg.Some? then {agg.value} else {}
    {
      var history := LogAt(db.s, o);
      && (ok ==> |history| == 2 && StatusAfter(history) == Goal(c))
      && (agg.Some? ==>
            && ok && history[1] == Closing(o, c, now)
            && agg.value.Snapshot() == Fold(history) && agg.value.version == |history| && agg.value.changes == [])
    }

    /** BEGIN, and everybody else. */
    method Begin(t: TxnId, o: OrderId, c: Command, now: Time) returns (ok: bool)
      requires db.Valid() && repo.db == db && t !in db.s.writers
      modifies db
      ensures db.Valid() && t in db.s.writers
      ensures ok ==> db.s.writers[t] == NewWriter(o, Commanding(c, now)) && !db.Blocked(t)
      ensures !ok ==> db.s.writers[t].pc.Ended?
      ensures old(db.turns) == [] && Alone(old(db.s), t) ==> ok && repo.Quiet(t, o, LogAt(old(db.s), o))
    {
      db.Do(Start(t, o, Commanding(c, now)));
      ok := db.Await(t);
    }

    method Confirm(t: TxnId, o: OrderId, now: Time) returns (ok: bool, agg: Option<Order>)
      requires db.Valid() && repo.db == db && t !in db.s.writers
      modifies db
      ensures db.Valid() && t in db.s.writers && db.s.writers[t].pc.Ended?
      ensures (agg.Some? ==> fresh(agg.value)) && Reached(o, Command.Confirm, now, ok, agg)
      ensures ok ==> EndsInConfirmed(LogAt(db.s, o)) && (agg.Some? ==> LogAt(db.s, o)[1] == OrderConfirmed(o, now))
      ensures old(db.turns) == [] && Alone(old(db.s), t) ==> (ok <==> !Hopeless(Command.Confirm, LogAt(old(db.s), o)))
    {
      ok := Begin(t, o, Command.Confirm, now);
      if !ok { return false, None; }
      var loaded := repo.Load(t, o);
      if loaded.Err? { return false, None; }
      var order := loaded.value;
      var err := order.Confirm(now);
      if err.Some? { return false, None; }
      if |order.changes| == 0 { return true, None; }
      ok := Persist(t, order);
      return ok, if ok then Some(order) else None;
    }

    method Cancel(t: TxnId, o: OrderId, reason: string, now: Time) returns (ok: bool, agg: Option<Order>)
      requires db.Valid() && repo.db == db && t !in db.s.writers
      modifies db
      ensures db.Valid() && t in db.s.writers && db.s.writers[t].pc.Ended?
      ensures (agg.Some? ==> fresh(agg.value)) && Reached(o, Command.Cancel(reason), now, ok, agg)
      ensures ok ==> EndsInCancelled(LogAt(db.s, o)) && (agg.Some? ==> LogAt(db.s, o)[1] == OrderCancelled(o, reason, now))
      ensures old(db.turns) == [] && Alone(old(db.s), t) ==> (ok <==> !Hopeless(Command.Cancel(reason), LogAt(old(db.s), o)))
    {
      ok := Begin(t, o, Command.Cancel(reason), now);
      if !ok { return false, None; }
      var loaded := repo.Load(t, o);
      if loaded.Err? { return false, None; }
      var order := loaded.value;
      var err := order.Cancel(reason, now);
      if err.Some? { return false, None; }
      if |order.changes| == 0 {
        LogAndOutbox(db.s, o);
        return true, None;
      }
      ok := Persist(t, order);
      return ok, if ok then Some(order) else None;
    }

    /** Outbox, expected version, Save, and the staged events are cleared. */
    method Persist(t: TxnId, order: Order) returns (ok: bool)
      requires db.Valid() && repo.db == db && t in db.s.writers && db.s.writers[t].pc == InsertingEvent(0)
      requires db.s.writers[t].job.Commanding? && db.s.writers[t].ids == []
      requires order.changes == db.s.writers[t].changes && |order.changes| == 1 && !order.changes[0].OrderPlaced?
      requires order.Snapshot() == db.s.writers[t].view && order.version == db.s.writers[t].version
      modifies db, order`changes
      ensures db.Valid() && t in db.s.writers && db.s.writers[t].pc.Ended?
      ensures var x := old(db.s.writers[t]);
        ok ==> Reached(x.order, x.job.command, x.job.now, true, Some(order))
      ensures var x, history := old(db.s.writers[t]), LogAt(old(db.s), old(db.s.writers[t]).order);
        old(repo.Quiet(t, x.order, history)) ==> (ok <==> x.Expected() == |history|)
    {
      var outbox := LifecycleOutbox(order.changes);
      EveryEventAnnounced(order.changes);
      var expected := order.version - |order.changes|;
      ok := repo.Save(t, order, expected, outbox);
      if ok { order.MarkChangesCommitted(); }
    }
  }

  predicate EndsInConfirmed(history: seq<Event>) {
    |history| == 2 && history[1].OrderConfirmed?
  }

  predicate EndsInCancelled(history: seq<Event>) {
    |history| == 2 && history[1].OrderCancelled?
  }

  predicate EndsWith(history: seq<Event>, changes: seq<Event>) {
    |changes| <= |history| && history[|history| - |changes|..] == changes
  }
}
