/** The projection repository, service and worker in the form of the Go code. */
module Projector {
  import opened Results
  import opened OrderValues
  import opened OrderAggregate
  import opened EventStore
  import opened ReadModel

  /** A row, or None. */
  function At(rows: map<OrderId, Row>, o: OrderId): Option<Row> {
    if o in rows then Some(rows[o]) else None
  }

  /** The table after one message: only the message's order changes, as Project says. */
  ghost predicate Changed(rows: map<OrderId, Row>, m: Message, rows': map<OrderId, Row>) {
    && At(rows', m.order) == Project(At(rows, m.order), m)
    && forall o | o != m.order :: At(rows', o) == At(rows, o)
  }

  class ProjectionRepository {
    var rows: map<OrderId, Row>

    constructor ()
      ensures rows == map[]
    {
      rows := map[];
    }

    method UpsertOrderPlaced(o: OrderId, p: Row)
      modifies this
      ensures rows == old(rows)[o := Upserted(At(old(rows), o), p)]
      ensures rows[o] == if o in old(rows) && p.version < old(rows)[o].version then old(rows)[o] else p
    {
      if o in rows {
        if p.version >= rows[o].version { rows := rows[o := p]; }
      } else {
        rows := rows[o := p];
      }
    }

    method UpdateStatus(o: OrderId, status: Status)
      modifies this
      ensures rows.Keys == old(rows).Keys && (o in rows ==> rows[o] == old(rows)[o].(status := status))
      ensures forall p | p != o :: At(rows, p) == At(old(rows), p)
    {
      if o in rows { rows := rows[o := rows[o].(status := status)]; }
    }

    method GetOrder(o: OrderId) returns (r: Result<Row, OrderError>)
      ensures r == if o in rows then Ok(rows[o]) else Err(OrderNotFound)
    {
      if o !in rows { return Err(OrderNotFound); }
      return Ok(rows[o]);
    }
  }

  class Service {
    const store: ProjectionRepository

    constructor (store: ProjectionRepository)
      ensures this.store == store
    {
      this.store := store;
    }

    /** Apply, by event type. */
    method Apply(m: Message)
      modifies store
      ensures Changed(old(store.rows), m, store.rows)
    {
      match m
      case PlacedMessage(o, c, _, _, total, currency, at) =>
        store.UpsertOrderPlaced(o, Row(c, Pending, total, currency, 1, at));
      case ConfirmedMessage(o, _) => store.UpdateStatus(o, Confirmed);
      case CancelledMessage(o, _, _) => store.UpdateStatus(o, Cancelled);
    }
  }

  /** The messages of one order among what was read; unreadable payloads are None. */
  function For(read: seq<Option<Message>>, o: OrderId): seq<Message> {
    if read == [] then []
    else
      var n := |read| - 1;
      For(read[..n], o) + (if read[n].Some? && read[n].value.order == o then [read[n].value] else [])
  }

  function Replay(row: Option<Row>, ms: seq<Message>): Option<Row> {
    if ms == [] then row else Project(Replay(row, ms[..|ms| - 1]), ms[|ms| - 1])
  }

  lemma ReplaySnoc(row: Option<Row>, ms: seq<Message>, m: Message)
    ensures Replay(row, ms + [m]) == Project(Replay(row, ms), m)
  {
  }

  lemma ForSnoc(read: seq<Option<Message>>, m: Option<Message>, o: OrderId)
    ensures For(read + [m], o) == For(read, o) + (if m.Some? && m.value.order == o then [m.value] else [])
  {
  }

  /**
    Replaying an order's messages from its placement on, whatever the row held of
    that order before, ends with the placement's fields and the last status.
  */
  lemma {:induction false} ReplayIsLast(row: Option<Row>, placed: Message, ms: seq<Message>)
    requires placed.PlacedMessage? && ms != [] && ms[0] == placed
    requires row.Some? ==> SameOrder(row.value, placed)
    requires forall i | 0 <= i < |ms| :: ms[i].PlacedMessage? ==> ms[i] == placed
    ensures Replay(row, ms) == Some(PlacedRow(placed).(status := StatusOf(ms[|ms| - 1])))
    decreases |ms|
  {
    var n := |ms| - 1;
    if n == 0 {
      assert ms[..0] == [];
      ProjectKeeps(row, placed, ms[0]);
    } else {
      ReplayIsLast(row, placed, ms[..n]);
      ProjectKeeps(Replay(row, ms[..n]), placed, ms[n]);
    }
  }

  class Worker {
    const service: Service
    var offset: nat
    var dead: seq<nat>

    constructor (service: Service)
      ensures this.service == service && offset == 0 && dead == []
    {
      this.service, offset, dead := service, 0, [];
    }

    /** One message: applied, or dead lettered when it cannot be read. `writable`: the table can be written. */
    method Process(message: Option<Message>, writable: bool, deadLetters: bool) returns (ok: bool)
      modifies this`dead, service.store
      ensures ok <==> if message.Some? then writable else deadLetters
      ensures !ok ==> service.store.rows == old(service.store.rows)
      ensures ok ==> Replayed(old(service.store.rows), [message], service.store.rows)
      ensures dead == if message == None && ok then old(dead) + [offset] else old(dead)
    {
      if message.Some? {
        if !writable { return false; }
        service.Apply(message.value);
        ProcessedOne(old(service.store.rows), message, service.store.rows);
        return true;
      }
      ProcessedOne(service.store.rows, message, service.store.rows);
      if !deadLetters { return false; }
      dead := dead + [offset];
      return true;
    }

    /**
      Fetch, apply, commit. Every message behind the offset is applied, or dead
      lettered when unreadable; at most one more is applied without being committed.
      `writes` and `commits` are how many of those succeed before one fails.
    */
    method Run(topic: seq<Option<Message>>, writes: nat, deadLetters: bool, commits: nat) returns (upTo: nat)
      requires offset <= |topic|
      modifies this, service.store
      ensures old(offset) <= offset <= upTo <= offset + 1 && upTo <= |topic|
      ensures Replayed(old(service.store.rows), topic[old(offset)..upTo], service.store.rows)
      ensures forall i | old(offset) <= i < offset && topic[i] == None :: i in dead
      ensures deadLetters && commits >= |topic| && writes >= |topic| ==> offset == |topic|
    {
      ghost var from, before := offset, service.store.rows;
      var committed := 0;
      assert topic[from..from] == [];
      NothingRead(before);
      while offset < |topic|
        invariant from <= offset <= |topic| && committed == offset - from
        invariant Replayed(before, topic[from..offset], service.store.rows)
        invariant forall i | from <= i < offset && topic[i] == None :: i in dead
        decreases |topic| - offset
      {
        ghost var rows := service.store.rows;
        var ok := Process(topic[offset], committed < writes, deadLetters);
        if !ok { return offset; }
        assert topic[from..offset + 1] == topic[from..offset] + [topic[offset]];
        ReplayedSnoc(before, topic[from..offset], rows, topic[offset], service.store.rows);
        if committed == commits { return offset + 1; }
        committed := committed + 1;
        offset := offset + 1;
      }
      return offset;
    }
  }

  /** What was read, applied to the table as it was. */
  ghost predicate Replayed(before: map<OrderId, Row>, read: seq<Option<Message>>, after: map<OrderId, Row>) {
    forall o :: RowReplayed(before, read, after, o)
  }

  predicate RowReplayed(before: map<OrderId, Row>, read: seq<Option<Message>>, after: map<OrderId, Row>, o: OrderId) {
    At(after, o) == Replay(At(before, o), For(read, o))
  }

  lemma NothingRead(rows: map<OrderId, Row>)
    ensures Replayed(rows, [], rows)
  {
  }

  lemma ProcessedOne(before: map<OrderId, Row>, m: Option<Message>, after: map<OrderId, Row>)
    requires if m.Some? then Changed(before, m.value, after) else after == before
    ensures Replayed(before, [m], after)
  {
    ForOne(m);
    forall o ensures RowReplayed(before, [m], after, o) {
      if m.Some? && m.value.order == o { ReplayOne(At(before, o), m.value); }
    }
  }

  lemma ForOne(m: Option<Message>)
    ensures forall o :: For([m], o) == if m.Some? && m.value.order == o then [m.value] else []
  {
  }

  lemma ReplayOne(row: Option<Row>, m: Message)
    ensures Replay(row, [m]) == Project(row, m)
  {
  }

  lemma ReplayedSnoc(before: map<OrderId, Row>, read: seq<Option<Message>>, rows: map<OrderId, Row>, m: Option<Message>, after: map<OrderId, Row>)
    requires Replayed(before, read, rows) && Replayed(rows, [m], after)
    ensures Replayed(before, read + [m], after)
  {
    ForOne(m);
    forall o ensures RowReplayed(before, read + [m], after, o) {
      assert RowReplayed(before, read, rows, o) && RowReplayed(rows, [m], after, o);
      ForSnoc(read, m, o);
      if m.Some? && m.value.order == o {
        ReplaySnoc(At(before, o), For(read, o), m.value);
        ReplayOne(At(rows, o), m.value);
      } else {
        assert For(read, o) + [] == For(read, o);
      }
    }
  }
}
