/** PlaceOrderHandler in the form of the Go code. */
module PlaceOrder {
  import opened Results
  import opened Texts
  import opened Int64
  import opened OrderValues
  import opened OrderAggregate
  import opened EventStore
  import opened OrderHandlers

  datatype InputLine = InputLine(sku: string, qty: int, unitPriceMinor: int, currency: string)

  /** `customer` is None when the text is no UUID. */
  datatype PlaceCommand = PlaceCommand(customer: Option<CustomerId>, key: string, lines: seq<InputLine>, ship: Address)

  predicate AcceptableLine(l: InputLine) {
    1 <= |TrimSpace(l.sku)| <= 64 && 1 <= l.qty <= 10_000 && |TrimSpace(l.currency)| == 3 && l.unitPriceMinor >= 0
  }

  /** The item is the line, with its texts normalised. */
  predicate StandsFor(li: LineItem, l: InputLine) {
    && li.sku == TrimSpace(l.sku) && li.qty == l.qty
    && li.price.minor == l.unitPriceMinor && li.price.currency == ToUpper(TrimSpace(l.currency))
  }

  function InputItem(l: InputLine): (r: Result<LineItem, OrderError>)
    ensures r.Ok? <==> AcceptableLine(l)
    ensures if r.Ok? then CanonicalItem(r.value) && StandsFor(r.value, l) else r.error == ValidationFailed
  {
    var sku :- NewSku(l.sku);
    var qty :- NewQuantity(l.qty);
    var price :- NewMoney(l.currency, l.unitPriceMinor);
    Ok(LineItem(sku, qty, price))
  }

  predicate AcceptableAddress(a: Address) {
    && TrimSpace(a.line1) != "" && TrimSpace(a.city) != "" && TrimSpace(a.postalCode) != ""
    && |TrimSpace(a.country)| == 2
  }

  predicate StandsForAddress(b: Address, a: Address) {
    && b.line1 == TrimSpace(a.line1) && b.line2 == TrimSpace(a.line2) && b.city == TrimSpace(a.city)
    && b.region == TrimSpace(a.region) && b.postalCode == TrimSpace(a.postalCode) && b.country == ToUpper(TrimSpace(a.country))
  }

  /** What the handler checks before it claims the key. */
  predicate Checks(cmd: PlaceCommand) {
    && 8 <= |TrimSpace(cmd.key)| <= 128 && cmd.customer.Some? && cmd.lines != []
    && (forall i | 0 <= i < |cmd.lines| :: AcceptableLine(cmd.lines[i])) && AcceptableAddress(cmd.ship)
  }

  /** What the aggregate checks after the claim: no SKU twice, and one currency. */
  predicate PlaceableInput(lines: seq<InputLine>) {
    && (forall i, j | 0 <= i < j < |lines| :: TrimSpace(lines[i].sku) != TrimSpace(lines[j].sku))
    && (forall i, j | 0 <= i < j < |lines| :: ToUpper(TrimSpace(lines[i].currency)) == ToUpper(TrimSpace(lines[j].currency)))
  }

  /** What the lines cost. */
  function Cost(lines: seq<InputLine>): int {
    if lines == [] then 0 else var n := |lines| - 1; Cost(lines[..n]) + lines[n].unitPriceMinor * lines[n].qty
  }

  predicate StandFor(items: seq<LineItem>, lines: seq<InputLine>) {
    |items| == |lines| && forall i | 0 <= i < |items| :: StandsFor(items[i], lines[i])
  }

  lemma {:induction false} CostIsSum(items: seq<LineItem>, lines: seq<InputLine>)
    requires StandFor(items, lines)
    ensures ExactSum(items) == Cost(lines)
  {
    if items != [] { CostIsSum(items[..|items| - 1], lines[..|lines| - 1]); }
  }

  lemma PlaceableIffInput(id: OrderId, items: seq<LineItem>, lines: seq<InputLine>)
    requires id != 0 && items != [] && StandFor(items, lines)
    ensures Placeable(id, items) <==> PlaceableInput(lines)
  {
    forall i | 0 <= i < |items| ensures StandsFor(items[i], lines[i]) {}
  }

  method BuildLineItems(lines: seq<InputLine>) returns (r: Result<seq<LineItem>, OrderError>)
    ensures r.Ok? <==> lines != [] && forall i | 0 <= i < |lines| ::
      1 <= |TrimSpace(lines[i].sku)| <= 64 && 1 <= lines[i].qty <= 10_000
      && |TrimSpace(lines[i].currency)| == 3 && lines[i].unitPriceMinor >= 0
    ensures r.Ok? ==> |r.value| == |lines| && CanonicalItems(r.value) && forall i | 0 <= i < |lines| ::
      r.value[i].sku == TrimSpace(lines[i].sku) && r.value[i].qty == lines[i].qty
      && r.value[i].price.minor == lines[i].unitPriceMinor && r.value[i].price.currency == ToUpper(TrimSpace(lines[i].currency))
    ensures r.Err? ==> r.error == ValidationFailed
  {
    if |lines| == 0 { return Err(ValidationFailed); }
    var items: seq<LineItem> := [];
    for i := 0 to |lines|
      invariant |items| == i && CanonicalItems(items)
      invariant forall j | 0 <= j < i :: AcceptableLine(lines[j]) && StandsFor(items[j], lines[j])
    {
      var item := InputItem(lines[i]);
      if item.Err? { return Err(item.error); }
      items := items + [item.value];
    }
    return Ok(items);
  }

  datatype Checked = Checked(key: string, customer: CustomerId, items: seq<LineItem>, shipTo: Address)

  /** The values that checked input stands for. */
  predicate Means(cmd: PlaceCommand, c: Checked) {
    && c.key == TrimSpace(cmd.key) && cmd.customer == Some(c.customer)
    && StandFor(c.items, cmd.lines) && StandsForAddress(c.shipTo, cmd.ship)
  }

  /** All that is checked before the key is claimed. */
  method Check(cmd: PlaceCommand) returns (r: Result<Checked, OrderError>)
    ensures r.Ok? <==> Checks(cmd)
    ensures r.Ok? ==> Means(cmd, r.value) && CanonicalItems(r.value.items) && CanonicalAddress(r.value.shipTo)
    ensures r.Err? ==>
      r.error == if 8 <= |TrimSpace(cmd.key)| <= 128 && cmd.customer == None then InvalidIdentifier else ValidationFailed
  {
    var key := NewIdempotencyKey(cmd.key);
    if key.Err? { return Err(key.error); }
    if cmd.customer == None { return Err(InvalidIdentifier); }
    var items := BuildLineItems(cmd.lines);
    if items.Err? { return Err(items.error); }
    var shipTo := NewAddress(cmd.ship);
    if shipTo.Err? { return Err(shipTo.error); }
    return Ok(Checked(key.value, cmd.customer.value, items.value, shipTo.value));
  }

  method ToOutbox(changes: seq<Event>) returns (messages: seq<Message>)
    ensures messages == Placements(changes)
  {
    messages := [];
    for i := 0 to |changes|
      invariant messages == Placements(changes[..i])
    {
      assert changes[..i + 1][..i] == changes[..i];
      match changes[i] {
        case OrderPlaced(o, c, lines, shipTo, total, at) =>
          var items: seq<MessageItem> := [];
          for j := 0 to |lines|
            invariant items == MessageOf(changes[i]).items[..j]
          {
            items := items + [MessageItem(lines[j].sku, lines[j].qty, lines[j].price.minor)];
          }
          assert items == MessageOf(changes[i]).items;
          messages := messages + [PlacedMessage(o, c, items, shipTo, total.minor, total.currency, at)];
        case OrderConfirmed(_, _) =>
        case OrderCancelled(_, _, _) =>
      }
    }
    assert changes[..|changes|] == changes;
  }

  /** The idempotency_keys table, shared with every other submission. */
  class IdempotencyStore {
    var keys: map<string, OrderId>

    constructor ()
      ensures keys == map[]
    {
      keys := map[];
    }

    /** Claims of other submissions; a key that is taken stays with its order. */
    method Others(claims: seq<(string, OrderId)>)
      modifies this
      ensures Kept(old(keys), keys)
    {
      for i := 0 to |claims|
        invariant Kept(old(keys), keys)
      {
        if claims[i].0 !in keys { keys := keys[claims[i].0 := claims[i].1]; }
      }
    }

    /** INSERT ... ON CONFLICT DO NOTHING, then the SELECT; afterwards the key names the answer. */
    method Reserve(key: string, order: OrderId, meanwhile: seq<(string, OrderId)>) returns (existing: Option<OrderId>)
      modifies this
      ensures Kept(old(keys), keys) && key in keys
      ensures keys[key] == if existing.Some? then existing.value else order
      ensures existing.Some? <==> key in old(keys)
      ensures existing == None ==> keys == old(keys)[key := order]
    {
      if key !in keys {
        keys := keys[key := order];
        return None;
      }
      Others(meanwhile);
      return Some(keys[key]);
    }
  }

  predicate Kept(before: map<string, OrderId>, after: map<string, OrderId>) {
    forall k | k in before :: k in after && after[k] == before[k]
  }

  datatype PlaceReply = Placed(order: OrderId) | Replayed(order: OrderId) | Failed(error: OrderError) | Unknown

  class PlaceOrderHandler {
    const db: OrderDatabase
    const repo: OrderRepository
    const idem: IdempotencyStore

    constructor (db: OrderDatabase, idem: IdempotencyStore)
      ensures this.db == db && repo.db == db && this.idem == idem
    {
      this.db, this.idem := db, idem;
      repo := new OrderRepository(db);
    }

    /** The order is stored as one placement of the checked lines, and announced by one message. */
    ghost predicate Stored(id: OrderId, cmd: PlaceCommand, now: Time)
      reads db
    {
      && id in db.s.log && db.s.log[id] != []
      && var e := db.s.log[id][|db.s.log[id]| - 1];
         && e.OrderPlaced? && Validated(e) && e.order == id && e.at == now
         && Means(cmd, Checked(TrimSpace(cmd.key), e.customer, e.items, e.shipTo))
         && e.total.minor == Wrap64(Cost(cmd.lines)) && cmd.lines != [] && e.total.currency == ToUpper(TrimSpace(cmd.lines[0].currency))
    }

    /** BEGIN, with the event that PlaceOrder staged. */
    method Begin(t: TxnId, e: Event)
      requires db.Valid() && repo.db == db && t !in db.s.writers && e.OrderPlaced? && Validated(e)
      modifies db`s
      ensures db.Valid() && t in db.s.writers && db.s.writers[t].order == e.order && db.s.writers[t].changes == [e]
      ensures db.s.writers[t].pc == InsertingEvent(0) && db.s.writers[t].Expected() == 0 && db.s.writers[t].ids == []
      ensures old(db.turns) == [] && Alone(old(db.s), t) ==> repo.Quiet(t, e.order, LogAt(old(db.s), e.order))
    {
      db.Do(Start(t, e.order, Placing(e)));
    }

    /** Save the one staged event. */
    method Persist(t: TxnId, agg: Order) returns (ok: bool)
      requires db.Valid() && repo.db == db && t in db.s.writers && |agg.changes| == 1 && agg.changes[0].OrderPlaced?
      requires db.s.writers[t].order == agg.changes[0].order && db.s.writers[t].changes == agg.changes
      requires db.s.writers[t].pc == InsertingEvent(0) && db.s.writers[t].Expected() == 0 && db.s.writers[t].ids == []
      modifies db, agg`changes
      ensures db.Valid()
      ensures ok ==> EndsWith(LogAt(db.s, old(agg.changes[0].order)), old(agg.changes))
      ensures var o := old(agg.changes[0].order);
        old(repo.Quiet(t, o, LogAt(db.s, o))) ==> (ok <==> LogAt(old(db.s), o) == [])
    {
      var outbox := ToOutbox(agg.changes);
      EveryEventAnnounced(agg.changes);
      ok := repo.Save(t, agg, 0, outbox);
      if ok { agg.MarkChangesCommitted(); }
    }

    /** PlaceOrder and Save, under a claimed key. */
    method Place(t: TxnId, id: OrderId, customer: CustomerId, items: seq<LineItem>, shipTo: Address, now: Time) returns (r: PlaceReply)
      requires db.Valid() && repo.db == db && t !in db.s.writers && id != 0
      requires CanonicalItems(items) && CanonicalAddress(shipTo)
      modifies db
      ensures db.Valid() && !r.Replayed?
      ensures !Placeable(id, items) ==> r == Failed(ValidationFailed) && db.s == old(db.s)
      ensures r.Placed? ==>
        && r.order == id && id in db.s.log && db.s.log[id] != [] && Placeable(id, items)
        && db.s.log[id][|db.s.log[id]| - 1] == Placement(id, customer, items, shipTo, now)
      ensures old(db.turns) == [] && Alone(old(db.s), t) && LogAt(old(db.s), id) == [] ==> (r.Placed? <==> Placeable(id, items))
    {
      var agg := Order.PlaceOrder(id, customer, items, shipTo, now);
      if agg.Err? { return Failed(agg.error); }
      var e := agg.value.changes[0];
      Begin(t, e);
      var ok := Persist(t, agg.value);
      if !ok { return Unknown; }
      assert LogAt(db.s, id)[|LogAt(db.s, id)| - 1..][0] == e;
      return Placed(id);
    }

    /**
      Handle. A placement is stored when the reply says so, and the trimmed key names the
      order of every reply. Unchecked input is refused before anything is written.
      Undisturbed, a first submission is stored exactly when its lines are placeable.
    */
    method Handle(t: TxnId, cmd: PlaceCommand, id: OrderId, now: Time, meanwhile: seq<(string, OrderId)>) returns (r: PlaceReply)
      requires db.Valid() && repo.db == db && t !in db.s.writers && id != 0
      modifies db, idem
      ensures db.Valid() && Kept(old(idem.keys), idem.keys)
      ensures !Checks(cmd) ==> idem.keys == old(idem.keys) && db.s == old(db.s)
      ensures !Checks(cmd) ==>
        r == Failed(if 8 <= |TrimSpace(cmd.key)| <= 128 && cmd.customer == None then InvalidIdentifier else ValidationFailed)
      ensures Checks(cmd) ==> var key := TrimSpace(cmd.key);
        && key in idem.keys
        && (r.Replayed? <==> key in old(idem.keys))
        && (r.Replayed? ==> r.order == idem.keys[key] && db.s == old(db.s))
        && (!r.Replayed? ==> idem.keys == old(idem.keys)[key := id])
        && (r.Placed? ==> r.order == id == idem.keys[key] && Stored(id, cmd, now))
        && (old(db.turns) == [] && Alone(old(db.s), t) && key !in old(idem.keys) && LogAt(old(db.s), id) == [] ==>
              (r.Placed? <==> PlaceableInput(cmd.lines)))
        && (key !in old(idem.keys) && !PlaceableInput(cmd.lines) ==> r == Failed(ValidationFailed) && db.s == old(db.s))
    {
      var input := Check(cmd);
      if input.Err? { return Failed(input.error); }
      var existing := idem.Reserve(input.value.key, id, meanwhile);
      if existing.Some? { return Replayed(existing.value); }
      PlaceableIffInput(id, input.value.items, cmd.lines);
      CostIsSum(input.value.items, cmd.lines);
      RunningIsWrapped(input.value.items);
      r := Place(t, id, input.value.customer, input.value.items, input.value.shipTo, now);
    }
  }
}
