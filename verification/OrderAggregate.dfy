/** The event-sourced order: state is the fold of its events, behaviour appends events. */
module OrderAggregate {
  import opened Results
  import opened OrderValues

  datatype Event =
    | OrderPlaced(order: OrderId, customer: CustomerId, items: seq<LineItem>, shipTo: Address, total: Money, at: Time)
    | OrderConfirmed(order: OrderId, at: Time)
    | OrderCancelled(order: OrderId, reason: string, at: Time)

  datatype Status = Blank | Pending | Confirmed | Cancelled

  datatype View = View(id: OrderId, customer: CustomerId, items: seq<LineItem>, shipTo: Address, total: Money, status: Status)

  const BLANK := View(0, 0, [], Address("", "", "", "", "", ""), Money("", 0), Blank)

  function Applied(v: View, e: Event): View {
    match e
    case OrderPlaced(id, customer, items, shipTo, total, _) => View(id, customer, items, shipTo, total, Pending)
    case OrderConfirmed(_, _) => v.(status := Confirmed)
    case OrderCancelled(_, _, _) => v.(status := Cancelled)
  }

  function Fold(history: seq<Event>): View {
    if history == [] then BLANK
    else Applied(Fold(history[..|history| - 1]), history[|history| - 1])
  }

  lemma FoldSnoc(history: seq<Event>, e: Event)
    ensures Fold(history + [e]) == Applied(Fold(history), e)
  {
  }

  datatype Command = Confirm | Cancel(reason: string)

  function Goal(c: Command): Status {
    if c.Confirm? then Confirmed else Cancelled
  }

  /** The event a command raises, None when it is already done, or an illegal transition. */
  function Decide(v: View, c: Command, now: Time): Result<Option<Event>, OrderError> {
    if v.status == Goal(c) then Ok(None)
    else if v.status != Pending then Err(InvalidTransition)
    else Ok(Some(if c.Confirm? then OrderConfirmed(v.id, now) else OrderCancelled(v.id, c.reason, now)))
  }

  function Raised(v: View, c: Command, now: Time): seq<Event> {
    var d := Decide(v, c, now);
    if d.Ok? && d.value.Some? then [d.value.value] else []
  }

  function ErrorOf(d: Result<Option<Event>, OrderError>): Option<OrderError> {
    if d.Ok? then None else Some(d.error)
  }

  /** A placement followed by at most one terminal event, all of one order. */
  predicate GoodLog(order: OrderId, history: seq<Event>) {
    && 1 <= |history| <= 2
    && history[0].OrderPlaced?
    && (|history| == 2 ==> !history[1].OrderPlaced?)
    && forall i | 0 <= i < |history| :: history[i].order == order
  }

  function StatusAfter(history: seq<Event>): Status {
    if |history| < 2 then Pending else if history[1].OrderConfirmed? then Confirmed else Cancelled
  }

  /** A good log folds to its placement with the status of its last event. */
  lemma GoodLogFolds(order: OrderId, history: seq<Event>)
    requires GoodLog(order, history)
    ensures var p := history[0];
      Fold(history) == View(order, p.customer, p.items, p.shipTo, p.total, StatusAfter(history))
  {
  }

  /** After `c` the same command is a no-op and the opposite one is illegal. */
  ghost predicate SettledBy(v: View, c: Command) {
    forall d, t :: Decide(v, d, t) == if Goal(d) == Goal(c) then Ok(None) else Err(InvalidTransition)
  }

  /** A command keeps the log good, raises an event only while pending, and repeated has no further effect. */
  lemma DecideKeepsLog(order: OrderId, history: seq<Event>, c: Command, now: Time)
    requires GoodLog(order, history)
    ensures var d := Decide(Fold(history), c, now);
      && (d.Err? <==> |history| == 2 && StatusAfter(history) != Goal(c))
      && (d == Ok(None) <==> |history| == 2 && StatusAfter(history) == Goal(c))
      && (d.Ok? && d.value.Some? ==>
            var h := history + [d.value.value];
            GoodLog(order, h) && Fold(h).status == Goal(c) && SettledBy(Fold(h), c))
  {
  }

  // ---- placement ----

  predicate DistinctSkus(items: seq<LineItem>) {
    forall i, j | 0 <= i < j < |items| :: items[i].sku != items[j].sku
  }

  function Skus(items: seq<LineItem>): set<string> {
    set i | 0 <= i < |items| :: items[i].sku
  }

  lemma SkuTwice(items: seq<LineItem>, i: nat)
    requires i < |items| && items[i].sku in Skus(items[..i])
    ensures !DistinctSkus(items)
  {
    var j :| 0 <= j < i && items[..i][j].sku == items[i].sku;
    assert items[j].sku == items[i].sku;
  }

  lemma SkusNext(items: seq<LineItem>, i: nat)
    requires i < |items| && DistinctSkus(items[..i]) && items[i].sku !in Skus(items[..i])
    ensures DistinctSkus(items[..i + 1]) && Skus(items[..i + 1]) == Skus(items[..i]) + {items[i].sku}
  {
    var before, all := items[..i], items[..i + 1];
    forall j | 0 <= j < i ensures all[j] == before[j] && before[j].sku in Skus(before) {}
    assert all[i] == items[i];
    assert forall k | k in Skus(before) :: k in Skus(all);
  }

  predicate OneCurrency(items: seq<LineItem>) {
    forall i, j | 0 <= i < |items| && 0 <= j < |items| :: items[i].price.currency == items[j].price.currency
  }

  predicate Placeable(id: OrderId, items: seq<LineItem>) {
    id != 0 && items != [] && DistinctSkus(items) && OneCurrency(items)
  }

  /** The placement event of acceptable lines. */
  function Placement(id: OrderId, customer: CustomerId, items: seq<LineItem>, shipTo: Address, now: Time): Event
    requires items != []
  {
    OrderPlaced(id, customer, items, shipTo, Money(items[0].price.currency, RunningTotal(items)), now)
  }

  /** Neither acceptance nor the total depends on the order of the lines. */
  lemma PlacementPermutes(id: OrderId, a: seq<LineItem>, b: seq<LineItem>)
    requires multiset(a) == multiset(b)
    ensures Placeable(id, a) <==> Placeable(id, b)
    ensures Placeable(id, a) ==>
      forall c, s, t :: Placement(id, c, a, s, t).total == Placement(id, c, b, s, t).total
  {
    if Placeable(id, a) { PlaceablePermutes(id, a, b); }
    if Placeable(id, b) { PlaceablePermutes(id, b, a); }
    RunningIsWrapped(a);
    RunningIsWrapped(b);
    ExactSumPermutes(a, b);
    if Placeable(id, a) {
      assert a[0] in multiset(b);
      var i :| 0 <= i < |b| && b[i] == a[0];
      assert b[i].price.currency == b[0].price.currency;
    }
  }

  lemma PlaceablePermutes(id: OrderId, a: seq<LineItem>, b: seq<LineItem>)
    requires multiset(a) == multiset(b) && Placeable(id, a)
    ensures Placeable(id, b)
  {
    assert |multiset(a)| == |a| && |multiset(b)| == |b|;
    forall i, j | 0 <= i < |b| && 0 <= j < |b| ensures b[i].price.currency == b[j].price.currency {
      assert b[i] in multiset(a) && b[j] in multiset(a);
      assert b[i] in a && b[j] in a;
    }
    forall i, j | 0 <= i < j < |b| ensures b[i].sku != b[j].sku {
      if b[i].sku == b[j].sku { SameSkuTwice(a, b, i, j); }
    }
  }

  /** Two lines of one SKU are two lines in any order. */
  lemma SameSkuTwice(a: seq<LineItem>, b: seq<LineItem>, i: nat, j: nat)
    requires multiset(a) == multiset(b) && i < j < |b| && b[i].sku == b[j].sku
    ensures !DistinctSkus(a)
  {
    assert b[i] in multiset(a) && b[j] in multiset(a);
    var p :| 0 <= p < |a| && a[p] == b[i];
    var q :| 0 <= q < |a| && a[q] == b[j];
    if p == q {
      TakeOutMultiset(b, i);
      TakeOutMultiset(a, p);
      var rest := a[..p] + a[p + 1..];
      assert (b[..i] + b[i + 1..])[j - 1] == b[j];
      assert b[j] in multiset(b[..i] + b[i + 1..]);
      assert b[j] in multiset(rest);
      var r :| 0 <= r < |rest| && rest[r] == b[j];
      var r' := if r < p then r else r + 1;
      assert a[r'] == b[j];
    }
  }

  /** The order aggregate. */
  class Order {
    var id: OrderId
    var customer: CustomerId
    var items: seq<LineItem>
    var shipTo: Address
    var total: Money
    var status: Status
    var version: nat
    var changes: seq<Event>

    function Snapshot(): View
      reads this
    {
      View(id, customer, items, shipTo, total, status)
    }

    constructor Empty()
      ensures Snapshot() == BLANK && version == 0 && changes == []
    {
      id, customer, items, shipTo, total, status :=
        0, 0, [], Address("", "", "", "", "", ""), Money("", 0), Blank;
      version, changes := 0, [];
    }

    method ApplyEvent(e: Event)
      modifies this
      ensures Snapshot() == Applied(old(Snapshot()), e)
      ensures version == old(version) && changes == old(changes)
    {
      match e
      case OrderPlaced(eid, ecustomer, eitems, eshipTo, etotal, _) =>
        id, customer, items, shipTo, total := eid, ecustomer, eitems, eshipTo, etotal;
        status := Pending;
      case OrderConfirmed(_, _) =>
        status := Confirmed;
      case OrderCancelled(_, _, _) =>
        status := Cancelled;
    }

    method Raise(e: Event)
      modifies this
      ensures Snapshot() == Applied(old(Snapshot()), e)
      ensures version == old(version) + 1 && changes == old(changes) + [e]
    {
      ApplyEvent(e);
      version := version + 1;
      changes := changes + [e];
    }

    /** Accepts exactly the placeable lines; the one staged event carries the wrapped total. */
    static method PlaceOrder(id: OrderId, customer: CustomerId, items: seq<LineItem>, shipTo: Address, now: Time)
      returns (r: Result<Order, OrderError>)
      ensures r.Ok? <==> Placeable(id, items)
      ensures r.Err? ==> r.error == ValidationFailed
      ensures r.Ok? ==>
        && fresh(r.value) && r.value.version == 1
        && r.value.changes == [Placement(id, customer, items, shipTo, now)]
        && r.value.Snapshot() == Fold(r.value.changes)
    {
      if id == 0 { return Err(ValidationFailed); }
      if |items| == 0 { return Err(ValidationFailed); }
      var total := Money(items[0].price.currency, 0);
      var seen: set<string> := {};
      for i := 0 to |items|
        invariant total == Money(items[0].price.currency, RunningTotal(items[..i]))
        invariant seen == Skus(items[..i]) && DistinctSkus(items[..i])
        invariant forall j | 0 <= j < i :: items[j].price.currency == items[0].price.currency
      {
        if items[i].sku in seen {
          SkuTwice(items, i);
          return Err(ValidationFailed);
        }
        SkusNext(items, i);
        seen := seen + {items[i].sku};
        var sum := Add(total, LineTotal(items[i]));
        if sum.Err? { return Err(sum.error); }
        assert items[..i + 1][..i] == items[..i];
        total := sum.value;
      }
      assert items[..|items|] == items;
      var o := Staged(OrderPlaced(id, customer, items, shipTo, total, now));
      return Ok(o);
    }

    /** A new aggregate with its first event. */
    static method Staged(e: Event) returns (o: Order)
      requires e.OrderPlaced?
      ensures fresh(o) && o.version == 1 && o.changes == [e] && o.Snapshot() == Fold([e])
    {
      o := new Order.Empty();
      o.Raise(e);
      assert Fold([e]) == Applied(BLANK, e) by { FoldSnoc([], e); }
    }

    static method Rehydrate(history: seq<Event>) returns (r: Result<Order, OrderError>)
      ensures r.Ok? <==> history != []
      ensures r.Err? ==> r.error == OrderNotFound
      ensures r.Ok? ==>
        && fresh(r.value) && r.value.Snapshot() == Fold(history)
        && r.value.version == |history| && r.value.changes == []
    {
      if |history| == 0 { return Err(OrderNotFound); }
      var o := new Order.Empty();
      for i := 0 to |history|
        invariant fresh(o) && o.Snapshot() == Fold(history[..i]) && o.version == i && o.changes == []
      {
        o.ApplyEvent(history[i]);
        o.version := o.version + 1;
        assert history[..i + 1][..i] == history[..i];
      }
      assert history[..|history|] == history;
      return Ok(o);
    }

    method Confirm(now: Time) returns (err: Option<OrderError>)
      modifies this
      ensures var v, c := old(Snapshot()), Command.Confirm;
        && err == ErrorOf(Decide(v, c, now))
        && changes == old(changes) + Raised(v, c, now) && version == old(version) + |Raised(v, c, now)|
        && Snapshot() == (if Raised(v, c, now) == [] then v else Applied(v, Raised(v, c, now)[0]))
      ensures err == if old(status) == Pending || old(status) == Confirmed then None else Some(InvalidTransition)
      ensures if old(status) == Pending then changes == old(changes) + [OrderConfirmed(id, now)] && status == Confirmed
        else changes == old(changes) && status == old(status)
    {
      match status
      case Confirmed => return None;
      case Pending => Raise(OrderConfirmed(id, now)); return None;
      case _ => return Some(InvalidTransition);
    }

    method Cancel(reason: string, now: Time) returns (err: Option<OrderError>)
      modifies this
      ensures var v, c := old(Snapshot()), Command.Cancel(reason);
        && err == ErrorOf(Decide(v, c, now))
        && changes == old(changes) + Raised(v, c, now) && version == old(version) + |Raised(v, c, now)|
        && Snapshot() == (if Raised(v, c, now) == [] then v else Applied(v, Raised(v, c, now)[0]))
      ensures err == if old(status) == Pending || old(status) == Cancelled then None else Some(InvalidTransition)
      ensures if old(status) == Pending then changes == old(changes) + [OrderCancelled(id, reason, now)] && status == Cancelled
        else changes == old(changes) && status == old(status)
    {
      match status
      case Cancelled => return None;
      case Pending => Raise(OrderCancelled(id, reason, now)); return None;
      case _ => return Some(InvalidTransition);
    }

    method MarkChangesCommitted()
      modifies this`changes
      ensures changes == []
    {
      changes := [];
    }
  }
}
