/**
  The stored form of order events. A payload is the JSON object as a record: a
  field that an event does not have reads back as its zero value.
*/
module Codec {
  import opened Results
  import opened Int64
  import opened OrderValues
  import opened OrderAggregate

  const PLACED_TYPE := "order.placed.v1"
  const CONFIRMED_TYPE := "order.confirmed.v1"
  const CANCELLED_TYPE := "order.cancelled.v1"

  datatype StoredItem = StoredItem(sku: string, qty: int, unitPriceMinor: int, currency: string)

  /** Identifiers that are absent, or no UUIDs, are None. */
  datatype Payload = Payload(
    order: Option<OrderId>, customer: Option<CustomerId>, items: seq<StoredItem>, shipTo: Address,
    totalMinor: int, currency: string, reason: string, placedAt: Time, confirmedAt: Time, cancelledAt: Time)

  const EMPTY := Payload(None, None, [], Address("", "", "", "", "", ""), 0, "", "", 0, 0, 0)

  function StoredLine(li: LineItem): StoredItem {
    StoredItem(li.sku, li.qty, li.price.minor, li.price.currency)
  }

  function StoredLines(items: seq<LineItem>): (r: seq<StoredItem>)
    ensures |r| == |items|
  {
    seq(|items|, i requires 0 <= i < |items| => StoredLine(items[i]))
  }

  function TypeOf(e: Event): string {
    match e
    case OrderPlaced(_, _, _, _, _, _) => PLACED_TYPE
    case OrderConfirmed(_, _) => CONFIRMED_TYPE
    case OrderCancelled(_, _, _) => CANCELLED_TYPE
  }

  function Encoded(e: Event): Payload {
    match e
    case OrderPlaced(o, c, items, shipTo, total, at) =>
      EMPTY.(order := Some(o), customer := Some(c), items := StoredLines(items), shipTo := shipTo,
             totalMinor := total.minor, currency := total.currency, placedAt := at)
    case OrderConfirmed(o, at) => EMPTY.(order := Some(o), confirmedAt := at)
    case OrderCancelled(o, reason, at) => EMPTY.(order := Some(o), reason := reason, cancelledAt := at)
  }

  function DecodedItem(s: StoredItem): Result<LineItem, OrderError> {
    var sku :- NewSku(s.sku);
    var qty :- NewQuantity(s.qty);
    var price :- NewMoney(s.currency, s.unitPriceMinor);
    Ok(LineItem(sku, qty, price))
  }

  function EachDecoded(stored: seq<StoredItem>): (r: seq<Result<LineItem, OrderError>>)
    ensures |r| == |stored|
  {
    seq(|stored|, i requires 0 <= i < |stored| => DecodedItem(stored[i]))
  }

  function DecodedItems(stored: seq<StoredItem>): Result<seq<LineItem>, OrderError> {
    Collect(EachDecoded(stored))
  }

  function Decoded(eventType: string, p: Payload): Result<Event, OrderError> {
    if eventType == PLACED_TYPE then
      if p.order == None || p.customer == None then Err(InvalidIdentifier)
      else
        var items :- DecodedItems(p.items);
        var shipTo :- NewAddress(p.shipTo);
        var total :- NewMoney(p.currency, p.totalMinor);
        Ok(OrderPlaced(p.order.value, p.customer.value, items, shipTo, total, p.placedAt))
    else if eventType == CONFIRMED_TYPE then
      if p.order == None then Err(InvalidIdentifier) else Ok(OrderConfirmed(p.order.value, p.confirmedAt))
    else if eventType == CANCELLED_TYPE then
      if p.order == None then Err(InvalidIdentifier) else Ok(OrderCancelled(p.order.value, p.reason, p.cancelledAt))
    else Err(ValidationFailed)
  }

  /** All parts are in the form that their constructors produce. */
  predicate Canonical(e: Event) {
    e.OrderPlaced? ==> CanonicalItems(e.items) && CanonicalAddress(e.shipTo) && CanonicalMoney(e.total)
  }

  lemma ItemRoundTrip(li: LineItem)
    ensures DecodedItem(StoredLine(li)) == Ok(li) <==> CanonicalItem(li)
  {
  }

  lemma ItemsRoundTrip(items: seq<LineItem>)
    ensures DecodedItems(StoredLines(items)) == Ok(items) <==> CanonicalItems(items)
  {
    var rs := EachDecoded(StoredLines(items));
    CollectAt(rs);
    forall i | 0 <= i < |items| ensures rs[i] == Ok(items[i]) <==> CanonicalItem(items[i]) {
      ItemRoundTrip(items[i]);
    }
    if CanonicalItems(items) {
      assert Collect(rs).value == items;
    }
  }

  /** An event survives storage exactly when it is canonical. */
  lemma RoundTripIff(e: Event)
    ensures Decoded(TypeOf(e), Encoded(e)) == Ok(e) <==> Canonical(e)
  {
    if e.OrderPlaced? {
      ItemsRoundTrip(e.items);
      assert e.total == Money(e.total.currency, e.total.minor);
    }
  }

  lemma DecodedItemsCanonical(stored: seq<StoredItem>)
    requires DecodedItems(stored).Ok?
    ensures CanonicalItems(DecodedItems(stored).value)
  {
    CollectAt(EachDecoded(stored));
  }

  /** Whatever decodes is canonical, so decoding twice through storage changes nothing. */
  lemma DecodeNormalises(eventType: string, p: Payload)
    requires Decoded(eventType, p).Ok?
    ensures var e := Decoded(eventType, p).value;
      Canonical(e) && TypeOf(e) == eventType && Decoded(eventType, Encoded(e)) == Ok(e)
  {
    if eventType == PLACED_TYPE { DecodedItemsCanonical(p.items); }
    var e := Decoded(eventType, p).value;
    assert Canonical(e);
    RoundTripIff(e);
  }

  /**
    A placement of validated lines and address can be read back exactly when its
    accumulated total is not negative.
  */
  lemma PlacementReadable(id: OrderId, customer: CustomerId, items: seq<LineItem>, shipTo: Address, now: Time)
    requires Placeable(id, items) && CanonicalItems(items) && CanonicalAddress(shipTo)
    ensures var e := Placement(id, customer, items, shipTo, now);
      && (Decoded(TypeOf(e), Encoded(e)) == Ok(e) <==> RunningTotal(items) >= 0)
      && (Decoded(TypeOf(e), Encoded(e)).Ok? <==> RunningTotal(items) >= 0)
      && (ExactSum(items) <= MAX_INT64 ==> RunningTotal(items) >= 0)
  {
    var e := Placement(id, customer, items, shipTo, now);
    assert CanonicalItem(items[0]);
    RoundTripIff(e);
    TotalExactIff(items);
    if Decoded(TypeOf(e), Encoded(e)).Ok? { DecodedTotal(e); }
  }

  lemma DecodedTotal(e: Event)
    requires e.OrderPlaced? && Decoded(TypeOf(e), Encoded(e)).Ok?
    ensures e.total.minor >= 0
  {
  }

  const OVERFLOWING := [LineItem("A", 2, Money("USD", 0x4000_0000_0000_0000))]

  /** A price and a quantity that pass validation, and whose product wraps to a total that cannot be read back. */
  lemma OverflowUnreadable(id: OrderId, customer: CustomerId, shipTo: Address, now: Time)
    requires CanonicalAddress(shipTo) && id != 0
    ensures Placeable(id, OVERFLOWING) && CanonicalItems(OVERFLOWING)
    ensures var e := Placement(id, customer, OVERFLOWING, shipTo, now);
      Decoded(TypeOf(e), Encoded(e)).Err?
  {
    assert CanonicalItem(OVERFLOWING[0]);
    assert OVERFLOWING[..0] == [];
    assert RunningTotal(OVERFLOWING) == -0x8000_0000_0000_0000 by {
      assert RunningTotal(OVERFLOWING[..0]) == 0;
    }
    PlacementReadable(id, customer, OVERFLOWING, shipTo, now);
  }

  // ---- the loops ----

  method EncodeEvent(e: Event) returns (eventType: string, p: Payload)
    ensures eventType == TypeOf(e) && p == Encoded(e)
    ensures (eventType == "order.placed.v1" <==> e.OrderPlaced?) && (eventType == "order.confirmed.v1" <==> e.OrderConfirmed?)
      && (eventType == "order.cancelled.v1" <==> e.OrderCancelled?)
  {
    match e {
      case OrderPlaced(o, c, lines, shipTo, total, at) =>
        var items: seq<StoredItem> := [];
        for i := 0 to |lines|
          invariant items == StoredLines(lines)[..i]
        {
          items := items + [StoredItem(lines[i].sku, lines[i].qty, lines[i].price.minor, lines[i].price.currency)];
        }
        return PLACED_TYPE, EMPTY.(order := Some(o), customer := Some(c), items := items, shipTo := shipTo,
                                   totalMinor := total.minor, currency := total.currency, placedAt := at);
      case OrderConfirmed(o, at) => return CONFIRMED_TYPE, EMPTY.(order := Some(o), confirmedAt := at);
      case OrderCancelled(o, why, at) => return CANCELLED_TYPE, EMPTY.(order := Some(o), reason := why, cancelledAt := at);
    }
  }

  method DecodeItems(stored: seq<StoredItem>) returns (r: Result<seq<LineItem>, OrderError>)
    ensures r == DecodedItems(stored)
  {
    ghost var rs := EachDecoded(stored);
    var items: seq<LineItem> := [];
    for i := 0 to |stored|
      invariant Collect(rs[..i]) == Ok(items)
    {
      assert rs[..i + 1][..i] == rs[..i];
      var item := DecodedItem(stored[i]);
      if item.Err? {
        CollectStops(rs, i + 1);
        return Err(item.error);
      }
      items := items + [item.value];
    }
    assert rs[..|stored|] == rs;
    return Ok(items);
  }

  method DecodeEvent(eventType: string, p: Payload) returns (r: Result<Event, OrderError>)
    ensures r == Decoded(eventType, p)
  {
    if eventType == PLACED_TYPE {
      if p.order == None { return Err(InvalidIdentifier); }
      if p.customer == None { return Err(InvalidIdentifier); }
      var items := DecodeItems(p.items);
      if items.Err? { return Err(items.error); }
      var shipTo := NewAddress(p.shipTo);
      if shipTo.Err? { return Err(shipTo.error); }
      var total := NewMoney(p.currency, p.totalMinor);
      if total.Err? { return Err(total.error); }
      return Ok(OrderPlaced(p.order.value, p.customer.value, items.value, shipTo.value, total.value, p.placedAt));
    } else if eventType == CONFIRMED_TYPE {
      if p.order == None { return Err(InvalidIdentifier); }
      return Ok(OrderConfirmed(p.order.value, p.confirmedAt));
    } else if eventType == CANCELLED_TYPE {
      if p.order == None { return Err(InvalidIdentifier); }
      return Ok(OrderCancelled(p.order.value, p.reason, p.cancelledAt));
    }
    return Err(ValidationFailed);
  }
}
