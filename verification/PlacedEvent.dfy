/** What the order.placed event of a validated order is good for downstream. */
module PlacedEvent {
  import opened Texts
  import opened OrderValues
  import opened OrderAggregate
  import opened EventStore
  import Ledger = StockLedger
  import Inventory = InventoryDomain

  /** The event that a message tells of. */
  function Told(m: Message): Event {
    match m
    case PlacedMessage(o, c, items, shipTo, total, currency, at) =>
      OrderPlaced(o, c, seq(|items|, i requires 0 <= i < |items| => LineItem(items[i].sku, items[i].qty, Money(currency, items[i].unitPriceMinor))),
                  shipTo, Money(currency, total), at)
    case ConfirmedMessage(o, at) => OrderConfirmed(o, at)
    case CancelledMessage(o, reason, at) => OrderCancelled(o, reason, at)
  }

  /** The message of a validated event carries all of it. */
  lemma MessageCarriesAll(e: Event)
    requires Validated(e)
    ensures Told(MessageOf(e)) == e
  {
    if e.OrderPlaced? {
      var told := Told(MessageOf(e));
      forall i | 0 <= i < |e.items| ensures told.items[i] == e.items[i] {
        assert e.items[i].price.currency == e.items[0].price.currency;
      }
      assert told.items == e.items;
    }
  }

  /** The reserve request that the saga makes of an order.placed payload. */
  function ReserveLines(m: Message): seq<Ledger.Line>
    requires m.PlacedMessage?
  {
    seq(|m.items|, i requires 0 <= i < |m.items| => Ledger.Line(m.items[i].sku, m.items[i].qty))
  }

  /**
    Every emitted order.placed payload passes inventory's own validation, unchanged
    by its trimming: a business rejection can only mean an unknown SKU or too little stock.
  */
  lemma PlacedPassesInventory(e: Event)
    requires e.OrderPlaced? && Validated(e)
    ensures var lines := ReserveLines(MessageOf(e));
      && Inventory.AcceptableInput(lines) && Ledger.ValidLines(lines)
      && forall i | 0 <= i < |lines| :: TrimSpace(lines[i].sku) == lines[i].sku
  {
  }
}
