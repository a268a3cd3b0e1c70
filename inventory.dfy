/**
 * The inventory of a store: one `ItemRecord` per stock-keeping unit (SKU),
 * created on the first receipt of that SKU and kept for the lifetime of the
 * inventory. Sale requests are clamped to the stock on hand before they
 * reach the record.
 */
module Inventories {
  import opened Records

  /** What a sale request came to, in place of the diagnostics the store writes. */
  datatype SellOutcome =
    | NoInventory              // unknown SKU, or none in stock: nothing sold
    | Clamped(selling: nat)    // more requested than in stock: `selling` units sold instead
    | Sold                     // the whole request was sold

  /** The four figures reported for one SKU. */
  datatype Summary = Summary(sold: nat, inStock: int, profit: real, unsoldCost: real)

  function Min(a: int, b: int): (r: int)
    ensures r <= a && r <= b && (r == a || r == b)
  {
    if a <= b then a else b
  }

  class Inventory {
    var items: map<string, ItemRecord>

    /** Each SKU owns its record outright, and every record keeps its books. */
    ghost predicate Valid()
      reads this, items.Values
    {
      && (forall k, k' :: k in items && k' in items && k != k' ==> items[k] != items[k'])
      && (forall k :: k in items ==> items[k].Valid())
    }

    constructor ()
      ensures Valid() && items == map[]
    {
      items := map[];
    }

    /**
     * Record the receipt of `quantity` units of `sku` bought at `price`: the
     * record of `sku`, made fresh on its first receipt, buys them, and every
     * other record keeps its counts and its books.
     */
    method Receive(sku: string, quantity: nat, price: real)
      requires Valid()
      modifies this, items.Values
      ensures Valid()
      ensures sku in items && items == old(items)[sku := items[sku]]
      ensures sku in old(items) ==> items[sku] == old(items[sku])
      ensures sku !in old(items) ==> fresh(items[sku])
      ensures sku in old(items) ==>
        && items[sku].NumBought() == old(items[sku].NumBought()) + quantity
        && items[sku].NumSold() == old(items[sku].NumSold())
        && items[sku].purchases == old(items[sku].purchases) + [Lot(quantity, price)]
        && items[sku].sales == old(items[sku].sales)
      ensures sku !in old(items) ==>
        && items[sku].NumBought() == quantity && items[sku].NumSold() == 0
        && items[sku].purchases == [Lot(quantity, price)] && items[sku].sales == []
      ensures forall k :: k in old(items) && k != sku ==>
        && items[k].NumBought() == old(items[k].NumBought()) && items[k].NumSold() == old(items[k].NumSold())
        && items[k].purchases == old(items[k].purchases) && items[k].sales == old(items[k].sales)
    {
      var record: ItemRecord;
      if sku in items {
        record := items[sku];
      } else {
        record := new ItemRecord();
        items := items[sku := record];
      }
      record.Buy(quantity, price);
    }

    /**
     * Sell up to `requested` units of `sku` at `price`: nothing when the SKU
     * is unknown or out of stock, otherwise the request clamped to the stock.
     * No SKU is added, and every other record keeps its counts and its books.
     */
    method Sell(sku: string, requested: nat, price: real) returns (outcome: SellOutcome)
      requires Valid()
      modifies items.Values
      ensures Valid()
      ensures items == old(items)
      ensures outcome == NoInventory <==> sku !in items || old(items[sku].NumAvailable()) == 0
      ensures outcome.Clamped? <==> sku in items && 0 < old(items[sku].NumAvailable()) < requested
      ensures outcome.Clamped? ==> outcome.selling == old(items[sku].NumAvailable())
      ensures sku in items ==>
        items[sku].NumBought() == old(items[sku].NumBought()) && items[sku].purchases == old(items[sku].purchases)
      ensures sku in items && outcome == NoInventory ==>
        items[sku].NumSold() == old(items[sku].NumSold()) && items[sku].sales == old(items[sku].sales)
      ensures outcome != NoInventory ==>
        && items[sku].NumSold() == old(items[sku].NumSold()) + Min(requested, old(items[sku].NumAvailable()))
        && items[sku].sales == old(items[sku].sales) + [Lot(Min(requested, old(items[sku].NumAvailable())), price)]
      ensures forall k :: k in items && k != sku ==>
        && items[k].NumBought() == old(items[k].NumBought()) && items[k].NumSold() == old(items[k].NumSold())
        && items[k].purchases == old(items[k].purchases) && items[k].sales == old(items[k].sales)
    {
      if sku !in items || items[sku].NumAvailable() == 0 {
        return NoInventory;
      }
      var soldQty: nat;
      if items[sku].NumAvailable() < requested {
        soldQty := items[sku].NumAvailable();
        outcome := Clamped(soldQty);
      } else {
        soldQty := requested;
        outcome := Sold;
      }
      var status := items[sku].Sell(soldQty, price);
      assert status == Recorded;
    }

    /** Sold, in stock, profit and unsold cost for every SKU in the inventory. */
    method Report() returns (report: map<string, Summary>)
      requires Valid()
      ensures report.Keys == items.Keys
      ensures forall k :: k in report ==>
        report[k] == Summary(items[k].NumSold(), items[k].NumAvailable(), items[k].Profit(), items[k].UnsoldCost())
      ensures forall k :: k in report ==>
        && report[k].sold == TotalQuantity(items[k].sales)
        && report[k].inStock == TotalQuantity(items[k].purchases) - TotalQuantity(items[k].sales) >= 0
    {
      report := map[];
      var pending := items.Keys;
      while pending != {}
        invariant pending <= items.Keys
        invariant report.Keys == items.Keys - pending
        invariant forall k :: k in report ==>
          report[k] == Summary(items[k].NumSold(), items[k].NumAvailable(), items[k].Profit(), items[k].UnsoldCost())
        decreases pending
      {
        var sku :| sku in pending;
        var item := items[sku];
        report := report[sku := Summary(item.NumSold(), item.NumAvailable(), item.Profit(), item.UnsoldCost())];
        pending := pending - {sku};
      }
    }
  }
}
