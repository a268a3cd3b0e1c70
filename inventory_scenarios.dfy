/**
 * The unit tests of `Inventory`, each written as a method that replays the
 * test's transactions on a fresh inventory and promises what the test
 * expects of the outcomes and of the report.
 */
module InventoryScenarios {
  import opened Inventories

  /** 5 FRUITLOOPS received, 3 sold: the report shows 3 sold. */
  method SingleSkuSingleReceiveSell() returns (outcome: SellOutcome, report: map<string, Summary>)
    ensures outcome == Sold
    ensures report.Keys == {"FRUITLOOPS"} && report["FRUITLOOPS"].sold == 3
  {
    var inventory := new Inventory();
    inventory.Receive("FRUITLOOPS", 5, 2.0);
    outcome := inventory.Sell("FRUITLOOPS", 3, 2.5);
    report := inventory.Report();
  }

  /** FRUITLOOPS received twice and sold twice: the report shows 7 sold. */
  method SingleSkuMultipleReceiveSell() returns (first: SellOutcome, second: SellOutcome, report: map<string, Summary>)
    ensures first == Sold && second == Sold
    ensures report.Keys == {"FRUITLOOPS"} && report["FRUITLOOPS"].sold == 7
  {
    var inventory := new Inventory();
    inventory.Receive("FRUITLOOPS", 3, 2.0);
    inventory.Receive("FRUITLOOPS", 5, 2.9);
    assert inventory.items.Keys == {"FRUITLOOPS"};
    assert inventory.items["FRUITLOOPS"].NumBought() == 8 && inventory.items["FRUITLOOPS"].NumSold() == 0;
    first := inventory.Sell("FRUITLOOPS", 4, 2.5);
    assert first == Sold;
    assert inventory.items["FRUITLOOPS"].NumBought() == 8 && inventory.items["FRUITLOOPS"].NumSold() == 4;
    second := inventory.Sell("FRUITLOOPS", 3, 4.5);
    assert second == Sold && inventory.items["FRUITLOOPS"].NumSold() == 7;
    report := inventory.Report();
  }

  /** Two SKUs traded side by side keep separate books: 3 and 4 sold. */
  method MultipleSkuSingleReceiveSell() returns (report: map<string, Summary>)
    ensures report.Keys == {"FRUITLOOPS", "CHIPSAHOY"}
    ensures report["FRUITLOOPS"].sold == 3 && report["CHIPSAHOY"].sold == 4
  {
    var inventory := new Inventory();
    inventory.Receive("FRUITLOOPS", 5, 2.0);
    var fruitLoops := inventory.Sell("FRUITLOOPS", 3, 2.5);
    assert inventory.items.Keys == {"FRUITLOOPS"} && inventory.items["FRUITLOOPS"].NumSold() == 3;
    inventory.Receive("CHIPSAHOY", 7, 2.70);
    assert inventory.items.Keys == {"FRUITLOOPS", "CHIPSAHOY"} && inventory.items["FRUITLOOPS"].NumSold() == 3;
    var chipsAhoy := inventory.Sell("CHIPSAHOY", 4, 2.5);
    assert inventory.items["FRUITLOOPS"].NumSold() == 3 && inventory.items["CHIPSAHOY"].NumSold() == 4;
    report := inventory.Report();
  }

  /** Selling a SKU never received sells nothing and adds no line to the report. */
  method InvalidSellUnknownSku() returns (outcome: SellOutcome, report: map<string, Summary>)
    ensures outcome == NoInventory && report == map[]
  {
    var inventory := new Inventory();
    outcome := inventory.Sell("LUCKYCHARMS", 3, 2.5);
    report := inventory.Report();
  }

  /** Selling all 3 units received, then 2 more: the second sale finds no stock. */
  method InvalidSellOutOfStock() returns (first: SellOutcome, second: SellOutcome)
    ensures first == Sold && second == NoInventory
  {
    var inventory := new Inventory();
    inventory.Receive("LUCKYCHARMS", 3, 1.5);
    first := inventory.Sell("LUCKYCHARMS", 3, 2.5);
    second := inventory.Sell("LUCKYCHARMS", 2, 2.5);
  }

  /** Asking for 5 of the 3 units received sells the 3 instead. */
  method InvalidSellMoreThanAvailable() returns (outcome: SellOutcome, report: map<string, Summary>)
    ensures outcome == Clamped(3)
    ensures report.Keys == {"LUCKYCHARMS"} && report["LUCKYCHARMS"].sold == 3 && report["LUCKYCHARMS"].inStock == 0
  {
    var inventory := new Inventory();
    inventory.Receive("LUCKYCHARMS", 3, 1.5);
    outcome := inventory.Sell("LUCKYCHARMS", 5, 2.5);
    report := inventory.Report();
  }

  /**
   * From the store's driver: with APPLEJACKS in stock, a sale of
   * CINNAMONTOASTCRUNCH, never received, is refused, and the report lists
   * APPLEJACKS alone.
   */
  method UnknownSkuNotReported() returns (outcome: SellOutcome, report: map<string, Summary>)
    ensures outcome == NoInventory && report.Keys == {"APPLEJACKS"}
  {
    var inventory := new Inventory();
    inventory.Receive("APPLEJACKS", 3, 2.5);
    assert "CINNAMONTOASTCRUNCH" !in inventory.items.Keys by {
      assert |"CINNAMONTOASTCRUNCH"| != |"APPLEJACKS"|;
    }
    outcome := inventory.Sell("CINNAMONTOASTCRUNCH", 4, 3.0);
    report := inventory.Report();
  }
}
