/**
 * The unit tests of `ItemRecord`, each written as a method that replays the
 * test's transactions on a fresh record and promises the figures the test
 * expects.
 */
module RecordScenarios {
  import opened Records

  /** Buying 5 units: 5 bought and 5 in stock. */
  method SinglePurchase() returns (bought: nat, available: int)
    ensures bought == 5 && available == 5
  {
    var record := new ItemRecord();
    record.Buy(5, 2.0);
    bought, available := record.NumBought(), record.NumAvailable();
  }

  /** Buying 5 and then 3 units: 8 bought. */
  method MultiPurchase() returns (bought: nat)
    ensures bought == 8
  {
    var record := new ItemRecord();
    record.Buy(5, 2.0);
    record.Buy(3, 3.0);
    bought := record.NumBought();
  }

  /** Selling 5 units from a record that holds nothing is refused: none are sold. */
  method SingleSellOnEmptyRecord() returns (status: Status, sold: nat)
    ensures status == Rejected && sold == 0
  {
    var record := new ItemRecord();
    status := record.Sell(5, 2.0);
    sold := record.NumSold();
  }

  /**
   * Selling 5 and then 3 units from a record that holds nothing: the first
   * sale is refused, and so is the second, for a caller that carries on
   * after the refusal. None are sold.
   */
  method MultiSellOnEmptyRecord() returns (first: Status, second: Status, sold: nat)
    ensures first == Rejected && second == Rejected && sold == 0
  {
    var record := new ItemRecord();
    first := record.Sell(5, 2.0);
    second := record.Sell(3, 3.0);
    sold := record.NumSold();
  }

  /** Selling 5 of 4 units is refused and leaves the books as they were. */
  method SellMoreThanAvailable() returns (status: Status, sold: nat, available: int)
    ensures status == Rejected && sold == 0 && available == 4
  {
    var record := new ItemRecord();
    record.Buy(4, 3.0);
    status := record.Sell(5, 2.0);
    sold, available := record.NumSold(), record.NumAvailable();
  }

  /** 5 bought at 2.0, 4 sold at 3.0: profit 4, 1 in stock costing 2. */
  method PositiveProfit() returns (profit: real, available: int, unsoldCost: real)
    ensures profit == 4.0 && available == 1 && unsoldCost == 2.0
  {
    var record := new ItemRecord();
    record.Buy(5, 2.0);
    var status := record.Sell(4, 3.0);
    AveragesAreWeightedMeans(record);
    profit, available, unsoldCost := record.Profit(), record.NumAvailable(), record.UnsoldCost();
  }

  /** 5 bought at 3.0, 4 sold at 2.0: a loss of 4, 1 in stock costing 3. */
  method NegativeProfit() returns (profit: real, available: int, unsoldCost: real)
    ensures profit == -4.0 && available == 1 && unsoldCost == 3.0
  {
    var record := new ItemRecord();
    record.Buy(5, 3.0);
    var status := record.Sell(4, 2.0);
    AveragesAreWeightedMeans(record);
    profit, available, unsoldCost := record.Profit(), record.NumAvailable(), record.UnsoldCost();
  }

  /**
   * 8 bought at 1.0 and 2 at 3.5 average 1.5; after selling 2 at 2.5 and
   * 4 at 3.0, 4 are in stock, the profit is 8 and the stock costs 6.
   */
  method SampleProblem() returns (avgPurchase: real, available: int, profit: real, unsoldCost: real)
    ensures avgPurchase == 1.5 && available == 4 && profit == 8.0 && unsoldCost == 6.0
  {
    var record := new ItemRecord();
    record.Buy(8, 1.0);
    record.Buy(2, 3.5);
    avgPurchase := record.avgPurchasePrice;
    var first := record.Sell(2, 2.5);
    var second := record.Sell(4, 3.0);
    AveragesAreWeightedMeans(record);
    available, profit, unsoldCost := record.NumAvailable(), record.Profit(), record.UnsoldCost();
  }
}
