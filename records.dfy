/**
 * The books kept for one stock-keeping unit: cumulative counts of units
 * bought and sold, and a running quantity-weighted average of the purchase
 * and of the sale prices. Prices are exact reals here, so the running
 * averages are provably equal to the weighted means they approximate.
 */
module Records {

  /** `quantity` units changing hands at `price` each: one buy or sell event. */
  datatype Lot = Lot(quantity: nat, price: real)

  /**
   * The price of `n` units at `x` each, added up one unit at a time, the
   * way the average loop folds units in. `TimesIsProduct` is its closed form.
   */
  function Times(n: nat, x: real): real
  {
    if n == 0 then 0.0 else Times(n - 1, x) + x
  }

  lemma {:induction false} TimesIsProduct(n: nat, x: real)
    ensures Times(n, x) == n as real * x
  {
    if n > 0 {
      TimesIsProduct(n - 1, x);
    }
  }

  /** Units over a history of lots. */
  function TotalQuantity(h: seq<Lot>): nat
  {
    if h == [] then 0 else TotalQuantity(h[..|h| - 1]) + h[|h| - 1].quantity
  }

  /** Money over a history of lots (quantity times price, summed). */
  function TotalValue(h: seq<Lot>): real
  {
    if h == [] then 0.0
    else TotalValue(h[..|h| - 1]) + Times(h[|h| - 1].quantity, h[|h| - 1].price)
  }

  /** The quantity-weighted mean price of a history; zero before any unit. */
  function WeightedMean(h: seq<Lot>): real
  {
    if TotalQuantity(h) == 0 then 0.0 else TotalValue(h) / TotalQuantity(h) as real
  }

  /**
   * `avg` is what a running average over the lots of `h` holds: the money of
   * `h` spread over its units, and still the initial zero while there are none.
   */
  ghost predicate AveragesHistory(avg: real, h: seq<Lot>)
  {
    && Times(TotalQuantity(h), avg) == TotalValue(h)
    && (TotalQuantity(h) == 0 ==> avg == 0.0)
  }

  /** `count` is the number of units in `h`, and `avg` their running average. */
  ghost predicate Tally(count: nat, avg: real, h: seq<Lot>)
  {
    count == TotalQuantity(h) && AveragesHistory(avg, h)
  }

  lemma TotalsAppend(h: seq<Lot>, l: Lot)
    ensures TotalQuantity(h + [l]) == TotalQuantity(h) + l.quantity
    ensures TotalValue(h + [l]) == TotalValue(h) + Times(l.quantity, l.price)
  {
    assert (h + [l])[..|h|] == h;
  }

  /** A history in which no unit changed hands is worth nothing. */
  lemma {:induction false} NoUnitsNoValue(h: seq<Lot>)
    requires TotalQuantity(h) == 0
    ensures TotalValue(h) == 0.0
  {
    if h != [] {
      NoUnitsNoValue(h[..|h| - 1]);
    }
  }

  /** The running average of a history is its weighted mean price. */
  lemma AverageIsWeightedMean(avg: real, h: seq<Lot>)
    requires AveragesHistory(avg, h)
    ensures avg == WeightedMean(h)
  {
    if TotalQuantity(h) > 0 {
      TimesIsProduct(TotalQuantity(h), avg);
    }
  }

  /** The weighted mean price of a history qualifies as its running average. */
  lemma WeightedMeanAveragesHistory(h: seq<Lot>)
    ensures AveragesHistory(WeightedMean(h), h)
  {
    if TotalQuantity(h) == 0 {
      NoUnitsNoValue(h);
    } else {
      TimesIsProduct(TotalQuantity(h), WeightedMean(h));
    }
  }

  /** One turn of the loop body, on its own: `count` samples become `count + 1`. */
  lemma MeanStep(count: real, avg: real, val: real)
    requires count >= 0.0
    ensures (count + 1.0) * (avg + (val - avg) / (count + 1.0)) == count * avg + val
  {
  }

  /**
   * Folding a lot into a running average over `n` units keeps it a running
   * average of the history extended by that lot.
   */
  lemma AppendLot(avg: real, h: seq<Lot>, n: nat, l: Lot, avg': real)
    requires Tally(n, avg, h)
    requires l.quantity == 0 ==> avg' == avg
    requires n + l.quantity > 0 ==>
      (n + l.quantity) as real * avg' == n as real * avg + l.quantity as real * l.price
    ensures Tally(n + l.quantity, avg', h + [l])
  {
    TotalsAppend(h, l);
    TimesIsProduct(n, avg);
    TimesIsProduct(n + l.quantity, avg');
    TimesIsProduct(l.quantity, l.price);
  }

  /** Outcome of `ItemRecord.Sell`: recorded, or refused for overselling. */
  datatype Status = Recorded | Rejected

  class ItemRecord {
    var bought: nat
    var sold: nat
    var avgPurchasePrice: real
    var avgSalesPrice: real

    /** Every buy and every accepted sell so far, in order. */
    ghost var purchases: seq<Lot>
    ghost var sales: seq<Lot>

    /**
     * The counts are the totals of the histories, each average is the
     * running average of its history, and no more was sold than bought.
     */
    ghost predicate Valid()
      reads this
    {
      && Tally(bought, avgPurchasePrice, purchases)
      && Tally(sold, avgSalesPrice, sales)
      && sold <= bought
    }

    constructor ()
      ensures Valid()
      ensures bought == 0 && sold == 0 && avgPurchasePrice == 0.0 && avgSalesPrice == 0.0
      ensures purchases == [] && sales == []
    {
      bought, sold := 0, 0;
      avgPurchasePrice, avgSalesPrice := 0.0, 0.0;
      purchases, sales := [], [];
    }

    /** Fold `quantity` units at `price` into the purchase books. */
    method Buy(quantity: nat, price: real)
      requires Valid()
      modifies this
      ensures Valid()
      ensures bought == old(bought) + quantity
      ensures sold == old(sold) && avgSalesPrice == old(avgSalesPrice)
      ensures purchases == old(purchases) + [Lot(quantity, price)] && sales == old(sales)
    {
      var avg := UpdateAverage(quantity, price, bought, avgPurchasePrice);
      AppendLot(avgPurchasePrice, purchases, bought, Lot(quantity, price), avg);
      avgPurchasePrice := avg;
      bought := bought + quantity;
      purchases := purchases + [Lot(quantity, price)];
    }

    /**
     * Fold `quantity` units at `price` into the sale books, or refuse, and
     * change nothing, when that is more than is in stock.
     */
    method Sell(quantity: nat, price: real) returns (status: Status)
      requires Valid()
      modifies this
      ensures Valid()
      ensures status == Rejected <==> quantity > old(NumAvailable())
      ensures status == Rejected ==> unchanged(this)
      ensures status == Recorded ==>
        && sold == old(sold) + quantity
        && bought == old(bought) && avgPurchasePrice == old(avgPurchasePrice)
        && sales == old(sales) + [Lot(quantity, price)] && purchases == old(purchases)
    {
      if quantity > NumAvailable() {
        return Rejected;
      }
      var avg := UpdateAverage(quantity, price, sold, avgSalesPrice);
      AppendLot(avgSalesPrice, sales, sold, Lot(quantity, price), avg);
      avgSalesPrice := avg;
      sold := sold + quantity;
      sales := sales + [Lot(quantity, price)];
      status := Recorded;
    }

    /** Units in stock: everything bought that has not been sold. */
    function NumAvailable(): (r: int)
      reads this
      ensures Valid() ==> r == TotalQuantity(purchases) - TotalQuantity(sales) && r >= 0
    {
      bought - sold
    }

    /**
     * Profit to date at the current weighted averages: the money taken in
     * sales less the units sold costed at the average purchase price.
     */
    function Profit(): (r: real)
      reads this
      ensures Valid() ==> r == TotalValue(sales) - Times(TotalQuantity(sales), avgPurchasePrice)
    {
      TimesIsProduct(sold, avgSalesPrice);
      TimesIsProduct(sold, avgPurchasePrice);
      sold as real * (avgSalesPrice - avgPurchasePrice)
    }

    /**
     * The stock on hand costed at the average purchase price: what was spent
     * on purchases less the units sold costed at that price.
     */
    function UnsoldCost(): (r: real)
      reads this
      ensures Valid() ==> r == TotalValue(purchases) - Times(TotalQuantity(sales), avgPurchasePrice)
    {
      TimesIsProduct(bought, avgPurchasePrice);
      TimesIsProduct(sold, avgPurchasePrice);
      NumAvailable() as real * avgPurchasePrice
    }

    function NumBought(): (r: nat)
      reads this
      ensures Valid() ==> r == TotalQuantity(purchases)
    {
      bought
    }

    function NumSold(): (r: nat)
      reads this
      ensures Valid() ==> r == TotalQuantity(sales) && r <= NumBought()
    {
      sold
    }

    /**
     * The incremental-mean loop: fold `quantity` samples of `val` one at a
     * time into an average of `startCount` samples that stands at `currAvg`.
     * The result weights `currAvg` by `startCount` and `val` by `quantity`.
     */
    static method UpdateAverage(quantity: nat, val: real, startCount: nat, currAvg: real)
      returns (avg: real)
      ensures quantity == 0 ==> avg == currAvg
      ensures startCount + quantity > 0 ==>
        (startCount + quantity) as real * avg
        == startCount as real * currAvg + quantity as real * val
      ensures startCount + quantity > 0 ==>
        avg == (startCount as real * currAvg + quantity as real * val) / (startCount + quantity) as real
    {
      var totalCount := startCount + quantity;
      avg := currAvg;
      var count := startCount;
      while count < totalCount
        invariant startCount <= count <= totalCount
        invariant count == startCount ==> avg == currAvg
        invariant count as real * avg
                  == startCount as real * currAvg + (count - startCount) as real * val
      {
        MeanStep(count as real, avg, val);
        avg := avg + (val - avg) / (count + 1) as real;
        count := count + 1;
      }
    }
  }

  /**
   * In every state a record reaches, each average is the quantity-weighted
   * mean price of all the lots bought (resp. sold) so far.
   */
  lemma AveragesAreWeightedMeans(r: ItemRecord)
    requires r.Valid()
    ensures r.avgPurchasePrice == WeightedMean(r.purchases)
    ensures r.avgSalesPrice == WeightedMean(r.sales)
  {
    AverageIsWeightedMean(r.avgPurchasePrice, r.purchases);
    AverageIsWeightedMean(r.avgSalesPrice, r.sales);
  }
}
