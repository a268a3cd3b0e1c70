# Store inventory: item records and the inventory map

This project models the inventory of a small store that buys and sells boxed
goods identified by stock-keeping units (SKUs), and proves properties of the
model.

- **`Records`** (`records.dfy`) models the books kept for one SKU: class
  `ItemRecord`.
  - Its fields are the cumulative units bought and sold, and a running,
    quantity-weighted average of the purchase prices and of the sale prices.
  - `UpdateAverage` is the incremental-mean loop. It adds one sample per
    unit, as `avg += (val - avg) / (count + 1)`.
  - Two ghost histories, `purchases` and `sales`, record every lot bought and
    every sale accepted. The invariant `Valid` ties the four fields to these
    histories:
    - each count is the number of units in its history;
    - each average is the weighted mean price of its history;
    - no more has been sold than bought.
  - `Buy` and `Sell` preserve `Valid`, and `AveragesAreWeightedMeans` draws its
    consequence: each average equals `Σ qᵢ·pᵢ / Σ qᵢ` over its lots.
  - `ItemRecord.Sell` refuses a sale of more units than are in stock, and then
    changes nothing.
- **`Inventories`** (`inventory.dfy`) models class `Inventory`, which maps each
  SKU to the record it owns.
  - `Receive` creates a record on the first receipt of a SKU.
  - `Sell` does nothing when the SKU is unknown or has no stock. Otherwise it
    sells `min(requested, in stock)` units. The sale goes through the record's
    guarded `Sell`, which never refuses it.
  - `Report` gives, for every SKU held, the four figures the store reports:
    units sold, units in stock, profit, and the cost of the unsold stock.
  - Every operation states what happens to the SKU it names, and states that
    every other SKU keeps its counts and its histories.
- **`RecordScenarios`** and **`InventoryScenarios`** replay the repository's
  unit tests as methods. Each method's `ensures` states the figures the test
  expects.

Prices are exact reals, so in this model the averages are exactly the weighted
means. The C++ code computes them in `double`.

The code and its tests disagree in one place. `SingleSellTest` and
`MultiSellTest` (test/ItemRecordTest.cpp/ItemRecordTest.cpp:52-83) sell from an
empty record and expect the units to count as sold. The guard in
`ItemRecord::sell` (ItemRecord.h:58-60) refuses exactly those sales. The model
follows the code: `RecordScenarios.SingleSellOnEmptyRecord` and
`RecordScenarios.MultiSellOnEmptyRecord` prove that these sales are refused
and nothing is counted as sold.

## Model

| member | source | states |
|---|---|---|
| Records.TimesIsProduct | ItemRecord.h:133-134 | adding `x` once per unit, `n` times over, comes to `n · x` (the unit-at-a-time sum the loop builds equals the product) |
| Records.TotalsAppend | ItemRecord.h:43-44 | appending a lot to a history adds its quantity to the units and quantity × price to the money |
| Records.NoUnitsNoValue | ItemRecord.h:26-33 | a history in which no unit changed hands is worth nothing, so a zero average fits it |
| Records.AverageIsWeightedMean | ItemRecord.h:127-136 | any running average of a history is that history's weighted mean price (total money / total units, 0 before any unit) |
| Records.WeightedMeanAveragesHistory | ItemRecord.h:127-136 | conversely, the weighted mean price of a history is a running average of it |
| Records.MeanStep | ItemRecord.h:134 | one step `avg + (val - avg)/(count + 1)` turns an average of `count` samples into the average of `count + 1` samples that include `val` |
| Records.AppendLot | ItemRecord.h:43-44 | folding a lot of `q` at `p` into an average over `n` units (as `UpdateAverage` promises) yields a running average over `n + q` units of the history extended by that lot |
| Records.ItemRecord.constructor | ItemRecord.h:26-33 | a fresh record has 0 bought, 0 sold, both averages 0.0 and empty histories, and is `Valid` |
| Records.ItemRecord.Buy | ItemRecord.h:41-45 | bought grows by exactly `quantity`; the lot joins the purchase history; sold, the sale average and the sale history are unchanged; `Valid` is preserved (purchase average = weighted mean of all purchases) |
| Records.ItemRecord.Sell | ItemRecord.h:56-64 | refused (`Rejected`) iff `quantity` exceeds the units in stock, and then nothing changes; otherwise sold grows by `quantity`, the lot joins the sale history, and bought, the purchase average and the purchase history are unchanged; `Valid` (hence sold ≤ bought) is preserved |
| Records.ItemRecord.NumAvailable | ItemRecord.h:71-74 | for a valid record, units purchased minus units sold over the histories, and never negative |
| Records.ItemRecord.Profit | ItemRecord.h:82-85 | for a valid record, the money taken in all sales less the units sold costed at the average purchase price |
| Records.ItemRecord.UnsoldCost | ItemRecord.h:92-95 | for a valid record, the money spent on all purchases less the units sold costed at the average purchase price |
| Records.ItemRecord.NumBought | ItemRecord.h:102-105 | for a valid record, the units over the purchase history |
| Records.ItemRecord.NumSold | ItemRecord.h:112-115 | for a valid record, the units over the sale history, never more than bought |
| Records.ItemRecord.UpdateAverage | ItemRecord.h:127-136 | the loop leaves the average unchanged when `quantity == 0`, and otherwise leaves exactly `(startCount · currAvg + quantity · val) / (startCount + quantity)` |
| Records.AveragesAreWeightedMeans | ItemRecord.h:41-64 | in every valid state each average is the quantity-weighted mean price `Σ qᵢ·pᵢ / Σ qᵢ` of all lots bought (resp. sold) so far |
| Inventories.Min | Inventory.h:66-74 | the smaller of two numbers: no greater than either and equal to one of them |
| Inventories.Inventory.constructor | Inventory.h:27-30 | a new inventory holds no SKU |
| Inventories.Inventory.Receive | Inventory.h:40-46 | afterwards `sku` is held and no other key is added or removed; a known SKU keeps its record object, an unknown one gets a fresh record; that record buys `quantity` at `price` (bought and purchase history extended, sales untouched, a new record starts from zero); every other SKU keeps its counts and histories |
| Inventories.Inventory.Sell | Inventory.h:59-76 | the key set and record objects are unchanged; `NoInventory` iff the SKU is unknown or has no stock, and then nothing is sold; `Clamped(n)` iff 0 < stock < requested, with `n` the stock; otherwise `min(requested, stock)` units are sold at `price` and join the sale history; purchases and every other SKU are unchanged |
| Inventories.Inventory.Report | Inventory.h:88-99 | one entry per SKU held and none other, each (units sold, units in stock, profit, unsold cost) of that SKU's record; sold and in-stock agree with the histories, and in-stock is never negative |
| RecordScenarios.SinglePurchase | test/ItemRecordTest.cpp/ItemRecordTest.cpp:14-26 | buying 5 leaves 5 bought and 5 in stock |
| RecordScenarios.MultiPurchase | test/ItemRecordTest.cpp/ItemRecordTest.cpp:33-44 | buying 5 then 3 leaves 8 bought |
| RecordScenarios.SingleSellOnEmptyRecord | test/ItemRecordTest.cpp/ItemRecordTest.cpp:52-64 | selling 5 from an empty record is refused and 0 are sold (the test expects 5; see above) |
| RecordScenarios.MultiSellOnEmptyRecord | test/ItemRecordTest.cpp/ItemRecordTest.cpp:72-83 | selling 5 from an empty record is refused; the second sale, of 3, is reached only by a caller that catches the refusal (in the C++ the first `sell` throws), and it is refused too; 0 are sold (the test expects 8; see above) |
| RecordScenarios.SellMoreThanAvailable | test/ItemRecordTest.cpp/ItemRecordTest.cpp:90-103 | selling 5 of 4 units is refused, leaving 0 sold and 4 in stock |
| RecordScenarios.PositiveProfit | test/ItemRecordTest.cpp/ItemRecordTest.cpp:112-126 | 5 bought at 2.0, 4 sold at 3.0: profit 4.0, 1 in stock, unsold cost 2.0 |
| RecordScenarios.NegativeProfit | test/ItemRecordTest.cpp/ItemRecordTest.cpp:135-149 | 5 bought at 3.0, 4 sold at 2.0: profit -4.0, 1 in stock, unsold cost 3.0 |
| RecordScenarios.SampleProblem | test/ItemRecordTest.cpp/ItemRecordTest.cpp:157-173 | buy(8, 1.0), buy(2, 3.5) average 1.5; after sell(2, 2.5), sell(4, 3.0): 4 in stock, profit 8.0, unsold cost 6.0 |
| InventoryScenarios.SingleSkuSingleReceiveSell | test/ItemRecordTest.cpp/InventoryTest.cpp:58-76 | 5 received, 3 sold: the sale goes through and the report lists only that SKU, with 3 sold |
| InventoryScenarios.SingleSkuMultipleReceiveSell | test/ItemRecordTest.cpp/InventoryTest.cpp:84-103 | 3 and 5 received, 4 and 3 sold: both sales go through and the report shows 7 sold |
| InventoryScenarios.MultipleSkuSingleReceiveSell | test/ItemRecordTest.cpp/InventoryTest.cpp:111-136 | two SKUs traded side by side are both reported, with 3 and 4 sold |
| InventoryScenarios.InvalidSellUnknownSku | test/ItemRecordTest.cpp/InventoryTest.cpp:143-158 | selling a SKU never received gives `NoInventory`, and the report is empty |
| InventoryScenarios.InvalidSellOutOfStock | test/ItemRecordTest.cpp/InventoryTest.cpp:165-186 | selling all 3 received goes through; a further sale gives `NoInventory` |
| InventoryScenarios.InvalidSellMoreThanAvailable | test/ItemRecordTest.cpp/InventoryTest.cpp:194-214 | asking for 5 of 3 gives `Clamped(3)`; the report shows 3 sold and 0 in stock |
| InventoryScenarios.UnknownSkuNotReported | Main.cpp:20-37 | a sale of a SKU never received is refused, and the report lists only the SKUs received |

## Left out

- Floating point: prices and averages are exact reals. The model does not capture the rounding drift of the `double` incremental mean, which is why the tests compare with a tolerance.
- Streams and text: the `cerr` diagnostics of `Inventory::sell` are the returned `SellOutcome`, and the `cout` lines of `Inventory::report` are the returned map from SKU to `Summary`. The exact wording of the messages is not modelled.
- Iteration order: `unordered_map` iteration order is unspecified, so `Report` returns a map and picks SKUs in an arbitrary order.
- Machine-width integers: counts are unbounded `nat`. The model does not capture `size_t` overflow, or the `size_t`→`int` casts in `numAvailable`. The signed/unsigned comparisons in `ItemRecord::sell` and `Inventory::sell` are modelled as comparisons of integers; they agree with the C++ because stock is never negative (`Valid`).
- Exceptions: the `std::exception` thrown by `ItemRecord::sell` is the `Rejected` status; a refused sale changes nothing, as the throw does.
- Inventories.Inventory.Receive: for every other SKU the contract states unchanged counts and histories, not every field. The averages follow from the histories through `Valid` and `AveragesAreWeightedMeans`.
- Inventories.Inventory.Sell: for every other SKU the contract states unchanged counts and histories, not every field, for the same reason.
- Main.cpp: it is a fixed driver. Only its refused sale of an unknown SKU and the assumption that such a SKU is not reported are modelled, as `UnknownSkuNotReported`.
- Test helpers: the gtest capture of the standard streams is not modelled.
- SingleSellTest and MultiSellTest expect an empty record to count unguarded sales. That contradicts the guard, so the model follows the guard and does not model the behaviour these tests expect.
