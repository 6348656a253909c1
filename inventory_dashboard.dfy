/** The inventory head's dashboard (src/components/role-dashboards/inventory-dashboard.tsx):
    the monthly sales history of one product, the at-risk classification and its
    ordering, the stock value by category, the action items, and the forecast form's
    submit handler. */
module InventoryDashboard {
  import opened Types
  import opened Strings
  import opened Grouping
  import Sorting
  import ActionCenter
  import PlaceholderData
  import ProductDemandForecast

  // ---------------------------------------------------------------- monthly sales history

  /** `format(parseISO(invoiceDate), 'yyyy-MM')`, read as the first seven characters of
      the ISO timestamp. */
  function MonthKey(invoiceDate: string): string {
    if |invoiceDate| <= 7 then invoiceDate else invoiceDate[..7]
  }

  function SaleMonth(t: SalesTransaction): string { MonthKey(t.invoiceDate) }

  /** The rows the history keeps: the requested stock code, a positive quantity and no
      cancellation flag. */
  predicate CountsForProduct(t: SalesTransaction, productId: string) {
    t.stockCode == productId && t.quantity > 0 && !IsCancelled(t)
  }

  /** The kept rows, in transaction order. */
  function ProductSales(txs: seq<SalesTransaction>, productId: string): seq<SalesTransaction> {
    if txs == [] then []
    else
      var t := txs[|txs| - 1];
      ProductSales(txs[..|txs| - 1], productId) + (if CountsForProduct(t, productId) then [t] else [])
  }

  /** The history keeps exactly the rows of the product that count: each kept row is a
      row of `txs` that counts, and each row of `txs` that counts is kept. */
  lemma {:induction false} ProductSalesSpec(txs: seq<SalesTransaction>, productId: string)
    ensures forall i :: 0 <= i < |ProductSales(txs, productId)| ==>
      ProductSales(txs, productId)[i] in txs && CountsForProduct(ProductSales(txs, productId)[i], productId)
    ensures forall i :: 0 <= i < |txs| && CountsForProduct(txs[i], productId) ==> txs[i] in ProductSales(txs, productId)
  {
    if txs != [] {
      var pre := txs[..|txs| - 1];
      ProductSalesSpec(pre, productId);
      assert forall i :: 0 <= i < |pre| ==> pre[i] == txs[i];
    }
  }

  /** The history keeps transaction order: the kept rows of a concatenation are the kept
      rows of the first part followed by those of the second. */
  lemma {:induction false} ProductSalesAppend(a: seq<SalesTransaction>, b: seq<SalesTransaction>, productId: string)
    ensures ProductSales(a + b, productId) == ProductSales(a, productId) + ProductSales(b, productId)
  {
    if b == [] {
      assert a + b == a;
    } else {
      var pre := b[..|b| - 1];
      assert (a + b)[..|a + b| - 1] == a + pre;
      assert (a + b)[|a + b| - 1] == b[|b| - 1];
      ProductSalesAppend(a, pre, productId);
    }
  }

  function QuantitySold(p: ProductDemandForecast.SalesPoint): real { p.quantitySold }

  /** A month record sums `kept`: its keys are the months of the rows in `kept`, each
      holding the total quantity of that month's rows. */
  predicate RecordSums(monthlySales: map<string, real>, kept: seq<SalesTransaction>) {
    && monthlySales.Keys == KeySet(kept, SaleMonth)
    && forall m :: m in monthlySales ==> monthlySales[m] == KeyTotal(kept, SaleMonth, PlaceholderData.QuantityOf, m)
  }

  /** The forEach that fills the `monthlySales` record: its keys are the months of the
      kept rows, each holding the total quantity of that month's rows. */
  method MonthlySales(txs: seq<SalesTransaction>, productId: string) returns (monthlySales: map<string, real>)
    ensures monthlySales.Keys == KeySet(ProductSales(txs, productId), SaleMonth)
    ensures forall m :: m in monthlySales ==>
      monthlySales[m] == KeyTotal(ProductSales(txs, productId), SaleMonth, PlaceholderData.QuantityOf, m)
  {
    monthlySales := map[];
    for k := 0 to |txs|
      invariant RecordSums(monthlySales, ProductSales(txs[..k], productId))
    {
      var t := txs[k];
      MonthlyStep(monthlySales, txs, k, productId);
      if CountsForProduct(t, productId) {
        var m := SaleMonth(t);
        monthlySales := monthlySales[m := (if m in monthlySales then monthlySales[m] else 0.0) + t.quantity as real];
      }
    }
    assert txs[..|txs|] == txs;
  }

  /** One more transaction keeps the record summing the kept rows: a kept row adds its
      quantity under its month, any other row leaves both unchanged. */
  lemma MonthlyStep(monthlySales: map<string, real>, txs: seq<SalesTransaction>, k: int, productId: string)
    requires 0 <= k < |txs|
    requires RecordSums(monthlySales, ProductSales(txs[..k], productId))
    ensures CountsForProduct(txs[k], productId) ==>
      var m := SaleMonth(txs[k]);
      RecordSums(monthlySales[m := (if m in monthlySales then monthlySales[m] else 0.0) + txs[k].quantity as real],
                 ProductSales(txs[..k + 1], productId))
    ensures !CountsForProduct(txs[k], productId) ==> ProductSales(txs[..k + 1], productId) == ProductSales(txs[..k], productId)
  {
    ProductSalesStep(txs, k, productId);
    if CountsForProduct(txs[k], productId) {
      MonthlyRecordStep(monthlySales, ProductSales(txs[..k], productId), ProductSales(txs[..k + 1], productId), txs[k]);
    }
  }

  lemma ProductSalesStep(txs: seq<SalesTransaction>, k: int, productId: string)
    requires 0 <= k < |txs|
    ensures ProductSales(txs[..k + 1], productId)
      == ProductSales(txs[..k], productId) + (if CountsForProduct(txs[k], productId) then [txs[k]] else [])
  {
    assert txs[..k + 1][..k] == txs[..k];
  }

  /** Adding a kept row's quantity under its month turns a record that sums `before`
      into one that sums `before + [t]`. */
  lemma MonthlyRecordStep(monthlySales: map<string, real>, before: seq<SalesTransaction>,
                          after: seq<SalesTransaction>, t: SalesTransaction)
    requires RecordSums(monthlySales, before)
    requires after == before + [t]
    ensures var m := SaleMonth(t);
      RecordSums(monthlySales[m := (if m in monthlySales then monthlySales[m] else 0.0) + t.quantity as real], after)
  {
    var m := SaleMonth(t);
    assert after[..|after| - 1] == before;
    if m !in monthlySales {
      AbsentKeyTotal(before, SaleMonth, PlaceholderData.QuantityOf, m);
    }
  }

  /** `r` is the monthly history of `productId` in `txs`: months strictly ascending, every
      month of a kept row listed and no other, each with the total quantity of its rows. */
  predicate MonthlyHistory(r: seq<ProductDemandForecast.SalesPoint>, txs: seq<SalesTransaction>, productId: string) {
    && (forall i, j :: 0 <= i < j < |r| ==> Less(r[i].date, r[j].date))
    && (forall i :: 0 <= i < |r| ==> r[i].date in KeySet(ProductSales(txs, productId), SaleMonth))
    && (forall m :: m in KeySet(ProductSales(txs, productId), SaleMonth) ==>
          exists i :: 0 <= i < |r| && r[i].date == m)
    && (forall i :: 0 <= i < |r| ==>
          r[i].quantitySold == KeyTotal(ProductSales(txs, productId), SaleMonth, PlaceholderData.QuantityOf, r[i].date))
  }

  /** A monthly history is empty exactly when the product has no kept row, so the
      forecast flow answers without the prompt exactly for products with no sales. */
  lemma MonthlyHistoryEmpty(r: seq<ProductDemandForecast.SalesPoint>, txs: seq<SalesTransaction>, productId: string)
    requires MonthlyHistory(r, txs, productId)
    ensures |r| == 0 <==> ProductSales(txs, productId) == []
  {
    var sales := ProductSales(txs, productId);
    if sales != [] {
      assert SaleMonth(sales[0]) in KeySet(sales, SaleMonth);
    }
    if |r| > 0 {
      assert r[0].date in KeySet(sales, SaleMonth);
    }
  }

  /** `getHistoricalProductSalesData`: the kept rows summed per month into a record, then
      listed in ascending month order. Each month with a kept row appears exactly once,
      carries the total quantity of its rows, and no quantity is lost or added. */
  method HistoricalProductSalesData(txs: seq<SalesTransaction>, productId: string)
      returns (r: seq<ProductDemandForecast.SalesPoint>)
    ensures MonthlyHistory(r, txs, productId)
    ensures Sum(r, QuantitySold) == Sum(ProductSales(txs, productId), PlaceholderData.QuantityOf)
  {
    var monthlySales := MonthlySales(txs, productId);
    var sales := ProductSales(txs, productId);
    var dates := SortedElements(monthlySales.Keys);
    r := seq(|dates|, i requires 0 <= i < |dates| => ProductDemandForecast.SalesPoint(dates[i], monthlySales[dates[i]]));
    forall m | m in KeySet(sales, SaleMonth) ensures exists i :: 0 <= i < |r| && r[i].date == m {
      var i :| 0 <= i < |dates| && dates[i] == m;
      assert r[i].date == m;
    }
    SeriesTotal(r, sales);
  }

  /** A month series with distinct months covering every kept row's month, each holding
      its month's total, adds up to the total quantity of the kept rows. */
  lemma SeriesTotal(r: seq<ProductDemandForecast.SalesPoint>, sales: seq<SalesTransaction>)
    requires forall i, j :: 0 <= i < j < |r| ==> Less(r[i].date, r[j].date)
    requires forall m :: m in KeySet(sales, SaleMonth) ==> exists i :: 0 <= i < |r| && r[i].date == m
    requires forall i :: 0 <= i < |r| ==>
      r[i].quantitySold == KeyTotal(sales, SaleMonth, PlaceholderData.QuantityOf, r[i].date)
    ensures Sum(r, QuantitySold) == Sum(sales, PlaceholderData.QuantityOf)
  {
    var dates := seq(|r|, i requires 0 <= i < |r| => r[i].date);
    forall i, j | 0 <= i < j < |dates| ensures dates[i] != dates[j] {
      LessIrreflexive(dates[i]);
    }
    forall i | 0 <= i < |sales| ensures SaleMonth(sales[i]) in dates {
      assert SaleMonth(sales[i]) in KeySet(sales, SaleMonth);
      var j :| 0 <= j < |r| && r[j].date == SaleMonth(sales[i]);
      assert dates[j] == r[j].date;
    }
    SumMatchesKeyTotals(r, QuantitySold, dates, sales, SaleMonth, PlaceholderData.QuantityOf);
    PartitionTotal(dates, sales, SaleMonth, PlaceholderData.QuantityOf);
  }

  // ---------------------------------------------------------------- at-risk items

  const HighDemandProductIds: seq<string> := ["22727", "22728", "84879", "22423"]

  datatype AtRiskReason = CriticallyLowStock | HighForecastedDemand

  function ReasonText(r: AtRiskReason): string {
    match r
    case CriticallyLowStock => "Critically Low Stock"
    case HighForecastedDemand => "High Forecasted Demand"
  }

  /** `{ ...item, atRiskReason }` for an item with a reason. */
  datatype AtRiskItem = AtRiskItem(item: InventoryItem, reason: AtRiskReason)

  /** The reason an item is at risk; `None` stands for the empty reason that the filter drops. */
  function AtRiskReasonOf(item: InventoryItem): (r: Option<AtRiskReason>)
    ensures r == Some(CriticallyLowStock) <==> item.stock < 50
    ensures r == Some(HighForecastedDemand) <==> 50 <= item.stock < 100 && item.id in HighDemandProductIds
    ensures r == None <==> item.stock >= 100 || (item.stock >= 50 && item.id !in HighDemandProductIds)
  {
    if item.stock < 50 then Some(CriticallyLowStock)
    else if item.stock < 100 && item.id in HighDemandProductIds then Some(HighForecastedDemand)
    else None
  }

  /** The map/filter step: every item with a reason, tagged with it, in inventory order. */
  function Flagged(items: seq<InventoryItem>): (r: seq<AtRiskItem>)
    ensures forall x :: x in r ==> x.item in items && AtRiskReasonOf(x.item) == Some(x.reason)
    ensures forall i :: 0 <= i < |items| && AtRiskReasonOf(items[i]).Some? ==>
      AtRiskItem(items[i], AtRiskReasonOf(items[i]).value) in r
  {
    if items == [] then []
    else
      assert forall i :: 0 < i < |items| ==> items[i] == items[1..][i - 1];
      var reason := AtRiskReasonOf(items[0]);
      (if reason.Some? then [AtRiskItem(items[0], reason.value)] else []) + Flagged(items[1..])
  }

  /** The sort key: critical items first. */
  function ReasonRank(x: AtRiskItem): real {
    if x.reason == CriticallyLowStock then 0.0 else 1.0
  }

  /** The displayed at-risk list: the flagged items, critical ones first. */
  function AtRiskItems(items: seq<InventoryItem>): seq<AtRiskItem> {
    Sorting.SortBy(Flagged(items), ReasonRank)
  }

  /** The at-risk list holds exactly the items with a reason, each tagged with its own
      reason, and every critically low item precedes every high-demand one. */
  lemma AtRiskItemsSpec(items: seq<InventoryItem>)
    ensures multiset(AtRiskItems(items)) == multiset(Flagged(items))
    ensures forall x :: x in AtRiskItems(items) ==> x.item in items && AtRiskReasonOf(x.item) == Some(x.reason)
    ensures forall i :: 0 <= i < |items| && AtRiskReasonOf(items[i]).Some? ==>
      AtRiskItem(items[i], AtRiskReasonOf(items[i]).value) in AtRiskItems(items)
    ensures forall i, j :: 0 <= i < j < |AtRiskItems(items)| && AtRiskItems(items)[j].reason == CriticallyLowStock ==>
      AtRiskItems(items)[i].reason == CriticallyLowStock
  {
    var f := Flagged(items);
    var r := AtRiskItems(items);
    Sorting.SortSpec(f, ReasonRank, 0.0);
    forall x | x in r ensures x in f {
      assert x in multiset(r);
    }
    forall x | x in f ensures x in r {
      assert x in multiset(f);
    }
    forall i, j | 0 <= i < j < |r| && r[j].reason == CriticallyLowStock ensures r[i].reason == CriticallyLowStock {
      assert ReasonRank(r[i]) <= ReasonRank(r[j]);
    }
  }

  // ---------------------------------------------------------------- action items

  function AlertItem(x: AtRiskItem): ActionCenter.ActionItem {
    ActionCenter.ActionItem(
      x.item.id, "Inventory Alert",
      ReasonText(x.reason) + ": " + x.item.name,
      "Current stock is only " + IntToText(x.item.stock) + " units. Recommend immediate reorder or review.",
      ActionCenter.ActionRequired, ActionCenter.High)
  }

  const BasketItem: ActionCenter.ActionItem := ActionCenter.ActionItem(
    "basket-1", "Market Basket Insight", "Cross-Sell Opportunity Detected",
    "High cross-sell potential between Mechanical Keyboards and Wireless Mice (85% confidence). Consider creating a product bundle.",
    ActionCenter.NeedsAttention, ActionCenter.Low)

  /** `inventoryActionItems`: alerts for the first two at-risk items, each titled with its
      reason and name and describing its stock, then the basket insight. */
  function InventoryActionItems(items: seq<InventoryItem>): (r: seq<ActionCenter.ActionItem>)
    ensures 1 <= |r| <= 3
    ensures |r| - 1 == (if |AtRiskItems(items)| < 2 then |AtRiskItems(items)| else 2)
    ensures forall i :: 0 <= i < |r| - 1 ==>
      && r[i].priority == ActionCenter.High
      && r[i].status == ActionCenter.ActionRequired
      && r[i].id == AtRiskItems(items)[i].item.id
    ensures forall i :: 0 <= i < |r| - 1 ==> r[i] == AlertItem(AtRiskItems(items)[i])
    ensures r[|r| - 1] == BasketItem
  {
    var atRisk := AtRiskItems(items);
    var shown := if |atRisk| < 2 then atRisk else atRisk[..2];
    seq(|shown|, i requires 0 <= i < |shown| => AlertItem(shown[i])) + [BasketItem]
  }

  /** When some item is critically low, the first action item is a critical-stock alert. */
  lemma CriticalAlertFirst(items: seq<InventoryItem>, k: int)
    requires 0 <= k < |items| && items[k].stock < 50
    ensures |AtRiskItems(items)| > 0 && AtRiskItems(items)[0].reason == CriticallyLowStock
    ensures InventoryActionItems(items)[0] == AlertItem(AtRiskItems(items)[0])
  {
    AtRiskItemsSpec(items);
    var r := AtRiskItems(items);
    var x := AtRiskItem(items[k], CriticallyLowStock);
    assert x in r;
    var j :| 0 <= j < |r| && r[j] == x;
    if j > 0 {
      assert r[0].reason == CriticallyLowStock;
    }
  }

  // ---------------------------------------------------------------- stock value

  function StockValue(item: InventoryItem): real { item.stock as real * item.price }

  /** `totalStockValue` */
  function TotalStockValue(items: seq<InventoryItem>): real {
    Sum(items, StockValue)
  }

  /** `item.category || 'Uncategorized'` */
  function CategoryName(item: InventoryItem): (r: string)
    ensures r != ""
    ensures item.category != "" ==> r == item.category
  {
    if item.category == "" then "Uncategorized" else item.category
  }

  datatype TreemapEntry = TreemapEntry(name: string, value: real)

  function EntryValue(e: TreemapEntry): real { e.value }

  /** The treemap reduce: one entry per category, in first-seen order, each holding the
      stock value of its category; together the entries hold the whole stock value. */
  method TreemapData(items: seq<InventoryItem>) returns (acc: seq<TreemapEntry>)
    ensures |acc| == |FirstSeenKeys(items, CategoryName)|
    ensures forall i :: 0 <= i < |acc| ==>
      && acc[i].name == FirstSeenKeys(items, CategoryName)[i]
      && acc[i].value == KeyTotal(items, CategoryName, StockValue, acc[i].name)
    ensures Sum(acc, EntryValue) == TotalStockValue(items)
  {
    acc := [];
    for k := 0 to |items|
      invariant |acc| == |FirstSeenKeys(items[..k], CategoryName)|
      invariant forall i :: 0 <= i < |acc| ==>
        && acc[i].name == FirstSeenKeys(items[..k], CategoryName)[i]
        && acc[i].value == KeyTotal(items[..k], CategoryName, StockValue, acc[i].name)
    {
      var item := items[k];
      var category := CategoryName(item);
      var itemValue := StockValue(item);
      ghost var keys := FirstSeenKeys(items[..k], CategoryName);
      assert items[..k + 1][..k] == items[..k] && items[..k + 1][k] == item;
      var j := FindEntry(acc, category);
      if j < |acc| {
        assert category in keys;
        acc := acc[j := TreemapEntry(category, acc[j].value + itemValue)];
        forall i | 0 <= i < |acc| && i != j ensures acc[i].name != category {
          assert keys[i] != keys[j];
        }
      } else {
        assert category !in keys by {
          forall i | 0 <= i < |keys| ensures keys[i] != category { assert acc[i].name == keys[i]; }
        }
        AbsentCategory(items[..k], category);
        acc := acc + [TreemapEntry(category, itemValue)];
      }
    }
    assert items[..|items|] == items;
    SumMatchesKeyTotals(acc, EntryValue, FirstSeenKeys(items, CategoryName), items, CategoryName, StockValue);
    GroupTotal(items, CategoryName, StockValue);
  }

  /** `acc.find(c => c.name === category)`: the index of the first entry with that name,
      or `|acc|` when there is none. */
  method FindEntry(acc: seq<TreemapEntry>, name: string) returns (j: int)
    ensures 0 <= j <= |acc|
    ensures j < |acc| ==> acc[j].name == name
    ensures forall i :: 0 <= i < j ==> acc[i].name != name
  {
    j := 0;
    while j < |acc| && acc[j].name != name
      invariant 0 <= j <= |acc|
      invariant forall i :: 0 <= i < j ==> acc[i].name != name
    {
      j := j + 1;
    }
  }

  lemma AbsentCategory(items: seq<InventoryItem>, category: string)
    requires category !in FirstSeenKeys(items, CategoryName)
    ensures KeyTotal(items, CategoryName, StockValue, category) == 0.0
  {
    AbsentKeyTotal(items, CategoryName, StockValue, category);
  }

  // ---------------------------------------------------------------- the forecast form

  /** The validated form values handed to `onForecastSubmit`. */
  datatype ForecastFormData = ForecastFormData(productId: string, forecastHorizon: string, marketTrends: Option<string>)

  function ItemId(item: InventoryItem): string { item.id }

  /** `mockInventory.find(p => p.id === productId)`: the first item with the id. */
  function FindById(items: seq<InventoryItem>, id: string): Option<InventoryItem> {
    FindFirst(items, ItemId, id)
  }

  const ProductNotFound: string := "Selected product not found in mock inventory."

  const ForecastFallback: string := "An unexpected error occurred during product demand forecasting."

  /** The forecasting part of the dashboard's state. The prompt behind the forecast flow
      is an oracle; `promptCalls` records every input the flow handed to it. */
  class InventoryDashboard {
    const inventory: seq<InventoryItem>
    const transactions: seq<SalesTransaction>
    var forecastResult: Option<ProductDemandForecast.ForecastOutput>
    var isForecasting: bool
    var forecastError: Option<string>
    ghost var flowInputs: seq<ProductDemandForecast.ForecastInput>
    ghost var promptCalls: seq<ProductDemandForecast.ForecastInput>

    constructor(inventory: seq<InventoryItem>, transactions: seq<SalesTransaction>)
      ensures this.inventory == inventory && this.transactions == transactions
      ensures forecastResult == None && !isForecasting && forecastError == None
      ensures flowInputs == [] && promptCalls == []
    {
      this.inventory := inventory;
      this.transactions := transactions;
      forecastResult := None;
      isForecasting := false;
      forecastError := None;
      flowInputs := [];
      promptCalls := [];
    }

    /** `onForecastSubmit`: clears the previous result and error, looks the product up,
        and fails without calling the flow when it is missing; otherwise builds the flow
        input from the product and its monthly history, calls the flow once, and stores
        its result or its error message. The loading flag is off afterwards either way. */
    method OnForecastSubmit(data: ForecastFormData, prompt: ProductDemandForecast.ForecastInput -> Outcome<ProductDemandForecast.ForecastOutput>)
      modifies this
      ensures !isForecasting
      ensures FindById(inventory, data.productId).None? ==>
        && forecastError == Some(ProductNotFound) && forecastResult == None
        && flowInputs == old(flowInputs) && promptCalls == old(promptCalls)
      ensures FindById(inventory, data.productId).Some? ==>
        && |flowInputs| == |old(flowInputs)| + 1
        && flowInputs[..|old(flowInputs)|] == old(flowInputs)
        && var input := flowInputs[|flowInputs| - 1];
        && var run := ProductDemandForecast.ForecastProductDemand(input, prompt);
        && input.productId == data.productId
        && input.productName == FindById(inventory, data.productId).value.name
        && input.forecastHorizon == data.forecastHorizon
        && input.marketTrends == data.marketTrends
        && MonthlyHistory(input.historicalProductSales, transactions, data.productId)
        && promptCalls == old(promptCalls) + run.promptCalls
        && (run.promptCalls == [input] <==> ProductSales(transactions, data.productId) != [])
        && (run.result.Ok? ==> forecastResult == Some(run.result.value) && forecastError == None)
        && (run.result.Fail? ==> forecastResult == None && forecastError == Some(MessageOr(run.result.message, ForecastFallback)))
    {
      isForecasting := true;
      forecastError := None;
      forecastResult := None;
      var selected := FindById(inventory, data.productId);
      if selected.None? {
        forecastError := Some(MessageOr(ProductNotFound, ForecastFallback));
      } else {
        var history := HistoricalProductSalesData(transactions, data.productId);
        var input := ProductDemandForecast.ForecastInput(data.productId, selected.value.name, history, data.marketTrends, data.forecastHorizon);
        var run := ProductDemandForecast.ForecastProductDemand(input, prompt);
        MonthlyHistoryEmpty(history, transactions, data.productId);
        flowInputs := flowInputs + [input];
        promptCalls := promptCalls + run.promptCalls;
        match run.result {
          case Ok(result) =>
            forecastResult := Some(result);
          case Fail(message) =>
            forecastError := Some(MessageOr(message, ForecastFallback));
        }
      }
      isForecasting := false;
    }
  }
}
