/** The product demand forecast flow (src/ai/flows/product-demand-forecast.ts): its input
    and output records, the market-trends part of the prompt, and the flow body, which
    answers with a canned result when there is no sales history and otherwise hands the
    input to the prompt once. The prompt is an oracle parameter. */
module ProductDemandForecast {
  import opened Types
  import opened Strings

  /** One period of history: a YYYY-MM period and the quantity sold in it. */
  datatype SalesPoint = SalesPoint(date: string, quantitySold: real)

  datatype ForecastInput = ForecastInput(
    productId: string,
    productName: string,
    historicalProductSales: seq<SalesPoint>,
    marketTrends: Option<string>,
    forecastHorizon: string)

  datatype DemandPoint = DemandPoint(period: string, predictedQuantity: real)

  datatype ForecastOutput = ForecastOutput(
    productId: string,
    productName: string,
    forecastedDemand: seq<DemandPoint>,
    commentary: string,
    confidenceLevel: Option<string>)

  function NoHistoryCommentary(productName: string, productId: string): string {
    "Cannot generate forecast for " + productName + " (ID: " + productId
    + ") as no historical sales data was provided. At least one sales data point is required."
  }

  /** The canned answer for an empty history. */
  function NoHistoryResult(input: ForecastInput): ForecastOutput {
    ForecastOutput(input.productId, input.productName, [], NoHistoryCommentary(input.productName, input.productId), Some("N/A"))
  }

  /** The canned answer echoes the product id and name, forecasts nothing, has confidence
      "N/A", and its commentary names both the product and its id. */
  lemma NoHistoryResultSpec(input: ForecastInput)
    ensures NoHistoryResult(input).productId == input.productId
    ensures NoHistoryResult(input).productName == input.productName
    ensures NoHistoryResult(input).forecastedDemand == []
    ensures NoHistoryResult(input).confidenceLevel == Some("N/A")
    ensures Contains(NoHistoryResult(input).commentary, input.productName)
    ensures Contains(NoHistoryResult(input).commentary, input.productId)
  {
    var name := input.productName;
    var id := input.productId;
    var tail := ") as no historical sales data was provided. At least one sales data point is required.";
    assert NoHistoryCommentary(name, id) == "Cannot generate forecast for " + name + (" (ID: " + id + tail);
    ContainsPart("Cannot generate forecast for ", name, " (ID: " + id + tail);
    assert NoHistoryCommentary(name, id) == "Cannot generate forecast for " + name + " (ID: " + id + tail;
    ContainsPart("Cannot generate forecast for " + name + " (ID: ", id, tail);
  }

  /** The flow body. */
  function ForecastProductDemand(input: ForecastInput, prompt: ForecastInput -> Outcome<ForecastOutput>): (run: FlowRun<ForecastInput, ForecastOutput>)
    ensures |input.historicalProductSales| == 0 ==> run.promptCalls == [] && run.result == Ok(NoHistoryResult(input))
    ensures |input.historicalProductSales| > 0 ==> run.promptCalls == [input] && run.result == prompt(input)
  {
    if |input.historicalProductSales| == 0 then FlowRun(Ok(NoHistoryResult(input)), [])
    else FlowRun(prompt(input), [input])
  }

  /** Written as two literals so that its first character is visible to the verifier,
      which does not index into a literal this long; `MarketTrendsBlock` needs it. */
  function NoTrendsSentence(): string {
    "No " + "specific market trends provided for this product beyond its historical sales."
  }

  /** The `{{#if marketTrends}}` block: an absent or empty string is falsy. */
  function MarketTrendsBlock(marketTrends: Option<string>): (r: string)
    ensures marketTrends.Some? && marketTrends.value != "" ==> Contains(r, marketTrends.value) && r != NoTrendsSentence()
    ensures marketTrends.None? || marketTrends.value == "" ==> r == NoTrendsSentence()
  {
    if marketTrends.Some? && marketTrends.value != "" then
      var header := "Market Trends/Specific Factors:\n";
      ContainsPart(header, marketTrends.value, "");
      assert header + marketTrends.value + "" == header + marketTrends.value;
      assert header[0] == 'M';
      assert (header + marketTrends.value)[0] == 'M';
      header + marketTrends.value
    else NoTrendsSentence()
  }
}
