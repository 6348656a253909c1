/** The CEO's dashboard (src/components/role-dashboards/ceo-dashboard.tsx): the question
    box handler, the financial totals, the three-month moving average of revenue, the
    chart an answer suggests, and the fixed action items. The stock-value treemap is
    the same reduce as the inventory dashboard's and is modelled once, there. */
module CeoDashboard {
  import opened Types
  import opened Grouping
  import ActionCenter
  import PlaceholderData

  // ---------------------------------------------------------------- totals

  function Revenue(r: FinancialRecord): real { r.revenue }
  function Expenses(r: FinancialRecord): real { r.expenses }
  function Profit(r: FinancialRecord): real { r.profit }

  /** `totalRevenue`, `totalExpenses` and `totalProfit` */
  function TotalRevenue(records: seq<FinancialRecord>): real { Sum(records, Revenue) }
  function TotalExpenses(records: seq<FinancialRecord>): real { Sum(records, Expenses) }
  function TotalProfit(records: seq<FinancialRecord>): real { Sum(records, Profit) }

  /** When every month's profit is its revenue less its expenses, so is the total profit. */
  lemma TotalProfitIsNet(records: seq<FinancialRecord>)
    requires forall i :: 0 <= i < |records| ==> records[i].profit == records[i].revenue - records[i].expenses
    ensures TotalProfit(records) == TotalRevenue(records) - TotalExpenses(records)
  {
    SumDifference(records, Revenue, Expenses, Profit);
  }

  // ---------------------------------------------------------------- moving average

  /** `{ ...item, movingAverage }` */
  datatype AveragedRecord = AveragedRecord(record: FinancialRecord, movingAverage: Option<real>)

  function Revenues(records: seq<FinancialRecord>): (r: seq<real>)
    ensures |r| == |records|
    ensures forall i :: 0 <= i < |records| ==> r[i] == records[i].revenue
  {
    seq(|records|, i requires 0 <= i < |records| => records[i].revenue)
  }

  /** `financialDataWithMovingAverage`: every record kept as it is, the first two with no
      average, and every later one with the mean revenue of the three months ending at it. */
  function FinancialDataWithMovingAverage(records: seq<FinancialRecord>): (r: seq<AveragedRecord>)
    ensures |r| == |records|
    ensures forall i :: 0 <= i < |records| ==> r[i].record == records[i]
    ensures forall i :: 0 <= i < |records| ==> (r[i].movingAverage == None <==> i < 2)
  {
    seq(|records|, i requires 0 <= i < |records| =>
      if i < 2 then AveragedRecord(records[i], None)
      else AveragedRecord(records[i], Some((records[i].revenue + records[i - 1].revenue + records[i - 2].revenue) / 3.0)))
  }

  /** Each average is the general moving average's window mean with a window of three. */
  lemma AverageIsWindowMean(records: seq<FinancialRecord>, i: int)
    requires 2 <= i < |records|
    ensures FinancialDataWithMovingAverage(records)[i].movingAverage
      == Some(PlaceholderData.WindowMean(Revenues(records), i, 3))
  {
    ThreeMonthSum(Revenues(records), i);
  }

  lemma ThreeMonthSum(rev: seq<real>, i: int)
    requires 2 <= i < |rev|
    ensures Sum(rev[i - 2..i + 1], PlaceholderData.Identity) == rev[i] + rev[i - 1] + rev[i - 2]
  {
    var w := rev[i - 2..i + 1];
    var id := PlaceholderData.Identity;
    assert w[..|w| - 1] == rev[i - 2..i];
    assert rev[i - 2..i][..1] == rev[i - 2..i - 1];
    assert rev[i - 2..i - 1][..0] == [];
    assert Sum(rev[i - 2..i - 1], id) == rev[i - 2];
    assert Sum(rev[i - 2..i], id) == rev[i - 2] + rev[i - 1];
  }

  // ---------------------------------------------------------------- the question box

  datatype SuggestedChart = NoChart | RevenueProfitTrend | TeamPerformance | StockValueByCategory

  datatype KeyDataPoint = KeyDataPoint(labelText: string, value: string)

  /** The answer the ask-a-question flow returns. */
  datatype AskOutput = AskOutput(answerText: string, keyDataPoints: Option<seq<KeyDataPoint>>, suggestedChart: Option<SuggestedChart>)

  /** The charts the answer panel can show. */
  datatype ChartView = RevenueProfitLineChart | TeamPerformanceBarChart | StockValueTreemap

  /** `renderSuggestedChart`: nothing without an answer, without a suggestion, or for the
      suggestion `None`; otherwise the suggested chart. */
  function RenderSuggestedChart(aiResponse: Option<AskOutput>): (r: Option<ChartView>)
    ensures r.None? <==> aiResponse.None? || aiResponse.value.suggestedChart in {None, Some(NoChart)}
    ensures r == Some(RevenueProfitLineChart) <==> aiResponse.Some? && aiResponse.value.suggestedChart == Some(RevenueProfitTrend)
    ensures r == Some(TeamPerformanceBarChart) <==> aiResponse.Some? && aiResponse.value.suggestedChart == Some(TeamPerformance)
    ensures r == Some(StockValueTreemap) <==> aiResponse.Some? && aiResponse.value.suggestedChart == Some(StockValueByCategory)
  {
    if aiResponse.None? || aiResponse.value.suggestedChart.None? || aiResponse.value.suggestedChart.value == NoChart then None
    else
      match aiResponse.value.suggestedChart.value
      case RevenueProfitTrend => Some(RevenueProfitLineChart)
      case TeamPerformance => Some(TeamPerformanceBarChart)
      case StockValueByCategory => Some(StockValueTreemap)
  }

  /** Different suggestions never select the same chart. */
  lemma SuggestedChartsDistinct(a: AskOutput, b: AskOutput)
    requires RenderSuggestedChart(Some(a)).Some?
    requires a.suggestedChart != b.suggestedChart
    ensures RenderSuggestedChart(Some(a)) != RenderSuggestedChart(Some(b))
  {
  }

  const AskFallback: string := "An unexpected error occurred."

  /** The question box's state. The ask-a-question flow is an oracle; `questionsAsked`
      records every question handed to it. */
  class CeoDashboard {
    var question: string
    var isAsking: bool
    var aiResponse: Option<AskOutput>
    var askError: Option<string>
    ghost var questionsAsked: seq<string>

    constructor()
      ensures question == "" && !isAsking && aiResponse == None && askError == None && questionsAsked == []
    {
      question := "";
      isAsking := false;
      aiResponse := None;
      askError := None;
      questionsAsked := [];
    }

    /** `handleAskQuestion`: an empty question does nothing at all; otherwise the previous
        answer and error are cleared, the flow is asked once, and its answer or error
        message is stored. The loading flag is off afterwards either way. */
    method HandleAskQuestion(ask: string -> Outcome<AskOutput>)
      modifies this
      ensures question == old(question)
      ensures old(question) == "" ==>
        isAsking == old(isAsking) && aiResponse == old(aiResponse) && askError == old(askError)
        && questionsAsked == old(questionsAsked)
      ensures old(question) != "" ==>
        && !isAsking
        && questionsAsked == old(questionsAsked) + [question]
        && (ask(question).Ok? ==> aiResponse == Some(ask(question).value) && askError == None)
        && (ask(question).Fail? ==> aiResponse == None && askError == Some(MessageOr(ask(question).message, AskFallback)))
    {
      if question == "" {
        return;
      }
      isAsking := true;
      askError := None;
      aiResponse := None;
      questionsAsked := questionsAsked + [question];
      var result := ask(question);
      match result {
        case Ok(answer) =>
          aiResponse := Some(answer);
        case Fail(message) =>
          askError := Some(MessageOr(message, AskFallback));
      }
      isAsking := false;
    }
  }

  // ---------------------------------------------------------------- action items

  const CeoActionItems: seq<ActionCenter.ActionItem> := [
    ActionCenter.ActionItem("risk-1", "High Risk", "Supply Chain Disruption",
      "Mitigation plan for key component supplier is behind schedule. Immediate review required.",
      ActionCenter.ActionRequired, ActionCenter.High),
    ActionCenter.ActionItem("goal-1", "Strategic Goal", "Increase Customer Retention by 15%",
      "Progress is at 40%, currently behind Q3 target. Marketing and Sales alignment needed.",
      ActionCenter.NeedsAttention, ActionCenter.Medium),
    ActionCenter.ActionItem("sentiment-1", "Market Sentiment", "Negative chatter on social media rising",
      "Recent product update has sparked negative feedback regarding new UI changes.",
      ActionCenter.Monitor, ActionCenter.Low)
  ]

  /** The CEO's three items are already in priority order, so the action card shows them
      as listed. */
  lemma CeoActionItemsShownInOrder()
    ensures ActionCenter.SortedItems(CeoActionItems) == CeoActionItems
  {
    var items := CeoActionItems;
    assert items[1..][1..][1..] == [];
    assert ActionCenter.SortedItems(items[2..]) == [items[2]];
    assert ActionCenter.SortedItems(items[1..]) == [items[1], items[2]];
  }
}
