/** The CFO's dashboard (src/components/role-dashboards/cfo-dashboard.tsx): the anomaly
    scan handler, the action items raised from its High-severity findings, the severity
    badge, the net profit and the action card's empty-state message. */
module CfoDashboard {
  import opened Types
  import ActionCenter
  import CeoDashboard
  import DetectExpenseAnomalies

  type Anomaly = DetectExpenseAnomalies.Anomaly

  // ---------------------------------------------------------------- net profit

  /** `netProfit`: total revenue less total expenses over the monthly records. */
  function NetProfit(records: seq<FinancialRecord>): real {
    CeoDashboard.TotalRevenue(records) - CeoDashboard.TotalExpenses(records)
  }

  /** When each month's profit is its revenue less its expenses, the net profit is the
      sum of the monthly profits. */
  lemma NetProfitIsTotalProfit(records: seq<FinancialRecord>)
    requires forall i :: 0 <= i < |records| ==> records[i].profit == records[i].revenue - records[i].expenses
    ensures NetProfit(records) == CeoDashboard.TotalProfit(records)
  {
    CeoDashboard.TotalProfitIsNet(records);
  }

  // ---------------------------------------------------------------- severity badge

  /** `getSeverityBadge` */
  function GetSeverityBadge(severity: DetectExpenseAnomalies.Severity): (r: string)
    ensures severity == DetectExpenseAnomalies.High ==> r == "destructive"
    ensures severity == DetectExpenseAnomalies.Medium ==> r == "secondary"
    ensures severity == DetectExpenseAnomalies.Low ==> r == "outline"
  {
    match severity
    case High => "destructive"
    case Medium => "secondary"
    case Low => "outline"
  }

  /** Each severity has its own badge, and only High is shown as destructive. */
  lemma SeverityBadgesDistinct(a: DetectExpenseAnomalies.Severity, b: DetectExpenseAnomalies.Severity)
    ensures a != b ==> GetSeverityBadge(a) != GetSeverityBadge(b)
    ensures GetSeverityBadge(a) == ActionCenter.BadgeVariant(ActionCenter.High) <==> a == DetectExpenseAnomalies.High
  {
  }

  // ---------------------------------------------------------------- action items

  predicate IsHigh(a: Anomaly) { a.severity == DetectExpenseAnomalies.High }

  /** `anomalies.filter(a => a.severity === 'High')` */
  function HighAnomalies(anomalies: seq<Anomaly>): (r: seq<Anomaly>)
    ensures forall a :: a in r ==> a in anomalies && a.severity == DetectExpenseAnomalies.High
    ensures forall i :: 0 <= i < |anomalies| && anomalies[i].severity == DetectExpenseAnomalies.High ==> anomalies[i] in r
  {
    Filter(anomalies, IsHigh)
  }

  /** The filter keeps anomaly order: filtering a concatenation concatenates the filtered parts. */
  lemma HighAnomaliesAppend(a: seq<Anomaly>, b: seq<Anomaly>)
    ensures HighAnomalies(a + b) == HighAnomalies(a) + HighAnomalies(b)
  {
    FilterAppend(a, b, IsHigh);
  }

  function TransactionId(t: ExpenseTransaction): string { t.id }

  /** `mockExpenseTransactions.find(t => t.id === id)`: the first transaction with the id. */
  function FindTransaction(txs: seq<ExpenseTransaction>, id: string): Option<ExpenseTransaction> {
    FindFirst(txs, TransactionId, id)
  }

  /** The action item for one High anomaly; a transaction that cannot be found shows as
      `undefined` in the title. `showNumber` renders the amount. */
  function AnomalyItem(a: Anomaly, txs: seq<ExpenseTransaction>, showNumber: real -> string): ActionCenter.ActionItem {
    var t := FindTransaction(txs, a.transactionId);
    var vendor := if t.Some? then t.value.vendor else "undefined";
    var amount := if t.Some? then showNumber(t.value.amount) else "undefined";
    ActionCenter.ActionItem(
      a.transactionId, "Expense Anomaly",
      "High risk transaction: " + vendor + " ($" + amount + ")",
      "AI Reason: " + a.reason,
      ActionCenter.ActionRequired, ActionCenter.High)
  }

  /** `cfoActionItems`: nothing before a scan has completed; afterwards one item per High
      anomaly, in anomaly order, keyed by its transaction id and titled with the vendor
      and amount of the first transaction with that id (`undefined` when there is none). */
  function CfoActionItems(anomalies: Option<seq<Anomaly>>, txs: seq<ExpenseTransaction>, showNumber: real -> string): (r: seq<ActionCenter.ActionItem>)
    ensures anomalies.None? ==> r == []
    ensures anomalies.Some? ==> |r| == |HighAnomalies(anomalies.value)|
    ensures anomalies.Some? ==> forall i :: 0 <= i < |r| ==>
      && r[i].id == HighAnomalies(anomalies.value)[i].transactionId
      && (var t := FindTransaction(txs, HighAnomalies(anomalies.value)[i].transactionId);
          && (t.Some? ==> r[i].title == "High risk transaction: " + t.value.vendor + " ($" + showNumber(t.value.amount) + ")")
          && (t.None? ==> r[i].title == "High risk transaction: undefined ($undefined)"))
      && r[i].description == "AI Reason: " + HighAnomalies(anomalies.value)[i].reason
      && r[i].priority == ActionCenter.High
      && r[i].status == ActionCenter.ActionRequired
  {
    if anomalies.None? then []
    else
      var high := HighAnomalies(anomalies.value);
      seq(|high|, i requires 0 <= i < |high| => AnomalyItem(high[i], txs, showNumber))
  }

  /** `anomalies ? ... : ...` */
  function EmptyStateMessage(anomalies: Option<seq<Anomaly>>): (r: string)
    ensures anomalies.Some? ==> r == "No high-priority anomalies detected."
    ensures anomalies.None? ==> r == "Run anomaly scan to check for issues."
  {
    if anomalies.Some? then "No high-priority anomalies detected." else "Run anomaly scan to check for issues."
  }

  /** The action card is empty exactly when no scan has completed or the scan found no
      High anomaly, and its message tells those two cases apart. */
  lemma CfoCardEmptyState(anomalies: Option<seq<Anomaly>>, txs: seq<ExpenseTransaction>, showNumber: real -> string)
    ensures var v := ActionCenter.Render(CfoActionItems(anomalies, txs, showNumber), Some(EmptyStateMessage(anomalies)));
      && (v.EmptyState? <==> anomalies.None? || forall i :: 0 <= i < |anomalies.value| ==> anomalies.value[i].severity != DetectExpenseAnomalies.High)
      && (v.EmptyState? && anomalies.None? ==> v.message == "Run anomaly scan to check for issues.")
      && (v.EmptyState? && anomalies.Some? ==> v.message == "No high-priority anomalies detected.")
  {
    if anomalies.Some? {
      var high := HighAnomalies(anomalies.value);
      if high != [] {
        assert high[0] in high;
      }
    }
  }

  const ScanFallback: string := "An unexpected error occurred during the scan."

  /** The scan's state. The anomaly flow's prompt is an oracle; `promptCalls` records
      every input the flow handed to it. */
  class CfoDashboard {
    const expenses: seq<ExpenseTransaction>
    var anomalies: Option<seq<Anomaly>>
    var isScanning: bool
    var scanError: Option<string>
    ghost var promptCalls: seq<DetectExpenseAnomalies.AnomaliesInput>

    constructor(expenses: seq<ExpenseTransaction>)
      ensures this.expenses == expenses
      ensures anomalies == None && !isScanning && scanError == None && promptCalls == []
    {
      this.expenses := expenses;
      anomalies := None;
      isScanning := false;
      scanError := None;
      promptCalls := [];
    }

    /** `handleAnomalyScan`: clears the previous findings and error, runs the anomaly flow
        on the expense transactions, and stores its findings or its error message. The
        scanning flag is off afterwards either way. */
    method HandleAnomalyScan(prompt: DetectExpenseAnomalies.AnomaliesInput -> Outcome<DetectExpenseAnomalies.AnomaliesOutput>)
      modifies this
      ensures !isScanning
      ensures var run := DetectExpenseAnomalies.DetectExpenseAnomalies(DetectExpenseAnomalies.AnomaliesInput(expenses), prompt);
        && promptCalls == old(promptCalls) + run.promptCalls
        && (run.result.Ok? ==> anomalies == Some(run.result.value.anomalies) && scanError == None)
        && (run.result.Fail? ==> anomalies == None && scanError == Some(MessageOr(run.result.message, ScanFallback)))
    {
      isScanning := true;
      scanError := None;
      anomalies := None;
      var run := DetectExpenseAnomalies.DetectExpenseAnomalies(DetectExpenseAnomalies.AnomaliesInput(expenses), prompt);
      promptCalls := promptCalls + run.promptCalls;
      match run.result {
        case Ok(result) =>
          anomalies := Some(result.anomalies);
        case Fail(message) =>
          scanError := Some(MessageOr(message, ScanFallback));
      }
      isScanning := false;
    }
  }
}
