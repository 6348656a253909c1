/** The sales manager's dashboard (src/components/role-dashboards/sales-manager-dashboard.tsx):
    team totals, conversion rate, average deal size, active leads, the trend against
    the sales target, the opportunity items drawn from purchase-likelihood insights, and
    the team chart's ordering. */
module SalesManagerDashboard {
  import opened Types
  import opened Grouping
  import Sorting
  import ActionCenter

  /** One rep of `mockTeamPerformance`. */
  datatype TeamMember = TeamMember(name: string, sales: real, quota: real, deals: real)

  function Sales(m: TeamMember): real { m.sales }
  function Deals(m: TeamMember): real { m.deals }

  /** `totalSales` and `totalDeals` */
  function TotalSales(team: seq<TeamMember>): real { Sum(team, Sales) }
  function TotalDeals(team: seq<TeamMember>): real { Sum(team, Deals) }

  const SalesTarget: real := 250000.0
  const LeadsCount: real := 375.0

  /** `conversionRate`: deals per lead, in percent, or 0 without leads. */
  function ConversionRate(totalDeals: real, leadsCount: real): (r: real)
    ensures leadsCount > 0.0 ==> r * leadsCount == totalDeals * 100.0
    ensures leadsCount <= 0.0 ==> r == 0.0
  {
    GuardedRatio(totalDeals, leadsCount) * 100.0
  }

  /** While no more deals are closed than there are leads, the rate is a percentage. */
  lemma ConversionRateIsPercentage(totalDeals: real, leadsCount: real)
    requires 0.0 <= totalDeals <= leadsCount
    ensures 0.0 <= ConversionRate(totalDeals, leadsCount) <= 100.0
  {
    if leadsCount > 0.0 {
      var q := GuardedRatio(totalDeals, leadsCount);
      assert q * leadsCount == totalDeals;
      if q < 0.0 { ProductOrder(q, 0.0, leadsCount); }
      if q > 1.0 { ProductOrder(1.0, q, leadsCount); }
    }
  }

  lemma ProductOrder(a: real, b: real, c: real)
    requires a < b && c > 0.0
    ensures a * c < b * c
  {
  }

  /** `avgDealSize`: sales per deal, or 0 without deals. */
  function AvgDealSize(totalSales: real, totalDeals: real): (r: real)
    ensures totalDeals > 0.0 ==> r * totalDeals == totalSales
    ensures totalDeals <= 0.0 ==> r == 0.0
  {
    GuardedRatio(totalSales, totalDeals)
  }

  /** `leadsCount - totalDeals` */
  function ActiveLeads(leadsCount: real, totalDeals: real): (r: real)
    ensures r + totalDeals == leadsCount
  {
    leadsCount - totalDeals
  }

  /** The KPI trend: a sign prefix, the distance to target in percent, and a colour. */
  datatype Trend = Trend(prefix: string, percent: real, color: string)

  /** The trend of total sales against `salesTarget`. */
  function SalesTrend(totalSales: real): (r: Trend)
    ensures r.prefix == "+" <==> totalSales >= SalesTarget
    ensures r.color == "text-green-600" <==> totalSales >= SalesTarget
    ensures r.prefix == "" <==> r.color == "text-red-600"
  {
    var percent := (totalSales / SalesTarget - 1.0) * 100.0;
    if totalSales >= SalesTarget then Trend("+", percent, "text-green-600") else Trend("", percent, "text-red-600")
  }

  /** The '+' appears exactly when the printed distance to target is not negative, so a
      figure below target carries only its own minus sign. */
  lemma TrendSignMatchesPercent(totalSales: real)
    ensures SalesTrend(totalSales).prefix == "+" <==> SalesTrend(totalSales).percent >= 0.0
  {
    var q := totalSales / SalesTarget;
    assert q * SalesTarget == totalSales;
    if q < 1.0 { ProductOrder(q, 1.0, SalesTarget); }
    if q > 1.0 { ProductOrder(1.0, q, SalesTarget); }
  }

  // ---------------------------------------------------------------- opportunity feed

  /** One opportunity item; `showPercent` renders a whole percentage. An absent
      probability prints as `NaN` and an absent product name as `undefined`. */
  function OpportunityItem(insight: ClassificationInsight, showPercent: real -> string): ActionCenter.ActionItem {
    var percent := if insight.probability.Some? then showPercent(insight.probability.value * 100.0) else "NaN";
    var product := if insight.productName.Some? then insight.productName.value else "undefined";
    ActionCenter.ActionItem(
      insight.itemId, "Sales Opportunity", "Lead: " + LeadLabel(insight),
      "High likelihood (" + percent + "%) to purchase '" + product + "'. Recommend immediate follow-up.",
      ActionCenter.ActionRequired, ActionCenter.High)
  }

  /** `salesActionItems`: the first three purchase-likelihood insights, each as a High
      item keyed by the insight's item id. */
  function SalesActionItems(insights: seq<ClassificationInsight>, showPercent: real -> string): (r: seq<ActionCenter.ActionItem>)
    ensures var leads := InsightsOfType(insights, PurchaseLikelihood);
      && |r| == (if |leads| < 3 then |leads| else 3)
      && forall i :: 0 <= i < |r| ==>
        && r[i].id == leads[i].itemId
        && r[i].title == "Lead: " + LeadLabel(leads[i])
        && r[i].priority == ActionCenter.High
        && r[i].status == ActionCenter.ActionRequired
  {
    var leads := InsightsOfType(insights, PurchaseLikelihood);
    var shown := if |leads| < 3 then leads else leads[..3];
    seq(|shown|, i requires 0 <= i < |shown| => OpportunityItem(shown[i], showPercent))
  }

  /** Every opportunity comes from a purchase-likelihood insight of the input. */
  lemma SalesActionItemsSource(insights: seq<ClassificationInsight>, showPercent: real -> string, i: int)
    requires 0 <= i < |SalesActionItems(insights, showPercent)|
    ensures exists x :: x in insights && x.insightType == PurchaseLikelihood && x.itemId == SalesActionItems(insights, showPercent)[i].id
  {
    var leads := InsightsOfType(insights, PurchaseLikelihood);
    assert leads[i] in leads;
  }

  // ---------------------------------------------------------------- team chart

  /** `b.sales - a.sales`: descending by sales. */
  function NegatedSales(m: TeamMember): real { -m.sales }

  /** `mockTeamPerformance.slice(0, 5).sort(...)`: the sort works on the slice, a copy. */
  function TeamChartData(team: seq<TeamMember>): seq<TeamMember> {
    Sorting.SortBy(if |team| < 5 then team else team[..5], NegatedSales)
  }

  /** The chart shows exactly the first five reps (or all, when fewer), highest sales
      first, reps with equal sales in their original order. */
  lemma TeamChartSpec(team: seq<TeamMember>, k: real)
    ensures var first := if |team| < 5 then team else team[..5];
      && |TeamChartData(team)| == |first|
      && multiset(TeamChartData(team)) == multiset(first)
      && (forall i, j :: 0 <= i < j < |TeamChartData(team)| ==> TeamChartData(team)[i].sales >= TeamChartData(team)[j].sales)
      && Sorting.KeyFilter(TeamChartData(team), NegatedSales, k) == Sorting.KeyFilter(first, NegatedSales, k)
  {
    var first := if |team| < 5 then team else team[..5];
    Sorting.SortSpec(first, NegatedSales, k);
    var r := TeamChartData(team);
    forall i, j | 0 <= i < j < |r| ensures r[i].sales >= r[j].sales {
      assert NegatedSales(r[i]) <= NegatedSales(r[j]);
    }
  }
}
