/** The CMO's dashboard (src/components/role-dashboards/cmo-dashboard.tsx): campaign
    totals, customer acquisition cost, the lead-conversion insights, the action items
    and the campaigns shown on the ROAS chart. */
module CmoDashboard {
  import opened Types
  import opened Grouping
  import ActionCenter

  /** One campaign of `mockCampaignData`. */
  datatype Campaign = Campaign(id: string, name: string, roas: real, budget: real, spend: real, conversions: real, status: string)

  function Spend(c: Campaign): real { c.spend }
  function Conversions(c: Campaign): real { c.conversions }

  /** `totalSpend` and `totalConversions` */
  function TotalSpend(campaigns: seq<Campaign>): real { Sum(campaigns, Spend) }
  function TotalConversions(campaigns: seq<Campaign>): real { Sum(campaigns, Conversions) }

  /** `cac`: spend per conversion, or 0 without conversions. */
  function Cac(totalSpend: real, totalConversions: real): (r: real)
    ensures totalConversions > 0.0 ==> r * totalConversions == totalSpend
    ensures totalConversions <= 0.0 ==> r == 0.0
  {
    GuardedRatio(totalSpend, totalConversions)
  }

  /** `leadConversionData` */
  function LeadConversionData(insights: seq<ClassificationInsight>): seq<ClassificationInsight> {
    InsightsOfType(insights, LeadConversion)
  }

  /** The lead-conversion panel holds exactly the lead-conversion insights, in their
      original order. */
  lemma LeadConversionDataSpec(insights: seq<ClassificationInsight>, a: seq<ClassificationInsight>, b: seq<ClassificationInsight>)
    ensures forall x :: x in LeadConversionData(insights) <==> x in insights && x.insightType == LeadConversion
    ensures LeadConversionData(a + b) == LeadConversionData(a) + LeadConversionData(b)
  {
    forall x | x in insights && x.insightType == LeadConversion ensures x in LeadConversionData(insights) {
      var i :| 0 <= i < |insights| && insights[i] == x;
    }
    InsightsOfTypeAppend(a, b, LeadConversion);
  }

  predicate IsHighValueLead(insight: ClassificationInsight) {
    insight.predictedClass == Some("High-Value Lead")
  }

  /** `leadConversionData.filter(i => i.predictedClass === 'High-Value Lead')` */
  function HighValueLeads(leads: seq<ClassificationInsight>): (r: seq<ClassificationInsight>)
    ensures forall x :: x in r ==> x in leads && x.predictedClass == Some("High-Value Lead")
    ensures forall i :: 0 <= i < |leads| && leads[i].predictedClass == Some("High-Value Lead") ==> leads[i] in r
  {
    Filter(leads, IsHighValueLead)
  }

  /** The filter keeps lead order, so the two leads shown are the first two high-value
      leads: filtering a concatenation concatenates the filtered parts. */
  lemma HighValueLeadsAppend(a: seq<ClassificationInsight>, b: seq<ClassificationInsight>)
    ensures HighValueLeads(a + b) == HighValueLeads(a) + HighValueLeads(b)
  {
    FilterAppend(a, b, IsHighValueLead);
  }

  /** One lead item; `showPercent` renders a whole percentage, and an absent probability
      prints as `NaN`. */
  function LeadItem(insight: ClassificationInsight, showPercent: real -> string): ActionCenter.ActionItem {
    var percent := if insight.probability.Some? then showPercent(insight.probability.value * 100.0) else "NaN";
    ActionCenter.ActionItem(
      insight.itemId, "Lead Conversion", LeadTitle(insight),
      "This lead has a high probability (" + percent + "%) of converting. Recommend fast-tracking to sales team.",
      ActionCenter.ActionRequired, ActionCenter.High)
  }

  /** The title of a lead item: `High-Value Lead: ` and the lead's label. */
  function LeadTitle(insight: ClassificationInsight): string {
    "High-Value Lead: " + LeadLabel(insight)
  }

  /** `leads.map(lead => ...)` */
  function LeadItems(leads: seq<ClassificationInsight>, showPercent: real -> string): (r: seq<ActionCenter.ActionItem>)
    ensures |r| == |leads|
    ensures forall i :: 0 <= i < |leads| ==>
      && r[i].id == leads[i].itemId
      && r[i].title == LeadTitle(leads[i])
      && r[i].priority == ActionCenter.High
  {
    if leads == [] then [] else [LeadItem(leads[0], showPercent)] + LeadItems(leads[1..], showPercent)
  }

  const SentimentItem: ActionCenter.ActionItem := ActionCenter.ActionItem(
    "sentiment-1", "Brand Sentiment", "Negative Sentiment Detected",
    "Spike in negative sentiment related to \"shipping times\". Recommend coordinating with operations and customer support.",
    ActionCenter.NeedsAttention, ActionCenter.Medium)

  /** `cmoActionItems`: up to two high-value leads as High items, then the sentiment item. */
  function CmoActionItems(insights: seq<ClassificationInsight>, showPercent: real -> string): (r: seq<ActionCenter.ActionItem>)
    ensures var leads := HighValueLeads(LeadConversionData(insights));
      && |r| == (if |leads| < 2 then |leads| else 2) + 1
      && (forall i :: 0 <= i < |r| - 1 ==>
           && r[i].id == leads[i].itemId
           && r[i].title == LeadTitle(leads[i])
           && r[i].priority == ActionCenter.High)
      && r[|r| - 1] == SentimentItem
  {
    ItemsForLeads(HighValueLeads(LeadConversionData(insights)), showPercent)
  }

  /** The items for a list of high-value leads: the first two, then the sentiment item. */
  function ItemsForLeads(leads: seq<ClassificationInsight>, showPercent: real -> string): (r: seq<ActionCenter.ActionItem>)
    ensures |r| == (if |leads| < 2 then |leads| else 2) + 1
    ensures forall i :: 0 <= i < |r| - 1 ==>
      && r[i].id == leads[i].itemId
      && r[i].title == LeadTitle(leads[i])
      && r[i].priority == ActionCenter.High
    ensures r[|r| - 1] == SentimentItem
  {
    var shown := if |leads| < 2 then leads else leads[..2];
    var items := LeadItems(shown, showPercent);
    assert forall i :: 0 <= i < |items| ==> (items + [SentimentItem])[i] == items[i];
    items + [SentimentItem]
  }

  /** The list has one to three items, and every lead item stems from a lead-conversion
      insight predicted as a high-value lead. */
  lemma CmoActionItemsSpec(insights: seq<ClassificationInsight>, showPercent: real -> string, i: int)
    requires 0 <= i < |CmoActionItems(insights, showPercent)| - 1
    ensures 1 <= |CmoActionItems(insights, showPercent)| <= 3
    ensures exists x ::
      && x in insights && x.insightType == LeadConversion && x.predictedClass == Some("High-Value Lead")
      && x.itemId == CmoActionItems(insights, showPercent)[i].id
  {
    var leads := HighValueLeads(LeadConversionData(insights));
    assert leads[i] in leads;
  }

  predicate IsNotActive(c: Campaign) { c.status != "Active" }

  /** `mockCampaignData.filter(c => c.status !== 'Active')` */
  function RoasChartData(campaigns: seq<Campaign>): (r: seq<Campaign>)
    ensures forall c :: c in r ==> c in campaigns && c.status != "Active"
    ensures forall i :: 0 <= i < |campaigns| && campaigns[i].status != "Active" ==> campaigns[i] in r
  {
    Filter(campaigns, IsNotActive)
  }

  /** The chart's bars follow campaign order: filtering a concatenation concatenates the
      filtered parts. */
  lemma RoasChartDataAppend(a: seq<Campaign>, b: seq<Campaign>)
    ensures RoasChartData(a + b) == RoasChartData(a) + RoasChartData(b)
  {
    FilterAppend(a, b, IsNotActive);
  }
}
