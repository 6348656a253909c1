/** Shared record shapes of the dashboard application (src/types/index.ts), the
    optional/failure wrappers used throughout the model, and the shape of one run
    of an AI flow whose prompt call is an abstract oracle. */
module Types {

  datatype Option<+T> = None | Some(value: T) {
    function GetOr(default: T): T {
      match this
      case Some(v) => v
      case None => default
    }
  }

  /** The outcome of an operation that can throw: the thrown Error's message on failure. */
  datatype Outcome<+T> = Ok(value: T) | Fail(message: string)

  /** One execution of an AI flow: what it returned, and every input it handed to the
      prompt (the model call), in order. */
  datatype FlowRun<I, O> = FlowRun(result: Outcome<O>, promptCalls: seq<I>)

  /** `e.message || fallback`: an empty message is falsy and yields the fallback. */
  function MessageOr(message: string, fallback: string): (r: string)
    ensures message != "" ==> r == message
    ensures message == "" ==> r == fallback
  {
    if message != "" then message else fallback
  }

  /** `d > 0 ? n / d : 0`: a ratio guarded against a zero (or negative) denominator. */
  function GuardedRatio(n: real, d: real): (r: real)
    ensures d > 0.0 ==> r * d == n
    ensures d <= 0.0 ==> r == 0.0
  {
    if d > 0.0 then n / d else 0.0
  }

  /** `i` is the index of the first element of `xs` whose key is `k`. */
  predicate FirstWithKey<T>(xs: seq<T>, key: T -> string, k: string, i: int) {
    && 0 <= i < |xs|
    && key(xs[i]) == k
    && forall j :: 0 <= j < i ==> key(xs[j]) != k
  }

  /** `xs.find(x => key(x) === k)`: the first element whose key is `k`, or none exactly
      when no element has that key. */
  function FindFirst<T>(xs: seq<T>, key: T -> string, k: string): (r: Option<T>)
    ensures r.Some? ==> exists i :: FirstWithKey(xs, key, k, i) && xs[i] == r.value
    ensures r.None? <==> forall i :: 0 <= i < |xs| ==> key(xs[i]) != k
  {
    if xs == [] then None
    else if key(xs[0]) == k then
      assert FirstWithKey(xs, key, k, 0);
      Some(xs[0])
    else
      var rest := FindFirst(xs[1..], key, k);
      assert forall i :: 0 < i < |xs| ==> xs[i] == xs[1..][i - 1];
      assert rest.Some? ==> exists i :: FirstWithKey(xs, key, k, i) && xs[i] == rest.value by {
        if rest.Some? {
          var i :| FirstWithKey(xs[1..], key, k, i) && xs[1..][i] == rest.value;
          assert FirstWithKey(xs, key, k, i + 1);
        }
      }
      rest
  }

  /** `s.filter(p)`: the elements of `s` that satisfy `p`, in their order in `s`. */
  function Filter<T>(s: seq<T>, p: T -> bool): (r: seq<T>)
    ensures forall x :: x in r ==> x in s && p(x)
    ensures forall i :: 0 <= i < |s| && p(s[i]) ==> s[i] in r
  {
    if s == [] then []
    else
      assert forall i :: 0 < i < |s| ==> s[i] == s[1..][i - 1];
      (if p(s[0]) then [s[0]] else []) + Filter(s[1..], p)
  }

  /** A filter keeps order and multiplicity: filtering a concatenation concatenates the
      filtered parts. */
  lemma {:induction false} FilterAppend<T>(a: seq<T>, b: seq<T>, p: T -> bool)
    ensures Filter(a + b, p) == Filter(a, p) + Filter(b, p)
  {
    if a == [] {
      assert a + b == b;
    } else {
      assert (a + b)[0] == a[0] && (a + b)[1..] == a[1..] + b;
      FilterAppend(a[1..], b, p);
    }
  }

  // ---------------------------------------------------------------- roles

  datatype UserRoleType = UserRole | AdministratorRole

  /** The string value of each `UserRoleType` member. */
  function RoleTypeValue(r: UserRoleType): string {
    match r
    case UserRole => "user"
    case AdministratorRole => "administrator"
  }

  function ParseRoleType(s: string): (r: Option<UserRoleType>)
    ensures r.Some? <==> s == "user" || s == "administrator"
  {
    if s == "user" then Some(UserRole)
    else if s == "administrator" then Some(AdministratorRole)
    else None
  }

  lemma RoleTypeRoundTrip(r: UserRoleType, s: string)
    ensures ParseRoleType(RoleTypeValue(r)) == Some(r)
    ensures ParseRoleType(s) == Some(r) ==> RoleTypeValue(r) == s
  {
  }

  datatype UserSpecificRole = CEO | CFO | InventoryHead | SalesManager | CMO

  const AllSpecificRoles: seq<UserSpecificRole> := [CEO, CFO, InventoryHead, SalesManager, CMO]

  /** The display string of each `UserSpecificRole` member. */
  function SpecificRoleValue(r: UserSpecificRole): string {
    match r
    case CEO => "CEO"
    case CFO => "CFO"
    case InventoryHead => "Inventory Head"
    case SalesManager => "Sales Manager"
    case CMO => "CMO"
  }

  function ParseSpecificRole(s: string): (r: Option<UserSpecificRole>)
    ensures r.Some? ==> SpecificRoleValue(r.value) == s
  {
    if s == "CEO" then Some(CEO)
    else if s == "CFO" then Some(CFO)
    else if s == "Inventory Head" then Some(InventoryHead)
    else if s == "Sales Manager" then Some(SalesManager)
    else if s == "CMO" then Some(CMO)
    else None
  }

  /** Exactly five specific roles, with five distinct display strings that parse back. */
  lemma SpecificRoleEnumeration(r: UserSpecificRole, q: UserSpecificRole, s: string)
    ensures r in AllSpecificRoles && |AllSpecificRoles| == 5
    ensures ParseSpecificRole(s).Some? <==> s in {"CEO", "CFO", "Inventory Head", "Sales Manager", "CMO"}
    ensures ParseSpecificRole(SpecificRoleValue(r)) == Some(r)
    ensures SpecificRoleValue(r) == SpecificRoleValue(q) ==> r == q
  {
  }

  // ---------------------------------------------------------------- records

  datatype User = User(
    uid: string,
    email: string,
    displayName: Option<string>,
    username: string,
    roleType: UserRoleType,
    specificRole: Option<UserSpecificRole>,
    createdAt: Option<string>,
    lastLoginAt: Option<string>)

  /** The documented invariant: a USER account carries a specific role. */
  predicate RoleConsistent(u: User) {
    u.roleType == UserRole ==> u.specificRole.Some?
  }

  datatype Appointment = Appointment(id: string, date: string, title: string, time: string, description: Option<string>)

  predicate IsDigit(c: char) { '0' <= c <= '9' }

  function DigitValue(c: char): int requires IsDigit(c) { c as int - '0' as int }

  /** YYYY-MM-DD */
  predicate IsIsoDate(s: string) {
    |s| == 10 && s[4] == '-' && s[7] == '-'
    && IsDigit(s[0]) && IsDigit(s[1]) && IsDigit(s[2]) && IsDigit(s[3])
    && IsDigit(s[5]) && IsDigit(s[6]) && IsDigit(s[8]) && IsDigit(s[9])
  }

  /** HH:MM on a 24-hour clock */
  predicate IsClockTime(s: string) {
    |s| == 5 && s[2] == ':'
    && IsDigit(s[0]) && IsDigit(s[1]) && IsDigit(s[3]) && IsDigit(s[4])
    && DigitValue(s[0]) * 10 + DigitValue(s[1]) < 24
    && DigitValue(s[3]) < 6
  }

  predicate WellFormedAppointment(a: Appointment) {
    IsIsoDate(a.date) && IsClockTime(a.time)
  }

  datatype FinancialRecord = FinancialRecord(month: string, revenue: real, expenses: real, profit: real)

  datatype InventoryItem = InventoryItem(id: string, name: string, category: string, stock: int, price: real, supplier: string)

  datatype Product = Product(stockCode: string, description: string, unitPrice: real, category: Option<string>)

  datatype Customer = Customer(customerID: string, country: string)

  datatype SalesTransaction = SalesTransaction(
    invoiceNo: string,
    stockCode: string,
    description: Option<string>,
    quantity: int,
    invoiceDate: string,
    unitPrice: real,
    customerID: Option<string>,
    country: Option<string>,
    isCancellation: Option<bool>,
    totalPrice: Option<real>)

  /** `tx.isCancellation` read as a condition: an absent flag is falsy. */
  predicate IsCancelled(t: SalesTransaction) {
    t.isCancellation == Some(true)
  }

  datatype ExpenseTransaction = ExpenseTransaction(id: string, date: string, amount: real, category: string, description: string, vendor: string)

  type Probability = r: real | 0.0 <= r <= 1.0

  datatype InsightType = CustomerSegmentation | PurchaseLikelihood | LeadConversion | OtherClassification

  datatype FeatureContribution = FeatureContribution(feature: string, contribution: real)

  datatype ClassificationInsight = ClassificationInsight(
    itemId: string,
    customerName: Option<string>,
    insightType: InsightType,
    predictedClass: Option<string>,
    probability: Option<Probability>,
    productName: Option<string>,
    featureContributions: Option<seq<FeatureContribution>>)

  /** `insights.filter(i => i.type === t)` */
  function InsightsOfType(insights: seq<ClassificationInsight>, t: InsightType): (r: seq<ClassificationInsight>)
    ensures forall x :: x in r ==> x in insights && x.insightType == t
    ensures forall i :: 0 <= i < |insights| && insights[i].insightType == t ==> insights[i] in r
  {
    Filter(insights, HasType(t))
  }

  function HasType(t: InsightType): ClassificationInsight -> bool {
    (i: ClassificationInsight) => i.insightType == t
  }

  /** The filter keeps the original order: filtering a concatenation concatenates the
      filtered parts. */
  lemma InsightsOfTypeAppend(a: seq<ClassificationInsight>, b: seq<ClassificationInsight>, t: InsightType)
    ensures InsightsOfType(a + b, t) == InsightsOfType(a, t) + InsightsOfType(b, t)
  {
    FilterAppend(a, b, HasType(t));
  }

  /** `insight.customerName || insight.itemId`: an absent or empty name falls back to the id. */
  function LeadLabel(insight: ClassificationInsight): (r: string)
    ensures insight.customerName.Some? && insight.customerName.value != "" ==> r == insight.customerName.value
    ensures insight.customerName.None? || insight.customerName.value == "" ==> r == insight.itemId
  {
    if insight.customerName.Some? && insight.customerName.value != "" then insight.customerName.value else insight.itemId
  }

  datatype AssociationRule = AssociationRule(antecedents: seq<string>, consequents: seq<string>, confidence: real, lift: real, support: real)

  datatype CountrySalesMetrics = CountrySalesMetrics(
    country: string,
    totalRevenue: real,
    totalQuantity: real,
    uniqueCustomers: nat,
    orderCount: nat,
    avgPrice: real)

  datatype MonopolyDataPoint = MonopolyDataPoint(
    quantity: real,
    demand: Option<real>,
    mr: Option<real>,
    mc: Option<real>,
    decisionPoint: Option<real>,
    monopolyPrice: Option<real>)

  datatype ForecastingMethodsDataPoint = ForecastingMethodsDataPoint(
    month: string,
    actual: Option<real>,
    ma: Option<real>,
    ewma: Option<real>,
    regression: Option<real>,
    forecastPoint: Option<real>)

  datatype MarketScenario = Rational | PriceWar | BrandLoyal

  function ScenarioValue(s: MarketScenario): string {
    match s
    case Rational => "rational"
    case PriceWar => "price_war"
    case BrandLoyal => "brand_loyal"
  }

  function ParseScenario(s: string): (r: Option<MarketScenario>)
    ensures r.Some? ==> ScenarioValue(r.value) == s
  {
    if s == "rational" then Some(Rational)
    else if s == "price_war" then Some(PriceWar)
    else if s == "brand_loyal" then Some(BrandLoyal)
    else None
  }

  datatype MarketType = Duopoly | Monopoly

  function ParseMarketType(s: string): (r: Option<MarketType>)
    ensures r.Some? <==> s == "duopoly" || s == "monopoly"
  {
    if s == "duopoly" then Some(Duopoly)
    else if s == "monopoly" then Some(Monopoly)
    else None
  }

  /** The scenario enum accepts exactly its three values, each of which parses back. */
  lemma ScenarioEnumeration(s: string, m: MarketScenario)
    ensures ParseScenario(s).Some? <==> s in {"rational", "price_war", "brand_loyal"}
    ensures ParseScenario(ScenarioValue(m)) == Some(m)
  {
  }

  datatype DuopolyDataPoint = DuopolyDataPoint(
    ourPrice: real,
    competitorPrice: real,
    ourDemand: real,
    competitorDemand: real,
    ourRevenue: real,
    competitorRevenue: real)

  datatype PricingStrategyInput = PricingStrategyInput(marketType: MarketType, ourPrice: real, competitorPrice: real, scenario: MarketScenario)

  datatype PricingStrategyOutput = PricingStrategyOutput(headline: string, detailedAnalysis: string, keyFactors: seq<string>)

  /** The input schema's check of the two enum-valued fields, given as raw strings. */
  function ParsePricingInput(marketType: string, ourPrice: real, competitorPrice: real, scenario: string): (r: Option<PricingStrategyInput>)
    ensures r.Some? <==> ParseMarketType(marketType).Some? && ParseScenario(scenario).Some?
    ensures r.Some? ==> r.value.ourPrice == ourPrice && r.value.competitorPrice == competitorPrice
                        && ScenarioValue(r.value.scenario) == scenario
  {
    match (ParseMarketType(marketType), ParseScenario(scenario))
    case (Some(mt), Some(sc)) => Some(PricingStrategyInput(mt, ourPrice, competitorPrice, sc))
    case _ => None
  }
}
