/** The derived tables of src/lib/placeholder-data.ts: the appointment list chosen by
    role, the moving-average and exponential-moving-average fills, the monopoly curve
    table, the per-country sales metrics (bar-chart rows and normalised radar rows) and
    the Bertrand duopoly demand table. The mock records themselves are parameters. */
module PlaceholderData {
  import opened Types
  import opened Grouping
  import Sorting

  // ---------------------------------------------------------------- appointments

  /** The five role-specific appointment lists. */
  datatype RoleAppointments = RoleAppointments(
    ceo: seq<Appointment>,
    cfo: seq<Appointment>,
    inventoryHead: seq<Appointment>,
    salesManager: seq<Appointment>,
    cmo: seq<Appointment>)

  /** The list shown to administrators and to users without a specific role.
      `dateAt(d)` is today's date moved by `d` days, as YYYY-MM-DD (it reads the clock). */
  function GeneralAppointments(dateAt: int -> string): (r: seq<Appointment>)
    ensures |r| == 3
    ensures r[0].id == "gen1" && r[1].id == "gen2" && r[2].id == "gen3"
  {
    [ Appointment("gen1", dateAt(1), "Company All-Hands Meeting", "16:00", Some("Monthly company update.")),
      Appointment("gen2", dateAt(10), "IT System Maintenance Window", "18:00", Some("Scheduled downtime for updates.")),
      Appointment("gen3", dateAt(0), "Office Fire Drill", "10:30", Some("Annual safety drill.")) ]
  }

  function GetAppointmentsForRole(role: Option<UserSpecificRole>, lists: RoleAppointments, dateAt: int -> string): (r: seq<Appointment>)
    ensures role == Some(CEO) ==> r == lists.ceo
    ensures role == Some(CFO) ==> r == lists.cfo
    ensures role == Some(InventoryHead) ==> r == lists.inventoryHead
    ensures role == Some(SalesManager) ==> r == lists.salesManager
    ensures role == Some(CMO) ==> r == lists.cmo
    ensures role == None ==> r == GeneralAppointments(dateAt)
  {
    match role
    case Some(CEO) => lists.ceo
    case Some(CFO) => lists.cfo
    case Some(InventoryHead) => lists.inventoryHead
    case Some(SalesManager) => lists.salesManager
    case Some(CMO) => lists.cmo
    case None => GeneralAppointments(dateAt)
  }

  /** The general entries meet the Appointment format whenever the date source does,
      and carry three different ids. */
  lemma GeneralAppointmentsWellFormed(dateAt: int -> string)
    requires forall d :: IsIsoDate(dateAt(d))
    ensures forall i :: 0 <= i < 3 ==> WellFormedAppointment(GeneralAppointments(dateAt)[i])
    ensures forall i, j :: 0 <= i < j < 3 ==> GeneralAppointments(dateAt)[i].id != GeneralAppointments(dateAt)[j].id
  {
    var g := GeneralAppointments(dateAt);
    assert IsIsoDate(dateAt(1)) && IsIsoDate(dateAt(10)) && IsIsoDate(dateAt(0));
    assert IsClockTime(g[0].time) && IsClockTime(g[1].time) && IsClockTime(g[2].time);
  }

  // ---------------------------------------------------------------- moving averages

  function Identity(x: real): real { x }

  /** The mean of the `size` values that end at index `i`. */
  function WindowMean(data: seq<real>, i: int, size: int): real
    requires 1 <= size <= i + 1 <= |data|
  {
    Sum(data[i - size + 1..i + 1], Identity) / size as real
  }

  /** Fills `null` everywhere, then writes the window mean at every index from `size - 1` on. */
  method MovingAverage(data: seq<real>, size: int) returns (result: seq<Option<real>>)
    requires size >= 1
    ensures |result| == |data|
    ensures forall i :: 0 <= i < |data| && i < size - 1 ==> result[i] == None
    ensures forall i :: size - 1 <= i < |data| ==> result[i] == Some(WindowMean(data, i, size))
  {
    result := seq(|data|, _ => None);
    var i := size - 1;
    while i < |data|
      invariant size - 1 <= i
      invariant |result| == |data|
      invariant forall j :: 0 <= j < |data| && (j < size - 1 || i <= j) ==> result[j] == None
      invariant forall j :: size - 1 <= j < i && j < |data| ==> result[j] == Some(WindowMean(data, j, size))
    {
      var sum := Sum(data[i - size + 1..i + 1], Identity);
      result := result[i := Some(sum / size as real)];
      i := i + 1;
    }
  }

  lemma {:induction false} SumBounds(s: seq<real>, lo: real, hi: real)
    requires forall j :: 0 <= j < |s| ==> lo <= s[j] <= hi
    ensures |s| as real * lo <= Sum(s, Identity) <= |s| as real * hi
  {
    if s != [] {
      var pre := s[..|s| - 1];
      assert forall j :: 0 <= j < |pre| ==> pre[j] == s[j];
      SumBounds(pre, lo, hi);
      var n := |pre| as real;
      assert |s| as real == n + 1.0;
      assert (n + 1.0) * lo == n * lo + lo && (n + 1.0) * hi == n * hi + hi;
    }
  }

  /** Every moving average lies within the range of the data it averages. */
  lemma MovingAverageBounded(data: seq<real>, i: int, size: int, lo: real, hi: real)
    requires 1 <= size <= i + 1 <= |data|
    requires forall j :: 0 <= j < |data| ==> lo <= data[j] <= hi
    ensures lo <= WindowMean(data, i, size) <= hi
  {
    var w := data[i - size + 1..i + 1];
    assert forall j :: 0 <= j < |w| ==> w[j] == data[i - size + 1 + j];
    SumBounds(w, lo, hi);
    assert |w| == size;
    var n := size as real;
    var total := Sum(w, Identity);
    assert n * lo <= total <= n * hi;
    assert total / n >= lo by { assert total >= n * lo; }
    assert total / n <= hi by { assert total <= n * hi; }
  }

  /** The smoothing recurrence: seeded with the first value, then
      out[i] = alpha * data[i] + (1 - alpha) * out[i - 1]. */
  predicate EmaRecurrence(data: seq<real>, alpha: real, out: seq<real>) {
    && |out| == |data|
    && (|data| > 0 ==> out[0] == data[0])
    && forall i :: 1 <= i < |data| ==> out[i] == alpha * data[i] + (1.0 - alpha) * out[i - 1]
  }

  method ExponentialMovingAverage(data: seq<real>, alpha: real) returns (result: seq<real>)
    ensures |data| == 0 ==> result == []
    ensures EmaRecurrence(data, alpha, result)
  {
    result := [];
    if |data| > 0 {
      result := [data[0]];
      for i := 1 to |data|
        invariant |result| == i
        invariant result[0] == data[0]
        invariant forall j :: 1 <= j < i ==> result[j] == alpha * data[j] + (1.0 - alpha) * result[j - 1]
      {
        result := result + [alpha * data[i] + (1.0 - alpha) * result[i - 1]];
      }
    }
  }

  /** With a smoothing factor in [0, 1], every smoothed value stays within the data's range. */
  lemma EmaBounded(data: seq<real>, alpha: real, out: seq<real>, lo: real, hi: real)
    requires EmaRecurrence(data, alpha, out)
    requires 0.0 <= alpha <= 1.0
    requires forall j :: 0 <= j < |data| ==> lo <= data[j] <= hi
    ensures forall j :: 0 <= j < |out| ==> lo <= out[j] <= hi
  {
    forall j | 0 <= j < |out| ensures lo <= out[j] <= hi {
      EmaBoundedAt(data, alpha, out, lo, hi, j);
    }
  }

  lemma {:induction false} EmaBoundedAt(data: seq<real>, alpha: real, out: seq<real>, lo: real, hi: real, j: int)
    requires EmaRecurrence(data, alpha, out)
    requires 0.0 <= alpha <= 1.0
    requires forall k :: 0 <= k < |data| ==> lo <= data[k] <= hi
    requires 0 <= j < |out|
    ensures lo <= out[j] <= hi
  {
    if j > 0 {
      EmaBoundedAt(data, alpha, out, lo, hi, j - 1);
      ConvexCombination(alpha, data[j], out[j - 1], lo, hi);
    }
  }

  lemma ConvexCombination(a: real, x: real, y: real, lo: real, hi: real)
    requires 0.0 <= a <= 1.0 && lo <= x <= hi && lo <= y <= hi
    ensures lo <= a * x + (1.0 - a) * y <= hi
  {
    ProductSign(a, x - lo);
    ProductSign(1.0 - a, y - lo);
    ProductSign(a, hi - x);
    ProductSign(1.0 - a, hi - y);
    assert a * x + (1.0 - a) * y - lo == a * (x - lo) + (1.0 - a) * (y - lo);
    assert hi - (a * x + (1.0 - a) * y) == a * (hi - x) + (1.0 - a) * (hi - y);
  }

  lemma ProductSign(x: real, y: real)
    requires x >= 0.0
    ensures y >= 0.0 ==> x * y >= 0.0
  {
  }

  // ---------------------------------------------------------------- monopoly table

  function Demand(q: real): real { 200.0 - 0.2 * q }
  function MarginalRevenue(q: real): real { 200.0 - 0.4 * q }
  function MarginalCost(q: real): real { 10.0 + 0.1 * q }

  function CurveRow(q: real): MonopolyDataPoint {
    MonopolyDataPoint(q, Some(Demand(q)), Some(MarginalRevenue(q)), Some(MarginalCost(q)), None, None)
  }

  /** The extra row marking MR = MC at the decision quantity. */
  function DecisionRow(): MonopolyDataPoint {
    MonopolyDataPoint(380.0, None, Some(48.0), Some(48.0), Some(48.0), None)
  }

  /** The extra row marking the monopoly price on the demand curve. */
  function PriceRow(): MonopolyDataPoint {
    MonopolyDataPoint(380.0, Some(124.0), None, None, None, Some(124.0))
  }

  function MonopolyQuantity(p: MonopolyDataPoint): real { p.quantity }

  /** Pushes a curve row for every q = 0..1000 in steps of 50, then the decision row and
      the price row, and sorts by quantity. */
  method MonopolyData() returns (data: seq<MonopolyDataPoint>)
    ensures |data| == 23
    ensures Sorting.SortedBy(data, MonopolyQuantity)
    ensures forall k :: 0 <= k <= 20 ==> CurveRow((50 * k) as real) in data
    ensures DecisionRow() in data && PriceRow() in data
    ensures forall p :: p in data ==>
      p == DecisionRow() || p == PriceRow() || exists k :: 0 <= k <= 20 && p == CurveRow((50 * k) as real)
    ensures Sorting.KeyFilter(data, MonopolyQuantity, 380.0) == [DecisionRow(), PriceRow()]
  {
    var rows: seq<MonopolyDataPoint> := [];
    var q := 0;
    var n := 0;
    while q <= 1000
      invariant q == 50 * n && 0 <= n <= 21
      invariant |rows| == n
      invariant forall k :: 0 <= k < n ==> rows[k] == CurveRow((50 * k) as real)
    {
      rows := rows + [CurveRow(q as real)];
      q := q + 50;
      n := n + 1;
    }
    data := Sorting.SortBy(rows + [DecisionRow(), PriceRow()], MonopolyQuantity);
    MonopolyRowsSorted(rows, data);
  }

  lemma MonopolyRowsSorted(curve: seq<MonopolyDataPoint>, data: seq<MonopolyDataPoint>)
    requires |curve| == 21
    requires forall k :: 0 <= k < 21 ==> curve[k] == CurveRow((50 * k) as real)
    requires data == Sorting.SortBy(curve + [DecisionRow(), PriceRow()], MonopolyQuantity)
    ensures |data| == 23
    ensures forall k :: 0 <= k <= 20 ==> CurveRow((50 * k) as real) in data
    ensures DecisionRow() in data && PriceRow() in data
    ensures forall p :: p in data ==>
      p == DecisionRow() || p == PriceRow() || exists k :: 0 <= k <= 20 && p == CurveRow((50 * k) as real)
    ensures Sorting.KeyFilter(data, MonopolyQuantity, 380.0) == [DecisionRow(), PriceRow()]
  {
    var rows := curve + [DecisionRow(), PriceRow()];
    Sorting.SortSpec(rows, MonopolyQuantity, 380.0);
    MonopolyKeyFilter(curve);
    MonopolyMembers(curve, rows, data);
  }

  lemma MonopolyKeyFilter(curve: seq<MonopolyDataPoint>)
    requires forall k :: 0 <= k < |curve| ==> curve[k] == CurveRow((50 * k) as real)
    ensures Sorting.KeyFilter(curve + [DecisionRow(), PriceRow()], MonopolyQuantity, 380.0) == [DecisionRow(), PriceRow()]
  {
    forall k | 0 <= k < |curve| ensures MonopolyQuantity(curve[k]) != 380.0 {
      assert 50 * k != 380;
    }
    Sorting.KeyFilterNone(curve, MonopolyQuantity, 380.0);
    Sorting.KeyFilterAppend(curve, [DecisionRow(), PriceRow()], MonopolyQuantity, 380.0);
    assert Sorting.KeyFilter([PriceRow()], MonopolyQuantity, 380.0) == [PriceRow()];
  }

  lemma MonopolyMembers(curve: seq<MonopolyDataPoint>, rows: seq<MonopolyDataPoint>, data: seq<MonopolyDataPoint>)
    requires |curve| == 21
    requires forall k :: 0 <= k < 21 ==> curve[k] == CurveRow((50 * k) as real)
    requires rows == curve + [DecisionRow(), PriceRow()]
    requires multiset(data) == multiset(rows)
    ensures forall k :: 0 <= k <= 20 ==> CurveRow((50 * k) as real) in data
    ensures DecisionRow() in data && PriceRow() in data
    ensures forall p :: p in data ==>
      p == DecisionRow() || p == PriceRow() || exists k :: 0 <= k <= 20 && p == CurveRow((50 * k) as real)
  {
    forall p | p in rows ensures p in data {
      assert p in multiset(rows);
    }
    forall p | p in data ensures p in rows {
      assert p in multiset(data);
    }
    forall k | 0 <= k <= 20 ensures CurveRow((50 * k) as real) in data {
      assert rows[k] in rows;
    }
    assert rows[21] == DecisionRow() && rows[22] == PriceRow();
    assert rows[21] in rows && rows[22] in rows;
  }

  /** The decision point: marginal revenue meets marginal cost exactly at quantity 380,
      where both are 48 and the demand curve gives the price 124; the two marked rows
      carry those values. */
  lemma MonopolyDecisionPoint(q: real)
    ensures MarginalRevenue(380.0) == MarginalCost(380.0) == 48.0
    ensures Demand(380.0) == 124.0
    ensures MarginalRevenue(q) == MarginalCost(q) <==> q == 380.0
    ensures DecisionRow().mr == Some(MarginalRevenue(380.0)) && DecisionRow().mc == Some(MarginalCost(380.0))
    ensures PriceRow().demand == Some(Demand(380.0))
  {
  }

  // ---------------------------------------------------------------- country metrics

  const TargetCountries: seq<string> := ["United Kingdom", "Germany", "France", "Netherlands", "EIRE"]

  /** Which transactions the country metrics count: from a target country, not a
      cancellation, and with a truthy (present, non-zero) total price. */
  predicate Counted(tx: SalesTransaction) {
    && tx.country.Some? && tx.country.value in TargetCountries
    && !IsCancelled(tx)
    && tx.totalPrice.Some? && tx.totalPrice.value != 0.0
  }

  /** The counted transactions of one country, in input order. */
  function CountryTransactions(txs: seq<SalesTransaction>, c: string): seq<SalesTransaction> {
    if txs == [] then []
    else
      var tx := txs[|txs| - 1];
      CountryTransactions(txs[..|txs| - 1], c) + (if Counted(tx) && tx.country == Some(c) then [tx] else [])
  }

  lemma {:induction false} CountryTransactionsCounted(txs: seq<SalesTransaction>, c: string)
    ensures forall t :: t in CountryTransactions(txs, c) ==> Counted(t) && t.country == Some(c) && t in txs
  {
    if txs != [] {
      CountryTransactionsCounted(txs[..|txs| - 1], c);
      assert forall t :: t in txs[..|txs| - 1] ==> t in txs;
    }
  }

  /** The `forEach` that fills `salesByCountry`. */
  method GroupByCountry(txs: seq<SalesTransaction>) returns (byCountry: map<string, seq<SalesTransaction>>)
    ensures forall c :: c in byCountry ==> byCountry[c] == CountryTransactions(txs, c) != []
    ensures forall c :: c !in byCountry ==> CountryTransactions(txs, c) == []
  {
    byCountry := map[];
    for i := 0 to |txs|
      invariant forall c :: c in byCountry ==> byCountry[c] == CountryTransactions(txs[..i], c) != []
      invariant forall c :: c !in byCountry ==> CountryTransactions(txs[..i], c) == []
    {
      var tx := txs[i];
      assert txs[..i + 1][..i] == txs[..i];
      if Counted(tx) {
        var c := tx.country.value;
        if c !in byCountry {
          byCountry := byCountry[c := []];
        }
        byCountry := byCountry[c := byCountry[c] + [tx]];
      }
    }
    assert txs[..|txs|] == txs;
  }

  /** `salesByCountry[country] || []` */
  function TransactionsOf(byCountry: map<string, seq<SalesTransaction>>, c: string): seq<SalesTransaction> {
    if c in byCountry then byCountry[c] else []
  }

  function TotalPriceOrZero(tx: SalesTransaction): real {
    if tx.totalPrice.Some? then tx.totalPrice.value else 0.0
  }

  function QuantityOf(tx: SalesTransaction): real { tx.quantity as real }

  function CustomerIds(txs: seq<SalesTransaction>): seq<Option<string>> {
    seq(|txs|, i requires 0 <= i < |txs| => txs[i].customerID)
  }

  function InvoiceNumbers(txs: seq<SalesTransaction>): seq<string> {
    seq(|txs|, i requires 0 <= i < |txs| => txs[i].invoiceNo)
  }

  /** One country's raw metrics. */
  function CountryMetrics(country: string, txs: seq<SalesTransaction>): (m: CountrySalesMetrics)
    ensures m.country == country
    ensures m.totalRevenue == Sum(txs, TotalPriceOrZero) && m.totalQuantity == Sum(txs, QuantityOf)
    ensures m.uniqueCustomers == |Distinct(CustomerIds(txs))| <= |txs|
    ensures m.orderCount == |Distinct(InvoiceNumbers(txs))| <= |txs|
    ensures txs != [] ==> m.uniqueCustomers >= 1 && m.orderCount >= 1
    ensures m.totalQuantity > 0.0 ==> m.avgPrice * m.totalQuantity == m.totalRevenue
    ensures m.totalQuantity <= 0.0 ==> m.avgPrice == 0.0
  {
    var revenue := Sum(txs, TotalPriceOrZero);
    var quantity := Sum(txs, QuantityOf);
    DistinctBounds(CustomerIds(txs));
    DistinctBounds(InvoiceNumbers(txs));
    CountrySalesMetrics(country, revenue, quantity, |Distinct(CustomerIds(txs))|, |Distinct(InvoiceNumbers(txs))|,
      if quantity > 0.0 then revenue / quantity else 0.0)
  }

  function NegatedRevenue(m: CountrySalesMetrics): real { -m.totalRevenue }

  /** One metrics row per country of `countries`, in their order, over that country's
      counted transactions. */
  function MetricsOf(txs: seq<SalesTransaction>, countries: seq<string>): (r: seq<CountrySalesMetrics>)
    ensures |r| == |countries|
    ensures forall i :: 0 <= i < |countries| ==> r[i] == CountryMetrics(countries[i], CountryTransactions(txs, countries[i]))
  {
    if countries == [] then []
    else [CountryMetrics(countries[0], CountryTransactions(txs, countries[0]))] + MetricsOf(txs, countries[1..])
  }

  /** `targetCountries.map(...)`, one row per target country in list order. */
  function UnsortedMetrics(txs: seq<SalesTransaction>): (r: seq<CountrySalesMetrics>)
    ensures |r| == 5
    ensures forall i :: 0 <= i < 5 ==> r[i] == CountryMetrics(TargetCountries[i], CountryTransactions(txs, TargetCountries[i]))
  {
    MetricsOf(txs, TargetCountries)
  }

  /** The same map as computed from the `salesByCountry` record. */
  function GroupedMetrics(byCountry: map<string, seq<SalesTransaction>>, countries: seq<string>): (r: seq<CountrySalesMetrics>)
    ensures |r| == |countries|
    ensures forall i :: 0 <= i < |countries| ==> r[i] == CountryMetrics(countries[i], TransactionsOf(byCountry, countries[i]))
  {
    if countries == [] then []
    else [CountryMetrics(countries[0], TransactionsOf(byCountry, countries[0]))] + GroupedMetrics(byCountry, countries[1..])
  }

  /** `sort((a, b) => b.totalRevenue - a.totalRevenue)`: highest revenue first. */
  function ByRevenue(rows: seq<CountrySalesMetrics>): (r: seq<CountrySalesMetrics>)
    ensures |r| == |rows|
    ensures forall i, j :: 0 <= i < j < |r| ==> r[i].totalRevenue >= r[j].totalRevenue
    ensures multiset(r) == multiset(rows)
  {
    Sorting.SortSpec(rows, NegatedRevenue, 0.0);
    var r := Sorting.SortBy(rows, NegatedRevenue);
    assert forall i, j :: 0 <= i < j < |r| ==> NegatedRevenue(r[i]) <= NegatedRevenue(r[j]);
    r
  }

  /** The rows sorted by revenue, highest first. */
  function RawMetrics(txs: seq<SalesTransaction>): (r: seq<CountrySalesMetrics>)
    ensures |r| == 5
    ensures forall i, j :: 0 <= i < j < |r| ==> r[i].totalRevenue >= r[j].totalRevenue
    ensures multiset(r) == multiset(UnsortedMetrics(txs))
  {
    ByRevenue(UnsortedMetrics(txs))
  }

  /** The sort is stable: rows with equal revenue keep target-country order. */
  lemma RawMetricsTieOrder(txs: seq<SalesTransaction>, k: real)
    ensures Sorting.KeyFilter(RawMetrics(txs), NegatedRevenue, k) == Sorting.KeyFilter(UnsortedMetrics(txs), NegatedRevenue, k)
  {
    Sorting.SortSpec(UnsortedMetrics(txs), NegatedRevenue, k);
  }

  /** A reordering of the per-target rows holds each target country exactly once, each
      row unchanged. */
  lemma ReorderedCountryRows(r: seq<CountrySalesMetrics>, u: seq<CountrySalesMetrics>)
    requires |u| == 5 && multiset(r) == multiset(u)
    requires forall i :: 0 <= i < 5 ==> u[i].country == TargetCountries[i]
    ensures |r| == 5
    ensures forall i :: 0 <= i < 5 ==> r[i] in u
    ensures forall i :: 0 <= i < 5 ==> r[i].country in TargetCountries
    ensures forall i, j :: 0 <= i < j < 5 ==> r[i].country != r[j].country
    ensures forall c :: c in TargetCountries ==> exists i :: 0 <= i < 5 && r[i].country == c
  {
    assert |r| == |multiset(r)| == 5;
    forall i | 0 <= i < 5 ensures r[i] in u {
      assert r[i] in multiset(r);
    }
    assert NoDuplicates(u) by {
      forall i, j | 0 <= i < j < 5 ensures u[i] != u[j] {
        assert u[i].country != u[j].country;
      }
    }
    PermutationKeepsDistinct(r, u);
    forall i, j | 0 <= i < j < 5 ensures r[i].country != r[j].country {
      var a :| 0 <= a < 5 && u[a] == r[i];
      var b :| 0 <= b < 5 && u[b] == r[j];
      assert r[i] != r[j];
    }
    forall c | c in TargetCountries ensures exists i :: 0 <= i < 5 && r[i].country == c {
      var k :| 0 <= k < 5 && TargetCountries[k] == c;
      assert u[k] in multiset(r);
      var i :| 0 <= i < 5 && r[i] == u[k];
    }
  }

  /** The raw rows hold each target country exactly once, with that country's metrics. */
  lemma RawMetricsCountries(txs: seq<SalesTransaction>)
    ensures forall i :: 0 <= i < 5 ==> RawMetrics(txs)[i].country in TargetCountries
    ensures forall i :: 0 <= i < 5 ==>
      RawMetrics(txs)[i] == CountryMetrics(RawMetrics(txs)[i].country, CountryTransactions(txs, RawMetrics(txs)[i].country))
    ensures forall i, j :: 0 <= i < j < 5 ==> RawMetrics(txs)[i].country != RawMetrics(txs)[j].country
    ensures forall c :: c in TargetCountries ==> exists i :: 0 <= i < 5 && RawMetrics(txs)[i].country == c
  {
    var r := RawMetrics(txs);
    var u := UnsortedMetrics(txs);
    ReorderedCountryRows(r, u);
    forall i | 0 <= i < 5 ensures r[i] == CountryMetrics(r[i].country, CountryTransactions(txs, r[i].country)) {
      var k :| 0 <= k < 5 && u[k] == r[i];
    }
  }

  datatype Subject = TotalRevenue | UniqueCustomers | OrderCount | TotalQuantity | AvgPrice

  const Subjects: seq<Subject> := [TotalRevenue, UniqueCustomers, OrderCount, TotalQuantity, AvgPrice]

  function SubjectName(s: Subject): string {
    match s
    case TotalRevenue => "Total Revenue"
    case UniqueCustomers => "Unique Customers"
    case OrderCount => "Order Count"
    case TotalQuantity => "Total Quantity"
    case AvgPrice => "Avg. Price"
  }

  function SubjectValue(m: CountrySalesMetrics, s: Subject): real {
    match s
    case TotalRevenue => m.totalRevenue
    case UniqueCustomers => m.uniqueCustomers as real
    case OrderCount => m.orderCount as real
    case TotalQuantity => m.totalQuantity
    case AvgPrice => m.avgPrice
  }

  /** `Math.max(...rows.map(value))` */
  function MaxValue(rows: seq<CountrySalesMetrics>, s: Subject): (r: real)
    requires |rows| > 0
    ensures forall i :: 0 <= i < |rows| ==> SubjectValue(rows[i], s) <= r
    ensures exists i :: 0 <= i < |rows| && SubjectValue(rows[i], s) == r
  {
    if |rows| == 1 then SubjectValue(rows[0], s)
    else
      var m := MaxValue(rows[1..], s);
      assert forall i :: 1 <= i < |rows| ==> rows[1..][i - 1] == rows[i];
      if SubjectValue(rows[0], s) >= m then SubjectValue(rows[0], s) else m
  }

  /** `max > 0 ? value / max : 0` */
  function Normalised(v: real, max: real): real {
    if max > 0.0 then v / max else 0.0
  }

  /** The legend key of a country. */
  function CountryKey(c: string): string {
    if c == "United Kingdom" then "UK" else c
  }

  datatype RadarEntry = RadarEntry(subject: string, values: map<string, real>)

  /** The country keys of every radar entry. */
  const RadarKeys: set<string> := {"UK", "Germany", "France", "Netherlands", "EIRE"}

  /** Rows holding each target country once have five different keys, which are the radar keys. */
  lemma RowKeys(rows: seq<CountrySalesMetrics>)
    requires |rows| == 5
    requires forall i :: 0 <= i < 5 ==> rows[i].country in TargetCountries
    requires forall i, j :: 0 <= i < j < 5 ==> rows[i].country != rows[j].country
    requires forall c :: c in TargetCountries ==> exists i :: 0 <= i < 5 && rows[i].country == c
    ensures forall i, j :: 0 <= i < j < 5 ==> CountryKey(rows[i].country) != CountryKey(rows[j].country)
    ensures forall i :: 0 <= i < 5 ==> CountryKey(rows[i].country) in RadarKeys
    ensures (set i | 0 <= i < |rows| :: CountryKey(rows[i].country)) == RadarKeys
  {
    forall i, j | 0 <= i < 5 && 0 <= j < 5
      ensures CountryKey(rows[i].country) in RadarKeys
      ensures i != j ==> CountryKey(rows[i].country) != CountryKey(rows[j].country)
    {
      TargetKeys(rows[i].country, rows[j].country);
    }
    var keys := set i | 0 <= i < |rows| :: CountryKey(rows[i].country);
    forall k | k in RadarKeys ensures k in keys {
      var c := KeyCountry(k);
      var i :| 0 <= i < 5 && rows[i].country == c;
      assert CountryKey(rows[i].country) == k;
    }
  }

  /** Target countries have keys among the radar keys, different countries different keys. */
  lemma TargetKeys(c: string, d: string)
    requires c in TargetCountries && d in TargetCountries
    ensures CountryKey(c) in RadarKeys
    ensures c != d ==> CountryKey(c) != CountryKey(d)
  {
    if c != d && (c == "United Kingdom" || d == "United Kingdom") {
      assert |"United Kingdom"| == 14;
      assert "UK" !in TargetCountries;
    }
  }

  /** The target country behind each radar key. */
  function KeyCountry(k: string): (c: string)
    requires k in RadarKeys
    ensures c in TargetCountries && CountryKey(c) == k
  {
    if k == "UK" then "United Kingdom" else k
  }

  datatype CountryConfig = CountryConfig(name: string, color: string)

  const CountryConfigs: seq<CountryConfig> := [
    CountryConfig("UK", "hsl(var(--chart-1))"),
    CountryConfig("Germany", "hsl(var(--chart-2))"),
    CountryConfig("France", "hsl(var(--chart-3))"),
    CountryConfig("Netherlands", "hsl(var(--chart-4))"),
    CountryConfig("EIRE", "hsl(var(--chart-5))")]

  /** The legend entries name the target countries' keys, in target order. */
  lemma CountryConfigMatchesTargets()
    ensures |CountryConfigs| == |TargetCountries|
    ensures forall i :: 0 <= i < 5 ==> CountryConfigs[i].name == CountryKey(TargetCountries[i])
  {
  }

  datatype CountryMetricsView =
    | BarRows(rows: seq<CountrySalesMetrics>)
    | Radar(data: seq<RadarEntry>, countries: seq<CountryConfig>)

  /** Builds one subject's entry field by field, one country key per row. */
  method RadarEntryFor(subject: Subject, rows: seq<CountrySalesMetrics>) returns (entry: RadarEntry)
    requires |rows| > 0
    requires forall i, j :: 0 <= i < j < |rows| ==> CountryKey(rows[i].country) != CountryKey(rows[j].country)
    ensures entry.subject == SubjectName(subject)
    ensures entry.values.Keys == set i | 0 <= i < |rows| :: CountryKey(rows[i].country)
    ensures forall i :: 0 <= i < |rows| ==>
      entry.values[CountryKey(rows[i].country)] == Normalised(SubjectValue(rows[i], subject), MaxValue(rows, subject))
  {
    var max := MaxValue(rows, subject);
    var values: map<string, real> := map[];
    for i := 0 to |rows|
      invariant values.Keys == set j | 0 <= j < i :: CountryKey(rows[j].country)
      invariant forall j :: 0 <= j < i ==> values[CountryKey(rows[j].country)] == Normalised(SubjectValue(rows[j], subject), max)
    {
      var key := CountryKey(rows[i].country);
      values := values[key := Normalised(SubjectValue(rows[i], subject), max)];
      forall j | 0 <= j < i + 1
        ensures values[CountryKey(rows[j].country)] == Normalised(SubjectValue(rows[j], subject), max)
      {
        if j < i {
          assert CountryKey(rows[j].country) != key;
        }
      }
    }
    entry := RadarEntry(SubjectName(subject), values);
  }

  /** The rows computed from the grouped transactions are the per-country rows of the
      specification, and sorting them gives `RawMetrics`. */
  lemma GroupedRowsAgree(txs: seq<SalesTransaction>, byCountry: map<string, seq<SalesTransaction>>, unsorted: seq<CountrySalesMetrics>)
    requires forall c :: c in byCountry ==> byCountry[c] == CountryTransactions(txs, c) != []
    requires forall c :: c !in byCountry ==> CountryTransactions(txs, c) == []
    requires unsorted == GroupedMetrics(byCountry, TargetCountries)
    ensures unsorted == UnsortedMetrics(txs)
    ensures ByRevenue(unsorted) == RawMetrics(txs)
  {
    forall i | 0 <= i < 5 ensures unsorted[i] == UnsortedMetrics(txs)[i] {
      assert TransactionsOf(byCountry, TargetCountries[i]) == CountryTransactions(txs, TargetCountries[i]);
    }
  }

  /** Groups the counted transactions by country, computes each target country's row,
      sorts the rows by revenue (highest first) and returns them as they are for the
      bar chart, or otherwise normalises each subject by its maximum. */
  method GetCountryMetricsData(txs: seq<SalesTransaction>, barChartFormat: bool) returns (r: CountryMetricsView)
    ensures barChartFormat ==> r == BarRows(RawMetrics(txs))
    ensures !barChartFormat ==> r.Radar? && r.countries == CountryConfigs && |r.data| == 5
    ensures !barChartFormat ==> forall s :: 0 <= s < 5 ==> EntryMatches(r.data[s], Subjects[s], RawMetrics(txs))
  {
    var byCountry := GroupByCountry(txs);
    var unsorted := GroupedMetrics(byCountry, TargetCountries);
    GroupedRowsAgree(txs, byCountry, unsorted);
    var rows := ByRevenue(unsorted);
    if barChartFormat {
      return BarRows(rows);
    }
    RawMetricsCountries(txs);
    var data := RadarData(rows);
    r := Radar(data, CountryConfigs);
    forall s | 0 <= s < 5 ensures EntryMatches(data[s], Subjects[s], rows) { }
  }

  /** The radar entry of one subject: its name, one key per country, each the
      country's value normalised by the subject's maximum. */
  predicate EntryMatches(e: RadarEntry, subject: Subject, rows: seq<CountrySalesMetrics>)
    requires |rows| > 0
  {
    && e.subject == SubjectName(subject)
    && e.values.Keys == RadarKeys
    && forall i :: 0 <= i < |rows| ==>
      && CountryKey(rows[i].country) in e.values
      && e.values[CountryKey(rows[i].country)] == Normalised(SubjectValue(rows[i], subject), MaxValue(rows, subject))
  }

  /** One entry per subject, in subject order. */
  method RadarData(rows: seq<CountrySalesMetrics>) returns (data: seq<RadarEntry>)
    requires |rows| == 5
    requires forall i :: 0 <= i < 5 ==> rows[i].country in TargetCountries
    requires forall i, j :: 0 <= i < j < 5 ==> rows[i].country != rows[j].country
    requires forall c :: c in TargetCountries ==> exists i :: 0 <= i < 5 && rows[i].country == c
    ensures |data| == 5
    ensures forall s :: 0 <= s < 5 ==> EntryMatches(data[s], Subjects[s], rows)
  {
    RowKeys(rows);
    data := [];
    for s := 0 to 5
      invariant |data| == s
      invariant forall t :: 0 <= t < s ==> EntryMatches(data[t], Subjects[t], rows)
    {
      var entry := RadarEntryFor(Subjects[s], rows);
      assert EntryMatches(entry, Subjects[s], rows);
      var prev := data;
      data := data + [entry];
      forall t | 0 <= t < s + 1 ensures EntryMatches(data[t], Subjects[t], rows) {
        if t < s {
          assert data[t] == prev[t];
        }
      }
    }
  }

  /** On every radar subject the leading country scores exactly 1 and no country scores
      above 1, unless the maximum is not positive, in which case every score is 0. */
  lemma LeaderScoresOne(rows: seq<CountrySalesMetrics>, s: Subject)
    requires |rows| > 0
    ensures MaxValue(rows, s) > 0.0 ==>
      (exists i :: 0 <= i < |rows| && Normalised(SubjectValue(rows[i], s), MaxValue(rows, s)) == 1.0)
    ensures forall i :: 0 <= i < |rows| ==> Normalised(SubjectValue(rows[i], s), MaxValue(rows, s)) <= 1.0
    ensures MaxValue(rows, s) <= 0.0 ==>
      forall i :: 0 <= i < |rows| ==> Normalised(SubjectValue(rows[i], s), MaxValue(rows, s)) == 0.0
  {
    var m := MaxValue(rows, s);
    if m > 0.0 {
      var k :| 0 <= k < |rows| && SubjectValue(rows[k], s) == m;
      ShareOfMax(m, m);
      forall i | 0 <= i < |rows| ensures Normalised(SubjectValue(rows[i], s), m) <= 1.0 {
        ShareOfMax(SubjectValue(rows[i], s), m);
      }
    }
  }

  /** A value at most a positive maximum is at most 1 of it, and the maximum exactly 1. */
  lemma ShareOfMax(v: real, m: real)
    requires 0.0 < m && v <= m
    ensures v / m <= 1.0
    ensures v == m ==> v / m == 1.0
  {
    assert v / m * m == v;
  }

  // ---------------------------------------------------------------- duopoly table

  /** `Math.max(0, x)` */
  function Clamp(x: real): (r: real)
    ensures r >= 0.0 && r >= x
    ensures r == x || r == 0.0
  {
    if x > 0.0 then x else 0.0
  }

  /** The unclamped (our demand, competitor demand) of one scenario at our price `p`. */
  function ScenarioDemands(p: real, cp: real, scenario: MarketScenario): (real, real) {
    var base := 1000.0;
    match scenario
    case Rational =>
      if p < cp then (base - p + cp, 0.0)
      else if p > cp then (0.0, base - cp + p)
      else ((base - p) / 2.0, (base - cp) / 2.0)
    case PriceWar =>
      if p < cp then (base * 1.5 - p * 2.0, base * 0.5 - cp * 2.0)
      else if p > cp then (base * 0.5 - p * 2.0, base * 1.5 - cp * 2.0)
      else (base - p * 2.0, base - cp * 2.0)
    case BrandLoyal =>
      (base * 1.2 - p * 0.8 + cp * 0.2, base * 0.8 - cp + p * 0.5)
  }

  /** A table row from unclamped demands: each demand clamped at 0, revenue the clamped
      demand times the respective price. */
  function RowFromDemands(p: real, cp: real, our: real, their: real): (r: DuopolyDataPoint)
    ensures r.ourPrice == p && r.competitorPrice == cp
    ensures r.ourDemand >= 0.0 && r.competitorDemand >= 0.0
    ensures r.ourDemand == Clamp(our) && r.competitorDemand == Clamp(their)
    ensures r.ourRevenue == r.ourDemand * p && r.competitorRevenue == r.competitorDemand * cp
    ensures p >= 0.0 ==> r.ourRevenue >= 0.0
    ensures cp >= 0.0 ==> r.competitorRevenue >= 0.0
  {
    ProductSign(Clamp(our), p);
    ProductSign(Clamp(their), cp);
    DuopolyDataPoint(p, cp, Clamp(our), Clamp(their), Clamp(our) * p, Clamp(their) * cp)
  }

  function DuopolyRow(p: real, cp: real, scenario: MarketScenario): DuopolyDataPoint {
    var d := ScenarioDemands(p, cp, scenario);
    RowFromDemands(p, cp, d.0, d.1)
  }

  /** One row per candidate price p = 50, 60, ..., 150. `ourPrice` does not enter the table. */
  method GenerateDuopolyData(ourPrice: real, competitorPrice: real, scenario: MarketScenario) returns (data: seq<DuopolyDataPoint>)
    ensures |data| == 11
    ensures forall i :: 0 <= i < 11 ==> data[i] == DuopolyRow((50 + 10 * i) as real, competitorPrice, scenario)
  {
    data := [];
    var p := 50;
    while p <= 150
      invariant 50 <= p <= 160 && (p - 50) % 10 == 0
      invariant |data| == (p - 50) / 10
      invariant forall i :: 0 <= i < |data| ==> data[i] == DuopolyRow((50 + 10 * i) as real, competitorPrice, scenario)
    {
      data := data + [DuopolyRow(p as real, competitorPrice, scenario)];
      p := p + 10;
    }
  }

  /** Under rational pricing the cheaper firm takes the whole market: undercutting the
      competitor zeroes its demand and revenue, and overpricing zeroes ours. */
  lemma RationalUndercut(p: real, cp: real)
    ensures p < cp ==>
      && DuopolyRow(p, cp, Rational).competitorDemand == 0.0
      && DuopolyRow(p, cp, Rational).competitorRevenue == 0.0
      && DuopolyRow(p, cp, Rational).ourDemand == Clamp(1000.0 - p + cp)
    ensures p > cp ==>
      && DuopolyRow(p, cp, Rational).ourDemand == 0.0
      && DuopolyRow(p, cp, Rational).ourRevenue == 0.0
      && DuopolyRow(p, cp, Rational).competitorDemand == Clamp(1000.0 - cp + p)
    ensures p == cp ==> DuopolyRow(p, cp, Rational).ourDemand == DuopolyRow(p, cp, Rational).competitorDemand
  {
  }
}
