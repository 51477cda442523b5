/**
 What the CEO screen reads from the nightly snapshots (00_gateway/services/ceo_trend.py): the months' trend, and
 the previous value of the figures that are positions. Days are numbers, and a month is its first and last day.
*/
module CeoTrend {
  import opened Common
  import opened CeoScreen

  datatype Code =
    | RevenueCode | Payroll | ProjectCosts | Procurement | AssetCosts | OperatingExpenses
    | Receivables | Pipeline | Clients | WorkUnits | Headcount

  datatype Month = Month(name: string, first: int, last: int)
  datatype Point = Point(value: int, days: int)
  type Points = map<Code, map<string, Point>>

  /** Insight's two answers for one company: the trend's months, and the previous period's last day. */
  datatype Snapshots = Snapshots(company: Company, trendStatus: Status, trend: Points, previousStatus: Status, previous: Points)

  /** The live answers that are not a company's own: the inventory, and whose purchases it holds. */
  datatype Stock = Stock(inventory: Source, company: Option<OrgId>)

  const EXPENSE_CODES := [Payroll, ProjectCosts, Procurement, AssetCosts, OperatingExpenses]

  /** Whether the live screen read the service behind a snapshot for this company. */
  predicate Live(stock: Stock, c: Company, code: Code) {
    match code
    case RevenueCode | Receivables | Pipeline | Clients => c.revenue.status.Ok?
    case Payroll | Headcount => c.people.status.Ok?
    case ProjectCosts | WorkUnits => c.delivery.status.Ok?
    case Procurement => stock.inventory.status.Ok? && Some(c.id) == stock.company
    case AssetCosts => c.assets.status.Ok?
    case OperatingExpenses => c.finance.status.Ok?
  }

  function PointOf(status: Status, points: Points, code: Code, period: string): Option<Point> {
    if status.Ok? && code in points && period in points[code] then Some(points[code][period]) else None
  }

  type Pair = (Snapshots, Code)

  function LivePairs(stock: Stock, s: Snapshots, codes: seq<Code>): seq<Pair> {
    if codes == [] then []
    else
      var code := codes[|codes| - 1];
      LivePairs(stock, s, codes[..|codes| - 1]) + (if Live(stock, s.company, code) then [(s, code)] else [])
  }

  /** The company and snapshot pairs that count: those whose live card was read for that company. */
  function AllPairs(stock: Stock, snapshots: seq<Snapshots>, codes: seq<Code>): seq<Pair> {
    if snapshots == [] then []
    else AllPairs(stock, snapshots[..|snapshots| - 1], codes) + LivePairs(stock, snapshots[|snapshots| - 1], codes)
  }

  function PairPoint(pair: Pair, period: string): Option<Point> {
    PointOf(pair.0.trendStatus, pair.0.trend, pair.1, period)
  }

  /** None when no pair has a snapshot that month: unknown, not zero. */
  function SumPairs(pairs: seq<Pair>, period: string): Option<int> {
    if pairs == [] then None
    else
      var before, point := SumPairs(pairs[..|pairs| - 1], period), PairPoint(pairs[|pairs| - 1], period);
      if point.None? then before else Some(before.GetOr(0) + point.value.value)
  }

  /** A payroll run belongs to its month; everything else is written every day so far. */
  function ExpectedDays(code: Code, month: Month, through: int): int {
    if month.first > through then 0
    else if code.Payroll? then 1
    else (if month.last < through then month.last else through) - month.first + 1
  }

  predicate CoveredBy(pair: Pair, month: Month, through: int) {
    var point := PairPoint(pair, month.name);
    0 < ExpectedDays(pair.1, month, through) && point.Some? && point.value.days >= ExpectedDays(pair.1, month, through)
  }

  datatype TrendMonth = TrendMonth(month: string, revenue: Option<int>, expenses: Option<int>, profit: Option<int>, complete: bool)

  function TrendMonthOf(month: Month, revenuePairs: seq<Pair>, expensePairs: seq<Pair>, financials: bool, through: int): TrendMonth {
    var revenue := SumPairs(revenuePairs, month.name);
    var expenses := if financials then SumPairs(expensePairs, month.name) else None;
    TrendMonth(
      month.name, revenue, expenses,
      if revenue.Some? && expenses.Some? then Some(revenue.value - expenses.value) else None,
      revenuePairs + expensePairs != [] && forall pair :: pair in revenuePairs + expensePairs ==> CoveredBy(pair, month, through))
  }

  datatype Trend = Trend(state: State, months: seq<TrendMonth>)

  function TrendStatuses(snapshots: seq<Snapshots>): seq<Source> {
    seq(|snapshots|, i requires 0 <= i < |snapshots| =>
      Source(snapshots[i].trendStatus, Row(None, false, map[], map[], [], [], None, false, 0, false)))
  }

  function TrendOf(stock: Stock, snapshots: seq<Snapshots>, months: seq<Month>, financials: bool, through: int): Trend {
    var state := StateOf(TrendStatuses(snapshots));
    if !state.available then Trend(state, [])
    else
      var revenuePairs := AllPairs(stock, snapshots, [RevenueCode]);
      var expensePairs := if financials then AllPairs(stock, snapshots, EXPENSE_CODES) else [];
      Trend(state, seq(|months|, i requires 0 <= i < |months| => TrendMonthOf(months[i], revenuePairs, expensePairs, financials, through)))
  }

  // ------------------------------------------------------------------ previous positions

  /** The companies whose live figure counts. */
  function Counted(stock: Stock, snapshots: seq<Snapshots>, code: Code): seq<Snapshots> {
    if snapshots == [] then []
    else
      var last := snapshots[|snapshots| - 1];
      Counted(stock, snapshots[..|snapshots| - 1], code) + (if Live(stock, last.company, code) then [last] else [])
  }

  /** None when one of them has no snapshot that day: a partial sum would read as a fall. */
  function SumPrevious(counted: seq<Snapshots>, code: Code, day: string): Option<int> {
    if counted == [] then Some(0)
    else
      var last := counted[|counted| - 1];
      var before, point := SumPrevious(counted[..|counted| - 1], code, day), PointOf(last.previousStatus, last.previous, code, day);
      if before.None? || point.None? then None else Some(before.value + point.value.value)
  }

  function WithPrevious(metric: Metric, stock: Stock, snapshots: seq<Snapshots>, code: Code, day: string): Metric {
    var counted := Counted(stock, snapshots, code);
    var previous := SumPrevious(counted, code, day);
    if metric.value.None? || counted == [] || previous.None? then metric
    else metric.(value := Some(metric.value.value.(previous := previous)))
  }

  function PreviousPositions(kpis: Kpis, stock: Stock, snapshots: seq<Snapshots>, day: string): Kpis {
    kpis.(receivables := WithPrevious(kpis.receivables, stock, snapshots, Receivables, day),
          pipeline := WithPrevious(kpis.pipeline, stock, snapshots, Pipeline, day),
          clients := WithPrevious(kpis.clients, stock, snapshots, Clients, day),
          workUnits := WithPrevious(kpis.workUnits, stock, snapshots, WorkUnits, day),
          employees := WithPrevious(kpis.employees, stock, snapshots, Headcount, day))
  }

  /** The whole response: the screen, its trend, and its headline numbers with their previous values. */
  datatype Response = Response(screen: Screen, trend: Trend, kpis: Kpis)

  function ApplySnapshots(screen: Screen, stock: Stock, snapshots: seq<Snapshots>, months: seq<Month>, day: string, financials: bool,
                          through: int): Response
  {
    Response(screen, TrendOf(stock, snapshots, months, financials, through),
             PreviousPositions(screen.headlines.kpis, stock, snapshots, day))
  }

  function Respond(cs: seq<Company>, stock: Stock, snapshots: seq<Snapshots>, months: seq<Month>, day: string, financials: bool,
                   through: int): Response
  {
    ApplySnapshots(BuildScreen(cs, stock.inventory, financials), stock, snapshots, months, day, financials, through)
  }
}

/** The redaction carried over to the snapshots: trend, completeness and previous values. */
module CeoTrendRedaction {
  import opened Common
  import opened CeoScreen
  import opened CeoRedaction
  import opened CeoTrend

  predicate FinancialCode(code: Code) {
    code.Payroll? || code.ProjectCosts? || code.Procurement? || code.AssetCosts? || code.OperatingExpenses?
  }

  function HidePoints(points: Points): Points {
    map code | code in points && !FinancialCode(code) :: points[code]
  }

  function HideSnapshots(s: Snapshots): Snapshots {
    s.(company := HideCompany(s.company), trend := HidePoints(s.trend), previous := HidePoints(s.previous))
  }

  function HideAllSnapshots(snapshots: seq<Snapshots>): seq<Snapshots> {
    seq(|snapshots|, i requires 0 <= i < |snapshots| => HideSnapshots(snapshots[i]))
  }

  function HideStock(stock: Stock): Stock {
    stock.(inventory := HideSource(stock.inventory))
  }

  function HidePairs(pairs: seq<Pair>): seq<Pair> {
    seq(|pairs|, i requires 0 <= i < |pairs| => (HideSnapshots(pairs[i].0), pairs[i].1))
  }

  lemma HiddenPoint(status: Status, points: Points, code: Code, period: string)
    requires !FinancialCode(code)
    ensures PointOf(status, HidePoints(points), code, period) == PointOf(status, points, code, period)
  {
  }

  lemma HiddenParts(snapshots: seq<Snapshots>)
    requires snapshots != []
    ensures var hidden, n := HideAllSnapshots(snapshots), |snapshots| - 1;
            |hidden| == n + 1 && hidden[..n] == HideAllSnapshots(snapshots[..n]) && hidden[n] == HideSnapshots(snapshots[n])
  {
  }

  lemma {:induction false} HiddenPairs(stock: Stock, snapshots: seq<Snapshots>)
    ensures AllPairs(HideStock(stock), HideAllSnapshots(snapshots), [RevenueCode]) == HidePairs(AllPairs(stock, snapshots, [RevenueCode]))
  {
    if snapshots != [] {
      var init, last := snapshots[..|snapshots| - 1], snapshots[|snapshots| - 1];
      HiddenPairs(stock, init);
      HiddenParts(snapshots);
      OneHiddenPair(stock, last);
      HidingSplits(AllPairs(stock, init, [RevenueCode]), LivePairs(stock, last, [RevenueCode]));
    }
  }

  lemma {:induction false} OneHiddenPair(stock: Stock, s: Snapshots)
    ensures LivePairs(HideStock(stock), HideSnapshots(s), [RevenueCode]) == HidePairs(LivePairs(stock, s, [RevenueCode]))
  {
  }

  lemma HidingSplits(a: seq<Pair>, b: seq<Pair>)
    ensures HidePairs(a + b) == HidePairs(a) + HidePairs(b)
  {
  }

  lemma {:induction false} OnePair(stock: Stock, s: Snapshots)
    ensures LivePairs(stock, s, [RevenueCode]) == if s.company.revenue.status.Ok? then [(s, RevenueCode)] else []
  {
  }

  /** Revenue pairs only: no month asks anything of an expense snapshot. */
  ghost predicate RevenueOnly(pairs: seq<Pair>) {
    forall i :: 0 <= i < |pairs| ==> pairs[i].1 == RevenueCode
  }

  lemma {:induction false} AllRevenueOnly(stock: Stock, snapshots: seq<Snapshots>)
    ensures RevenueOnly(AllPairs(stock, snapshots, [RevenueCode]))
  {
    if snapshots != [] {
      AllRevenueOnly(stock, snapshots[..|snapshots| - 1]);
      OnePair(stock, snapshots[|snapshots| - 1]);
    }
  }

  lemma {:induction false} HiddenPairSum(pairs: seq<Pair>, period: string)
    requires RevenueOnly(pairs)
    ensures SumPairs(HidePairs(pairs), period) == SumPairs(pairs, period)
  {
    if pairs != [] {
      HiddenPairSum(pairs[..|pairs| - 1], period);
      assert HidePairs(pairs)[..|pairs| - 1] == HidePairs(pairs[..|pairs| - 1]);
    }
  }

  lemma HiddenCoverage(pairs: seq<Pair>, month: Month, through: int)
    requires RevenueOnly(pairs)
    ensures (forall pair :: pair in HidePairs(pairs) ==> CoveredBy(pair, month, through))
            <==> forall pair :: pair in pairs ==> CoveredBy(pair, month, through)
  {
    forall i | 0 <= i < |pairs| ensures CoveredBy(HidePairs(pairs)[i], month, through) <==> CoveredBy(pairs[i], month, through) {
    }
    if forall pair :: pair in HidePairs(pairs) ==> CoveredBy(pair, month, through) {
      forall pair | pair in pairs ensures CoveredBy(pair, month, through) {
        var i :| 0 <= i < |pairs| && pairs[i] == pair;
        assert HidePairs(pairs)[i] in HidePairs(pairs);
      }
    }
  }

  lemma {:induction false} HiddenMonth(pairs: seq<Pair>, month: Month, through: int)
    requires RevenueOnly(pairs)
    ensures TrendMonthOf(month, HidePairs(pairs), [], false, through) == TrendMonthOf(month, pairs, [], false, through)
  {
    HiddenPairSum(pairs, month.name);
    HiddenCoverage(pairs, month, through);
    assert HidePairs(pairs) + [] == HidePairs(pairs) && pairs + [] == pairs;
  }

  lemma {:induction false} HiddenTrend(stock: Stock, snapshots: seq<Snapshots>, months: seq<Month>, through: int)
    ensures TrendOf(HideStock(stock), HideAllSnapshots(snapshots), months, false, through) == TrendOf(stock, snapshots, months, false, through)
  {
    assert TrendStatuses(HideAllSnapshots(snapshots)) == TrendStatuses(snapshots);
    HiddenPairs(stock, snapshots);
    AllRevenueOnly(stock, snapshots);
    var pairs := AllPairs(stock, snapshots, [RevenueCode]);
    forall i | 0 <= i < |months|
      ensures TrendMonthOf(months[i], HidePairs(pairs), [], false, through) == TrendMonthOf(months[i], pairs, [], false, through)
    {
      HiddenMonth(pairs, months[i], through);
    }
  }

  lemma {:induction false} HiddenCounted(stock: Stock, snapshots: seq<Snapshots>, code: Code)
    requires !FinancialCode(code)
    ensures Counted(HideStock(stock), HideAllSnapshots(snapshots), code) == HideAllSnapshots(Counted(stock, snapshots, code))
  {
    if snapshots != [] {
      var init, last := snapshots[..|snapshots| - 1], snapshots[|snapshots| - 1];
      HiddenCounted(stock, init, code);
      HiddenParts(snapshots);
      HiddenLive(stock, last, code);
      HidingAppends(Counted(stock, init, code), last);
    }
  }

  lemma HiddenLive(stock: Stock, s: Snapshots, code: Code)
    ensures Live(HideStock(stock), HideSnapshots(s).company, code) <==> Live(stock, s.company, code)
  {
  }

  lemma HidingAppends(counted: seq<Snapshots>, last: Snapshots)
    ensures HideAllSnapshots(counted + [last]) == HideAllSnapshots(counted) + [HideSnapshots(last)]
    ensures HideAllSnapshots(counted + []) == HideAllSnapshots(counted) + []
  {
  }

  lemma {:induction false} HiddenPrevious(counted: seq<Snapshots>, code: Code, day: string)
    requires !FinancialCode(code)
    ensures SumPrevious(HideAllSnapshots(counted), code, day) == SumPrevious(counted, code, day)
  {
    if counted != [] {
      var init, last := counted[..|counted| - 1], counted[|counted| - 1];
      HiddenPrevious(init, code, day);
      HiddenParts(counted);
      HiddenPoint(last.previousStatus, last.previous, code, day);
    }
  }

  lemma {:induction false} HiddenMetric(metric: Metric, stock: Stock, snapshots: seq<Snapshots>, code: Code, day: string)
    requires !FinancialCode(code)
    ensures WithPrevious(metric, HideStock(stock), HideAllSnapshots(snapshots), code, day) == WithPrevious(metric, stock, snapshots, code, day)
  {
    HiddenCounted(stock, snapshots, code);
    HiddenPrevious(Counted(stock, snapshots, code), code, day);
  }

  lemma {:induction false} HiddenPositions(kpis: Kpis, stock: Stock, snapshots: seq<Snapshots>, day: string)
    ensures PreviousPositions(kpis, HideStock(stock), HideAllSnapshots(snapshots), day) == PreviousPositions(kpis, stock, snapshots, day)
  {
    HiddenMetric(kpis.receivables, stock, snapshots, Receivables, day);
    HiddenMetric(kpis.pipeline, stock, snapshots, Pipeline, day);
    HiddenMetric(kpis.clients, stock, snapshots, Clients, day);
    HiddenMetric(kpis.workUnits, stock, snapshots, WorkUnits, day);
    HiddenMetric(kpis.employees, stock, snapshots, Headcount, day);
  }

  lemma {:induction false} ResponseOfHidden(cs: seq<Company>, stock: Stock, snapshots: seq<Snapshots>, months: seq<Month>, day: string,
                                            through: int)
    ensures Respond(HideAll(cs), HideStock(stock), HideAllSnapshots(snapshots), months, day, false, through)
            == Respond(cs, stock, snapshots, months, day, false, through)
  {
    ScreenOfHidden(cs, stock.inventory);
    HiddenTrend(stock, snapshots, months, through);
    HiddenPositions(BuildScreen(cs, stock.inventory, false).headlines.kpis, stock, snapshots, day);
  }

  /**
   Without the permission the whole response, with its sort orders, trend, completeness and previous values, is the
   same for any two sets of answers and snapshots that differ only in what is financial.
  */
  lemma {:induction false} ResponseShowsNothingFinancial(a: seq<Company>, stockA: Stock, snapshotsA: seq<Snapshots>,
                                                         b: seq<Company>, stockB: Stock, snapshotsB: seq<Snapshots>,
                                                         months: seq<Month>, day: string, through: int)
    requires HideAll(a) == HideAll(b) && HideStock(stockA) == HideStock(stockB)
    requires HideAllSnapshots(snapshotsA) == HideAllSnapshots(snapshotsB)
    ensures Respond(a, stockA, snapshotsA, months, day, false, through) == Respond(b, stockB, snapshotsB, months, day, false, through)
  {
    ResponseOfHidden(a, stockA, snapshotsA, months, day, through);
    ResponseOfHidden(b, stockB, snapshotsB, months, day, through);
  }
}
