/** What the trend's months and the previous positions are: sums over the snapshots of the companies that count. */
module CeoTrendFigures {
  import opened Common
  import opened CeoScreen
  import opened CeoTrend

  // ------------------------------------------------------------------ a month of the trend

  /** What is added up: how many points there are, or their values. */
  datatype What = Points | Amounts

  /** One company's point for the month, if its own card was read and it has one. */
  function Point(what: What, read: bool, s: Snapshots, code: Code, month: string): int {
    if read && s.trendStatus.Ok? && code in s.trend && month in s.trend[code]
    then (if what.Points? then 1 else s.trend[code][month].value) else 0
  }

  function Revenue(what: What, snapshots: seq<Snapshots>, month: string): int {
    if snapshots == [] then 0
    else
      var last := snapshots[|snapshots| - 1];
      Revenue(what, snapshots[..|snapshots| - 1], month) + Point(what, last.company.revenue.status.Ok?, last, RevenueCode, month)
  }

  /** One company's payroll, project costs, purchases, asset costs and operating expenses; purchases if the stock is its own. */
  function Spending(what: What, stock: Stock, s: Snapshots, month: string): int {
    Point(what, s.company.people.status.Ok?, s, Payroll, month)
    + Point(what, s.company.delivery.status.Ok?, s, ProjectCosts, month)
    + Point(what, stock.inventory.status.Ok? && stock.company == Some(s.company.id), s, Procurement, month)
    + Point(what, s.company.assets.status.Ok?, s, AssetCosts, month)
    + Point(what, s.company.finance.status.Ok?, s, OperatingExpenses, month)
  }

  function Expenses(what: What, stock: Stock, snapshots: seq<Snapshots>, month: string): int {
    if snapshots == [] then 0
    else Expenses(what, stock, snapshots[..|snapshots| - 1], month) + Spending(what, stock, snapshots[|snapshots| - 1], month)
  }

  /** A sum of no points is unknown, not zero. */
  function KnownSum(points: int, amount: int): Option<int> {
    if points == 0 then None else Some(amount)
  }

  function PairsSum(what: What, pairs: seq<Pair>, month: string): int {
    if pairs == [] then 0
    else
      var last := pairs[|pairs| - 1];
      PairsSum(what, pairs[..|pairs| - 1], month) + Point(what, true, last.0, last.1, month)
  }

  lemma {:induction false} SumPairsIs(pairs: seq<Pair>, month: string)
    ensures SumPairs(pairs, month) == KnownSum(PairsSum(Points, pairs, month), PairsSum(Amounts, pairs, month))
    ensures PairsSum(Points, pairs, month) >= 0
    ensures PairsSum(Points, pairs, month) == 0 ==> PairsSum(Amounts, pairs, month) == 0
  {
    if pairs != [] {
      SumPairsIs(pairs[..|pairs| - 1], month);
    }
  }

  lemma {:induction false} PairsSumSplits(what: What, a: seq<Pair>, b: seq<Pair>, month: string)
    ensures PairsSum(what, a + b, month) == PairsSum(what, a, month) + PairsSum(what, b, month)
  {
    if b == [] {
      assert a + b == a;
    } else {
      PairsSumSplits(what, a, b[..|b| - 1], month);
      assert (a + b)[..|a + b| - 1] == a + b[..|b| - 1];
    }
  }

  lemma OneMorePair(what: What, pairs: seq<Pair>, pair: Pair, month: string)
    ensures PairsSum(what, pairs + [pair], month) == PairsSum(what, pairs, month) + Point(what, true, pair.0, pair.1, month)
  {
    assert (pairs + [pair])[..|pairs|] == pairs;
  }

  lemma OneMoreCode(what: What, stock: Stock, s: Snapshots, codes: seq<Code>, code: Code, month: string)
    ensures PairsSum(what, LivePairs(stock, s, codes + [code]), month)
            == PairsSum(what, LivePairs(stock, s, codes), month) + Point(what, Live(stock, s.company, code), s, code, month)
  {
    var pairs := LivePairs(stock, s, codes);
    assert (codes + [code])[..|codes|] == codes;
    OneMorePair(what, pairs, (s, code), month);
    assert pairs + [] == pairs;
  }

  lemma RevenueOfOne(what: What, stock: Stock, s: Snapshots, month: string)
    ensures PairsSum(what, LivePairs(stock, s, [RevenueCode]), month) == Point(what, s.company.revenue.status.Ok?, s, RevenueCode, month)
  {
    OneMoreCode(what, stock, s, [], RevenueCode, month);
    assert [] + [RevenueCode] == [RevenueCode];
  }

  lemma CostsOfOne(what: What, stock: Stock, s: Snapshots, month: string)
    ensures PairsSum(what, LivePairs(stock, s, [Payroll, ProjectCosts, Procurement]), month)
            == Point(what, s.company.people.status.Ok?, s, Payroll, month)
               + Point(what, s.company.delivery.status.Ok?, s, ProjectCosts, month)
               + Point(what, stock.inventory.status.Ok? && stock.company == Some(s.company.id), s, Procurement, month)
  {
    OneMoreCode(what, stock, s, [], Payroll, month);
    assert [] + [Payroll] == [Payroll];
    OneMoreCode(what, stock, s, [Payroll], ProjectCosts, month);
    assert [Payroll] + [ProjectCosts] == [Payroll, ProjectCosts];
    OneMoreCode(what, stock, s, [Payroll, ProjectCosts], Procurement, month);
    assert [Payroll, ProjectCosts] + [Procurement] == [Payroll, ProjectCosts, Procurement];
  }

  lemma ExpensesOfOne(what: What, stock: Stock, s: Snapshots, month: string)
    ensures PairsSum(what, LivePairs(stock, s, EXPENSE_CODES), month) == Spending(what, stock, s, month)
  {
    var costs := [Payroll, ProjectCosts, Procurement];
    CostsOfOne(what, stock, s, month);
    OneMoreCode(what, stock, s, costs, AssetCosts, month);
    OneMoreCode(what, stock, s, costs + [AssetCosts], OperatingExpenses, month);
    assert costs + [AssetCosts] + [OperatingExpenses] == EXPENSE_CODES;
  }

  lemma {:induction false} RevenueOfAll(what: What, stock: Stock, snapshots: seq<Snapshots>, month: string)
    ensures PairsSum(what, AllPairs(stock, snapshots, [RevenueCode]), month) == Revenue(what, snapshots, month)
  {
    if snapshots != [] {
      var init, last := snapshots[..|snapshots| - 1], snapshots[|snapshots| - 1];
      RevenueOfAll(what, stock, init, month);
      RevenueOfOne(what, stock, last, month);
      PairsSumSplits(what, AllPairs(stock, init, [RevenueCode]), LivePairs(stock, last, [RevenueCode]), month);
    }
  }

  lemma {:induction false} ExpensesOfAll(what: What, stock: Stock, snapshots: seq<Snapshots>, month: string)
    ensures PairsSum(what, AllPairs(stock, snapshots, EXPENSE_CODES), month) == Expenses(what, stock, snapshots, month)
  {
    if snapshots != [] {
      var init, last := snapshots[..|snapshots| - 1], snapshots[|snapshots| - 1];
      ExpensesOfAll(what, stock, init, month);
      ExpensesOfOne(what, stock, last, month);
      PairsSumSplits(what, AllPairs(stock, init, EXPENSE_CODES), LivePairs(stock, last, EXPENSE_CODES), month);
    }
  }

  function RevenueIn(snapshots: seq<Snapshots>, month: string): Option<int> {
    KnownSum(Revenue(Points, snapshots, month), Revenue(Amounts, snapshots, month))
  }

  function ExpensesIn(stock: Stock, snapshots: seq<Snapshots>, month: string): Option<int> {
    KnownSum(Expenses(Points, stock, snapshots, month), Expenses(Amounts, stock, snapshots, month))
  }

  lemma {:induction false} RevenueSum(stock: Stock, snapshots: seq<Snapshots>, month: string)
    ensures SumPairs(AllPairs(stock, snapshots, [RevenueCode]), month) == RevenueIn(snapshots, month)
  {
    SumPairsIs(AllPairs(stock, snapshots, [RevenueCode]), month);
    RevenueOfAll(Points, stock, snapshots, month);
    RevenueOfAll(Amounts, stock, snapshots, month);
  }

  lemma {:induction false} ExpensesSum(stock: Stock, snapshots: seq<Snapshots>, month: string)
    ensures SumPairs(AllPairs(stock, snapshots, EXPENSE_CODES), month) == ExpensesIn(stock, snapshots, month)
  {
    SumPairsIs(AllPairs(stock, snapshots, EXPENSE_CODES), month);
    ExpensesOfAll(Points, stock, snapshots, month);
    ExpensesOfAll(Amounts, stock, snapshots, month);
  }

  /** A month with its revenue, its expenses and, where both are known, the difference. */
  predicate MonthShows(m: TrendMonth, name: string, revenue: Option<int>, expenses: Option<int>) {
    && m.month == name && m.revenue == revenue && m.expenses == expenses
    && m.profit == if revenue.Some? && expenses.Some? then Some(revenue.value - expenses.value) else None
  }

  lemma MonthFrom(month: Month, revenuePairs: seq<Pair>, expensePairs: seq<Pair>, through: int)
    ensures MonthShows(TrendMonthOf(month, revenuePairs, expensePairs, true, through), month.name,
                       SumPairs(revenuePairs, month.name), SumPairs(expensePairs, month.name))
  {
  }

  lemma MonthOfTrend(stock: Stock, snapshots: seq<Snapshots>, months: seq<Month>, through: int, i: nat)
    requires i < |months| && StateOf(TrendStatuses(snapshots)).available
    ensures var trend := TrendOf(stock, snapshots, months, true, through);
            && |trend.months| == |months|
            && trend.months[i] == TrendMonthOf(months[i], AllPairs(stock, snapshots, [RevenueCode]),
                                               AllPairs(stock, snapshots, EXPENSE_CODES), true, through)
  {
  }

  /**
   A month's revenue and expenses are what the snapshots of the companies whose cards were read add up to, unknown where
   none has that month; its profit is the difference where both are known.
  */
  lemma {:induction false} MonthIs(stock: Stock, snapshots: seq<Snapshots>, months: seq<Month>, through: int, i: nat)
    requires i < |months| && StateOf(TrendStatuses(snapshots)).available
    ensures var trend, name := TrendOf(stock, snapshots, months, true, through), months[i].name;
            |trend.months| == |months|
            && MonthShows(trend.months[i], name, RevenueIn(snapshots, name), ExpensesIn(stock, snapshots, name))
  {
    RevenueSum(stock, snapshots, months[i].name);
    ExpensesSum(stock, snapshots, months[i].name);
    MonthFrom(months[i], AllPairs(stock, snapshots, [RevenueCode]), AllPairs(stock, snapshots, EXPENSE_CODES), through);
    MonthOfTrend(stock, snapshots, months, through, i);
  }

  lemma {:induction false} LivePairsAre(stock: Stock, s: Snapshots, codes: seq<Code>)
    ensures forall pair :: pair in LivePairs(stock, s, codes) <==> pair.0 == s && pair.1 in codes && Live(stock, s.company, pair.1)
  {
    if codes != [] {
      LivePairsAre(stock, s, codes[..|codes| - 1]);
      assert codes == codes[..|codes| - 1] + [codes[|codes| - 1]];
    }
  }

  lemma {:induction false} PairsAre(stock: Stock, snapshots: seq<Snapshots>, codes: seq<Code>)
    ensures forall pair :: pair in AllPairs(stock, snapshots, codes) <==>
                           pair.0 in snapshots && pair.1 in codes && Live(stock, pair.0.company, pair.1)
  {
    if snapshots != [] {
      var init, last := snapshots[..|snapshots| - 1], snapshots[|snapshots| - 1];
      PairsAre(stock, init, codes);
      LivePairsAre(stock, last, codes);
      assert snapshots == init + [last];
    }
  }

  /** The company counts for the code, and the month's figures are made of it. */
  ghost predicate Matters(stock: Stock, snapshots: seq<Snapshots>, s: Snapshots, code: Code) {
    s in snapshots && (code == RevenueCode || code in EXPENSE_CODES) && Live(stock, s.company, code)
  }

  /** The snapshot covers the month so far: one payroll run, or every day from its first to today or its last. */
  predicate Covers(s: Snapshots, code: Code, month: Month, through: int) {
    var days := if code == Payroll then 1 else (if month.last < through then month.last else through) - month.first + 1;
    && s.trendStatus.Ok? && code in s.trend && month.name in s.trend[code]
    && month.first <= through && 1 <= days <= s.trend[code][month.name].days
  }

  /** A month is complete when something counts and every snapshot that does covers it. */
  lemma {:induction false} CompleteExactlyWhen(stock: Stock, snapshots: seq<Snapshots>, months: seq<Month>, through: int, i: nat)
    requires i < |months| && StateOf(TrendStatuses(snapshots)).available
    ensures |TrendOf(stock, snapshots, months, true, through).months| == |months|
    ensures TrendOf(stock, snapshots, months, true, through).months[i].complete <==>
            && (exists s, code :: Matters(stock, snapshots, s, code))
            && forall s, code :: Matters(stock, snapshots, s, code) ==> Covers(s, code, months[i], through)
  {
    var revenue, expenses := AllPairs(stock, snapshots, [RevenueCode]), AllPairs(stock, snapshots, EXPENSE_CODES);
    PairsAre(stock, snapshots, [RevenueCode]);
    PairsAre(stock, snapshots, EXPENSE_CODES);
    var pairs := revenue + expenses;
    forall s, code ensures (s, code) in pairs <==> Matters(stock, snapshots, s, code) {
      assert (s, code) in pairs <==> (s, code) in revenue || (s, code) in expenses;
    }
    AllCovered(pairs, months[i], through);
    if pairs != [] {
      assert pairs[0] in pairs && Matters(stock, snapshots, pairs[0].0, pairs[0].1);
    }
  }

  lemma AllCovered(pairs: seq<Pair>, month: Month, through: int)
    ensures (forall pair :: pair in pairs ==> CoveredBy(pair, month, through)) <==>
            forall s, code :: (s, code) in pairs ==> Covers(s, code, month, through)
  {
    forall s, code ensures CoveredBy((s, code), month, through) <==> Covers(s, code, month, through) {
    }
    if forall s, code :: (s, code) in pairs ==> Covers(s, code, month, through) {
      forall pair | pair in pairs ensures CoveredBy(pair, month, through) {
        assert pair == (pair.0, pair.1);
      }
    }
  }

  // ------------------------------------------------------------------ previous positions

  predicate Recorded(s: Snapshots, code: Code, day: string) {
    s.previousStatus.Ok? && code in s.previous && day in s.previous[code]
  }

  /** The companies whose revenue card was read, and so on for the others. */
  function ByRevenue(): Company -> bool { (c: Company) => c.revenue.status.Ok? }
  function ByPeople(): Company -> bool { (c: Company) => c.people.status.Ok? }
  function ByDelivery(): Company -> bool { (c: Company) => c.delivery.status.Ok? }

  /** Some company counts, and each that does has a snapshot of that day. */
  ghost predicate AllRecorded(snapshots: seq<Snapshots>, counts: Company -> bool, code: Code, day: string) {
    && (exists s :: s in snapshots && counts(s.company))
    && forall s :: s in snapshots && counts(s.company) ==> Recorded(s, code, day)
  }

  function RecordedTotal(snapshots: seq<Snapshots>, counts: Company -> bool, code: Code, day: string): int {
    if snapshots == [] then 0
    else
      var last := snapshots[|snapshots| - 1];
      RecordedTotal(snapshots[..|snapshots| - 1], counts, code, day)
      + (if counts(last.company) && Recorded(last, code, day) then last.previous[code][day].value else 0)
  }

  lemma {:induction false} CountedAre(stock: Stock, snapshots: seq<Snapshots>, counts: Company -> bool, code: Code)
    requires forall c :: counts(c) == Live(stock, c, code)
    ensures forall s :: s in Counted(stock, snapshots, code) <==> s in snapshots && counts(s.company)
  {
    if snapshots != [] {
      var init, last := snapshots[..|snapshots| - 1], snapshots[|snapshots| - 1];
      CountedAre(stock, init, counts, code);
      assert forall s :: s in snapshots <==> s in init || s == last;
    }
  }

  lemma {:induction false} PreviousSum(counted: seq<Snapshots>, code: Code, day: string)
    ensures SumPrevious(counted, code, day).Some? <==> forall s :: s in counted ==> Recorded(s, code, day)
  {
    if counted != [] {
      var init, last := counted[..|counted| - 1], counted[|counted| - 1];
      PreviousSum(init, code, day);
      assert PointOf(last.previousStatus, last.previous, code, day).Some? <==> Recorded(last, code, day);
      assert last in counted && forall s :: s in counted <==> s in init || s == last;
    }
  }

  lemma OneMorePrevious(counted: seq<Snapshots>, last: Snapshots, code: Code, day: string)
    requires SumPrevious(counted + [last], code, day).Some?
    ensures SumPrevious(counted, code, day).Some? && Recorded(last, code, day)
    ensures SumPrevious(counted + [last], code, day).value == SumPrevious(counted, code, day).value + last.previous[code][day].value
  {
    assert (counted + [last])[..|counted|] == counted;
  }

  lemma OneMoreCounted(stock: Stock, snapshots: seq<Snapshots>, code: Code)
    requires snapshots != []
    ensures var init, last := Counted(stock, snapshots[..|snapshots| - 1], code), snapshots[|snapshots| - 1];
            Counted(stock, snapshots, code) == if Live(stock, last.company, code) then init + [last] else init
  {
    assert Counted(stock, snapshots[..|snapshots| - 1], code) + [] == Counted(stock, snapshots[..|snapshots| - 1], code);
  }

  lemma {:induction false} CountedTotal(stock: Stock, snapshots: seq<Snapshots>, counts: Company -> bool, code: Code, day: string)
    requires forall c :: counts(c) == Live(stock, c, code)
    requires SumPrevious(Counted(stock, snapshots, code), code, day).Some?
    ensures SumPrevious(Counted(stock, snapshots, code), code, day).value == RecordedTotal(snapshots, counts, code, day)
  {
    if snapshots != [] {
      var last, counted := snapshots[|snapshots| - 1], Counted(stock, snapshots[..|snapshots| - 1], code);
      assert counts(last.company) == Live(stock, last.company, code);
      OneMoreCounted(stock, snapshots, code);
      if counts(last.company) {
        OneMorePrevious(counted, last, code, day);
      }
      CountedTotal(stock, snapshots[..|snapshots| - 1], counts, code, day);
    }
  }

  lemma {:induction false} RecordedExactly(stock: Stock, snapshots: seq<Snapshots>, counts: Company -> bool, code: Code, day: string)
    requires forall c :: counts(c) == Live(stock, c, code)
    ensures var counted := Counted(stock, snapshots, code);
            counted != [] && SumPrevious(counted, code, day).Some? <==> AllRecorded(snapshots, counts, code, day)
  {
    var counted := Counted(stock, snapshots, code);
    CountedAre(stock, snapshots, counts, code);
    PreviousSum(counted, code, day);
    assert counted != [] ==> counted[0] in counted;
  }

  /** A shown value gets the sum of the day's snapshots as its previous one, if every company that counts has one. */
  ghost predicate HasPrevious(before: Metric, after: Metric, snapshots: seq<Snapshots>, counts: Company -> bool, code: Code, day: string) {
    && after.state == before.state
    && after.value == match before.value
                      case None => None
                      case Some(shown) =>
                        if AllRecorded(snapshots, counts, code, day)
                        then Some(Amount(shown.amount, Some(RecordedTotal(snapshots, counts, code, day))))
                        else Some(shown)
  }

  lemma {:induction false} PreviousIs(metric: Metric, stock: Stock, snapshots: seq<Snapshots>, counts: Company -> bool, code: Code, day: string)
    requires forall c :: counts(c) == Live(stock, c, code)
    ensures HasPrevious(metric, WithPrevious(metric, stock, snapshots, code, day), snapshots, counts, code, day)
  {
    var counted := Counted(stock, snapshots, code);
    RecordedExactly(stock, snapshots, counts, code, day);
    if SumPrevious(counted, code, day).Some? {
      CountedTotal(stock, snapshots, counts, code, day);
    }
  }

  /** The positions get their previous values from the snapshots of their own service; the other figures stay. */
  lemma {:induction false} PositionsAre(kpis: Kpis, stock: Stock, snapshots: seq<Snapshots>, day: string)
    ensures var after := PreviousPositions(kpis, stock, snapshots, day);
            && HasPrevious(kpis.receivables, after.receivables, snapshots, ByRevenue(), Receivables, day)
            && HasPrevious(kpis.pipeline, after.pipeline, snapshots, ByRevenue(), Pipeline, day)
            && HasPrevious(kpis.clients, after.clients, snapshots, ByRevenue(), Clients, day)
            && HasPrevious(kpis.workUnits, after.workUnits, snapshots, ByDelivery(), WorkUnits, day)
            && HasPrevious(kpis.employees, after.employees, snapshots, ByPeople(), Headcount, day)
            && after.revenue == kpis.revenue && after.health == kpis.health && after.expenses == kpis.expenses && after.profit == kpis.profit
  {
    PreviousIs(kpis.receivables, stock, snapshots, ByRevenue(), Receivables, day);
    PreviousIs(kpis.pipeline, stock, snapshots, ByRevenue(), Pipeline, day);
    PreviousIs(kpis.clients, stock, snapshots, ByRevenue(), Clients, day);
    PreviousIs(kpis.workUnits, stock, snapshots, ByDelivery(), WorkUnits, day);
    PreviousIs(kpis.employees, stock, snapshots, ByPeople(), Headcount, day);
  }
}
