/**
 What the CEO screen's figures are with the financials permission: sums over the companies whose service answered,
 and unknown where none did. The references add up the sources one by one.
*/
module CeoFigures {
  import opened Common
  import opened Sorting
  import opened CeoScreen
  import opened CeoTotals

  /** A figure over all the sources that answered and hold it. */
  function Total(results: seq<Source>, f: Figure): int {
    if results == [] then 0
    else
      var last := results[|results| - 1];
      Total(results[..|results| - 1], f) + (if last.status.Ok? && f in last.row.figures then last.row.figures[f] else 0)
  }

  ghost predicate AnyAnswered(results: seq<Source>) {
    exists r :: r in results && r.status.Ok?
  }

  function Silences(results: seq<Source>): nat {
    if results == [] then 0
    else Silences(results[..|results| - 1]) + (if results[|results| - 1].status.Ok? then 0 else 1)
  }

  lemma {:induction false} OkRowsAre(results: seq<Source>)
    ensures OkRows(results) != [] <==> AnyAnswered(results)
    ensures |results| - |OkRows(results)| == Silences(results)
    ensures forall f :: Sum(OkRows(results), f) == Total(results, f)
  {
    if results != [] {
      var init, last := results[..|results| - 1], results[|results| - 1];
      OkRowsAre(init);
      assert forall r :: r in results <==> r in init || r == last;
      if last.status.Ok? {
        assert OkRows(results)[..|OkRows(results)| - 1] == OkRows(init);
      } else {
        assert OkRows(results) == OkRows(init);
      }
    }
  }

  lemma {:induction false} ReadIs(results: seq<Source>)
    ensures AddOk(results).any <==> AnyAnswered(results)
    ensures forall f :: AddOk(results).Sum(f) == Total(results, f)
    ensures StateOf(results).available <==> AnyAnswered(results)
    ensures AnyAnswered(results) ==> StateOf(results) == State(true, None, Silences(results))
  {
    OkRowsAre(results);
  }

  /** Why a card is not there: nobody may see it, it is set up nowhere, or some service could not answer. */
  lemma {:induction false} ReasonIs(results: seq<Source>)
    requires !AnyAnswered(results)
    ensures var state := StateOf(results);
            && !state.available && state.missing == 0
            && (state.reason == Some(NoAccess) <==> results != [] && forall r :: r in results ==> r.status == NoAccess)
            && (state.reason == Some(NotSetUp) <==> results != [] && forall r :: r in results ==> r.status == NotSetUp)
            && (state.reason == Some(NoAccess) || state.reason == Some(NotSetUp) || state.reason == Some(Unavailable))
  {
    OkRowsAre(results);
    assert results != [] ==> results[0] in results;
  }

  /** A figure with its previous value, where some source answered. */
  ghost function BothIf(results: seq<Source>, current: Figure, previous: Figure): Option<Amount> {
    if AnyAnswered(results) then Some(Amount(Total(results, current), Some(Total(results, previous)))) else None
  }

  ghost function NowIf(results: seq<Source>, f: Figure): Option<Amount> {
    if AnyAnswered(results) then Some(Amount(Total(results, f), None)) else None
  }

  ghost function CountIf(results: seq<Source>, f: Figure): Option<int> {
    if AnyAnswered(results) then Some(Total(results, f)) else None
  }

  // ------------------------------------------------------------------ headline numbers

  /** Each headline number is its figure added up over the answers of its own service. */
  lemma {:induction false} HeadlinesAre(cs: seq<Company>, inventory: Source, financials: bool)
    ensures var kpis := BuildScreen(cs, inventory, financials).headlines.kpis;
            && kpis.revenue.value == BothIf(RevenueOf(cs), REVENUE, REVENUE_PREVIOUS)
            && kpis.pipeline.value == NowIf(RevenueOf(cs), PIPELINE)
            && kpis.receivables.value == NowIf(RevenueOf(cs), RECEIVABLES)
            && kpis.clients.value == NowIf(RevenueOf(cs), CLIENTS)
            && kpis.workUnits.value == NowIf(DeliveryOf(cs), RUNNING)
            && kpis.employees.value == NowIf(PeopleOf(cs), HEADCOUNT)
  {
    ReadIs(RevenueOf(cs));
    ReadIs(DeliveryOf(cs));
    ReadIs(PeopleOf(cs));
  }

  lemma {:induction false} SumIfIs(results: seq<Source>, f: Figure)
    ensures SumIf(AddOk(results), f) == CountIf(results, f)
  {
    ReadIs(results);
  }

  lemma FigIfIs(source: Source, f: Figure)
    ensures FigIf(source, f) == CountIf([source], f)
  {
    assert [source][..0] == [] && Total([source][..0], f) == 0;
    assert source in [source];
  }

  /** Each alert is a count over the answers of its own service; the one about expenses needs the permission. */
  lemma {:induction false} AlertsAre(cs: seq<Company>, inventory: Source, financials: bool)
    ensures var alerts := BuildScreen(cs, inventory, financials).headlines.alerts;
            && alerts.overdue == CountIf(RevenueOf(cs), OVERDUE)
            && alerts.renewalsDue == CountIf(RevenueOf(cs), AMC_RENEWALS)
            && alerts.atRisk == CountIf(DeliveryOf(cs), AT_RISK)
            && alerts.openRepairs == CountIf([inventory], OPEN_REPAIRS)
            && alerts.expensesPending == if financials then CountIf(FinanceOf(cs), PENDING_COUNT) else None
  {
    SumIfIs(RevenueOf(cs), OVERDUE);
    SumIfIs(RevenueOf(cs), AMC_RENEWALS);
    SumIfIs(DeliveryOf(cs), AT_RISK);
    SumIfIs(FinanceOf(cs), PENDING_COUNT);
    FigIfIs(inventory, OPEN_REPAIRS);
  }

  // ------------------------------------------------------------------ companies

  /** A company's line: a figure of each service that answered for it, unknown for one that did not. */
  predicate LineOf(row: CompanyRow, c: Company) {
    && row.id == c.id && row.name == c.name && row.relationship == c.relationship
    && (row.revenue.Some? <==> c.revenue.status.Ok?) && (row.receivables.Some? <==> c.revenue.status.Ok?)
    && (row.active.Some? <==> c.delivery.status.Ok?) && (row.atRisk.Some? <==> c.delivery.status.Ok?)
    && (row.headcount.Some? <==> c.people.status.Ok?)
    && (c.revenue.status.Ok? ==>
          && row.revenue.value == Amount(Fig(c.revenue.row, REVENUE), Some(Fig(c.revenue.row, REVENUE_PREVIOUS)))
          && row.receivables.value == Fig(c.revenue.row, RECEIVABLES))
    && (c.delivery.status.Ok? ==> row.active.value == Fig(c.delivery.row, RUNNING) && row.atRisk.value == Fig(c.delivery.row, AT_RISK))
    && (c.people.status.Ok? ==> row.headcount.value == Fig(c.people.row, HEADCOUNT))
  }

  lemma RicherFirstIsOrder()
    ensures Order(RicherFirst())
  {
  }

  /** Every company has its line, and no other line is there; the one with the larger revenue comes first. */
  lemma {:induction false} CompaniesAre(cs: seq<Company>)
    ensures var rows := CompaniesSectionOf(cs).rows;
            && |rows| == |cs|
            && (forall c :: c in cs ==> exists row :: row in rows && LineOf(row, c))
            && (forall row :: row in rows ==> exists c :: c in cs && LineOf(row, c))
            && forall i, j :: 0 <= i < j < |rows| ==> RowRevenue(rows[i]) >= RowRevenue(rows[j])
  {
    var lines := CompanyRows(cs);
    SortHas(RicherFirst(), lines);
    RicherFirstIsOrder();
    SortSorts(RicherFirst(), lines);
    var rows := Sort(RicherFirst(), lines);
    forall c | c in cs ensures exists row :: row in rows && LineOf(row, c) {
      var i :| 0 <= i < |cs| && cs[i] == c;
      assert lines[i] in lines && LineOf(lines[i], c);
    }
    forall row | row in rows ensures exists c :: c in cs && LineOf(row, c) {
      assert row in lines;
      var i :| 0 <= i < |lines| && lines[i] == row;
      assert LineOf(row, cs[i]);
    }
    forall i, j | 0 <= i < j < |rows| ensures RowRevenue(rows[i]) >= RowRevenue(rows[j]) {
      assert RicherFirst()(rows[i], rows[j]);
    }
  }

  // ------------------------------------------------------------------ cards

  /** The work card's figures over the deliveries answered, and the people card's over the people services'. */
  lemma {:induction false} WorkCardsAre(cs: seq<Company>, inventory: Source, financials: bool)
    ensures var work, results := BuildScreen(cs, inventory, financials).work.delivery, DeliveryOf(cs);
            && work.running == Total(results, RUNNING) && work.atRisk == Total(results, AT_RISK) && work.late == Total(results, LATE)
            && work.costs == if financials then BothIf(results, COSTS, COSTS_PREVIOUS) else None
    ensures var people, results := BuildScreen(cs, inventory, financials).work.people, PeopleOf(cs);
            && people.headcount == Total(results, HEADCOUNT) && people.onLeave == Total(results, ON_LEAVE)
            && people.workingToday == [Total(results, OFFICE), Total(results, IN_FIELD), Total(results, REMOTE), Total(results, NOT_SAID)]
            && people.payroll == if financials then BothIf(results, PAYROLL, PAYROLL_PREVIOUS) else None
  {
    ReadIs(DeliveryOf(cs));
    ReadIs(PeopleOf(cs));
  }

  /** The asset and finance cards' figures over those services' answers. */
  lemma {:induction false} MoneyCardsAre(cs: seq<Company>, inventory: Source)
    ensures var assets, results := BuildScreen(cs, inventory, true).money.assets, AssetsOf(cs);
            && assets.costs == BothIf(results, COSTS, COSTS_PREVIOUS) && assets.software == Total(results, SOFTWARE_COSTS)
            && assets.subscriptions == Total(results, SUBSCRIPTIONS) && assets.monthly == Total(results, SUBSCRIPTIONS_MONTHLY)
    ensures var finance, results := BuildScreen(cs, inventory, true).money.finance, FinanceOf(cs);
            && finance.expenses == BothIf(results, EXPENSES, EXPENSES_PREVIOUS)
            && finance.income == BothIf(results, INCOME, INCOME_PREVIOUS)
            && finance.unpaid == Total(results, UNPAID)
            && finance.pending == Total(results, PENDING_COUNT) && finance.pendingAmount == Total(results, PENDING_AMOUNT)
  {
    ReadIs(AssetsOf(cs));
    ReadIs(FinanceOf(cs));
  }

  /** A figure over the answers that hold a budget. */
  function BudgetTotal(rows: seq<Row>, f: Figure): int {
    if rows == [] then 0
    else BudgetTotal(rows[..|rows| - 1], f) + (if rows[|rows| - 1].hasBudget then Fig(rows[|rows| - 1], f) else 0)
  }

  lemma SumOneMore(rows: seq<Row>, last: Row, f: Figure)
    ensures Sum(rows + [last], f) == Sum(rows, f) + Fig(last, f)
  {
    assert (rows + [last])[..|rows|] == rows;
  }

  lemma WithBudgetOneMore(rows: seq<Row>)
    requires rows != []
    ensures var before, last := WithBudget(rows[..|rows| - 1]), rows[|rows| - 1];
            WithBudget(rows) == if last.hasBudget then before + [last] else before
  {
    assert WithBudget(rows[..|rows| - 1]) + [] == WithBudget(rows[..|rows| - 1]);
  }

  lemma {:induction false} BudgetsAre(rows: seq<Row>, f: Figure)
    ensures Sum(WithBudget(rows), f) == BudgetTotal(rows, f)
  {
    if rows != [] {
      var init, last := rows[..|rows| - 1], rows[|rows| - 1];
      BudgetsAre(init, f);
      WithBudgetOneMore(rows);
      SumOneMore(WithBudget(init), last, f);
    }
  }

  /** The budget card adds up the companies that have one. */
  lemma {:induction false} BudgetIs(results: seq<Source>)
    ensures var budget, rows := BudgetSectionOf(results), OkRows(results);
            budget.state.available ==>
              budget.approved == BudgetTotal(rows, BUDGET_APPROVED) && budget.actual == BudgetTotal(rows, BUDGET_ACTUAL)
  {
    BudgetsAre(OkRows(results), BUDGET_APPROVED);
    BudgetsAre(OkRows(results), BUDGET_ACTUAL);
  }

  /** A company counts towards the group's health when its answer came and holds a score. */
  function HealthOf(c: Company): Option<Health> {
    if c.management.status.Ok? then c.management.row.health else None
  }

  function ScoredCount(cs: seq<Company>): int {
    if cs == [] then 0 else ScoredCount(cs[..|cs| - 1]) + (if HealthOf(cs[|cs| - 1]).Some? then 1 else 0)
  }

  function ScoreTotal(cs: seq<Company>): int {
    if cs == [] then 0
    else
      var last := HealthOf(cs[|cs| - 1]);
      ScoreTotal(cs[..|cs| - 1]) + (if last.Some? then last.value.score else 0)
  }

  lemma OneMoreScore(scored: seq<(OrgId, Health)>, last: (OrgId, Health))
    ensures AddScores(scored + [last]).count == AddScores(scored).count + 1
    ensures AddScores(scored + [last]).total == AddScores(scored).total + last.1.score
  {
    assert (scored + [last])[..|scored|] == scored;
  }

  lemma {:induction false} ScoredAre(cs: seq<Company>)
    ensures |Scored(cs)| == ScoredCount(cs)
    ensures AddScores(Scored(cs)).count == ScoredCount(cs) && AddScores(Scored(cs)).total == ScoreTotal(cs)
  {
    if cs != [] {
      var init, last := cs[..|cs| - 1], cs[|cs| - 1];
      ScoredAre(init);
      if HealthOf(last).Some? {
        OneMoreScore(Scored(init), (last.id, HealthOf(last).value));
      } else {
        assert Scored(cs) == Scored(init) + [] == Scored(init);
      }
    }
  }

  lemma {:induction false} ScoredAnswered(cs: seq<Company>)
    ensures ScoredCount(cs) > 0 ==> AnyAnswered(ManagementOf(cs))
  {
    if cs != [] {
      var init := cs[..|cs| - 1];
      ScoredAnswered(init);
      var results := ManagementOf(cs);
      assert results[|cs| - 1] in results && forall i :: 0 <= i < |init| ==> ManagementOf(init)[i] == results[i];
      forall r | r in ManagementOf(init) ensures r in results {
        var i :| 0 <= i < |init| && ManagementOf(init)[i] == r;
        assert results[i] == r;
      }
    }
  }

  /** The group's health is the plain average over the scored companies, and its label the band that average falls in. */
  lemma {:induction false} HealthIsTheAverage(cs: seq<Company>)
    ensures var health, count, total := HealthSectionOf(cs), ScoredCount(cs), ScoreTotal(cs);
            && (health.scores.Some? <==> count > 0)
            && (count > 0 ==>
                  && health.scores.value.count == count && health.scores.value.total == total
                  && (health.healthLabel == "excellent" <==> 2 * total >= 1699 * count)
                  && (health.healthLabel == "good" <==> 1399 * count <= 2 * total < 1699 * count)
                  && (health.healthLabel == "needs_attention" <==> 999 * count <= 2 * total < 1399 * count)
                  && (health.healthLabel == "critical" <==> 2 * total < 999 * count))
  {
    ScoredAre(cs);
    ScoredAnswered(cs);
    ReadIs(ManagementOf(cs));
    assert "excellent" != "good" && "excellent" != "needs_attention" && "excellent" != "critical";
    assert "good"[0] != "needs_attention"[0] && "good"[0] != "critical"[0] && "needs_attention"[0] != "critical"[0];
  }

  // ------------------------------------------------------------------ associates

  /** Whether the revenue of every project given away is known. */
  ghost predicate RevenueKnown(cs: seq<Company>) {
    forall c :: c in cs && c.delivery.status.Ok? && c.delivery.row.partners != [] ==> c.revenue.status.Ok?
  }

  lemma {:induction false} MarginsAddUp(rows: seq<AssociateRow>)
    requires forall row :: row in rows ==> row.margin.GetOr(0) == row.revenue.GetOr(0) - row.paid.GetOr(0)
    ensures AddRows(rows).margin == AddRows(rows).revenue - AddRows(rows).paid
  {
    if rows != [] {
      assert rows[|rows| - 1] in rows;
      MarginsAddUp(rows[..|rows| - 1]);
    }
  }

  /** The row of one associate, out of all the work given to it. */
  predicate RowShows(row: AssociateRow, work: Work, known: bool) {
    && row.projects == work.projects && row.running == work.running && row.paid == Some(work.paid)
    && row.revenue == (if known then Some(work.revenue) else None)
    && row.margin == if known then Some(work.revenue - work.paid) else None
  }

  /** One row for each associate. */
  ghost predicate RowsShow(rows: seq<AssociateRow>, a: Associates, known: bool) {
    && |rows| == |a.orgs|
    && (forall org :: org in a.work <==> exists row :: row in rows && row.org == org)
    && forall row :: row in rows ==> row.org in a.work && RowShows(row, a.work[row.org], known)
  }

  lemma RowsAreShown(cs: seq<Company>, a: Associates, known: bool)
    requires forall org :: org in a.orgs <==> org in a.work
    ensures RowsShow(AssociateRows(cs, a, true, known), a, known)
  {
    var rows := AssociateRows(cs, a, true, known);
    forall i | 0 <= i < |rows| ensures rows[i].org == a.orgs[i] && rows[i].org in a.work && RowShows(rows[i], a.work[rows[i].org], known) {
      assert a.orgs[i] in a.orgs;
    }
    forall org | org in a.work ensures exists row :: row in rows && row.org == org {
      var i :| 0 <= i < |a.orgs| && a.orgs[i] == org;
      assert rows[i] in rows;
    }
  }

  lemma {:induction false} SortedRowsShow(rows: seq<AssociateRow>, a: Associates, known: bool)
    requires RowsShow(rows, a, known)
    ensures RowsShow(Sort(BusierFirst(), rows), a, known)
  {
    SortHas(BusierFirst(), rows);
  }

  lemma {:induction false} RowsOfAll(cs: seq<Company>)
    ensures RowsShow(AssociateRows(cs, AssociatesOf(cs), true, RevenueKnown(cs)), AssociatesOf(cs), RevenueKnown(cs))
  {
    AssociatesAddUp(cs);
    RowsAreShown(cs, AssociatesOf(cs), RevenueKnown(cs));
  }

  /** The section's whole figures are its rows added up. */
  predicate AddsUpTo(shown: AssociatesSection, rows: seq<AssociateRow>, known: bool) {
    var whole := AddRows(rows);
    && shown.rows == rows && shown.paid == Some(whole.paid)
    && (known ==> shown.revenue == Some(whole.revenue) && shown.margin == Some(whole.margin))
  }

  lemma {:induction false} SectionRows(cs: seq<Company>)
    requires AnyAnswered(DeliveryOf(cs))
    ensures AddsUpTo(AssociatesSectionOf(cs, true),
                     Sort(BusierFirst(), AssociateRows(cs, AssociatesOf(cs), true, RevenueKnown(cs))), RevenueKnown(cs))
  {
    ReadIs(DeliveryOf(cs));
  }

  /**
   With the permission each associate given work has one row, with all of it; its margin is what its projects brought
   less what it was paid, where the revenue of every project given away is known.
  */
  lemma {:induction false} AssociatesShown(cs: seq<Company>)
    requires AnyAnswered(DeliveryOf(cs))
    ensures RowsShow(AssociatesSectionOf(cs, true).rows, AssociatesOf(cs), RevenueKnown(cs))
  {
    SectionRows(cs);
    RowsOfAll(cs);
    SortedRowsShow(AssociateRows(cs, AssociatesOf(cs), true, RevenueKnown(cs)), AssociatesOf(cs), RevenueKnown(cs));
  }

  lemma MarginOfRows(rows: seq<AssociateRow>, a: Associates)
    requires RowsShow(rows, a, true)
    ensures AddRows(rows).margin == AddRows(rows).revenue - AddRows(rows).paid
  {
    forall row | row in rows ensures row.margin.GetOr(0) == row.revenue.GetOr(0) - row.paid.GetOr(0) {
      assert RowShows(row, a.work[row.org], true);
    }
    MarginsAddUp(rows);
  }

  lemma {:induction false} MarginOfAll(cs: seq<Company>)
    requires RevenueKnown(cs)
    ensures var whole := AddRows(Sort(BusierFirst(), AssociateRows(cs, AssociatesOf(cs), true, RevenueKnown(cs))));
            whole.margin == whole.revenue - whole.paid
  {
    var a, rows := AssociatesOf(cs), AssociateRows(cs, AssociatesOf(cs), true, RevenueKnown(cs));
    RowsOfAll(cs);
    SortedRowsShow(rows, a, true);
    MarginOfRows(Sort(BusierFirst(), rows), a);
  }

  predicate MarginIsTheDifference(shown: AssociatesSection) {
    shown.revenue.Some? && shown.paid.Some? && shown.margin == Some(shown.revenue.value - shown.paid.value)
  }

  lemma MarginOfSection(shown: AssociatesSection, rows: seq<AssociateRow>)
    requires AddsUpTo(shown, rows, true) && AddRows(rows).margin == AddRows(rows).revenue - AddRows(rows).paid
    ensures MarginIsTheDifference(shown)
  {
  }

  /** So is the whole margin, over all the associates. */
  lemma {:induction false} WholeMargin(cs: seq<Company>)
    requires AnyAnswered(DeliveryOf(cs)) && RevenueKnown(cs)
    ensures MarginIsTheDifference(AssociatesSectionOf(cs, true))
  {
    SectionRows(cs);
    MarginOfAll(cs);
    MarginOfSection(AssociatesSectionOf(cs, true), Sort(BusierFirst(), AssociateRows(cs, AssociatesOf(cs), true, RevenueKnown(cs))));
  }

  // ------------------------------------------------------------------ expenses and profit

  ghost predicate AnySpending(cs: seq<Company>, inventory: Source) {
    || AnyAnswered(PeopleOf(cs)) || AnyAnswered(DeliveryOf(cs)) || AnyAnswered([inventory])
    || AnyAnswered(AssetsOf(cs)) || AnyAnswered(FinanceOf(cs))
  }

  /** Payroll, project costs, purchases, asset costs and operating expenses. */
  function Spent(cs: seq<Company>, inventory: Source): int {
    Total(PeopleOf(cs), PAYROLL) + Total(DeliveryOf(cs), COSTS) + Total([inventory], COMMITTED)
    + Total(AssetsOf(cs), COSTS) + Total(FinanceOf(cs), EXPENSES)
  }

  function SpentBefore(cs: seq<Company>, inventory: Source): int {
    Total(PeopleOf(cs), PAYROLL_PREVIOUS) + Total(DeliveryOf(cs), COSTS_PREVIOUS) + Total([inventory], COMMITTED_PREVIOUS)
    + Total(AssetsOf(cs), COSTS_PREVIOUS) + Total(FinanceOf(cs), EXPENSES_PREVIOUS)
  }

  lemma {:induction false} SilentTotal(results: seq<Source>, f: Figure)
    ensures !AnyAnswered(results) ==> Total(results, f) == 0
  {
    if results != [] {
      var init, last := results[..|results| - 1], results[|results| - 1];
      SilentTotal(init, f);
      assert last in results && forall r :: r in init ==> r in results;
    }
  }

  lemma {:induction false} ComponentIs(results: seq<Source>, current: Figure, previous: Figure)
    ensures Component(results, current, previous) == BothIf(results, current, previous)
    ensures !AnyAnswered(results) ==> Total(results, current) == 0 && Total(results, previous) == 0
  {
    ReadIs(results);
    SilentTotal(results, current);
    SilentTotal(results, previous);
  }

  lemma {:induction false} FiveAdded(a: Option<Amount>, b: Option<Amount>, c: Option<Amount>, d: Option<Amount>, e: Option<Amount>)
    ensures var total := AddComponents([a, b, c, d, e]);
            && total.amount == AmountIn(a) + AmountIn(b) + AmountIn(c) + AmountIn(d) + AmountIn(e)
            && total.previous == Some(PreviousIn(a) + PreviousIn(b) + PreviousIn(c) + PreviousIn(d) + PreviousIn(e))
  {
    TwoAdded(a, b);
    OneAdded([a, b], c);
    assert [a, b] + [c] == [a, b, c];
    OneAdded([a, b, c], d);
    assert [a, b, c] + [d] == [a, b, c, d];
    OneAdded([a, b, c, d], e);
    assert [a, b, c, d] + [e] == [a, b, c, d, e];
  }

  lemma {:induction false} TwoAdded(a: Option<Amount>, b: Option<Amount>)
    ensures var total := AddComponents([a, b]);
            total.amount == AmountIn(a) + AmountIn(b) && total.previous == Some(PreviousIn(a) + PreviousIn(b))
  {
    OneAdded([], a);
    assert [] + [a] == [a];
    OneAdded([a], b);
    assert [a] + [b] == [a, b];
  }

  function AmountIn(component: Option<Amount>): int {
    if component.Some? then component.value.amount else 0
  }

  function PreviousIn(component: Option<Amount>): int {
    if component.Some? then component.value.previous.GetOr(0) else 0
  }

  lemma {:induction false} OneAdded(init: seq<Option<Amount>>, last: Option<Amount>)
    ensures var before, after := AddComponents(init), AddComponents(init + [last]);
            && after.amount == before.amount + AmountIn(last)
            && after.previous == Some(before.previous.GetOr(0) + PreviousIn(last))
  {
    assert (init + [last])[..|init|] == init;
    PreviousIsKnown(init);
  }

  lemma {:induction false} PreviousIsKnown(components: seq<Option<Amount>>)
    ensures AddComponents(components).previous.Some?
  {
    if components != [] {
      PreviousIsKnown(components[..|components| - 1]);
    }
  }

  /** The five parts, each its own service's; unknown where no company's answered. */
  ghost function Parts(cs: seq<Company>, inventory: Source): seq<Option<Amount>> {
    [BothIf(PeopleOf(cs), PAYROLL, PAYROLL_PREVIOUS), BothIf(DeliveryOf(cs), COSTS, COSTS_PREVIOUS),
     BothIf([inventory], COMMITTED, COMMITTED_PREVIOUS), BothIf(AssetsOf(cs), COSTS, COSTS_PREVIOUS),
     BothIf(FinanceOf(cs), EXPENSES, EXPENSES_PREVIOUS)]
  }

  lemma {:induction false} PartsAre(cs: seq<Company>, inventory: Source)
    ensures ExpensesSectionOf(cs, inventory).components == Parts(cs, inventory)
  {
    ComponentIs(PeopleOf(cs), PAYROLL, PAYROLL_PREVIOUS);
    ComponentIs(DeliveryOf(cs), COSTS, COSTS_PREVIOUS);
    ComponentIs([inventory], COMMITTED, COMMITTED_PREVIOUS);
    ComponentIs(AssetsOf(cs), COSTS, COSTS_PREVIOUS);
    ComponentIs(FinanceOf(cs), EXPENSES, EXPENSES_PREVIOUS);
  }

  lemma {:induction false} PartIs(results: seq<Source>, current: Figure, previous: Figure)
    ensures AmountIn(BothIf(results, current, previous)) == Total(results, current)
    ensures PreviousIn(BothIf(results, current, previous)) == Total(results, previous)
  {
    SilentTotal(results, current);
    SilentTotal(results, previous);
  }

  lemma {:induction false} PartsAddUp(cs: seq<Company>, inventory: Source)
    ensures AddComponents(Parts(cs, inventory)) == Amount(Spent(cs, inventory), Some(SpentBefore(cs, inventory)))
  {
    PartIs(PeopleOf(cs), PAYROLL, PAYROLL_PREVIOUS);
    PartIs(DeliveryOf(cs), COSTS, COSTS_PREVIOUS);
    PartIs([inventory], COMMITTED, COMMITTED_PREVIOUS);
    PartIs(AssetsOf(cs), COSTS, COSTS_PREVIOUS);
    PartIs(FinanceOf(cs), EXPENSES, EXPENSES_PREVIOUS);
    FiveAdded(BothIf(PeopleOf(cs), PAYROLL, PAYROLL_PREVIOUS), BothIf(DeliveryOf(cs), COSTS, COSTS_PREVIOUS),
              BothIf([inventory], COMMITTED, COMMITTED_PREVIOUS), BothIf(AssetsOf(cs), COSTS, COSTS_PREVIOUS),
              BothIf(FinanceOf(cs), EXPENSES, EXPENSES_PREVIOUS));
  }

  lemma {:induction false} PartsKnown(cs: seq<Company>, inventory: Source)
    ensures (exists c :: c in Parts(cs, inventory) && c.Some?) <==> AnySpending(cs, inventory)
    ensures (forall c :: c in Parts(cs, inventory) ==> c.Some?) <==>
            && AnyAnswered(PeopleOf(cs)) && AnyAnswered(DeliveryOf(cs)) && AnyAnswered([inventory])
            && AnyAnswered(AssetsOf(cs)) && AnyAnswered(FinanceOf(cs))
  {
    var a, b := BothIf(PeopleOf(cs), PAYROLL, PAYROLL_PREVIOUS), BothIf(DeliveryOf(cs), COSTS, COSTS_PREVIOUS);
    var c, d := BothIf([inventory], COMMITTED, COMMITTED_PREVIOUS), BothIf(AssetsOf(cs), COSTS, COSTS_PREVIOUS);
    var e, parts := BothIf(FinanceOf(cs), EXPENSES, EXPENSES_PREVIOUS), Parts(cs, inventory);
    assert parts[0] == a && parts[1] == b && parts[2] == c && parts[3] == d && parts[4] == e;
    FiveIn(parts, a, b, c, d, e);
    assert a in parts && b in parts && c in parts && d in parts && e in parts;
    assert (forall part :: part in parts ==> part.Some?) <==> a.Some? && b.Some? && c.Some? && d.Some? && e.Some?;
  }

  /**
   The expenses are known when any of the five services answered for any company, and then are everything answered;
   each part is its own service's, and they are complete when all five answered.
  */
  lemma {:induction false} ExpensesAre(cs: seq<Company>, inventory: Source)
    ensures var expenses := ExpensesSectionOf(cs, inventory);
            && expenses.components == Parts(cs, inventory)
            && (expenses.state.available <==> AnySpending(cs, inventory))
            && expenses.total == (if AnySpending(cs, inventory)
                                  then Some(Amount(Spent(cs, inventory), Some(SpentBefore(cs, inventory)))) else None)
            && (expenses.complete <==>
                  && AnyAnswered(PeopleOf(cs)) && AnyAnswered(DeliveryOf(cs)) && AnyAnswered([inventory])
                  && AnyAnswered(AssetsOf(cs)) && AnyAnswered(FinanceOf(cs)))
  {
    PartsAre(cs, inventory);
    PartsKnown(cs, inventory);
    PartsAddUp(cs, inventory);
    if !AnySpending(cs, inventory) {
      NothingSpent(cs, inventory);
    }
  }

  lemma FiveIn<T(!new)>(all: seq<T>, a: T, b: T, c: T, d: T, e: T)
    requires all == [a, b, c, d, e]
    ensures forall x :: x in all <==> x == a || x == b || x == c || x == d || x == e
  {
    assert all[0] == a && all[1] == b && all[2] == c && all[3] == d && all[4] == e;
  }

  lemma {:induction false} NothingSpent(cs: seq<Company>, inventory: Source)
    requires !AnySpending(cs, inventory)
    ensures !StateOf(PeopleOf(cs) + DeliveryOf(cs) + [inventory] + AssetsOf(cs) + FinanceOf(cs)).available
  {
    var all := PeopleOf(cs) + DeliveryOf(cs) + [inventory] + AssetsOf(cs) + FinanceOf(cs);
    ReadIs(all);
    assert inventory in [inventory];
    forall r | r in all ensures !r.status.Ok? {
      assert r in PeopleOf(cs) || r in DeliveryOf(cs) || r in [inventory] || r in AssetsOf(cs) || r in FinanceOf(cs);
    }
  }

  lemma {:induction false} BothIs(results: seq<Source>, current: Figure, previous: Figure)
    ensures AddOk(results).Both(current, previous) == Amount(Total(results, current), Some(Total(results, previous)))
    ensures StateOf(results).available <==> AnyAnswered(results)
  {
    ReadIs(results);
  }

  lemma ProfitOnScreen(cs: seq<Company>, inventory: Source)
    ensures BuildScreen(cs, inventory, true).headlines.kpis.profit ==
            Profit(StateOf(RevenueOf(cs)), AddOk(RevenueOf(cs)).Both(REVENUE, REVENUE_PREVIOUS), ExpensesSectionOf(cs, inventory))
  {
  }

  lemma ProfitFrom(state: State, revenue: Amount, expenses: ExpensesSection, spending: bool, spent: int, before: int)
    requires expenses.state.available <==> spending
    requires expenses.total == if spending then Some(Amount(spent, Some(before))) else None
    ensures Profit(state, revenue, expenses).value
            == ProfitWhere(state.available && spending, revenue.amount - spent, revenue.previous.GetOr(0) - before)
  {
  }

  lemma {:induction false} ProfitOver(results: seq<Source>, expenses: ExpensesSection, spending: bool, spent: int, before: int)
    requires expenses.state.available <==> spending
    requires expenses.total == if spending then Some(Amount(spent, Some(before))) else None
    ensures Profit(StateOf(results), AddOk(results).Both(REVENUE, REVENUE_PREVIOUS), expenses).value
            == ProfitWhere(AnyAnswered(results) && spending, Total(results, REVENUE) - spent, Total(results, REVENUE_PREVIOUS) - before)
  {
    BothIs(results, REVENUE, REVENUE_PREVIOUS);
    ProfitFrom(StateOf(results), AddOk(results).Both(REVENUE, REVENUE_PREVIOUS), expenses, spending, spent, before);
  }

  function ProfitWhere(known: bool, amount: int, previous: int): Option<Amount> {
    if known then Some(Amount(amount, Some(previous))) else None
  }

  /** Profit is all the revenue less everything spent, now and before, where some revenue and some spending is known. */
  lemma {:induction false} ProfitIsRevenueLessExpenses(cs: seq<Company>, inventory: Source)
    ensures BuildScreen(cs, inventory, true).headlines.kpis.profit.value
            == ProfitWhere(AnyAnswered(RevenueOf(cs)) && AnySpending(cs, inventory),
                           Total(RevenueOf(cs), REVENUE) - Spent(cs, inventory),
                           Total(RevenueOf(cs), REVENUE_PREVIOUS) - SpentBefore(cs, inventory))
  {
    ProfitOnScreen(cs, inventory);
    ExpensesAre(cs, inventory);
    ProfitOver(RevenueOf(cs), ExpensesSectionOf(cs, inventory), AnySpending(cs, inventory), Spent(cs, inventory),
               SpentBefore(cs, inventory));
  }
}
