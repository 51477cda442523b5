/**
 The CEO screen (00_gateway/services/ceo_screen.py): what each service answered for each company, added up.

 An answer is the figures and lists found in it, each under the keyword path the screen reads; a path that is
 missing reads as zero or empty. Money is in whole cents, a health score in tenths of a percent, and averages
 are kept as a sum and a count.
*/
module CeoScreen {
  import opened Common
  import opened Sorting

  type OrgId = string
  datatype Key = One(k: string) | Two(first: string, second: string)
  type Buckets = seq<(Key, int)>

  datatype Figure =
    | REVENUE | REVENUE_PREVIOUS | RECEIVABLES | PIPELINE | CLIENTS | OVERDUE
    | AMC_CONTRACTS | AMC_VALUE | AMC_CLIENTS | AMC_RENEWALS | AMC_REVENUE
    | RUNNING | AT_RISK | LATE | COSTS | COSTS_PREVIOUS
    | HEADCOUNT | ON_LEAVE | OFFICE | IN_FIELD | REMOTE | NOT_SAID | PAYROLL | PAYROLL_PREVIOUS
    | BUDGET_APPROVED | BUDGET_ACTUAL
    | SOFTWARE_COSTS | SUBSCRIPTIONS | SUBSCRIPTIONS_MONTHLY
    | EXPENSES | EXPENSES_PREVIOUS | UNPAID | PENDING_COUNT | PENDING_AMOUNT | INCOME | INCOME_PREVIOUS
    | INVESTED | PRINCIPAL | CURRENT_VALUE | MATURING
    | COMMITTED | COMMITTED_PREVIOUS | COMMITTED_COUNT | RECEIPTS | INSTALLATIONS | NEW_INSTALLS
    | TECHNICIANS | TECHNICIANS_AVAILABLE | OPEN_REPAIRS

  datatype ListName =
    | BY_MONTH | BY_VERTICAL | BY_STATE | BY_CLIENT_TYPE | BY_CONTRACT_TYPE | BY_SEGMENT | BY_PRODUCT_LINE
    | CLIENTS_BY_SEGMENT | CLIENTS_BY_STATE | BY_WORK_UNIT
    | COSTS_BY_CATEGORY | BY_EMPLOYMENT_TYPE | COSTS_BY_FAMILY | EXPENSES_BY_CATEGORY | INCOME_BY_TYPE | INVESTED_BY_TYPE
    | ORDERS_BY_CATEGORY

  /** Work given to an associate; `workUnits` are the projects it was given. */
  datatype Partner = Partner(org: OrgId, projects: int, running: int, workUnits: seq<string>, subcontractCosts: int)
  datatype Health = Health(score: int, previous: Option<int>, healthLabel: string, onTrack: int, atRisk: int, offTrack: int)
  datatype Orders = Orders(status: string, count: int, total: int)

  datatype Row = Row(
    currency: Option<string>, mixed: bool, figures: map<Figure, int>, lists: map<ListName, Buckets>,
    partners: seq<Partner>, orders: seq<Orders>, health: Option<Health>, hasBudget: bool, approvals: nat, more: bool)

  datatype Status = Ok | NoAccess | NotSetUp | Unavailable
  datatype Source = Source(status: Status, row: Row)

  datatype Company = Company(
    id: OrgId, name: string, relationship: string,
    revenue: Source, delivery: Source, people: Source, management: Source, assets: Source, finance: Source, approvals: seq<Source>)

  // ------------------------------------------------------------------ helpers

  function Fig(row: Row, f: Figure): int {
    if f in row.figures then row.figures[f] else 0
  }

  function ListOf(row: Row, name: ListName): Buckets {
    if name in row.lists then row.lists[name] else []
  }

  datatype State = State(available: bool, reason: Option<Status>, missing: int)

  const DENIED := State(false, Some(NoAccess), 0)

  function OkRows(results: seq<Source>): seq<Row> {
    if results == [] then []
    else OkRows(results[..|results| - 1]) + (if results[|results| - 1].status.Ok? then [results[|results| - 1].row] else [])
  }

  predicate AllAre(results: seq<Source>, status: Status) {
    results != [] && forall r :: r in results ==> r.status == status
  }

  /** Available when any source answered; otherwise why not. */
  function StateOf(results: seq<Source>): State {
    if OkRows(results) != [] then State(true, None, |results| - |OkRows(results)|)
    else if AllAre(results, NoAccess) then DENIED
    else if AllAre(results, NotSetUp) then State(false, Some(NotSetUp), 0)
    else State(false, Some(Unavailable), 0)
  }

  function Sum(rows: seq<Row>, f: Figure): int {
    if rows == [] then 0 else Sum(rows[..|rows| - 1], f) + Fig(rows[|rows| - 1], f)
  }

  function AllOf(rows: seq<Row>, name: ListName): Buckets {
    if rows == [] then [] else AllOf(rows[..|rows| - 1], name) + ListOf(rows[|rows| - 1], name)
  }

  /** All the rows added up: whether there were any, each figure's sum, and each list's entries, row after row. */
  datatype Added = Added(any: bool, sums: map<Figure, int>, lists: map<ListName, Buckets>) {
    function Sum(f: Figure): int {
      if f in sums then sums[f] else 0
    }

    function Entries(name: ListName): Buckets {
      if name in lists then lists[name] else []
    }

    function Both(current: Figure, previous: Figure): Amount {
      Amount(Sum(current), Some(Sum(previous)))
    }
  }

  function Add(rows: seq<Row>): Added {
    Added(rows != [], map f: Figure | true :: Sum(rows, f), map name: ListName | true :: AllOf(rows, name))
  }

  function AddOk(results: seq<Source>): Added {
    Add(OkRows(results))
  }

  datatype Amount = Amount(amount: int, previous: Option<int>)

  /** A dict of totals, and the order in which its keys came. */
  datatype Totals = Totals(keys: seq<Key>, amounts: map<Key, int>)

  function AddTo(totals: Totals, key: Key, amount: int): Totals {
    if key in totals.amounts then totals.(amounts := totals.amounts[key := totals.amounts[key] + amount])
    else Totals(totals.keys + [key], totals.amounts[key := amount])
  }

  function TotalsOf(buckets: Buckets): Totals {
    if buckets == [] then Totals([], map[])
    else AddTo(TotalsOf(buckets[..|buckets| - 1]), buckets[|buckets| - 1].0, buckets[|buckets| - 1].1)
  }

  function Pairs(totals: Totals): Buckets {
    seq(|totals.keys|, i requires 0 <= i < |totals.keys| =>
      (totals.keys[i], if totals.keys[i] in totals.amounts then totals.amounts[totals.keys[i]] else 0))
  }

  function LargestFirst(): ((Key, int), (Key, int)) -> bool {
    (a: (Key, int), b: (Key, int)) => a.1 >= b.1
  }

  function ByMonth(): ((Key, int), (Key, int)) -> bool {
    (a: (Key, int), b: (Key, int)) => a.0.One? && b.0.One? && StringLe(a.0.k, b.0.k)
  }

  /** One total for each key, the largest first. */
  function Merge(entries: Buckets): Buckets {
    Sort(LargestFirst(), Pairs(TotalsOf(entries)))
  }

  /** Adds up the lists of all the rows: one total for each key, the largest first. */
  method MergeBuckets(rows: seq<Row>, name: ListName) returns (merged: Buckets)
    ensures merged == Merge(AllOf(rows, name))
  {
    var totals := Totals([], map[]);
    for i := 0 to |rows|
      invariant totals == TotalsOf(AllOf(rows[..i], name))
    {
      assert rows[..i + 1][..i] == rows[..i];
      totals := AddList(totals, ListOf(rows[i], name), AllOf(rows[..i], name));
    }
    assert rows[..|rows|] == rows;
    merged := Sort(LargestFirst(), Pairs(totals));
  }

  method AddList(before: Totals, list: Buckets, ghost met: Buckets) returns (totals: Totals)
    requires before == TotalsOf(met)
    ensures totals == TotalsOf(met + list)
  {
    totals := before;
    assert met + list[..0] == met;
    for j := 0 to |list|
      invariant totals == TotalsOf(met + list[..j])
    {
      assert (met + list[..j + 1])[..|met| + j] == met + list[..j];
      totals := AddTo(totals, list[j].0, list[j].1);
    }
    assert list[..|list|] == list;
  }

  // ------------------------------------------------------------------ sources

  function RevenueOf(cs: seq<Company>): seq<Source> { seq(|cs|, i requires 0 <= i < |cs| => cs[i].revenue) }
  function DeliveryOf(cs: seq<Company>): seq<Source> { seq(|cs|, i requires 0 <= i < |cs| => cs[i].delivery) }
  function PeopleOf(cs: seq<Company>): seq<Source> { seq(|cs|, i requires 0 <= i < |cs| => cs[i].people) }
  function ManagementOf(cs: seq<Company>): seq<Source> { seq(|cs|, i requires 0 <= i < |cs| => cs[i].management) }
  function AssetsOf(cs: seq<Company>): seq<Source> { seq(|cs|, i requires 0 <= i < |cs| => cs[i].assets) }
  function FinanceOf(cs: seq<Company>): seq<Source> { seq(|cs|, i requires 0 <= i < |cs| => cs[i].finance) }

  function ApprovalsOf(cs: seq<Company>): seq<Source> {
    if cs == [] then [] else ApprovalsOf(cs[..|cs| - 1]) + cs[|cs| - 1].approvals
  }

  // ------------------------------------------------------------------ sections

  datatype AmcCard = AmcCard(contracts: int, value: int, clients: int, renewalsDue: int, revenue: int)

  datatype RevenueSection = RevenueSection(
    state: State, byMonth: Buckets, byVertical: Buckets, byState: Buckets, byClientType: Buckets, byContractType: Buckets,
    bySegment: Buckets, byProductLine: Buckets, clientsBySegment: Buckets, clientsByState: Buckets, amc: Option<AmcCard>)

  function RevenueSectionOf(state: State, all: Added): RevenueSection {
    RevenueSection(
      state, Sort(ByMonth(), Pairs(TotalsOf(all.Entries(BY_MONTH)))),
      Merge(all.Entries(BY_VERTICAL)), Merge(all.Entries(BY_STATE)), Merge(all.Entries(BY_CLIENT_TYPE)),
      Merge(all.Entries(BY_CONTRACT_TYPE)), Merge(all.Entries(BY_SEGMENT)), Merge(all.Entries(BY_PRODUCT_LINE)),
      Merge(all.Entries(CLIENTS_BY_SEGMENT)), Merge(all.Entries(CLIENTS_BY_STATE)),
      if all.any then Some(AmcCard(all.Sum(AMC_CONTRACTS), all.Sum(AMC_VALUE), all.Sum(AMC_CLIENTS), all.Sum(AMC_RENEWALS),
                                   all.Sum(AMC_REVENUE)))
      else None)
  }

  datatype DeliverySection = DeliverySection(
    state: State, running: int, atRisk: int, late: int, costs: Option<Amount>, costsByCategory: Option<Buckets>)

  function DeliverySectionOf(state: State, all: Added, financials: bool): DeliverySection {
    var shown := financials && all.any;
    DeliverySection(
      state, all.Sum(RUNNING), all.Sum(AT_RISK), all.Sum(LATE),
      if shown then Some(all.Both(COSTS, COSTS_PREVIOUS)) else None,
      if shown then Some(Merge(all.Entries(COSTS_BY_CATEGORY))) else None)
  }

  datatype PeopleSection = PeopleSection(
    state: State, headcount: int, byType: Buckets, freelancers: int, onLeave: int, workingToday: seq<int>, payroll: Option<Amount>)

  const FREELANCER := One("freelancer")

  function PeopleSectionOf(state: State, all: Added, financials: bool): PeopleSection {
    var types := TotalsOf(all.Entries(BY_EMPLOYMENT_TYPE)).amounts;
    PeopleSection(
      state, all.Sum(HEADCOUNT), Merge(all.Entries(BY_EMPLOYMENT_TYPE)), if FREELANCER in types then types[FREELANCER] else 0,
      all.Sum(ON_LEAVE), [all.Sum(OFFICE), all.Sum(IN_FIELD), all.Sum(REMOTE), all.Sum(NOT_SAID)],
      if financials && all.any then Some(all.Both(PAYROLL, PAYROLL_PREVIOUS)) else None)
  }

  /** The scored companies, in order, with their scores. */
  function Scored(cs: seq<Company>): seq<(OrgId, Health)> {
    if cs == [] then []
    else
      var last := cs[|cs| - 1];
      Scored(cs[..|cs| - 1])
      + (if last.management.status.Ok? && last.management.row.health.Some? then [(last.id, last.management.row.health.value)] else [])
  }

  datatype Scores = Scores(count: nat, total: int, previousCount: nat, previousTotal: int, onTrack: int, atRisk: int, offTrack: int)

  function AddScores(scored: seq<(OrgId, Health)>): Scores {
    if scored == [] then Scores(0, 0, 0, 0, 0, 0, 0)
    else
      var s, h := AddScores(scored[..|scored| - 1]), scored[|scored| - 1].1;
      Scores(s.count + 1, s.total + h.score, s.previousCount + (if h.previous.Some? then 1 else 0),
             s.previousTotal + h.previous.GetOr(0), s.onTrack + h.onTrack, s.atRisk + h.atRisk, s.offTrack + h.offTrack)
  }

  /** The band of the average, total over count, once rounded to a tenth: 85.0 begins at 849.5 tenths. */
  function HealthLabel(total: int, count: nat): string {
    if 2 * total >= 1699 * count then "excellent"
    else if 2 * total >= 1399 * count then "good"
    else if 2 * total >= 999 * count then "needs_attention"
    else "critical"
  }

  datatype HealthSection = HealthSection(state: State, scores: Option<Scores>, healthLabel: string, byCompany: seq<(OrgId, Health)>)

  function HealthSectionOf(cs: seq<Company>): HealthSection {
    var state, scored := StateOf(ManagementOf(cs)), Scored(cs);
    if !state.available then HealthSection(state, None, "", [])
    else if scored == [] then HealthSection(State(false, Some(NotSetUp), 0), None, "", [])
    else
      var scores := AddScores(scored);
      HealthSection(state, Some(scores), HealthLabel(scores.total, scores.count), scored)
  }

  function WithBudget(rows: seq<Row>): seq<Row> {
    if rows == [] then []
    else WithBudget(rows[..|rows| - 1]) + (if rows[|rows| - 1].hasBudget then [rows[|rows| - 1]] else [])
  }

  datatype BudgetSection = BudgetSection(state: State, approved: int, actual: int)

  function BudgetSectionOf(results: seq<Source>): BudgetSection {
    var state, budgets := StateOf(results), WithBudget(OkRows(results));
    if !state.available then BudgetSection(state, 0, 0)
    else if budgets == [] then BudgetSection(State(false, Some(NotSetUp), 0), 0, 0)
    else BudgetSection(state, Add(budgets).Sum(BUDGET_APPROVED), Add(budgets).Sum(BUDGET_ACTUAL))
  }

  /** Payroll, project costs, purchases, asset costs and operating expenses; None for one nobody answered. */
  datatype ExpensesSection = ExpensesSection(state: State, total: Option<Amount>, components: seq<Option<Amount>>, complete: bool)

  function Component(results: seq<Source>, current: Figure, previous: Figure): Option<Amount> {
    if AddOk(results).any then Some(AddOk(results).Both(current, previous)) else None
  }

  function AddComponents(components: seq<Option<Amount>>): Amount {
    if components == [] then Amount(0, Some(0))
    else
      var before, last := AddComponents(components[..|components| - 1]), components[|components| - 1];
      if last.None? then before
      else Amount(before.amount + last.value.amount, Some(before.previous.GetOr(0) + last.value.previous.GetOr(0)))
  }

  function ExpensesSectionOf(cs: seq<Company>, inventory: Source): ExpensesSection {
    var components := [
      Component(PeopleOf(cs), PAYROLL, PAYROLL_PREVIOUS), Component(DeliveryOf(cs), COSTS, COSTS_PREVIOUS),
      Component([inventory], COMMITTED, COMMITTED_PREVIOUS), Component(AssetsOf(cs), COSTS, COSTS_PREVIOUS),
      Component(FinanceOf(cs), EXPENSES, EXPENSES_PREVIOUS)];
    if forall c :: c in components ==> c.None? then
      ExpensesSection(StateOf(PeopleOf(cs) + DeliveryOf(cs) + [inventory] + AssetsOf(cs) + FinanceOf(cs)), None, components, false)
    else
      ExpensesSection(State(true, None, 0), Some(AddComponents(components)), components, forall c :: c in components ==> c.Some?)
  }

  datatype AssetsSection = AssetsSection(
    state: State, costs: Option<Amount>, software: int, byFamily: Buckets, subscriptions: int, monthly: int)

  function AssetsSectionOf(state: State, all: Added): AssetsSection {
    AssetsSection(
      state, if all.any then Some(all.Both(COSTS, COSTS_PREVIOUS)) else None, all.Sum(SOFTWARE_COSTS),
      Merge(all.Entries(COSTS_BY_FAMILY)), all.Sum(SUBSCRIPTIONS), all.Sum(SUBSCRIPTIONS_MONTHLY))
  }

  datatype InvestmentsCard = InvestmentsCard(active: int, principal: int, currentValue: int, byType: Buckets, maturing: int)

  datatype FinanceSection = FinanceSection(
    state: State, expenses: Option<Amount>, byCategory: Buckets, unpaid: int, pending: int, pendingAmount: int,
    income: Option<Amount>, incomeByType: Buckets, investments: Option<InvestmentsCard>)

  function FinanceSectionOf(state: State, all: Added): FinanceSection {
    FinanceSection(
      state, if all.any then Some(all.Both(EXPENSES, EXPENSES_PREVIOUS)) else None,
      Merge(all.Entries(EXPENSES_BY_CATEGORY)), all.Sum(UNPAID), all.Sum(PENDING_COUNT), all.Sum(PENDING_AMOUNT),
      if all.any then Some(all.Both(INCOME, INCOME_PREVIOUS)) else None, Merge(all.Entries(INCOME_BY_TYPE)),
      if all.any
      then Some(InvestmentsCard(all.Sum(INVESTED), all.Sum(PRINCIPAL), all.Sum(CURRENT_VALUE), Merge(all.Entries(INVESTED_BY_TYPE)),
                                all.Sum(MATURING)))
      else None)
  }

  datatype StatusAmount = StatusAmount(status: string, count: int, total: Option<int>)

  datatype ProcurementSection = ProcurementSection(
    state: State, committed: Option<Amount>, committedCount: int, byStatus: seq<StatusAmount>, byCategory: Option<Buckets>,
    receipts: int, installations: int, newInstalls: int)

  function ByStatus(orders: seq<Orders>, financials: bool): seq<StatusAmount> {
    seq(|orders|, i requires 0 <= i < |orders| =>
      StatusAmount(orders[i].status, orders[i].count, if financials then Some(orders[i].total) else None))
  }

  function ProcurementSectionOf(state: State, row: Row, financials: bool): ProcurementSection {
    if !state.available then ProcurementSection(state, None, 0, [], None, 0, 0, 0)
    else ProcurementSection(
           state, if financials then Some(Amount(Fig(row, COMMITTED), Some(Fig(row, COMMITTED_PREVIOUS)))) else None,
           Fig(row, COMMITTED_COUNT), ByStatus(row.orders, financials),
           if financials then Some(Merge(ListOf(row, ORDERS_BY_CATEGORY))) else None,
           Fig(row, RECEIPTS), Fig(row, INSTALLATIONS), Fig(row, NEW_INSTALLS))
  }

  datatype FieldSection = FieldSection(state: State, technicians: int, available: int, openRepairs: int)

  function FieldSectionOf(state: State, row: Row): FieldSection {
    if !state.available then FieldSection(state, 0, 0, 0)
    else FieldSection(state, Fig(row, TECHNICIANS), Fig(row, TECHNICIANS_AVAILABLE), Fig(row, OPEN_REPAIRS))
  }

  datatype CompanyRow = CompanyRow(
    id: OrgId, name: string, relationship: string, revenue: Option<Amount>, receivables: Option<int>,
    active: Option<int>, atRisk: Option<int>, headcount: Option<int>)

  function FigIf(source: Source, f: Figure): Option<int> {
    if source.status.Ok? then Some(Fig(source.row, f)) else None
  }

  function CompanyRowOf(c: Company): CompanyRow {
    CompanyRow(
      c.id, c.name, c.relationship,
      if c.revenue.status.Ok? then Some(Amount(Fig(c.revenue.row, REVENUE), Some(Fig(c.revenue.row, REVENUE_PREVIOUS)))) else None,
      FigIf(c.revenue, RECEIVABLES), FigIf(c.delivery, RUNNING), FigIf(c.delivery, AT_RISK), FigIf(c.people, HEADCOUNT))
  }

  function RowRevenue(row: CompanyRow): int {
    if row.revenue.Some? then row.revenue.value.amount else 0
  }

  function RicherFirst(): (CompanyRow, CompanyRow) -> bool {
    (a: CompanyRow, b: CompanyRow) => RowRevenue(a) >= RowRevenue(b)
  }

  /** Companies and revenue of each relationship, as two dicts with one order. */
  function CountAndAdd(rows: seq<CompanyRow>): (Totals, Totals) {
    if rows == [] then (Totals([], map[]), Totals([], map[]))
    else
      var before, last := CountAndAdd(rows[..|rows| - 1]), rows[|rows| - 1];
      (AddTo(before.0, One(last.relationship), 1), AddTo(before.1, One(last.relationship), RowRevenue(last)))
  }

  const RELATIONSHIP_ORDER := ["own", "associate", "investment"]

  /** The names that are keys, in the order of `names`. */
  function Among(names: seq<string>, keys: seq<Key>): seq<string> {
    if names == [] then []
    else Among(names[..|names| - 1], keys) + (if One(names[|names| - 1]) in keys then [names[|names| - 1]] else [])
  }

  /** The other keys' names, in the order met. */
  function Others(keys: seq<Key>): seq<string> {
    if keys == [] then []
    else
      var last := keys[|keys| - 1];
      Others(keys[..|keys| - 1]) + (if last.One? && last.k !in RELATIONSHIP_ORDER then [last.k] else [])
  }

  function ByName(): (string, string) -> bool {
    (a: string, b: string) => StringLe(a, b)
  }

  datatype RelationshipTotal = RelationshipTotal(relationship: string, companies: int, revenue: int)

  /** The known relationships first, in their order, then any others by name. */
  function Names(keys: seq<Key>): seq<string> {
    Among(RELATIONSHIP_ORDER, keys) + Sort(ByName(), Others(keys))
  }

  function Answered(totals: (Totals, Totals)): seq<RelationshipTotal> {
    var names := Names(totals.0.keys);
    seq(|names|, i requires 0 <= i < |names| =>
      RelationshipTotal(names[i], AmountFor(totals.0, One(names[i])), AmountFor(totals.1, One(names[i]))))
  }

  function AmountFor(totals: Totals, key: Key): int {
    if key in totals.amounts then totals.amounts[key] else 0
  }

  function Relationships(rows: seq<CompanyRow>): seq<RelationshipTotal> {
    Answered(CountAndAdd(rows))
  }

  datatype CompaniesSection = CompaniesSection(state: State, rows: seq<CompanyRow>, byRelationship: seq<RelationshipTotal>)

  function Silent(cs: seq<Company>): int {
    if cs == [] then 0
    else
      var last := cs[|cs| - 1];
      Silent(cs[..|cs| - 1]) + (if last.revenue.status.Ok? || last.delivery.status.Ok? || last.people.status.Ok? then 0 else 1)
  }

  function CompanyRows(cs: seq<Company>): seq<CompanyRow> {
    seq(|cs|, i requires 0 <= i < |cs| => CompanyRowOf(cs[i]))
  }

  function CompaniesSectionOf(cs: seq<Company>): CompaniesSection {
    var rows := Sort(RicherFirst(), CompanyRows(cs));
    var state := StateOf(RevenueOf(cs) + DeliveryOf(cs) + PeopleOf(cs));
    CompaniesSection(if state.available then state.(missing := Silent(cs)) else state, rows, Relationships(rows))
  }

  // ------------------------------------------------------------------ associates

  /** What one associate did for all the companies. */
  datatype Work = Work(projects: int, running: int, revenue: int, paid: int)
  datatype Associates = Associates(orgs: seq<OrgId>, work: map<OrgId, Work>)

  /** The revenue of a project: its last mention in the list. */
  function RevenueOn(byUnit: Buckets, unit: string): int {
    if byUnit == [] then 0
    else if byUnit[|byUnit| - 1].0 == One(unit) then byUnit[|byUnit| - 1].1
    else RevenueOn(byUnit[..|byUnit| - 1], unit)
  }

  function RevenueOnAll(byUnit: Buckets, units: seq<string>): int {
    if units == [] then 0 else RevenueOnAll(byUnit, units[..|units| - 1]) + RevenueOn(byUnit, units[|units| - 1])
  }

  function AddPartner(a: Associates, partner: Partner, revenue: int): Associates {
    var before := if partner.org in a.work then a.work[partner.org] else Work(0, 0, 0, 0);
    Associates(
      if partner.org in a.work then a.orgs else a.orgs + [partner.org],
      a.work[partner.org := Work(before.projects + partner.projects, before.running + partner.running,
                                 before.revenue + revenue, before.paid + partner.subcontractCosts)])
  }

  function AddPartners(a: Associates, byUnit: Buckets, partners: seq<Partner>): Associates {
    if partners == [] then a
    else
      var last := partners[|partners| - 1];
      AddPartner(AddPartners(a, byUnit, partners[..|partners| - 1]), last, RevenueOnAll(byUnit, last.workUnits))
  }

  function AssociatesOf(cs: seq<Company>): Associates {
    if cs == [] then Associates([], map[])
    else
      var before, last := AssociatesOf(cs[..|cs| - 1]), cs[|cs| - 1];
      if last.delivery.status.Ok? then AddPartners(before, ListOf(last.revenue.row, BY_WORK_UNIT), last.delivery.row.partners) else before
  }

  datatype AssociateRow = AssociateRow(
    org: OrgId, name: string, projects: int, running: int, revenue: Option<int>, paid: Option<int>, margin: Option<int>)

  function NameOf(cs: seq<Company>, org: OrgId): string {
    if cs == [] then "Other company" else if cs[|cs| - 1].id == org then cs[|cs| - 1].name else NameOf(cs[..|cs| - 1], org)
  }

  function AssociateRowOf(cs: seq<Company>, org: OrgId, work: Work, financials: bool, known: bool): AssociateRow {
    AssociateRow(
      org, NameOf(cs, org), work.projects, work.running,
      if financials && known then Some(work.revenue) else None, if financials then Some(work.paid) else None,
      if financials && known then Some(work.revenue - work.paid) else None)
  }

  function BusierFirst(): (AssociateRow, AssociateRow) -> bool {
    (a: AssociateRow, b: AssociateRow) =>
      a.revenue.GetOr(0) > b.revenue.GetOr(0) || (a.revenue.GetOr(0) == b.revenue.GetOr(0) && a.projects >= b.projects)
  }

  datatype Whole = Whole(projects: int, revenue: int, paid: int, margin: int)

  function AddRows(rows: seq<AssociateRow>): Whole {
    if rows == [] then Whole(0, 0, 0, 0)
    else
      var w, r := AddRows(rows[..|rows| - 1]), rows[|rows| - 1];
      Whole(w.projects + r.projects, w.revenue + r.revenue.GetOr(0), w.paid + r.paid.GetOr(0), w.margin + r.margin.GetOr(0))
  }

  datatype AssociatesSection = AssociatesSection(
    state: State, rows: seq<AssociateRow>, projects: int, revenue: Option<int>, paid: Option<int>, margin: Option<int>)

  function AssociateRows(cs: seq<Company>, a: Associates, financials: bool, known: bool): seq<AssociateRow> {
    seq(|a.orgs|, i requires 0 <= i < |a.orgs| =>
      AssociateRowOf(cs, a.orgs[i], if a.orgs[i] in a.work then a.work[a.orgs[i]] else Work(0, 0, 0, 0), financials, known))
  }

  function AssociatesSectionOf(cs: seq<Company>, financials: bool): AssociatesSection {
    var state := StateOf(DeliveryOf(cs));
    if !state.available then AssociatesSection(state, [], 0, None, None, None)
    else
      var known := forall c :: c in cs && c.delivery.status.Ok? && c.delivery.row.partners != [] ==> c.revenue.status.Ok?;
      var rows := Sort(BusierFirst(), AssociateRows(cs, AssociatesOf(cs), financials, known));
      var whole := AddRows(rows);
      AssociatesSection(
        state, rows, whole.projects, if financials && known then Some(whole.revenue) else None,
        if financials then Some(whole.paid) else None, if financials && known then Some(whole.margin) else None)
  }

  // ------------------------------------------------------------------ headline numbers and alerts

  datatype Metric = Metric(state: State, value: Option<Amount>)

  function MetricOf(state: State, value: Amount): Metric {
    Metric(state, if state.available then Some(value) else None)
  }

  function Now(amount: int): Amount {
    Amount(amount, None)
  }

  /** Revenue less expenses; not available, and why, when either is not. */
  function Profit(revenueState: State, revenue: Amount, expenses: ExpensesSection): Metric {
    if !revenueState.available then Metric(State(false, revenueState.reason, 0), None)
    else if !expenses.state.available || expenses.total.None?
    then Metric(State(false, Some(expenses.state.reason.GetOr(Unavailable)), 0), None)
    else
      var total := expenses.total.value;
      Metric(State(true, None, 0),
             Some(Amount(revenue.amount - total.amount, Some(revenue.previous.GetOr(0) - total.previous.GetOr(0)))))
  }

  datatype Kpis = Kpis(
    revenue: Metric, pipeline: Metric, receivables: Metric, clients: Metric, workUnits: Metric, employees: Metric,
    health: HealthSection, expenses: Metric, profit: Metric)

  /** What was read of one service: whether it answered, and its answers added up. */
  datatype Read = Read(state: State, all: Added)

  function ReadAll(results: seq<Source>): Read {
    Read(StateOf(results), AddOk(results))
  }

  function KpisOf(revenue: Read, delivery: Read, people: Read, health: HealthSection, expenses: ExpensesSection, financials: bool): Kpis {
    var total := revenue.all.Both(REVENUE, REVENUE_PREVIOUS);
    Kpis(
      MetricOf(revenue.state, total), MetricOf(revenue.state, Now(revenue.all.Sum(PIPELINE))),
      MetricOf(revenue.state, Now(revenue.all.Sum(RECEIVABLES))), MetricOf(revenue.state, Now(revenue.all.Sum(CLIENTS))),
      MetricOf(delivery.state, Now(delivery.all.Sum(RUNNING))), MetricOf(people.state, Now(people.all.Sum(HEADCOUNT))), health,
      if financials then Metric(State(expenses.state.available, expenses.state.reason, 0), expenses.total) else Metric(DENIED, None),
      if financials then Profit(revenue.state, total, expenses) else Metric(DENIED, None))
  }

  function AddApprovals(rows: seq<Row>): (nat, bool) {
    if rows == [] then (0, false)
    else
      var before := AddApprovals(rows[..|rows| - 1]);
      (before.0 + rows[|rows| - 1].approvals, before.1 || rows[|rows| - 1].more)
  }

  datatype Alerts = Alerts(
    pending: Option<nat>, more: bool, overdue: Option<int>, atRisk: Option<int>, renewalsDue: Option<int>, openRepairs: Option<int>,
    expensesPending: Option<int>)

  function SumIf(all: Added, f: Figure): Option<int> {
    if all.any then Some(all.Sum(f)) else None
  }

  function AlertsOf(approvals: seq<Row>, revenue: Added, delivery: Added, finance: Added, inventory: Source, financials: bool): Alerts {
    Alerts(
      if approvals == [] then None else Some(AddApprovals(approvals).0), AddApprovals(approvals).1,
      SumIf(revenue, OVERDUE), SumIf(delivery, AT_RISK), SumIf(revenue, AMC_RENEWALS), FigIf(inventory, OPEN_REPAIRS),
      if financials then SumIf(finance, PENDING_COUNT) else None)
  }

  // ------------------------------------------------------------------ the screen

  function Currencies(rows: seq<Row>): seq<string> {
    if rows == [] then []
    else Currencies(rows[..|rows| - 1]) + (if rows[|rows| - 1].currency.Some? then [rows[|rows| - 1].currency.value] else [])
  }

  /** The revenue currency, else any other source's; mixed when sources disagree or say so. */
  function CurrencyOf(rows: seq<Row>): (string, bool) {
    var currencies := Currencies(rows);
    if currencies == [] then ("INR", false)
    else (currencies[0], (exists c :: c in currencies && c != currencies[0]) || exists row :: row in rows && row.mixed)
  }

  function CurrencyRows(cs: seq<Company>, inventory: Source): seq<Row> {
    OkRows(RevenueOf(cs)) + OkRows(DeliveryOf(cs)) + OkRows(PeopleOf(cs)) + OkRows(AssetsOf(cs)) + OkRows(FinanceOf(cs))
    + OkRows([inventory])
  }

  datatype Headlines = Headlines(currency: (string, bool), organizations: seq<(OrgId, string, string)>, kpis: Kpis, alerts: Alerts)

  datatype WorkCards = WorkCards(
    companies: CompaniesSection, associates: AssociatesSection, delivery: DeliverySection, people: PeopleSection,
    procurement: ProcurementSection, field: FieldSection)

  datatype MoneyCards = MoneyCards(
    revenue: RevenueSection, health: HealthSection, budget: BudgetSection, expenses: ExpensesSection, assets: AssetsSection,
    finance: FinanceSection)

  datatype Screen = Screen(headlines: Headlines, work: WorkCards, money: MoneyCards)

  const NO_BUDGET := BudgetSection(DENIED, 0, 0)
  const NO_EXPENSES := ExpensesSection(DENIED, None, [], false)
  const NO_ASSETS := AssetsSection(DENIED, None, 0, [], 0, 0)
  const NO_FINANCE := FinanceSection(DENIED, None, [], 0, 0, 0, None, [], None)

  function ExpensesIf(cs: seq<Company>, inventory: Source, financials: bool): ExpensesSection {
    if financials then ExpensesSectionOf(cs, inventory) else NO_EXPENSES
  }

  function Organizations(cs: seq<Company>): seq<(OrgId, string, string)> {
    seq(|cs|, i requires 0 <= i < |cs| => (cs[i].id, cs[i].name, cs[i].relationship))
  }

  function HeadlinesOf(cs: seq<Company>, inventory: Source, financials: bool): Headlines {
    var revenue, delivery, people := ReadAll(RevenueOf(cs)), ReadAll(DeliveryOf(cs)), ReadAll(PeopleOf(cs));
    Headlines(
      CurrencyOf(CurrencyRows(cs, inventory)), Organizations(cs),
      KpisOf(revenue, delivery, people, HealthSectionOf(cs), ExpensesIf(cs, inventory, financials), financials),
      AlertsOf(OkRows(ApprovalsOf(cs)), revenue.all, delivery.all, ReadAll(FinanceOf(cs)).all, inventory, financials))
  }

  function WorkCardsOf(cs: seq<Company>, inventory: Source, financials: bool): WorkCards {
    var delivery, people, stock := ReadAll(DeliveryOf(cs)), ReadAll(PeopleOf(cs)), StateOf([inventory]);
    WorkCards(
      CompaniesSectionOf(cs), AssociatesSectionOf(cs, financials), DeliverySectionOf(delivery.state, delivery.all, financials),
      PeopleSectionOf(people.state, people.all, financials), ProcurementSectionOf(stock, inventory.row, financials),
      FieldSectionOf(stock, inventory.row))
  }

  function MoneyCardsOf(cs: seq<Company>, inventory: Source, financials: bool): MoneyCards {
    var revenue, assets, finance := ReadAll(RevenueOf(cs)), ReadAll(AssetsOf(cs)), ReadAll(FinanceOf(cs));
    MoneyCards(
      RevenueSectionOf(revenue.state, revenue.all), HealthSectionOf(cs),
      if financials then BudgetSectionOf(ManagementOf(cs)) else NO_BUDGET, ExpensesIf(cs, inventory, financials),
      if financials then AssetsSectionOf(assets.state, assets.all) else NO_ASSETS,
      if financials then FinanceSectionOf(finance.state, finance.all) else NO_FINANCE)
  }

  function BuildScreen(cs: seq<Company>, inventory: Source, financials: bool): Screen {
    Screen(HeadlinesOf(cs, inventory, financials), WorkCardsOf(cs, inventory, financials), MoneyCardsOf(cs, inventory, financials))
  }
}
