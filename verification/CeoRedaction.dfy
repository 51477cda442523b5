/**
 Without the financials permission the CEO screen does not depend on what that permission guards: two sets of
 answers that differ only there give the same screen, sort orders included.
*/
module CeoRedaction {
  import opened CeoScreen

  /** Payroll, costs, budgets, asset costs, expenses, income, investments and purchase money. */
  predicate Financial(f: Figure) {
    match f
    case COSTS | COSTS_PREVIOUS | PAYROLL | PAYROLL_PREVIOUS | BUDGET_APPROVED | BUDGET_ACTUAL => true
    case SOFTWARE_COSTS | SUBSCRIPTIONS | SUBSCRIPTIONS_MONTHLY | COMMITTED | COMMITTED_PREVIOUS => true
    case EXPENSES | EXPENSES_PREVIOUS | UNPAID | PENDING_COUNT | PENDING_AMOUNT | INCOME | INCOME_PREVIOUS => true
    case INVESTED | PRINCIPAL | CURRENT_VALUE | MATURING => true
    case _ => false
  }

  predicate FinancialList(name: ListName) {
    match name
    case BY_WORK_UNIT | COSTS_BY_CATEGORY | COSTS_BY_FAMILY | ORDERS_BY_CATEGORY => true
    case EXPENSES_BY_CATEGORY | INCOME_BY_TYPE | INVESTED_BY_TYPE => true
    case _ => false
  }

  function HidePartners(partners: seq<Partner>): seq<Partner> {
    seq(|partners|, i requires 0 <= i < |partners| => partners[i].(subcontractCosts := 0))
  }

  function HideOrders(orders: seq<Orders>): seq<Orders> {
    seq(|orders|, i requires 0 <= i < |orders| => orders[i].(total := 0))
  }

  /** An answer with everything financial in it taken out. */
  function Hide(row: Row): Row {
    row.(figures := map f | f in row.figures && !Financial(f) :: row.figures[f],
         lists := map name | name in row.lists && !FinancialList(name) :: row.lists[name],
         partners := HidePartners(row.partners), orders := HideOrders(row.orders), hasBudget := false)
  }

  function HideSource(s: Source): Source {
    s.(row := Hide(s.row))
  }

  function HideSources(results: seq<Source>): seq<Source> {
    seq(|results|, i requires 0 <= i < |results| => HideSource(results[i]))
  }

  function HideRows(rows: seq<Row>): seq<Row> {
    seq(|rows|, i requires 0 <= i < |rows| => Hide(rows[i]))
  }

  function HideCompany(c: Company): Company {
    c.(revenue := HideSource(c.revenue), delivery := HideSource(c.delivery), people := HideSource(c.people),
       management := HideSource(c.management), assets := HideSource(c.assets), finance := HideSource(c.finance),
       approvals := HideSources(c.approvals))
  }

  function HideAll(cs: seq<Company>): seq<Company> {
    seq(|cs|, i requires 0 <= i < |cs| => HideCompany(cs[i]))
  }

  // ------------------------------------------------------------------ sums and lists of what is not hidden

  lemma {:induction false} HiddenRows(results: seq<Source>)
    ensures OkRows(HideSources(results)) == HideRows(OkRows(results))
  {
    if results != [] {
      HiddenRows(results[..|results| - 1]);
      assert HideSources(results)[..|results| - 1] == HideSources(results[..|results| - 1]);
    }
  }

  lemma {:induction false} HiddenState(results: seq<Source>)
    ensures StateOf(HideSources(results)) == StateOf(results)
  {
    HiddenRows(results);
    forall status ensures AllAre(HideSources(results), status) <==> AllAre(results, status) {
      if AllAre(HideSources(results), status) {
        forall r | r in results ensures r.status == status {
          var i :| 0 <= i < |results| && results[i] == r;
          assert HideSources(results)[i] in HideSources(results);
        }
      }
    }
  }

  lemma {:induction false} HiddenSum(rows: seq<Row>, f: Figure)
    requires !Financial(f)
    ensures Sum(HideRows(rows), f) == Sum(rows, f)
  {
    if rows != [] {
      HiddenSum(rows[..|rows| - 1], f);
      assert HideRows(rows)[..|rows| - 1] == HideRows(rows[..|rows| - 1]);
    }
  }

  lemma {:induction false} HiddenList(rows: seq<Row>, name: ListName)
    requires !FinancialList(name)
    ensures AllOf(HideRows(rows), name) == AllOf(rows, name)
  {
    if rows != [] {
      HiddenList(rows[..|rows| - 1], name);
      assert HideRows(rows)[..|rows| - 1] == HideRows(rows[..|rows| - 1]);
    }
  }

  /** The same but for what is financial. */
  ghost predicate SameShown(a: Added, b: Added) {
    && a.any == b.any
    && (forall f :: !Financial(f) ==> a.Sum(f) == b.Sum(f))
    && forall name :: !FinancialList(name) ==> a.Entries(name) == b.Entries(name)
  }

  /** Every sum and list of these answers that is not financial is the same with the rest taken out. */
  lemma {:induction false} HiddenRead(results: seq<Source>)
    ensures ReadAll(HideSources(results)).state == ReadAll(results).state
    ensures SameShown(ReadAll(HideSources(results)).all, ReadAll(results).all)
  {
    HiddenState(results);
    HiddenRows(results);
    HiddenAdded(OkRows(results));
  }

  lemma {:induction false} HiddenAdded(rows: seq<Row>)
    ensures SameShown(Add(HideRows(rows)), Add(rows))
  {
    forall f | !Financial(f) ensures Add(HideRows(rows)).Sum(f) == Add(rows).Sum(f) {
      HiddenSum(rows, f);
    }
    forall name | !FinancialList(name) ensures Add(HideRows(rows)).Entries(name) == Add(rows).Entries(name) {
      HiddenList(rows, name);
    }
  }

  lemma HiddenSources(cs: seq<Company>)
    ensures RevenueOf(HideAll(cs)) == HideSources(RevenueOf(cs)) && DeliveryOf(HideAll(cs)) == HideSources(DeliveryOf(cs))
    ensures PeopleOf(HideAll(cs)) == HideSources(PeopleOf(cs)) && ManagementOf(HideAll(cs)) == HideSources(ManagementOf(cs))
    ensures AssetsOf(HideAll(cs)) == HideSources(AssetsOf(cs)) && FinanceOf(HideAll(cs)) == HideSources(FinanceOf(cs))
  {
  }

  // ------------------------------------------------------------------ section by section

  lemma {:induction false} ShownRevenue(state: State, a: Added, b: Added)
    requires SameShown(a, b)
    ensures RevenueSectionOf(state, a) == RevenueSectionOf(state, b)
  {
  }

  lemma {:induction false} ShownDelivery(state: State, a: Added, b: Added)
    requires SameShown(a, b)
    ensures DeliverySectionOf(state, a, false) == DeliverySectionOf(state, b, false)
  {
  }

  lemma {:induction false} ShownPeople(state: State, a: Added, b: Added)
    requires SameShown(a, b)
    ensures PeopleSectionOf(state, a, false) == PeopleSectionOf(state, b, false)
  {
  }

  lemma {:induction false} HiddenScored(cs: seq<Company>)
    ensures Scored(HideAll(cs)) == Scored(cs)
  {
    if cs != [] {
      HiddenScored(cs[..|cs| - 1]);
      assert HideAll(cs)[..|cs| - 1] == HideAll(cs[..|cs| - 1]);
    }
  }

  lemma {:induction false} HiddenHealth(cs: seq<Company>)
    ensures HealthSectionOf(HideAll(cs)) == HealthSectionOf(cs)
  {
    HiddenSources(cs);
    HiddenState(ManagementOf(cs));
    HiddenScored(cs);
  }

  lemma {:induction false} HiddenProcurement(state: State, row: Row)
    ensures ProcurementSectionOf(state, Hide(row), false) == ProcurementSectionOf(state, row, false)
  {
    var a, b := ProcurementSectionOf(state, Hide(row), false), ProcurementSectionOf(state, row, false);
    assert ByStatus(HideOrders(row.orders), false) == ByStatus(row.orders, false);
    assert a.byStatus == b.byStatus;
  }

  lemma {:induction false} HiddenField(state: State, row: Row)
    ensures FieldSectionOf(state, Hide(row)) == FieldSectionOf(state, row)
  {
  }

  lemma {:induction false} HiddenSilent(cs: seq<Company>)
    ensures Silent(HideAll(cs)) == Silent(cs)
  {
    if cs != [] {
      HiddenSilent(cs[..|cs| - 1]);
      assert HideAll(cs)[..|cs| - 1] == HideAll(cs[..|cs| - 1]);
    }
  }

  lemma HiddenCompanyRow(c: Company)
    ensures CompanyRowOf(HideCompany(c)) == CompanyRowOf(c)
  {
  }

  lemma {:induction false} HiddenCompanyRows(cs: seq<Company>)
    ensures CompanyRows(HideAll(cs)) == CompanyRows(cs)
  {
    forall i | 0 <= i < |cs| ensures CompanyRows(HideAll(cs))[i] == CompanyRows(cs)[i] {
      HiddenCompanyRow(cs[i]);
    }
  }

  lemma {:induction false} HideTogether(a: seq<Source>, b: seq<Source>, c: seq<Source>)
    ensures HideSources(a + b + c) == HideSources(a) + HideSources(b) + HideSources(c)
  {
  }

  lemma {:induction false} HiddenAnyState(cs: seq<Company>)
    ensures var hidden := HideAll(cs);
            StateOf(RevenueOf(hidden) + DeliveryOf(hidden) + PeopleOf(hidden)) == StateOf(RevenueOf(cs) + DeliveryOf(cs) + PeopleOf(cs))
  {
    HiddenSources(cs);
    HideTogether(RevenueOf(cs), DeliveryOf(cs), PeopleOf(cs));
    HiddenState(RevenueOf(cs) + DeliveryOf(cs) + PeopleOf(cs));
  }

  lemma {:induction false} HiddenCompanies(cs: seq<Company>)
    ensures CompaniesSectionOf(HideAll(cs)) == CompaniesSectionOf(cs)
  {
    HiddenSilent(cs);
    HiddenAnyState(cs);
    HiddenCompanyRows(cs);
  }

  // ------------------------------------------------------------------ associates

  /** The same associates in the same order, with the same projects. */
  ghost predicate SameProjects(a: Associates, b: Associates) {
    && a.orgs == b.orgs && a.work.Keys == b.work.Keys
    && forall org :: org in a.work ==> a.work[org].projects == b.work[org].projects && a.work[org].running == b.work[org].running
  }

  lemma {:induction false} HiddenPartners(a: Associates, b: Associates, listA: Buckets, listB: Buckets, partners: seq<Partner>)
    requires SameProjects(a, b)
    ensures SameProjects(AddPartners(a, listA, HidePartners(partners)), AddPartners(b, listB, partners))
  {
    if partners != [] {
      HiddenPartners(a, b, listA, listB, partners[..|partners| - 1]);
      assert HidePartners(partners)[..|partners| - 1] == HidePartners(partners[..|partners| - 1]);
    }
  }

  lemma {:induction false} HiddenAssociates(cs: seq<Company>)
    ensures SameProjects(AssociatesOf(HideAll(cs)), AssociatesOf(cs))
  {
    if cs != [] {
      var init, last := cs[..|cs| - 1], cs[|cs| - 1];
      HiddenAssociates(init);
      assert HideAll(cs)[..|cs| - 1] == HideAll(init);
      HiddenPartners(AssociatesOf(HideAll(init)), AssociatesOf(init), ListOf(Hide(last.revenue.row), BY_WORK_UNIT),
                     ListOf(last.revenue.row, BY_WORK_UNIT), last.delivery.row.partners);
    }
  }

  lemma {:induction false} HiddenName(cs: seq<Company>, org: OrgId)
    ensures NameOf(HideAll(cs), org) == NameOf(cs, org)
  {
    if cs != [] {
      HiddenName(cs[..|cs| - 1], org);
      assert HideAll(cs)[..|cs| - 1] == HideAll(cs[..|cs| - 1]);
    }
  }

  lemma {:induction false} HiddenAssociateRows(cs: seq<Company>, a: Associates, b: Associates, known: bool, known': bool)
    requires SameProjects(a, b)
    ensures AssociateRows(HideAll(cs), a, false, known) == AssociateRows(cs, b, false, known')
  {
    forall i | 0 <= i < |a.orgs|
      ensures AssociateRows(HideAll(cs), a, false, known)[i] == AssociateRows(cs, b, false, known')[i]
    {
      HiddenName(cs, a.orgs[i]);
    }
  }

  /** What is shown of associates, and how they are sorted, says nothing about their revenue or what they were paid. */
  lemma {:induction false} HiddenAssociatesSection(cs: seq<Company>)
    ensures AssociatesSectionOf(HideAll(cs), false) == AssociatesSectionOf(cs, false)
  {
    HiddenSources(cs);
    HiddenState(DeliveryOf(cs));
    HiddenAssociates(cs);
    var hidden := HideAll(cs);
    var known := forall c :: c in cs && c.delivery.status.Ok? && c.delivery.row.partners != [] ==> c.revenue.status.Ok?;
    var known' := forall c :: c in hidden && c.delivery.status.Ok? && c.delivery.row.partners != [] ==> c.revenue.status.Ok?;
    HiddenAssociateRows(cs, AssociatesOf(hidden), AssociatesOf(cs), known', known);
  }

  // ------------------------------------------------------------------ the rest of the screen

  lemma {:induction false} ShownKpis(r: Read, r': Read, d: Read, d': Read, p: Read, p': Read, health: HealthSection)
    requires r.state == r'.state && d.state == d'.state && p.state == p'.state
    requires SameShown(r.all, r'.all) && SameShown(d.all, d'.all) && SameShown(p.all, p'.all)
    ensures KpisOf(r, d, p, health, NO_EXPENSES, false) == KpisOf(r', d', p', health, NO_EXPENSES, false)
  {
  }

  lemma {:induction false} HiddenApprovals(cs: seq<Company>)
    ensures ApprovalsOf(HideAll(cs)) == HideSources(ApprovalsOf(cs))
  {
    if cs != [] {
      HiddenApprovals(cs[..|cs| - 1]);
      assert HideAll(cs)[..|cs| - 1] == HideAll(cs[..|cs| - 1]);
    }
  }

  lemma {:induction false} HiddenPending(rows: seq<Row>)
    ensures AddApprovals(HideRows(rows)) == AddApprovals(rows)
  {
    if rows != [] {
      HiddenPending(rows[..|rows| - 1]);
      assert HideRows(rows)[..|rows| - 1] == HideRows(rows[..|rows| - 1]);
    }
  }

  lemma ShownAlerts(approvals: seq<Row>, r: Added, r': Added, d: Added, d': Added, f: Added, f': Added, inventory: Source)
    requires SameShown(r, r') && SameShown(d, d')
    ensures AlertsOf(HideRows(approvals), r, d, f, HideSource(inventory), false) == AlertsOf(approvals, r', d', f', inventory, false)
  {
    HiddenPending(approvals);
  }

  lemma {:induction false} HiddenAlertRows(cs: seq<Company>)
    ensures OkRows(ApprovalsOf(HideAll(cs))) == HideRows(OkRows(ApprovalsOf(cs)))
  {
    HiddenApprovals(cs);
    HiddenRows(ApprovalsOf(cs));
  }

  lemma {:induction false} HiddenCurrencies(rows: seq<Row>)
    ensures Currencies(HideRows(rows)) == Currencies(rows)
  {
    if rows != [] {
      HiddenCurrencies(rows[..|rows| - 1]);
      assert HideRows(rows)[..|rows| - 1] == HideRows(rows[..|rows| - 1]);
    }
  }

  lemma {:induction false} HiddenCurrency(rows: seq<Row>)
    ensures CurrencyOf(HideRows(rows)) == CurrencyOf(rows)
  {
    HiddenCurrencies(rows);
    if row :| row in rows && row.mixed {
      var i :| 0 <= i < |rows| && rows[i] == row;
      assert HideRows(rows)[i] in HideRows(rows);
    }
    if row :| row in HideRows(rows) && row.mixed {
      var i :| 0 <= i < |rows| && HideRows(rows)[i] == row;
      assert rows[i] in rows;
    }
  }

  lemma {:induction false} HiddenCurrencyRows(cs: seq<Company>, inventory: Source)
    ensures CurrencyRows(HideAll(cs), HideSource(inventory)) == HideRows(CurrencyRows(cs, inventory))
  {
    HiddenSources(cs);
    HiddenRows(RevenueOf(cs));
    HiddenRows(DeliveryOf(cs));
    HiddenRows(PeopleOf(cs));
    HiddenRows(AssetsOf(cs));
    HiddenRows(FinanceOf(cs));
    HiddenRows([inventory]);
    assert HideSources([inventory]) == [HideSource(inventory)];
  }

  lemma {:induction false} HiddenSections(cs: seq<Company>)
    ensures var hidden := HideAll(cs);
            && RevenueSectionOf(ReadAll(RevenueOf(hidden)).state, ReadAll(RevenueOf(hidden)).all)
               == RevenueSectionOf(ReadAll(RevenueOf(cs)).state, ReadAll(RevenueOf(cs)).all)
            && DeliverySectionOf(ReadAll(DeliveryOf(hidden)).state, ReadAll(DeliveryOf(hidden)).all, false)
               == DeliverySectionOf(ReadAll(DeliveryOf(cs)).state, ReadAll(DeliveryOf(cs)).all, false)
            && PeopleSectionOf(ReadAll(PeopleOf(hidden)).state, ReadAll(PeopleOf(hidden)).all, false)
               == PeopleSectionOf(ReadAll(PeopleOf(cs)).state, ReadAll(PeopleOf(cs)).all, false)
  {
    HiddenSources(cs);
    HiddenRead(RevenueOf(cs));
    ShownRevenue(ReadAll(RevenueOf(cs)).state, ReadAll(HideSources(RevenueOf(cs))).all, ReadAll(RevenueOf(cs)).all);
    HiddenRead(DeliveryOf(cs));
    ShownDelivery(ReadAll(DeliveryOf(cs)).state, ReadAll(HideSources(DeliveryOf(cs))).all, ReadAll(DeliveryOf(cs)).all);
    HiddenRead(PeopleOf(cs));
    ShownPeople(ReadAll(PeopleOf(cs)).state, ReadAll(HideSources(PeopleOf(cs))).all, ReadAll(PeopleOf(cs)).all);
  }

  lemma {:induction false} HiddenKpis(cs: seq<Company>)
    ensures var hidden := HideAll(cs);
            KpisOf(ReadAll(RevenueOf(hidden)), ReadAll(DeliveryOf(hidden)), ReadAll(PeopleOf(hidden)), HealthSectionOf(hidden),
                   NO_EXPENSES, false)
            == KpisOf(ReadAll(RevenueOf(cs)), ReadAll(DeliveryOf(cs)), ReadAll(PeopleOf(cs)), HealthSectionOf(cs), NO_EXPENSES, false)
  {
    HiddenSources(cs);
    HiddenHealth(cs);
    HiddenRead(RevenueOf(cs));
    HiddenRead(DeliveryOf(cs));
    HiddenRead(PeopleOf(cs));
    ShownKpis(ReadAll(HideSources(RevenueOf(cs))), ReadAll(RevenueOf(cs)), ReadAll(HideSources(DeliveryOf(cs))), ReadAll(DeliveryOf(cs)),
              ReadAll(HideSources(PeopleOf(cs))), ReadAll(PeopleOf(cs)), HealthSectionOf(cs));
  }

  lemma {:induction false} HiddenAlerts(cs: seq<Company>, inventory: Source)
    ensures var hidden := HideAll(cs);
            AlertsOf(OkRows(ApprovalsOf(hidden)), ReadAll(RevenueOf(hidden)).all, ReadAll(DeliveryOf(hidden)).all,
                     ReadAll(FinanceOf(hidden)).all, HideSource(inventory), false)
            == AlertsOf(OkRows(ApprovalsOf(cs)), ReadAll(RevenueOf(cs)).all, ReadAll(DeliveryOf(cs)).all, ReadAll(FinanceOf(cs)).all,
                        inventory, false)
  {
    var hidden := HideAll(cs);
    HiddenSources(cs);
    HiddenAlertRows(cs);
    HiddenRead(RevenueOf(cs));
    HiddenRead(DeliveryOf(cs));
    ShownAlerts(OkRows(ApprovalsOf(cs)), ReadAll(RevenueOf(hidden)).all, ReadAll(RevenueOf(cs)).all, ReadAll(DeliveryOf(hidden)).all,
                ReadAll(DeliveryOf(cs)).all, ReadAll(FinanceOf(hidden)).all, ReadAll(FinanceOf(cs)).all, inventory);
  }

  lemma {:induction false} HiddenCurrencyOf(cs: seq<Company>, inventory: Source)
    ensures CurrencyOf(CurrencyRows(HideAll(cs), HideSource(inventory))) == CurrencyOf(CurrencyRows(cs, inventory))
  {
    HiddenCurrencyRows(cs, inventory);
    HiddenCurrency(CurrencyRows(cs, inventory));
  }

  lemma HiddenOrganizations(cs: seq<Company>)
    ensures Organizations(HideAll(cs)) == Organizations(cs)
  {
  }

  lemma {:induction false} HiddenHeadlines(cs: seq<Company>, inventory: Source)
    ensures HeadlinesOf(HideAll(cs), HideSource(inventory), false) == HeadlinesOf(cs, inventory, false)
  {
    HiddenKpis(cs);
    HiddenAlerts(cs, inventory);
    HiddenCurrencyOf(cs, inventory);
    HiddenOrganizations(cs);
  }

  lemma {:induction false} HiddenWorkCards(cs: seq<Company>, inventory: Source)
    ensures WorkCardsOf(HideAll(cs), HideSource(inventory), false) == WorkCardsOf(cs, inventory, false)
  {
    HiddenCompanies(cs);
    HiddenAssociatesSection(cs);
    HiddenSections(cs);
    HiddenInventoryState(inventory);
    HiddenProcurement(StateOf([inventory]), inventory.row);
    HiddenField(StateOf([inventory]), inventory.row);
  }

  lemma {:induction false} HiddenMoneyCards(cs: seq<Company>, inventory: Source)
    ensures MoneyCardsOf(HideAll(cs), HideSource(inventory), false) == MoneyCardsOf(cs, inventory, false)
  {
    HiddenSections(cs);
    HiddenHealth(cs);
  }

  /** The screen without the permission is the screen of the answers with everything financial taken out. */
  lemma {:induction false} ScreenOfHidden(cs: seq<Company>, inventory: Source)
    ensures BuildScreen(HideAll(cs), HideSource(inventory), false) == BuildScreen(cs, inventory, false)
  {
    HiddenHeadlines(cs, inventory);
    HiddenWorkCards(cs, inventory);
    HiddenMoneyCards(cs, inventory);
  }

  lemma {:induction false} HiddenInventoryState(inventory: Source)
    ensures StateOf([HideSource(inventory)]) == StateOf([inventory])
  {
  }

  /** Two sets of answers that differ only in what is financial give the same screen. */
  lemma {:induction false} NothingFinancialShows(a: seq<Company>, inventoryA: Source, b: seq<Company>, inventoryB: Source)
    requires HideAll(a) == HideAll(b) && HideSource(inventoryA) == HideSource(inventoryB)
    ensures BuildScreen(a, inventoryA, false) == BuildScreen(b, inventoryB, false)
  {
    ScreenOfHidden(a, inventoryA);
    ScreenOfHidden(b, inventoryB);
  }
}
