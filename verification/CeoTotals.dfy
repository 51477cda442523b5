/** What the screen's loops add up: each total is the sum of what was entered for it, and nothing is counted twice or lost. */
module CeoTotals {
  import opened Common
  import opened Sorting
  import opened CeoScreen

  /** The reference: everything entered under one key. */
  function TotalFor(entries: Buckets, key: Key): int {
    if entries == [] then 0
    else TotalFor(entries[..|entries| - 1], key) + (if entries[|entries| - 1].0 == key then entries[|entries| - 1].1 else 0)
  }

  predicate Entered(entries: Buckets, key: Key) {
    exists i :: 0 <= i < |entries| && entries[i].0 == key
  }

  function KeyOf(entry: (Key, int)): Key {
    entry.0
  }

  ghost predicate UniqueKeys(entries: Buckets) {
    UniqueBy(KeyOf, entries)
  }

  lemma {:induction false} TotalsAre(entries: Buckets, key: Key)
    ensures key in TotalsOf(entries).amounts <==> Entered(entries, key)
    ensures key in TotalsOf(entries).amounts ==> TotalsOf(entries).amounts[key] == TotalFor(entries, key)
    ensures !Entered(entries, key) ==> TotalFor(entries, key) == 0
  {
    if entries != [] {
      var init, last := entries[..|entries| - 1], entries[|entries| - 1];
      TotalsAre(init, key);
      if Entered(init, key) {
        var i :| 0 <= i < |init| && init[i].0 == key;
        assert entries[i].0 == key;
      }
      if Entered(entries, key) && last.0 != key {
        var i :| 0 <= i < |entries| && entries[i].0 == key;
        assert init[i].0 == key;
      }
    }
  }

  /** The order kept beside a dict holds each of its keys once. */
  ghost predicate OrderIsKeys(t: Totals) {
    && (forall key :: key in t.keys <==> key in t.amounts)
    && forall i, j :: 0 <= i < j < |t.keys| ==> t.keys[i] != t.keys[j]
  }

  lemma AddKeepsOrder(t: Totals, key: Key, amount: int)
    requires OrderIsKeys(t)
    ensures OrderIsKeys(AddTo(t, key, amount))
  {
  }

  lemma {:induction false} KeysAre(entries: Buckets)
    ensures OrderIsKeys(TotalsOf(entries))
  {
    if entries != [] {
      KeysAre(entries[..|entries| - 1]);
      AddKeepsOrder(TotalsOf(entries[..|entries| - 1]), entries[|entries| - 1].0, entries[|entries| - 1].1);
    }
  }

  lemma {:induction false} PairsAre(entries: Buckets)
    ensures var pairs := Pairs(TotalsOf(entries));
            && UniqueKeys(pairs)
            && forall e :: e in pairs <==> Entered(entries, e.0) && e.1 == TotalFor(entries, e.0)
  {
    var t := TotalsOf(entries);
    var pairs := Pairs(t);
    KeysAre(entries);
    forall e ensures e in pairs <==> Entered(entries, e.0) && e.1 == TotalFor(entries, e.0) {
      TotalsAre(entries, e.0);
      if e in pairs {
        var i :| 0 <= i < |pairs| && pairs[i] == e;
        assert t.keys[i] in t.keys;
      }
      if e.0 in t.amounts && e.1 == t.amounts[e.0] {
        var i :| 0 <= i < |t.keys| && t.keys[i] == e.0;
        assert pairs[i] == e;
      }
    }
  }

  /** Each key entered appears once, with everything entered under it, and no other; and the amounts never rise. */
  lemma {:induction false} MergeIsTotalPerKey(entries: Buckets)
    ensures UniqueKeys(Merge(entries))
    ensures forall e :: e in Merge(entries) <==> Entered(entries, e.0) && e.1 == TotalFor(entries, e.0)
    ensures forall i, j :: 0 <= i < j < |Merge(entries)| ==> Merge(entries)[i].1 >= Merge(entries)[j].1
  {
    var pairs := Pairs(TotalsOf(entries));
    PairsAre(entries);
    SortHas(LargestFirst(), pairs);
    SortKeepsUnique(KeyOf, LargestFirst(), pairs);
    SortSorts(LargestFirst(), pairs);
    var merged := Merge(entries);
    forall i, j | 0 <= i < j < |merged| ensures merged[i].1 >= merged[j].1 {
      assert LargestFirst()(merged[i], merged[j]);
    }
  }

  // ------------------------------------------------------------------ relationships

  /** The references: the companies of one relationship, and their revenue, where it could be read. */
  function CompaniesOf(rows: seq<CompanyRow>, relationship: string): int {
    if rows == [] then 0
    else CompaniesOf(rows[..|rows| - 1], relationship) + (if rows[|rows| - 1].relationship == relationship then 1 else 0)
  }

  function RevenueFrom(rows: seq<CompanyRow>, relationship: string): int {
    if rows == [] then 0
    else
      var last := rows[|rows| - 1];
      RevenueFrom(rows[..|rows| - 1], relationship) + (if last.relationship == relationship then RowRevenue(last) else 0)
  }

  predicate Occurs(rows: seq<CompanyRow>, relationship: string) {
    exists row :: row in rows && row.relationship == relationship
  }

  lemma {:induction false} CountsAre(rows: seq<CompanyRow>, relationship: string)
    ensures var (companies, revenue) := CountAndAdd(rows);
            && (One(relationship) in companies.amounts <==> Occurs(rows, relationship))
            && (One(relationship) in revenue.amounts <==> Occurs(rows, relationship))
            && AmountFor(companies, One(relationship)) == CompaniesOf(rows, relationship)
            && AmountFor(revenue, One(relationship)) == RevenueFrom(rows, relationship)
  {
    if rows != [] {
      var init, last := rows[..|rows| - 1], rows[|rows| - 1];
      CountsAre(init, relationship);
      assert rows == init + [last];
      assert Occurs(rows, relationship) <==> Occurs(init, relationship) || last.relationship == relationship;
    }
  }

  lemma {:induction false} CountOrder(rows: seq<CompanyRow>)
    ensures OrderIsKeys(CountAndAdd(rows).0)
    ensures forall key :: key in CountAndAdd(rows).0.keys ==> key.One?
  {
    if rows != [] {
      CountOrder(rows[..|rows| - 1]);
      AddKeepsOrder(CountAndAdd(rows[..|rows| - 1]).0, One(rows[|rows| - 1].relationship), 1);
    }
  }

  function Rank(relationship: string): nat {
    if relationship == "own" then 0 else if relationship == "associate" then 1 else if relationship == "investment" then 2 else 3
  }

  /** Own companies, then associates, then investments, then any others by name. */
  predicate ComesBefore(a: string, b: string) {
    Rank(a) < Rank(b) || (Rank(a) == 3 && Rank(b) == 3 && a != b && StringLe(a, b))
  }

  lemma {:induction false} OthersAre(keys: seq<Key>)
    requires forall i, j :: 0 <= i < j < |keys| ==> keys[i] != keys[j]
    ensures forall name :: name in Others(keys) <==> One(name) in keys && name !in RELATIONSHIP_ORDER
    ensures Distinct(Others(keys))
  {
    if keys != [] {
      var init, last := keys[..|keys| - 1], keys[|keys| - 1];
      OthersAre(init);
      assert keys == init + [last];
      assert last !in init;
      var before := Others(init);
      assert forall i :: 0 <= i < |before| ==> before[i] in before;
    }
  }

  predicate Ranked(names: seq<string>) {
    forall i, j :: 0 <= i < j < |names| ==> Rank(names[i]) < Rank(names[j]) < 3
  }

  predicate InOrder(names: seq<string>) {
    forall i, j :: 0 <= i < j < |names| ==> ComesBefore(names[i], names[j])
  }

  function Present(name: string, keys: seq<Key>): seq<string> {
    if One(name) in keys then [name] else []
  }

  lemma KnownNames(keys: seq<Key>)
    ensures Among(RELATIONSHIP_ORDER, keys) == Present("own", keys) + Present("associate", keys) + Present("investment", keys)
  {
    assert RELATIONSHIP_ORDER[..2] == ["own", "associate"] && ["own", "associate"][..1] == ["own"] && ["own"][..0] == [];
    assert Among([], keys) == [];
    assert Among(["own"], keys) == Present("own", keys);
    assert Among(["own", "associate"], keys) == Present("own", keys) + Present("associate", keys);
  }

  lemma RankedTogether(a: seq<string>, b: seq<string>, c: seq<string>)
    requires |a| <= 1 && |b| <= 1 && |c| <= 1
    requires forall name :: name in a ==> Rank(name) == 0
    requires forall name :: name in b ==> Rank(name) == 1
    requires forall name :: name in c ==> Rank(name) == 2
    ensures Ranked(a + b + c)
  {
  }

  lemma KnownAre(keys: seq<Key>)
    ensures var known := Among(RELATIONSHIP_ORDER, keys);
            && (forall name :: name in known <==> One(name) in keys && name in RELATIONSHIP_ORDER)
            && Ranked(known)
  {
    var own, associate, investment := Present("own", keys), Present("associate", keys), Present("investment", keys);
    KnownNames(keys);
    assert Rank("own") == 0 && Rank("associate") == 1 && Rank("investment") == 2;
    RankedTogether(own, associate, investment);
    forall name ensures name in own + associate + investment <==> One(name) in keys && name in RELATIONSHIP_ORDER {
      assert name in own + associate + investment <==> name in own || name in associate || name in investment;
    }
  }

  function SameName(name: string): string {
    name
  }

  lemma SortedInOrder(names: seq<string>)
    requires Sorted(ByName(), names) && UniqueBy(SameName, names)
    requires forall name :: name in names ==> name !in RELATIONSHIP_ORDER
    ensures InOrder(names)
  {
    forall i, j | 0 <= i < j < |names| ensures ComesBefore(names[i], names[j]) {
      assert names[i] in names && names[j] in names;
      assert ByName()(names[i], names[j]) && SameName(names[i]) != SameName(names[j]);
    }
  }

  lemma {:induction false} OthersInOrder(keys: seq<Key>)
    requires forall i, j :: 0 <= i < j < |keys| ==> keys[i] != keys[j]
    ensures var others := Sort(ByName(), Others(keys));
            && (forall name :: name in others <==> One(name) in keys && name !in RELATIONSHIP_ORDER)
            && InOrder(others)
  {
    var others := Sort(ByName(), Others(keys));
    OthersAre(keys);
    SortHas(ByName(), Others(keys));
    ByNameIsOrder();
    SortSorts(ByName(), Others(keys));
    assert UniqueBy(SameName, Others(keys));
    SortKeepsUnique(SameName, ByName(), Others(keys));
    SortedInOrder(others);
  }

  lemma ByNameIsOrder()
    ensures Order(ByName())
  {
    forall a, b ensures ByName()(a, b) || ByName()(b, a) {
      StringLeTotal(a, b);
    }
    forall a, b, c | ByName()(a, b) && ByName()(b, c) ensures ByName()(a, c) {
      StringLeTransitive(a, b, c);
    }
  }

  lemma {:induction false} BothInOrder(known: seq<string>, others: seq<string>)
    requires Ranked(known) && InOrder(others)
    requires forall name :: name in known ==> Rank(name) < 3
    requires forall name :: name in others ==> Rank(name) == 3
    ensures InOrder(known + others)
  {
    var names := known + others;
    forall i, j | 0 <= i < j < |names| ensures ComesBefore(names[i], names[j]) {
      if j < |known| {
        assert names[i] == known[i] && names[j] == known[j];
      } else if i >= |known| {
        assert names[i] == others[i - |known|] && names[j] == others[j - |known|];
      } else {
        assert names[i] in known && names[j] in others;
      }
    }
  }

  lemma KnownRank(name: string)
    ensures Rank(name) < 3 <==> name in RELATIONSHIP_ORDER
  {
  }

  lemma {:induction false} NamesAre(keys: seq<Key>)
    requires forall i, j :: 0 <= i < j < |keys| ==> keys[i] != keys[j]
    ensures InOrder(Names(keys)) && forall name :: name in Names(keys) <==> One(name) in keys
  {
    var known, others := Among(RELATIONSHIP_ORDER, keys), Sort(ByName(), Others(keys));
    KnownAre(keys);
    OthersInOrder(keys);
    forall name ensures Rank(name) < 3 <==> name in RELATIONSHIP_ORDER {
      KnownRank(name);
    }
    BothInOrder(known, others);
  }

  /** What is answered for the relationships of these rows: each once, with its companies and revenue, in order. */
  ghost predicate RelationshipsOf(rows: seq<CompanyRow>, totals: seq<RelationshipTotal>) {
    && (forall t :: t in totals <==>
          && Occurs(rows, t.relationship)
          && t.companies == CompaniesOf(rows, t.relationship) && t.revenue == RevenueFrom(rows, t.relationship))
    && InOrder(seq(|totals|, i requires 0 <= i < |totals| => totals[i].relationship))
  }

  lemma {:induction false} RelationshipsAre(rows: seq<CompanyRow>)
    ensures RelationshipsOf(rows, Relationships(rows))
  {
    var names, answer := Names(CountAndAdd(rows).0.keys), Relationships(rows);
    CountOrder(rows);
    NamesAre(CountAndAdd(rows).0.keys);
    forall i | 0 <= i < |answer|
      ensures answer[i] == RelationshipTotal(names[i], CompaniesOf(rows, names[i]), RevenueFrom(rows, names[i]))
    {
      CountsAre(rows, names[i]);
    }
    forall name ensures name in names <==> Occurs(rows, name) {
      CountsAre(rows, name);
    }
    assert names == seq(|answer|, i requires 0 <= i < |answer| => answer[i].relationship);
    AnswerIsPerName(rows, names, answer);
  }

  lemma AnswerIsPerName(rows: seq<CompanyRow>, names: seq<string>, answer: seq<RelationshipTotal>)
    requires |answer| == |names| && forall name :: name in names <==> Occurs(rows, name)
    requires forall i :: 0 <= i < |answer| ==>
               answer[i] == RelationshipTotal(names[i], CompaniesOf(rows, names[i]), RevenueFrom(rows, names[i]))
    ensures forall t :: t in answer <==>
              && Occurs(rows, t.relationship)
              && t.companies == CompaniesOf(rows, t.relationship) && t.revenue == RevenueFrom(rows, t.relationship)
  {
    forall t ensures t in answer <==>
                     && Occurs(rows, t.relationship)
                     && t.companies == CompaniesOf(rows, t.relationship) && t.revenue == RevenueFrom(rows, t.relationship) {
      if t in answer {
        var i :| 0 <= i < |answer| && answer[i] == t;
        assert names[i] in names;
      }
      if t.relationship in names {
        var i :| 0 <= i < |names| && names[i] == t.relationship;
        assert answer[i] in answer;
      }
    }
  }

  method RelationshipTotals(rows: seq<CompanyRow>) returns (totals: seq<RelationshipTotal>)
    ensures totals == Relationships(rows) && RelationshipsOf(rows, totals)
  {
    var companies, revenue := Totals([], map[]), Totals([], map[]);
    for i := 0 to |rows|
      invariant (companies, revenue) == CountAndAdd(rows[..i])
    {
      assert rows[..i + 1][..i] == rows[..i];
      companies := AddTo(companies, One(rows[i].relationship), 1);
      revenue := AddTo(revenue, One(rows[i].relationship), RowRevenue(rows[i]));
    }
    assert rows[..|rows|] == rows;
    RelationshipsAre(rows);
    totals := Answered((companies, revenue));
  }

  // ------------------------------------------------------------------ associates

  /** One company's work given to one associate. */
  datatype Given = Given(org: OrgId, work: Work)

  function GivenBy(byUnit: Buckets, partners: seq<Partner>): seq<Given> {
    seq(|partners|, i requires 0 <= i < |partners| =>
      Given(partners[i].org, Work(partners[i].projects, partners[i].running, RevenueOnAll(byUnit, partners[i].workUnits),
                                  partners[i].subcontractCosts)))
  }

  /** The reference: everything given by the companies whose delivery answered. */
  function AllGiven(cs: seq<Company>): seq<Given> {
    if cs == [] then []
    else
      var last := cs[|cs| - 1];
      AllGiven(cs[..|cs| - 1])
      + (if last.delivery.status.Ok? then GivenBy(ListOf(last.revenue.row, BY_WORK_UNIT), last.delivery.row.partners) else [])
  }

  function Plus(a: Work, b: Work): Work {
    Work(a.projects + b.projects, a.running + b.running, a.revenue + b.revenue, a.paid + b.paid)
  }

  const NO_WORK := Work(0, 0, 0, 0)

  /** All the work given to one associate. */
  function WorkFor(given: seq<Given>, org: OrgId): Work {
    if given == [] then NO_WORK
    else
      var before, last := WorkFor(given[..|given| - 1], org), given[|given| - 1];
      if last.org == org then Plus(before, last.work) else before
  }

  predicate GivenTo(given: seq<Given>, org: OrgId) {
    exists g :: g in given && g.org == org
  }

  /** The associates are those given work, each once, with all the work given to it. */
  ghost predicate AddsUp(a: Associates, given: seq<Given>) {
    && (forall org :: org in a.orgs <==> org in a.work)
    && (forall org :: org in a.work <==> GivenTo(given, org))
    && Distinct(a.orgs)
    && forall org :: org in a.work ==> a.work[org] == WorkFor(given, org)
  }

  lemma {:induction false} NothingGiven(given: seq<Given>, org: OrgId)
    requires !GivenTo(given, org)
    ensures WorkFor(given, org) == NO_WORK
  {
    if given != [] {
      assert given[|given| - 1] in given;
      NothingGiven(given[..|given| - 1], org);
    }
  }

  lemma {:induction false} GivenOneMore(given: seq<Given>, g: Given, org: OrgId)
    ensures GivenTo(given + [g], org) <==> GivenTo(given, org) || org == g.org
    ensures WorkFor(given + [g], org) == if org == g.org then Plus(WorkFor(given, org), g.work) else WorkFor(given, org)
  {
    assert (given + [g])[..|given|] == given;
    assert g in given + [g] && forall x :: x in given + [g] <==> x in given || x == g;
  }

  lemma {:induction false} OneMoreGiven(a: Associates, given: seq<Given>, partner: Partner, revenue: int)
    requires AddsUp(a, given)
    ensures AddsUp(AddPartner(a, partner, revenue),
                   given + [Given(partner.org, Work(partner.projects, partner.running, revenue, partner.subcontractCosts))])
  {
    var g := Given(partner.org, Work(partner.projects, partner.running, revenue, partner.subcontractCosts));
    var after, more := AddPartner(a, partner, revenue), given + [g];
    if partner.org !in a.work {
      NothingGiven(given, partner.org);
    }
    assert Distinct(after.orgs) by {
      assert forall i :: 0 <= i < |a.orgs| ==> a.orgs[i] in a.orgs;
    }
    forall org
      ensures org in after.work <==> GivenTo(more, org)
      ensures org in after.work ==> after.work[org] == WorkFor(more, org)
    {
      GivenOneMore(given, g, org);
    }
  }

  lemma {:induction false} PartnersAddUp(a: Associates, given: seq<Given>, byUnit: Buckets, partners: seq<Partner>)
    requires AddsUp(a, given)
    ensures AddsUp(AddPartners(a, byUnit, partners), given + GivenBy(byUnit, partners))
  {
    if partners == [] {
      assert given + GivenBy(byUnit, partners) == given;
    } else {
      var init, last := partners[..|partners| - 1], partners[|partners| - 1];
      PartnersAddUp(a, given, byUnit, init);
      OneMoreGiven(AddPartners(a, byUnit, init), given + GivenBy(byUnit, init), last, RevenueOnAll(byUnit, last.workUnits));
      assert given + GivenBy(byUnit, init) + [GivenBy(byUnit, partners)[|partners| - 1]] == given + GivenBy(byUnit, partners);
    }
  }

  lemma {:induction false} AssociatesAddUp(cs: seq<Company>)
    ensures AddsUp(AssociatesOf(cs), AllGiven(cs))
  {
    if cs != [] {
      var init, last := cs[..|cs| - 1], cs[|cs| - 1];
      AssociatesAddUp(init);
      if last.delivery.status.Ok? {
        PartnersAddUp(AssociatesOf(init), AllGiven(init), ListOf(last.revenue.row, BY_WORK_UNIT), last.delivery.row.partners);
      } else {
        assert AllGiven(init) + [] == AllGiven(init);
      }
    }
  }

  method AssociateTotals(cs: seq<Company>) returns (a: Associates)
    ensures a == AssociatesOf(cs) && AddsUp(a, AllGiven(cs))
  {
    a := Associates([], map[]);
    for i := 0 to |cs|
      invariant a == AssociatesOf(cs[..i])
    {
      assert cs[..i + 1][..i] == cs[..i];
      if !cs[i].delivery.status.Ok? {
        continue;
      }
      var before, partners, byUnit := a, cs[i].delivery.row.partners, ListOf(cs[i].revenue.row, BY_WORK_UNIT);
      for j := 0 to |partners|
        invariant a == AddPartners(before, byUnit, partners[..j])
      {
        assert partners[..j + 1][..j] == partners[..j];
        a := AddPartner(a, partners[j], RevenueOnAll(byUnit, partners[j].workUnits));
      }
      assert partners[..|partners|] == partners;
    }
    assert cs[..|cs|] == cs;
    AssociatesAddUp(cs);
  }
}
