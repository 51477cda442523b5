/**
 The verticals a branch or department works in (services/org_unit_vertical_service.py): set on the unit
 itself, or inherited from the nearest unit above that sets any.

 The service reads the chain of units off the path; `Inherited` is the rule itself, by parent pointer.
*/
module UnitVerticals {
  import opened Common
  import opened Paths
  import opened OrgTree
  import opened OrgTreeSafety

  type VerticalId = string

  datatype Vertical = Vertical(client: string, active: bool)
  type Verticals = map<VerticalId, Vertical>

  /** The org_unit_verticals table, one row per unit and vertical set on it. */
  datatype Row = Row(unit: string, vertical: VerticalId)

  function OwnOf(rows: seq<Row>, unit: string): seq<VerticalId> {
    if rows == [] then []
    else OwnOf(rows[..|rows| - 1], unit) + (if rows[|rows| - 1].unit == unit then [rows[|rows| - 1].vertical] else [])
  }

  /** unit id -> the verticals set on that unit itself; units that set none are left out. */
  method OwnVerticalIds(rows: seq<Row>, ids: seq<string>) returns (own: map<string, seq<VerticalId>>)
    ensures forall u :: u in own <==> u in ids && OwnOf(rows, u) != []
    ensures forall u :: u in own ==> own[u] == OwnOf(rows, u)
  {
    own := map[];
    for i := 0 to |rows|
      invariant forall u :: u in own <==> u in ids && OwnOf(rows[..i], u) != []
      invariant forall u :: u in own ==> own[u] == OwnOf(rows[..i], u)
    {
      assert rows[..i + 1][..i] == rows[..i];
      var row := rows[i];
      if row.unit in ids {
        own := own[row.unit := (if row.unit in own then own[row.unit] else []) + [row.vertical]];
      }
    }
    assert rows[..|rows|] == rows;
  }

  /** The last unit of the chain that sets any verticals, reading upwards. */
  function NearestSource(rows: seq<Row>, chain: seq<string>): Option<string> {
    if chain == [] then None
    else if OwnOf(rows, chain[|chain| - 1]) != [] then Some(chain[|chain| - 1])
    else NearestSource(rows, chain[..|chain| - 1])
  }

  function Active(verticals: Verticals, ids: seq<VerticalId>): set<VerticalId> {
    set v | v in ids && v in verticals && verticals[v].active
  }

  /** Reads the chain from the unit upwards and stops at the first that sets any. */
  method NearestOnChain(rows: seq<Row>, chain: seq<string>, own: map<string, seq<VerticalId>>) returns (source: Option<string>)
    requires forall u :: u in own <==> u in chain && OwnOf(rows, u) != []
    ensures source == NearestSource(rows, chain)
    ensures source.Some? ==> source.value in own
  {
    var n := |chain|;
    assert chain[..|chain|] == chain;
    while n > 0 && chain[n - 1] !in own
      invariant 0 <= n <= |chain|
      invariant NearestSource(rows, chain) == NearestSource(rows, chain[..n])
    {
      assert chain[..n][..n - 1] == chain[..n - 1];
      assert chain[n - 1] in chain;
      n := n - 1;
    }
    if n > 0 {
      assert chain[n - 1] in chain;
      return Some(chain[n - 1]);
    }
    assert chain[..0] == [];
    return None;
  }

  /** What the service answers for a unit with this path: where the verticals come from, and the active ones. */
  method Resolve(rows: seq<Row>, verticals: Verticals, path: string) returns (source: Option<string>, effective: set<VerticalId>)
    ensures source == NearestSource(rows, PathIds(path))
    ensures effective == if source.None? then {} else Active(verticals, OwnOf(rows, source.value))
    ensures forall v :: v in effective <==>
              source.Some? && v in OwnOf(rows, source.value) && v in verticals && verticals[v].active
  {
    var chain := PathIds(path);
    var own := OwnVerticalIds(rows, chain);
    source := NearestOnChain(rows, chain, own);
    effective := if source.None? then {} else Active(verticals, own[source.value]);
  }

  // ------------------------------------------------------------------ the rule, by parent pointer

  /** A unit's own verticals if it sets any, else its parent's. */
  ghost function Inherited(units: Units, rows: seq<Row>, id: Id): seq<VerticalId>
    requires TreeInv(units) && id in units
    decreases |units[id].path|
  {
    if OwnOf(rows, id) != [] then OwnOf(rows, id)
    else
      PathShape(units, id);
      match units[id].parent case None => [] case Some(p) => Inherited(units, rows, p)
  }

  /** What reading the path answers is what the rule says. */
  lemma {:induction false} PathGivesInherited(units: Units, rows: seq<Row>, id: Id)
    requires TreeInv(units) && id in units
    ensures var source := NearestSource(rows, PathIds(units[id].path));
            Inherited(units, rows, id) == if source.None? then [] else OwnOf(rows, source.value)
    decreases |units[id].path|
  {
    PathShape(units, id);
    IdsOfChild(units, id);
    if units[id].parent.Some? {
      PathGivesInherited(units, rows, units[id].parent.value);
    }
  }

  lemma IdsOfChild(units: Units, id: Id)
    requires TreeInv(units) && id in units
    ensures var ids := PathIds(units[id].path);
            && ids != [] && ids[|ids| - 1] == id
            && (units[id].parent.None? ==> |ids| == 1)
            && (units[id].parent.Some? ==>
                  units[id].parent.value in units && ids[..|ids| - 1] == PathIds(units[units[id].parent.value].path))
  {
    PathShape(units, id);
    var chain := PathIsChain(units, id);
    if units[id].parent.Some? {
      assert |chain| > 1;
      var above := chain[..|chain| - 1];
      PathShape(units, units[id].parent.value);
      ChildIsInjective(units[units[id].parent.value].path, id, Render(above), id);
      ReadRenderedPath(above);
    } else {
      assert forall k :: 1 <= k < |chain| ==> units[chain[k]].parent == Some(chain[k - 1]);
    }
  }

  // ------------------------------------------------------------------ changing a unit's verticals

  datatype VerticalError = NoSuchUnit | TeamsFollow | UnknownOrArchived

  predicate TakesOwnVerticals(unit: OrgUnit) {
    unit.unitType == Some("branch") || unit.unitType == Some("department")
  }

  /** Known to the client, and active unless the unit already has it. */
  predicate MayBeSet(verticals: Verticals, client: string, current: seq<VerticalId>, v: VerticalId) {
    v in verticals && verticals[v].client == client && (verticals[v].active || v in current)
  }

  function Refusal(units: Units, rows: seq<Row>, verticals: Verticals, org: string, client: string, id: Id, wanted: seq<VerticalId>)
    : Option<VerticalError>
  {
    if Find(units, id, org).None? then Some(NoSuchUnit)
    else if !TakesOwnVerticals(units[id]) then Some(TeamsFollow)
    else if exists v :: v in wanted && !MayBeSet(verticals, client, OwnOf(rows, id), v) then Some(UnknownOrArchived)
    else None
  }

  /** The verticals set on a unit are those its rows name. */
  lemma {:induction false} OwnAre(rows: seq<Row>, unit: string)
    ensures forall v :: v in OwnOf(rows, unit) <==> Row(unit, v) in rows
  {
    if rows != [] {
      OwnAre(rows[..|rows| - 1], unit);
      assert rows == rows[..|rows| - 1] + [rows[|rows| - 1]];
    }
  }

  /**
   A replacement is refused exactly when the unit is not the organization's, when it is neither a branch nor a
   department, or when a wanted vertical is unknown, another client's, or archived and not set on the unit already.
  */
  lemma {:induction false} RefusedExactlyWhen(units: Units, rows: seq<Row>, verticals: Verticals, org: string, client: string, id: Id,
                                              wanted: seq<VerticalId>)
    ensures var refusal := Refusal(units, rows, verticals, org, client, id, wanted);
            && (refusal == Some(NoSuchUnit) <==> id !in units || units[id].org != org)
            && (refusal == Some(TeamsFollow) <==>
                  id in units && units[id].org == org
                  && units[id].unitType != Some("branch") && units[id].unitType != Some("department"))
            && (refusal.None? <==>
                  && id in units && units[id].org == org
                  && (units[id].unitType == Some("branch") || units[id].unitType == Some("department"))
                  && forall v :: v in wanted ==>
                       v in verticals && verticals[v].client == client && (verticals[v].active || Row(id, v) in rows))
  {
    OwnAre(rows, id);
  }

  function Without(rows: seq<Row>, unit: string): seq<Row> {
    if rows == [] then []
    else Without(rows[..|rows| - 1], unit) + (if rows[|rows| - 1].unit == unit then [] else [rows[|rows| - 1]])
  }

  lemma {:induction false} OneMoreRow(rows: seq<Row>, row: Row, unit: string)
    ensures OwnOf(rows + [row], unit) == OwnOf(rows, unit) + (if unit == row.unit then [row.vertical] else [])
  {
  }

  class VerticalTable {
    var rows: seq<Row>

    /** Replace the unit's own verticals: delete its rows, insert the wanted ones. */
    method ReplaceUnitVerticals(units: Units, verticals: Verticals, org: string, client: string, id: Id, wanted: seq<VerticalId>)
      returns (refusal: Option<VerticalError>)
      modifies this
      ensures refusal == Refusal(units, old(rows), verticals, org, client, id, wanted)
      ensures refusal.Some? ==> rows == old(rows)
      ensures refusal.None? ==>
                && OwnOf(rows, id) == Dedupe(wanted) && (forall v :: v in OwnOf(rows, id) <==> v in wanted)
                && forall u :: u != id ==> OwnOf(rows, u) == OwnOf(old(rows), u)
    {
      refusal := Refusal(units, rows, verticals, org, client, id, wanted);
      if refusal.Some? {
        return;
      }
      var unique := Dedupe(wanted);
      DedupeKeepsEachOnce(wanted);
      WithoutUnit(rows, id);
      rows := Without(rows, id);
      for i := 0 to |unique|
        invariant OwnOf(rows, id) == unique[..i]
        invariant forall u :: u != id ==> OwnOf(rows, u) == OwnOf(old(rows), u)
      {
        forall u ensures OwnOf(rows + [Row(id, unique[i])], u) == OwnOf(rows, u) + (if u == id then [unique[i]] else []) {
          OneMoreRow(rows, Row(id, unique[i]), u);
        }
        rows := rows + [Row(id, unique[i])];
      }
      assert unique[..|unique|] == unique;
    }
  }

  lemma {:induction false} WithoutUnit(rows: seq<Row>, unit: string)
    ensures OwnOf(Without(rows, unit), unit) == []
    ensures forall u :: u != unit ==> OwnOf(Without(rows, unit), u) == OwnOf(rows, u)
  {
    if rows != [] {
      var init, last := rows[..|rows| - 1], rows[|rows| - 1];
      WithoutUnit(init, unit);
      var rest := Without(init, unit);
      if last.unit != unit {
        var kept := rest + [last];
        assert Without(rows, unit) == kept;
        assert kept[..|kept| - 1] == rest;
      } else {
        assert Without(rows, unit) == rest + [] == rest;
      }
    }
  }

  // ------------------------------------------------------------------ runs

  datatype Setup = Setup(tables: Tables, rows: seq<Row>, verticals: Verticals)

  datatype Change =
    | Tree(request: Request)
    | Replace(org: string, client: string, id: Id, wanted: seq<VerticalId>)
    | SetVertical(vertical: VerticalId, value: Vertical)

  /** The rows after a replacement: any table whose lists are the ones the method promises. */
  ghost predicate Replaced(before: seq<Row>, after: seq<Row>, id: Id, wanted: seq<VerticalId>) {
    OwnOf(after, id) == Dedupe(wanted) && forall u :: u != id ==> OwnOf(after, u) == OwnOf(before, u)
  }

  ghost predicate Changes(s: Setup, change: Change, s': Setup) {
    match change
    case Tree(request) => s' == s.(tables := Serve(s.tables, request))
    case SetVertical(vertical, value) => s' == s.(verticals := s.verticals[vertical := value])
    case Replace(org, client, id, wanted) =>
      if Refusal(s.tables.units, s.rows, s.verticals, org, client, id, wanted).Some? then s' == s
      else s' == s.(rows := s'.rows) && Replaced(s.rows, s'.rows, id, wanted)
  }

  /** Only existing branches and departments set verticals. */
  ghost predicate SetupInv(s: Setup) {
    && Inv(s.tables)
    && forall u: string :: OwnOf(s.rows, u) != [] ==> SetsOwn(s.tables.units, u)
  }

  predicate SetsOwn(units: Units, u: string) {
    u != "" && '/' !in u && u in units && TakesOwnVerticals(units[u])
  }

  ghost predicate Reaches(s: Setup, changes: seq<Change>, s': Setup)
    decreases |changes|
  {
    if changes == [] then s' == s
    else exists mid :: Changes(s, changes[0], mid) && Reaches(mid, changes[1..], s')
  }

  /** A request never changes an existing unit's type and never removes a unit. */
  lemma TypesAreFixed(t: Tables, request: Request, u: Id)
    requires u in t.units
    ensures u in Serve(t, request).units && Serve(t, request).units[u].unitType == t.units[u].unitType
  {
  }

  lemma ChangeKeepsSetupInv(s: Setup, change: Change, s': Setup)
    requires SetupInv(s) && Changes(s, change, s')
    ensures SetupInv(s')
  {
    if change.Tree? {
      ServeKeepsInv(s.tables, change.request);
      forall u: string | OwnOf(s'.rows, u) != [] ensures SetsOwn(s'.tables.units, u) {
        assert SetsOwn(s.tables.units, u);
        TypesAreFixed(s.tables, change.request, u);
      }
    } else if change.Replace? {
      forall u: string | OwnOf(s'.rows, u) != [] ensures SetsOwn(s'.tables.units, u) {
        if u != change.id {
          assert SetsOwn(s.tables.units, u) || s' != s;
        }
      }
    }
  }

  lemma {:induction false} ReachableSetupInv(s: Setup, changes: seq<Change>, s': Setup)
    requires SetupInv(s) && Reaches(s, changes, s')
    ensures SetupInv(s')
    decreases |changes|
  {
    if changes != [] {
      var mid :| Changes(s, changes[0], mid) && Reaches(mid, changes[1..], s');
      ChangeKeepsSetupInv(s, changes[0], mid);
      ReachableSetupInv(mid, changes[1..], s');
    }
  }

  const NOTHING_SET := Setup(Tables(map[], map[]), [], map[])

  /**
   After any creates, moves and vertical changes, every unit's effective verticals, as read off its path, are the
   active ones of the list it sets or inherits by parent; a team sets none and so has its department's.
  */
  lemma {:induction false} EffectiveFollowsParents(changes: seq<Change>, s: Setup, id: Id)
    requires Reaches(NOTHING_SET, changes, s) && id in s.tables.units
    ensures TreeInv(s.tables.units)
    ensures var source := NearestSource(s.rows, PathIds(s.tables.units[id].path));
            var effective := if source.None? then {} else Active(s.verticals, OwnOf(s.rows, source.value));
            forall v :: v in effective <==>
              v in Inherited(s.tables.units, s.rows, id) && v in s.verticals && s.verticals[v].active
    ensures s.tables.units[id].unitType == Some("team") ==>
              && OwnOf(s.rows, id) == []
              && s.tables.units[id].parent.Some? && s.tables.units[id].parent.value in s.tables.units
              && Inherited(s.tables.units, s.rows, id) == Inherited(s.tables.units, s.rows, s.tables.units[id].parent.value)
  {
    ReachableSetupInv(NOTHING_SET, changes, s);
    PathGivesInherited(s.tables.units, s.rows, id);
    PathShape(s.tables.units, id);
    assert Placed(s.tables.units, id);
  }
}
