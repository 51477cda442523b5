/**
 What every create and move keeps: parent pointers and paths, two separate records of the same
 tree, agree.

 The reference definition of ancestry (`Up`, `AtOrAbove`) follows parent pointers only; the paths
 are compared with it, never used to define it.
*/
module OrgTreeSafety {
  import opened Common
  import opened Paths
  import opened OrgTree

  // ------------------------------------------------------------------ ancestry by parent pointers

  /** The unit `steps` parents above `id`, if there is one. */
  function Up(units: Units, id: Id, steps: nat): Option<Id>
    decreases steps
  {
    if id !in units then None
    else if steps == 0 then Some(id)
    else match units[id].parent case None => None case Some(p) => Up(units, p, steps - 1)
  }

  ghost predicate AtOrAbove(units: Units, a: Id, b: Id) {
    exists steps: nat :: Up(units, b, steps) == Some(a)
  }

  // ------------------------------------------------------------------ the invariant

  predicate RulesHold(units: Units, unit: OrgUnit) {
    match unit.unitType
    case None => false
    case Some(t) =>
      (t == "branch" && unit.parent.None?)
      || (unit.parent.Some? && unit.parent.value in units
          && var above := units[unit.parent.value].unitType;
             (t == "department" && (above == Some("branch") || above == Some("department")))
             || (t == "team" && above == Some("department")))
  }

  /** One unit: it obeys the rules, and its path is its parent's path (or "/") with its own id added. */
  predicate Placed(units: Units, id: Id)
    requires id in units
  {
    var unit := units[id];
    && RulesHold(units, unit)
    && match unit.parent
       case None => unit.path == Child("/", id)
       case Some(p) => p in units && units[p].org == unit.org && unit.path == Child(units[p].path, id)
  }

  ghost predicate TreeInv(units: Units) {
    forall id {:trigger Placed(units, id)} :: id in units ==> Placed(units, id)
  }

  /** Every assignment's copied path is its scope unit's path. */
  predicate ScopeCurrent(units: Units, assignment: Assignment) {
    match assignment.scopeUnit
    case None => assignment.scopePath.None?
    case Some(u) => u in units && assignment.scopePath == Some(units[u].path)
  }

  ghost predicate CodesUnique(units: Units) {
    forall a: Id, b: Id :: a in units && b in units && units[a].org == units[b].org && Lower(units[a].code) == Lower(units[b].code) ==> a == b
  }

  ghost predicate Inv(t: Tables) {
    && TreeInv(t.units)
    && CodesUnique(t.units)
    && forall a :: a in t.assignments ==> ScopeCurrent(t.units, t.assignments[a])
  }

  // ------------------------------------------------------------------ paths and ancestry agree

  /** What a unit's own id was added to. */
  function AbovePath(units: Units, id: Id): string
    requires id in units
  {
    if units[id].parent.Some? && units[id].parent.value in units then units[units[id].parent.value].path else "/"
  }

  lemma PathShape(units: Units, id: Id)
    requires id in units && TreeInv(units)
    ensures units[id].parent.Some? ==> units[id].parent.value in units && units[units[id].parent.value].org == units[id].org
    ensures units[id].path == Child(AbovePath(units, id), id)
    ensures EndsWithSlash(units[id].path) && EndsWithSlash(AbovePath(units, id)) && |units[id].path| > |AbovePath(units, id)| + 1
  {
    assert Placed(units, id);
    if units[id].parent.Some? {
      assert Placed(units, units[id].parent.value);
    }
  }

  lemma {:induction false} PrefixImpliesAncestor(units: Units, a: Id, b: Id)
    requires TreeInv(units) && a in units && b in units && units[a].path <= units[b].path
    ensures AtOrAbove(units, a, b)
    decreases |units[b].path|
  {
    PathShape(units, a);
    PathShape(units, b);
    PrefixEndsAtSlash(units[a].path, AbovePath(units, b), b);
    if units[a].path == units[b].path {
      SamePathSameUnit(units, a, b);
      assert Up(units, b, 0) == Some(a);
    } else {
      assert units[b].parent.Some?;  // "/" alone is no unit's path
      PrefixImpliesAncestor(units, a, units[b].parent.value);
      var steps: nat :| Up(units, units[b].parent.value, steps) == Some(a);
      assert Up(units, b, steps + 1) == Some(a);
    }
  }

  lemma SamePathSameUnit(units: Units, a: Id, b: Id)
    requires TreeInv(units) && a in units && b in units && units[a].path == units[b].path
    ensures a == b
  {
    PathShape(units, a);
    PathShape(units, b);
    ChildIsInjective(AbovePath(units, a), a, AbovePath(units, b), b);
  }

  lemma {:induction false} AncestorPathIsPrefix(units: Units, a: Id, b: Id, steps: nat)
    requires TreeInv(units) && b in units && Up(units, b, steps) == Some(a)
    ensures a in units && units[a].path <= units[b].path && units[a].org == units[b].org
    ensures steps > 0 ==> |units[a].path| < |units[b].path|
    decreases steps
  {
    if steps > 0 {
      assert Placed(units, b);
      AncestorPathIsPrefix(units, a, units[b].parent.value, steps - 1);
    }
  }

  /** "Path A is a string prefix of path B" holds exactly when A is B or above B by parent pointers. */
  lemma PrefixIsAncestry(units: Units, a: Id, b: Id)
    requires TreeInv(units) && a in units && b in units
    ensures units[a].path <= units[b].path <==> AtOrAbove(units, a, b)
  {
    if units[a].path <= units[b].path {
      PrefixImpliesAncestor(units, a, b);
    }
    if AtOrAbove(units, a, b) {
      var steps: nat :| Up(units, b, steps) == Some(a);
      AncestorPathIsPrefix(units, a, b, steps);
    }
  }

  /** No unit is above itself. */
  lemma NoCycles(units: Units, id: Id, steps: nat)
    requires TreeInv(units) && id in units && Up(units, id, steps) == Some(id)
    ensures steps == 0
  {
    AncestorPathIsPrefix(units, id, id, steps);
  }

  /** `chain` lists a unit's ancestors by parent pointer, the top unit first, the unit itself last. */
  ghost predicate IsChain(units: Units, chain: seq<Id>, id: Id) {
    && chain != [] && chain[|chain| - 1] == id
    && (forall k :: 0 <= k < |chain| ==> chain[k] in units)
    && units[chain[0]].parent.None?
    && forall k :: 1 <= k < |chain| ==> units[chain[k]].parent == Some(chain[k - 1])
  }

  lemma ExtendChain(units: Units, above: seq<Id>, p: Id, id: Id)
    requires IsChain(units, above, p) && id in units && units[id].parent == Some(p)
    ensures IsChain(units, above + [id], id) && Render(above + [id]) == Child(Render(above), id)
  {
  }

  lemma {:induction false} ChainOf(units: Units, id: Id) returns (chain: seq<Id>)
    requires TreeInv(units) && id in units
    ensures IsChain(units, chain, id) && units[id].path == Render(chain)
    decreases |units[id].path|
  {
    PathShape(units, id);
    if units[id].parent.None? {
      chain := [id];
      assert chain[..0] == [];
    } else {
      var above := ChainOf(units, units[id].parent.value);
      ExtendChain(units, above, units[id].parent.value, id);
      chain := above + [id];
    }
  }

  /** Each unit's path is its ancestors' ids from the top to itself, and reads back as that list. */
  lemma PathIsChain(units: Units, id: Id) returns (chain: seq<Id>)
    requires TreeInv(units) && id in units
    ensures IsChain(units, chain, id) && units[id].path == Render(chain) && PathIds(units[id].path) == chain
  {
    chain := ChainOf(units, id);
    ReadRenderedPath(chain);
  }

  // ------------------------------------------------------------------ creating

  lemma CreateKeepsInv(t: Tables, newId: Id, org: string, code: string, kind: Kind, parentId: Option<Id>, headKnown: bool)
    requires Inv(t) && newId !in t.units
    ensures var r := CreateUnit(t, newId, org, code, kind, parentId, headKnown);
            r.Success? ==> Inv(r.value)
  {
    var r := CreateUnit(t, newId, org, code, kind, parentId, headKnown);
    if r.Success? {
      var units := r.value.units;
      assert units[newId].unitType == Some(TypeName(kind));
      forall id | id in units ensures Placed(units, id) {
        if id != newId {
          assert Placed(t.units, id);
        }
      }
    }
  }

  /**
   A unit is created exactly when no unit of the organization has its code, letter case aside, its head is known, and
   it sits where its type may: a branch at the top, a department under a branch or department of the organization, a
   team under a department of it. What is then there is the old table and that one unit, active and in version 1.
  */
  lemma CreateAllowedExactlyWhen(t: Tables, newId: Id, org: string, code: string, kind: Kind, parentId: Option<Id>, headKnown: bool)
    ensures var above := if parentId.Some? && parentId.value in t.units && t.units[parentId.value].org == org
                         then Some(t.units[parentId.value]) else None;
            var r := CreateUnit(t, newId, org, code, kind, parentId, headKnown);
            && (r.Success? <==>
                  && (forall id :: id in t.units && t.units[id].org == org ==> Lower(t.units[id].code) != Lower(code))
                  && headKnown
                  && match kind
                     case Branch => parentId.None?
                     case Department => above.Some? && (above.value.unitType == Some("branch") || above.value.unitType == Some("department"))
                     case Team => above.Some? && above.value.unitType == Some("department"))
            && (r == Failure(DuplicateCode) <==> exists id :: id in t.units && t.units[id].org == org && Lower(t.units[id].code) == Lower(code))
            && (r == Failure(UnitNotFound) <==> r != Failure(DuplicateCode) && parentId.Some? && above.None?)
            && (r.Success? ==>
                  var unitType := match kind case Branch => "branch" case Department => "department" case Team => "team";
                  var path := (if above.Some? then above.value.path else "/") + newId + "/";
                  r.value == Tables(t.units[newId := OrgUnit(org, code, Some(unitType), parentId, path, true, 1)], t.assignments))
  {
    assert "branch" != "department" && "branch" != "team" && "department" != "team";
    assert ["branch", "department"][0] == "branch" && ["branch", "department"][1] == "department" && ["department"][0] == "department";
  }

  // ------------------------------------------------------------------ moving

  /** The part of a subtree below `id`: its parent is in the subtree too. */
  lemma ParentInSubtree(units: Units, id: Id, x: Id)
    requires TreeInv(units) && id in units && x in units && x != id && units[id].path <= units[x].path
    ensures units[x].parent.Some? && units[x].parent.value in units && units[id].path <= units[units[x].parent.value].path
    ensures units[x].org == units[id].org
  {
    PathShape(units, id);
    PathShape(units, x);
    PrefixEndsAtSlash(units[id].path, AbovePath(units, x), x);
    if units[id].path == units[x].path {
      SamePathSameUnit(units, id, x);
    }
    PrefixIsAncestry(units, id, x);
    var steps: nat :| Up(units, x, steps) == Some(id);
    AncestorPathIsPrefix(units, id, x, steps);
  }

  lemma RebaseChild(parentPath: string, x: Id, oldPrefix: string, newPrefix: string)
    requires oldPrefix <= parentPath
    ensures oldPrefix <= Child(parentPath, x)
    ensures Rebase(Child(parentPath, x), oldPrefix, newPrefix) == Child(Rebase(parentPath, oldPrefix, newPrefix), x)
  {
  }

  predicate MayMove(units: Units, id: Id, newParent: Id) {
    && id in units && newParent in units && units[newParent].org == units[id].org
    && !(units[id].path <= units[newParent].path)
    && HierarchyAllows(units[id].unitType, Some(units[newParent]))
  }

  lemma MovedStaysPlaced(units: Units, id: Id, newParent: Id, x: Id)
    requires TreeInv(units) && MayMove(units, id, newParent) && x in units
    ensures Placed(MovedUnits(units, id, newParent), x)
  {
    var moved := MovedUnits(units, id, newParent);
    assert Placed(units, x) && Placed(units, id);
    var oldPrefix, newPrefix := units[id].path, Child(units[newParent].path, id);
    if x == id {
      assert moved[newParent] == units[newParent];
    } else if oldPrefix <= units[x].path {
      ParentInSubtree(units, id, x);
      var p := units[x].parent.value;
      RebaseChild(units[p].path, x, oldPrefix, newPrefix);
      if p == id {
        assert Rebase(units[id].path, oldPrefix, newPrefix) == newPrefix + [] == newPrefix;
      }
      assert moved[p].path == Rebase(units[p].path, oldPrefix, newPrefix);
    } else if units[x].parent.Some? {
      ParentStaysOutside(units, id, x);
    }
  }

  lemma MoveKeepsTree(units: Units, id: Id, newParent: Id)
    requires TreeInv(units) && MayMove(units, id, newParent)
    ensures TreeInv(MovedUnits(units, id, newParent))
  {
    forall x | x in units ensures Placed(MovedUnits(units, id, newParent), x) {
      MovedStaysPlaced(units, id, newParent, x);
    }
  }

  lemma MoveKeepsScopes(t: Tables, id: Id, newParent: Id, a: string)
    requires Inv(t) && MayMove(t.units, id, newParent) && a in t.assignments
    ensures var units := MovedUnits(t.units, id, newParent);
            ScopeCurrent(units, MovedAssignments(t.assignments, t.units[id].path, Child(t.units[newParent].path, id))[a])
  {
    var assignment := t.assignments[a];
    assert ScopeCurrent(t.units, assignment);
    if assignment.scopeUnit.Some? {
      var u := assignment.scopeUnit.value;
      var oldPrefix, newPrefix := t.units[id].path, Child(t.units[newParent].path, id);
      assert Placed(t.units, u);
      PathShape(t.units, u);
      if oldPrefix <= t.units[u].path {
        if u != id {
          ParentInSubtree(t.units, id, u);
        } else {
          assert Rebase(oldPrefix, oldPrefix, newPrefix) == newPrefix + [] == newPrefix;
        }
      }
    }
  }

  lemma MoveKeepsInv(t: Tables, id: Id, org: string, newParent: Id, ifMatch: IfMatch)
    requires Inv(t)
    ensures var r := MoveUnit(t, id, org, newParent, ifMatch);
            r.Success? ==> Inv(r.value)
  {
    var r := MoveUnit(t, id, org, newParent, ifMatch);
    if r.Success? {
      MoveKeepsTree(t.units, id, newParent);
      forall a | a in r.value.assignments ensures ScopeCurrent(r.value.units, r.value.assignments[a]) {
        MoveKeepsScopes(t, id, newParent, a);
      }
    }
  }

  lemma AllowedUnder(units: Units, unit: OrgUnit, above: OrgUnit)
    requires RulesHold(units, unit)
    ensures HierarchyAllows(unit.unitType, Some(above)) <==>
            || (unit.unitType == Some("department") && (above.unitType == Some("branch") || above.unitType == Some("department")))
            || (unit.unitType == Some("team") && above.unitType == Some("department"))
  {
  }

  /**
   A current If-Match lets a move through exactly when both units exist in the organization, the new parent
   is neither the unit nor below it by parent pointers, and it is a department under a branch or department
   or a team under a department: a branch never moves.
  */
  lemma MoveAllowedExactlyWhen(t: Tables, id: Id, org: string, newParent: Id, ifMatch: IfMatch)
    requires Inv(t)
    ensures MoveUnit(t, id, org, newParent, ifMatch).Success? <==>
            && id in t.units && t.units[id].org == org
            && newParent in t.units && t.units[newParent].org == org
            && (ifMatch.Other? || ifMatch == Version(t.units[id].version))
            && !AtOrAbove(t.units, id, newParent)
            && var above := t.units[newParent].unitType;
               (t.units[id].unitType == Some("department") && (above == Some("branch") || above == Some("department")))
               || (t.units[id].unitType == Some("team") && above == Some("department"))
  {
    if id in t.units && newParent in t.units {
      assert Placed(t.units, id) && Placed(t.units, newParent);
      PrefixIsAncestry(t.units, id, newParent);
      AllowedUnder(t.units, t.units[id], t.units[newParent]);
      if id == newParent {
        assert Up(t.units, newParent, 0) == Some(id);
      }
    }
  }

  /** Why a move is refused: what the checks say in their order, a cycle told by the parent pointers. */
  lemma MoveRefusedAs(t: Tables, id: Id, org: string, newParent: Id, ifMatch: IfMatch)
    requires Inv(t)
    ensures var r := MoveUnit(t, id, org, newParent, ifMatch);
            var found := id in t.units && t.units[id].org == org;
            var current := found && (ifMatch.Other? || ifMatch == Version(t.units[id].version));
            var above := newParent in t.units && t.units[newParent].org == org;
            && (r == Failure(PreconditionRequired) <==> found && ifMatch.Missing?)
            && (r == Failure(PreconditionFailed) <==> found && ifMatch.Version? && ifMatch.number != t.units[id].version)
            && (r == Failure(Cycle) <==> current && above && AtOrAbove(t.units, id, newParent))
            && (r == Failure(UnitNotFound) <==> !found || (current && !above))
            && (r == Failure(HierarchyInvalid) <==>
                  current && above && !AtOrAbove(t.units, id, newParent) && !r.Success?)
  {
    if id in t.units && newParent in t.units && t.units[newParent].org == org {
      PrefixIsAncestry(t.units, id, newParent);
      if id == newParent {
        assert Up(t.units, newParent, 0) == Some(id);
      }
    }
  }

  /**
   A move re-roots exactly the units at or below the moved one, by parent pointers: each keeps its path
   below the moved unit, everything else about it, and its place under it; every other unit is unchanged.
  */
  lemma MoveRerootsSubtree(t: Tables, id: Id, org: string, newParent: Id, ifMatch: IfMatch, x: Id)
    requires Inv(t) && x in t.units && MoveUnit(t, id, org, newParent, ifMatch).Success?
    ensures var before, after := t.units, MoveUnit(t, id, org, newParent, ifMatch).value.units;
            && after.Keys == before.Keys
            && after[id] == before[id].(parent := Some(newParent), path := after[id].path, version := before[id].version + 1)
            && (AtOrAbove(before, id, x) <==> AtOrAbove(after, id, x))
            && (!AtOrAbove(before, id, x) ==> after[x] == before[x])
            && (AtOrAbove(before, id, x) ==>
                  && before[id].path <= before[x].path
                  && after[x].path == before[newParent].path + id + "/" + before[x].path[|before[id].path|..]
                  && (x != id ==> after[x] == before[x].(path := after[x].path)))
  {
    var before, after := t.units, MoveUnit(t, id, org, newParent, ifMatch).value.units;
    MoveKeepsTree(before, id, newParent);
    PrefixIsAncestry(before, id, x);
    PrefixIsAncestry(after, id, x);
    if before[id].path <= before[x].path {
      if x != id {
        ParentInSubtree(before, id, x);
      }
      assert after[id].path <= after[x].path;
    } else {
      OutsideStaysOutside(before, id, newParent, x);
    }
  }

  lemma OutsideStaysOutside(units: Units, id: Id, newParent: Id, x: Id)
    requires TreeInv(units) && MayMove(units, id, newParent) && x in units && !(units[id].path <= units[x].path)
    ensures var after := MovedUnits(units, id, newParent); !(after[id].path <= after[x].path)
  {
    var after := MovedUnits(units, id, newParent);
    MoveKeepsTree(units, id, newParent);
    if after[id].path <= after[x].path {
      PrefixIsAncestry(after, id, x);
      var steps: nat :| Up(after, x, steps) == Some(id);
      SamePointersOutside(units, id, newParent, x, steps);
    }
  }

  lemma ParentStaysOutside(units: Units, id: Id, x: Id)
    requires TreeInv(units) && id in units && x in units && !(units[id].path <= units[x].path) && units[x].parent.Some?
    ensures units[x].parent.value in units && !(units[id].path <= units[units[x].parent.value].path)
  {
    assert Placed(units, x);
    var p := units[x].parent.value;
    if units[id].path <= units[p].path {
      RebaseChild(units[p].path, x, units[id].path, "");
    }
  }

  /** Climbing from outside the subtree never meets the moved unit: no pointer outside it changed. */
  lemma {:induction false} SamePointersOutside(units: Units, id: Id, newParent: Id, x: Id, steps: nat)
    requires TreeInv(units) && MayMove(units, id, newParent) && x in units && !(units[id].path <= units[x].path)
    ensures Up(MovedUnits(units, id, newParent), x, steps) != Some(id)
    decreases steps
  {
    var after := MovedUnits(units, id, newParent);
    assert x != id && after[x] == units[x];
    if steps > 0 && units[x].parent.Some? {
      ParentStaysOutside(units, id, x);
      SamePointersOutside(units, id, newParent, units[x].parent.value, steps - 1);
    }
  }

  // ------------------------------------------------------------------ runs

  datatype Request =
    | Create(newId: Id, org: string, code: string, kind: Kind, parentId: Option<Id>, headKnown: bool)
    | Move(id: Id, org: string, newParent: Id, ifMatch: IfMatch)
    | Activate(id: Id, active: bool)
    | Apply(assignment: string, scope: Option<Id>)
    | Unapply(assignment: string)

  /** A refused request changes nothing; a created unit's id is a fresh UUID. */
  function Serve(t: Tables, request: Request): Tables {
    match request
    case Create(newId, org, code, kind, parentId, headKnown) =>
      if newId in t.units then t
      else
        var r := CreateUnit(t, newId, org, code, kind, parentId, headKnown);
        if r.Success? then r.value else t
    case Move(id, org, newParent, ifMatch) =>
      var r := MoveUnit(t, id, org, newParent, ifMatch);
      if r.Success? then r.value else t
    case Activate(id, active) => SetActive(t, id, active)
    case Apply(a, scope) => Assign(t, a, scope)
    case Unapply(a) => t.(assignments := t.assignments - {a})
  }

  function ServeAll(requests: seq<Request>): Tables {
    if requests == [] then Tables(map[], map[])
    else Serve(ServeAll(requests[..|requests| - 1]), requests[|requests| - 1])
  }

  /** Same units in the same places. */
  predicate SameShape(before: Units, after: Units) {
    before.Keys == after.Keys
    && forall id :: id in before ==> after[id].(active := before[id].active, version := before[id].version) == before[id]
  }

  lemma SameShapeKeepsPlaced(before: Units, after: Units, id: Id)
    requires SameShape(before, after) && id in before && Placed(before, id)
    ensures Placed(after, id)
  {
  }

  lemma ActivateKeepsInv(t: Tables, id: Id, active: bool)
    requires Inv(t)
    ensures Inv(SetActive(t, id, active))
  {
    var after := SetActive(t, id, active);
    assert SameShape(t.units, after.units);
    forall x | x in after.units ensures Placed(after.units, x) {
      SameShapeKeepsPlaced(t.units, after.units, x);
    }
    forall a | a in after.assignments ensures ScopeCurrent(after.units, after.assignments[a]) {
      assert ScopeCurrent(t.units, t.assignments[a]);
    }
  }

  lemma ServeKeepsInv(t: Tables, request: Request)
    requires Inv(t)
    ensures Inv(Serve(t, request))
  {
    match request
    case Create(newId, org, code, kind, parentId, headKnown) =>
      if newId !in t.units { CreateKeepsInv(t, newId, org, code, kind, parentId, headKnown); }
    case Move(id, org, newParent, ifMatch) => MoveKeepsInv(t, id, org, newParent, ifMatch);
    case Activate(id, active) => ActivateKeepsInv(t, id, active);
    case Apply(_, _) =>
    case Unapply(_) =>
  }

  /** In every reachable state the two records agree, the rules hold, codes are unique and copied scope paths are current. */
  lemma {:induction false} ReachableInv(requests: seq<Request>)
    ensures Inv(ServeAll(requests))
  {
    if requests != [] {
      ReachableInv(requests[..|requests| - 1]);
      ServeKeepsInv(ServeAll(requests[..|requests| - 1]), requests[|requests| - 1]);
    }
  }
}
