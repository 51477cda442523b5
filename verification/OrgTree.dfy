/**
 The organization's units (services/org_unit_service.py): branches, departments and teams with
 parent pointers and, kept beside them, materialized paths; and the role assignments that carry a
 copy of their scope unit's path.

 `CreateUnit`, `MoveUnit` and the smaller steps say what one request does to the tables; the class
 does it in place, with the source's loops.
*/
module OrgTree {
  import opened Common
  import opened Paths

  datatype OrgUnit = OrgUnit(
    org: string, code: string, unitType: Option<string>, parent: Option<Id>, path: string, active: bool, version: int)

  datatype Assignment = Assignment(scopeUnit: Option<Id>, scopePath: Option<string>)

  type Units = map<Id, OrgUnit>
  type Assignments = map<string, Assignment>

  datatype Tables = Tables(units: Units, assignments: Assignments)

  datatype OrgError =
    | DuplicateCode | UnitNotFound | HierarchyInvalid | HeadUserUnknown
    | PreconditionRequired | PreconditionFailed | Cycle

  /** The types a request may name. */
  datatype Kind = Branch | Department | Team

  function TypeName(kind: Kind): string {
    match kind
    case Branch => "branch"
    case Department => "department"
    case Team => "team"
  }

  function AllowedParents(unitType: string): Option<seq<string>> {
    if unitType == "branch" then Some([])
    else if unitType == "department" then Some(["branch", "department"])
    else if unitType == "team" then Some(["department"])
    else None
  }

  /** True when a unit of this type may sit under this parent; a unit without a type may sit anywhere. */
  predicate HierarchyAllows(unitType: Option<string>, parent: Option<OrgUnit>) {
    if unitType.None? || unitType.value == "" then true
    else
      var allowed := AllowedParents(unitType.value);
      if allowed.None? then false
      else if unitType.value == "branch" then parent.None?
      else parent.Some? && parent.value.unitType.Some? && parent.value.unitType.value in allowed.value
  }

  function LowerChar(c: char): char {
    if 'A' <= c <= 'Z' then c - 'A' + 'a' else c
  }

  function Lower(s: string): string {
    seq(|s|, i requires 0 <= i < |s| => LowerChar(s[i]))
  }

  function Find(units: Units, id: Id, org: string): Option<OrgUnit> {
    if id in units && units[id].org == org then Some(units[id]) else None
  }

  predicate CodeTaken(units: Units, org: string, code: string) {
    exists id :: id in units && units[id].org == org && Lower(units[id].code) == Lower(code)
  }

  /** `newId` is the fresh UUID; `headKnown` whether the head user, if any, belongs to the organization. */
  function CreateUnit(t: Tables, newId: Id, org: string, code: string, kind: Kind, parentId: Option<Id>, headKnown: bool)
    : Result<Tables, OrgError>
  {
    if CodeTaken(t.units, org, code) then Failure(DuplicateCode)
    else
      var parent := if parentId.None? then None else Find(t.units, parentId.value, org);
      if parentId.Some? && parent.None? then Failure(UnitNotFound)
      else if !HierarchyAllows(Some(TypeName(kind)), parent) then Failure(HierarchyInvalid)
      else if !headKnown then Failure(HeadUserUnknown)
      else
        var path := if parent.None? then Child("/", newId) else Child(parent.value.path, newId);
        Success(t.(units := t.units[newId := OrgUnit(org, code, Some(TypeName(kind)), parentId, path, true, 1)]))
  }

  /** If-Match, quotes stripped: missing, a number, or anything else (which the source lets through). */
  datatype IfMatch = Missing | Version(number: int) | Other

  function Rebase(path: string, oldPrefix: string, newPrefix: string): string
    requires |oldPrefix| <= |path|
  {
    newPrefix + path[|oldPrefix|..]
  }

  function MovedUnits(units: Units, id: Id, newParent: Id): Units
    requires id in units && newParent in units
  {
    var oldPrefix, newPrefix := units[id].path, Child(units[newParent].path, id);
    map other: Id | other in units ::
      if other == id then units[id].(parent := Some(newParent), path := newPrefix, version := units[id].version + 1)
      else if units[other].org == units[id].org && oldPrefix <= units[other].path
      then units[other].(path := Rebase(units[other].path, oldPrefix, newPrefix))
      else units[other]
  }

  predicate ScopedWithin(assignment: Assignment, prefix: string) {
    assignment.scopePath.Some? && assignment.scopePath.value != "" && prefix <= assignment.scopePath.value
  }

  function MovedAssignments(assignments: Assignments, oldPrefix: string, newPrefix: string): Assignments {
    map a | a in assignments ::
      if ScopedWithin(assignments[a], oldPrefix)
      then assignments[a].(scopePath := Some(Rebase(assignments[a].scopePath.value, oldPrefix, newPrefix)))
      else assignments[a]
  }

  /** What stops a move, checked in the source's order. */
  function MoveRefusal(units: Units, id: Id, org: string, newParent: Id, ifMatch: IfMatch): Option<OrgError> {
    var unit := Find(units, id, org);
    if unit.None? then Some(UnitNotFound)
    else if ifMatch.Missing? then Some(PreconditionRequired)
    else if ifMatch.Version? && ifMatch.number != unit.value.version then Some(PreconditionFailed)
    else if id == newParent then Some(Cycle)
    else
      var parent := Find(units, newParent, org);
      if parent.None? then Some(UnitNotFound)
      else if unit.value.path <= parent.value.path then Some(Cycle)
      else if !HierarchyAllows(unit.value.unitType, parent) then Some(HierarchyInvalid)
      else None
  }

  function MoveUnit(t: Tables, id: Id, org: string, newParent: Id, ifMatch: IfMatch): Result<Tables, OrgError> {
    var refusal := MoveRefusal(t.units, id, org, newParent, ifMatch);
    if refusal.Some? then Failure(refusal.value)
    else Success(Tables(
      MovedUnits(t.units, id, newParent),
      MovedAssignments(t.assignments, t.units[id].path, Child(t.units[newParent].path, id))))
  }

  /** Renaming or (de)activating a unit never touches its place. */
  function SetActive(t: Tables, id: Id, active: bool): Tables {
    if id !in t.units then t
    else t.(units := t.units[id := t.units[id].(active := active, version := t.units[id].version + 1)])
  }

  /** A role applied in a scope records the unit and the path it has at that moment. */
  function Assign(t: Tables, a: string, scope: Option<Id>): Tables {
    if scope.None? then t.(assignments := t.assignments[a := Assignment(None, None)])
    else if scope.value in t.units && t.units[scope.value].active
    then t.(assignments := t.assignments[a := Assignment(scope, Some(t.units[scope.value].path))])
    else t
  }

  // ------------------------------------------------------------------ the tables, changed in place

  class OrgStructure {
    var units: Units
    var assignments: Assignments

    function Value(): Tables
      reads this
    {
      Tables(units, assignments)
    }

    method CreateOrgUnit(newId: Id, org: string, code: string, kind: Kind, parentId: Option<Id>, headKnown: bool)
      returns (r: Result<Id, OrgError>)
      modifies this
      ensures var spec := CreateUnit(old(Value()), newId, org, code, kind, parentId, headKnown);
              if spec.Success? then r == Success(newId) && Value() == spec.value
              else r == Failure(spec.error) && Value() == old(Value())
    {
      if CodeTaken(units, org, code) {
        return Failure(DuplicateCode);
      }
      var parent: Option<OrgUnit> := None;
      if parentId.Some? {
        parent := Find(units, parentId.value, org);
        if parent.None? {
          return Failure(UnitNotFound);
        }
      }
      if !HierarchyAllows(Some(TypeName(kind)), parent) {
        return Failure(HierarchyInvalid);
      }
      if !headKnown {
        return Failure(HeadUserUnknown);
      }
      var path := if parent.Some? then parent.value.path + newId + "/" else "/" + newId + "/";
      units := units[newId := OrgUnit(org, code, Some(TypeName(kind)), parentId, path, true, 1)];
      return Success(newId);
    }

    method MoveOrgUnit(id: Id, org: string, newParent: Id, ifMatch: IfMatch) returns (refusal: Option<OrgError>)
      modifies this
      ensures var spec := MoveUnit(old(Value()), id, org, newParent, ifMatch);
              if spec.Success? then refusal == None && Value() == spec.value
              else refusal == Some(spec.error) && Value() == old(Value())
    {
      refusal := MoveRefusal(units, id, org, newParent, ifMatch);
      if refusal.Some? {
        return;
      }
      var unit := units[id];
      var oldPrefix, newPrefix := unit.path, units[newParent].path + id + "/";
      units := units[id := unit.(parent := Some(newParent), path := newPrefix, version := unit.version + 1)];
      RewriteDescendants(id, org, oldPrefix, newPrefix);
      RewriteAssignments(oldPrefix, newPrefix);
    }

    /** Rewrite the paths of all descendant units of `id`. */
    method RewriteDescendants(id: Id, org: string, oldPrefix: string, newPrefix: string)
      modifies this`units
      ensures units == map other: Id | other in old(units) ::
                if other != id && old(units)[other].org == org && oldPrefix <= old(units)[other].path
                then old(units)[other].(path := Rebase(old(units)[other].path, oldPrefix, newPrefix))
                else old(units)[other]
    {
      var below := set other: Id | other in units && units[other].org == org && oldPrefix <= units[other].path && other != id;
      var left := below;
      while left != {}
        invariant left <= below && units.Keys == old(units.Keys)
        invariant forall other: Id :: other in units && (other in left || other !in below) ==> units[other] == old(units)[other]
        invariant forall other: Id :: other in below - left
                    ==> units[other] == old(units)[other].(path := Rebase(old(units)[other].path, oldPrefix, newPrefix))
      {
        var desc: Id :| desc in left;
        units := units[desc := units[desc].(path := newPrefix + units[desc].path[|oldPrefix|..])];
        left := left - {desc};
      }
    }

    /** Rewrite the scope paths of all role assignments scoped inside the subtree. */
    method RewriteAssignments(oldPrefix: string, newPrefix: string)
      modifies this`assignments
      ensures assignments == MovedAssignments(old(assignments), oldPrefix, newPrefix)
    {
      var inside := set a | a in assignments && assignments[a].scopePath.Some? && oldPrefix <= assignments[a].scopePath.value;
      var left := inside;
      while left != {}
        invariant left <= inside && assignments.Keys == old(assignments.Keys)
        invariant forall a :: a in assignments && (a in left || a !in inside) ==> assignments[a] == old(assignments)[a]
        invariant forall a :: a in inside - left
                    ==> assignments[a] == MovedAssignments(old(assignments), oldPrefix, newPrefix)[a]
      {
        var a :| a in left;
        var path := assignments[a].scopePath.value;
        if path != "" {
          assignments := assignments[a := assignments[a].(scopePath := Some(newPrefix + path[|oldPrefix|..]))];
        }
        left := left - {a};
      }
    }
  }
}
