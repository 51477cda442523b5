/**
 Role presets (services/rbac_service.py, services/user_permission_service.py): applying a role copies its
 permissions onto a user in one scope; revoking it takes back what it brought, unless another preset of the
 user in that scope grants it too.

 The tables are sequences and a query answers in table order, so every result holds for every order.
*/
module RolePresets {
  import opened Common
  import opened Paths
  import opened OrgTree

  type UserId = string
  type RoleId = string

  datatype Role = Role(id: RoleId, org: string, code: string, assignableByPeople: bool, permissions: seq<string>)

  const PEOPLE_SOURCE := "people"

  /** `source` is set when another service manages the assignment. */
  datatype Preset = Preset(id: nat, user: UserId, role: RoleId, scope: Option<Id>, source: Option<string>, sourceRef: Option<string>)

  /** One permission held by one user; `credit` is the role that brought it. */
  datatype Row = Row(user: UserId, code: string, scope: Option<Id>, selfOnly: bool, validTo: Option<int>, credit: Option<RoleId>)

  /** `nextId` stands for the fresh id the next preset gets. */
  datatype Access = Access(presets: seq<Preset>, rows: seq<Row>, nextId: nat)

  function PermissionsOf(roles: seq<Role>, id: RoleId): seq<string> {
    if roles == [] then [] else if roles[0].id == id then roles[0].permissions else PermissionsOf(roles[1..], id)
  }

  predicate Holds(rows: seq<Row>, user: UserId, scope: Option<Id>, code: string) {
    exists row :: row in rows && row.user == user && row.scope == scope && row.code == code
  }

  /** The user's preset includes the permission in this scope. */
  predicate Includes(roles: seq<Role>, preset: Preset, user: UserId, scope: Option<Id>, code: string) {
    preset.user == user && preset.scope == scope && code in PermissionsOf(roles, preset.role)
  }

  predicate AnyIncludes(roles: seq<Role>, presets: seq<Preset>, user: UserId, scope: Option<Id>, code: string) {
    exists preset :: preset in presets && Includes(roles, preset, user, scope, code)
  }

  // ------------------------------------------------------------------ revoking

  /** The row is one that applying this preset brought. */
  predicate Brought(a: Preset, row: Row) {
    row.user == a.user && row.scope == a.scope && row.credit == Some(a.role)
  }

  /** The role of the first other preset, in query order, that also grants the permission there. */
  function StillGrantedBy(roles: seq<Role>, presets: seq<Preset>, a: Preset, code: string): Option<RoleId> {
    if presets == [] then None
    else
      var last := presets[|presets| - 1];
      var first := StillGrantedBy(roles, presets[..|presets| - 1], a, code);
      if first.None? && last.id != a.id && Includes(roles, last, a.user, a.scope, code) then Some(last.role) else first
  }

  /** What becomes of one row: kept, kept under another preset's name, or deleted. */
  function Review(roles: seq<Role>, presets: seq<Preset>, a: Preset, row: Row): Option<Row> {
    if !Brought(a, row) then Some(row)
    else
      var still := StillGrantedBy(roles, presets, a, row.code);
      if still.Some? then Some(row.(credit := still)) else None
  }

  function ReviewAll(roles: seq<Role>, presets: seq<Preset>, a: Preset, rows: seq<Row>): seq<Row> {
    if rows == [] then []
    else
      var last := Review(roles, presets, a, rows[|rows| - 1]);
      ReviewAll(roles, presets, a, rows[..|rows| - 1]) + (if last.Some? then [last.value] else [])
  }

  function WithoutPreset(presets: seq<Preset>, id: nat): seq<Preset> {
    if presets == [] then []
    else
      var last := presets[|presets| - 1];
      WithoutPreset(presets[..|presets| - 1], id) + (if last.id == id then [] else [last])
  }

  function Revoke(roles: seq<Role>, t: Access, a: Preset): Access {
    t.(presets := WithoutPreset(t.presets, a.id), rows := ReviewAll(roles, t.presets, a, t.rows))
  }

  // ------------------------------------------------------------------ applying

  /** What is wrong with applying a role in a scope, if anything. */
  datatype ResolveError = BadScope | Expired | UnknownRole

  predicate KnownRole(roles: seq<Role>, org: string, id: RoleId) {
    exists role :: role in roles && role.id == id && role.org == org
  }

  function ResolveRefusal(roles: seq<Role>, units: Units, org: string, role: RoleId, scope: Option<Id>, validTo: Option<int>, now: int)
    : Option<ResolveError>
  {
    if scope.Some? && !(scope.value in units && units[scope.value].org == org && units[scope.value].active) then Some(BadScope)
    else if validTo.Some? && validTo.value <= now then Some(Expired)
    else if !KnownRole(roles, org, role) then Some(UnknownRole)
    else None
  }

  /** The rows a role brings: one for each of its permissions that the user does not hold in that scope. */
  function NewRows(codes: seq<string>, rows: seq<Row>, brought: Row): seq<Row> {
    if codes == [] then []
    else
      var code := codes[|codes| - 1];
      NewRows(codes[..|codes| - 1], rows, brought)
      + (if Holds(rows, brought.user, brought.scope, code) then [] else [brought.(code := code)])
  }

  function Apply(roles: seq<Role>, t: Access, user: UserId, role: RoleId, scope: Option<Id>, selfOnly: bool, validTo: Option<int>,
                 source: Option<string>, sourceRef: Option<string>): Access
  {
    var brought := Row(user, "", scope, selfOnly, validTo, Some(role));
    Access(t.presets + [Preset(t.nextId, user, role, scope, source, sourceRef)],
           t.rows + NewRows(PermissionsOf(roles, role), t.rows, brought),
           t.nextId + 1)
  }

  predicate AlreadyApplied(presets: seq<Preset>, user: UserId, role: RoleId, scope: Option<Id>) {
    exists preset :: preset in presets && preset.user == user && preset.role == role && preset.scope == scope
  }

  // ------------------------------------------------------------------ the tables, changed in place

  class AccessTables {
    var presets: seq<Preset>
    var rows: seq<Row>
    var nextId: nat

    function View(): Access
      reads this
    {
      Access(presets, rows, nextId)
    }

    method PlanRevocation(roles: seq<Role>, a: Preset) returns (still: map<string, RoleId>)
      ensures forall code :: Planned(still, code) == StillGrantedBy(roles, presets, a, code)
    {
      still := map[];
      for i := 0 to |presets|
        invariant forall code :: Planned(still, code) == StillGrantedBy(roles, presets[..i], a, code)
      {
        var other := presets[i];
        assert presets[..i + 1][..i] == presets[..i];
        if other.user == a.user && other.id != a.id && other.scope == a.scope {
          still := SetDefaults(still, PermissionsOf(roles, other.role), other.role);
        }
      }
      assert presets[..|presets|] == presets;
    }

    method ApplyRevocation(roles: seq<Role>, a: Preset, still: map<string, RoleId>)
      requires forall code :: Planned(still, code) == StillGrantedBy(roles, presets, a, code)
      modifies this
      ensures View() == Revoke(roles, old(View()), a)
    {
      var kept: seq<Row> := [];
      for i := 0 to |rows|
        invariant rows == old(rows) && presets == old(presets) && nextId == old(nextId)
        invariant kept == ReviewAll(roles, presets, a, rows[..i])
      {
        var row := rows[i];
        assert rows[..i + 1][..i] == rows[..i];
        if Brought(a, row) {
          assert Planned(still, row.code) == StillGrantedBy(roles, presets, a, row.code);
          if row.code in still {
            kept := kept + [row.(credit := Some(still[row.code]))];
          }
        } else {
          kept := kept + [row];
        }
      }
      assert rows[..|rows|] == rows;
      rows := kept;
      presets := WithoutPreset(presets, a.id);
    }

    method RemovePreset(roles: seq<Role>, a: Preset)
      modifies this
      ensures View() == Revoke(roles, old(View()), a)
    {
      var still := PlanRevocation(roles, a);
      ApplyRevocation(roles, a, still);
    }

    method AddToUser(roles: seq<Role>, user: UserId, role: RoleId, scope: Option<Id>, selfOnly: bool, validTo: Option<int>,
                     source: Option<string>, sourceRef: Option<string>)
      modifies this
      ensures View() == Apply(roles, old(View()), user, role, scope, selfOnly, validTo, source, sourceRef)
    {
      var codes := PermissionsOf(roles, role);
      var brought := Row(user, "", scope, selfOnly, validTo, Some(role));
      var added: seq<Row> := [];
      for i := 0 to |codes|
        invariant rows == old(rows) && presets == old(presets) && nextId == old(nextId)
        invariant added == NewRows(codes[..i], rows, brought)
      {
        assert codes[..i + 1][..i] == codes[..i];
        if !Holds(rows, user, scope, codes[i]) {
          added := added + [brought.(code := codes[i])];
        }
      }
      assert codes[..|codes|] == codes;
      rows := rows + added;
      presets := presets + [Preset(nextId, user, role, scope, source, sourceRef)];
      nextId := nextId + 1;
    }
  }

  function Planned(still: map<string, RoleId>, code: string): Option<RoleId> {
    if code in still then Some(still[code]) else None
  }

  method SetDefaults(before: map<string, RoleId>, codes: seq<string>, role: RoleId) returns (still: map<string, RoleId>)
    ensures forall code :: Planned(still, code) ==
                           if code in before then Some(before[code]) else if code in codes then Some(role) else None
  {
    still := before;
    for i := 0 to |codes|
      invariant forall code :: Planned(still, code) ==
                               if code in before then Some(before[code]) else if code in codes[..i] then Some(role) else None
    {
      if codes[i] !in still {
        still := still[codes[i] := role];
      }
    }
    assert codes[..|codes|] == codes;
  }
}
