/**
 Applying the roles People declares for an employee (services/people_sync.py): presets it added earlier and no
 longer names are revoked, missing ones applied, and what a person granted by hand is left alone.
*/
module PeopleSync {
  import opened Common
  import opened Paths
  import opened OrgTree
  import opened RolePresets

  datatype ManagedRole = ManagedRole(roleCode: string, scope: Option<Id>, sourceRef: string)

  datatype Problem =
    | NoSuchRole(roleCode: string)
    | NotFromPeople(roleCode: string)
    | NotApplied(roleCode: string, error: ResolveError)

  /** Everything the sync reads and does not change. */
  datatype Env = Env(roles: seq<Role>, units: Units, org: string, user: UserId, now: int)

  // ------------------------------------------------------------------ what is declared

  /** The organization's role with this code, letter case aside. */
  function RoleByCode(roles: seq<Role>, org: string, code: string): Option<Role> {
    if roles == [] then None
    else if roles[|roles| - 1].org == org && Lower(roles[|roles| - 1].code) == Lower(code) then Some(roles[|roles| - 1])
    else RoleByCode(roles[..|roles| - 1], org, code)
  }

  function RoleById(roles: seq<Role>, id: RoleId): Option<Role> {
    if roles == [] then None else if roles[0].id == id then Some(roles[0]) else RoleById(roles[1..], id)
  }

  function IssueWith(env: Env, item: ManagedRole): Option<Problem> {
    var role := RoleByCode(env.roles, env.org, item.roleCode);
    if role.None? then Some(NoSuchRole(item.roleCode))
    else if !role.value.assignableByPeople then Some(NotFromPeople(item.roleCode))
    else None
  }

  /** A role to hold in a scope, and the item that asked for it. */
  datatype Want = Want(role: RoleId, scope: Option<Id>, item: ManagedRole)

  predicate Wants(desired: seq<Want>, role: RoleId, scope: Option<Id>) {
    exists want :: want in desired && want.role == role && want.scope == scope
  }

  /** The usable items, the first for each role and scope. */
  function Desired(env: Env, wanted: seq<ManagedRole>): seq<Want> {
    if wanted == [] then []
    else
      var before, item := Desired(env, wanted[..|wanted| - 1]), wanted[|wanted| - 1];
      if IssueWith(env, item).Some? then before
      else
        var role := RoleByCode(env.roles, env.org, item.roleCode).value.id;
        if Wants(before, role, item.scope) then before else before + [Want(role, item.scope, item)]
  }

  /** The role of the organization with this code, letter case aside; were there several, the last one counts. */
  ghost predicate IsNamed(env: Env, code: string, role: Role) {
    exists k :: 0 <= k < |env.roles| && env.roles[k] == role && role.org == env.org && Lower(role.code) == Lower(code)
                && forall j :: k < j < |env.roles| ==> env.roles[j].org != env.org || Lower(env.roles[j].code) != Lower(code)
  }

  lemma {:induction false} RoleByCodeIsNamed(env: Env, code: string, roles: seq<Role>)
    requires roles <= env.roles
    requires forall j :: |roles| <= j < |env.roles| ==> env.roles[j].org != env.org || Lower(env.roles[j].code) != Lower(code)
    ensures forall role :: IsNamed(env, code, role) <==> RoleByCode(roles, env.org, code) == Some(role)
  {
    if roles != [] {
      var k, last := |roles| - 1, roles[|roles| - 1];
      assert env.roles[k] == last;
      if last.org == env.org && Lower(last.code) == Lower(code) {
        assert IsNamed(env, code, last);
        forall role | IsNamed(env, code, role) ensures role == last {
          var i :| 0 <= i < |env.roles| && env.roles[i] == role && role.org == env.org && Lower(role.code) == Lower(code)
                   && forall j :: i < j < |env.roles| ==> env.roles[j].org != env.org || Lower(env.roles[j].code) != Lower(code);
          assert i == k;
        }
      } else {
        RoleByCodeIsNamed(env, code, roles[..k]);
      }
    }
  }

  /**
   What is wrong with an item, if anything: the organization has no role with its code, or has one that People may
   not grant.
  */
  lemma {:induction false} IssueExactly(env: Env, item: ManagedRole)
    ensures IssueWith(env, item) == Some(NoSuchRole(item.roleCode)) <==>
            forall role :: role in env.roles && role.org == env.org ==> Lower(role.code) != Lower(item.roleCode)
    ensures IssueWith(env, item) == Some(NotFromPeople(item.roleCode)) <==>
            exists role :: IsNamed(env, item.roleCode, role) && !role.assignableByPeople
    ensures IssueWith(env, item).None? <==> exists role :: IsNamed(env, item.roleCode, role) && role.assignableByPeople
  {
    RoleByCodeIsNamed(env, item.roleCode, env.roles);
    NoneNamed(env.roles, env.org, item.roleCode);
  }

  lemma {:induction false} NoneNamed(roles: seq<Role>, org: string, code: string)
    ensures RoleByCode(roles, org, code).None? <==>
            forall role :: role in roles && role.org == org ==> Lower(role.code) != Lower(code)
  {
    if roles != [] {
      NoneNamed(roles[..|roles| - 1], org, code);
      assert roles == roles[..|roles| - 1] + [roles[|roles| - 1]];
    }
  }

  /** The item names a role of the organization that People may grant, and asks for it in this scope. */
  ghost predicate AsksFor(env: Env, item: ManagedRole, role: RoleId, scope: Option<Id>) {
    item.scope == scope && exists r :: IsNamed(env, item.roleCode, r) && r.assignableByPeople && r.id == role
  }

  lemma {:induction false} AsksForItsRole(env: Env, item: ManagedRole, role: RoleId, scope: Option<Id>)
    ensures AsksFor(env, item, role, scope) <==>
            && IssueWith(env, item).None? && item.scope == scope && RoleByCode(env.roles, env.org, item.roleCode).value.id == role
  {
    RoleByCodeIsNamed(env, item.roleCode, env.roles);
  }

  /** What a declaration comes to: a want for each role and scope some usable item asks for, with the first that does. */
  ghost predicate WantsOf(env: Env, wanted: seq<ManagedRole>, desired: seq<Want>) {
    && (forall role, scope :: Wants(desired, role, scope) <==>
          exists i :: 0 <= i < |wanted| && AsksFor(env, wanted[i], role, scope))
    && forall want :: want in desired ==>
         exists i :: && 0 <= i < |wanted| && want.item == wanted[i] && AsksFor(env, wanted[i], want.role, want.scope)
                     && forall j :: 0 <= j < i ==> !AsksFor(env, wanted[j], want.role, want.scope)
  }

  lemma {:induction false} DesiredAre(env: Env, wanted: seq<ManagedRole>)
    ensures WantsOf(env, wanted, Desired(env, wanted))
  {
    if wanted != [] {
      var init, last := wanted[..|wanted| - 1], wanted[|wanted| - 1];
      DesiredAre(env, init);
      assert wanted == init + [last];
      OneMoreItem(env, init, last, Desired(env, init), Desired(env, wanted));
    }
  }

  lemma {:induction false} OneMoreItem(env: Env, init: seq<ManagedRole>, last: ManagedRole, before: seq<Want>, after: seq<Want>)
    requires WantsOf(env, init, before)
    requires after == if IssueWith(env, last).Some? then before
                      else var role := RoleByCode(env.roles, env.org, last.roleCode).value.id;
                           if Wants(before, role, last.scope) then before else before + [Want(role, last.scope, last)]
    ensures WantsOf(env, init + [last], after)
  {
    var wanted := init + [last];
    forall role, scope
      ensures AsksFor(env, last, role, scope) <==>
              && IssueWith(env, last).None? && last.scope == scope && RoleByCode(env.roles, env.org, last.roleCode).value.id == role
    {
      AsksForItsRole(env, last, role, scope);
    }
    assert wanted[|init|] == last && forall i :: 0 <= i < |init| ==> wanted[i] == init[i];
    forall role, scope
      ensures Wants(after, role, scope) <==> exists i :: 0 <= i < |wanted| && AsksFor(env, wanted[i], role, scope)
    {
      assert Wants(after, role, scope) <==> Wants(before, role, scope) || AsksFor(env, last, role, scope);
      if i :| 0 <= i < |init| && AsksFor(env, init[i], role, scope) {
        assert AsksFor(env, wanted[i], role, scope);
      }
    }
    forall want | want in after
      ensures exists i :: && 0 <= i < |wanted| && want.item == wanted[i] && AsksFor(env, wanted[i], want.role, want.scope)
                          && forall j :: 0 <= j < i ==> !AsksFor(env, wanted[j], want.role, want.scope)
    {
      if want in before {
        var i :| && 0 <= i < |init| && want.item == init[i] && AsksFor(env, init[i], want.role, want.scope)
                 && forall j :: 0 <= j < i ==> !AsksFor(env, init[j], want.role, want.scope);
        assert want.item == wanted[i];
      } else {
        assert !Wants(before, want.role, want.scope) && want.item == wanted[|init|];
      }
    }
  }

  function Issues(env: Env, wanted: seq<ManagedRole>): seq<Problem> {
    if wanted == [] then []
    else
      var issue := IssueWith(env, wanted[|wanted| - 1]);
      Issues(env, wanted[..|wanted| - 1]) + (if issue.Some? then [issue.value] else [])
  }

  /** The problem with one item of the declaration, told by its role. */
  ghost predicate IsIssueOf(env: Env, item: ManagedRole, problem: Problem) {
    || (problem == NoSuchRole(item.roleCode)
        && forall role :: role in env.roles && role.org == env.org ==> Lower(role.code) != Lower(item.roleCode))
    || (problem == NotFromPeople(item.roleCode) && exists role :: IsNamed(env, item.roleCode, role) && !role.assignableByPeople)
  }

  lemma {:induction false} IssuesAre(env: Env, wanted: seq<ManagedRole>)
    ensures forall problem :: problem in Issues(env, wanted) <==> exists item :: item in wanted && IsIssueOf(env, item, problem)
  {
    if wanted != [] {
      var init, last := wanted[..|wanted| - 1], wanted[|wanted| - 1];
      IssuesAre(env, init);
      IssueExactly(env, last);
      assert forall item :: item in wanted <==> item in init || item == last;
      forall problem ensures IsIssueOf(env, last, problem) <==> IssueWith(env, last) == Some(problem) {
      }
    }
  }

  // ------------------------------------------------------------------ what goes

  predicate Managed(env: Env, p: Preset) {
    p.user == env.user && p.source == Some(PEOPLE_SOURCE)
  }

  /** A problem with a wanted role must not take away what People already granted for it. */
  predicate Protected(env: Env, wanted: seq<ManagedRole>, p: Preset) {
    var role := RoleById(env.roles, p.role);
    role.Some? && exists item :: item in wanted && IssueWith(env, item).Some? && Lower(item.roleCode) == Lower(role.value.code)
  }

  predicate Doomed(env: Env, wanted: seq<ManagedRole>, p: Preset) {
    Managed(env, p) && !Wants(Desired(env, wanted), p.role, p.scope) && !Protected(env, wanted, p)
  }

  function DoomedOf(env: Env, wanted: seq<ManagedRole>, presets: seq<Preset>): seq<Preset> {
    if presets == [] then []
    else
      var last := presets[|presets| - 1];
      DoomedOf(env, wanted, presets[..|presets| - 1]) + (if Doomed(env, wanted, last) then [last] else [])
  }

  function RevokeAll(roles: seq<Role>, t: Access, doomed: seq<Preset>): Access {
    if doomed == [] then t else Revoke(roles, RevokeAll(roles, t, doomed[..|doomed| - 1]), doomed[|doomed| - 1])
  }

  // ------------------------------------------------------------------ what comes

  predicate HeldByHand(env: Env, presets: seq<Preset>, role: RoleId, scope: Option<Id>) {
    exists p :: p in presets && p.user == env.user && p.source.None? && p.role == role && p.scope == scope
  }

  predicate HeldFromPeople(env: Env, presets: seq<Preset>, role: RoleId, scope: Option<Id>) {
    exists p :: p in presets && Managed(env, p) && p.role == role && p.scope == scope
  }

  predicate Already(env: Env, presets: seq<Preset>, want: Want) {
    HeldFromPeople(env, presets, want.role, want.scope) || HeldByHand(env, presets, want.role, want.scope)
  }

  function RefusalOf(env: Env, want: Want): Option<ResolveError> {
    ResolveRefusal(env.roles, env.units, env.org, want.role, want.scope, None, env.now)
  }

  function ApplyWant(env: Env, t: Access, want: Want): Access {
    Apply(env.roles, t, env.user, want.role, want.scope, false, None, Some(PEOPLE_SOURCE), Some(want.item.sourceRef))
  }

  /** `before` are the presets as they stood when the adding began: what counts as already there. */
  function ApplyAll(env: Env, before: seq<Preset>, t: Access, desired: seq<Want>): Access {
    if desired == [] then t
    else
      var sofar, want := ApplyAll(env, before, t, desired[..|desired| - 1]), desired[|desired| - 1];
      if Already(env, before, want) || RefusalOf(env, want).Some? then sofar else ApplyWant(env, sofar, want)
  }

  function Refusals(env: Env, before: seq<Preset>, desired: seq<Want>): seq<Problem> {
    if desired == [] then []
    else
      var want := desired[|desired| - 1];
      Refusals(env, before, desired[..|desired| - 1])
      + (if !Already(env, before, want) && RefusalOf(env, want).Some?
         then [NotApplied(want.item.roleCode, RefusalOf(env, want).value)] else [])
  }

  // ------------------------------------------------------------------ one declaration

  function Removed(env: Env, t: Access, wanted: seq<ManagedRole>): Access {
    RevokeAll(env.roles, t, DoomedOf(env, wanted, t.presets))
  }

  function Sync(env: Env, t: Access, wanted: seq<ManagedRole>): Access {
    var removed := Removed(env, t, wanted);
    ApplyAll(env, removed.presets, removed, Desired(env, wanted))
  }

  function Problems(env: Env, t: Access, wanted: seq<ManagedRole>): seq<Problem> {
    Issues(env, wanted) + Refusals(env, Removed(env, t, wanted).presets, Desired(env, wanted))
  }

  method ReadDeclaration(env: Env, wanted: seq<ManagedRole>) returns (desired: seq<Want>, problems: seq<Problem>)
    ensures desired == Desired(env, wanted) && WantsOf(env, wanted, desired)
    ensures problems == Issues(env, wanted)
    ensures forall problem :: problem in problems <==> exists item :: item in wanted && IsIssueOf(env, item, problem)
  {
    DesiredAre(env, wanted);
    IssuesAre(env, wanted);
    desired, problems := [], [];
    for i := 0 to |wanted|
      invariant desired == Desired(env, wanted[..i]) && problems == Issues(env, wanted[..i])
    {
      assert wanted[..i + 1][..i] == wanted[..i];
      var item := wanted[i];
      var issue := IssueWith(env, item);
      if issue.Some? {
        problems := problems + [issue.value];
        continue;
      }
      var role := RoleByCode(env.roles, env.org, item.roleCode).value.id;
      if !Wants(desired, role, item.scope) {
        desired := desired + [Want(role, item.scope, item)];
      }
    }
    assert wanted[..|wanted|] == wanted;
  }

  method RevokeUnwanted(tables: AccessTables, env: Env, wanted: seq<ManagedRole>)
    modifies tables
    ensures tables.View() == Removed(env, old(tables.View()), wanted)
  {
    var doomed := DoomedOf(env, wanted, tables.presets);
    for i := 0 to |doomed|
      invariant tables.View() == RevokeAll(env.roles, old(tables.View()), doomed[..i])
    {
      assert doomed[..i + 1][..i] == doomed[..i];
      tables.RemovePreset(env.roles, doomed[i]);
    }
    assert doomed[..|doomed|] == doomed;
  }

  method ApplyWanted(tables: AccessTables, env: Env, desired: seq<Want>) returns (problems: seq<Problem>)
    modifies tables
    ensures tables.View() == ApplyAll(env, old(tables.presets), old(tables.View()), desired)
    ensures problems == Refusals(env, old(tables.presets), desired)
  {
    problems := [];
    var before := tables.presets;
    for i := 0 to |desired|
      invariant tables.View() == ApplyAll(env, before, old(tables.View()), desired[..i])
      invariant problems == Refusals(env, before, desired[..i])
    {
      assert desired[..i + 1][..i] == desired[..i];
      var want := desired[i];
      if Already(env, before, want) {
        continue;
      }
      var refusal := RefusalOf(env, want);
      if refusal.Some? {
        problems := problems + [NotApplied(want.item.roleCode, refusal.value)];
        continue;
      }
      tables.AddToUser(env.roles, env.user, want.role, want.scope, false, None, Some(PEOPLE_SOURCE), Some(want.item.sourceRef));
    }
    assert desired[..|desired|] == desired;
  }

  method ApplyManagedRoles(tables: AccessTables, env: Env, wanted: seq<ManagedRole>) returns (problems: seq<Problem>)
    modifies tables
    ensures tables.View() == Sync(env, old(tables.View()), wanted)
    ensures problems == Problems(env, old(tables.View()), wanted)
  {
    var desired, issues := ReadDeclaration(env, wanted);
    RevokeUnwanted(tables, env, wanted);
    var refusals := ApplyWanted(tables, env, desired);
    problems := issues + refusals;
  }

  // ------------------------------------------------------------------ adopting

  /** A preset held by hand becomes People's when its role's code is named; another service's stays its own. */
  function Adopted(env: Env, codes: set<string>, sourceRef: string, p: Preset): Preset {
    var role := RoleById(env.roles, p.role);
    if p.user == env.user && role.Some? && Lower(role.value.code) in codes && p.source.None?
    then p.(source := Some(PEOPLE_SOURCE), sourceRef := Some(sourceRef))
    else p
  }

  method AdoptRoles(tables: AccessTables, env: Env, codes: set<string>, sourceRef: string)
    modifies tables`presets
    ensures |tables.presets| == |old(tables.presets)|
    ensures forall i :: 0 <= i < |tables.presets| ==> tables.presets[i] == Adopted(env, codes, sourceRef, old(tables.presets)[i])
  {
    for i := 0 to |tables.presets|
      invariant |tables.presets| == |old(tables.presets)|
      invariant forall j :: 0 <= j < i ==> tables.presets[j] == Adopted(env, codes, sourceRef, old(tables.presets)[j])
      invariant forall j :: i <= j < |tables.presets| ==> tables.presets[j] == old(tables.presets)[j]
    {
      var p := tables.presets[i];
      var role := RoleById(env.roles, p.role);
      if p.user != env.user || role.None? || Lower(role.value.code) !in codes {
        continue;
      }
      if p.source.Some? && p.source.value != PEOPLE_SOURCE {
        continue;
      }
      if p.source.None? {
        tables.presets := tables.presets[i := p.(source := Some(PEOPLE_SOURCE), sourceRef := Some(sourceRef))];
      }
    }
  }
}
