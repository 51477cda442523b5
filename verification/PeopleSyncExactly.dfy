/**
 What one declaration does, told from the tables alone: the employee's presets and permissions before, the roles of
 the organization, and the items declared.
*/
module PeopleSyncExactly {
  import opened Common
  import opened Paths
  import opened OrgTree
  import opened RolePresets
  import opened RevocationSafety
  import opened PeopleSync
  import opened PeopleSyncSafety

  // ------------------------------------------------------------------ what is asked for, what is left alone

  ghost predicate Asked(env: Env, wanted: seq<ManagedRole>, role: RoleId, scope: Option<Id>) {
    exists item :: item in wanted && AsksFor(env, item, role, scope)
  }

  /** The role with this id: the first, were there several. */
  ghost predicate HasId(roles: seq<Role>, id: RoleId, role: Role) {
    exists k :: 0 <= k < |roles| && roles[k] == role && role.id == id && forall j :: 0 <= j < k ==> roles[j].id != id
  }

  /** The declaration names this role's code, and no role with that code is one People may grant. */
  ghost predicate InDoubt(env: Env, wanted: seq<ManagedRole>, id: RoleId) {
    exists role, item :: HasId(env.roles, id, role) && item in wanted && Lower(item.roleCode) == Lower(role.code)
                         && !exists named :: IsNamed(env, item.roleCode, named) && named.assignableByPeople
  }

  predicate ActiveHere(env: Env, unit: Id) {
    unit in env.units && env.units[unit].org == env.org && env.units[unit].active
  }

  lemma {:induction false} RoleByIdHasId(roles: seq<Role>, id: RoleId)
    ensures forall role :: HasId(roles, id, role) <==> RoleById(roles, id) == Some(role)
  {
    if roles != [] {
      var rest := roles[1..];
      RoleByIdHasId(rest, id);
      if roles[0].id == id {
        assert HasId(roles, id, roles[0]);
      } else {
        forall role ensures HasId(roles, id, role) <==> HasId(rest, id, role) {
          ShiftsHasId(roles, id, role);
        }
      }
    }
  }

  lemma ShiftsHasId(roles: seq<Role>, id: RoleId, role: Role)
    requires roles != [] && roles[0].id != id
    ensures HasId(roles, id, role) <==> HasId(roles[1..], id, role)
  {
    var rest := roles[1..];
    if k :| 0 <= k < |roles| && roles[k] == role && role.id == id && forall j :: 0 <= j < k ==> roles[j].id != id {
      assert rest[k - 1] == role && forall j :: 0 <= j < k - 1 ==> rest[j] == roles[j + 1];
    }
    if k :| 0 <= k < |rest| && rest[k] == role && role.id == id && forall j :: 0 <= j < k ==> rest[j].id != id {
      assert roles[k + 1] == role && forall j :: 1 <= j < k + 1 ==> roles[j] == rest[j - 1];
    }
  }

  lemma {:induction false} ProtectedIsInDoubt(env: Env, wanted: seq<ManagedRole>, p: Preset)
    ensures Protected(env, wanted, p) <==> InDoubt(env, wanted, p.role)
  {
    RoleByIdHasId(env.roles, p.role);
    forall item | item in wanted
      ensures IssueWith(env, item).Some? <==> !exists named :: IsNamed(env, item.roleCode, named) && named.assignableByPeople
    {
      IssueExactly(env, item);
    }
  }

  lemma {:induction false} WantedIsAsked(env: Env, wanted: seq<ManagedRole>, role: RoleId, scope: Option<Id>)
    ensures Wants(Desired(env, wanted), role, scope) <==> Asked(env, wanted, role, scope)
  {
    DesiredAre(env, wanted);
    if i :| 0 <= i < |wanted| && AsksFor(env, wanted[i], role, scope) {
      assert wanted[i] in wanted;
    }
  }

  lemma {:induction false} DoomedExactly(env: Env, wanted: seq<ManagedRole>, p: Preset)
    ensures Doomed(env, wanted, p) <==>
            && p.user == env.user && p.source == Some("people")
            && !Asked(env, wanted, p.role, p.scope) && !InDoubt(env, wanted, p.role)
  {
    WantedIsAsked(env, wanted, p.role, p.scope);
    ProtectedIsInDoubt(env, wanted, p);
  }

  // ------------------------------------------------------------------ the presets afterwards

  /**
   A preset stays unless it is the employee's, from People, and no longer asked for; one of a role in doubt stays too.
   So hand-granted presets, other people's and other services' never go.
  */
  lemma {:induction false} StaysExactlyWhen(env: Env, t: Access, wanted: seq<ManagedRole>, p: Preset)
    requires OnePerPlace(t) && p in t.presets
    ensures p in Sync(env, t, wanted).presets <==>
            || p.user != env.user || p.source != Some("people")
            || Asked(env, wanted, p.role, p.scope) || InDoubt(env, wanted, p.role)
  {
    DoomedExactly(env, wanted, p);
    if p in Sync(env, t, wanted).presets {
      SurvivorStays(env, t, wanted, p);
    } else if !Doomed(env, wanted, p) {
      SparedStays(env, t, wanted, p);
    }
  }

  /**
   A preset that is added is the employee's and from People, for the first item that asks for it; that item names a role
   of the organization that People may grant, in a scope that is one of its active units, or none.
  */
  lemma {:induction false} AddedAreAskedFor(env: Env, t: Access, wanted: seq<ManagedRole>, p: Preset)
    requires OnePerPlace(t) && p in Sync(env, t, wanted).presets && p !in t.presets
    ensures p.user == env.user && p.source == Some("people")
    ensures exists role :: role in env.roles && role.id == p.role && role.org == env.org && role.assignableByPeople
    ensures p.scope.Some? ==> ActiveHere(env, p.scope.value)
    ensures !exists q :: q in t.presets && q.user == env.user && q.source.None? && q.role == p.role && q.scope == p.scope
    ensures exists i :: 0 <= i < |wanted| && AsksFor(env, wanted[i], p.role, p.scope) && p.sourceRef == Some(wanted[i].sourceRef)
                        && forall j :: 0 <= j < i ==> !AsksFor(env, wanted[j], p.role, p.scope)
  {
    var removed, desired := Removed(env, t, wanted), Desired(env, wanted);
    RemovedPresets(env, t, wanted);
    ApplyAllPresets(env, removed.presets, removed, desired);
    var want :| want in desired && Comes(env, removed.presets, want) && IsFor(env, p, want);
    HandUnchanged(env, t, wanted, p.role, p.scope);
    DesiredAre(env, wanted);
    FirstItem(env, wanted, want);
    var i :| 0 <= i < |wanted| && want.item == wanted[i] && AsksFor(env, wanted[i], want.role, want.scope)
             && forall j :: 0 <= j < i ==> !AsksFor(env, wanted[j], want.role, want.scope);
  }

  lemma FirstItem(env: Env, wanted: seq<ManagedRole>, want: Want)
    requires WantsOf(env, wanted, Desired(env, wanted)) && want in Desired(env, wanted)
    ensures exists i :: 0 <= i < |wanted| && want.item == wanted[i] && AsksFor(env, wanted[i], want.role, want.scope)
                        && forall j :: 0 <= j < i ==> !AsksFor(env, wanted[j], want.role, want.scope)
    ensures exists role :: role in env.roles && role.id == want.role && role.org == env.org && role.assignableByPeople
  {
    var i :| && 0 <= i < |wanted| && want.item == wanted[i] && AsksFor(env, wanted[i], want.role, want.scope)
             && forall j :: 0 <= j < i ==> !AsksFor(env, wanted[j], want.role, want.scope);
    var role :| IsNamed(env, wanted[i].roleCode, role) && role.assignableByPeople && role.id == want.role;
    assert role in env.roles;
  }

  lemma AskedIsKnown(env: Env, wanted: seq<ManagedRole>, role: RoleId, scope: Option<Id>)
    requires Asked(env, wanted, role, scope)
    ensures ResolveRefusal(env.roles, env.units, env.org, role, scope, None, env.now).None? <==>
            scope.None? || ActiveHere(env, scope.value)
  {
    var item :| item in wanted && AsksFor(env, item, role, scope);
    var r :| IsNamed(env, item.roleCode, r) && r.assignableByPeople && r.id == role;
    assert r in env.roles;
  }

  /**
   Afterwards the employee has a role from People in a scope exactly when it was there and is still asked for or in doubt,
   or is asked for, not held by hand there, and the scope is an active unit of the organization, or none.
  */
  lemma {:induction false} ManagedExactly(env: Env, t: Access, wanted: seq<ManagedRole>, role: RoleId, scope: Option<Id>)
    requires OnePerPlace(t)
    ensures (exists p :: p in Sync(env, t, wanted).presets
                         && p.user == env.user && p.source == Some("people") && p.role == role && p.scope == scope)
            <==>
            || (exists p :: p in t.presets && p.user == env.user && p.source == Some("people") && p.role == role && p.scope == scope
                            && (Asked(env, wanted, role, scope) || InDoubt(env, wanted, role)))
            || (Asked(env, wanted, role, scope) && (scope.None? || ActiveHere(env, scope.value))
                && !exists p :: p in t.presets && p.user == env.user && p.source.None? && p.role == role && p.scope == scope)
  {
    ManagedAfter(env, t, wanted, role, scope);
    WantedIsAsked(env, wanted, role, scope);
    forall p | p in t.presets ensures Protected(env, wanted, p) <==> InDoubt(env, wanted, p.role) {
      ProtectedIsInDoubt(env, wanted, p);
    }
    if Asked(env, wanted, role, scope) {
      AskedIsKnown(env, wanted, role, scope);
    }
  }

  // ------------------------------------------------------------------ the problems reported

  /** The first item that asks for this role in its scope. */
  ghost predicate AsksFirst(env: Env, wanted: seq<ManagedRole>, i: nat, role: RoleId) {
    && i < |wanted| && AsksFor(env, wanted[i], role, wanted[i].scope)
    && forall j :: 0 <= j < i ==> !AsksFor(env, wanted[j], role, wanted[i].scope)
  }

  /** Held before, by hand or from People. */
  ghost predicate HeldHere(env: Env, t: Access, role: RoleId, scope: Option<Id>) {
    exists p :: p in t.presets && p.user == env.user && (p.source.None? || p.source == Some("people")) && p.role == role && p.scope == scope
  }

  lemma {:induction false} RefusalsAre(env: Env, before: seq<Preset>, desired: seq<Want>)
    ensures forall problem :: problem in Refusals(env, before, desired) <==>
              exists want :: want in desired && !Already(env, before, want) && RefusalOf(env, want).Some?
                             && problem == NotApplied(want.item.roleCode, RefusalOf(env, want).value)
  {
    if desired != [] {
      var init, last := desired[..|desired| - 1], desired[|desired| - 1];
      RefusalsAre(env, before, init);
      assert forall want :: want in desired <==> want in init || want == last;
    }
  }

  lemma {:induction false} AlreadyIsHeld(env: Env, t: Access, wanted: seq<ManagedRole>, want: Want)
    requires OnePerPlace(t) && want in Desired(env, wanted)
    ensures Already(env, Removed(env, t, wanted).presets, want) <==> HeldHere(env, t, want.role, want.scope)
  {
    HandUnchanged(env, t, wanted, want.role, want.scope);
    RemovedPresets(env, t, wanted);
    if p :| p in t.presets && Managed(env, p) && p.role == want.role && p.scope == want.scope {
      assert Wants(Desired(env, wanted), p.role, p.scope);
      assert p in Removed(env, t, wanted).presets;
    }
  }

  lemma {:induction false} WantIsFirst(env: Env, wanted: seq<ManagedRole>, want: Want)
    requires want in Desired(env, wanted)
    ensures exists i: nat :: AsksFirst(env, wanted, i, want.role) && wanted[i] == want.item && want.scope == want.item.scope
    ensures RefusalOf(env, want) == if want.scope.Some? && !ActiveHere(env, want.scope.value) then Some(BadScope) else None
  {
    DesiredAre(env, wanted);
    FirstItem(env, wanted, want);
    var i :| 0 <= i < |wanted| && want.item == wanted[i] && AsksFor(env, wanted[i], want.role, want.scope)
             && forall j :: 0 <= j < i ==> !AsksFor(env, wanted[j], want.role, want.scope);
    assert AsksFirst(env, wanted, i, want.role);
  }

  lemma {:induction false} FirstIsWanted(env: Env, wanted: seq<ManagedRole>, i: nat, role: RoleId)
    requires AsksFirst(env, wanted, i, role)
    ensures exists want :: want in Desired(env, wanted) && want.role == role && want.scope == wanted[i].scope && want.item == wanted[i]
  {
    DesiredAre(env, wanted);
    assert Wants(Desired(env, wanted), role, wanted[i].scope);
    var want :| want in Desired(env, wanted) && want.role == role && want.scope == wanted[i].scope;
    var k :| && 0 <= k < |wanted| && want.item == wanted[k] && AsksFor(env, wanted[k], role, wanted[i].scope)
             && forall j :: 0 <= j < k ==> !AsksFor(env, wanted[j], role, wanted[i].scope);
    assert k == i;
  }

  /** The item is the first to ask for a role not held there yet, in a scope that is no active unit of the organization. */
  ghost predicate CannotApply(env: Env, t: Access, wanted: seq<ManagedRole>, i: nat, role: RoleId) {
    && AsksFirst(env, wanted, i, role) && !HeldHere(env, t, role, wanted[i].scope)
    && wanted[i].scope.Some? && !ActiveHere(env, wanted[i].scope.value)
  }

  /**
   What is reported: an item that names no role, an item that names one People may not grant, and an item that is the
   first to ask for a role in a scope where it cannot be applied. Nothing else.
  */
  lemma {:induction false} ProblemsExactly(env: Env, t: Access, wanted: seq<ManagedRole>, problem: Problem)
    requires OnePerPlace(t)
    ensures problem in Problems(env, t, wanted) <==>
            || (exists item :: item in wanted && IsIssueOf(env, item, problem))
            || exists i: nat, role :: CannotApply(env, t, wanted, i, role) && problem == NotApplied(wanted[i].roleCode, BadScope)
  {
    var before, desired := Removed(env, t, wanted).presets, Desired(env, wanted);
    IssuesAre(env, wanted);
    RefusalsAre(env, before, desired);
    if want :| want in desired && !Already(env, before, want) && RefusalOf(env, want).Some?
               && problem == NotApplied(want.item.roleCode, RefusalOf(env, want).value) {
      AlreadyIsHeld(env, t, wanted, want);
      WantIsFirst(env, wanted, want);
      var i: nat :| AsksFirst(env, wanted, i, want.role) && wanted[i] == want.item && want.scope == want.item.scope;
      assert CannotApply(env, t, wanted, i, want.role);
    }
    if i: nat, role :| CannotApply(env, t, wanted, i, role) && problem == NotApplied(wanted[i].roleCode, BadScope) {
      FirstIsWanted(env, wanted, i, role);
      var want :| want in desired && want.role == role && want.scope == wanted[i].scope && want.item == wanted[i];
      AlreadyIsHeld(env, t, wanted, want);
      WantIsFirst(env, wanted, want);
    }
  }

  // ------------------------------------------------------------------ the permissions afterwards

  lemma {:induction false} RemovedAre(env: Env, t: Access, wanted: seq<ManagedRole>)
    requires OnePerPlace(t)
    ensures var after := Sync(env, t, wanted).presets;
            && (forall p :: p in DoomedOf(env, wanted, t.presets) <==> p in t.presets && p !in after)
            && (forall p :: p in Removed(env, t, wanted).presets <==> p in t.presets && p in after)
  {
    DoomedAre(env, wanted, t.presets);
    RemovedPresets(env, t, wanted);
    forall p | p in t.presets ensures p in Sync(env, t, wanted).presets <==> !Doomed(env, wanted, p) {
      StaysExactlyWhen(env, t, wanted, p);
      DoomedExactly(env, wanted, p);
    }
  }

  lemma {:induction false} AddedAre(env: Env, t: Access, wanted: seq<ManagedRole>, user: UserId, scope: Option<Id>, code: string)
    requires OnePerPlace(t)
    ensures (user == env.user
             && exists want :: want in Desired(env, wanted) && Comes(env, Removed(env, t, wanted).presets, want)
                               && want.scope == scope && code in PermissionsOf(env.roles, want.role))
            <==>
            exists p :: p in Sync(env, t, wanted).presets && p !in t.presets
                        && p.user == user && p.scope == scope && code in PermissionsOf(env.roles, p.role)
  {
    var removed, desired := Removed(env, t, wanted), Desired(env, wanted);
    RemovedAre(env, t, wanted);
    if want :| user == env.user && want in desired && Comes(env, removed.presets, want)
               && want.scope == scope && code in PermissionsOf(env.roles, want.role) {
      ComerArrives(env, removed.presets, removed, desired, want);
      var p :| p in Sync(env, t, wanted).presets && IsFor(env, p, want);
      assert p in t.presets ==> p in removed.presets;
    }
    if p :| p in Sync(env, t, wanted).presets && p !in t.presets
            && p.user == user && p.scope == scope && code in PermissionsOf(env.roles, p.role) {
      NewcomerIsFor(env, removed, desired, p);
    }
  }

  lemma NewcomerIsFor(env: Env, t: Access, desired: seq<Want>, p: Preset)
    requires p in ApplyAll(env, t.presets, t, desired).presets && p !in t.presets
    ensures exists want :: want in desired && Comes(env, t.presets, want) && IsFor(env, p, want)
  {
    ApplyAllPresets(env, t.presets, t, desired);
  }

  /**
   The permissions afterwards, for every user and scope: a row that no preset now gone had brought, a row that a preset
   still there includes, or one that a preset added now includes. Nothing else is gained or lost, for anyone.
  */
  lemma {:induction false} PermissionsExactly(env: Env, t: Access, wanted: seq<ManagedRole>, user: UserId, scope: Option<Id>, code: string)
    requires OnePerPlace(t)
    ensures var after := Sync(env, t, wanted);
            (exists row :: row in after.rows && row.user == user && row.scope == scope && row.code == code)
            <==>
            || (exists row :: row in t.rows && row.user == user && row.scope == scope && row.code == code
                              && forall p :: p in t.presets && p !in after.presets
                                             ==> p.user != user || p.scope != scope || row.credit != Some(p.role))
            || (exists row, p :: row in t.rows && row.user == user && row.scope == scope && row.code == code
                                 && p in t.presets && p in after.presets && p.user == user && p.scope == scope
                                 && code in PermissionsOf(env.roles, p.role))
            || (exists p :: p in after.presets && p !in t.presets
                            && p.user == user && p.scope == scope && code in PermissionsOf(env.roles, p.role))
  {
    PermissionsAfter(env, t, wanted, user, scope, code);
    RemovedAre(env, t, wanted);
    AddedAre(env, t, wanted, user, scope, code);
    var doomed := DoomedOf(env, wanted, t.presets);
    forall row: Row | row.user == user && row.scope == scope
      ensures !BroughtByAny(doomed, row) <==>
              forall p :: p in t.presets && p !in Sync(env, t, wanted).presets
                          ==> p.user != user || p.scope != scope || row.credit != Some(p.role)
    {
    }
  }

  // ------------------------------------------------------------------ adopting

  /**
   A preset is adopted exactly when it is the employee's, held by hand, and of a role whose code is named; then it is
   People's, for the post given, and otherwise it stays as it is.
  */
  lemma {:induction false} AdoptedExactlyWhen(env: Env, codes: set<string>, sourceRef: string, p: Preset)
    ensures Adopted(env, codes, sourceRef, p) ==
            if p.user == env.user && p.source.None? && exists role :: HasId(env.roles, p.role, role) && Lower(role.code) in codes
            then p.(source := Some("people"), sourceRef := Some(sourceRef)) else p
  {
    RoleByIdHasId(env.roles, p.role);
  }
}
