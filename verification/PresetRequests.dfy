/**
 Giving and taking back role presets on someone's behalf (services/rbac_service.py): the checks around the tables of
 RolePresets, and what they add up to. No chain of requests, each checked against the rows its actor holds at the
 time, ever leaves anyone with more than their own start rows or what was handed out by a client administrator or by
 a holder from the start.
*/
module PresetRequests {
  import opened Common
  import opened Paths
  import opened OrgTree
  import A = AccessControl
  import opened RolePresets
  import opened RevocationSafety

  datatype User = User(org: string, deactivated: bool, managedByPeople: bool)

  datatype Refusal =
    | NoSuchUser | SelfModification | Deactivated | Unresolved(error: ResolveError) | Denied | ExtraAccessNeedsEnd | AlreadyThere
    | NoSuchPreset | ManagedByPeople

  /** What does not change while requests are served. `extraAccess` is how long access given by hand may last. */
  datatype World = World(users: map<UserId, User>, roles: seq<Role>, units: Units, extraAccess: int)

  datatype Request =
    | Give(actor: UserId, superuser: bool, org: string, now: int, user: UserId, role: RoleId, scope: Option<Id>, selfOnly: bool,
           validTo: Option<int>)
    | TakeBack(actor: UserId, superuser: bool, org: string, now: int, preset: Preset)

  function AsPermission(row: Row): A.PermissionRow {
    A.PermissionRow(row.user, row.code, row.scope, row.selfOnly, row.validTo)
  }

  function AsPermissions(rows: seq<Row>): seq<A.PermissionRow> {
    seq(|rows|, i requires 0 <= i < |rows| => AsPermission(rows[i]))
  }

  /** The actor with the grants their rows give now. */
  function ActorOf(w: World, t: Access, request: Request): A.Actor {
    A.Actor(request.actor, request.org, request.superuser,
            A.GrantsOfRows(w.units, AsPermissions(t.rows), request.actor, request.now))
  }

  /** What a row of this shape grants: its path is the scope unit's. */
  function GrantAt(units: Units, code: string, scope: Option<Id>, selfOnly: bool): A.Grant {
    A.Grant(code, scope, if scope.Some? && scope.value in units then Some(units[scope.value].path) else None, selfOnly)
  }

  function GrantIn(units: Units, row: Row): A.Grant {
    GrantAt(units, row.code, row.scope, row.selfOnly)
  }

  function GiveRefusal(w: World, t: Access, request: Request): Option<Refusal>
    requires request.Give?
  {
    var Give(actor, _, org, now, user, role, scope, selfOnly, validTo) := request;
    if user !in w.users || w.users[user].org != org then Some(NoSuchUser)
    else if user == actor then Some(SelfModification)
    else if w.users[user].deactivated then Some(Deactivated)
    else
      var unresolved := ResolveRefusal(w.roles, w.units, org, role, scope, validTo, now);
      if unresolved.Some? then Some(Unresolved(unresolved.value))
      else if exists code :: code in PermissionsOf(w.roles, role)
                             && !ActorOf(w, t, request).CanGrant(GrantAt(w.units, code, scope, selfOnly)) then Some(Denied)
      else if w.users[user].managedByPeople && (validTo.None? || validTo.value > now + w.extraAccess) then Some(ExtraAccessNeedsEnd)
      else if AlreadyApplied(t.presets, user, role, scope) then Some(AlreadyThere)
      else None
  }

  /** The rows that go with a preset are those no other preset there includes; taking them back needs access as broad. */
  predicate Goes(w: World, t: Access, preset: Preset, row: Row) {
    row in t.rows && Brought(preset, row) && StillGrantedBy(w.roles, t.presets, preset, row.code).None?
  }

  function TakeBackRefusal(w: World, t: Access, request: Request): Option<Refusal>
    requires request.TakeBack?
  {
    var preset := request.preset;
    if preset !in t.presets || preset.user !in w.users || w.users[preset.user].org != request.org then Some(NoSuchPreset)
    else if preset.user == request.actor then Some(SelfModification)
    else if preset.source == Some(PEOPLE_SOURCE) then Some(ManagedByPeople)
    else if exists row :: row in t.rows && Goes(w, t, preset, row) && !ActorOf(w, t, request).CanGrant(GrantIn(w.units, row))
    then Some(Denied)
    else None
  }

  function Refusals(w: World, t: Access, request: Request): Option<Refusal> {
    if request.Give? then GiveRefusal(w, t, request) else TakeBackRefusal(w, t, request)
  }

  function Serve(w: World, t: Access, request: Request): Access {
    if Refusals(w, t, request).Some? then t
    else match request
         case Give(_, _, _, _, user, role, scope, selfOnly, validTo) => Apply(w.roles, t, user, role, scope, selfOnly, validTo, None, None)
         case TakeBack(_, _, _, _, preset) => Revoke(w.roles, t, preset)
  }

  function ServeAll(w: World, start: Access, requests: seq<Request>): Access {
    if requests == [] then start else Serve(w, ServeAll(w, start, requests[..|requests| - 1]), requests[|requests| - 1])
  }

  method CreateRoleAssignment(tables: AccessTables, w: World, request: Request) returns (refusal: Option<Refusal>)
    requires request.Give?
    modifies tables
    ensures refusal == GiveRefusal(w, old(tables.View()), request)
    ensures tables.View() == Serve(w, old(tables.View()), request)
  {
    refusal := GiveRefusal(w, tables.View(), request);
    if refusal.None? {
      tables.AddToUser(w.roles, request.user, request.role, request.scope, request.selfOnly, request.validTo, None, None);
    }
  }

  method RevokeRoleAssignment(tables: AccessTables, w: World, request: Request) returns (refusal: Option<Refusal>)
    requires request.TakeBack?
    modifies tables
    ensures refusal == TakeBackRefusal(w, old(tables.View()), request)
    ensures tables.View() == Serve(w, old(tables.View()), request)
  {
    refusal := TakeBackRefusal(w, tables.View(), request);
    if refusal.None? {
      tables.RemovePreset(w.roles, request.preset);
    }
  }

  // ------------------------------------------------------------------ which requests are served

  /** What a row gives its user at a moment: nothing once it has expired, or when its unit is not there. */
  function GivenBy(w: World, row: Row, now: int): Option<A.Grant> {
    A.GrantOf(w.units, AsPermission(row), now)
  }

  /** A grant of a user is what one of their rows gives. */
  lemma {:induction false} GrantIsARow(w: World, t: Access, user: UserId, now: int, g: A.Grant) returns (row: Row)
    requires g in A.GrantsOfRows(w.units, AsPermissions(t.rows), user, now)
    ensures row in t.rows && row.user == user && GivenBy(w, row, now) == Some(g) && GrantIn(w.units, row) == g
  {
    var rows := AsPermissions(t.rows);
    A.LoadedGrantsExactly(w.units, rows, user, now, g);
    var k :| 0 <= k < |rows| && rows[k].user == user && A.GrantOf(w.units, rows[k], now) == Some(g);
    row := t.rows[k];
  }

  /** The actor is a client administrator, or a row of theirs gives something at least as broad when they ask. */
  ghost predicate HasGrant(w: World, t: Access, request: Request, g: A.Grant) {
    request.superuser || exists row :: row in t.rows && row.user == request.actor && GivenBy(w, row, request.now).Some?
                                       && GivenBy(w, row, request.now).value.ContainsGrant(g)
  }

  lemma {:induction false} CanGrantFromRows(w: World, t: Access, request: Request, g: A.Grant)
    ensures ActorOf(w, t, request).CanGrant(g) <==> HasGrant(w, t, request, g)
  {
    var actor := ActorOf(w, t, request);
    if !request.superuser && actor.CanGrant(g) {
      var held :| held in actor.grants && actor.Holds(held, g.permission) && held.ContainsGrant(g);
      var row := GrantIsARow(w, t, request.actor, request.now, held);
    }
    if row :| row in t.rows && row.user == request.actor && GivenBy(w, row, request.now).Some?
              && GivenBy(w, row, request.now).value.ContainsGrant(g) {
      var held, rows := GivenBy(w, row, request.now).value, AsPermissions(t.rows);
      var k :| 0 <= k < |t.rows| && t.rows[k] == row;
      assert rows[k] == AsPermission(row);
      A.LoadedGrantsExactly(w.units, rows, request.actor, request.now, held);
      assert actor.Holds(held, g.permission);
    }
  }

  /** The actor has the permission as broadly as the request gives it. */
  ghost predicate MayGive(w: World, t: Access, request: Request, code: string)
    requires request.Give?
  {
    var path := if request.scope.Some? && request.scope.value in w.units then Some(w.units[request.scope.value].path) else None;
    HasGrant(w, t, request, A.Grant(code, request.scope, path, request.selfOnly))
  }

  /**
   A preset is given exactly to another, active user of the organization, in an active unit of it or company-wide, not
   ending in the past, a role of the organization whose every permission the actor has as broadly; with an end in time
   where People manages the user; and only once per role and scope.
  */
  lemma {:induction false} GivenExactlyWhen(w: World, t: Access, request: Request)
    requires request.Give?
    ensures var Give(actor, superuser, org, now, user, role, scope, selfOnly, validTo) := request;
            GiveRefusal(w, t, request).None? <==>
            && user in w.users && w.users[user].org == org && user != actor && !w.users[user].deactivated
            && (scope.Some? ==> scope.value in w.units && w.units[scope.value].org == org && w.units[scope.value].active)
            && (validTo.Some? ==> validTo.value > now)
            && (exists r :: r in w.roles && r.id == role && r.org == org)
            && (forall code :: code in PermissionsOf(w.roles, role) ==> MayGive(w, t, request, code))
            && (w.users[user].managedByPeople ==> validTo.Some? && validTo.value <= now + w.extraAccess)
            && !exists p :: p in t.presets && p.user == user && p.role == role && p.scope == scope
  {
    forall code
      ensures ActorOf(w, t, request).CanGrant(GrantAt(w.units, code, request.scope, request.selfOnly)) <==> MayGive(w, t, request, code)
    {
      CanGrantFromRows(w, t, request, GrantAt(w.units, code, request.scope, request.selfOnly));
    }
  }

  /**
   What giving a preset leaves: one more preset, credited to nobody but a person, and one more row for each of its
   permissions not held there yet, as broad and as lasting as asked for.
  */
  lemma {:induction false} GivingAdds(w: World, t: Access, request: Request, row: Row)
    requires request.Give? && GiveRefusal(w, t, request).None?
    ensures var Give(_, _, _, _, user, role, scope, selfOnly, validTo) := request;
            var after := Serve(w, t, request);
            && after.presets == t.presets + [Preset(t.nextId, user, role, scope, None, None)]
            && (row in after.rows <==>
                  || row in t.rows
                  || (row == Row(user, row.code, scope, selfOnly, validTo, Some(role)) && row.code in PermissionsOf(w.roles, role)
                      && !exists held :: held in t.rows && held.user == user && held.scope == scope && held.code == row.code))
  {
    NewRowsAre(PermissionsOf(w.roles, request.role), t.rows,
               Row(request.user, "", request.scope, request.selfOnly, request.validTo, Some(request.role)));
  }

  /** A row the preset brought, and no other preset of the user there has. */
  ghost predicate OnlyFrom(w: World, t: Access, preset: Preset, row: Row) {
    && row in t.rows && row.user == preset.user && row.scope == preset.scope && row.credit == Some(preset.role)
    && forall p :: p in t.presets && p.id != preset.id && p.user == preset.user && p.scope == preset.scope ==>
         row.code !in PermissionsOf(w.roles, p.role)
  }

  lemma {:induction false} GoesExactly(w: World, t: Access, preset: Preset, row: Row)
    ensures Goes(w, t, preset, row) <==> OnlyFrom(w, t, preset, row)
  {
    StillGrantedFrom(w.roles, t.presets, preset, row.code);
  }

  /**
   A preset is taken back exactly from another user of the organization, never one that People manages, when the actor
   has as broadly every permission it brought that no other preset of the user there has.
  */
  lemma {:induction false} TakenBackExactlyWhen(w: World, t: Access, request: Request)
    requires request.TakeBack?
    ensures var preset := request.preset;
            TakeBackRefusal(w, t, request).None? <==>
            && preset in t.presets && preset.user in w.users && w.users[preset.user].org == request.org
            && preset.user != request.actor && preset.source != Some("people")
            && forall row :: row in t.rows && OnlyFrom(w, t, preset, row) ==> HasGrant(w, t, request, GrantIn(w.units, row))
  {
    forall row | row in t.rows
      ensures Goes(w, t, request.preset, row) <==> OnlyFrom(w, t, request.preset, row)
      ensures ActorOf(w, t, request).CanGrant(GrantIn(w.units, row)) <==> HasGrant(w, t, request, GrantIn(w.units, row))
    {
      GoesExactly(w, t, request.preset, row);
      CanGrantFromRows(w, t, request, GrantIn(w.units, row));
    }
  }

  // ------------------------------------------------------------------ no escalation

  /** At the start the actor held a row that gives, when they ask, something at least as broad. */
  ghost predicate HeldFromStart(w: World, start: Access, request: Request, g: A.Grant) {
    exists row :: row in start.rows && row.user == request.actor && GivenBy(w, row, request.now).Some?
                  && GivenBy(w, row, request.now).value.ContainsGrant(g)
  }

  /**
   The request was served and gave `g` or something broader, and it came from a client administrator or from one who
   held what it gave from the start.
  */
  ghost predicate HandedOut(w: World, start: Access, t: Access, request: Request, g: A.Grant) {
    && request.Give? && GiveRefusal(w, t, request).None? && g.permission in PermissionsOf(w.roles, request.role)
    && var given := GrantAt(w.units, g.permission, request.scope, request.selfOnly);
       given.ContainsGrant(g) && (request.superuser || HeldFromStart(w, start, request, given))
  }

  ghost predicate Rooted(w: World, start: Access, requests: seq<Request>, g: A.Grant) {
    exists k :: 0 <= k < |requests| && HandedOut(w, start, ServeAll(w, start, requests[..k]), requests[k], g)
  }

  lemma RootedExtends(w: World, start: Access, init: seq<Request>, last: Request, g: A.Grant)
    requires Rooted(w, start, init, g)
    ensures Rooted(w, start, init + [last], g)
  {
    var k :| 0 <= k < |init| && HandedOut(w, start, ServeAll(w, start, init[..k]), init[k], g);
    assert (init + [last])[..k] == init[..k] && (init + [last])[k] == init[k];
  }

  /** Rootedness passes down to anything narrower. */
  lemma NarrowerIsRooted(w: World, start: Access, requests: seq<Request>, g: A.Grant, narrower: A.Grant)
    requires Rooted(w, start, requests, g) && g.ContainsGrant(narrower)
    ensures Rooted(w, start, requests, narrower)
  {
    var k :| 0 <= k < |requests| && HandedOut(w, start, ServeAll(w, start, requests[..k]), requests[k], g);
    A.ContainmentIsPreorder(GrantAt(w.units, g.permission, requests[k].scope, requests[k].selfOnly), g, narrower);
    assert HandedOut(w, start, ServeAll(w, start, requests[..k]), requests[k], narrower);
  }

  lemma LastIsRoot(w: World, start: Access, init: seq<Request>, last: Request, g: A.Grant)
    requires HandedOut(w, start, ServeAll(w, start, init), last, g)
    ensures Rooted(w, start, init + [last], g)
  {
    var requests := init + [last];
    assert requests[..|init|] == init && requests[|init|] == last;
  }

  /** A row is one held since the start, but for whom it is credited to, or it was handed out and its unit is there. */
  ghost predicate Traced(w: World, start: Access, requests: seq<Request>, row: Row) {
    || (exists first :: first in start.rows && first.(credit := row.credit) == row)
    || ((row.scope.Some? ==> row.scope.value in w.units) && Rooted(w, start, requests, GrantIn(w.units, row)))
  }

  /** Whoever is not a client administrator gives on what they held from the start, or what was handed out to them. */
  lemma {:induction false} GivenOnIsRooted(w: World, start: Access, init: seq<Request>, request: Request, g: A.Grant, held: A.Grant)
    requires var t := ServeAll(w, start, init);
             && (forall r :: r in t.rows ==> Traced(w, start, init, r))
             && request.Give? && GiveRefusal(w, t, request).None? && g.permission in PermissionsOf(w.roles, request.role)
             && g == GrantAt(w.units, g.permission, request.scope, request.selfOnly)
             && held in ActorOf(w, t, request).grants && held.ContainsGrant(g)
    ensures Rooted(w, start, init + [request], g)
  {
    var t := ServeAll(w, start, init);
    var row := GrantIsARow(w, t, request.actor, request.now, held);
    if first :| first in start.rows && first.(credit := row.credit) == row {
      A.ContainmentIsPreorder(g, g, g);
      assert GivenBy(w, first, request.now) == Some(held);
      assert HeldFromStart(w, start, request, g);
      LastIsRoot(w, start, init, request, g);
    } else {
      NarrowerIsRooted(w, start, init, held, g);
      RootedExtends(w, start, init, request, g);
    }
  }

  lemma {:induction false} NewRowIsTraced(w: World, start: Access, init: seq<Request>, request: Request, row: Row)
    requires var t := ServeAll(w, start, init);
             && (forall r :: r in t.rows ==> Traced(w, start, init, r))
             && request.Give? && row in Serve(w, t, request).rows && row !in t.rows
    ensures Traced(w, start, init + [request], row)
  {
    var t := ServeAll(w, start, init);
    var brought := Row(request.user, "", request.scope, request.selfOnly, request.validTo, Some(request.role));
    NewRowsAre(PermissionsOf(w.roles, request.role), t.rows, brought);
    var g := GrantIn(w.units, row);
    var actor := ActorOf(w, t, request);
    assert g == GrantAt(w.units, row.code, request.scope, request.selfOnly) && actor.CanGrant(g);
    if request.superuser {
      A.ContainmentIsPreorder(g, g, g);
      LastIsRoot(w, start, init, request, g);
    } else {
      var held :| held in actor.grants && actor.Holds(held, g.permission) && held.ContainsGrant(g);
      GivenOnIsRooted(w, start, init, request, g, held);
    }
  }

  lemma {:induction false} OldRowStaysTraced(w: World, start: Access, init: seq<Request>, t: Access, request: Request, row: Row)
    requires forall r :: r in t.rows ==> Traced(w, start, init, r)
    requires row in Serve(w, t, request).rows && (request.Give? ==> row in t.rows)
    ensures Traced(w, start, init + [request], row)
  {
    var r := row;
    if request.TakeBack? && Refusals(w, t, request).None? {
      ReviewAllIs(w.roles, t.presets, request.preset, t.rows);
      r :| r in t.rows && Review(w.roles, t.presets, request.preset, r) == Some(row);
    }
    assert r.(credit := row.credit) == row && GrantIn(w.units, r) == GrantIn(w.units, row);
    if first :| first in start.rows && first.(credit := r.credit) == r {
      assert first.(credit := row.credit) == row;
    } else {
      RootedExtends(w, start, init, request, GrantIn(w.units, row));
    }
  }

  lemma {:induction false} RowsAreTraced(w: World, start: Access, requests: seq<Request>, row: Row)
    requires row in ServeAll(w, start, requests).rows
    ensures Traced(w, start, requests, row)
    decreases |requests|
  {
    if requests == [] {
      assert row.(credit := row.credit) == row;
    } else {
      var init, last := requests[..|requests| - 1], requests[|requests| - 1];
      var t := ServeAll(w, start, init);
      assert init + [last] == requests;
      forall r | r in t.rows ensures Traced(w, start, init, r) {
        RowsAreTraced(w, start, init, r);
      }
      if last.Give? && row !in t.rows {
        NewRowIsTraced(w, start, init, last, row);
      } else {
        OldRowStaysTraced(w, start, init, t, last, row);
      }
    }
  }

  /**
   No escalation through presets: after any requests on a tree that does not change, by any actors at any times,
   whatever a user may do is what a row of theirs from the start still gives, or lies within what some served request
   handed out, made by a client administrator or by someone whose row from the start gave at least that much then.
  */
  lemma {:induction false} PresetsNeverEscalate(w: World, start: Access, requests: seq<Request>, user: UserId, now: int, g: A.Grant)
    requires g in A.GrantsOfRows(w.units, AsPermissions(ServeAll(w, start, requests).rows), user, now)
    ensures || (exists row :: row in start.rows && row.user == user && GivenBy(w, row, now) == Some(g))
            || Rooted(w, start, requests, g)
  {
    var row := GrantIsARow(w, ServeAll(w, start, requests), user, now, g);
    RowsAreTraced(w, start, requests, row);
    if first :| first in start.rows && first.(credit := row.credit) == row {
      assert GivenBy(w, first, now) == Some(g);
    }
  }

  /** What is taken back: every permission that goes with a preset is one the actor holds at least as broadly. */
  lemma {:induction false} OnlyOwnAccessIsTakenBack(w: World, t: Access, request: Request, row: Row)
    requires request.TakeBack? && TakeBackRefusal(w, t, request).None?
    requires row in t.rows && !Holds(Serve(w, t, request).rows, row.user, row.scope, row.code)
    ensures row.user == request.preset.user && row.scope == request.preset.scope && row.credit == Some(request.preset.role)
    ensures ActorOf(w, t, request).CanGrant(GrantIn(w.units, row))
  {
    ReviewAllIs(w.roles, t.presets, request.preset, t.rows);
    var after := Review(w.roles, t.presets, request.preset, row);
    assert forall x :: after == Some(x) ==> x in Serve(w, t, request).rows;
    assert Goes(w, t, request.preset, row);
  }

  // ------------------------------------------------------------------ a preset that gives nothing

  const TWO_ROLES := [Role("brief", "org", "brief", true, ["read"]), Role("full", "org", "full", true, ["read"])]

  lemma OneCode(code: string, rows: seq<Row>, brought: Row)
    ensures NewRows([code], rows, brought)
            == if Holds(rows, brought.user, brought.scope, code) then [] else [brought.(code := code)]
  {
    assert [code][..0] == [];
  }

  lemma BothCarryRead()
    ensures PermissionsOf(TWO_ROLES, "brief") == ["read"] && PermissionsOf(TWO_ROLES, "full") == ["read"]
  {
    assert TWO_ROLES[1..] == [Role("full", "org", "full", true, ["read"])] && "brief" != "full";
  }

  /** The tables once both were applied: two presets and the first one's row. */
  lemma OneRowForBoth(user: UserId)
    ensures var brief := Apply(TWO_ROLES, Access([], [], 0), user, "brief", None, true, Some(10), None, None);
            Apply(TWO_ROLES, brief, user, "full", None, false, None, None, None) ==
            Access([Preset(0, user, "brief", None, None, None), Preset(1, user, "full", None, None, None)],
                   [Row(user, "read", None, true, Some(10), Some("brief"))], 2)
  {
    var brief := Apply(TWO_ROLES, Access([], [], 0), user, "brief", None, true, Some(10), None, None);
    var row := Row(user, "read", None, true, Some(10), Some("brief"));
    BothCarryRead();
    OneCode("read", [], row.(code := ""));
    assert brief.rows == [row];
    OneCode("read", [row], Row(user, "", None, false, None, Some("full")));
    assert Holds([row], user, None, "read") by {
      assert row in [row];
    }
  }

  /**
   Applied while the same permission was held for own records only and until 10, a permanent preset brings no row: from
   10 on its user holds the preset and has no access at all.
  */
  lemma NarrowRowShadowsPreset(user: UserId, now: int)
    requires now >= 10
    ensures var brief := Apply(TWO_ROLES, Access([], [], 0), user, "brief", None, true, Some(10), None, None);
            var both := Apply(TWO_ROLES, brief, user, "full", None, false, None, None, None);
            && AlreadyApplied(both.presets, user, "full", None) && Covered(TWO_ROLES, both)
            && A.GrantsOfRows(map[], AsPermissions(both.rows), user, now) == []
  {
    OneRowForBoth(user);
    BothCarryRead();
    var row := Row(user, "read", None, true, Some(10), Some("brief"));
    var full := Preset(1, user, "full", None, None, None);
    assert row in [row] && full in [Preset(0, user, "brief", None, None, None), full];
    assert AsPermissions([row]) == [AsPermission(row)] && [AsPermission(row)][..0] == [];
  }
}
