/**
 User-based access control (services/access_control.py): grants, the checks an actor runs on them, the
 filter of the user list, and loading grants with live scope paths.
*/
module AccessControl {
  import opened Common
  import opened Paths
  import opened OrgTree
  import opened OrgTreeSafety

  type UserId = string

  /** `scopePath` is the live path of the scope unit; None means organization-wide. */
  datatype Grant = Grant(permission: string, scopeUnit: Option<Id>, scopePath: Option<string>, selfOnly: bool) {
    predicate Covers(path: Option<string>, owner: Option<UserId>, actor: UserId) {
      if selfOnly && owner != Some(actor) then false
      else if scopePath.None? then true
      else path.Some? && scopePath.value <= path.value
    }

    /** At least as broad as `other`. */
    predicate ContainsGrant(other: Grant) {
      if permission != other.permission then false
      else if selfOnly && !other.selfOnly then false
      else if scopePath.None? then true
      else other.scopePath.Some? && scopePath.value <= other.scopePath.value
    }
  }

  datatype Actor = Actor(user: UserId, org: string, superuser: bool, grants: seq<Grant>) {
    predicate Holds(g: Grant, permission: string) {
      g in grants && g.permission == permission
    }

    predicate HasOrgWide(permission: string) {
      superuser || exists g :: g in grants && Holds(g, permission) && g.scopePath.None? && !g.selfOnly
    }

    predicate Can(permission: string, path: Option<string>, owner: Option<UserId>) {
      superuser || exists g :: g in grants && Holds(g, permission) && g.Covers(path, owner, user)
    }

    /** An actor hands out, or takes away, only access they hold at least as broadly. */
    predicate CanGrant(wanted: Grant) {
      superuser || exists g :: g in grants && Holds(g, wanted.permission) && g.ContainsGrant(wanted)
    }
  }

  // ------------------------------------------------------------------ containment means coverage

  /** `contains_grant` on two grants of one permission is exactly "covers whatever the other covers". */
  lemma ContainmentIsCoverage(a: Grant, b: Grant)
    requires a.permission == b.permission
    ensures a.ContainsGrant(b) <==>
            forall path, owner, actor :: b.Covers(path, owner, actor) ==> a.Covers(path, owner, actor)
  {
    if !a.ContainsGrant(b) {
      if a.selfOnly && !b.selfOnly {
        assert b.Covers(b.scopePath, None, "") && !a.Covers(b.scopePath, None, "");
      } else {
        assert b.Covers(b.scopePath, Some(""), "") && !a.Covers(b.scopePath, Some(""), "");
      }
    }
  }

  lemma ContainmentIsPreorder(a: Grant, b: Grant, c: Grant)
    ensures a.ContainsGrant(a)
    ensures a.ContainsGrant(b) && b.ContainsGrant(c) ==> a.ContainsGrant(c)
  {
  }

  // ------------------------------------------------------------------ chains of hand-outs

  /** What every user holds, on a tree that does not change. */
  type Holdings = map<UserId, seq<Grant>>

  datatype HandOut = HandOut(giver: UserId, superuser: bool, receiver: UserId, grant: Grant)

  function GrantsOf(holdings: Holdings, user: UserId): seq<Grant> {
    if user in holdings then holdings[user] else []
  }

  /** One hand-out: refused, changing nothing, unless it passes `CanGrant`. */
  function Hand(holdings: Holdings, h: HandOut): Holdings {
    if Actor(h.giver, "", h.superuser, GrantsOf(holdings, h.giver)).CanGrant(h.grant)
    then holdings[h.receiver := GrantsOf(holdings, h.receiver) + [h.grant]]
    else holdings
  }

  function HandAll(holdings: Holdings, chain: seq<HandOut>): Holdings {
    if chain == [] then holdings else Hand(HandAll(holdings, chain[..|chain| - 1]), chain[|chain| - 1])
  }

  /** Held by somebody at the start, or given by a superuser along the chain. */
  predicate Rooted(start: Holdings, chain: seq<HandOut>, root: Grant) {
    || (exists user :: user in start && root in start[user])
    || (exists k :: 0 <= k < |chain| && chain[k].superuser && chain[k].grant == root)
  }

  /** No escalation: whatever the chain, every grant held at the end is within one held at the start or given by a superuser. */
  lemma {:induction false} NoEscalation(start: Holdings, chain: seq<HandOut>, user: UserId, grant: Grant)
    returns (root: Grant)
    requires grant in GrantsOf(HandAll(start, chain), user)
    ensures Rooted(start, chain, root) && root.ContainsGrant(grant)
    decreases |chain|
  {
    if chain == [] {
      root := grant;
      ContainmentIsPreorder(grant, grant, grant);
    } else {
      var init, last := chain[..|chain| - 1], chain[|chain| - 1];
      var before := HandAll(start, init);
      if grant in GrantsOf(before, user) {
        root := NoEscalation(start, init, user, grant);
        RootedExtends(start, chain, root);
      } else {
        assert grant == last.grant;
        if last.superuser {
          root := grant;
          ContainmentIsPreorder(grant, grant, grant);
        } else {
          var handing := Actor(last.giver, "", false, GrantsOf(before, last.giver));
          var held :| held in handing.grants && handing.Holds(held, grant.permission) && held.ContainsGrant(grant);
          root := NoEscalation(start, init, last.giver, held);
          RootedExtends(start, chain, root);
          ContainmentIsPreorder(root, held, grant);
        }
      }
    }
  }

  lemma RootedExtends(start: Holdings, chain: seq<HandOut>, root: Grant)
    requires chain != [] && Rooted(start, chain[..|chain| - 1], root)
    ensures Rooted(start, chain, root)
  {
  }

  /** In terms of access: what anyone can do at the end of a chain, some root grant already covered. */
  lemma {:induction false} NoNewAccess(start: Holdings, chain: seq<HandOut>, user: UserId, grant: Grant,
                                       path: Option<string>, owner: Option<UserId>, actor: UserId)
    returns (root: Grant)
    requires grant in GrantsOf(HandAll(start, chain), user) && grant.Covers(path, owner, actor)
    ensures Rooted(start, chain, root) && root.permission == grant.permission && root.Covers(path, owner, actor)
  {
    root := NoEscalation(start, chain, user, grant);
    ContainmentIsCoverage(root, grant);
  }

  // ------------------------------------------------------------------ the user list's filter

  /** A condition on user rows, as the SQL builds it. */
  datatype Condition =
    | Always
    | Never
    | IsSelf
    | HomeWithin(prefix: string)
    | AnyOf(conditions: seq<Condition>)

  /** A user row: its home unit, if any, with that unit's organization and live path. */
  datatype UserRow = UserRow(id: UserId, home: Option<(string, string)>)

  predicate Selects(c: Condition, actor: Actor, row: UserRow) {
    match c
    case Always => true
    case Never => false
    case IsSelf => row.id == actor.user
    case HomeWithin(prefix) => row.home.Some? && row.home.value.0 == actor.org && prefix <= row.home.value.1
    case AnyOf(conditions) => exists k :: 0 <= k < |conditions| && Selects(conditions[k], actor, row)
  }

  function HomePath(row: UserRow): Option<string> {
    if row.home.None? then None else Some(row.home.value.1)
  }

  /** Whether one grant's condition selects a row: the organization's units under its path, or the actor's own row. */
  predicate SelectedBy(actor: Actor, permission: string, g: Grant, row: UserRow) {
    && g.permission == permission
    && if g.selfOnly then row.id == actor.user
       else g.scopePath.Some? && Selects(HomeWithin(g.scopePath.value), actor, row)
  }

  predicate SelectedByAny(actor: Actor, permission: string, n: nat, row: UserRow)
    requires n <= |actor.grants|
  {
    exists j :: 0 <= j < n && SelectedBy(actor, permission, actor.grants[j], row)
  }

  lemma GrowingAnyOf(actor: Actor, conditions: seq<Condition>, c: Condition, row: UserRow)
    ensures Selects(AnyOf(conditions + [c]), actor, row) <==> Selects(AnyOf(conditions), actor, row) || Selects(c, actor, row)
  {
    var grown := conditions + [c];
    if Selects(AnyOf(conditions), actor, row) {
      var k :| 0 <= k < |conditions| && Selects(conditions[k], actor, row);
      assert Selects(grown[k], actor, row);
    }
    if Selects(c, actor, row) {
      assert Selects(grown[|conditions|], actor, row);
    }
  }

  /** Rows of the actor's organization: a home unit, when there is one, is one of its units. */
  predicate InOrganization(actor: Actor, row: UserRow) {
    row.home.Some? ==> row.home.value.0 == actor.org
  }

  /** The exception: the actor's own row is listed under any self-only grant, even one for a unit the row is not in. */
  predicate ListedAsSelf(actor: Actor, permission: string, row: UserRow) {
    row.id == actor.user && exists g :: g in actor.grants && actor.Holds(g, permission) && g.selfOnly
  }

  lemma SelectedMeansCan(actor: Actor, permission: string, row: UserRow)
    requires !actor.HasOrgWide(permission) && InOrganization(actor, row)
    ensures SelectedByAny(actor, permission, |actor.grants|, row) <==>
            actor.Can(permission, HomePath(row), Some(row.id)) || ListedAsSelf(actor, permission, row)
  {
    if SelectedByAny(actor, permission, |actor.grants|, row) {
      var j :| 0 <= j < |actor.grants| && SelectedBy(actor, permission, actor.grants[j], row);
      assert actor.Holds(actor.grants[j], permission);
    }
    if actor.Can(permission, HomePath(row), Some(row.id)) {
      var g :| g in actor.grants && actor.Holds(g, permission) && g.Covers(HomePath(row), Some(row.id), actor.user);
      var j :| 0 <= j < |actor.grants| && actor.grants[j] == g;
      assert SelectedBy(actor, permission, actor.grants[j], row);
    }
    if ListedAsSelf(actor, permission, row) {
      var g :| g in actor.grants && actor.Holds(g, permission) && g.selfOnly;
      var j :| 0 <= j < |actor.grants| && actor.grants[j] == g;
      assert SelectedBy(actor, permission, actor.grants[j], row);
    }
  }

  /** Within the organization the filter selects what `Can` allows and nothing else, but for the actor's own row. */
  method UserVisibilityFilter(actor: Actor, permission: string) returns (filter: Condition)
    ensures forall row :: InOrganization(actor, row) ==>
              (Selects(filter, actor, row) <==>
               actor.Can(permission, HomePath(row), Some(row.id)) || ListedAsSelf(actor, permission, row))
  {
    if actor.HasOrgWide(permission) {
      OrgWideMeansAll(actor, permission);
      return Always;
    }
    var conditions: seq<Condition> := [];
    for i := 0 to |actor.grants|
      invariant forall row :: Selects(AnyOf(conditions), actor, row) <==> SelectedByAny(actor, permission, i, row)
    {
      var grant := actor.grants[i];
      if grant.permission == permission {
        assert actor.Holds(grant, permission);  // so one that is not self-only names a unit
        var condition := if grant.selfOnly then IsSelf else HomeWithin(grant.scopePath.value);
        forall row { GrowingAnyOf(actor, conditions, condition, row); }
        conditions := conditions + [condition];
      }
    }
    filter := if conditions == [] then Never else AnyOf(conditions);
    forall row | InOrganization(actor, row) { SelectedMeansCan(actor, permission, row); }
  }

  lemma OrgWideMeansAll(actor: Actor, permission: string)
    requires actor.HasOrgWide(permission)
    ensures forall path, owner :: actor.Can(permission, path, owner)
  {
  }

  /** `has_org_wide` holds exactly when the actor may act on a record that has no path and belongs to someone else. */
  lemma OrgWideExactlyWhen(actor: Actor, permission: string, other: Option<UserId>)
    requires other != Some(actor.user)
    ensures actor.HasOrgWide(permission) <==> actor.Can(permission, None, other)
  {
  }

  // ------------------------------------------------------------------ loading grants

  /** A stored grant; the scope path is never copied but read from the unit. */
  datatype PermissionRow = PermissionRow(user: UserId, code: string, scope: Option<Id>, selfOnly: bool, validTo: Option<int>)

  predicate Current(row: PermissionRow, now: int) {
    row.validTo.None? || row.validTo.value > now
  }

  /** The grant a row gives now: none when it has expired or its unit has vanished. */
  function GrantOf(units: Units, row: PermissionRow, now: int): Option<Grant> {
    if !Current(row, now) || (row.scope.Some? && row.scope.value !in units) then None
    else Some(Grant(row.code, row.scope, if row.scope.None? then None else Some(units[row.scope.value].path), row.selfOnly))
  }

  function GrantsOfRows(units: Units, rows: seq<PermissionRow>, user: UserId, now: int): seq<Grant> {
    if rows == [] then []
    else
      var last := rows[|rows| - 1];
      var g := GrantOf(units, last, now);
      GrantsOfRows(units, rows[..|rows| - 1], user, now) + (if last.user == user && g.Some? then [g.value] else [])
  }

  method LoadGrants(units: Units, rows: seq<PermissionRow>, user: UserId, now: int) returns (grants: seq<Grant>)
    ensures grants == GrantsOfRows(units, rows, user, now)
  {
    grants := [];
    for i := 0 to |rows|
      invariant grants == GrantsOfRows(units, rows[..i], user, now)
    {
      assert rows[..i + 1][..i] == rows[..i];
      var row := rows[i];
      if row.user != user || !Current(row, now) {
        continue;
      }
      if row.scope.Some? && row.scope.value !in units {
        continue;
      }
      grants := grants + [Grant(row.code, row.scope, if row.scope.Some? then Some(units[row.scope.value].path) else None, row.selfOnly)];
    }
    assert rows[..|rows|] == rows;
  }

  /** Exactly the grants of the user's rows that have not expired and whose unit exists. */
  lemma {:induction false} LoadedGrantsExactly(units: Units, rows: seq<PermissionRow>, user: UserId, now: int, g: Grant)
    ensures g in GrantsOfRows(units, rows, user, now) <==>
            exists k :: 0 <= k < |rows| && rows[k].user == user && GrantOf(units, rows[k], now) == Some(g)
  {
    if rows != [] {
      var init := rows[..|rows| - 1];
      LoadedGrantsExactly(units, init, user, now, g);
      if g in GrantsOfRows(units, init, user, now) {
        var k :| 0 <= k < |init| && init[k].user == user && GrantOf(units, init[k], now) == Some(g);
        assert rows[k] == init[k];
      }
      if exists k :: 0 <= k < |rows| && rows[k].user == user && GrantOf(units, rows[k], now) == Some(g) {
        var k :| 0 <= k < |rows| && rows[k].user == user && GrantOf(units, rows[k], now) == Some(g);
        if k < |init| {
          assert init[k] == rows[k];
        }
      }
    }
  }

  /**
   A row that lets its user act on a record of `owner`'s kept at `unit`, or at none: current, for own records only if
   the record is the user's own, and company-wide or for a unit at or above the record's by the parent pointers.
  */
  ghost predicate RowReaches(units: Units, row: PermissionRow, user: UserId, now: int, permission: string, unit: Option<Id>,
                             owner: Option<UserId>)
  {
    && row.user == user && row.code == permission
    && (row.validTo.Some? ==> row.validTo.value > now)
    && (row.selfOnly ==> owner == Some(user))
    && (row.scope.Some? ==> unit.Some? && row.scope.value in units && AtOrAbove(units, row.scope.value, unit.value))
  }

  function PathOf(units: Units, unit: Option<Id>): Option<string>
    requires unit.Some? ==> unit.value in units
  {
    if unit.None? then None else Some(units[unit.value].path)
  }

  lemma RowReachesIfCovers(units: Units, row: PermissionRow, user: UserId, now: int, permission: string, unit: Option<Id>,
                           owner: Option<UserId>)
    requires TreeInv(units) && (unit.Some? ==> unit.value in units) && row.user == user && row.code == permission
    ensures RowReaches(units, row, user, now, permission, unit, owner) <==>
            GrantOf(units, row, now).Some? && GrantOf(units, row, now).value.Covers(PathOf(units, unit), owner, user)
  {
    if row.scope.Some? && row.scope.value in units && unit.Some? {
      PrefixIsAncestry(units, row.scope.value, unit.value);
    }
  }

  /**
   End to end, on any reachable tree: an actor may act on a record, anyone's or their own, kept at a unit or at none,
   exactly when they are a superuser or a current row of theirs reaches it.
  */
  lemma AccessFollowsTheTree(units: Units, rows: seq<PermissionRow>, user: UserId, org: string, superuser: bool, now: int,
                             permission: string, unit: Option<Id>, owner: Option<UserId>)
    requires TreeInv(units) && (unit.Some? ==> unit.value in units)
    ensures Actor(user, org, superuser, GrantsOfRows(units, rows, user, now)).Can(permission, PathOf(units, unit), owner)
            <==>
            superuser || exists k :: 0 <= k < |rows| && RowReaches(units, rows[k], user, now, permission, unit, owner)
  {
    var actor := Actor(user, org, superuser, GrantsOfRows(units, rows, user, now));
    var path := PathOf(units, unit);
    if actor.Can(permission, path, owner) && !superuser {
      var g :| g in actor.grants && actor.Holds(g, permission) && g.Covers(path, owner, user);
      LoadedGrantsExactly(units, rows, user, now, g);
      var k :| 0 <= k < |rows| && rows[k].user == user && GrantOf(units, rows[k], now) == Some(g);
      RowReachesIfCovers(units, rows[k], user, now, permission, unit, owner);
    }
    if k :| 0 <= k < |rows| && RowReaches(units, rows[k], user, now, permission, unit, owner) {
      RowReachesIfCovers(units, rows[k], user, now, permission, unit, owner);
      var g := GrantOf(units, rows[k], now).value;
      LoadedGrantsExactly(units, rows, user, now, g);
      assert actor.Holds(g, permission);
    }
  }

  /**
   An actor may hand out or take away a grant exactly when they are a superuser, or one grant of theirs lets its holder
   do, to any record of anyone's, whatever the handed-out one would.
  */
  lemma CanGrantExactlyWhen(actor: Actor, wanted: Grant)
    ensures actor.CanGrant(wanted) <==>
            actor.superuser
            || exists g :: g in actor.grants && g.permission == wanted.permission
                           && forall path, owner, holder :: wanted.Covers(path, owner, holder) ==> g.Covers(path, owner, holder)
  {
    forall g | g in actor.grants && g.permission == wanted.permission
      ensures g.ContainsGrant(wanted) <==>
              forall path, owner, holder :: wanted.Covers(path, owner, holder) ==> g.Covers(path, owner, holder)
    {
      ContainmentIsCoverage(g, wanted);
    }
    if actor.CanGrant(wanted) && !actor.superuser {
      var g :| g in actor.grants && actor.Holds(g, wanted.permission) && g.ContainsGrant(wanted);
    }
    if g :| g in actor.grants && g.permission == wanted.permission
            && forall path, owner, holder :: wanted.Covers(path, owner, holder) ==> g.Covers(path, owner, holder) {
      assert actor.Holds(g, wanted.permission) && g.ContainsGrant(wanted);
    }
  }
}
