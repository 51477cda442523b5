/**
 What one declaration does to an employee's presets and permissions: which presets stay, go and come, which
 permissions are lost however the revocations are ordered, and that declaring the same again changes nothing.
*/
module PeopleSyncSafety {
  import opened Common
  import opened Paths
  import opened OrgTree
  import opened RolePresets
  import opened RevocationSafety
  import opened PeopleSync

  // ------------------------------------------------------------------ many revocations in a row

  /** No revoked preset has its id. */
  predicate Spared(doomed: seq<Preset>, p: Preset) {
    forall d :: d in doomed ==> p.id != d.id
  }

  lemma SparedGrows(init: seq<Preset>, last: Preset, p: Preset)
    ensures Spared(init + [last], p) <==> Spared(init, p) && p.id != last.id
  {
    assert forall d :: d in init + [last] <==> d in init || d == last;
  }

  lemma {:induction false} RevokeAllPresets(roles: seq<Role>, t: Access, doomed: seq<Preset>)
    ensures var after := RevokeAll(roles, t, doomed);
            && (forall p :: p in after.presets <==> p in t.presets && Spared(doomed, p))
            && after.nextId == t.nextId
  {
    if doomed != [] {
      var init, last := doomed[..|doomed| - 1], doomed[|doomed| - 1];
      RevokeAllPresets(roles, t, init);
      WithoutPresetIs(RevokeAll(roles, t, init).presets, last.id);
      assert doomed == init + [last];
      forall p ensures Spared(doomed, p) <==> Spared(init, p) && p.id != last.id {
        SparedGrows(init, last, p);
      }
    }
  }

  predicate BroughtByAny(doomed: seq<Preset>, row: Row) {
    exists d :: d in doomed && Brought(d, row)
  }

  /** What all the revocations, in this order, leave of one row. */
  function Trace(roles: seq<Role>, t: Access, doomed: seq<Preset>, row: Row): Option<Row> {
    if doomed == [] then Some(row)
    else
      var init := doomed[..|doomed| - 1];
      var before := Trace(roles, t, init, row);
      if before.None? then None else Review(roles, RevokeAll(roles, t, init).presets, doomed[|doomed| - 1], before.value)
  }

  lemma {:induction false} RevokeAllRows(roles: seq<Role>, t: Access, doomed: seq<Preset>, row: Row)
    ensures row in RevokeAll(roles, t, doomed).rows <==> exists r :: r in t.rows && Trace(roles, t, doomed, r) == Some(row)
  {
    if doomed == [] {
      assert row in t.rows ==> Trace(roles, t, doomed, row) == Some(row);
    } else {
      var init, last := doomed[..|doomed| - 1], doomed[|doomed| - 1];
      var before := RevokeAll(roles, t, init);
      ReviewAllIs(roles, before.presets, last, before.rows);
      if row in RevokeAll(roles, t, doomed).rows {
        var r1 :| r1 in before.rows && Review(roles, before.presets, last, r1) == Some(row);
        RevokeAllRows(roles, t, init, r1);
        var r :| r in t.rows && Trace(roles, t, init, r) == Some(r1);
        assert Trace(roles, t, doomed, r) == Some(row);
      }
      if r :| r in t.rows && Trace(roles, t, doomed, r) == Some(row) {
        RevokeAllRows(roles, t, init, Trace(roles, t, init, r).value);
      }
    }
  }

  /** A row's fate: untouched if none of the revoked presets brought it, else it stays exactly when a kept preset includes it. */
  ghost predicate Fate(roles: seq<Role>, kept: seq<Preset>, doomed: seq<Preset>, row: Row, after: Option<Row>) {
    if !BroughtByAny(doomed, row) then after == Some(row)
    else
      && (after.Some? <==> AnyIncludes(roles, kept, row.user, row.scope, row.code))
      && (after.Some? ==> exists q :: q in kept && Includes(roles, q, row.user, row.scope, row.code)
                                      && after == Some(row.(credit := Some(q.role))))
  }

  lemma FateStep(roles: seq<Role>, presets: seq<Preset>, init: seq<Preset>, last: Preset, row: Row, before: Option<Row>)
    requires Fate(roles, presets, init, row, before)
    requires Alone(presets, last)
    ensures Fate(roles, WithoutPreset(presets, last.id), init + [last], row,
                 if before.None? then None else Review(roles, presets, last, before.value))
  {
    var kept := WithoutPreset(presets, last.id);
    WithoutPresetIs(presets, last.id);
    assert forall d :: d in init + [last] <==> d in init || d == last;
    if before.Some? && Brought(last, before.value) {
      ReviewExactly(roles, presets, last, before.value);
      var after := Review(roles, presets, last, before.value);
      if after.Some? {
        var q :| q in kept && Includes(roles, q, row.user, row.scope, row.code)
                 && after == Some(before.value.(credit := Some(q.role)));
        assert after == Some(row.(credit := Some(q.role)));
      }
      assert BroughtByAny(init, row) || Brought(last, row);
    } else if before.Some? && BroughtByAny(init, row) {
      var q :| q in presets && Includes(roles, q, row.user, row.scope, row.code) && before == Some(row.(credit := Some(q.role)));
      assert q in kept;
    }
  }

  /** A preset is gone exactly when it was revoked. */
  lemma {:induction false} KeptAre(roles: seq<Role>, t: Access, doomed: seq<Preset>)
    requires OnePerPlace(t) && forall d :: d in doomed ==> d in t.presets
    ensures forall p :: p in RevokeAll(roles, t, doomed).presets <==> p in t.presets && p !in doomed
  {
    RevokeAllPresets(roles, t, doomed);
    forall p | p in t.presets ensures p in RevokeAll(roles, t, doomed).presets <==> p !in doomed {
      IdTellsApart(t, doomed, p);
    }
  }

  lemma IdTellsApart(t: Access, doomed: seq<Preset>, p: Preset)
    requires OnePerPlace(t) && p in t.presets && forall d :: d in doomed ==> d in t.presets
    ensures p !in doomed <==> Spared(doomed, p)
  {
  }

  lemma {:induction false} TraceFate(roles: seq<Role>, t: Access, doomed: seq<Preset>, row: Row)
    requires OnePerPlace(t) && forall d :: d in doomed ==> d in t.presets
    ensures Fate(roles, RevokeAll(roles, t, doomed).presets, doomed, row, Trace(roles, t, doomed, row))
  {
    if doomed != [] {
      var init, last := doomed[..|doomed| - 1], doomed[|doomed| - 1];
      var presets, before := RevokeAll(roles, t, init).presets, Trace(roles, t, init, row);
      TraceFate(roles, t, init, row);
      AloneInPlace(roles, t, init, last);
      FateStep(roles, presets, init, last, row, before);
      assert init + [last] == doomed;
      assert RevokeAll(roles, t, doomed).presets == WithoutPreset(presets, last.id);
    }
  }

  lemma {:induction false} AloneInPlace(roles: seq<Role>, t: Access, init: seq<Preset>, last: Preset)
    requires OnePerPlace(t) && last in t.presets && forall d :: d in init ==> d in t.presets
    ensures Alone(RevokeAll(roles, t, init).presets, last)
  {
    KeptAre(roles, t, init);
  }

  /**
   However the revocations are ordered, and although each re-credits to presets that may go next, together they
   take exactly what the revoked presets brought and no preset the user keeps there includes.
  */
  lemma {:induction false} RevocationsTakeExactly(roles: seq<Role>, t: Access, doomed: seq<Preset>,
                                                  user: UserId, scope: Option<Id>, code: string)
    requires OnePerPlace(t) && forall d :: d in doomed ==> d in t.presets
    ensures var after := RevokeAll(roles, t, doomed);
            Holds(after.rows, user, scope, code) <==>
            exists row :: row in t.rows && row.user == user && row.scope == scope && row.code == code
                          && (!BroughtByAny(doomed, row) || AnyIncludes(roles, after.presets, user, scope, code))
  {
    var after := RevokeAll(roles, t, doomed);
    if Holds(after.rows, user, scope, code) {
      var row :| row in after.rows && row.user == user && row.scope == scope && row.code == code;
      RevokeAllRows(roles, t, doomed, row);
      var r :| r in t.rows && Trace(roles, t, doomed, r) == Some(row);
      TraceFate(roles, t, doomed, r);
    }
    if r :| r in t.rows && r.user == user && r.scope == scope && r.code == code
            && (!BroughtByAny(doomed, r) || AnyIncludes(roles, after.presets, user, scope, code)) {
      TraceFate(roles, t, doomed, r);
      RevokeAllRows(roles, t, doomed, Trace(roles, t, doomed, r).value);
    }
  }

  lemma {:induction false} RevokeAllKeeps(roles: seq<Role>, t: Access, doomed: seq<Preset>)
    requires OnePerPlace(t) && Covered(roles, t) && Credited(roles, t)
    requires forall d :: d in doomed ==> d in t.presets
    ensures var after := RevokeAll(roles, t, doomed); OnePerPlace(after) && Covered(roles, after) && Credited(roles, after)
  {
    if doomed != [] {
      var init, last := doomed[..|doomed| - 1], doomed[|doomed| - 1];
      RevokeAllKeeps(roles, t, init);
      AloneInPlace(roles, t, init, last);
      var before := RevokeAll(roles, t, init);
      RevokeKeepsDistinct(roles, before, last);
      RevokeKeepsCovered(roles, before, last);
      RevokeKeepsCredited(roles, before, last);
    }
  }

  // ------------------------------------------------------------------ which presets are there afterwards

  lemma {:induction false} DoomedAre(env: Env, wanted: seq<ManagedRole>, presets: seq<Preset>)
    ensures forall p :: p in DoomedOf(env, wanted, presets) <==> p in presets && Doomed(env, wanted, p)
  {
    if presets != [] {
      DoomedAre(env, wanted, presets[..|presets| - 1]);
      assert presets == presets[..|presets| - 1] + [presets[|presets| - 1]];
    }
  }

  lemma RemovedPresets(env: Env, t: Access, wanted: seq<ManagedRole>)
    requires OnePerPlace(t)
    ensures forall p :: p in Removed(env, t, wanted).presets <==> p in t.presets && !Doomed(env, wanted, p)
  {
    DoomedAre(env, wanted, t.presets);
    KeptAre(env.roles, t, DoomedOf(env, wanted, t.presets));
  }

  predicate Comes(env: Env, before: seq<Preset>, want: Want) {
    !Already(env, before, want) && RefusalOf(env, want).None?
  }

  predicate IsFor(env: Env, p: Preset, want: Want) {
    && Managed(env, p) && p.role == want.role && p.scope == want.scope && p.sourceRef == Some(want.item.sourceRef)
  }

  /** Every preset stays, and a new one is for a want that came. */
  ghost predicate Grew(env: Env, before: seq<Preset>, from: seq<Preset>, after: seq<Preset>, desired: seq<Want>) {
    && (forall p :: p in from ==> p in after)
    && forall p :: p in after && p !in from ==> exists want :: want in desired && Comes(env, before, want) && IsFor(env, p, want)
  }

  lemma {:induction false} ApplyAllPresets(env: Env, before: seq<Preset>, t: Access, desired: seq<Want>)
    ensures Grew(env, before, t.presets, ApplyAll(env, before, t, desired).presets, desired)
  {
    if desired != [] {
      var init, last := desired[..|desired| - 1], desired[|desired| - 1];
      ApplyAllPresets(env, before, t, init);
      assert desired == init + [last];
      var sofar, after := ApplyAll(env, before, t, init), ApplyAll(env, before, t, desired);
      if Comes(env, before, last) {
        var added := after.presets[|sofar.presets|];
        assert IsFor(env, added, last);
        assert forall p :: p in after.presets <==> p in sofar.presets || p == added;
      } else {
        assert after == sofar;
      }
    }
  }

  /** A want that comes is there afterwards. */
  lemma {:induction false} ComerArrives(env: Env, before: seq<Preset>, t: Access, desired: seq<Want>, want: Want)
    requires want in desired && Comes(env, before, want)
    ensures exists p :: p in ApplyAll(env, before, t, desired).presets && IsFor(env, p, want)
  {
    var init, last := desired[..|desired| - 1], desired[|desired| - 1];
    var sofar, after := ApplyAll(env, before, t, init), ApplyAll(env, before, t, desired);
    if want == last {
      var added := after.presets[|sofar.presets|];
      assert added in after.presets && IsFor(env, added, want);
    } else {
      assert desired == init + [last];
      ComerArrives(env, before, t, init, want);
      var p :| p in sofar.presets && IsFor(env, p, want);
      assert p in after.presets;
    }
  }

  /** Hand-granted presets, other people's and other services' never change, nor do those of a role with a problem. */
  lemma SparedStays(env: Env, t: Access, wanted: seq<ManagedRole>, p: Preset)
    requires OnePerPlace(t) && p in t.presets
    requires !Managed(env, p) || Protected(env, wanted, p) || Wants(Desired(env, wanted), p.role, p.scope)
    ensures p in Sync(env, t, wanted).presets
  {
    RemovedPresets(env, t, wanted);
    ApplyAllPresets(env, Removed(env, t, wanted).presets, Removed(env, t, wanted), Desired(env, wanted));
  }

  lemma ManagedAfterwards(env: Env, t: Access, wanted: seq<ManagedRole>, p: Preset)
    requires OnePerPlace(t) && Managed(env, p) && p in Sync(env, t, wanted).presets
    ensures (p in t.presets && (Wants(Desired(env, wanted), p.role, p.scope) || Protected(env, wanted, p)))
            || exists want :: want in Desired(env, wanted) && Comes(env, Removed(env, t, wanted).presets, want) && IsFor(env, p, want)
  {
    RemovedPresets(env, t, wanted);
    ApplyAllPresets(env, Removed(env, t, wanted).presets, Removed(env, t, wanted), Desired(env, wanted));
  }

  lemma HeldStays(env: Env, t: Access, desired: seq<Want>, role: RoleId, scope: Option<Id>)
    requires HeldFromPeople(env, t.presets, role, scope)
    ensures HeldFromPeople(env, ApplyAll(env, t.presets, t, desired).presets, role, scope)
  {
    ApplyAllPresets(env, t.presets, t, desired);
    var p :| p in t.presets && Managed(env, p) && p.role == role && p.scope == scope;
    assert p in ApplyAll(env, t.presets, t, desired).presets;
  }

  lemma WantedComes(env: Env, t: Access, wanted: seq<ManagedRole>, want: Want)
    requires OnePerPlace(t) && want in Desired(env, wanted)
    requires !HeldByHand(env, t.presets, want.role, want.scope) && RefusalOf(env, want).None?
    ensures HeldFromPeople(env, Sync(env, t, wanted).presets, want.role, want.scope)
  {
    var removed := Removed(env, t, wanted);
    HandUnchanged(env, t, wanted, want.role, want.scope);
    if HeldFromPeople(env, removed.presets, want.role, want.scope) {
      HeldStays(env, removed, Desired(env, wanted), want.role, want.scope);
    } else {
      ComerArrives(env, removed.presets, removed, Desired(env, wanted), want);
    }
  }

  /** Afterwards People's presets are those it had and still names or may not judge, and the named ones that can be applied. */
  lemma ManagedAfter(env: Env, t: Access, wanted: seq<ManagedRole>, role: RoleId, scope: Option<Id>)
    requires OnePerPlace(t)
    ensures HeldFromPeople(env, Sync(env, t, wanted).presets, role, scope) <==>
            || (exists p :: p in t.presets && Managed(env, p) && p.role == role && p.scope == scope
                            && (Wants(Desired(env, wanted), role, scope) || Protected(env, wanted, p)))
            || (Wants(Desired(env, wanted), role, scope) && !HeldByHand(env, t.presets, role, scope)
                && ResolveRefusal(env.roles, env.units, env.org, role, scope, None, env.now).None?)
  {
    var after, desired := Sync(env, t, wanted), Desired(env, wanted);
    if HeldFromPeople(env, after.presets, role, scope) {
      var p :| p in after.presets && Managed(env, p) && p.role == role && p.scope == scope;
      ManagedAfterwards(env, t, wanted, p);
      HandUnchanged(env, t, wanted, role, scope);
    }
    if p :| p in t.presets && Managed(env, p) && p.role == role && p.scope == scope
            && (Wants(desired, role, scope) || Protected(env, wanted, p)) {
      SparedStays(env, t, wanted, p);
    }
    if want :| want in desired && want.role == role && want.scope == scope
               && !HeldByHand(env, t.presets, role, scope) && RefusalOf(env, want).None? {
      WantedComes(env, t, wanted, want);
    }
  }

  lemma HandUnchanged(env: Env, t: Access, wanted: seq<ManagedRole>, role: RoleId, scope: Option<Id>)
    requires OnePerPlace(t)
    ensures HeldByHand(env, Removed(env, t, wanted).presets, role, scope) <==> HeldByHand(env, t.presets, role, scope)
  {
    RemovedPresets(env, t, wanted);
    if HeldByHand(env, t.presets, role, scope) {
      var p :| p in t.presets && p.user == env.user && p.source.None? && p.role == role && p.scope == scope;
      assert p in Removed(env, t, wanted).presets;
    }
  }

  // ------------------------------------------------------------------ declaring the same again

  lemma {:induction false} NothingComes(env: Env, before: seq<Preset>, t: Access, desired: seq<Want>)
    requires forall want :: want in desired ==> !Comes(env, before, want)
    ensures ApplyAll(env, before, t, desired) == t
  {
    if desired != [] {
      NothingComes(env, before, t, desired[..|desired| - 1]);
      assert !Comes(env, before, desired[|desired| - 1]);
    }
  }

  lemma FirstIsIn(presets: seq<Preset>)
    ensures presets != [] ==> presets[0] in presets
  {
  }

  lemma {:induction false} NewcomerIsWanted(env: Env, before: seq<Preset>, t: Access, desired: seq<Want>, p: Preset)
    requires p in ApplyAll(env, before, t, desired).presets && p !in t.presets
    ensures Wants(desired, p.role, p.scope)
  {
    ApplyAllPresets(env, before, t, desired);
    var want :| want in desired && Comes(env, before, want) && IsFor(env, p, want);
  }

  lemma {:induction false} SurvivorStays(env: Env, t: Access, wanted: seq<ManagedRole>, p: Preset)
    requires OnePerPlace(t) && p in Sync(env, t, wanted).presets
    ensures !Doomed(env, wanted, p)
  {
    var removed := Removed(env, t, wanted);
    RemovedPresets(env, t, wanted);
    if p !in removed.presets {
      NewcomerIsWanted(env, removed.presets, removed, Desired(env, wanted), p);
    }
  }

  lemma {:induction false} NothingGoesTwice(env: Env, t: Access, wanted: seq<ManagedRole>)
    requires OnePerPlace(t)
    ensures DoomedOf(env, wanted, Sync(env, t, wanted).presets) == []
  {
    var presets := Sync(env, t, wanted).presets;
    DoomedAre(env, wanted, presets);
    forall p | p in presets ensures !Doomed(env, wanted, p) {
      SurvivorStays(env, t, wanted, p);
    }
    FirstIsIn(DoomedOf(env, wanted, presets));
  }

  /** The next application's view of a want, when everything new was added for one and this one's came. */
  lemma AlreadyAfter(env: Env, before: seq<Preset>, after: seq<Preset>, desired: seq<Want>, want: Want)
    requires Grew(env, before, before, after, desired)
    requires Comes(env, before, want) ==> exists p :: p in after && IsFor(env, p, want)
    ensures !Comes(env, after, want)
    ensures Already(env, after, want) <==> Already(env, before, want) || Comes(env, before, want)
  {
  }

  lemma {:induction false} AlreadyAfterAll(env: Env, t: Access, desired: seq<Want>, want: Want)
    requires want in desired
    ensures var after := ApplyAll(env, t.presets, t, desired);
            && !Comes(env, after.presets, want)
            && (Already(env, after.presets, want) <==> Already(env, t.presets, want) || Comes(env, t.presets, want))
  {
    ApplyAllPresets(env, t.presets, t, desired);
    if Comes(env, t.presets, want) {
      ComerArrives(env, t.presets, t, desired, want);
    }
    AlreadyAfter(env, t.presets, ApplyAll(env, t.presets, t, desired).presets, desired, want);
  }

  lemma {:induction false} SameRefusals(env: Env, before: seq<Preset>, after: seq<Preset>, desired: seq<Want>)
    requires forall want :: want in desired ==>
               (Already(env, after, want) <==> Already(env, before, want) || Comes(env, before, want))
    ensures Refusals(env, after, desired) == Refusals(env, before, desired)
  {
    if desired != [] {
      SameRefusals(env, before, after, desired[..|desired| - 1]);
      assert desired[|desired| - 1] in desired;
    }
  }

  /** Declaring the same again changes no preset and no permission, and reports the same problems. */
  lemma {:induction false} SecondDeclarationChangesNothing(env: Env, t: Access, wanted: seq<ManagedRole>)
    requires OnePerPlace(t)
    ensures Sync(env, Sync(env, t, wanted), wanted) == Sync(env, t, wanted)
    ensures Problems(env, Sync(env, t, wanted), wanted) == Problems(env, t, wanted)
  {
    var removed, after, desired := Removed(env, t, wanted), Sync(env, t, wanted), Desired(env, wanted);
    NothingGoesTwice(env, t, wanted);
    assert Removed(env, after, wanted) == after;
    forall want | want in desired
      ensures !Comes(env, after.presets, want)
      ensures Already(env, after.presets, want) <==> Already(env, removed.presets, want) || Comes(env, removed.presets, want)
    {
      AlreadyAfterAll(env, removed, desired, want);
    }
    NothingComes(env, after.presets, after, desired);
    SameRefusals(env, removed.presets, after.presets, desired);
  }

  // ------------------------------------------------------------------ permissions and invariants

  lemma {:induction false} ApplyAllRows(env: Env, before: seq<Preset>, t: Access, desired: seq<Want>,
                                        user: UserId, scope: Option<Id>, code: string)
    ensures Holds(ApplyAll(env, before, t, desired).rows, user, scope, code) <==>
            || Holds(t.rows, user, scope, code)
            || (user == env.user && exists want :: want in desired && Comes(env, before, want) && want.scope == scope
                                                   && code in PermissionsOf(env.roles, want.role))
  {
    if desired != [] {
      var init, last := desired[..|desired| - 1], desired[|desired| - 1];
      ApplyAllRows(env, before, t, init, user, scope, code);
      assert desired == init + [last];
      if Comes(env, before, last) {
        ApplyHolds(env, ApplyAll(env, before, t, init), last, user, scope, code);
      }
    }
  }

  lemma ApplyHolds(env: Env, t: Access, want: Want, user: UserId, scope: Option<Id>, code: string)
    ensures Holds(ApplyWant(env, t, want).rows, user, scope, code) <==>
            || Holds(t.rows, user, scope, code)
            || (user == env.user && want.scope == scope && code in PermissionsOf(env.roles, want.role))
  {
    var brought, after := Row(env.user, "", want.scope, false, None, Some(want.role)), ApplyWant(env, t, want);
    NewRowsAre(PermissionsOf(env.roles, want.role), t.rows, brought);
    assert forall row :: row in after.rows <==>
                         row in t.rows || row in NewRows(PermissionsOf(env.roles, want.role), t.rows, brought);
    if user == env.user && want.scope == scope && code in PermissionsOf(env.roles, want.role) && !Holds(t.rows, user, scope, code) {
      assert brought.(code := code) in after.rows;
    }
  }

  /**
   The permissions afterwards: what no removed preset brought, what one brought but a preset the user keeps
   there includes, and what the added presets include. Nothing else is gained or lost, for anyone.
  */
  lemma {:induction false} PermissionsAfter(env: Env, t: Access, wanted: seq<ManagedRole>, user: UserId, scope: Option<Id>, code: string)
    requires OnePerPlace(t)
    ensures var doomed, kept := DoomedOf(env, wanted, t.presets), Removed(env, t, wanted).presets;
            Holds(Sync(env, t, wanted).rows, user, scope, code) <==>
            || (exists row :: row in t.rows && row.user == user && row.scope == scope && row.code == code
                              && (!BroughtByAny(doomed, row) || AnyIncludes(env.roles, kept, user, scope, code)))
            || (user == env.user && exists want :: want in Desired(env, wanted) && Comes(env, kept, want) && want.scope == scope
                                                   && code in PermissionsOf(env.roles, want.role))
  {
    var removed := Removed(env, t, wanted);
    DoomedAre(env, wanted, t.presets);
    RevocationsTakeExactly(env.roles, t, DoomedOf(env, wanted, t.presets), user, scope, code);
    ApplyAllRows(env, removed.presets, removed, Desired(env, wanted), user, scope, code);
  }

  /** Every preset of the employee is a person's or People's own. */
  ghost predicate NoOtherService(env: Env, t: Access) {
    forall p :: p in t.presets && p.user == env.user ==> p.source.None? || p.source == Some(PEOPLE_SOURCE)
  }

  predicate Once(desired: seq<Want>) {
    forall i, j :: 0 <= i < j < |desired| ==> desired[i].role != desired[j].role || desired[i].scope != desired[j].scope
  }

  lemma {:induction false} DesiredOnce(env: Env, wanted: seq<ManagedRole>)
    ensures Once(Desired(env, wanted))
  {
    if wanted != [] {
      DesiredOnce(env, wanted[..|wanted| - 1]);
      var before, desired := Desired(env, wanted[..|wanted| - 1]), Desired(env, wanted);
      assert desired != before ==> |desired| == |before| + 1 && !Wants(before, desired[|before|].role, desired[|before|].scope);
    }
  }

  lemma NotYetApplied(env: Env, before: seq<Preset>, sofar: seq<Preset>, init: seq<Want>, want: Want)
    requires Comes(env, before, want)
    requires forall w :: w in init ==> w.role != want.role || w.scope != want.scope
    requires forall p :: p in before && p.user == env.user ==> p.source.None? || p.source == Some(PEOPLE_SOURCE)
    requires forall p :: p in sofar && p !in before ==> exists w :: w in init && Comes(env, before, w) && IsFor(env, p, w)
    ensures !AlreadyApplied(sofar, env.user, want.role, want.scope)
  {
  }

  lemma {:induction false} ApplyAllKeeps(env: Env, t: Access, desired: seq<Want>)
    requires OnePerPlace(t) && Covered(env.roles, t) && Credited(env.roles, t) && NoOtherService(env, t)
    requires Once(desired)
    ensures var after := ApplyAll(env, t.presets, t, desired);
            OnePerPlace(after) && Covered(env.roles, after) && Credited(env.roles, after) && NoOtherService(env, after)
  {
    if desired != [] {
      var init, last := desired[..|desired| - 1], desired[|desired| - 1];
      ApplyAllKeeps(env, t, init);
      if Comes(env, t.presets, last) {
        var sofar := ApplyAll(env, t.presets, t, init);
        ApplyAllPresets(env, t.presets, t, init);
        assert forall w :: w in init ==> w.role != last.role || w.scope != last.scope;
        NotYetApplied(env, t.presets, sofar.presets, init, last);
        ApplyKeepsAll(env.roles, sofar, env.user, last.role, last.scope, false, None, Some(PEOPLE_SOURCE), Some(last.item.sourceRef));
      }
    }
  }

  /**
   A declaration keeps the tables in order: one preset per role and scope, every permission of every preset held,
   and every credited permission in the name of a preset there that includes it.
  */
  lemma {:induction false} DeclarationKeepsAccess(env: Env, t: Access, wanted: seq<ManagedRole>)
    requires OnePerPlace(t) && Covered(env.roles, t) && Credited(env.roles, t) && NoOtherService(env, t)
    ensures var after := Sync(env, t, wanted);
            OnePerPlace(after) && Covered(env.roles, after) && Credited(env.roles, after) && NoOtherService(env, after)
  {
    DoomedAre(env, wanted, t.presets);
    RevokeAllKeeps(env.roles, t, DoomedOf(env, wanted, t.presets));
    RemovedPresets(env, t, wanted);
    DesiredOnce(env, wanted);
    ApplyAllKeeps(env, Removed(env, t, wanted), Desired(env, wanted));
  }

  // ------------------------------------------------------------------ adopting

  /** Adopting grants and removes nothing, and adopting again changes nothing, whatever post asks. */
  lemma AdoptingOnlyRenames(env: Env, codes: set<string>, ref1: string, ref2: string, p: Preset)
    ensures var adopted := Adopted(env, codes, ref1, p);
            && adopted.(source := p.source, sourceRef := p.sourceRef) == p
            && (Managed(env, p) ==> adopted == p)
            && (Managed(env, adopted) && !Managed(env, p) ==> p.source.None? && adopted.sourceRef == Some(ref1))
            && Adopted(env, codes, ref2, adopted) == adopted
  {
  }

  // ------------------------------------------------------------------ runs

  /** What may happen to one organization's presets; `now` and the units may differ each time. */
  datatype Request =
    | Give(user: UserId, role: RoleId, scope: Option<Id>, selfOnly: bool, validTo: Option<int>)  // by hand
    | TakeBack(preset: Preset)  // by hand
    | Declare(units: Units, org: string, employee: UserId, now: int, wanted: seq<ManagedRole>)
    | Adopt(units: Units, org: string, employee: UserId, now: int, codes: set<string>, sourceRef: string)

  function AdoptAll(env: Env, t: Access, codes: set<string>, sourceRef: string): Access {
    t.(presets := seq(|t.presets|, i requires 0 <= i < |t.presets| => Adopted(env, codes, sourceRef, t.presets[i])))
  }

  /** A role already applied in the scope is refused; what People manages is not taken back by hand. */
  function Serve(roles: seq<Role>, t: Access, request: Request): Access {
    match request
    case Give(user, role, scope, selfOnly, validTo) =>
      if AlreadyApplied(t.presets, user, role, scope) then t
      else Apply(roles, t, user, role, scope, selfOnly, validTo, None, None)
    case TakeBack(preset) =>
      if preset in t.presets && preset.source != Some(PEOPLE_SOURCE) then Revoke(roles, t, preset) else t
    case Declare(units, org, employee, now, wanted) => Sync(Env(roles, units, org, employee, now), t, wanted)
    case Adopt(units, org, employee, now, codes, sourceRef) => AdoptAll(Env(roles, units, org, employee, now), t, codes, sourceRef)
  }

  function ServeAll(roles: seq<Role>, requests: seq<Request>): Access {
    if requests == [] then Access([], [], 0)
    else Serve(roles, ServeAll(roles, requests[..|requests| - 1]), requests[|requests| - 1])
  }

  ghost predicate Inv(roles: seq<Role>, t: Access) {
    && OnePerPlace(t) && Covered(roles, t) && Credited(roles, t)
    && forall p :: p in t.presets ==> p.source.None? || p.source == Some(PEOPLE_SOURCE)
  }

  lemma AdoptedFrom(env: Env, t: Access, codes: set<string>, sourceRef: string, p: Preset) returns (q: Preset)
    requires p in AdoptAll(env, t, codes, sourceRef).presets
    ensures q in t.presets && p == Adopted(env, codes, sourceRef, q)
  {
    var after := AdoptAll(env, t, codes, sourceRef);
    var i :| 0 <= i < |after.presets| && after.presets[i] == p;
    q := t.presets[i];
  }

  lemma AdoptKeepsInv(env: Env, t: Access, codes: set<string>, sourceRef: string)
    requires Inv(env.roles, t)
    ensures Inv(env.roles, AdoptAll(env, t, codes, sourceRef))
  {
    var after := AdoptAll(env, t, codes, sourceRef);
    forall p, q | p in after.presets && q in after.presets && (p.id == q.id || SamePlace(p, q)) ensures p == q {
      var was := AdoptedFrom(env, t, codes, sourceRef, p);
      var was' := AdoptedFrom(env, t, codes, sourceRef, q);
      assert was == was';
    }
    forall p | p in after.presets ensures p.id < t.nextId && (p.source.None? || p.source == Some(PEOPLE_SOURCE)) {
      var was := AdoptedFrom(env, t, codes, sourceRef, p);
    }
    forall p, code | p in after.presets && code in PermissionsOf(env.roles, p.role) ensures Holds(t.rows, p.user, p.scope, code) {
      var was := AdoptedFrom(env, t, codes, sourceRef, p);
    }
    AdoptKeepsCredited(env, t, codes, sourceRef);
  }

  lemma AdoptKeepsCredited(env: Env, t: Access, codes: set<string>, sourceRef: string)
    requires Credited(env.roles, t)
    ensures Credited(env.roles, AdoptAll(env, t, codes, sourceRef))
  {
    var after := AdoptAll(env, t, codes, sourceRef);
    forall row | row in after.rows && row.credit.Some?
      ensures exists p :: p in after.presets && p.role == row.credit.value && Includes(env.roles, p, row.user, row.scope, row.code)
    {
      var q :| q in t.presets && q.role == row.credit.value && Includes(env.roles, q, row.user, row.scope, row.code);
      var i :| 0 <= i < |t.presets| && t.presets[i] == q;
      assert Includes(env.roles, after.presets[i], row.user, row.scope, row.code);
    }
  }

  lemma ServeKeepsInv(roles: seq<Role>, t: Access, request: Request)
    requires Inv(roles, t)
    ensures Inv(roles, Serve(roles, t, request))
  {
    match request
    case Give(user, role, scope, selfOnly, validTo) =>
      if !AlreadyApplied(t.presets, user, role, scope) {
        ApplyKeepsAll(roles, t, user, role, scope, selfOnly, validTo, None, None);
      }
    case TakeBack(p) =>
      if p in t.presets && p.source != Some(PEOPLE_SOURCE) {
        RevokeKeepsDistinct(roles, t, p);
        RevokeKeepsCovered(roles, t, p);
        RevokeKeepsCredited(roles, t, p);
        WithoutPresetIs(t.presets, p.id);
      }
    case Declare(units, org, employee, now, wanted) =>
      var env := Env(roles, units, org, employee, now);
      DeclarationKeepsAccess(env, t, wanted);
      RemovedPresets(env, t, wanted);
      ApplyAllPresets(env, Removed(env, t, wanted).presets, Removed(env, t, wanted), Desired(env, wanted));
    case Adopt(units, org, employee, now, codes, sourceRef) =>
      AdoptKeepsInv(Env(roles, units, org, employee, now), t, codes, sourceRef);
  }

  /**
   Whatever people and People do, no revocation ever takes a permission that a preset the user still has in that
   scope includes, and no row is left in the name of a role the user no longer has there.
  */
  lemma {:induction false} PresetsStayCovered(roles: seq<Role>, requests: seq<Request>)
    ensures Inv(roles, ServeAll(roles, requests))
  {
    if requests != [] {
      PresetsStayCovered(roles, requests[..|requests| - 1]);
      ServeKeepsInv(roles, ServeAll(roles, requests[..|requests| - 1]), requests[|requests| - 1]);
    }
  }
}
