/** What revoking presets takes with it, one at a time and many in a row, and when it undoes applying one. */
module RevocationSafety {
  import opened Common
  import opened Paths
  import opened RolePresets

  predicate SamePlace(p: Preset, q: Preset) {
    p.user == q.user && p.role == q.role && p.scope == q.scope
  }

  /** At most one preset per user, role and scope, each with its own id, all older than the next. */
  ghost predicate OnePerPlace(t: Access) {
    && (forall p, q :: p in t.presets && q in t.presets && (p.id == q.id || SamePlace(p, q)) ==> p == q)
    && forall p :: p in t.presets ==> p.id < t.nextId
  }

  /** No other preset has its id or its user, role and scope. */
  ghost predicate Alone(presets: seq<Preset>, a: Preset) {
    forall q :: q in presets && (q.id == a.id || SamePlace(q, a)) ==> q == a
  }

  // ------------------------------------------------------------------ membership in the tables

  lemma {:induction false} StillGrantedFrom(roles: seq<Role>, presets: seq<Preset>, a: Preset, code: string)
    ensures var still := StillGrantedBy(roles, presets, a, code);
            && (still.Some? <==> exists q :: q in presets && q.id != a.id && Includes(roles, q, a.user, a.scope, code))
            && (still.Some? ==>
                  exists q :: q in presets && q.id != a.id && Includes(roles, q, a.user, a.scope, code) && still == Some(q.role))
  {
    if presets != [] {
      var init, last := presets[..|presets| - 1], presets[|presets| - 1];
      StillGrantedFrom(roles, init, a, code);
      assert forall q :: q in presets <==> q in init || q == last;
    }
  }

  /** Preset `k` is another of the user's in the scope, and its role has the permission. */
  predicate OtherWith(roles: seq<Role>, presets: seq<Preset>, a: Preset, code: string, k: nat) {
    && k < |presets| && presets[k].id != a.id && presets[k].user == a.user && presets[k].scope == a.scope
    && code in PermissionsOf(roles, presets[k].role)
  }

  /** What was brought passes to the first other preset, in the order queried, that has the permission there. */
  lemma {:induction false} PassesToFirst(roles: seq<Role>, presets: seq<Preset>, a: Preset, code: string, role: RoleId)
    ensures StillGrantedBy(roles, presets, a, code) == Some(role) <==>
            exists k: nat :: OtherWith(roles, presets, a, code, k) && presets[k].role == role
                             && forall j: nat :: j < k ==> !OtherWith(roles, presets, a, code, j)
  {
    if presets != [] {
      var init, n := presets[..|presets| - 1], |presets| - 1;
      PassesToFirst(roles, init, a, code, role);
      StillGrantedFrom(roles, init, a, code);
      assert forall k: nat :: k < n ==> (OtherWith(roles, presets, a, code, k) <==> OtherWith(roles, init, a, code, k));
      if StillGrantedBy(roles, init, a, code).Some? {
        var q :| q in init && q.id != a.id && Includes(roles, q, a.user, a.scope, code);
        var k :| 0 <= k < |init| && init[k] == q;
        assert OtherWith(roles, presets, a, code, k);
      } else {
        assert forall k: nat :: k < n ==> init[k] in init;
      }
    }
  }

  lemma {:induction false} WithoutPresetIs(presets: seq<Preset>, id: nat)
    ensures forall p :: p in WithoutPreset(presets, id) <==> p in presets && p.id != id
  {
    if presets != [] {
      WithoutPresetIs(presets[..|presets| - 1], id);
      assert presets == presets[..|presets| - 1] + [presets[|presets| - 1]];
    }
  }

  lemma {:induction false} ReviewAllIs(roles: seq<Role>, presets: seq<Preset>, a: Preset, rows: seq<Row>)
    ensures forall row :: row in ReviewAll(roles, presets, a, rows) <==>
                          exists r :: r in rows && Review(roles, presets, a, r) == Some(row)
  {
    if rows != [] {
      var init, last := rows[..|rows| - 1], rows[|rows| - 1];
      ReviewAllIs(roles, presets, a, init);
      assert forall r :: r in rows <==> r in init || r == last;
    }
  }

  // ------------------------------------------------------------------ one revocation

  /** A brought row survives exactly when a preset the user keeps in that scope includes it, and then in that preset's name. */
  lemma {:induction false} ReviewExactly(roles: seq<Role>, presets: seq<Preset>, a: Preset, row: Row)
    requires Brought(a, row)
    ensures var kept, after := WithoutPreset(presets, a.id), Review(roles, presets, a, row);
            && (after.Some? <==> AnyIncludes(roles, kept, row.user, row.scope, row.code))
            && (after.Some? ==> exists q :: q in kept && Includes(roles, q, row.user, row.scope, row.code)
                                            && after == Some(row.(credit := Some(q.role))))
  {
    StillGrantedFrom(roles, presets, a, row.code);
    WithoutPresetIs(presets, a.id);
    var kept := WithoutPreset(presets, a.id);
    if AnyIncludes(roles, kept, row.user, row.scope, row.code) {
      var q :| q in kept && Includes(roles, q, row.user, row.scope, row.code);
      assert q in presets && q.id != a.id;
    }
  }

  /**
   Revoking a preset takes away exactly the permissions it brought in that scope that no other preset of the
   user there includes.
  */
  lemma RevocationTakesExactly(roles: seq<Role>, t: Access, a: Preset, user: UserId, scope: Option<Id>, code: string)
    ensures var after := Revoke(roles, t, a);
            (exists row :: row in after.rows && row.user == user && row.scope == scope && row.code == code)
            <==>
            exists row :: row in t.rows && row.user == user && row.scope == scope && row.code == code
                          && (user != a.user || scope != a.scope || row.credit != Some(a.role)
                              || exists p :: p in t.presets && p.id != a.id && p.user == user && p.scope == scope
                                             && code in PermissionsOf(roles, p.role))
  {
    var after := Revoke(roles, t, a);
    WithoutPresetIs(t.presets, a.id);
    assert AnyIncludes(roles, after.presets, user, scope, code) <==>
           exists p :: p in t.presets && p.id != a.id && p.user == user && p.scope == scope && code in PermissionsOf(roles, p.role);
    ReviewAllIs(roles, t.presets, a, t.rows);
    if Holds(after.rows, user, scope, code) {
      var row :| row in after.rows && row.user == user && row.scope == scope && row.code == code;
      var r :| r in t.rows && Review(roles, t.presets, a, r) == Some(row);
      if Brought(a, r) {
        ReviewExactly(roles, t.presets, a, r);
      }
    }
    if r :| r in t.rows && r.user == user && r.scope == scope && r.code == code
            && (!Brought(a, r) || AnyIncludes(roles, after.presets, user, scope, code)) {
      if Brought(a, r) {
        ReviewExactly(roles, t.presets, a, r);
      }
      var row := Review(roles, t.presets, a, r).value;
      assert row in after.rows;
    }
  }

  /**
   Every row left is one the preset did not bring, as it was, or one it brought, changed only to name a preset
   the user still has in that scope that includes it; so none names the removed role.
  */
  lemma RowsAfterRevocation(roles: seq<Role>, t: Access, a: Preset, row: Row)
    requires Alone(t.presets, a) && row in Revoke(roles, t, a).rows
    ensures row.user != a.user || row.scope != a.scope || row.credit != Some(a.role)
    ensures row in t.rows
            || exists r, q :: && r in t.rows && r.user == a.user && r.scope == a.scope && r.credit == Some(a.role)
                              && q in t.presets && q.id != a.id && q.user == a.user && q.scope == a.scope
                              && r.code in PermissionsOf(roles, q.role) && row == r.(credit := Some(q.role))
  {
    ReviewAllIs(roles, t.presets, a, t.rows);
    WithoutPresetIs(t.presets, a.id);
    var r :| r in t.rows && Review(roles, t.presets, a, r) == Some(row);
    if Brought(a, r) {
      ReviewExactly(roles, t.presets, a, r);
      var q :| q in WithoutPreset(t.presets, a.id) && Includes(roles, q, r.user, r.scope, r.code)
               && row == r.(credit := Some(q.role));
      assert !SamePlace(q, a);
    }
  }

  function RowsElsewhere(rows: seq<Row>, user: UserId, scope: Option<Id>): seq<Row> {
    if rows == [] then []
    else
      var last := rows[|rows| - 1];
      RowsElsewhere(rows[..|rows| - 1], user, scope) + (if last.user == user && last.scope == scope then [] else [last])
  }

  /** Other users' rows, and the user's in other scopes, are the same rows in the same order. */
  lemma {:induction false} RevocationIsLocal(roles: seq<Role>, presets: seq<Preset>, a: Preset, rows: seq<Row>)
    ensures RowsElsewhere(ReviewAll(roles, presets, a, rows), a.user, a.scope) == RowsElsewhere(rows, a.user, a.scope)
  {
    if rows != [] {
      var init, last := rows[..|rows| - 1], rows[|rows| - 1];
      RevocationIsLocal(roles, presets, a, init);
      var before, r := ReviewAll(roles, presets, a, init), Review(roles, presets, a, last);
      if r.Some? {
        assert (before + [r.value])[..|before|] == before;
      } else {
        assert before + [] == before;
      }
    }
  }

  // ------------------------------------------------------------------ applying, then revoking

  lemma {:induction false} NewRowsAre(codes: seq<string>, rows: seq<Row>, brought: Row)
    ensures forall row :: row in NewRows(codes, rows, brought) <==>
                          && row == brought.(code := row.code) && row.code in codes
                          && !Holds(rows, brought.user, brought.scope, row.code)
  {
    if codes != [] {
      NewRowsAre(codes[..|codes| - 1], rows, brought);
      assert codes == codes[..|codes| - 1] + [codes[|codes| - 1]];
    }
  }

  lemma {:induction false} ReviewAllSplits(roles: seq<Role>, presets: seq<Preset>, a: Preset, rows: seq<Row>, more: seq<Row>)
    ensures ReviewAll(roles, presets, a, rows + more) == ReviewAll(roles, presets, a, rows) + ReviewAll(roles, presets, a, more)
  {
    if more == [] {
      assert rows + more == rows;
    } else {
      ReviewAllSplits(roles, presets, a, rows, more[..|more| - 1]);
      assert (rows + more)[..|rows + more| - 1] == rows + more[..|more| - 1];
    }
  }

  lemma {:induction false} NothingBrought(roles: seq<Role>, presets: seq<Preset>, a: Preset, rows: seq<Row>)
    requires forall row :: row in rows ==> !Brought(a, row)
    ensures ReviewAll(roles, presets, a, rows) == rows
  {
    if rows != [] {
      NothingBrought(roles, presets, a, rows[..|rows| - 1]);
    }
  }

  lemma {:induction false} OthersStay(presets: seq<Preset>, id: nat)
    requires forall p :: p in presets ==> p.id != id
    ensures WithoutPreset(presets, id) == presets
  {
    if presets != [] {
      var init, last := presets[..|presets| - 1], presets[|presets| - 1];
      assert last in presets;
      OthersStay(init, id);
      assert init + [last] == presets;
    }
  }

  /**
   Revoking right after applying restores both tables exactly when no row there was credited to the role before,
   and no permission the role brought is one that another preset there includes and the user had lost.
  */
  lemma RevokeUndoesApplyExactlyWhen(roles: seq<Role>, t: Access, user: UserId, role: RoleId, scope: Option<Id>, selfOnly: bool,
                                     validTo: Option<int>, source: Option<string>, sourceRef: Option<string>)
    requires OnePerPlace(t) && !AlreadyApplied(t.presets, user, role, scope)
    ensures var a := Preset(t.nextId, user, role, scope, source, sourceRef);
            var undone := Revoke(roles, Apply(roles, t, user, role, scope, selfOnly, validTo, source, sourceRef), a);
            && undone.presets == t.presets
            && (undone.rows == t.rows <==>
                  && (forall row :: row in t.rows ==> !Brought(a, row))
                  && forall code :: code in PermissionsOf(roles, role) && AnyIncludes(roles, t.presets, user, scope, code) ==>
                       Holds(t.rows, user, scope, code))
  {
    var a := Preset(t.nextId, user, role, scope, source, sourceRef);
    var applied := Apply(roles, t, user, role, scope, selfOnly, validTo, source, sourceRef);
    var added := NewRows(PermissionsOf(roles, role), t.rows, Row(user, "", scope, selfOnly, validTo, Some(role)));
    AppliedIsLast(t.presets, a);
    NewRowsAre(PermissionsOf(roles, role), t.rows, Row(user, "", scope, selfOnly, validTo, Some(role)));
    ReviewAllSplits(roles, applied.presets, a, t.rows, added);
    UndoneRows(roles, applied, a, t.rows, added);
    BroughtAgainst(PermissionsOf(roles, role), t.rows, Row(user, "", scope, selfOnly, validTo, Some(role)), roles, t.presets);
  }

  lemma AppliedIsLast(presets: seq<Preset>, a: Preset)
    requires forall p :: p in presets ==> p.id != a.id
    ensures WithoutPreset(presets + [a], a.id) == presets
  {
    assert (presets + [a])[..|presets|] == presets;
    OthersStay(presets, a.id);
  }

  lemma BroughtAgainst(codes: seq<string>, rows: seq<Row>, brought: Row, roles: seq<Role>, presets: seq<Preset>)
    ensures (forall row :: row in NewRows(codes, rows, brought) ==> !AnyIncludes(roles, presets, row.user, row.scope, row.code))
            <==>
            forall code :: code in codes && AnyIncludes(roles, presets, brought.user, brought.scope, code) ==>
              Holds(rows, brought.user, brought.scope, code)
  {
    NewRowsAre(codes, rows, brought);
    forall code | code in codes && !Holds(rows, brought.user, brought.scope, code)
      ensures brought.(code := code) in NewRows(codes, rows, brought)
    {
    }
    if forall row :: row in NewRows(codes, rows, brought) ==> !AnyIncludes(roles, presets, row.user, row.scope, row.code) {
      forall code | code in codes && AnyIncludes(roles, presets, brought.user, brought.scope, code)
        ensures Holds(rows, brought.user, brought.scope, code)
      {
        assert brought.(code := code) in NewRows(codes, rows, brought) ==>
                 !AnyIncludes(roles, presets, brought.user, brought.scope, code);
      }
    }
  }

  lemma UndoneRows(roles: seq<Role>, applied: Access, a: Preset, rows: seq<Row>, added: seq<Row>)
    requires forall row :: row in added ==> Brought(a, row)
    requires Alone(applied.presets, a)
    ensures var kept := WithoutPreset(applied.presets, a.id);
            ReviewAll(roles, applied.presets, a, rows) + ReviewAll(roles, applied.presets, a, added) == rows <==>
            && (forall row :: row in rows ==> !Brought(a, row))
            && forall row :: row in added ==> !AnyIncludes(roles, kept, row.user, row.scope, row.code)
  {
    var kept := WithoutPreset(applied.presets, a.id);
    var left, right := ReviewAll(roles, applied.presets, a, rows), ReviewAll(roles, applied.presets, a, added);
    NoneIsBrought(roles, applied, a, rows);
    NoneIsBrought(roles, applied, a, added);
    if forall row :: row in rows ==> !Brought(a, row) {
      NothingBrought(roles, applied.presets, a, rows);
      assert left + right == rows <==> right == [];
      NothingSurvives(roles, applied.presets, a, added);
    } else {
      var row :| row in rows && Brought(a, row);
      assert row !in left + right;
    }
  }

  lemma NoneIsBrought(roles: seq<Role>, t: Access, a: Preset, rows: seq<Row>)
    requires Alone(t.presets, a)
    ensures forall row :: row in ReviewAll(roles, t.presets, a, rows) ==> !Brought(a, row)
  {
    ReviewAllIs(roles, t.presets, a, rows);
    WithoutPresetIs(t.presets, a.id);
    forall row | row in ReviewAll(roles, t.presets, a, rows) ensures !Brought(a, row) {
      var r :| r in rows && Review(roles, t.presets, a, r) == Some(row);
      if Brought(a, r) {
        ReviewExactly(roles, t.presets, a, r);
        var q :| q in WithoutPreset(t.presets, a.id) && Includes(roles, q, r.user, r.scope, r.code)
                 && row == r.(credit := Some(q.role));
        assert !SamePlace(q, a);
      }
    }
  }

  lemma NothingSurvives(roles: seq<Role>, presets: seq<Preset>, a: Preset, added: seq<Row>)
    requires forall row :: row in added ==> Brought(a, row)
    ensures ReviewAll(roles, presets, a, added) == [] <==>
            forall row :: row in added ==> !AnyIncludes(roles, WithoutPreset(presets, a.id), row.user, row.scope, row.code)
  {
    ReviewAllIs(roles, presets, a, added);
    forall row | row in added
      ensures Review(roles, presets, a, row).Some? <==> AnyIncludes(roles, WithoutPreset(presets, a.id), row.user, row.scope, row.code)
    {
      ReviewExactly(roles, presets, a, row);
    }
    var survivors := ReviewAll(roles, presets, a, added);
    if survivors != [] {
      assert survivors[0] in survivors;
    }
  }

  // ------------------------------------------------------------------ what applying and revoking keep

  /** Every permission of every preset is held in its scope. */
  ghost predicate Covered(roles: seq<Role>, t: Access) {
    forall p, code :: p in t.presets && code in PermissionsOf(roles, p.role) ==> Holds(t.rows, p.user, p.scope, code)
  }

  /** Every credited row is in the name of a preset there that includes it. */
  ghost predicate Credited(roles: seq<Role>, t: Access) {
    forall row :: row in t.rows && row.credit.Some? ==>
      exists p :: p in t.presets && p.role == row.credit.value && Includes(roles, p, row.user, row.scope, row.code)
  }

  lemma RevokeKeepsCovered(roles: seq<Role>, t: Access, a: Preset)
    requires Covered(roles, t)
    ensures Covered(roles, Revoke(roles, t, a))
  {
    var after := Revoke(roles, t, a);
    WithoutPresetIs(t.presets, a.id);
    forall p, code | p in after.presets && code in PermissionsOf(roles, p.role) ensures Holds(after.rows, p.user, p.scope, code) {
      assert Holds(t.rows, p.user, p.scope, code);
      assert Includes(roles, p, p.user, p.scope, code);
      RevocationTakesExactly(roles, t, a, p.user, p.scope, code);
    }
  }

  lemma RevokeKeepsCredited(roles: seq<Role>, t: Access, a: Preset)
    requires Alone(t.presets, a) && Credited(roles, t)
    ensures Credited(roles, Revoke(roles, t, a))
  {
    var after := Revoke(roles, t, a);
    WithoutPresetIs(t.presets, a.id);
    forall row | row in after.rows && row.credit.Some?
      ensures exists p :: p in after.presets && p.role == row.credit.value && Includes(roles, p, row.user, row.scope, row.code)
    {
      RowsAfterRevocation(roles, t, a, row);
      if row in t.rows {
        var p :| p in t.presets && p.role == row.credit.value && Includes(roles, p, row.user, row.scope, row.code);
        assert p.id == a.id ==> p == a;
      } else {
        var r, q :| r in t.rows && Brought(a, r) && q in after.presets
                    && Includes(roles, q, r.user, r.scope, r.code) && row == r.(credit := Some(q.role));
        assert Includes(roles, q, row.user, row.scope, row.code);
      }
    }
  }

  lemma RevokeKeepsDistinct(roles: seq<Role>, t: Access, a: Preset)
    requires OnePerPlace(t)
    ensures OnePerPlace(Revoke(roles, t, a))
  {
    WithoutPresetIs(t.presets, a.id);
  }

  lemma ApplyKeepsAll(roles: seq<Role>, t: Access, user: UserId, role: RoleId, scope: Option<Id>, selfOnly: bool,
                      validTo: Option<int>, source: Option<string>, sourceRef: Option<string>)
    requires OnePerPlace(t) && !AlreadyApplied(t.presets, user, role, scope)
    ensures var after := Apply(roles, t, user, role, scope, selfOnly, validTo, source, sourceRef);
            && OnePerPlace(after)
            && (Covered(roles, t) ==> Covered(roles, after))
            && (Credited(roles, t) ==> Credited(roles, after))
  {
    var after := Apply(roles, t, user, role, scope, selfOnly, validTo, source, sourceRef);
    var brought := Row(user, "", scope, selfOnly, validTo, Some(role));
    NewRowsAre(PermissionsOf(roles, role), t.rows, brought);
    var added := after.presets[|t.presets|];
    if Covered(roles, t) {
      forall p, code | p in after.presets && code in PermissionsOf(roles, p.role) ensures Holds(after.rows, p.user, p.scope, code) {
        if Holds(t.rows, p.user, p.scope, code) {
          var row :| row in t.rows && row.user == p.user && row.scope == p.scope && row.code == code;
          assert row in after.rows;
        } else {
          assert p !in t.presets;
          assert brought.(code := code) in after.rows;
        }
      }
    }
    if Credited(roles, t) {
      forall row | row in after.rows && row.credit.Some?
        ensures exists p :: p in after.presets && p.role == row.credit.value && Includes(roles, p, row.user, row.scope, row.code)
      {
        if row in t.rows {
          var p :| p in t.presets && p.role == row.credit.value && Includes(roles, p, row.user, row.scope, row.code);
          assert p in after.presets;
        } else {
          assert Includes(roles, added, row.user, row.scope, row.code);
        }
      }
    }
  }

  // ------------------------------------------------------------------ how much access a preset gives

  /** At least as broad as a grant of this breadth and end: good for others' records unless that is not, and no shorter. */
  predicate AsBroad(row: Row, selfOnly: bool, validTo: Option<int>) {
    && (row.selfOnly ==> selfOnly)
    && (row.validTo.None? || (validTo.Some? && row.validTo.value >= validTo.value))
  }

  predicate StandsAt(row: Row, user: UserId, scope: Option<Id>, code: string) {
    row.user == user && row.scope == scope && row.code == code
  }

  predicate Gives(rows: seq<Row>, user: UserId, scope: Option<Id>, code: string, selfOnly: bool, validTo: Option<int>) {
    exists row :: row in rows && StandsAt(row, user, scope, code) && AsBroad(row, selfOnly, validTo)
  }

  /** The table's unique constraint: one row for each user, permission and scope. */
  ghost predicate OneRowEach(rows: seq<Row>) {
    forall a, b :: a in rows && b in rows && StandsAt(a, b.user, b.scope, b.code) ==> a == b
  }

  /**
   A permission already held in the scope, at whatever breadth and for however long, is left as it is. So applying a
   preset gives each of its permissions in full exactly when no narrower or earlier-ending row stood there.
  */
  lemma {:induction false} AppliedInFullExactlyWhen(roles: seq<Role>, t: Access, user: UserId, role: RoleId, scope: Option<Id>,
                                                    selfOnly: bool, validTo: Option<int>, source: Option<string>,
                                                    sourceRef: Option<string>, code: string)
    requires code in PermissionsOf(roles, role)
    ensures var after := Apply(roles, t, user, role, scope, selfOnly, validTo, source, sourceRef);
            && (Gives(after.rows, user, scope, code, selfOnly, validTo)
                <==> !Holds(t.rows, user, scope, code) || Gives(t.rows, user, scope, code, selfOnly, validTo))
            && (OneRowEach(t.rows) ==>
                  (Gives(after.rows, user, scope, code, selfOnly, validTo)
                   <==> forall row :: row in t.rows && StandsAt(row, user, scope, code) ==> AsBroad(row, selfOnly, validTo)))
  {
    var brought := Row(user, "", scope, selfOnly, validTo, Some(role));
    var after := Apply(roles, t, user, role, scope, selfOnly, validTo, source, sourceRef);
    var added := NewRows(PermissionsOf(roles, role), t.rows, brought);
    NewRowsAre(PermissionsOf(roles, role), t.rows, brought);
    assert forall row :: row in after.rows <==> row in t.rows || row in added;
    if !Holds(t.rows, user, scope, code) {
      assert brought.(code := code) in after.rows && AsBroad(brought.(code := code), selfOnly, validTo);
    } else {
      var held :| held in t.rows && held.user == user && held.scope == scope && held.code == code;
      assert StandsAt(held, user, scope, code);
    }
  }
}
