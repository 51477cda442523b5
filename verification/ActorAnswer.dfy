/**
 What identity tells the other services about a caller (routes/rbac.py, services/unit_members.py): the
 permission codes, those good for own records only, and the units each code is limited to.

 The answer is lossy about the caller's own records; about everyone else's it must lose nothing.
*/
module ActorAnswer {
  import opened Common
  import opened Paths
  import opened OrgTree
  import opened AccessControl

  datatype Answer = Answer(permissions: set<string>, ownRecordsOnly: set<string>, unitScopes: map<string, set<Id>>) {
    /** How a service reads the answer for a record of someone else's kept at a unit, or at none. */
    predicate Allows(code: string, unit: Option<Id>) {
      && code in permissions
      && code !in ownRecordsOnly
      && (code !in unitScopes || (unit.Some? && unit.value in unitScopes[code]))
    }
  }

  function CodesOf(grants: seq<Grant>): set<string> {
    set g | g in grants :: g.permission
  }

  predicate OnlyOwnRecords(grants: seq<Grant>, code: string) {
    forall g :: g in grants && g.permission == code ==> g.selfOnly
  }

  predicate CompanyWide(grants: seq<Grant>, code: string) {
    exists g :: g in grants && g.permission == code && g.scopePath.None? && !g.selfOnly
  }

  /** The unit paths a code is held at, beyond own records. */
  function UnitPaths(grants: seq<Grant>, code: string): set<string> {
    set g | g in grants && g.permission == code && g.scopePath.Some? && !g.selfOnly :: g.scopePath.value
  }

  /** The one query: the organization's units whose path starts with any of the paths. */
  function QueryUnits(units: Units, org: string, paths: set<string>): set<Id> {
    set u: Id | u in units && units[u].org == org && exists path :: path in paths && path <= units[u].path
  }

  /** Its rows, sorted out per path: those whose path starts with it. No paths, no query. */
  function UnitsAtOrBelow(units: Units, org: string, paths: set<string>): map<string, set<Id>> {
    var rows := if paths == {} then {} else QueryUnits(units, org, paths);
    map path | path in paths :: set u: Id | u in rows && u in units && path <= units[u].path
  }

  function UnitsUnderAny(units: Units, org: string, paths: set<string>): set<Id> {
    set path, u: Id | path in paths && u in units && units[u].org == org && path <= units[u].path :: u
  }

  /** A code is limited to units when it is held at some and never company-wide. */
  predicate Limited(grants: seq<Grant>, code: string) {
    !CompanyWide(grants, code) && UnitPaths(grants, code) != {}
  }

  method PathsByCode(grants: seq<Grant>) returns (pathsByCode: map<string, set<string>>)
    ensures forall code :: code in pathsByCode <==> Limited(grants, code)
    ensures forall code :: code in pathsByCode ==> pathsByCode[code] == UnitPaths(grants, code)
  {
    pathsByCode := map[];
    var codes := CodesOf(grants);
    while codes != {}
      invariant codes <= CodesOf(grants)
      invariant forall code :: code in pathsByCode <==> code in CodesOf(grants) - codes && Limited(grants, code)
      invariant forall code :: code in pathsByCode ==> pathsByCode[code] == UnitPaths(grants, code)
      decreases codes
    {
      var code :| code in codes;
      codes := codes - {code};
      if CompanyWide(grants, code) {
        continue;
      }
      var unitPaths := UnitPaths(grants, code);
      if unitPaths != {} {
        pathsByCode := pathsByCode[code := unitPaths];
      }
    }
    forall code | Limited(grants, code) ensures code in CodesOf(grants) {
      var path :| path in UnitPaths(grants, code);
    }
  }

  function CoveredUnder(covered: map<string, set<Id>>, paths: set<string>): set<Id> {
    set path, u: Id | path in paths && path in covered && u in covered[path] :: u
  }

  /** The rows of the one query, filtered again for one of its paths, are the units at or below that path. */
  lemma {:induction false} OneQueryServesEachPath(units: Units, org: string, all: set<string>, path: string)
    requires path in all
    ensures var covered := UnitsAtOrBelow(units, org, all);
            covered.Keys == all && forall u: Id :: u in covered[path] <==> u in units && units[u].org == org && path <= units[u].path
  {
    var covered := UnitsAtOrBelow(units, org, all);
    forall u: Id | u in units && units[u].org == org && path <= units[u].path ensures u in covered[path] {
      assert u in QueryUnits(units, org, all);
    }
  }

  /** So the query for every code's paths together answers each code's as if they were asked for alone. */
  lemma OneQueryServesEachCode(units: Units, org: string, all: set<string>, paths: set<string>)
    requires paths <= all
    ensures CoveredUnder(UnitsAtOrBelow(units, org, all), paths) == UnitsUnderAny(units, org, paths)
  {
    var covered := UnitsAtOrBelow(units, org, all);
    forall path | path in paths
      ensures path in covered
      ensures forall u: Id :: u in covered[path] <==> u in units && units[u].org == org && path <= units[u].path
    {
      OneQueryServesEachPath(units, org, all, path);
    }
    forall u: Id | u in UnitsUnderAny(units, org, paths) ensures u in CoveredUnder(covered, paths) {
      var path :| path in paths && u in units && units[u].org == org && path <= units[u].path;
      assert u in covered[path];
    }
  }

  method UnitScopes(units: Units, actor: Actor) returns (scopes: map<string, set<Id>>)
    ensures forall code :: code in scopes <==> !actor.superuser && Limited(actor.grants, code)
    ensures forall code :: code in scopes ==> scopes[code] == UnitsUnderAny(units, actor.org, UnitPaths(actor.grants, code))
  {
    if actor.superuser {
      return map[];
    }
    var pathsByCode := PathsByCode(actor.grants);
    var all := set code, path | code in pathsByCode && path in pathsByCode[code] :: path;
    var covered := UnitsAtOrBelow(units, actor.org, all);
    scopes := map code | code in pathsByCode :: CoveredUnder(covered, pathsByCode[code]);
    forall code | code in scopes
      ensures scopes[code] == UnitsUnderAny(units, actor.org, UnitPaths(actor.grants, code))
    {
      assert pathsByCode[code] <= all;
      OneQueryServesEachCode(units, actor.org, all, pathsByCode[code]);
    }
  }

  /** Someone else's record at this path is covered by a grant of the code that is not limited to own records. */
  lemma CanForOthers(actor: Actor, code: string, path: Option<string>, other: Option<UserId>)
    requires !actor.superuser && other != Some(actor.user)
    ensures actor.Can(code, path, other) <==>
            CompanyWide(actor.grants, code) || (path.Some? && exists p :: p in UnitPaths(actor.grants, code) && p <= path.value)
  {
    if actor.Can(code, path, other) {
      var g :| g in actor.grants && actor.Holds(g, code) && g.Covers(path, other, actor.user);
      assert g.scopePath.Some? ==> g.scopePath.value in UnitPaths(actor.grants, code);
    }
    if CompanyWide(actor.grants, code) {
      var g :| g in actor.grants && g.permission == code && g.scopePath.None? && !g.selfOnly;
      assert actor.Holds(g, code) && g.Covers(path, other, actor.user);
    }
    if path.Some? && exists p :: p in UnitPaths(actor.grants, code) && p <= path.value {
      var p :| p in UnitPaths(actor.grants, code) && p <= path.value;
      var g :| g in actor.grants && g.permission == code && g.scopePath == Some(p) && !g.selfOnly;
      assert actor.Holds(g, code) && g.Covers(path, other, actor.user);
    }
  }

  /** The answer holds what the grants hold about other people's records. */
  ghost predicate Faithful(units: Units, actor: Actor, answer: Answer) {
    && answer.permissions == CodesOf(actor.grants)
    && (forall code :: code in answer.ownRecordsOnly <==> code in answer.permissions && OnlyOwnRecords(actor.grants, code))
    && (forall code :: code in answer.unitScopes <==> Limited(actor.grants, code))
    && forall code :: code in answer.unitScopes ==>
         answer.unitScopes[code] == UnitsUnderAny(units, actor.org, UnitPaths(actor.grants, code))
  }

  lemma HeldBeyondOwnRecords(actor: Actor, code: string)
    ensures code in CodesOf(actor.grants) && !OnlyOwnRecords(actor.grants, code)
            <==> CompanyWide(actor.grants, code) || UnitPaths(actor.grants, code) != {}
  {
    if code in CodesOf(actor.grants) && !OnlyOwnRecords(actor.grants, code) {
      var g :| g in actor.grants && g.permission == code && !g.selfOnly;
      assert g.scopePath.Some? ==> g.scopePath.value in UnitPaths(actor.grants, code);
    }
    if UnitPaths(actor.grants, code) != {} {
      var p :| p in UnitPaths(actor.grants, code);
    }
  }

  lemma AnswerAtUnit(units: Units, actor: Actor, answer: Answer, code: string, unit: Id, other: Option<UserId>)
    requires !actor.superuser && Faithful(units, actor, answer) && other != Some(actor.user)
    requires unit in units && units[unit].org == actor.org
    ensures actor.Can(code, Some(units[unit].path), other) <==> answer.Allows(code, Some(unit))
  {
    CanForOthers(actor, code, Some(units[unit].path), other);
    HeldBeyondOwnRecords(actor, code);
  }

  lemma AnswerWithoutUnit(units: Units, actor: Actor, answer: Answer, code: string, other: Option<UserId>)
    requires !actor.superuser && Faithful(units, actor, answer) && other != Some(actor.user)
    ensures actor.Can(code, None, other) <==> answer.Allows(code, None)
  {
    CanForOthers(actor, code, None, other);
    HeldBeyondOwnRecords(actor, code);
  }

  /** A grant lets its holder act on something: their own record at its unit. A code not for own records only, on another's. */
  lemma ListedIfUsable(actor: Actor, code: string)
    requires !actor.superuser
    ensures code in CodesOf(actor.grants) <==> exists path, owner :: actor.Can(code, path, owner)
    ensures OnlyOwnRecords(actor.grants, code) <==> forall path, owner :: actor.Can(code, path, owner) ==> owner == Some(actor.user)
  {
    if code in CodesOf(actor.grants) {
      var g :| g in actor.grants && g.permission == code;
      assert actor.Holds(g, code) && g.Covers(g.scopePath, Some(actor.user), actor.user);
      assert actor.Can(code, g.scopePath, Some(actor.user));
    }
    if !OnlyOwnRecords(actor.grants, code) {
      var g :| g in actor.grants && g.permission == code && !g.selfOnly;
      assert actor.Holds(g, code) && g.Covers(g.scopePath, None, actor.user);
      assert actor.Can(code, g.scopePath, None);
    }
  }

  /**
   A code is listed exactly when the actor can use it on something, and as good for own records only exactly when on
   nothing else. The answer loses nothing about other people's records: at every unit of the organization, and for a
   record kept at none, it allows a code exactly when the actor's grants do. A superuser's lists the whole catalog.
  */
  method ResolveActor(units: Units, actor: Actor, catalog: set<string>) returns (answer: Answer)
    ensures actor.superuser ==> answer == Answer(catalog, {}, map[])
    ensures actor.superuser ==> forall code, unit :: answer.Allows(code, unit) <==> code in catalog
    ensures !actor.superuser ==> forall code ::
              && (code in answer.permissions <==> exists path, owner :: actor.Can(code, path, owner))
              && (code in answer.ownRecordsOnly <==>
                    code in answer.permissions && forall path, owner :: actor.Can(code, path, owner) ==> owner == Some(actor.user))
    ensures !actor.superuser ==> forall code, unit, other ::
              unit in units && units[unit].org == actor.org && other != Some(actor.user) ==>
              (actor.Can(code, Some(units[unit].path), other) <==> answer.Allows(code, Some(unit)))
    ensures !actor.superuser ==> forall code, other :: other != Some(actor.user) ==>
              (actor.Can(code, None, other) <==> answer.Allows(code, None))
  {
    var scopes := UnitScopes(units, actor);
    if actor.superuser {
      return Answer(catalog, {}, scopes);
    }
    var permissions := CodesOf(actor.grants);
    var ownRecordsOnly := set code | code in permissions && OnlyOwnRecords(actor.grants, code);
    answer := Answer(permissions, ownRecordsOnly, scopes);
    forall code { ListedIfUsable(actor, code); }
    forall code, unit, other | unit in units && units[unit].org == actor.org && other != Some(actor.user)
      ensures actor.Can(code, Some(units[unit].path), other) <==> answer.Allows(code, Some(unit))
    {
      AnswerAtUnit(units, actor, answer, code, unit, other);
    }
    forall code, other | other != Some(actor.user)
      ensures actor.Can(code, None, other) <==> answer.Allows(code, None)
    {
      AnswerWithoutUnit(units, actor, answer, code, other);
    }
  }
}
