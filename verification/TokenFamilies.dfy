/**
 Refresh-token families: rotation and reuse detection (section 5.2.2.3 of RFC 6819).

 A sign-in starts a family; each refresh revokes the presented token and issues the next one of
 the family. `UserStore` is the users' machine (auth_service.py, session_service.py), `PlatformStore`
 the platform super-admin's stricter one (platform_auth_service.py). Each request is one
 transaction; a request that raises before its commit changes nothing.
*/
module TokenFamilies {
  import opened Common

  type TokenId = string
  type FamilyId = string
  type UserId = string

  datatype Token = Token(user: UserId, family: FamilyId, issuedAt: int, revokedAt: Option<int>)

  type Tokens = map<TokenId, Token>

  predicate Live(tokens: Tokens, id: TokenId) {
    id in tokens && tokens[id].revokedAt.None?
  }

  /** The auth checks' question: does the family still have an unrevoked token? */
  ghost predicate SessionLive(tokens: Tokens, family: FamilyId) {
    exists id :: Live(tokens, id) && tokens[id].family == family
  }

  ghost predicate Started(tokens: Tokens, family: FamilyId) {
    exists id :: id in tokens && tokens[id].family == family
  }

  /** UPDATE ... SET revoked_at = now WHERE <family or user condition> AND revoked_at IS NULL. */
  function RevokeFamily(tokens: Tokens, family: FamilyId, now: int): Tokens {
    map id | id in tokens ::
      if tokens[id].family == family && tokens[id].revokedAt.None? then tokens[id].(revokedAt := Some(now)) else tokens[id]
  }

  function RevokeUser(tokens: Tokens, user: UserId, keep: Option<FamilyId>, now: int): Tokens {
    map id | id in tokens ::
      if tokens[id].user == user && Some(tokens[id].family) != keep && tokens[id].revokedAt.None?
      then tokens[id].(revokedAt := Some(now)) else tokens[id]
  }

  /** One session of a user: a session id of another user matches nothing. */
  function RevokeSession(tokens: Tokens, user: UserId, family: FamilyId, now: int): Tokens {
    map id | id in tokens ::
      if tokens[id].user == user && tokens[id].family == family && tokens[id].revokedAt.None?
      then tokens[id].(revokedAt := Some(now)) else tokens[id]
  }

  function Issue(tokens: Tokens, id: TokenId, user: UserId, family: FamilyId, now: int): Tokens {
    tokens[id := Token(user, family, now, None)]
  }

  function Rotate(tokens: Tokens, presented: TokenId, renewed: TokenId, now: int): Tokens
    requires presented in tokens
  {
    var token := tokens[presented];
    Issue(tokens[presented := token.(revokedAt := Some(now))], renewed, token.user, token.family, now)
  }

  /** Was the token rotated, as far as the table shows: another token of the family, not older? */
  predicate HasSuccessor(tokens: Tokens, id: TokenId)
    requires id in tokens
  {
    exists other :: other in tokens && other != id && tokens[other].family == tokens[id].family
                    && tokens[other].issuedAt >= tokens[id].issuedAt
  }

  datatype Answer = Invalid | Reused | NotUsable | Rotated

  const SECOND := 1_000_000
  const DAY := 86_400 * SECOND

  /** How long a refresh token lives (config.py): thirty days. */
  const SHIPPED_LIFE := 30 * DAY

  /**
   The token itself says, in whole seconds, when it was issued and when it expires; outside that time it is
   refused before the table is read.
  */
  predicate Current(issuedAt: int, life: int, now: int) {
    issuedAt / 1_000_000 * 1_000_000 <= now < (issuedAt + life) / 1_000_000 * 1_000_000
  }

  /** The presented token is one of the table's, and current. */
  predicate Accepted(tokens: Tokens, presented: TokenId, life: int, now: int) {
    presented in tokens && Current(tokens[presented].issuedAt, life, now)
  }

  /** `usable` is whether the account behind the token exists, is active and its client's service runs. */
  function Refresh(life: int, tokens: Tokens, presented: TokenId, renewed: TokenId, usable: bool, now: int): (Tokens, Answer) {
    if !Accepted(tokens, presented, life, now) then (tokens, Invalid)
    else
      var token := tokens[presented];
      if token.revokedAt.Some? && !HasSuccessor(tokens, presented) then (tokens, Invalid)
      else if token.revokedAt.Some? then (RevokeFamily(tokens, token.family, now), Reused)
      else if !usable then (tokens, NotUsable)
      else (Rotate(tokens, presented, renewed, now), Rotated)
  }

  function PlatformRefresh(life: int, tokens: Tokens, presented: TokenId, renewed: TokenId, usable: bool, now: int): (Tokens, Answer) {
    if !Accepted(tokens, presented, life, now) then (tokens, Invalid)
    else
      var token := tokens[presented];
      if token.revokedAt.Some? then (RevokeFamily(tokens, token.family, now), Reused)
      else if !usable then (RevokeFamily(tokens, token.family, now), Invalid)
      else (Rotate(tokens, presented, renewed, now), Rotated)
  }

  /** The same rows, some of the live ones revoked at `now`. */
  ghost predicate RevokedNow(before: Tokens, after: Tokens, now: int) {
    && after.Keys == before.Keys
    && forall id :: id in before ==>
         after[id] == before[id] || (before[id].revokedAt.None? && after[id] == before[id].(revokedAt := Some(now)))
  }

  /** The refresh_tokens table, changed one request at a time. */
  class UserStore {
    var tokens: Tokens
    const life: int

    constructor (life: int)
      ensures this.life == life && tokens == map[]
    {
      this.life := life;
      tokens := map[];
    }

    method SignIn(id: TokenId, user: UserId, family: FamilyId, now: int)
      modifies this
      ensures tokens == Issue(old(tokens), id, user, family, now)
    {
      tokens := tokens[id := Token(user, family, now, None)];
    }

    method RefreshSession(presented: TokenId, renewed: TokenId, usable: bool, now: int) returns (answer: Answer)
      modifies this
      ensures (tokens, answer) == Refresh(life, old(tokens), presented, renewed, usable, now)
    {
      if presented !in tokens || !Current(tokens[presented].issuedAt, life, now) {
        return Invalid;
      }
      var record := tokens[presented];
      if record.revokedAt.Some? && !HasSuccessor(tokens, presented) {
        return Invalid;
      }
      if record.revokedAt.Some? {
        tokens := RevokeFamily(tokens, record.family, now);
        return Reused;
      }
      var stored := tokens;
      tokens := tokens[presented := record.(revokedAt := Some(now))];
      if !usable {
        tokens := stored;  // raised before the commit: rolled back
        return NotUsable;
      }
      tokens := tokens[renewed := Token(record.user, record.family, now, None)];
      return Rotated;
    }

    method Logout(family: Option<FamilyId>, now: int)
      modifies this
      ensures tokens == if family.None? then old(tokens) else RevokeFamily(old(tokens), family.value, now)
      ensures forall id :: Live(tokens, id) <==> Live(old(tokens), id) && Some(old(tokens)[id].family) != family
      ensures RevokedNow(old(tokens), tokens, now)
    {
      if family.None? {
        return;
      }
      tokens := RevokeFamily(tokens, family.value, now);
    }

    /** False when the user has no such live session; nothing is changed then. */
    method EndSession(user: UserId, family: FamilyId, now: int) returns (found: bool)
      modifies this
      ensures tokens == RevokeSession(old(tokens), user, family, now)
      ensures forall id :: Live(tokens, id) <==>
                Live(old(tokens), id) && (old(tokens)[id].user != user || old(tokens)[id].family != family)
      ensures RevokedNow(old(tokens), tokens, now)
      ensures found <==> exists id :: Live(old(tokens), id) && old(tokens)[id].user == user && old(tokens)[id].family == family
      ensures !found <==> tokens == old(tokens)
    {
      var revoked := RevokeSession(tokens, user, family, now);
      found := exists id :: id in tokens && tokens[id].user == user && tokens[id].family == family && Live(tokens, id);
      if found {
        ghost var id :| id in tokens && tokens[id].user == user && tokens[id].family == family && Live(tokens, id);
        assert revoked[id] != tokens[id];
      } else {
        assert revoked == tokens;
      }
      tokens := revoked;
    }

    /** A password reset, a deactivation (no `keep`) or "sign out my other sessions". */
    method EndSessions(user: UserId, keep: Option<FamilyId>, now: int)
      modifies this
      ensures tokens == RevokeUser(old(tokens), user, keep, now)
      ensures forall id :: Live(tokens, id) <==>
                Live(old(tokens), id) && (old(tokens)[id].user != user || keep == Some(old(tokens)[id].family))
      ensures RevokedNow(old(tokens), tokens, now)
    {
      tokens := RevokeUser(tokens, user, keep, now);
    }
  }

  class PlatformStore {
    var tokens: Tokens
    const life: int

    constructor (life: int)
      ensures this.life == life && tokens == map[]
    {
      this.life := life;
      tokens := map[];
    }

    method RefreshSession(presented: TokenId, renewed: TokenId, usable: bool, now: int) returns (answer: Answer)
      modifies this
      ensures (tokens, answer) == PlatformRefresh(life, old(tokens), presented, renewed, usable, now)
    {
      if presented !in tokens || !Current(tokens[presented].issuedAt, life, now) {
        return Invalid;
      }
      var record := tokens[presented];
      if record.revokedAt.Some? {
        tokens := RevokeFamily(tokens, record.family, now);
        return Reused;
      }
      if !usable {
        tokens := RevokeFamily(tokens, record.family, now);
        return Invalid;
      }
      tokens := tokens[presented := record.(revokedAt := Some(now))];
      tokens := tokens[renewed := Token(record.user, record.family, now, None)];
      return Rotated;
    }
  }

  // ------------------------------------------------------------------ runs

  datatype Event =
    | SignIn(now: int, token: TokenId, user: UserId, newFamily: FamilyId)
    | RefreshAttempt(now: int, presented: TokenId, renewed: TokenId, usable: bool)
    | SignOut(now: int, family: FamilyId)
    | EndOne(now: int, user: UserId, family: FamilyId)
    | EndAll(now: int, user: UserId, keep: Option<FamilyId>)

  /** `rotated` is history only: the tokens a refresh has replaced. */
  datatype Sessions = Sessions(tokens: Tokens, rotated: set<TokenId>, clock: int)

  /** Ids are fresh (random UUIDs) and the clock does not go back. */
  ghost predicate Possible(s: Sessions, event: Event) {
    && event.now >= s.clock
    && (event.SignIn? ==> event.token !in s.tokens && !Started(s.tokens, event.newFamily))
    && (event.RefreshAttempt? ==> event.renewed !in s.tokens)
  }

  /** One of the two machines: `strict` is the platform's, `life` how long its refresh tokens live. */
  datatype Machine = Machine(strict: bool, life: int)

  function RefreshWith(m: Machine, tokens: Tokens, event: Event): (Tokens, Answer)
    requires event.RefreshAttempt?
  {
    if m.strict then PlatformRefresh(m.life, tokens, event.presented, event.renewed, event.usable, event.now)
    else Refresh(m.life, tokens, event.presented, event.renewed, event.usable, event.now)
  }

  function Step(m: Machine, s: Sessions, event: Event): Sessions {
    match event
    case SignIn(now, id, user, family) => s.(tokens := Issue(s.tokens, id, user, family, now), clock := now)
    case RefreshAttempt(now, presented, _, _) =>
      var (tokens, answer) := RefreshWith(m, s.tokens, event);
      Sessions(tokens, if answer == Rotated then s.rotated + {presented} else s.rotated, now)
    case SignOut(now, family) => s.(tokens := RevokeFamily(s.tokens, family, now), clock := now)
    case EndOne(now, user, family) => s.(tokens := RevokeSession(s.tokens, user, family, now), clock := now)
    case EndAll(now, user, keep) => s.(tokens := RevokeUser(s.tokens, user, keep, now), clock := now)
  }

  /** What every reachable table satisfies. */
  ghost predicate Inv(s: Sessions) {
    && (forall a, b :: Live(s.tokens, a) && Live(s.tokens, b) && s.tokens[a].family == s.tokens[b].family ==> a == b)
    && (forall a, b :: Live(s.tokens, a) && b in s.tokens && s.tokens[a].family == s.tokens[b].family
          ==> s.tokens[b].issuedAt <= s.tokens[a].issuedAt && s.tokens[b].user == s.tokens[a].user)
    && (forall id :: id in s.tokens ==> s.tokens[id].issuedAt <= s.clock)
    && (forall id :: id in s.rotated ==> id in s.tokens && !Live(s.tokens, id) && HasSuccessor(s.tokens, id))
  }

  /** The same rows, some of the live ones revoked. */
  ghost predicate OnlyRevokes(before: Tokens, after: Tokens) {
    && before.Keys == after.Keys
    && forall id :: id in before ==>
         after[id].(revokedAt := None) == before[id].(revokedAt := None) && (Live(after, id) ==> Live(before, id))
  }

  lemma SuccessorsPersist(before: Tokens, after: Tokens, ids: set<TokenId>)
    requires before.Keys <= after.Keys
    requires forall id :: id in before ==> after[id].family == before[id].family && after[id].issuedAt == before[id].issuedAt
    requires forall id :: id in ids ==> id in before && HasSuccessor(before, id)
    ensures forall id :: id in ids ==> HasSuccessor(after, id)
  {
  }

  lemma RevokingKeepsInv(s: Sessions, after: Tokens, now: int)
    requires Inv(s) && OnlyRevokes(s.tokens, after) && now >= s.clock
    ensures Inv(s.(tokens := after, clock := now))
  {
    SuccessorsPersist(s.tokens, after, s.rotated);
  }

  /** A token may be issued for a family that has no live one: a new family, or one whose live token was just revoked. */
  lemma IssuingKeepsInv(s: Sessions, id: TokenId, user: UserId, family: FamilyId, now: int)
    requires Inv(s) && id !in s.tokens && now >= s.clock
    requires forall b :: b in s.tokens && s.tokens[b].family == family ==> !Live(s.tokens, b) && s.tokens[b].user == user
    ensures Inv(s.(tokens := Issue(s.tokens, id, user, family, now), clock := now))
  {
    SuccessorsPersist(s.tokens, Issue(s.tokens, id, user, family, now), s.rotated);
  }

  lemma RotatingKeepsInv(s: Sessions, presented: TokenId, renewed: TokenId, now: int)
    requires Inv(s) && Live(s.tokens, presented) && renewed !in s.tokens && now >= s.clock
    ensures Inv(Sessions(Rotate(s.tokens, presented, renewed, now), s.rotated + {presented}, now))
  {
    var token := s.tokens[presented];
    var revoked := s.tokens[presented := token.(revokedAt := Some(now))];
    var after := Rotate(s.tokens, presented, renewed, now);
    assert Inv(s.(tokens := after, clock := now)) by {
      RevokingKeepsInv(s, revoked, now);
      IssuingKeepsInv(s.(tokens := revoked, clock := now), renewed, token.user, token.family, now);
    }
    assert HasSuccessor(after, presented) by {
      assert renewed in after && after[renewed].family == after[presented].family && after[renewed].issuedAt >= after[presented].issuedAt;
    }
  }

  lemma RefreshRotatesOrRevokes(m: Machine, tokens: Tokens, event: Event)
    requires event.RefreshAttempt?
    ensures var (after, answer) := RefreshWith(m, tokens, event);
            if answer == Rotated then Live(tokens, event.presented) && after == Rotate(tokens, event.presented, event.renewed, event.now)
            else OnlyRevokes(tokens, after)
  {
  }

  lemma RefreshKeepsInv(m: Machine, s: Sessions, event: Event)
    requires Inv(s) && Possible(s, event) && event.RefreshAttempt?
    ensures Inv(Step(m, s, event))
  {
    var (tokens, answer) := RefreshWith(m, s.tokens, event);
    RefreshRotatesOrRevokes(m, s.tokens, event);
    if answer == Rotated {
      RotatingKeepsInv(s, event.presented, event.renewed, event.now);
    } else {
      RevokingKeepsInv(s, tokens, event.now);
    }
  }

  lemma StepKeepsInv(m: Machine, s: Sessions, event: Event)
    requires Inv(s) && Possible(s, event)
    ensures Inv(Step(m, s, event))
  {
    match event
    case SignIn(now, id, user, family) => IssuingKeepsInv(s, id, user, family, now);
    case RefreshAttempt(_, _, _, _) => RefreshKeepsInv(m, s, event);
    case SignOut(now, family) => RevokingKeepsInv(s, RevokeFamily(s.tokens, family, now), now);
    case EndOne(now, user, family) => RevokingKeepsInv(s, RevokeSession(s.tokens, user, family, now), now);
    case EndAll(now, user, keep) => RevokingKeepsInv(s, RevokeUser(s.tokens, user, keep, now), now);
  }

  function Run(m: Machine, s: Sessions, events: seq<Event>): Sessions
    decreases |events|
  {
    if events == [] then s else Run(m, Step(m, s, events[0]), events[1..])
  }

  ghost predicate PossibleRun(m: Machine, s: Sessions, events: seq<Event>)
    decreases |events|
  {
    events == [] || (Possible(s, events[0]) && PossibleRun(m, Step(m, s, events[0]), events[1..]))
  }

  const NO_SESSIONS := Sessions(map[], {}, 0)

  lemma {:induction false} RunKeepsInv(m: Machine, s: Sessions, events: seq<Event>)
    requires Inv(s) && PossibleRun(m, s, events)
    ensures Inv(Run(m, s, events))
    decreases |events|
  {
    if events != [] {
      StepKeepsInv(m, s, events[0]);
      RunKeepsInv(m, Step(m, s, events[0]), events[1..]);
    }
  }

  /** In every run of either machine a family has at most one live token, and that token is its latest. */
  lemma {:induction false} AtMostOneLiveToken(m: Machine, events: seq<Event>, a: TokenId, b: TokenId)
    requires PossibleRun(m, NO_SESSIONS, events)
    requires var tokens := Run(m, NO_SESSIONS, events).tokens;
             Live(tokens, a) && b in tokens && tokens[a].family == tokens[b].family
    ensures var tokens := Run(m, NO_SESSIONS, events).tokens;
            (Live(tokens, b) ==> a == b) && tokens[b].issuedAt <= tokens[a].issuedAt && tokens[b].user == tokens[a].user
  {
    RunKeepsInv(m, NO_SESSIONS, events);
  }

  lemma StepKeepsEnded(m: Machine, s: Sessions, event: Event, family: FamilyId)
    requires Possible(s, event) && Started(s.tokens, family) && !SessionLive(s.tokens, family)
    ensures Started(Step(m, s, event).tokens, family) && !SessionLive(Step(m, s, event).tokens, family)
  {
    var id :| id in s.tokens && s.tokens[id].family == family;
    var after := Step(m, s, event).tokens;
    assert id in after && after[id].family == family;
    forall other | Live(after, other) ensures after[other].family != family {
      if other in s.tokens {
        assert !(Live(s.tokens, other) && s.tokens[other].family == family);
      } else if event.RefreshAttempt? {
        assert Live(s.tokens, event.presented);
      }
    }
  }

  /** An ended session stays ended, whatever requests follow. */
  lemma {:induction false} EndedStaysEnded(m: Machine, s: Sessions, events: seq<Event>, family: FamilyId)
    requires PossibleRun(m, s, events) && Started(s.tokens, family) && !SessionLive(s.tokens, family)
    ensures !SessionLive(Run(m, s, events).tokens, family)
    decreases |events|
  {
    if events != [] {
      StepKeepsEnded(m, s, events[0], family);
      EndedStaysEnded(m, Step(m, s, events[0]), events[1..], family);
    }
  }

  lemma RevokedFamilyIsEnded(tokens: Tokens, family: FamilyId, now: int)
    ensures !SessionLive(RevokeFamily(tokens, family, now), family)
    ensures forall other :: other != family ==> (SessionLive(RevokeFamily(tokens, family, now), other) <==> SessionLive(tokens, other))
  {
    var after := RevokeFamily(tokens, family, now);
    forall other | other != family ensures SessionLive(after, other) <==> SessionLive(tokens, other) {
      assert forall id :: id in tokens && tokens[id].family == other ==> after[id] == tokens[id];
      if SessionLive(tokens, other) {
        var id :| Live(tokens, id) && tokens[id].family == other;
        assert Live(after, id);
      }
    }
  }

  /**
   Presenting a token that was rotated away is answered as a replay and leaves its family with no live token, for
   as long as the token is current; from then on it is refused and changes nothing.
  */
  lemma {:induction false} ReplayEndsTheFamily(life: int, events: seq<Event>, presented: TokenId, renewed: TokenId, usable: bool, now: int)
    requires PossibleRun(Machine(false, life), NO_SESSIONS, events)
    requires presented in Run(Machine(false, life), NO_SESSIONS, events).rotated
    ensures var tokens := Run(Machine(false, life), NO_SESSIONS, events).tokens;
            var (after, answer) := Refresh(life, tokens, presented, renewed, usable, now);
            && presented in tokens
            && (Current(tokens[presented].issuedAt, life, now) ==> answer == Reused && !SessionLive(after, tokens[presented].family))
            && (!Current(tokens[presented].issuedAt, life, now) ==> answer == Invalid && after == tokens)
  {
    RunKeepsInv(Machine(false, life), NO_SESSIONS, events);
    var tokens := Run(Machine(false, life), NO_SESSIONS, events).tokens;
    RevokedFamilyIsEnded(tokens, tokens[presented].family, now);
  }

  /**
   For any table and any clock: presenting a revoked token ends its family exactly when the token is current and
   shows a successor, or the family had ended.
  */
  lemma ReplayDetectedExactlyWhen(life: int, tokens: Tokens, presented: TokenId, renewed: TokenId, usable: bool, now: int)
    requires presented in tokens && !Live(tokens, presented)
    ensures var (after, answer) := Refresh(life, tokens, presented, renewed, usable, now);
            var detected := Current(tokens[presented].issuedAt, life, now) && HasSuccessor(tokens, presented);
            && (answer == Reused <==> detected)
            && (!SessionLive(after, tokens[presented].family) <==> detected || !SessionLive(tokens, tokens[presented].family))
  {
  }

  /** A family has one token that no refresh has replaced, live or not, and none of its others was issued later. */
  ghost predicate OneLatest(s: Sessions) {
    && (forall a, b :: Unreplaced(s, a) && Unreplaced(s, b) && s.tokens[a].family == s.tokens[b].family ==> a == b)
    && forall a, b :: Unreplaced(s, a) && b in s.tokens && s.tokens[a].family == s.tokens[b].family ==>
         s.tokens[b].issuedAt <= s.tokens[a].issuedAt
  }

  predicate Unreplaced(s: Sessions, id: TokenId) {
    id in s.tokens && id !in s.rotated
  }

  lemma RevokingKeepsOneLatest(s: Sessions, after: Tokens, now: int)
    requires OneLatest(s) && OnlyRevokes(s.tokens, after)
    ensures OneLatest(s.(tokens := after, clock := now))
  {
    var s' := s.(tokens := after, clock := now);
    assert forall id :: Unreplaced(s', id) <==> Unreplaced(s, id);
    assert forall id :: id in after ==> after[id].family == s.tokens[id].family && after[id].issuedAt == s.tokens[id].issuedAt;
  }

  lemma RotatingKeepsOneLatest(s: Sessions, presented: TokenId, renewed: TokenId, now: int)
    requires OneLatest(s) && Unreplaced(s, presented) && renewed !in s.tokens
    requires forall id :: id in s.tokens ==> s.tokens[id].issuedAt <= now
    ensures OneLatest(Sessions(Rotate(s.tokens, presented, renewed, now), s.rotated + {presented}, now))
  {
    var s' := Sessions(Rotate(s.tokens, presented, renewed, now), s.rotated + {presented}, now);
    forall a | Unreplaced(s', a) && s'.tokens[a].family == s.tokens[presented].family ensures a == renewed {
      if a != renewed {
        assert Unreplaced(s, a);
      }
    }
    assert forall a :: Unreplaced(s', a) && a != renewed ==> Unreplaced(s, a);
  }

  lemma SignInKeepsOneLatest(s: Sessions, id: TokenId, user: UserId, family: FamilyId, now: int)
    requires OneLatest(s) && id !in s.tokens && !Started(s.tokens, family)
    ensures OneLatest(s.(tokens := Issue(s.tokens, id, user, family, now), clock := now))
  {
    var s' := s.(tokens := Issue(s.tokens, id, user, family, now), clock := now);
    assert forall a :: Unreplaced(s', a) && a != id ==> Unreplaced(s, a);
  }

  lemma RefreshKeepsOneLatest(m: Machine, s: Sessions, event: Event)
    requires Inv(s) && OneLatest(s) && Possible(s, event) && event.RefreshAttempt?
    ensures OneLatest(Step(m, s, event))
  {
    var (tokens, answer) := RefreshWith(m, s.tokens, event);
    RefreshRotatesOrRevokes(m, s.tokens, event);
    if answer == Rotated {
      RotatingKeepsOneLatest(s, event.presented, event.renewed, event.now);
    } else {
      RevokingKeepsOneLatest(s, tokens, event.now);
    }
  }

  lemma StepKeepsOneLatest(m: Machine, s: Sessions, event: Event)
    requires Inv(s) && OneLatest(s) && Possible(s, event)
    ensures OneLatest(Step(m, s, event))
  {
    match event
    case SignIn(now, id, user, family) => SignInKeepsOneLatest(s, id, user, family, now);
    case RefreshAttempt(_, _, _, _) => RefreshKeepsOneLatest(m, s, event);
    case SignOut(now, family) => RevokingKeepsOneLatest(s, RevokeFamily(s.tokens, family, now), now);
    case EndOne(now, user, family) => RevokingKeepsOneLatest(s, RevokeSession(s.tokens, user, family, now), now);
    case EndAll(now, user, keep) => RevokingKeepsOneLatest(s, RevokeUser(s.tokens, user, keep, now), now);
  }

  lemma {:induction false} RunKeepsOneLatest(m: Machine, s: Sessions, events: seq<Event>)
    requires Inv(s) && OneLatest(s) && PossibleRun(m, s, events)
    ensures OneLatest(Run(m, s, events))
    decreases |events|
  {
    if events != [] {
      StepKeepsInv(m, s, events[0]);
      StepKeepsOneLatest(m, s, events[0]);
      RunKeepsOneLatest(m, Step(m, s, events[0]), events[1..]);
    }
  }

  /**
   Only a replay is answered as one: where no two tokens of the family were issued at one moment, a current token is
   answered `Reused` exactly when a refresh had replaced it. One whose session was ended is refused without that.
  */
  lemma {:induction false} ReusedMeansReplaced(life: int, events: seq<Event>, presented: TokenId, renewed: TokenId, usable: bool, now: int)
    requires PossibleRun(Machine(false, life), NO_SESSIONS, events)
    requires var tokens := Run(Machine(false, life), NO_SESSIONS, events).tokens;
             && presented in tokens && Current(tokens[presented].issuedAt, life, now)
             && forall id :: id in tokens && id != presented && tokens[id].family == tokens[presented].family ==>
                  tokens[id].issuedAt != tokens[presented].issuedAt
    ensures var s := Run(Machine(false, life), NO_SESSIONS, events);
            var (after, answer) := Refresh(life, s.tokens, presented, renewed, usable, now);
            && (answer == Reused <==> presented in s.rotated)
            && (answer != Reused && answer != Rotated ==> after == s.tokens)
  {
    RunKeepsInv(Machine(false, life), NO_SESSIONS, events);
    RunKeepsOneLatest(Machine(false, life), NO_SESSIONS, events);
    var s := Run(Machine(false, life), NO_SESSIONS, events);
    if presented !in s.rotated {
      assert Unreplaced(s, presented);
    }
  }

  /**
   Which answer a refresh gives, and what it leaves: everything as it was for a token that is not current or was ended,
   and for an account that may not sign in; the family ended for a replay; and for a rotation the presented token
   revoked and a new one of the same user and family issued.
  */
  lemma RefreshExactly(life: int, tokens: Tokens, presented: TokenId, renewed: TokenId, usable: bool, now: int)
    requires renewed !in tokens
    ensures var (after, answer) := Refresh(life, tokens, presented, renewed, usable, now);
            var current := presented in tokens && Current(tokens[presented].issuedAt, life, now);
            && (answer == Rotated <==> current && Live(tokens, presented) && usable)
            && (answer == NotUsable <==> current && Live(tokens, presented) && !usable)
            && (answer == Reused <==> current && !Live(tokens, presented) && HasSuccessor(tokens, presented))
            && (answer == Invalid || answer == NotUsable ==> after == tokens)
            && (answer == Reused ==>
                  && RevokedNow(tokens, after, now)
                  && forall id :: Live(after, id) <==> Live(tokens, id) && tokens[id].family != tokens[presented].family)
            && (answer == Rotated ==>
                  var token := tokens[presented];
                  after == tokens[presented := Token(token.user, token.family, token.issuedAt, Some(now))]
                                 [renewed := Token(token.user, token.family, now, None)])
  {
  }

  /** A clock that goes back between two refreshes hides the successor: the stolen token is refused but the family lives on. */
  lemma ClockGoingBackHidesReplay(life: int, first: TokenId, second: TokenId, third: TokenId, user: UserId, family: FamilyId)
    requires first != second && life >= SECOND
    ensures var signedIn := Issue(map[], first, user, family, 10);
            var (rotated, answer) := Refresh(life, signedIn, first, second, true, 9);
            var (after, replay) := Refresh(life, rotated, first, third, true, 11);
            answer == Rotated && replay == Invalid && SessionLive(after, family)
  {
    var rotated := Refresh(life, Issue(map[], first, user, family, 10), first, second, true, 9).0;
    assert Live(rotated, second) && rotated[second].family == family;
  }

  /** Signed in on day 0 and refreshed on days 20 and 35, each time with the token then current. */
  function ThreeTokens(first: TokenId, second: TokenId, third: TokenId, user: UserId, family: FamilyId): seq<Event> {
    [SignIn(0, first, user, family), RefreshAttempt(20 * DAY, first, second, true), RefreshAttempt(35 * DAY, second, third, true)]
  }

  lemma {:induction false} RunThree(m: Machine, s: Sessions, a: Event, b: Event, c: Event)
    ensures Run(m, s, [a, b, c]) == Step(m, Step(m, Step(m, s, a), b), c)
    ensures PossibleRun(m, s, [a, b, c])
            <==> Possible(s, a) && Possible(Step(m, s, a), b) && Possible(Step(m, Step(m, s, a), b), c)
  {
    var s1 := Step(m, s, a);
    var s2 := Step(m, s1, b);
    assert [a, b, c][1..] == [b, c] && [b, c][1..] == [c] && [c][1..] == [];
    assert Run(m, s2, [c]) == Step(m, s2, c) && (PossibleRun(m, s2, [c]) <==> Possible(s2, c));
    assert Run(m, s1, [b, c]) == Run(m, s2, [c]) && (PossibleRun(m, s1, [b, c]) <==> Possible(s1, b) && Possible(s2, c));
  }

  /**
   On either machine, with the shipped life and a clock that never goes back: presented on day 36, the first token
   has expired, so the replay is only refused and the family lives on.
  */
  lemma {:induction false} ExpiredReplayLeavesTheFamily(strict: bool, first: TokenId, second: TokenId, third: TokenId, fourth: TokenId,
                                                        user: UserId, family: FamilyId, usable: bool)
    requires first != second && first != third && second != third
    ensures var m, events := Machine(strict, SHIPPED_LIFE), ThreeTokens(first, second, third, user, family);
            var s := Run(m, NO_SESSIONS, events);
            var (after, answer) := RefreshWith(m, s.tokens, RefreshAttempt(36 * DAY, first, fourth, usable));
            && PossibleRun(m, NO_SESSIONS, events) && first in s.rotated && first in s.tokens && HasSuccessor(s.tokens, first)
            && answer == Invalid && after == s.tokens && SessionLive(after, family)
  {
    var m, events := Machine(strict, SHIPPED_LIFE), ThreeTokens(first, second, third, user, family);
    RunThree(m, NO_SESSIONS, events[0], events[1], events[2]);
    var s1 := Step(m, NO_SESSIONS, events[0]);
    var s2 := Step(m, s1, events[1]);
    assert s2.tokens == map[first := Token(user, family, 0, Some(20 * DAY)), second := Token(user, family, 20 * DAY, None)];
    var s3 := Step(m, s2, events[2]);
    assert Live(s3.tokens, third) && s3.tokens[third].family == family;
  }

  /**
   The platform revokes the family of any current but revoked token, successor or not, and of an account that may
   not sign in; what is not current it refuses and leaves as it was.
  */
  lemma PlatformRefusalEndsTheFamily(life: int, tokens: Tokens, presented: TokenId, renewed: TokenId, usable: bool, now: int)
    requires presented in tokens
    ensures var (after, answer) := PlatformRefresh(life, tokens, presented, renewed, usable, now);
            var current := Current(tokens[presented].issuedAt, life, now);
            && (answer == Rotated <==> current && Live(tokens, presented) && usable)
            && (!SessionLive(after, tokens[presented].family)
                <==> (current && answer != Rotated) || !SessionLive(tokens, tokens[presented].family))
  {
    var after := PlatformRefresh(life, tokens, presented, renewed, usable, now).0;
    if Accepted(tokens, presented, life, now) && Live(tokens, presented) && usable {
      assert Live(after, renewed) && Live(tokens, presented);
    }
  }

  /** Strictness: what the platform's refresh leaves live, the users' refresh leaves live too; both rotate on the same inputs. */
  lemma PlatformIsStricter(life: int, tokens: Tokens, presented: TokenId, renewed: TokenId, usable: bool, now: int, id: TokenId)
    ensures var (strict, strictAnswer) := PlatformRefresh(life, tokens, presented, renewed, usable, now);
            var (lax, laxAnswer) := Refresh(life, tokens, presented, renewed, usable, now);
            (Live(strict, id) ==> Live(lax, id) && strict[id] == lax[id]) && (strictAnswer == Rotated <==> laxAnswer == Rotated)
  {
  }

  /** A refresh touches no other family, and a successful one replaces exactly the presented token. */
  lemma RefreshIsLocal(m: Machine, s: Sessions, event: Event, id: TokenId)
    requires event.RefreshAttempt? && Possible(s, event) && id in s.tokens
    ensures var (after, answer) := RefreshWith(m, s.tokens, event);
            && id in after
            && (event.presented !in s.tokens || s.tokens[id].family != s.tokens[event.presented].family ==> after[id] == s.tokens[id])
            && (answer == Rotated ==>
                  && after.Keys == s.tokens.Keys + {event.renewed}
                  && Live(after, event.renewed) && after[event.renewed].family == s.tokens[event.presented].family
                  && after[event.renewed].user == s.tokens[event.presented].user
                  && (Live(after, id) <==> Live(s.tokens, id) && id != event.presented))
  {
  }
}
