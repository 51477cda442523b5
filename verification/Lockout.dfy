/**
 The failure counter that passwords and MFA codes share (services/auth_service.py).

 Times are whole microseconds. Whether a password or a code is right, and whether the user and
 their client may sign in, are inputs. A request that raises before its commit changes nothing.
*/
module Lockout {
  import opened Common
  import opened Windows

  const MINUTE := 60_000_000

  datatype Policy = Policy(threshold: nat, window: nat, duration: nat, mfaLife: nat)

  /** Five failures, within fifteen minutes, lock for fifteen; an MFA token lives five (config.py). */
  const SHIPPED := Policy(5, 15 * MINUTE, 15 * MINUTE, 5 * MINUTE)

  datatype Credential = Credential(failedAttempts: nat, lockedUntil: Option<int>, lastFailedAt: Option<int>)

  datatype Answer =
    | AccountLocked
    | InvalidCredentials
    | SubscriptionExpired
    | AccountNotActive
    | MfaTokenExpired
    | MfaCodeInvalid
    | MfaRequired
    | SignedIn

  /** What the request finds out about the account beside its counter. */
  datatype Standing = Standing(subscribed: bool, active: bool, mfaOn: bool)

  predicate IsLocked(credential: Credential, now: int) {
    credential.lockedUntil.Some? && credential.lockedUntil.value > now
  }

  /** Count one wrong password or code; the second result tells whether this one locks the account. */
  function NoteFailedAttempt(credential: Credential, now: int, policy: Policy): (Credential, bool) {
    var last := credential.lastFailedAt;
    var failed := if last.None? || now - last.value > policy.window then 1 else credential.failedAttempts + 1;
    var noted := credential.(failedAttempts := failed, lastFailedAt := Some(now));
    if failed < policy.threshold then (noted, false)
    else (noted.(lockedUntil := Some(now + policy.duration)), true)
  }

  /** A lock that has run out is lifted by the next sign-in; the time of the last failure stays. */
  function LiftExpiredLock(credential: Credential): Credential {
    if credential.lockedUntil.None? then credential else credential.(lockedUntil := None, failedAttempts := 0)
  }

  const CLEARED := Credential(0, None, None)

  function Login(credential: Credential, now: int, passwordOk: bool, standing: Standing, policy: Policy): (Credential, Answer) {
    if IsLocked(credential, now) then (credential, AccountLocked)
    else
      var lifted := LiftExpiredLock(credential);
      if !passwordOk then
        var (noted, locks) := NoteFailedAttempt(lifted, now, policy);
        (noted, if locks then AccountLocked else InvalidCredentials)
      else if !standing.subscribed then (credential, SubscriptionExpired)
      else if !standing.active then (lifted, AccountNotActive)
      else (CLEARED, if standing.mfaOn then MfaRequired else SignedIn)
  }

  /** A token signed at `issuedAt` carries its expiry in whole seconds and is refused from then on. */
  predicate TokenLive(issuedAt: int, now: int, policy: Policy) {
    (issuedAt + policy.mfaLife) / 1_000_000 * 1_000_000 > now
  }

  function VerifyMfa(credential: Credential, now: int, issuedAt: int, codeOk: bool, standing: Standing, policy: Policy)
    : (Credential, Answer)
  {
    if !TokenLive(issuedAt, now, policy) then (credential, MfaTokenExpired)
    else if !standing.active then (credential, AccountNotActive)
    else if !standing.subscribed then (credential, SubscriptionExpired)
    else if IsLocked(credential, now) then (credential, AccountLocked)
    else if !codeOk then
      var (noted, locks) := NoteFailedAttempt(credential, now, policy);
      (noted, if locks then AccountLocked else MfaCodeInvalid)
    else (CLEARED, SignedIn)
  }

  /** A new password lifts the lock but keeps the time of the last failure. */
  function ResetPassword(credential: Credential): Credential {
    credential.(failedAttempts := 0, lockedUntil := None)
  }

  /** The stored row. Each method is one request; its fields change where the source commits. */
  class CredentialRow {
    var failedAttempts: nat
    var lockedUntil: Option<int>
    var lastFailedAt: Option<int>
    const policy: Policy

    constructor (policy: Policy)
      ensures this.policy == policy && Value() == CLEARED
    {
      this.policy := policy;
      failedAttempts, lockedUntil, lastFailedAt := 0, None, None;
    }

    function Value(): Credential
      reads this
    {
      Credential(failedAttempts, lockedUntil, lastFailedAt)
    }

    method NoteFailure(now: int) returns (locks: bool)
      modifies this
      ensures (Value(), locks) == NoteFailedAttempt(old(Value()), now, policy)
    {
      if lastFailedAt.None? || now - lastFailedAt.value > policy.window {
        failedAttempts := 1;
      } else {
        failedAttempts := failedAttempts + 1;
      }
      lastFailedAt := Some(now);
      if failedAttempts < policy.threshold {
        return false;
      }
      lockedUntil := Some(now + policy.duration);
      return true;
    }

    method SignIn(now: int, passwordOk: bool, standing: Standing) returns (answer: Answer)
      modifies this
      ensures (Value(), answer) == Login(old(Value()), now, passwordOk, standing, policy)
      ensures old(lockedUntil.Some? && lockedUntil.value > now) ==> answer == AccountLocked && Value() == old(Value())
      ensures answer == SignedIn || answer == MfaRequired
              <==> old(lockedUntil.None? || lockedUntil.value <= now) && passwordOk && standing.subscribed && standing.active
    {
      var storedLock, storedCount := lockedUntil, failedAttempts;
      if lockedUntil.Some? {
        if lockedUntil.value > now {
          return AccountLocked;
        }
        lockedUntil := None;
        failedAttempts := 0;
      }
      if !passwordOk {
        var locks := NoteFailure(now);
        return if locks then AccountLocked else InvalidCredentials;
      }
      if !standing.subscribed {
        lockedUntil, failedAttempts := storedLock, storedCount;  // raised before any commit: rolled back
        return SubscriptionExpired;
      }
      if !standing.active {
        return AccountNotActive;
      }
      failedAttempts, lockedUntil, lastFailedAt := 0, None, None;
      return if standing.mfaOn then MfaRequired else SignedIn;
    }

    method Verify(now: int, issuedAt: int, codeOk: bool, standing: Standing) returns (answer: Answer)
      modifies this
      ensures (Value(), answer) == VerifyMfa(old(Value()), now, issuedAt, codeOk, standing, policy)
      ensures old(lockedUntil.Some? && lockedUntil.value > now) ==> answer != SignedIn && answer != MfaCodeInvalid && Value() == old(Value())
      ensures answer == SignedIn
              <==> old(lockedUntil.None? || lockedUntil.value <= now) && codeOk && standing.subscribed && standing.active
                   && TokenLive(issuedAt, now, policy)
    {
      if !TokenLive(issuedAt, now, policy) {
        return MfaTokenExpired;
      }
      if !standing.active {
        return AccountNotActive;
      }
      if !standing.subscribed {
        return SubscriptionExpired;
      }
      if lockedUntil.Some? && lockedUntil.value > now {
        return AccountLocked;
      }
      if !codeOk {
        var locks := NoteFailure(now);
        return if locks then AccountLocked else MfaCodeInvalid;
      }
      failedAttempts, lockedUntil, lastFailedAt := 0, None, None;
      return SignedIn;
    }

    method NewPassword()
      modifies this
      ensures Value() == ResetPassword(old(Value()))
      ensures failedAttempts == 0 && lockedUntil.None? && lastFailedAt == old(lastFailedAt)
    {
      failedAttempts := 0;
      lockedUntil := None;
    }
  }

  // ------------------------------------------------------------------ what one answer tells

  /**
   One failure starts the count over exactly when there is none on record in the window, and locks, from now, exactly
   when it reaches the threshold.
  */
  lemma FailureExactly(credential: Credential, now: int, policy: Policy)
    ensures var (after, locks) := NoteFailedAttempt(credential, now, policy);
            var inWindow := credential.lastFailedAt.Some? && now - credential.lastFailedAt.value <= policy.window;
            && after.lastFailedAt == Some(now)
            && after.failedAttempts == 1 + (if inWindow then credential.failedAttempts else 0)
            && (locks <==> after.failedAttempts >= policy.threshold)
            && after.lockedUntil == if locks then Some(now + policy.duration) else credential.lockedUntil
  {
  }

  /**
   A sign-in goes through exactly when no lock is in force, the password is right and the account may sign in, and
   then clears the row. Under a lock in force nothing changes and a right password is answered like a wrong one; a
   right password that is refused keeps the row, but for a lock that has run out.
  */
  lemma SignInExactly(credential: Credential, now: int, passwordOk: bool, standing: Standing, policy: Policy)
    ensures var (after, answer) := Login(credential, now, passwordOk, standing, policy);
            var inForce := credential.lockedUntil.Some? && credential.lockedUntil.value > now;
            var lifted := if credential.lockedUntil.None? then credential else Credential(0, None, credential.lastFailedAt);
            && (inForce ==> after == credential && answer == AccountLocked)
            && (answer == MfaRequired <==> !inForce && passwordOk && standing.subscribed && standing.active && standing.mfaOn)
            && (answer == SignedIn <==> !inForce && passwordOk && standing.subscribed && standing.active && !standing.mfaOn)
            && (answer == MfaRequired || answer == SignedIn ==> after == Credential(0, None, None))
            && (answer == SubscriptionExpired <==> !inForce && passwordOk && !standing.subscribed)
            && (answer == SubscriptionExpired ==> after == credential)
            && (answer == AccountNotActive <==> !inForce && passwordOk && standing.subscribed && !standing.active)
            && (answer == AccountNotActive ==> after == lifted)
            && (!inForce && !passwordOk ==>
                  && after == NoteFailedAttempt(lifted, now, policy).0
                  && answer == if after.lockedUntil.Some? then AccountLocked else InvalidCredentials)
  {
  }

  /**
   A code goes through exactly when its token is live, the account may sign in, no lock is in force and it is right,
   and then clears the row. Under a lock in force nothing changes, and a right code is answered like a wrong one.
  */
  lemma VerifyExactly(credential: Credential, now: int, issuedAt: int, codeOk: bool, standing: Standing, policy: Policy)
    ensures var (after, answer) := VerifyMfa(credential, now, issuedAt, codeOk, standing, policy);
            var inForce := credential.lockedUntil.Some? && credential.lockedUntil.value > now;
            var asked := TokenLive(issuedAt, now, policy) && standing.active && standing.subscribed;
            && (inForce ==> after == credential && (after, answer) == VerifyMfa(credential, now, issuedAt, !codeOk, standing, policy))
            && (asked && inForce ==> answer == AccountLocked)
            && (answer == SignedIn <==> asked && !inForce && codeOk)
            && (answer == SignedIn ==> after == Credential(0, None, None))
            && (!asked ==> after == credential)
            && (asked && !inForce && !codeOk ==>
                  var (noted, locks) := NoteFailedAttempt(credential, now, policy);
                  after == noted && answer == if locks then AccountLocked else MfaCodeInvalid)
  {
  }

  datatype Event =
    | LoginAttempt(now: int, passwordOk: bool, standing: Standing)
    | MfaAttempt(now: int, issuedAt: int, codeOk: bool, standing: Standing)
    | PasswordReset(now: int)

  /**
   One account over a run: its row, when the MFA tokens it was handed were signed, and (history
   only) the times of the wrong passwords and codes checked since the counter was last reset.
  */
  datatype Account = Account(credential: Credential, mfaTokens: set<int>, wrong: seq<int>, clock: int)

  const NEW_ACCOUNT := Account(CLEARED, {}, [], 0)

  /** The clock does not go back, and an MFA attempt presents a token the account was handed. */
  predicate Possible(account: Account, event: Event) {
    event.now >= account.clock && (event.MfaAttempt? ==> event.issuedAt in account.mfaTokens)
  }

  /** Whether the request gets as far as checking its code. */
  predicate CodeChecked(account: Account, event: Event, policy: Policy)
    requires event.MfaAttempt?
  {
    && TokenLive(event.issuedAt, event.now, policy) && event.standing.active && event.standing.subscribed
    && !IsLocked(account.credential, event.now)
  }

  function Step(account: Account, event: Event, policy: Policy): Account {
    match event
    case LoginAttempt(now, passwordOk, standing) =>
      var (credential, answer) := Login(account.credential, now, passwordOk, standing, policy);
      var wrong := if !passwordOk && !IsLocked(account.credential, now) then account.wrong + [now]
                   else if answer == MfaRequired || answer == SignedIn then []
                   else account.wrong;
      Account(credential, if answer == MfaRequired then account.mfaTokens + {now} else account.mfaTokens, wrong, now)
    case MfaAttempt(now, issuedAt, codeOk, standing) =>
      var (credential, answer) := VerifyMfa(account.credential, now, issuedAt, codeOk, standing, policy);
      var wrong := if CodeChecked(account, event, policy) && !codeOk then account.wrong + [now]
                   else if answer == SignedIn then []
                   else account.wrong;
      Account(credential, account.mfaTokens, wrong, now)
    case PasswordReset(now) =>
      Account(ResetPassword(account.credential), account.mfaTokens, [], now)
  }

  function Run(account: Account, events: seq<Event>, policy: Policy): Account {
    if events == [] then account
    else Step(Run(account, events[..|events| - 1], policy), events[|events| - 1], policy)
  }

  ghost predicate PossibleRun(account: Account, events: seq<Event>, policy: Policy) {
    events == [] ||
    (var init := events[..|events| - 1];
     PossibleRun(account, init, policy) && Possible(Run(account, init, policy), events[|events| - 1]))
  }

  /** Every reachable account: what the counter and the lock say about the wrong attempts so far. */
  ghost predicate Guarded(account: Account, policy: Policy, span: int) {
    var credential := account.credential;
    var wrong := account.wrong;
    && NonDecreasing(wrong)
    && Spaced(wrong, policy.threshold, span)
    && (wrong != [] ==> credential.lastFailedAt == Some(wrong[|wrong| - 1]))
    && (credential.lastFailedAt.Some? ==> credential.lastFailedAt.value <= account.clock)
    && (forall issued :: issued in account.mfaTokens ==> issued <= account.clock)
    && credential.failedAttempts <= |wrong|
    && match credential.lockedUntil
       case None =>
         // only the counted failures can still share a window with the next one
         && credential.failedAttempts < policy.threshold
         && (forall i :: 0 <= i < |wrong| - credential.failedAttempts ==> wrong[i] + span <= account.clock)
       case Some(until) =>
         // the lock runs from the last failure, which came after every MFA token
         && |wrong| >= policy.threshold && credential.failedAttempts >= policy.threshold >= 1
         && until == wrong[|wrong| - 1] + policy.duration
         && (forall issued :: issued in account.mfaTokens ==> issued <= wrong[|wrong| - 1])
  }

  /**
   The policies for which no window of `span` sees more than `threshold` wrong attempts: the lock lasts it; and,
   unless every failure locks, the counter looks back over it, and an MFA token lives no longer than the lock or no
   longer than the counter looks back. `SHIPPED` with fifteen minutes is one.
  */
  predicate Sound(policy: Policy, span: int) {
    && span <= policy.duration
    && (policy.threshold == 1
        || (span <= policy.window + 1 && (policy.mfaLife <= policy.duration || policy.mfaLife <= policy.window + 1)))
  }

  lemma NotingKeepsGuarded(account: Account, now: int, policy: Policy, span: int)
    requires policy.threshold >= 1 && Sound(policy, span) && Guarded(account, policy, span) && now >= account.clock
    requires account.credential.lockedUntil.None?
    ensures Guarded(Account(NoteFailedAttempt(account.credential, now, policy).0, account.mfaTokens, account.wrong + [now], now), policy, span)
  {
    var wrong, counted := account.wrong, account.credential.failedAttempts;
    if policy.threshold <= |wrong| {
      assert wrong[|wrong| - policy.threshold] + span <= now;
    }
    AppendKeepsSpaced(wrong, policy.threshold, span, now);
  }

  /** A code counted past a lock that has run out locks again: it falls where the counter still looks back. */
  lemma RelockingKeepsGuarded(account: Account, now: int, policy: Policy, span: int)
    requires policy.threshold >= 1 && Sound(policy, span) && Guarded(account, policy, span) && now >= account.clock
    requires account.credential.lockedUntil.Some? && account.credential.lockedUntil.value <= now
    requires NoteFailedAttempt(account.credential, now, policy).1
    ensures Guarded(Account(NoteFailedAttempt(account.credential, now, policy).0, account.mfaTokens, account.wrong + [now], now), policy, span)
  {
    AppendKeepsSpaced(account.wrong, policy.threshold, span, now);
  }

  lemma LiftingKeepsGuarded(account: Account, now: int, policy: Policy, span: int)
    requires policy.threshold >= 1 && Sound(policy, span) && Guarded(account, policy, span) && now >= account.clock
    requires !IsLocked(account.credential, now)
    ensures Guarded(account.(credential := LiftExpiredLock(account.credential), clock := now), policy, span)
  {
  }

  lemma LoginKeepsGuarded(account: Account, event: Event, policy: Policy, span: int)
    requires policy.threshold >= 1 && Sound(policy, span) && Guarded(account, policy, span)
    requires Possible(account, event) && event.LoginAttempt?
    ensures Guarded(Step(account, event, policy), policy, span)
  {
    var now := event.now;
    if IsLocked(account.credential, now) {
      assert Step(account, event, policy) == account.(clock := now);
    } else {
      LiftingKeepsGuarded(account, now, policy, span);
      var lifted := account.(credential := LiftExpiredLock(account.credential), clock := now);
      if !event.passwordOk {
        NotingKeepsGuarded(lifted, now, policy, span);
        assert Step(account, event, policy) ==
          Account(NoteFailedAttempt(lifted.credential, now, policy).0, account.mfaTokens, account.wrong + [now], now);
      } else if !event.standing.subscribed {
        assert Step(account, event, policy) == account.(clock := now);
      } else if !event.standing.active {
        assert Step(account, event, policy) == lifted;
      }
    }
  }

  /**
   What a live token can do past a lock that has run out: nothing when tokens live no longer than locks, as such a
   lock was set after the token was signed; and never more than lock again.
  */
  lemma LiveTokenPastALock(account: Account, event: Event, policy: Policy, span: int)
    requires Sound(policy, span) && Guarded(account, policy, span) && Possible(account, event) && event.MfaAttempt?
    requires TokenLive(event.issuedAt, event.now, policy)
    requires account.credential.lockedUntil.Some? && !IsLocked(account.credential, event.now)
    ensures policy.mfaLife > policy.duration
    ensures NoteFailedAttempt(account.credential, event.now, policy).1
  {
  }

  lemma MfaKeepsGuarded(account: Account, event: Event, policy: Policy, span: int)
    requires policy.threshold >= 1 && Sound(policy, span) && Guarded(account, policy, span)
    requires Possible(account, event) && event.MfaAttempt?
    ensures Guarded(Step(account, event, policy), policy, span)
  {
    var after := Step(account, event, policy);
    if !CodeChecked(account, event, policy) {
      assert after == account.(clock := event.now);
    } else if event.codeOk {
      assert after == Account(CLEARED, account.mfaTokens, [], event.now);
    } else {
      assert after == Account(NoteFailedAttempt(account.credential, event.now, policy).0, account.mfaTokens,
                              account.wrong + [event.now], event.now);
      WrongCodeKeepsGuarded(account, event, policy, span);
    }
  }

  lemma WrongCodeKeepsGuarded(account: Account, event: Event, policy: Policy, span: int)
    requires policy.threshold >= 1 && Sound(policy, span) && Guarded(account, policy, span)
    requires Possible(account, event) && event.MfaAttempt? && CodeChecked(account, event, policy)
    ensures Guarded(Account(NoteFailedAttempt(account.credential, event.now, policy).0, account.mfaTokens,
                            account.wrong + [event.now], event.now), policy, span)
  {
    if account.credential.lockedUntil.None? {
      NotingKeepsGuarded(account, event.now, policy, span);
    } else {
      LiveTokenPastALock(account, event, policy, span);
      RelockingKeepsGuarded(account, event.now, policy, span);
    }
  }

  lemma StepKeepsGuarded(account: Account, event: Event, policy: Policy, span: int)
    requires policy.threshold >= 1 && Sound(policy, span) && Guarded(account, policy, span) && Possible(account, event)
    ensures Guarded(Step(account, event, policy), policy, span)
  {
    match event
    case LoginAttempt(_, _, _) => LoginKeepsGuarded(account, event, policy, span);
    case MfaAttempt(_, _, _, _) => MfaKeepsGuarded(account, event, policy, span);
    case PasswordReset(_) =>
  }

  lemma {:induction false} RunKeepsGuarded(events: seq<Event>, policy: Policy, span: int)
    requires policy.threshold >= 1 && Sound(policy, span) && PossibleRun(NEW_ACCOUNT, events, policy)
    ensures Guarded(Run(NEW_ACCOUNT, events, policy), policy, span)
  {
    if events != [] {
      var init := events[..|events| - 1];
      RunKeepsGuarded(init, policy, span);
      StepKeepsGuarded(Run(NEW_ACCOUNT, init, policy), events[|events| - 1], policy, span);
    }
  }

  /**
   In every run, between two resets of the counter, no half-open window of `span` sees more than
   `threshold` wrong passwords and codes checked, both kinds together and across expired locks.
  */
  lemma {:induction false} WrongAttemptsBounded(events: seq<Event>, policy: Policy, span: int)
    requires policy.threshold >= 1 && Sound(policy, span) && PossibleRun(NEW_ACCOUNT, events, policy)
    ensures WindowsBounded(Run(NEW_ACCOUNT, events, policy).wrong, policy.threshold, span)
  {
    RunKeepsGuarded(events, policy, span);
    SpacedIffWindowsBounded(Run(NEW_ACCOUNT, events, policy).wrong, policy.threshold, span);
  }

  /** With the shipped settings: five in any fifteen minutes. */
  lemma {:induction false} FiveInFifteenMinutes(events: seq<Event>, from: int)
    requires PossibleRun(NEW_ACCOUNT, events, SHIPPED)
    ensures CountIn(Run(NEW_ACCOUNT, events, SHIPPED).wrong, from, 15 * MINUTE) <= 5
  {
    WrongAttemptsBounded(events, SHIPPED, 15 * MINUTE);
  }

  /** The counter never runs ahead of the wrong attempts, and a lock needs `threshold` of them: whatever the policy. */
  ghost predicate Earned(account: Account, policy: Policy) {
    && account.credential.failedAttempts <= |account.wrong|
    && (account.credential.lockedUntil.Some? ==> |account.wrong| >= policy.threshold)
  }

  /** A lock is set only by at least `threshold` wrong attempts since the last reset. */
  lemma {:induction false} LockNeedsThreshold(events: seq<Event>, policy: Policy)
    ensures Earned(Run(NEW_ACCOUNT, events, policy), policy)
  {
    if events != [] {
      var init := events[..|events| - 1];
      LockNeedsThreshold(init, policy);
      EarnedStep(Run(NEW_ACCOUNT, init, policy), events[|events| - 1], policy);
    }
  }

  lemma EarnedStep(account: Account, event: Event, policy: Policy)
    requires Earned(account, policy)
    ensures Earned(Step(account, event, policy), policy)
  {
  }

  /**
   A lock ends when its time is up or the password is reset, and not before: until then no sign-in and no code, right
   or wrong, changes the row, hands out an MFA token or is counted.
  */
  lemma {:induction false} LockLasts(account: Account, events: seq<Event>, policy: Policy)
    requires account.credential.lockedUntil.Some?
    requires forall e :: e in events ==> !e.PasswordReset? && e.now < account.credential.lockedUntil.value
    ensures var after := Run(account, events, policy);
            after.credential == account.credential && after.mfaTokens == account.mfaTokens && after.wrong == account.wrong
  {
    if events != [] {
      var init, last := events[..|events| - 1], events[|events| - 1];
      assert last in events;
      LockLasts(account, init, policy);
    }
  }
}
