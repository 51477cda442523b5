/** The other half: a policy outside `Lockout.Sound` has a run that breaks the bound. */
module LockoutBreaks {
  import opened Common
  import opened Windows
  import opened Lockout

  const USABLE := Standing(true, true, true)

  lemma {:induction false} OneMore(init: seq<Event>, event: Event, policy: Policy)
    requires PossibleRun(NEW_ACCOUNT, init, policy) && Possible(Run(NEW_ACCOUNT, init, policy), event)
    ensures PossibleRun(NEW_ACCOUNT, init + [event], policy)
    ensures Run(NEW_ACCOUNT, init + [event], policy) == Step(Run(NEW_ACCOUNT, init, policy), event, policy)
  {
  }

  function Repeat(now: int, n: nat): seq<int> {
    seq(n, _ => now)
  }

  /** `count` failures on record, the last at `at`; the one that reaches the threshold locks. */
  function Failed(count: nat, at: int, policy: Policy): Credential {
    Credential(count, if count < policy.threshold then None else Some(at + policy.duration), Some(at))
  }

  predicate WrongGuess(account: Account, event: Event, policy: Policy) {
    && Possible(account, event)
    && match event
       case LoginAttempt(_, passwordOk, standing) => !passwordOk
       case MfaAttempt(now, issuedAt, codeOk, standing) => !codeOk && standing == USABLE && TokenLive(issuedAt, now, policy)
       case PasswordReset(_) => false
  }

  lemma GuessIsCounted(account: Account, event: Event, policy: Policy, counted: nat)
    requires WrongGuess(account, event, policy) && policy.threshold >= 1
    requires account.credential.lockedUntil.None? && account.credential.failedAttempts == counted
    requires counted > 0 ==> account.credential.lastFailedAt == Some(event.now)
    ensures Step(account, event, policy)
            == Account(Failed(counted + 1, event.now, policy), account.mfaTokens, account.wrong + [event.now], event.now)
  {
  }

  /** Wrong guesses at one moment, up to the one that locks. */
  lemma {:induction false} Guesses(init: seq<Event>, event: Event, policy: Policy, counted: nat, n: nat) returns (events: seq<Event>)
    requires PossibleRun(NEW_ACCOUNT, init, policy) && WrongGuess(Run(NEW_ACCOUNT, init, policy), event, policy)
    requires 1 <= n && counted + n <= policy.threshold
    requires var account := Run(NEW_ACCOUNT, init, policy);
             && account.credential.lockedUntil.None? && account.credential.failedAttempts == counted
             && (counted > 0 ==> account.credential.lastFailedAt == Some(event.now))
    ensures PossibleRun(NEW_ACCOUNT, events, policy)
    ensures var account := Run(NEW_ACCOUNT, init, policy);
            Run(NEW_ACCOUNT, events, policy)
            == Account(Failed(counted + n, event.now, policy), account.mfaTokens, account.wrong + Repeat(event.now, n), event.now)
    decreases n
  {
    var account := Run(NEW_ACCOUNT, init, policy);
    OneMore(init, event, policy);
    GuessIsCounted(account, event, policy, counted);
    var once := init + [event];
    if n == 1 {
      events := once;
      assert Repeat(event.now, 1) == [event.now];
    } else {
      events := Guesses(once, event, policy, counted + 1, n - 1);
      assert account.wrong + [event.now] + Repeat(event.now, n - 1) == account.wrong + Repeat(event.now, n);
    }
  }

  // ------------------------------------------------------------------ counting them

  lemma {:induction false} RepeatCounts(wrong: seq<int>, now: int, n: nat, from: int, span: int)
    requires from <= now < from + span
    ensures CountIn(wrong + Repeat(now, n), from, span) == CountIn(wrong, from, span) + n
  {
    var all := wrong + Repeat(now, n);
    if n == 0 {
      assert all == wrong;
    } else {
      RepeatCounts(wrong, now, n - 1, from, span);
      assert all[..|all| - 1] == wrong + Repeat(now, n - 1) && all[|all| - 1] == now;
    }
  }

  lemma TwoBursts(t: int, n: nat, u: int, k: nat, from: int, span: int)
    requires from <= t < from + span && from <= u < from + span
    ensures CountIn(Repeat(t, n) + Repeat(u, k), from, span) == n + k
  {
    RepeatCounts([], t, n, from, span);
    assert [] + Repeat(t, n) == Repeat(t, n);
    RepeatCounts(Repeat(t, n), u, k, from, span);
  }

  /** No window of the run sees more wrong attempts than the threshold. */
  ghost predicate StaysWithin(events: seq<Event>, policy: Policy, span: int) {
    PossibleRun(NEW_ACCOUNT, events, policy) ==> WindowsBounded(Run(NEW_ACCOUNT, events, policy).wrong, policy.threshold, span)
  }

  /** A lock shorter than the window: guess again when it has run out. */
  lemma {:induction false} ShortLockBreaks(policy: Policy, span: int) returns (events: seq<Event>)
    requires policy.threshold >= 1 && span > policy.duration
    ensures !StaysWithin(events, policy, span)
  {
    var first, late := LoginAttempt(0, false, USABLE), LoginAttempt(policy.duration, false, USABLE);
    var locked := Guesses([], first, policy, 0, policy.threshold);
    OneMore(locked, late, policy);
    events := locked + [late];
    var wrong := Run(NEW_ACCOUNT, events, policy).wrong;
    assert wrong == Repeat(0, policy.threshold) + Repeat(policy.duration, 1);
    TwoBursts(0, policy.threshold, policy.duration, 1, 0, span);
    assert CountIn(wrong, 0, span) == policy.threshold + 1;
  }

  /** A counter that looks back too little: guess up to the threshold, wait until it starts over. */
  lemma {:induction false} ShortMemoryBreaks(policy: Policy, span: int) returns (events: seq<Event>)
    requires policy.threshold >= 2 && span > policy.window + 1
    ensures !StaysWithin(events, policy, span)
  {
    var again := policy.window + 1;
    var first, late := LoginAttempt(0, false, USABLE), LoginAttempt(again, false, USABLE);
    var almost := Guesses([], first, policy, 0, policy.threshold - 1);
    OneMore(almost, late, policy);
    var over := almost + [late];
    assert Run(NEW_ACCOUNT, over, policy).credential == Failed(1, again, policy);
    events := Guesses(over, late, policy, 1, 1);
    var wrong := Run(NEW_ACCOUNT, events, policy).wrong;
    assert wrong == Repeat(0, policy.threshold - 1) + Repeat(again, 2);
    TwoBursts(0, policy.threshold - 1, again, 2, 0, span);
    assert CountIn(wrong, 0, span) == policy.threshold + 1;
  }

  /** A moment at which signing a token loses nothing to whole seconds: its expiry falls on one. */
  function SignedAt(policy: Policy): nat {
    (1_000_000 - policy.mfaLife % 1_000_000) % 1_000_000
  }

  lemma SignedForItsWholeLife(policy: Policy, now: int)
    requires now < SignedAt(policy) + policy.mfaLife
    ensures TokenLive(SignedAt(policy), now, policy)
  {
    assert (SignedAt(policy) + policy.mfaLife) % 1_000_000 == 0;
  }

  /** Signed in and locked out by wrong codes, with the token still in hand. */
  lemma {:induction false} LockedWithToken(policy: Policy) returns (events: seq<Event>)
    requires policy.threshold >= 2 && policy.mfaLife >= 1
    ensures PossibleRun(NEW_ACCOUNT, events, policy)
    ensures var at := SignedAt(policy);
            Run(NEW_ACCOUNT, events, policy)
            == Account(Failed(policy.threshold, at, policy), {at}, Repeat(at, policy.threshold), at)
  {
    var at := SignedAt(policy);
    var signIn, code := LoginAttempt(at, true, USABLE), MfaAttempt(at, at, false, USABLE);
    OneMore([], signIn, policy);
    var signedIn := [] + [signIn];
    assert Run(NEW_ACCOUNT, signedIn, policy) == Account(CLEARED, {at}, [], at);
    SignedForItsWholeLife(policy, at);
    events := Guesses(signedIn, code, policy, 0, policy.threshold);
    assert [] + Repeat(at, policy.threshold) == Repeat(at, policy.threshold);
  }

  /**
   A token that outlives both the lock and what the counter looks back over: its holder's wrong code is counted as a
   first one past the lock that has run out, and the next sign-in lifts that lock together with the new count.
  */
  lemma {:induction false} LongTokensBreakTheBound(policy: Policy, span: int) returns (events: seq<Event>)
    requires policy.threshold >= 2 && span >= 1
    requires policy.mfaLife > policy.duration && policy.mfaLife > policy.window + 1
    ensures !StaysWithin(events, policy, span)
  {
    var at := SignedAt(policy);
    var late := at + if policy.duration > policy.window then policy.duration else policy.window + 1;
    var locked := LockedWithToken(policy);
    SignedForItsWholeLife(policy, late);
    var lifted := PastTheLock(locked, at, late, policy);
    events := Guesses(lifted, LoginAttempt(late, false, USABLE), policy, 1, policy.threshold - 1);
    LateBurst(Repeat(at, policy.threshold), late, policy.threshold - 1, span);
  }

  lemma LateBurst(early: seq<int>, late: int, n: nat, span: int)
    requires span >= 1
    ensures !WindowsBounded(early + [late] + [late] + Repeat(late, n), n + 1, span)
  {
    RepeatCounts(early, late, n + 2, late, span);
    assert early + [late] + [late] + Repeat(late, n) == early + Repeat(late, n + 2);
    assert CountIn(early + Repeat(late, n + 2), late, span) >= n + 2;
  }

  /** One wrong code past the lock, then one wrong password: two attempts, of which the counter keeps one. */
  lemma {:induction false} PastTheLock(locked: seq<Event>, at: int, late: int, policy: Policy) returns (lifted: seq<Event>)
    requires PossibleRun(NEW_ACCOUNT, locked, policy) && policy.threshold >= 2
    requires Run(NEW_ACCOUNT, locked, policy)
             == Account(Failed(policy.threshold, at, policy), {at}, Repeat(at, policy.threshold), at)
    requires late >= at + policy.duration && late > at + policy.window && TokenLive(at, late, policy)
    ensures PossibleRun(NEW_ACCOUNT, lifted, policy)
    ensures Run(NEW_ACCOUNT, lifted, policy)
            == Account(Failed(1, late, policy), {at}, Repeat(at, policy.threshold) + [late] + [late], late)
  {
    var code, password := MfaAttempt(late, at, false, USABLE), LoginAttempt(late, false, USABLE);
    OneMore(locked, code, policy);
    var past := locked + [code];
    assert Run(NEW_ACCOUNT, past, policy).credential == Credential(1, Some(at + policy.duration), Some(late));
    OneMore(past, password, policy);
    lifted := past + [password];
  }

  /**
   Exactly which policies keep the promise: every run stays within the threshold in every window of `span` if and
   only if the policy is sound for it.
  */
  lemma {:induction false} BoundHoldsExactlyWhen(policy: Policy, span: int)
    requires policy.threshold >= 1 && span >= 1
    ensures (forall events :: StaysWithin(events, policy, span)) <==> Sound(policy, span)
  {
    if Sound(policy, span) {
      forall events ensures StaysWithin(events, policy, span) {
        if PossibleRun(NEW_ACCOUNT, events, policy) {
          WrongAttemptsBounded(events, policy, span);
        }
      }
    } else {
      var events := BreakingRun(policy, span);
    }
  }

  lemma {:induction false} BreakingRun(policy: Policy, span: int) returns (events: seq<Event>)
    requires policy.threshold >= 1 && span >= 1 && !Sound(policy, span)
    ensures !StaysWithin(events, policy, span)
  {
    if span > policy.duration {
      events := ShortLockBreaks(policy, span);
    } else if span > policy.window + 1 {
      events := ShortMemoryBreaks(policy, span);
    } else {
      events := LongTokensBreakTheBound(policy, span);
    }
  }
}
