/**
 The in-memory sliding window rate limiter (services/rate_limiter.py).

 Times are whole microseconds, the resolution of the source's timestamps. `CheckKey` is one call
 for one key; the class keeps the history of every key and is proved against it.
*/
module RateLimiter {
  import opened Windows

  /** `Fault` is the IndexError the source raises when a limit below one refuses an empty history. */
  datatype Verdict = Accepted | Refused(retryAfter: int) | Fault

  /** The first `n` timestamps without those at or before `start`. */
  function After(timestamps: seq<int>, start: int, n: nat := |timestamps|): (kept: seq<int>)
    requires n <= |timestamps|
    ensures |kept| <= n && forall i :: 0 <= i < |kept| ==> kept[i] > start
  {
    if n == 0 then []
    else
      var before := After(timestamps, start, n - 1);
      if timestamps[n - 1] > start then before + [timestamps[n - 1]] else before
  }

  function Max(a: int, b: int): int {
    if a >= b then a else b
  }

  /** Whole seconds to announce when `first` is the oldest request still in the window. */
  function RetryAfter(first: int, now: int, span: int): int
    requires first > now - span
  {
    Max((span - (now - first)) / 1_000_000, 1)
  }

  function CheckKey(timestamps: seq<int>, now: int, maxRequests: int, span: int): (Verdict, seq<int>) {
    var valid := After(timestamps, now - span);
    if |valid| < maxRequests then (Accepted, valid + [now])
    else if valid == [] then (Fault, valid)
    else (Refused(RetryAfter(valid[0], now, span)), valid)
  }

  class SlidingWindowRateLimiter {
    var history: map<string, seq<int>>
    var limits: map<string, (int, int)>

    constructor ()
      ensures history == map[]
      ensures limits == map["auth" := (60, 60), "standard" := (300, 60), "invitation" := (5, 3600)]
    {
      history := map[];
      limits := map["auth" := (60, 60), "standard" := (300, 60), "invitation" := (5, 3600)];
    }

    function LimitOf(rateClass: string): (int, int)
      reads this
    {
      if rateClass in limits then limits[rateClass] else (100, 60)
    }

    function HistoryOf(key: string): seq<int>
      reads this
    {
      if key in history then history[key] else []
    }

    method Check(key: string, rateClass: string, now: int) returns (verdict: Verdict)
      modifies this`history
      ensures var (max, seconds) := LimitOf(rateClass);
              (verdict, HistoryOf(key)) == CheckKey(old(HistoryOf(key)), now, max, seconds * 1_000_000)
      ensures key in history && history == old(history)[key := history[key]]
    {
      var (maxRequests, windowSeconds) := LimitOf(rateClass);
      var span := windowSeconds * 1_000_000;
      var valid := After(HistoryOf(key), now - span);
      history := history[key := valid];
      if |valid| >= maxRequests {
        if valid == [] {
          return Fault;
        }
        var remaining := (span - (now - valid[0])) / 1_000_000;
        return Refused(Max(remaining, 1));
      }
      history := history[key := history[key] + [now]];
      return Accepted;
    }

    method SetLimit(rateClass: string, maxRequests: int, windowSeconds: int)
      modifies this`limits
      ensures limits == old(limits)[rateClass := (maxRequests, windowSeconds)]
    {
      limits := limits[rateClass := (maxRequests, windowSeconds)];
    }

    method Reset()
      modifies this`history
      ensures history == map[]
    {
      history := map[];
    }
  }

  /** One key under one fixed limit: what is kept, and (history only) every request ever accepted. */
  datatype KeyRun = KeyRun(timestamps: seq<int>, accepted: seq<int>)

  function Serve(run: KeyRun, now: int, maxRequests: int, span: int): KeyRun {
    var (verdict, timestamps) := CheckKey(run.timestamps, now, maxRequests, span);
    KeyRun(timestamps, if verdict == Accepted then run.accepted + [now] else run.accepted)
  }

  function ServeAll(times: seq<int>, maxRequests: int, span: int): KeyRun {
    if times == [] then KeyRun([], [])
    else Serve(ServeAll(times[..|times| - 1], maxRequests, span), times[|times| - 1], maxRequests, span)
  }

  /** What is kept is the tail of what was accepted; the part already dropped is at or before `cutoff`. */
  ghost predicate KeepsTail(log: seq<int>, kept: seq<int>, cutoff: int) {
    && |kept| <= |log|
    && (forall i :: 0 <= i < |kept| ==> kept[i] == log[|log| - |kept| + i])
    && (forall i :: 0 <= i < |log| - |kept| ==> log[i] <= cutoff)
  }

  ghost predicate Faithful(run: KeyRun, latest: int, maxRequests: nat, span: int) {
    && NonDecreasing(run.accepted)
    && (run.accepted != [] ==> run.accepted[|run.accepted| - 1] <= latest)
    && |run.timestamps| <= maxRequests
    && KeepsTail(run.accepted, run.timestamps, latest - span)
    && Spaced(run.accepted, maxRequests, span)
  }

  /** Pruning a non-decreasing list drops a prefix of it. */
  lemma {:induction false} AfterIsTail(timestamps: seq<int>, start: int, n: nat)
    requires n <= |timestamps| && NonDecreasing(timestamps)
    ensures KeepsTail(timestamps[..n], After(timestamps, start, n), start)
  {
    if n > 0 {
      AfterIsTail(timestamps, start, n - 1);
    }
  }

  lemma {:induction false} PruneKeepsTail(log: seq<int>, kept: seq<int>, cutoff: int, newCutoff: int)
    requires NonDecreasing(log) && KeepsTail(log, kept, cutoff) && cutoff <= newCutoff
    ensures KeepsTail(log, After(kept, newCutoff), newCutoff)
  {
    var first := |log| - |kept|;
    AfterIsTail(kept, newCutoff, |kept|);
    assert kept[..|kept|] == kept;
    forall i | 0 <= i < |log| - |After(kept, newCutoff)| ensures log[i] <= newCutoff {
      if i >= first {
        assert log[i] == kept[i - first];
      }
    }
  }

  lemma {:induction false} AllAfter(timestamps: seq<int>, start: int, n: nat)
    requires n <= |timestamps| && forall i :: 0 <= i < |timestamps| ==> timestamps[i] > start
    ensures After(timestamps, start, n) == timestamps[..n]
  {
    if n > 0 {
      AllAfter(timestamps, start, n - 1);
    }
  }

  lemma {:induction false} AfterDropsFirst(timestamps: seq<int>, start: int, n: nat)
    requires 1 <= n <= |timestamps| && timestamps[0] <= start
    ensures |After(timestamps, start, n)| < n
  {
    if n > 1 {
      AfterDropsFirst(timestamps, start, n - 1);
    }
  }

  lemma {:induction false} ServeKeepsFaithful(run: KeyRun, latest: int, now: int, maxRequests: nat, span: int)
    requires maxRequests >= 1 && latest <= now
    requires Faithful(run, latest, maxRequests, span)
    ensures Faithful(Serve(run, now, maxRequests, span), now, maxRequests, span)
  {
    var valid := After(run.timestamps, now - span);
    PruneKeepsTail(run.accepted, run.timestamps, latest - span, now - span);
    if |valid| < maxRequests {
      AcceptKeepsFaithful(run.accepted, valid, now, maxRequests, span);
    } else {
      RefuseKeepsFaithful(run, valid, latest, now, maxRequests, span);
    }
  }

  lemma RefuseKeepsFaithful(run: KeyRun, valid: seq<int>, latest: int, now: int, maxRequests: nat, span: int)
    requires Faithful(run, latest, maxRequests, span) && latest <= now
    requires KeepsTail(run.accepted, valid, now - span) && |valid| <= |run.timestamps|
    ensures Faithful(KeyRun(valid, run.accepted), now, maxRequests, span)
  {
  }

  lemma {:induction false} AcceptKeepsFaithful(log: seq<int>, valid: seq<int>, now: int, maxRequests: nat, span: int)
    requires NonDecreasing(log) && Spaced(log, maxRequests, span) && (log != [] ==> log[|log| - 1] <= now)
    requires KeepsTail(log, valid, now - span) && |valid| < maxRequests
    ensures Faithful(KeyRun(valid + [now], log + [now]), now, maxRequests, span)
  {
  }

  lemma {:induction false} RunIsFaithful(times: seq<int>, latest: int, maxRequests: nat, span: int)
    requires maxRequests >= 1 && NonDecreasing(times + [latest])
    ensures Faithful(ServeAll(times, maxRequests, span), latest, maxRequests, span)
  {
    if times != [] {
      var last := |times| - 1;
      var extended := times + [latest];
      assert times[..last] + [times[last]] == extended[..last + 1];
      assert extended[last] <= extended[last + 1];
      RunIsFaithful(times[..last], times[last], maxRequests, span);
      ServeKeepsFaithful(ServeAll(times[..last], maxRequests, span), times[last], times[last], maxRequests, span);
    }
  }

  /** No half-open window of the run ever holds more accepted requests than the limit. */
  lemma {:induction false} WindowNeverOverfull(times: seq<int>, maxRequests: nat, span: int)
    requires maxRequests >= 1 && NonDecreasing(times)
    ensures WindowsBounded(ServeAll(times, maxRequests, span).accepted, maxRequests, span)
  {
    var latest := if times == [] then 0 else times[|times| - 1];
    RunIsFaithful(times, latest, maxRequests, span);
    SpacedIffWindowsBounded(ServeAll(times, maxRequests, span).accepted, maxRequests, span);
  }

  /** What a check at `now` finds in the window is the tail of everything accepted before it. */
  lemma {:induction false} WindowIsTail(times: seq<int>, now: int, maxRequests: nat, span: int)
    requires maxRequests >= 1 && NonDecreasing(times + [now])
    ensures var run := ServeAll(times, maxRequests, span);
            && |run.timestamps| <= maxRequests
            && NonDecreasing(run.accepted) && (run.accepted != [] ==> run.accepted[|run.accepted| - 1] <= now)
            && KeepsTail(run.accepted, After(run.timestamps, now - span), now - span)
  {
    var run := ServeAll(times, maxRequests, span);
    RunIsFaithful(times, now, maxRequests, span);
    PruneKeepsTail(run.accepted, run.timestamps, now - span, now - span);
  }

  /** A request is refused exactly when the window that ends at it already holds the whole limit. */
  lemma {:induction false} RefusedExactlyWhenFull(times: seq<int>, now: int, maxRequests: nat, span: nat)
    requires maxRequests >= 1 && NonDecreasing(times + [now])
    ensures var run := ServeAll(times, maxRequests, span);
            var (verdict, _) := CheckKey(run.timestamps, now, maxRequests, span);
            var inWindow := CountIn(run.accepted, now - span + 1, span);
            && (verdict.Refused? <==> inWindow == maxRequests)
            && (verdict.Accepted? <==> inWindow < maxRequests)
  {
    var run := ServeAll(times, maxRequests, span);
    WindowIsTail(times, now, maxRequests, span);
    TailCounts(run.accepted, After(run.timestamps, now - span), now, span);
  }

  lemma {:induction false} TailCounts(log: seq<int>, kept: seq<int>, now: int, span: nat)
    requires NonDecreasing(log) && KeepsTail(log, kept, now - span) && (log != [] ==> log[|log| - 1] <= now)
    requires forall i :: 0 <= i < |kept| ==> kept[i] > now - span
    ensures CountIn(log, now - span + 1, span) == |kept|
  {
    var first := |log| - |kept|;
    CountFromFirst(log, now - span + 1, span, first);
    if kept != [] {
      assert kept[0] == log[first];
      CountAtLeast(log, now - span + 1, span, first, |log|);
    }
  }

  /**
   Waiting exactly the announced seconds is enough precisely when what remains is whole seconds or
   at most one; otherwise the truncation announces too little. Either way the announcement lies
   between 1 and the window.
  */
  lemma {:induction false} RetryAfterSuffices(times: seq<int>, now: int, maxRequests: nat, span: nat)
    requires maxRequests >= 1 && NonDecreasing(times + [now])
    requires span % 1_000_000 == 0
    requires CheckKey(ServeAll(times, maxRequests, span).timestamps, now, maxRequests, span).0.Refused?
    ensures var (verdict, kept) := CheckKey(ServeAll(times, maxRequests, span).timestamps, now, maxRequests, span);
            && kept != []
            && 1 <= verdict.retryAfter <= span / 1_000_000
            && var remaining := span - (now - kept[0]);
               (CheckKey(kept, now + verdict.retryAfter * 1_000_000, maxRequests, span).0 == Accepted
                <==> remaining <= 1_000_000 || remaining % 1_000_000 == 0)
  {
    var run := ServeAll(times, maxRequests, span);
    var kept := After(run.timestamps, now - span);
    WindowIsTail(times, now, maxRequests, span);
    TailIsOrdered(run.accepted, kept, now - span, now);
    WaitingAdmits(kept, now, maxRequests, span);
  }

  lemma {:induction false} TailIsOrdered(log: seq<int>, kept: seq<int>, cutoff: int, now: int)
    requires NonDecreasing(log) && KeepsTail(log, kept, cutoff) && (log != [] ==> log[|log| - 1] <= now)
    ensures NonDecreasing(kept) && forall i :: 0 <= i < |kept| ==> kept[i] <= now
  {
  }

  lemma {:induction false} WaitingAdmits(kept: seq<int>, now: int, maxRequests: nat, span: nat)
    requires maxRequests >= 1 && |kept| == maxRequests && NonDecreasing(kept)
    requires now - span < kept[0] <= now && span % 1_000_000 == 0
    ensures var remaining := span - (now - kept[0]);
            var wait := RetryAfter(kept[0], now, span);
            && 1 <= wait <= span / 1_000_000
            && (CheckKey(kept, now + wait * 1_000_000, maxRequests, span).0 == Accepted
                <==> remaining <= 1_000_000 || remaining % 1_000_000 == 0)
  {
    var remaining := span - (now - kept[0]);
    var wait := RetryAfter(kept[0], now, span);
    var cutoff := now + wait * 1_000_000 - span;
    assert remaining <= span;
    if kept[0] > cutoff {
      AllAfter(kept, cutoff, |kept|);
      assert kept[..|kept|] == kept;
    }
    if kept[0] <= cutoff {
      AfterDropsFirst(kept, cutoff, |kept|);
    }
  }
}
