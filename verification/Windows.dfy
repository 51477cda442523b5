/**
 Counting events in half-open time windows.

 The rate limiter and the account lockout both promise "at most `limit` events in any window
 of `span`". Both proofs keep the index form `Spaced`, which is easy to preserve when one
 more event is appended; `SpacedIffWindowsBounded` says it is the promise itself.
*/
module Windows {
  ghost predicate NonDecreasing(log: seq<int>) {
    forall i, j :: 0 <= i < j < |log| ==> log[i] <= log[j]
  }

  /** Two events with `limit - 1` or more others between them are at least `span` apart. */
  ghost predicate Spaced(log: seq<int>, limit: nat, span: int) {
    forall i, j :: 0 <= i && i + limit <= j < |log| ==> log[j] - log[i] >= span
  }

  /** How many events fall in the half-open window [from, from + span). */
  function CountIn(log: seq<int>, from: int, span: int): nat {
    if log == [] then 0
    else CountIn(log[..|log| - 1], from, span) + (if from <= log[|log| - 1] < from + span then 1 else 0)
  }

  lemma {:induction false} AppendKeepsSpaced(log: seq<int>, limit: nat, span: int, now: int)
    requires NonDecreasing(log) && Spaced(log, limit, span)
    requires 1 <= limit
    requires limit <= |log| ==> now - log[|log| - limit] >= span
    ensures Spaced(log + [now], limit, span)
  {
  }

  /** The promise: no window of `span` holds more than `limit` events. */
  ghost predicate WindowsBounded(log: seq<int>, limit: nat, span: int) {
    forall from :: CountIn(log, from, span) <= limit
  }

  /** The promise and the form the invariants keep are the same statement. */
  lemma {:induction false} SpacedIffWindowsBounded(log: seq<int>, limit: nat, span: int)
    requires NonDecreasing(log)
    ensures Spaced(log, limit, span) <==> WindowsBounded(log, limit, span)
  {
    if Spaced(log, limit, span) {
      forall from ensures CountIn(log, from, span) <= limit {
        SpacedBoundsWindow(log, limit, span, from);
      }
    }
    if WindowsBounded(log, limit, span) {
      BoundedIsSpaced(log, limit, span);
    }
  }

  lemma {:induction false} BoundedIsSpaced(log: seq<int>, limit: nat, span: int)
    requires NonDecreasing(log) && WindowsBounded(log, limit, span)
    ensures Spaced(log, limit, span)
  {
    forall i, j | 0 <= i && i + limit <= j < |log| ensures log[j] - log[i] >= span {
      if log[j] - log[i] < span {
        CountAtLeast(log, log[i], span, i, j + 1);
      }
    }
  }

  lemma {:induction false} SpacedBoundsWindow(log: seq<int>, limit: nat, span: int, from: int)
    requires NonDecreasing(log) && Spaced(log, limit, span)
    ensures CountIn(log, from, span) <= limit
  {
    if log != [] {
      var last := |log| - 1;
      SpacedBoundsWindow(log[..last], limit, span, from);
      var first := FirstAtOrAfter(log, from);
      CountFromFirst(log, from, span, first);
      if first + limit <= last {
        assert log[last] - log[first] >= span;  // so the last event is past the window
      }
    }
  }

  /** The position of the first event at or after `from` (the length of the log when there is none). */
  function FirstAtOrAfter(log: seq<int>, from: int): (first: nat)
    ensures first <= |log|
    ensures forall k :: 0 <= k < first ==> log[k] < from
    ensures first < |log| ==> from <= log[first]
  {
    if log == [] then 0
    else
      var before := FirstAtOrAfter(log[..|log| - 1], from);
      if before < |log| - 1 || from <= log[|log| - 1] then before else |log|
  }

  lemma {:induction false} CountFromFirst(log: seq<int>, from: int, span: int, first: nat)
    requires first <= |log| && forall k :: 0 <= k < first ==> log[k] < from
    ensures CountIn(log, from, span) <= |log| - first
  {
    if log != [] {
      var init := log[..|log| - 1];
      CountFromFirst(init, from, span, if first <= |init| then first else |init|);
    }
  }

  lemma {:induction false} CountAtLeast(log: seq<int>, from: int, span: int, lo: nat, hi: nat)
    requires lo <= hi <= |log| && NonDecreasing(log)
    requires lo < hi ==> from <= log[lo] && log[hi - 1] < from + span
    ensures CountIn(log, from, span) >= hi - lo
  {
    if lo < hi {
      CountAtLeast(log[..|log| - 1], from, span, lo, if hi == |log| then hi - 1 else hi);
    }
  }
}
