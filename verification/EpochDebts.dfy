/**
 What a hit shows when bumps fail: the flag that makes a process bump before it reads again, the one
 interleaving that loses it, and when a hit equals the database's current answer.
*/
module EpochDebts {
  import opened Common
  import opened EpochCache

  /** Every failed bump of the process has been made up for by a later increment. */
  predicate Covered(s: State, p: Process)
    requires s.born != []
  {
    forall c :: 0 <= c < |s.writes| && s.writes[c] == Write(p, Failed) ==> c < Seen(s)
  }

  predicate AllBelow(writes: set<nat>, bound: nat) {
    forall c :: c in writes ==> c < bound
  }

  ghost predicate Remembered(s: State, p: Process)
    requires s.born != []
  {
    Covered(s, p) || p in s.owed
  }

  ghost predicate LookupOk(s: State, reader: Reader)
    requires s.born != []
  {
    match reader
    case Owing(_, _, mustShow) => AllBelow(mustShow, |s.writes|)
    case Paid(_, _, mustShow) => AllBelow(mustShow, Seen(s))
    case Ready(_, _, mustShow) => AllBelow(mustShow, Seen(s))
    case _ => true
  }

  /** No debt is forgotten, and a lookup about to read has paid those it knew of. */
  ghost predicate DebtInv(s: State)
    requires s.born != []
  {
    && (forall p :: Remembered(s, p))
    && forall r :: r in s.readers ==> LookupOk(s, s.readers[r])
  }

  /**
   The flag is cleared by a lookup whose increment does not cover every failed bump of its process: one has failed
   since the increment, and nothing has been incremented after that.
  */
  predicate ClearsTooMuch(s: State, e: Event)
    requires s.born != []
  {
    e.PayClear? && e.r in s.readers && s.readers[e.r].Paid? && !Covered(s, s.readers[e.r].p)
  }

  predicate DebtsKept(first: Answers, events: seq<Event>) {
    events == []
    || (DebtsKept(first, events[..|events| - 1]) && !ClearsTooMuch(Run(first, events[..|events| - 1]), events[|events| - 1]))
  }

  // ------------------------------------------------------------------ steps

  /** Same failures, same flags, same or later epoch. */
  ghost predicate Later(s: State, s': State)
    requires s.born != [] && s'.born != []
  {
    && Seen(s) <= Seen(s') && |s.writes| <= |s'.writes| && s'.owed == s.owed
    && forall c :: 0 <= c < |s'.writes| && s'.writes[c].phase.Failed? ==> c < |s.writes| && s.writes[c] == s'.writes[c]
  }

  lemma LaterKeepsDebts(s: State, s': State)
    requires s.born != [] && s'.born != [] && DebtInv(s) && Later(s, s')
    ensures forall p :: Remembered(s', p)
    ensures forall r :: r in s.readers ==> LookupOk(s', s.readers[r])
  {
    forall p ensures Remembered(s', p) && (Covered(s, p) ==> Covered(s', p)) {
      assert Remembered(s, p);
    }
    forall r | r in s.readers ensures LookupOk(s', s.readers[r]) {
      assert LookupOk(s, s.readers[r]);
    }
  }

  lemma ReaderStepKeepsDebts(s: State, e: Event, r: ReaderId)
    requires Inv(s) && DebtInv(s) && r in s.readers && (e.PayClear? ==> e.r == r && !ClearsTooMuch(s, e))
    ensures DebtInv(ReaderStep(s, e, r))
  {
    var reader, s' := s.readers[r], ReaderStep(s, e, r);
    assert LookupOk(s, reader);
    if e.PayClear? && reader.Paid? {
      forall q ensures Remembered(s', q) {
        assert Remembered(s, q);
      }
      forall x | x in s'.readers ensures LookupOk(s', s'.readers[x]) {
        assert x != r ==> LookupOk(s, s.readers[x]);
      }
    } else {
      LaterKeepsDebts(s, s');
    }
  }

  lemma FailKeepsDebts(s: State, c: nat)
    requires Inv(s) && DebtInv(s)
    ensures DebtInv(Next(s, BumpFail(c)))
  {
    var s' := Next(s, BumpFail(c));
    if c < |s.writes| && s.writes[c].phase.Pending? {
      forall q ensures Remembered(s', q) {
        assert Remembered(s, q);
      }
      forall x | x in s'.readers ensures LookupOk(s', s'.readers[x]) {
        assert LookupOk(s, s.readers[x]);
      }
    }
  }

  lemma RestartKeepsDebts(s: State, p: Process, ok: bool)
    requires Inv(s) && DebtInv(s)
    ensures DebtInv(RestartProcess(s, p, ok))
  {
    var s' := RestartProcess(s, p, ok);
    forall q ensures Remembered(s', q) {
      assert Remembered(s, q);
    }
    forall x | x in s'.readers ensures LookupOk(s', s'.readers[x]) {
      assert LookupOk(s, s.readers[x]);
    }
  }

  lemma NextKeepsDebts(s: State, e: Event)
    requires Inv(s) && DebtInv(s) && !ClearsTooMuch(s, e)
    ensures DebtInv(Next(s, e))
  {
    match e
    case Restart(p, ok) => RestartKeepsDebts(s, p, ok);
    case BumpFail(c) => FailKeepsDebts(s, c);
    case Begin(_, p, _, _) =>
      LaterKeepsDebts(s, Next(s, e));
      assert Remembered(s, p);
    case Commit(_, _) => LaterKeepsDebts(s, Next(s, e));
    case BumpOk(_) => LaterKeepsDebts(s, Next(s, e));
    case LateIncrement => LaterKeepsDebts(s, Next(s, e));
    case Expire(_) => LaterKeepsDebts(s, Next(s, e));
    case _ => if e.r in s.readers { ReaderStepKeepsDebts(s, e, e.r); }
  }

  lemma {:induction false} RunDebts(first: Answers, events: seq<Event>)
    requires DebtsKept(first, events)
    ensures DebtInv(Run(first, events))
  {
    if events != [] {
      var init := events[..|events| - 1];
      RunDebts(first, init);
      RunInv(first, init);
      NextKeepsDebts(Run(first, init), events[|events| - 1]);
    }
  }

  /** While debts are kept, a lookup never serves a hit older than a write of its own process whose bump had failed by then. */
  lemma {:induction false} HitShowsOwnFailedWrites(first: Answers, events: seq<Event>, r: ReaderId, write: nat)
    requires DebtsKept(first, events)
    ensures var s := Run(first, events);
            r in s.readers && s.readers[r].Ready? && write in s.readers[r].mustShow && HitOn(s, s.readers[r].key).Some? ==>
              write < HitOn(s, s.readers[r].key).value.version
  {
    var s := Run(first, events);
    RunDebts(first, events);
    if r in s.readers && s.readers[r].Ready? {
      assert LookupOk(s, s.readers[r]);
      HitShowsBumpedWrites(first, events, s.readers[r].key, write);
    }
  }

  /** No bump is pending and none is owed. */
  predicate Quiet(s: State) {
    s.owed == {} && forall c :: 0 <= c < |s.writes| ==> !s.writes[c].phase.Pending?
  }

  /** Then every write was committed before the current epoch began. */
  lemma QuietMeansAllSeen(s: State, c: nat)
    requires s.born != [] && DebtInv(s) && Quiet(s) && c < |s.writes|
    requires s.writes[c].phase.Bumped? ==> c < Seen(s)
    ensures c < Seen(s)
  {
    assert Remembered(s, s.writes[c].writer);
    assert s.writes[c] == Write(s.writes[c].writer, s.writes[c].phase);
  }

  lemma {:induction false} BumpedIsSeen(first: Answers, events: seq<Event>, c: nat)
    ensures var s := Run(first, events); c < |s.writes| && s.writes[c].phase.Bumped? ==> c < Seen(s)
  {
    RunInv(first, events);
  }

  lemma {:induction false} QuietSeesAll(first: Answers, events: seq<Event>)
    requires DebtsKept(first, events) && Quiet(Run(first, events))
    ensures var s := Run(first, events); |s.writes| <= Seen(s)
  {
    var s := Run(first, events);
    RunDebts(first, events);
    if s.writes != [] {
      BumpedIsSeen(first, events, |s.writes| - 1);
      QuietMeansAllSeen(s, |s.writes| - 1);
    }
  }

  lemma SeenAllIsCurrent(s: State, key: Key)
    requires s.born != [] && |s.history| == |s.writes| + 1 && |s.writes| <= Seen(s)
    requires HitOn(s, key).Some? ==> EntryOk(s, key, HitOn(s, key).value)
    ensures HitOn(s, key).Some? ==> s.history[|s.writes|](key) == Some(HitOn(s, key).value.value)
  {
  }

  lemma {:induction false} HitIsOk(first: Answers, events: seq<Event>, key: Key)
    ensures var s := Run(first, events); HitOn(s, key).Some? ==> EntryOk(s, key, HitOn(s, key).value)
  {
    RunInv(first, events);
  }

  /** While debts are kept and no bump is pending or owed, a hit is the database's current answer. */
  lemma {:induction false} QuietHitIsCurrent(first: Answers, events: seq<Event>, key: Key)
    requires DebtsKept(first, events) && Quiet(Run(first, events))
    ensures var s := Run(first, events);
            HitOn(s, key).Some? ==> s.history[|s.writes|](key) == Some(HitOn(s, key).value.value)
  {
    QuietSeesAll(first, events);
    HitIsOk(first, events, key);
    SeenAllIsCurrent(Run(first, events), key);
  }

  // ------------------------------------------------------------------ exactly when debts are kept

  /** One step forgets a process's debt exactly when it clears the flag while some failed bump has had no increment since. */
  lemma DebtLostExactlyWhen(s: State, e: Event, p: Process)
    requires Inv(s) && Remembered(s, p)
    ensures !Remembered(Next(s, e), p) <==> ClearsTooMuch(s, e) && s.readers[e.r].p == p
  {
  }

  ghost predicate AllRemembered(first: Answers, events: seq<Event>) {
    forall p :: Remembered(Run(first, events), p)
  }

  ghost predicate NeverForgotten(first: Answers, events: seq<Event>) {
    forall k :: 0 <= k <= |events| ==> AllRemembered(first, events[..k])
  }

  lemma {:induction false} NeverForgottenSoFar(first: Answers, init: seq<Event>, last: Event)
    ensures NeverForgotten(first, init + [last]) <==> NeverForgotten(first, init) && AllRemembered(first, init + [last])
  {
    var events := init + [last];
    assert forall k :: 0 <= k <= |init| ==> events[..k] == init[..k];
    assert events[..|events|] == events;
  }

  /** The condition on runs is exact: it holds if and only if no process's debt is ever forgotten along the way. */
  lemma {:induction false} DebtsKeptExactlyWhen(first: Answers, events: seq<Event>)
    ensures DebtsKept(first, events) <==> NeverForgotten(first, events)
  {
    if events == [] {
      assert AllRemembered(first, []);
    } else {
      var init, last := events[..|events| - 1], events[|events| - 1];
      DebtsKeptExactlyWhen(first, init);
      NeverForgottenSoFar(first, init, last);
      LastStepKeepsDebts(first, init, last);
      NeverForgottenNow(first, init);
      assert init + [last] == events;
    }
  }

  lemma {:induction false} NeverForgottenNow(first: Answers, events: seq<Event>)
    ensures NeverForgotten(first, events) ==> AllRemembered(first, events)
  {
    assert events[..|events|] == events;
  }

  lemma {:induction false} LastStepKeepsDebts(first: Answers, init: seq<Event>, last: Event)
    ensures AllRemembered(first, init) ==> (AllRemembered(first, init + [last]) <==> !ClearsTooMuch(Run(first, init), last))
  {
    var s := Run(first, init);
    RunInv(first, init);
    RunStep(first, init, last);
    if AllRemembered(first, init) {
      forall p ensures !Remembered(Next(s, last), p) <==> ClearsTooMuch(s, last) && s.readers[last.r].p == p {
        assert Remembered(s, p);
        DebtLostExactlyWhen(s, last, p);
      }
      if ClearsTooMuch(s, last) {
        assert !Remembered(Next(s, last), s.readers[last.r].p);
      }
    }
  }

  // ------------------------------------------------------------------ which writes a hit shows

  /** Any answer that may be stored under the current epoch. */
  ghost predicate MayBeHit(s: State, key: Key, entry: Entry)
    requires s.born != []
  {
    EntryOk(s, key, entry) && entry.epoch == |s.born| - 1
  }

  /** All of them show a write exactly when it was committed before the epoch began. */
  lemma ShownExactlyWhen(s: State, key: Key, write: nat)
    requires Inv(s) && s.history[Seen(s)](key).Some?
    ensures (forall entry :: MayBeHit(s, key, entry) ==> write < entry.version) <==> write < Seen(s)
  {
    var oldest := Entry(|s.born| - 1, s.history[Seen(s)](key).value, Seen(s));
    assert MayBeHit(s, key, oldest);
  }

  // ------------------------------------------------------------------ where the stated rule fails

  lemma {:induction false} RunStep(first: Answers, events: seq<Event>, e: Event)
    ensures Run(first, events + [e]) == Next(Run(first, events), e)
    ensures DebtsKept(first, events + [e]) <==> DebtsKept(first, events) && !ClearsTooMuch(Run(first, events), e)
  {
  }

  lemma {:induction false} Above(ids: set<nat>) returns (n: nat)
    ensures forall id :: id in ids ==> id < n
  {
    if ids == {} {
      n := 0;
    } else {
      var id :| id in ids;
      var rest := Above(ids - {id});
      n := if rest > id then rest else id + 1;
      assert forall x :: x in ids <==> x in ids - {id} || x == id;
    }
  }

  function NextFour(s: State, a: Event, b: Event, c: Event, d: Event): State
    requires s.born != [] && |s.history| == |s.writes| + 1
  {
    Next(Next(Next(Next(s, a), b), c), d)
  }

  lemma ReadThenStore(s: State, r: ReaderId, p: Process, key: Key)
    requires Inv(s) && r !in s.readers && p !in s.owed && key !in s.entries && s.history[|s.writes|](key).Some?
    ensures NextFour(s, Begin(r, p, key, true), Get(r), Read(r), Store(r, true))
            == s.(entries := s.entries[key := Entry(|s.born| - 1, s.history[|s.writes|](key).value, |s.writes|)])
  {
    var s1 := Next(s, Begin(r, p, key, true));
    var s2 := Next(s1, Get(r));
    assert s2.readers[r] == Missed(p, key, Some(|s.born| - 1));
    var s3 := Next(s2, Read(r));
    assert s3.readers[r] == Fetched(p, key, Some(|s.born| - 1), |s.writes|, s.history[|s.writes|](key));
    assert s3.readers - {r} == s.readers;
  }

  /** A request reads the database and stores what it found. */
  lemma {:induction false} CacheAnswer(first: Answers, before: seq<Event>, r: ReaderId, p: Process, key: Key) returns (events: seq<Event>)
    requires var s := Run(first, before);
             r !in s.readers && p !in s.owed && key !in s.entries && s.history[|s.writes|](key).Some?
    ensures var s := Run(first, before);
            Run(first, events)
            == s.(entries := s.entries[key := Entry(|s.born| - 1, s.history[|s.writes|](key).value, |s.writes|)])
    ensures before <= events && (DebtsKept(first, before) ==> DebtsKept(first, events))
  {
    RunInv(first, before);
    ReadThenStore(Run(first, before), r, p, key);
    events := FourMore(first, before, Begin(r, p, key, true), Get(r), Read(r), Store(r, true));
  }

  lemma {:induction false} FourMore(first: Answers, before: seq<Event>, a: Event, b: Event, c: Event, d: Event) returns (events: seq<Event>)
    requires !a.PayClear? && !b.PayClear? && !c.PayClear? && !d.PayClear?
    ensures Run(first, events) == NextFour(Run(first, before), a, b, c, d)
    ensures before <= events && (DebtsKept(first, before) ==> DebtsKept(first, events))
  {
    RunStep(first, before, a);
    RunStep(first, before + [a], b);
    RunStep(first, before + [a] + [b], c);
    RunStep(first, before + [a] + [b] + [c], d);
    events := before + [a] + [b] + [c] + [d];
  }

  lemma {:induction false} CacheThenCommit(first: Answers, before: seq<Event>, r: ReaderId, p: Process, writer: Process,
                                           after: Answers, key: Key) returns (events: seq<Event>)
    requires var s := Run(first, before);
             r !in s.readers && p !in s.owed && key !in s.entries && s.history[|s.writes|](key).Some?
    ensures before <= events && (DebtsKept(first, before) ==> DebtsKept(first, events))
    ensures MissesWrite(Run(first, before), Run(first, events), writer, after, key)
  {
    var s := Run(first, before);
    var cached := CacheAnswer(first, before, r, p, key);
    CommitLeavesEntry(s, s.(entries := s.entries[key := Entry(|s.born| - 1, s.history[|s.writes|](key).value, |s.writes|)]),
                      writer, after, key);
    RunStep(first, cached, Commit(writer, after));
    events := cached + [Commit(writer, after)];
  }

  /** From `s` to `s'` there is one more write, its bump pending, and a hit that does not show it. */
  ghost predicate MissesWrite(s: State, s': State, writer: Process, after: Answers, key: Key)
    requires s.born != [] && s'.born != [] && |s.history| == |s.writes| + 1 && s.history[|s.writes|](key).Some?
  {
    && s'.writes == s.writes + [Write(writer, Pending)] && s'.history == s.history + [after]
    && HitOn(s', key) == Some(Entry(|s'.born| - 1, s.history[|s.writes|](key).value, |s.writes|))
  }

  lemma CommitLeavesEntry(s: State, cached: State, writer: Process, after: Answers, key: Key)
    requires s.born != [] && |s.history| == |s.writes| + 1 && s.history[|s.writes|](key).Some?
    requires cached == s.(entries := s.entries[key := Entry(|s.born| - 1, s.history[|s.writes|](key).value, |s.writes|)])
    ensures MissesWrite(s, Next(cached, Commit(writer, after)), writer, after, key)
  {
  }

  /**
   Until its bump no write is safe: whatever has happened so far, the run can go on so that a write committed now is
   missed by a hit, although no debt is lost.
  */
  lemma {:induction false} UnbumpedWriteCanBeMissed(first: Answers, before: seq<Event>, writer: Process, after: Answers, key: Key)
    returns (events: seq<Event>)
    requires var s := Run(first, before); s.history[|s.writes|](key).Some?
    ensures before <= events && (DebtsKept(first, before) ==> DebtsKept(first, events))
    ensures MissesWrite(Run(first, before), Run(first, events), writer, after, key)
  {
    var s := Run(first, before);
    var r := Above(s.readers.Keys);
    var p := Above(s.owed);
    RunStep(first, before, Expire(key));
    events := CacheThenCommit(first, before + [Expire(key)], r, p, writer, after, key);
  }

  const KEY: Key := "k"
  const OLD: Answers := key => Some("old")
  const NEW: Answers := key => Some("new")

  /**
   "On the very next request" holds only once the bump is in: here the write is committed, its bump is still
   pending, and a lookup that begins now serves the old answer.
  */
  lemma StaleHitBeforeTheBump() returns (events: seq<Event>)
    ensures DebtsKept(OLD, events)
    ensures var s := Run(OLD, events);
            && 1 in s.readers && s.readers[1].Ready? && s.readers[1].key == KEY && |s.writes| == 1
            && HitOn(s, KEY).Some? && HitOn(s, KEY).value.value == "old" && s.history[1](KEY) == Some("new")
  {
    var cached := CacheAnswer(OLD, [], 0, 0, KEY);
    var written := cached + [Commit(0, NEW)];
    RunStep(OLD, cached, Commit(0, NEW));
    events := written + [Begin(1, 0, KEY, true)];
    RunStep(OLD, written, Begin(1, 0, KEY, true));
  }

  lemma OweThenPay()
    ensures var s1 := Next(Init(OLD), Restart(0, false));
            var s2 := Next(s1, Begin(1, 0, KEY, true));
            Next(s2, PayIncrement(1)) == State([OLD], [], [0, 0], map[], {0}, map[1 := Paid(0, KEY, {})])
  {
    var s1 := Next(Init(OLD), Restart(0, false));
    assert s1 == State([OLD], [], [0], map[], {0}, map[]);
    assert FailedBy(s1, 0) == {};
    var s2 := Next(s1, Begin(1, 0, KEY, true));
    assert s2.readers[1] == Owing(0, KEY, {});
  }

  lemma OwedAndPaid() returns (events: seq<Event>)
    ensures Run(OLD, events) == State([OLD], [], [0, 0], map[], {0}, map[1 := Paid(0, KEY, {})])
  {
    OweThenPay();
    RunStep(OLD, [], Restart(0, false));
    var e1 := [] + [Restart(0, false)];
    RunStep(OLD, e1, Begin(1, 0, KEY, true));
    var e2 := e1 + [Begin(1, 0, KEY, true)];
    RunStep(OLD, e2, PayIncrement(1));
    events := e2 + [PayIncrement(1)];
  }

  /** Process 0 owes a bump, and its request 1 has made the increment that pays for it; 2 then caches an answer. */
  lemma PaidAndCached() returns (events: seq<Event>)
    ensures Run(OLD, events) == State([OLD], [], [0, 0], map[KEY := Entry(1, "old", 0)], {0}, map[1 := Paid(0, KEY, {})])
  {
    var paid := OwedAndPaid();
    events := CacheAnswer(OLD, paid, 2, 1, KEY);
  }

  /**
   A debt lost: a bump fails between a lookup's increment and its clearing of the flag, and then a quiet cache
   serves a process an answer older than its own failed write.
  */
  lemma RaceLosesADebt() returns (events: seq<Event>)
    ensures !DebtsKept(OLD, events)
    ensures var s := Run(OLD, events);
            && Quiet(s) && s.writes == [Write(0, Failed)]
            && 3 in s.readers && s.readers[3] == Ready(0, KEY, {0})
            && HitOn(s, KEY) == Some(Entry(1, "old", 0)) && s.history[1](KEY) == Some("new")
  {
    var paid := PaidAndCached();
    var written := paid + [Commit(0, NEW)];
    RunStep(OLD, paid, Commit(0, NEW));
    var failed := written + [BumpFail(0)];
    RunStep(OLD, written, BumpFail(0));
    var cleared := failed + [PayClear(1)];
    RunStep(OLD, failed, PayClear(1));
    events := cleared + [Begin(3, 0, KEY, true)];
    RunStep(OLD, cleared, Begin(3, 0, KEY, true));
    assert Run(OLD, failed).writes[0] == Write(0, Failed) && ClearsTooMuch(Run(OLD, failed), PayClear(1));
  }
}
