/**
 The cache object itself (services/auth_cache.py) and the read-through helpers (dependencies.py), each call
 running on its own; EpochCache has the same calls broken into the steps that interleave. The lemmas at the
 end say that a call here is one run of those steps.
*/
module AuthCache {
  import opened Common
  import opened EpochCache

  const OUTAGE_PAUSE := 30

  /** What becomes of a Redis command; after anything but `Answered` the client raises. */
  datatype Reply = Answered | Lost | Unreached

  datatype Stored = Stored(epoch: nat, value: Value)

  /** What Redis holds: the epoch and the entries. */
  datatype Shared = Shared(epoch: nat, entries: map<Key, Stored>)

  function Incremented(shared: Shared, reply: Reply): Shared {
    if reply.Unreached? then shared else shared.(epoch := shared.epoch + 1)
  }

  /** What a caller gets, what Redis holds afterwards, whether a bump is still owed, and whether Redis failed. */
  datatype Looked = Looked(epoch: Option<nat>, value: Option<Value>, shared: Shared, owed: bool, failed: bool)

  function ValueUnder(shared: Shared, key: Key): Option<Value> {
    if key in shared.entries && shared.entries[key].epoch == shared.epoch then Some(shared.entries[key].value) else None
  }

  /** A lookup that Redis is available for: pay what is owed, then read both keys at once. */
  function LookUp(shared: Shared, owed: bool, key: Key, incr: Reply, mget: Reply): Looked {
    if owed && !incr.Answered? then Looked(None, None, Incremented(shared, incr), true, true)
    else
      var paid := if owed then Incremented(shared, incr) else shared;
      if !mget.Answered? then Looked(None, None, paid, false, true)
      else Looked(Some(paid.epoch), ValueUnder(paid, key), paid, false, false)
  }

  class Redis {
    var shared: Shared

    constructor ()
      ensures shared == Shared(0, map[])
    {
      shared := Shared(0, map[]);
    }

    method Incr(reply: Reply) returns (raised: bool)
      modifies this
      ensures raised == !reply.Answered? && shared == Incremented(old(shared), reply)
    {
      if !reply.Unreached? {
        shared := shared.(epoch := shared.epoch + 1);
      }
      return !reply.Answered?;
    }

    method Set(key: Key, stored: Stored, reply: Reply) returns (raised: bool)
      modifies this
      ensures raised == !reply.Answered?
      ensures shared == if reply.Unreached? then old(shared) else old(shared).(entries := old(shared).entries[key := stored])
    {
      if !reply.Unreached? {
        shared := shared.(entries := shared.entries[key := stored]);
      }
      return !reply.Answered?;
    }
  }

  class AuthCache {
    var redis: Redis?
    var pausedUntil: int
    var bumpOwed: bool
    var pendingBumps: nat

    constructor ()
      ensures redis == null && !bumpOwed && pendingBumps == 0
    {
      redis, pausedUntil, bumpOwed, pendingBumps := null, 0, false, 0;
    }

    predicate Available(now: int)
      reads this
    {
      redis != null && now >= pausedUntil
    }

    method Use(client: Redis?)
      modifies this
      ensures redis == client && pausedUntil == 0 && !bumpOwed && pendingBumps == old(pendingBumps)
    {
      redis, pausedUntil, bumpOwed := client, 0, false;
    }

    /** Starts from a new epoch: nothing stored before is trusted unless the increment fails, and then it is owed. */
    method Connect(client: Redis?, now: int, reply: Reply)
      modifies this, client
      ensures pendingBumps == old(pendingBumps)
      ensures client == null ==> redis == old(redis) && bumpOwed == old(bumpOwed) && pausedUntil == old(pausedUntil)
      ensures client != null ==>
                && redis == client && client.shared == Incremented(old(client.shared), reply)
                && bumpOwed == !reply.Answered?
                && pausedUntil == if reply.Answered? then 0 else now + OUTAGE_PAUSE
    {
      if client == null {
        return;
      }
      Use(client);
      BumpEpoch(now, reply);
    }

    method Lookup(key: Key, now: int, incr: Reply, mget: Reply) returns (epoch: Option<nat>, value: Option<Value>)
      modifies this`pausedUntil, this`bumpOwed, redis
      ensures old(redis == null || now < pausedUntil) ==>
                && epoch.None? && value.None? && pausedUntil == old(pausedUntil) && bumpOwed == old(bumpOwed)
                && (redis != null ==> redis.shared == old(redis.shared))
      ensures old(redis != null && now >= pausedUntil) ==>
                var looked := LookUp(old(redis.shared), old(bumpOwed), key, incr, mget);
                && (epoch, value) == (looked.epoch, looked.value)
                && (redis.shared, bumpOwed) == (looked.shared, looked.owed)
                && pausedUntil == if looked.failed then now + OUTAGE_PAUSE else old(pausedUntil)
    {
      if !Available(now) {
        return None, None;
      }
      if bumpOwed {
        var raised := redis.Incr(incr);
        if raised {
          pausedUntil := now + OUTAGE_PAUSE;
          return None, None;
        }
        bumpOwed := false;
      }
      if !mget.Answered? {
        pausedUntil := now + OUTAGE_PAUSE;
        return None, None;
      }
      epoch := Some(redis.shared.epoch);
      value := ValueUnder(redis.shared, key);
    }

    method Store(epoch: Option<nat>, key: Key, value: Value, now: int, reply: Reply)
      modifies this`pausedUntil, redis
      ensures old(redis == null || now < pausedUntil) || epoch.None? ==>
                pausedUntil == old(pausedUntil) && (redis != null ==> redis.shared == old(redis.shared))
      ensures old(redis != null && now >= pausedUntil) && epoch.Some? ==>
                && redis.shared == (if reply.Unreached? then old(redis.shared)
                                    else old(redis.shared).(entries := old(redis.shared).entries[key := Stored(epoch.value, value)]))
                && pausedUntil == if reply.Answered? then old(pausedUntil) else now + OUTAGE_PAUSE
    {
      if !Available(now) || epoch.None? {
        return;
      }
      var raised := redis.Set(key, Stored(epoch.value, value), reply);
      if raised {
        pausedUntil := now + OUTAGE_PAUSE;
      }
    }

    /** Unlike a lookup, a bump is tried even while the cache is paused. */
    method BumpEpoch(now: int, reply: Reply)
      modifies this`pausedUntil, this`bumpOwed, redis
      ensures redis == null ==> bumpOwed == old(bumpOwed) && pausedUntil == old(pausedUntil)
      ensures redis != null ==>
                && redis.shared == Incremented(old(redis.shared), reply)
                && bumpOwed == (old(bumpOwed) || !reply.Answered?)
                && pausedUntil == if reply.Answered? then old(pausedUntil) else now + OUTAGE_PAUSE
    {
      if redis == null {
        return;
      }
      var raised := redis.Incr(reply);
      if raised {
        bumpOwed := true;
        pausedUntil := now + OUTAGE_PAUSE;
      }
    }

    method ScheduleEpochBump()
      modifies this`pendingBumps
      ensures pendingBumps == old(pendingBumps) + if redis == null then 0 else 1
    {
      if redis != null {
        pendingBumps := pendingBumps + 1;
      }
    }

    /**
     The read-through helpers: the answer is the cached one on a hit and the database's otherwise; what is then
     stored carries the epoch seen before the database was read.
    */
    method ReadThrough(key: Key, answer: Option<Value>, now: int, incr: Reply, mget: Reply, store: Reply)
      returns (result: Option<Value>)
      modifies this`pausedUntil, this`bumpOwed, redis
      ensures old(redis == null || now < pausedUntil) ==> result == answer && (redis != null ==> redis.shared == old(redis.shared))
      ensures old(redis != null && now >= pausedUntil) ==>
                var looked := LookUp(old(redis.shared), old(bumpOwed), key, incr, mget);
                && result == (if looked.value.Some? then looked.value else answer)
                && bumpOwed == looked.owed
                && redis.shared == if looked.value.Some? || looked.epoch.None? || answer.None? || store.Unreached? then looked.shared
                                   else looked.shared.(entries := looked.shared.entries[key := Stored(looked.epoch.value, answer.value)])
    {
      var epoch, cached := Lookup(key, now, incr, mget);
      if cached.Some? {
        return cached;
      }
      if answer.Some? {
        Store(epoch, key, answer.value, now, store);
      }
      return answer;
    }
  }

  // ------------------------------------------------------------------ one call is a run of the protocol's steps

  /** The part of a protocol state the cache object can see. */
  function Visible(s: State): Shared
    requires s.born != []
  {
    Shared(|s.born| - 1, map key | key in s.entries :: Stored(s.entries[key].epoch, s.entries[key].value))
  }

  /** A lookup that nothing interrupts, as steps of the protocol. */
  function LookupSteps(s: State, r: ReaderId, p: Process, key: Key, incr: Reply, mget: Reply): State
    requires s.born != [] && |s.history| == |s.writes| + 1
  {
    var begun := Next(s, Begin(r, p, key, true));
    if p in s.owed && !incr.Answered?
    then Next(if incr.Lost? then Next(begun, LateIncrement) else begun, GiveUp(r))
    else
      var paid := if p in s.owed then Next(Next(begun, PayIncrement(r)), PayClear(r)) else begun;
      Next(paid, if mget.Answered? then Get(r) else GiveUp(r))
  }

  /** Where a lookup stands once it has paid what was owed. */
  function PaidUp(s: State, r: ReaderId, p: Process, key: Key): State {
    var ready := s.(readers := s.readers[r := Ready(p, key, FailedBy(s, p))]);
    if p in s.owed then ready.(born := s.born + [|s.writes|], owed := s.owed - {p}) else ready
  }

  lemma PayingPaysUp(s: State, r: ReaderId, p: Process, key: Key)
    requires s.born != [] && |s.history| == |s.writes| + 1 && r !in s.readers
    ensures var begun := Next(s, Begin(r, p, key, true));
            PaidUp(s, r, p, key) == if p in s.owed then Next(Next(begun, PayIncrement(r)), PayClear(r)) else begun
  {
  }

  lemma ReadingOnceReady(s: State, r: ReaderId, mget: Reply)
    requires s.born != [] && |s.history| == |s.writes| + 1 && r in s.readers && s.readers[r].Ready?
    ensures var reader, shared := s.readers[r], Visible(s);
            Next(s, if mget.Answered? then Get(r) else GiveUp(r)) ==
            if !mget.Answered? then SetReader(s, r, Missed(reader.p, reader.key, None))
            else match HitOn(s, reader.key)
                 case Some(entry) => SetReader(s, r, Hit(reader.p, reader.key, entry.value, entry.version))
                 case None => SetReader(s, r, Missed(reader.p, reader.key, Some(shared.epoch)))
  {
  }

  /** State `s'` is what the lookup leaves behind, and its reader knows what the cache object answers. */
  ghost predicate Shows(s: State, s': State, r: ReaderId, p: Process, key: Key, looked: Looked) {
    && s'.born != []
    && Visible(s') == looked.shared
    && s'.owed == (if looked.owed then s.owed else s.owed - {p})
    && r in s'.readers
    && s' == s.(born := s'.born, owed := s'.owed, readers := s.readers[r := s'.readers[r]])
    && match looked.value
       case Some(value) => s'.readers[r].Hit? && s'.readers[r].value == value
       case None => s'.readers[r] == Missed(p, key, looked.epoch)
  }

  lemma UnpaidShows(s: State, r: ReaderId, p: Process, key: Key, incr: Reply, mget: Reply)
    requires s.born != [] && |s.history| == |s.writes| + 1 && r !in s.readers
    requires p in s.owed && !incr.Answered?
    ensures Shows(s, LookupSteps(s, r, p, key, incr, mget), r, p, key, LookUp(Visible(s), true, key, incr, mget))
  {
    var begun := Next(s, Begin(r, p, key, true));
    assert begun == SetReader(s, r, Owing(p, key, FailedBy(s, p)));
  }

  lemma PaidStepsAre(s: State, r: ReaderId, p: Process, key: Key, incr: Reply, mget: Reply)
    requires s.born != [] && |s.history| == |s.writes| + 1 && r !in s.readers
    requires p in s.owed ==> incr.Answered?
    ensures LookupSteps(s, r, p, key, incr, mget) == Next(PaidUp(s, r, p, key), if mget.Answered? then Get(r) else GiveUp(r))
  {
    PayingPaysUp(s, r, p, key);
  }

  lemma PaidIsVisible(s: State, r: ReaderId, p: Process, key: Key, incr: Reply)
    requires s.born != [] && (p in s.owed ==> incr.Answered?)
    ensures Visible(PaidUp(s, r, p, key)) == if p in s.owed then Incremented(Visible(s), incr) else Visible(s)
  {
  }

  lemma PaidShows(s: State, r: ReaderId, p: Process, key: Key, incr: Reply, mget: Reply)
    requires s.born != [] && |s.history| == |s.writes| + 1 && r !in s.readers
    requires p in s.owed ==> incr.Answered?
    ensures Shows(s, LookupSteps(s, r, p, key, incr, mget), r, p, key, LookUp(Visible(s), p in s.owed, key, incr, mget))
  {
    PaidStepsAre(s, r, p, key, incr, mget);
    PaidIsVisible(s, r, p, key, incr);
    ReadingOnceReady(PaidUp(s, r, p, key), r, mget);
  }

  lemma LookupIsProtocol(s: State, r: ReaderId, p: Process, key: Key, incr: Reply, mget: Reply)
    requires s.born != [] && |s.history| == |s.writes| + 1 && r !in s.readers
    ensures Shows(s, LookupSteps(s, r, p, key, incr, mget), r, p, key, LookUp(Visible(s), p in s.owed, key, incr, mget))
  {
    if p in s.owed && !incr.Answered? {
      UnpaidShows(s, r, p, key, incr, mget);
    } else {
      PaidShows(s, r, p, key, incr, mget);
    }
  }

  /** Likewise a bump: `BumpOk` when it is answered, `BumpFail` when it is not, whether or not it was carried out. */
  lemma BumpIsProtocol(s: State, c: nat, reply: Reply)
    requires s.born != [] && |s.history| == |s.writes| + 1 && c < |s.writes| && s.writes[c].phase.Pending?
    ensures var s' := if reply.Answered? then Next(s, BumpOk(c))
                      else Next(if reply.Lost? then Next(s, LateIncrement) else s, BumpFail(c));
            && Visible(s') == Incremented(Visible(s), reply)
            && s'.owed == (if reply.Answered? then s.owed else s.owed + {s.writes[c].writer})
            && s'.writes == s.writes[c := Write(s.writes[c].writer, if reply.Answered? then Bumped else Failed)]
  {
  }

  lemma StoreIsProtocol(s: State, r: ReaderId, reply: Reply)
    requires s.born != [] && |s.history| == |s.writes| + 1 && r in s.readers && s.readers[r].Fetched?
    ensures var reader, s' := s.readers[r], Next(s, Store(r, !reply.Unreached?));
            Visible(s') == if reader.epoch.None? || reader.answer.None? || reply.Unreached? then Visible(s)
                           else Visible(s).(entries := Visible(s).entries[reader.key := Stored(reader.epoch.value, reader.answer.value)])
  {
  }
}
