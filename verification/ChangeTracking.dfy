/**
 Which commits bump the epoch: the four session hooks at the end of services/auth_cache.py, as the events of
 one database session. A session autoflushes, has no savepoints, and writes through the ORM only.
*/
module ChangeTracking {
  import C = AuthCache

  const WATCHED_TABLES: set<string> :=
    {"users", "clients", "organizations", "org_units", "user_permissions", "permissions", "refresh_tokens"}

  /**
   `Touch` adds, changes or deletes an instance, not flushed yet; `changes` is whether its row will differ, as an
   attribute may be assigned the value it had. `hits` is whether a writing statement finds any row.
  */
  datatype Event =
    | Touch(table: string, changes: bool)
    | Flush
    | Statement(table: string, writes: bool, hits: bool)
    | Commit
    | Rollback

  /** `changed` is the session's own flag; `touched` waits for a flush; `bumps` says of each commit whether it scheduled one. */
  datatype Session = Session(touched: set<string>, changed: bool, bumps: seq<bool>)

  predicate Watched(tables: set<string>) {
    exists table :: table in tables && table in WATCHED_TABLES
  }

  function Flushed(s: Session): Session {
    s.(touched := {}, changed := s.changed || Watched(s.touched))
  }

  function Next(s: Session, e: Event): Session {
    match e
    case Touch(table, _) => s.(touched := s.touched + {table})
    case Flush => Flushed(s)
    case Statement(table, writes, _) =>
      var flushed := Flushed(s);
      flushed.(changed := flushed.changed || (writes && table in WATCHED_TABLES))
    case Commit => Session({}, false, s.bumps + [Flushed(s).changed])
    case Rollback => Session({}, false, s.bumps)
  }

  function Run(events: seq<Event>): Session {
    if events == [] then Session({}, false, []) else Next(Run(events[..|events| - 1]), events[|events| - 1])
  }

  // ------------------------------------------------------------------ which commits bump

  /** The events of the transaction still open: those since the last commit or rollback. */
  function Open(events: seq<Event>): seq<Event> {
    if events == [] then []
    else
      var last := events[|events| - 1];
      if last.Commit? || last.Rollback? then [] else Open(events[..|events| - 1]) + [last]
  }

  /** What the hooks can see of a watched table. */
  predicate Noticed(e: Event) {
    (e.Touch? || (e.Statement? && e.writes)) && e.table in WATCHED_TABLES
  }

  /** A row of a watched table is written. */
  predicate WritesWatched(e: Event) {
    Noticed(e) && (e.Touch? ==> e.changes) && (e.Statement? ==> e.hits)
  }

  lemma {:induction false} FlagFollowsEvents(events: seq<Event>)
    ensures Flushed(Run(events)).changed <==> exists e :: e in Open(events) && Noticed(e)
  {
    if events != [] {
      var init, last := events[..|events| - 1], events[|events| - 1];
      FlagFollowsEvents(init);
      if !last.Commit? && !last.Rollback? {
        assert forall e :: e in Open(events) <==> e in Open(init) || e == last;
        assert Flushed(Run(events)).changed <==> Flushed(Run(init)).changed || Noticed(last);
      }
    }
  }

  /**
   Whatever the session did before, a commit schedules a bump exactly when, since the last commit or rollback, an
   instance of a watched table was touched, flushed or not, or a writing statement ran on one.
  */
  lemma {:induction false} CommitBumpsExactlyWhen(events: seq<Event>)
    ensures Run(events + [Commit]).bumps == Run(events).bumps + [exists e :: e in Open(events) && Noticed(e)]
  {
    FlagFollowsEvents(events);
    assert (events + [Commit])[..|events|] == events;
  }

  /** So no transaction that writes a watched table is committed without a bump. */
  lemma {:induction false} WatchedWriteBumps(events: seq<Event>, e: Event)
    requires e in Open(events) && WritesWatched(e)
    ensures Run(events + [Commit]).bumps == Run(events).bumps + [true]
  {
    CommitBumpsExactlyWhen(events);
  }

  /** The other way does not hold: an instance assigned what it had bumps, although nothing is written. */
  lemma {:induction false} BumpWithoutAWrite()
    ensures var events := [Touch("users", false)];
            (forall e :: e in Open(events) ==> !WritesWatched(e)) && Run(events + [Commit]).bumps == [true]
  {
    var events := [Touch("users", false)];
    assert events[..0] == [] && Open(events) == [] + [events[0]];
    assert events[0] in Open(events) && Noticed(events[0]);
    CommitBumpsExactlyWhen(events);
  }

  // ------------------------------------------------------------------ the hooks

  class SessionHooks {
    var changed: bool

    constructor ()
      ensures !changed
    {
      changed := false;
    }

    method NoteChangedRows(touched: set<string>)
      modifies this
      ensures changed == (old(changed) || Watched(touched))
    {
      if exists table :: table in touched && table in WATCHED_TABLES {
        changed := true;
      }
    }

    method NoteBulkWrites(table: string, writes: bool)
      modifies this
      ensures changed == (old(changed) || (writes && table in WATCHED_TABLES))
    {
      if !writes {
        return;
      }
      if table in WATCHED_TABLES {
        changed := true;
      }
    }

    method DropCacheAfterCommit(cache: C.AuthCache)
      modifies this, cache`pendingBumps
      ensures !changed
      ensures cache.pendingBumps == old(cache.pendingBumps) + if old(changed) && cache.redis != null then 1 else 0
    {
      var pop := changed;
      changed := false;
      if pop {
        cache.ScheduleEpochBump();
      }
    }

    method ForgetRolledBackChanges()
      modifies this
      ensures !changed
    {
      changed := false;
    }
  }
}
