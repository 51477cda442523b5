/**
 The auth cache's epoch protocol (services/auth_cache.py, the read-through helpers of dependencies.py), as
 the interleaved steps of any number of processes and requests sharing one Redis.

 Assumptions: MGET reads the epoch and the entry at one moment; the epoch key is never lost; a database read
 sees every commit before it; and every answer is a function of the watched tables.
*/
module EpochCache {
  import opened Common

  type Key = string
  type Value = string
  type Process = nat
  type ReaderId = nat

  /** What the database answers for each key; None when there is nothing to store (no such organization). */
  type Answers = Key -> Option<Value>

  /** What became of the epoch bump a write to a watched table owes. */
  datatype Phase = Pending | Bumped | Failed

  datatype Write = Write(writer: Process, phase: Phase)

  /** `version` is the database version the value was read from: how many writes it shows. */
  datatype Entry = Entry(epoch: nat, value: Value, version: nat)

  /** A request reading through the cache, between two of its awaits. `mustShow`: see `Begin`. */
  datatype Reader =
    | Owing(p: Process, key: Key, mustShow: set<nat>)
    | Paid(p: Process, key: Key, mustShow: set<nat>)
    | Ready(p: Process, key: Key, mustShow: set<nat>)
    | Hit(p: Process, key: Key, value: Value, version: nat)
    | Missed(p: Process, key: Key, epoch: Option<nat>)
    | Fetched(p: Process, key: Key, epoch: Option<nat>, version: nat, answer: Option<Value>)

  /**
   `history` holds every version of the database: version v shows the first v writes. `born[e]` is how many
   writes were committed when epoch e began, so the current epoch is |born| - 1.
  */
  datatype State = State(
    history: seq<Answers>,
    writes: seq<Write>,
    born: seq<nat>,
    entries: map<Key, Entry>,
    owed: set<Process>,
    readers: map<ReaderId, Reader>)

  datatype Event =
    | Commit(writer: Process, after: Answers)
    | BumpOk(write: nat)
    | BumpFail(write: nat)
    | LateIncrement  // one whose reply was lost, carried out all the same
    | Expire(key: Key)
    | Begin(r: ReaderId, p: Process, key: Key, available: bool)
    | PayIncrement(r: ReaderId)
    | PayClear(r: ReaderId)
    | Get(r: ReaderId)
    | GiveUp(r: ReaderId)  // Redis failed
    | Read(r: ReaderId)
    | Store(r: ReaderId, ok: bool)
    | Restart(p: Process, ok: bool)

  // ------------------------------------------------------------------ steps

  function Init(first: Answers): State {
    State([first], [], [0], map[], {}, map[])
  }

  function Increment(s: State): State {
    s.(born := s.born + [|s.writes|])
  }

  function FailedBy(s: State, p: Process): set<nat> {
    set c | 0 <= c < |s.writes| && s.writes[c] == Write(p, Failed)
  }

  /** The entry a lookup counts as a hit: the one stored under the current epoch. */
  function HitOn(s: State, key: Key): Option<Entry> {
    if key in s.entries && s.entries[key].epoch == |s.born| - 1 then Some(s.entries[key]) else None
  }

  function SetReader(s: State, r: ReaderId, reader: Reader): State {
    s.(readers := s.readers[r := reader])
  }

  /** `mustShow` remembers which of its process's own writes had failed to bump when the lookup began. */
  function BeginLookup(s: State, r: ReaderId, p: Process, key: Key, available: bool): State {
    if !available then SetReader(s, r, Missed(p, key, None))
    else if p in s.owed then SetReader(s, r, Owing(p, key, FailedBy(s, p)))
    else SetReader(s, r, Ready(p, key, FailedBy(s, p)))
  }

  function GetEntry(s: State, r: ReaderId, reader: Reader): State
    requires reader.Ready? && s.born != []
  {
    match HitOn(s, reader.key)
    case Some(entry) => SetReader(s, r, Hit(reader.p, reader.key, entry.value, entry.version))
    case None => SetReader(s, r, Missed(reader.p, reader.key, Some(|s.born| - 1)))
  }

  function StoreAnswer(s: State, r: ReaderId, reader: Reader, ok: bool): State
    requires reader.Fetched?
  {
    var done := s.(readers := s.readers - {r});
    if !ok || reader.epoch.None? || reader.answer.None? then done
    else done.(entries := s.entries[reader.key := Entry(reader.epoch.value, reader.answer.value, reader.version)])
  }

  /** A request's own step. */
  function ReaderStep(s: State, e: Event, r: ReaderId): State
    requires r in s.readers && s.born != [] && |s.history| == |s.writes| + 1
  {
    var reader := s.readers[r];
    match e
    case PayIncrement(_) => if reader.Owing? then SetReader(Increment(s), r, Paid(reader.p, reader.key, reader.mustShow)) else s
    case PayClear(_) =>
      if reader.Paid? then SetReader(s, r, Ready(reader.p, reader.key, reader.mustShow)).(owed := s.owed - {reader.p}) else s
    case Get(_) => if reader.Ready? then GetEntry(s, r, reader) else s
    case GiveUp(_) =>
      if reader.Owing? || reader.Paid? || reader.Ready? then SetReader(s, r, Missed(reader.p, reader.key, None)) else s
    case Read(_) =>
      if reader.Missed?
      then SetReader(s, r, Fetched(reader.p, reader.key, reader.epoch, |s.writes|, s.history[|s.writes|](reader.key)))
      else s
    case Store(_, ok) => if reader.Fetched? then StoreAnswer(s, r, reader, ok) else s
    case _ => s
  }

  /** Starting again loses the process's requests, its flag and its pending bumps, and bumps once for all of them. */
  function RestartProcess(s: State, p: Process, ok: bool): State {
    var phase := if ok then Bumped else Failed;
    var writes := seq(|s.writes|, i requires 0 <= i < |s.writes| =>
      if s.writes[i] == Write(p, Pending) then Write(p, phase) else s.writes[i]);
    var restarted := s.(writes := writes, readers := map r | r in s.readers && s.readers[r].p != p :: s.readers[r]);
    if ok then Increment(restarted).(owed := s.owed - {p}) else restarted.(owed := s.owed + {p})
  }

  /** An event that cannot happen in `s` changes nothing, so every list of events is a run. */
  function Next(s: State, e: Event): (s': State)
    requires s.born != [] && |s.history| == |s.writes| + 1
    ensures s'.born != [] && |s'.history| == |s'.writes| + 1
  {
    match e
    case Commit(writer, after) => s.(history := s.history + [after], writes := s.writes + [Write(writer, Pending)])
    case BumpOk(c) =>
      if c < |s.writes| && s.writes[c].phase.Pending?
      then Increment(s.(writes := s.writes[c := s.writes[c].(phase := Bumped)]))
      else s
    case BumpFail(c) =>
      if c < |s.writes| && s.writes[c].phase.Pending?
      then s.(writes := s.writes[c := s.writes[c].(phase := Failed)], owed := s.owed + {s.writes[c].writer})
      else s
    case LateIncrement => Increment(s)
    case Expire(key) => s.(entries := s.entries - {key})
    case Begin(r, p, key, available) => if r in s.readers then s else BeginLookup(s, r, p, key, available)
    case Restart(p, ok) => RestartProcess(s, p, ok)
    case _ => if e.r in s.readers then ReaderStep(s, e, e.r) else s
  }

  function Run(first: Answers, events: seq<Event>): (s: State)
    ensures s.born != [] && |s.history| == |s.writes| + 1
  {
    if events == [] then Init(first) else Next(Run(first, events[..|events| - 1]), events[|events| - 1])
  }

  // ------------------------------------------------------------------ what every step keeps

  /** How many writes the current epoch has seen committed before it began. */
  function Seen(s: State): nat
    requires s.born != []
  {
    s.born[|s.born| - 1]
  }

  ghost predicate EntryOk(s: State, key: Key, e: Entry) {
    && e.epoch < |s.born|
    && s.born[e.epoch] <= e.version < |s.history|
    && s.history[e.version](key) == Some(e.value)
  }

  ghost predicate ReaderOk(s: State, reader: Reader) {
    match reader
    case Missed(_, _, epoch) => epoch.Some? ==> epoch.value < |s.born|
    case Fetched(_, key, epoch, version, answer) =>
      && version < |s.history| && s.history[version](key) == answer
      && (epoch.Some? ==> epoch.value < |s.born| && s.born[epoch.value] <= version)
    case _ => true
  }

  /** An entry shows at least the writes committed before its epoch began; a finished bump began an epoch. */
  ghost predicate Inv(s: State) {
    && |s.history| == |s.writes| + 1
    && s.born != []
    && (forall i, j :: 0 <= i <= j < |s.born| ==> s.born[i] <= s.born[j])
    && Seen(s) <= |s.writes|
    && (forall c :: 0 <= c < |s.writes| && s.writes[c].phase.Bumped? ==> c < Seen(s))
    && (forall key :: key in s.entries ==> EntryOk(s, key, s.entries[key]))
    && forall r :: r in s.readers ==> ReaderOk(s, s.readers[r])
  }

  /** Versions and epochs are only ever added. */
  ghost predicate Extends(s: State, s': State) {
    && |s.history| <= |s'.history| && |s.born| <= |s'.born|
    && (forall v :: 0 <= v < |s.history| ==> s'.history[v] == s.history[v])
    && forall k :: 0 <= k < |s.born| ==> s'.born[k] == s.born[k]
  }

  lemma ExtendingKeepsEntries(s: State, s': State)
    requires Inv(s) && Extends(s, s')
    ensures forall key :: key in s.entries ==> EntryOk(s', key, s.entries[key])
    ensures forall r :: r in s.readers ==> ReaderOk(s', s.readers[r])
  {
  }

  lemma SetReaderKeepsInv(s: State, r: ReaderId, reader: Reader)
    requires Inv(s) && ReaderOk(s, reader)
    ensures Inv(SetReader(s, r, reader))
  {
  }

  lemma IncrementKeepsInv(s: State)
    requires Inv(s)
    ensures Inv(Increment(s)) && Seen(Increment(s)) == |s.writes|
  {
  }

  lemma StoreKeepsInv(s: State, r: ReaderId, reader: Reader, ok: bool)
    requires Inv(s) && reader.Fetched? && ReaderOk(s, reader)
    ensures Inv(StoreAnswer(s, r, reader, ok))
  {
    ExtendingKeepsEntries(s, StoreAnswer(s, r, reader, ok));
  }

  lemma ReaderStepKeepsInv(s: State, e: Event, r: ReaderId)
    requires Inv(s) && r in s.readers
    ensures Inv(ReaderStep(s, e, r))
  {
    var reader := s.readers[r];
    assert ReaderOk(s, reader);
    match e
    case PayIncrement(_) =>
      if reader.Owing? {
        IncrementKeepsInv(s);
        SetReaderKeepsInv(Increment(s), r, Paid(reader.p, reader.key, reader.mustShow));
      }
    case PayClear(_) =>
      if reader.Paid? {
        SetReaderKeepsInv(s, r, Ready(reader.p, reader.key, reader.mustShow));
        OwingKeepsInv(SetReader(s, r, Ready(reader.p, reader.key, reader.mustShow)), s.owed - {reader.p});
      }
    case Get(_) => if reader.Ready? { SetReaderKeepsInv(s, r, GetEntry(s, r, reader).readers[r]); }
    case GiveUp(_) => SetReaderKeepsInv(s, r, Missed(reader.p, reader.key, None));
    case Read(_) =>
      if reader.Missed? {
        SetReaderKeepsInv(s, r, Fetched(reader.p, reader.key, reader.epoch, |s.writes|, s.history[|s.writes|](reader.key)));
      }
    case Store(_, ok) => if reader.Fetched? { StoreKeepsInv(s, r, reader, ok); }
    case _ =>
  }

  lemma OwingKeepsInv(s: State, owed: set<Process>)
    requires Inv(s)
    ensures Inv(s.(owed := owed))
  {
  }

  /** Marking writes that an increment at this moment covers. */
  lemma MarkKeepsInv(s: State, writes: seq<Write>)
    requires Inv(s) && |writes| == |s.writes|
    requires forall c :: 0 <= c < |writes| && writes[c].phase.Bumped? ==> s.writes[c].phase.Bumped?
    ensures Inv(s.(writes := writes))
  {
  }

  lemma CommitKeepsInv(s: State, writer: Process, after: Answers)
    requires Inv(s)
    ensures Inv(Next(s, Commit(writer, after)))
  {
  }

  lemma BumpKeepsInv(s: State, c: nat)
    requires Inv(s)
    ensures Inv(Next(s, BumpOk(c))) && Inv(Next(s, BumpFail(c)))
  {
    if c < |s.writes| && s.writes[c].phase.Pending? {
      var failed := s.writes[c := s.writes[c].(phase := Failed)];
      MarkKeepsInv(s, failed);
      OwingKeepsInv(s.(writes := failed), s.owed + {s.writes[c].writer});
      ExtendingKeepsEntries(s, Next(s, BumpOk(c)));
    }
  }

  lemma RestartKeepsInv(s: State, p: Process, ok: bool)
    requires Inv(s)
    ensures Inv(RestartProcess(s, p, ok))
  {
    ExtendingKeepsEntries(s, RestartProcess(s, p, ok));
  }

  lemma NextKeepsInv(s: State, e: Event)
    requires Inv(s)
    ensures Inv(Next(s, e))
  {
    match e
    case Commit(writer, after) => CommitKeepsInv(s, writer, after);
    case BumpOk(c) => BumpKeepsInv(s, c);
    case BumpFail(c) => BumpKeepsInv(s, c);
    case LateIncrement => IncrementKeepsInv(s);
    case Expire(key) => ExtendingKeepsEntries(s, Next(s, e));
    case Begin(r, p, key, available) => if r !in s.readers { SetReaderKeepsInv(s, r, BeginLookup(s, r, p, key, available).readers[r]); }
    case Restart(p, ok) => RestartKeepsInv(s, p, ok);
    case _ => if e.r in s.readers { ReaderStepKeepsInv(s, e, e.r); }
  }

  lemma {:induction false} RunInv(first: Answers, events: seq<Event>)
    ensures Inv(Run(first, events))
  {
    if events != [] {
      RunInv(first, events[..|events| - 1]);
      NextKeepsInv(Run(first, events[..|events| - 1]), events[|events| - 1]);
    }
  }

  /**
   In every interleaving a hit is an answer the database gave, no older than the current epoch, so it shows
   every write whose bump has finished.
  */
  lemma {:induction false} HitShowsBumpedWrites(first: Answers, events: seq<Event>, key: Key, write: nat)
    ensures var s := Run(first, events);
            HitOn(s, key).Some? ==>
              var entry := HitOn(s, key).value;
              && Seen(s) <= entry.version < |s.history| && s.history[entry.version](key) == Some(entry.value)
              && (write < |s.writes| && s.writes[write].phase.Bumped? ==> write < entry.version)
  {
    RunInv(first, events);
    var s := Run(first, events);
    if HitOn(s, key).Some? {
      assert EntryOk(s, key, s.entries[key]);
    }
  }
}
