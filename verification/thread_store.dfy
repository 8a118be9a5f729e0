/** The compaction half of `internal/store`: guarded appends to one session journal, and the walk
    along the checkpoint lineage. Every call runs under the thread lock, so a method is one step. */
module ThreadStores {
  import opened Ids
  import opened ThreadJournal
  import opened PausePolicy

  datatype StoreError =
    | BlankOperation | RevisionConflict | ThreadIsArchived | DuplicateOperation | AlreadyPending
    | OperationMismatch | OperationNotPending | InvalidUsage | UsageConflict
    | ParentMismatch | ParentMissing | DuplicateCheckpoint | ResetMismatch
    | BlankCheckpoint | CheckpointNotFound | LineageCycle | InvalidFailure | InvalidReset

  // ---- what each call decides, before anything is written ----

  function StartOutcome(s: ThreadState, expected: nat, op: Id, automatic: bool): Result<Payload, StoreError> {
    if op == Id.Blank then Err(BlankOperation)
    else if expected != s.revision then Err(RevisionConflict)
    else if s.archived then Err(ThreadIsArchived)
    else if op in s.operations then Err(DuplicateOperation)
    else if s.pending.Some? then Err(AlreadyPending)
    else Ok(CompactionStarted(op, automatic))
  }

  function FailureOutcome(s: ThreadState, expected: nat, op: Id, automatic: bool): Result<Payload, StoreError> {
    if expected != s.revision then Err(RevisionConflict)
    else if s.pending.Some? && s.pending.value != Pending(op, automatic) then Err(OperationMismatch)
    else if s.pending.None? && op != Id.Blank && op in s.operations then Err(DuplicateOperation)
    else Ok(CompactionFailed(op, automatic))
  }

  function FinishOutcome(s: ThreadState, op: Id, automatic: bool): Result<Payload, StoreError> {
    if op == Id.Blank then Err(BlankOperation)
    else if s.pending != Some(Pending(op, automatic)) then Err(OperationNotPending)
    else Ok(CompactionFailed(op, automatic))
  }

  /** `Ok(None)` is a replayed call that is already on record. */
  function UsageOutcome(s: ThreadState, u: Usage): Result<Option<Payload>, StoreError> {
    if !ValidUsage(u) then Err(InvalidUsage)
    else if u.callId in s.usages then (if s.usages[u.callId] == u then Ok(None) else Err(UsageConflict))
    else if u.operation != Id.Blank && (s.pending.None? || s.pending.value.operation != u.operation)
      then Err(OperationMismatch)
    else if (!u.compaction || u.turn != Id.Blank) && !OpenTurn(s, u.turn) then Err(InvalidUsage)
    else Ok(Some(UsageRecorded(u)))
  }

  function CommitOutcome(events: seq<Event>, s: ThreadState, expected: nat,
                         c: StoredCheckpoint): Result<Payload, StoreError> {
    if expected != s.revision then Err(RevisionConflict)
    else if c.parentId != s.activeCheckpoint then Err(ParentMismatch)
    else if s.pending.Some? && s.pending.value != Pending(c.operationId, c.automatic) then Err(OperationMismatch)
    else if s.pending.None? && c.operationId != Id.Blank then Err(OperationMismatch)
    else if c.parentId != Id.Blank && FindCheckpoint(events, c.parentId).None? then Err(ParentMissing)
    else if FindCheckpoint(events, c.id).Some? then Err(DuplicateCheckpoint)
    else Ok(Compacted(c.(sequence := s.revision + 1)))
  }

  function ResetOutcome(s: ThreadState, expected: nat, checkpoint: Id): Result<Payload, StoreError> {
    if checkpoint == Id.Blank then Err(BlankCheckpoint)
    else if expected != s.revision then Err(RevisionConflict)
    else if s.activeCheckpoint != checkpoint then Err(ResetMismatch)
    else Ok(CheckpointReset(checkpoint))
  }

  function NextEvent(s: ThreadState, id: Id, p: Payload): Event {
    Event(s.revision + 1, id, p)
  }

  predicate Replays(s: ThreadState, id: Id, p: Payload) {
    Apply(s, NextEvent(s, id, p)).Some?
  }

  /** A journal this store wrote: it replays, and every checkpoint names the one it replaced. */
  ghost predicate Written(events: seq<Event>) {
    && ValidJournal(events)
    && (events != [] ==>
          var rest, last := events[..|events| - 1], events[|events| - 1];
          Written(rest)
            && (last.payload.Compacted? ==> last.payload.checkpoint.parentId == Replay(rest).value.activeCheckpoint))
  }

  lemma WrittenAppend(events: seq<Event>, s: ThreadState, id: Id, p: Payload)
    requires Written(events) && Replay(events) == Some(s) && Replays(s, id, p)
    requires p.Compacted? ==> p.checkpoint.parentId == s.activeCheckpoint
    ensures Written(events + [NextEvent(s, id, p)])
    ensures Replay(events + [NextEvent(s, id, p)]) == Apply(s, NextEvent(s, id, p))
  {
    var e := NextEvent(s, id, p);
    ReplayAppend(events, e);
    assert (events + [e])[..|events|] == events;
  }

  // ---- the write guards are exactly the replay rules ----

  /** Compaction calls: accepted iff the revision matches and the journal would still replay. */
  lemma WriteGuardsMatchReplay(events: seq<Event>, id: Id, expected: nat, op: Id, automatic: bool)
    requires Written(events) && events != [] && id != Id.Blank
    ensures var s := Replay(events).value;
      && (StartOutcome(s, expected, op, automatic).Ok? <==>
            expected == s.revision && !s.archived && Replays(s, id, CompactionStarted(op, automatic)))
      && (FailureOutcome(s, expected, op, automatic).Ok? <==>
            expected == s.revision && Replays(s, id, CompactionFailed(op, automatic)))
      && (FinishOutcome(s, op, automatic).Ok? <==>
            s.pending.Some? && Replays(s, id, CompactionFailed(op, automatic)))
      && (ResetOutcome(s, expected, op).Ok? <==> expected == s.revision && Replays(s, id, CheckpointReset(op)))
  {
    PendingOnRecord(events);
  }

  lemma UsageGuardMatchesReplay(events: seq<Event>, id: Id, u: Usage)
    requires Written(events) && events != [] && id != Id.Blank
    ensures var s := Replay(events).value; var r := UsageOutcome(s, u);
      && (r.Ok? ==> u.callId in s.usages || Replays(s, id, UsageRecorded(u)))
      && (Replays(s, id, UsageRecorded(u)) ==> r == Ok(if u.callId in s.usages then None else Some(UsageRecorded(u))))
  {
  }

  /** A commit is accepted iff the revision matches, it extends the active checkpoint and the
      journal would still replay: the parent lookup can never be what refuses it. */
  lemma CommitGuardMatchesReplay(events: seq<Event>, id: Id, expected: nat, c: StoredCheckpoint)
    requires Written(events) && events != [] && id != Id.Blank && c.id != Id.Blank
    ensures var s := Replay(events).value; var r := CommitOutcome(events, s, expected, c);
      && (r.Ok? <==> expected == s.revision && c.parentId == s.activeCheckpoint
                     && Replays(s, id, Compacted(c.(sequence := s.revision + 1))))
      && r != Err(ParentMissing)
  {
    FindIsRecorded(events, c.parentId);
    FindIsRecorded(events, c.id);
    ActiveIsRecorded(events);
    PendingOnRecord(events);
  }

  // ---- lookups ----

  /** The first checkpoint event with this id. */
  function FindCheckpoint(events: seq<Event>, id: Id): Option<StoredCheckpoint> {
    if events == [] then None else
      var earlier, last := FindCheckpoint(events[..|events| - 1], id), events[|events| - 1].payload;
      if earlier.None? && last.Compacted? && last.checkpoint.id == id then Some(last.checkpoint) else earlier
  }

  lemma {:induction false} FindIsRecorded(events: seq<Event>, id: Id)
    requires ValidJournal(events)
    ensures FindCheckpoint(events, id).Some? <==> id in Replay(events).value.checkpoints
    ensures FindCheckpoint(events, id).Some? ==>
      var c := FindCheckpoint(events, id).value;
      c.id == id && id != Id.Blank && 1 <= c.sequence <= |events| && events[c.sequence - 1].payload == Compacted(c)
  {
    if events != [] {
      FindIsRecorded(events[..|events| - 1], id);
    }
  }

  lemma {:induction false} ActiveIsRecorded(events: seq<Event>)
    requires ValidJournal(events)
    ensures var s := Replay(events).value; s.activeCheckpoint == Id.Blank || s.activeCheckpoint in s.checkpoints
  {
    if events != [] {
      ActiveIsRecorded(events[..|events| - 1]);
    }
  }

  method CheckpointFromJournal(events: seq<Event>, id: Id) returns (r: Option<StoredCheckpoint>)
    ensures r == FindCheckpoint(events, id)
  {
    r := None;
    for i := 0 to |events|
      invariant FindCheckpoint(events[..i], id).None?
    {
      assert events[..i + 1][..i] == events[..i];
      if events[i].payload.Compacted? && events[i].payload.checkpoint.id == id {
        FindIsFirst(events, i + 1, id);
        return Some(events[i].payload.checkpoint);
      }
    }
    assert events[..|events|] == events;
  }

  lemma {:induction false} FindIsFirst(events: seq<Event>, n: nat, id: Id)
    requires n <= |events| && FindCheckpoint(events[..n], id).Some?
    ensures FindCheckpoint(events, id) == FindCheckpoint(events[..n], id)
  {
    if n == |events| {
      assert events[..n] == events;
    } else {
      assert events[..|events| - 1][..n] == events[..n];
      FindIsFirst(events[..|events| - 1], n, id);
    }
  }

  /** The usage record of a call, if any: the journal scan and the projection agree. */
  method UsageByCallId(events: seq<Event>, callId: Id) returns (r: Option<Usage>)
    requires ValidJournal(events)
    ensures var usages := Replay(events).value.usages;
      r == if callId in usages then Some(usages[callId]) else None
  {
    r := None;
    for i := 0 to |events|
      invariant ValidJournal(events[..i]) && callId !in Replay(events[..i]).value.usages
    {
      ReplayPrefix(events, i + 1);
      assert events[..i + 1][..i] == events[..i];
      if events[i].payload.UsageRecorded? && events[i].payload.usage.callId == callId {
        UsageIsKept(events, i + 1, callId);
        return Some(events[i].payload.usage);
      }
    }
    assert events[..|events|] == events;
  }

  /** A usage record is never replaced or dropped. */
  lemma {:induction false} UsageIsKept(events: seq<Event>, n: nat, callId: Id)
    requires n <= |events| && ValidJournal(events)
    ensures ValidJournal(events[..n])
    ensures var before, after := Replay(events[..n]).value.usages, Replay(events).value.usages;
      callId in before ==> callId in after && after[callId] == before[callId]
  {
    if n == |events| {
      assert events[..n] == events;
    } else {
      UsageIsKept(events[..|events| - 1], n, callId);
      assert events[..|events| - 1][..n] == events[..n];
    }
  }

  // ---- lineage ----

  /** The checkpoint `id` followed by each ancestor. */
  function Lineage(events: seq<Event>, id: Id): seq<StoredCheckpoint> {
    if events == [] || id == Id.Blank then [] else
      var rest, last := events[..|events| - 1], events[|events| - 1].payload;
      if last.Compacted? && last.checkpoint.id == id then [last.checkpoint] + Lineage(rest, last.checkpoint.parentId)
      else Lineage(rest, id)
  }

  /** A complete walk from `id` to a parentless root, through earlier and earlier events. */
  ghost predicate Walk(events: seq<Event>, lineage: seq<StoredCheckpoint>, id: Id, before: nat) {
    if lineage == [] then id == Id.Blank else
      var c := lineage[0];
      && id != Id.Blank && c.id == id && FindCheckpoint(events, id) == Some(c) && c.sequence < before
      && Walk(events, lineage[1..], c.parentId, c.sequence)
  }

  /** In a journal the store wrote, every lineage ends at a root and visits no checkpoint twice. */
  lemma {:induction false} LineageReachesRoot(events: seq<Event>, id: Id)
    requires Written(events) && (id == Id.Blank || id in Replay(events).value.checkpoints)
    ensures Walk(events, Lineage(events, id), id, |events| + 1)
  {
    if id != Id.Blank {
      var rest, last := events[..|events| - 1], events[|events| - 1].payload;
      if last.Compacted? && last.checkpoint.id == id {
        ActiveIsRecorded(rest);
        FindIsRecorded(rest, id);
        LineageReachesRoot(rest, last.checkpoint.parentId);
        WalkKept(events, Lineage(rest, last.checkpoint.parentId), last.checkpoint.parentId, |events|, |events|);
      } else {
        LineageReachesRoot(rest, id);
        WalkKept(events, Lineage(rest, id), id, |events|, |events| + 1);
      }
    }
  }

  lemma {:induction false} WalkKept(events: seq<Event>, lineage: seq<StoredCheckpoint>, id: Id, before: nat, bound: nat)
    requires events != [] && Walk(events[..|events| - 1], lineage, id, before) && before <= bound
    ensures Walk(events, lineage, id, bound)
  {
    if lineage != [] {
      WalkKept(events, lineage[1..], lineage[0].parentId, lineage[0].sequence, lineage[0].sequence);
    }
  }

  /** A walk in progress: `lineage` is behind it, `rest` from `current` on is ahead. */
  ghost predicate WalkState(events: seq<Event>, whole: seq<StoredCheckpoint>, lineage: seq<StoredCheckpoint>,
                            rest: seq<StoredCheckpoint>, current: Id, before: nat) {
    && whole == lineage + rest
    && Walk(events, rest, current, before)
    && forall c :: c in lineage ==> c.sequence >= before && FindCheckpoint(events, c.id) == Some(c)
  }

  lemma WalkStep(events: seq<Event>, whole: seq<StoredCheckpoint>, lineage: seq<StoredCheckpoint>,
                 rest: seq<StoredCheckpoint>, current: Id, before: nat)
    requires WalkState(events, whole, lineage, rest, current, before) && current != Id.Blank
    ensures rest != [] && FindCheckpoint(events, current) == Some(rest[0])
    ensures forall c :: c in lineage ==> c.id != current
    ensures WalkState(events, whole, lineage + [rest[0]], rest[1..], rest[0].parentId, rest[0].sequence)
  {
    ConcatAssoc(lineage, [rest[0]], rest[1..]);
    assert [rest[0]] + rest[1..] == rest;
  }

  /** A lineage is fixed once its checkpoint is on record. */
  lemma LineageIsStable(events: seq<Event>, e: Event, id: Id)
    requires ValidJournal(events + [e]) && id in Replay(events).value.checkpoints
    ensures Lineage(events + [e], id) == Lineage(events, id)
  {
    ReplayAppend(events, e);
    assert (events + [e])[..|events|] == events;
  }

  // ---- the pause, as the journal replays it ----

  /** What an event carries about the automatic pause. */
  datatype Detail = NoDetail | Stamp(failure: Failure) | Pauses(paused: bool)

  function NextPause(s: Pause, p: Payload, d: Detail): Option<Pause> {
    match p
    case CompactionStarted(_, automatic) => Some(s.(pending := Some(automatic), paused := s.paused || automatic))
    case CompactionFailed(_, automatic) =>
      if d.Stamp? && d.failure.automatic == automatic then ReplayFailure(s, d.failure) else None
    case Compacted(_) => if d.Pauses? then Some(UNPAUSED.(paused := d.paused)) else None
    case CheckpointReset(_) => if d.Pauses? then Some(s.(streak := 0, paused := d.paused)) else None
    case _ => Some(s)
  }

  function PauseOf(events: seq<Event>, details: seq<Detail>): Option<Pause>
    requires |events| == |details|
  {
    if events == [] then Some(UNPAUSED) else
      var n := |events| - 1;
      var before := PauseOf(events[..n], details[..n]);
      if before.None? then None else NextPause(before.value, events[n].payload, details[n])
  }

  lemma PauseSnoc(events: seq<Event>, details: seq<Detail>, e: Event, d: Detail)
    requires |events| == |details| && PauseOf(events, details).Some?
    ensures PauseOf(events + [e], details + [d]) == NextPause(PauseOf(events, details).value, e.payload, d)
  {
    SnocInit(events, e);
    SnocInit(details, d);
  }

  function PendingFlag(s: ThreadState): Option<bool> {
    if s.pending.None? then None else Some(s.pending.value.automatic)
  }

  /** Pause and journal agree on what is pending. */
  lemma PendingStaysKnown(s: ThreadState, pause: Pause, e: Event, d: Detail)
    requires Apply(s, e).Some? && pause.pending == PendingFlag(s) && NextPause(pause, e.payload, d).Some?
    ensures NextPause(pause, e.payload, d).value.pending == PendingFlag(Apply(s, e).value)
  {
  }

  lemma StampKeepsKind(pause: Pause, f: Failure)
    ensures Stamped(pause, f).Some? ==> Stamped(pause, f).value.automatic == f.automatic
  {
  }

  lemma FirstEvent(e: Event, d: Detail)
    requires e.sequence == 1 && e.id != Id.Blank && e.payload.ThreadCreated?
    ensures Written([e]) && Replay([e]) == Some(INITIAL_STATE.(revision := 1))
    ensures PauseOf([e], [d]) == Some(UNPAUSED)
  {
    assert [e][..0] == [] && [d][..0] == [];
    assert Replay([]) == Some(INITIAL_STATE) && Written([]);
    assert Apply(INITIAL_STATE, e) == Some(INITIAL_STATE.(revision := 1));
  }

  /** The failure as it is written: normalised, and stamped from the pause it is written under. */
  function Stamped(pause: Pause, f: Failure): Option<Failure> {
    var n := Normalize(f);
    if n.None? then None else Materialize(pause, n.value)
  }

  // ---- the store ----

  class ThreadStore {
    var events: seq<Event>
    var details: seq<Detail>        // what event `i` carries about the pause

    ghost predicate Valid()
      reads this
    {
      && events != [] && Written(events) && |details| == |events|
      && PauseOf(events, details).Some?
      && PauseOf(events, details).value.pending == PendingFlag(Replay(events).value)
    }

    constructor (eventId: Id)
      requires eventId != Id.Blank
      ensures Valid() && State().revision == 1 && CurrentPause() == UNPAUSED
    {
      var e := Event(1, eventId, ThreadCreated);
      events, details := [e], [NoDetail];
      new;
      FirstEvent(e, NoDetail);
    }

    function State(): ThreadState
      reads this
      requires Valid()
    {
      Replay(events).value
    }

    function CurrentPause(): Pause
      reads this
      requires Valid()
    {
      PauseOf(events, details).value
    }

    /** What a finished call left behind: one more event, or nothing at all. */
    ghost predicate Recorded(before: seq<Event>, eventId: Id, outcome: Result<Payload, StoreError>,
                             r: Result<ThreadState, StoreError>)
      reads this
    {
      && Valid() && Replay(before).Some?
      && match outcome
         case Err(e) => events == before && r == Err(e)
         case Ok(p) => events == before + [NextEvent(Replay(before).value, eventId, p)] && r == Ok(State())
    }

    method Append(eventId: Id, p: Payload, d: Detail) returns (s: ThreadState)
      requires Valid() && Replays(State(), eventId, p) && NextPause(CurrentPause(), p, d).Some?
      requires p.Compacted? ==> p.checkpoint.parentId == State().activeCheckpoint
      modifies this
      ensures Recorded(old(events), eventId, Ok(p), Ok(s))
      ensures details == old(details) + [d] && CurrentPause() == NextPause(old(CurrentPause()), p, d).value
    {
      hide Apply, NextPause, PauseOf;
      var e := NextEvent(State(), eventId, p);
      WrittenAppend(events, State(), eventId, p);
      PauseSnoc(events, details, e, d);
      PendingStaysKnown(State(), CurrentPause(), e, d);
      events, details := events + [e], details + [d];
      s := State();
    }

    method StartCompaction(expected: nat, op: Id, automatic: bool, eventId: Id)
      returns (r: Result<ThreadState, StoreError>)
      requires Valid() && eventId != Id.Blank
      modifies this
      ensures Recorded(old(events), eventId, StartOutcome(old(State()), expected, op, automatic), r)
      ensures CurrentPause() == if r.Ok? then After(old(CurrentPause()), Started(automatic)) else old(CurrentPause())
    {
      if op == Id.Blank {
        return Err(BlankOperation);
      }
      if expected != State().revision {
        return Err(RevisionConflict);
      }
      if State().archived {
        return Err(ThreadIsArchived);
      }
      if op in State().operations {
        return Err(DuplicateOperation);
      }
      if State().pending.Some? {
        return Err(AlreadyPending);
      }
      var s := Append(eventId, CompactionStarted(op, automatic), NoDetail);
      r := Ok(s);
    }

    /** A failure is stamped from the streak and the pause it is written under, never from what its
        session has seen. */
    method RecordCompactionFailure(expected: nat, op: Id, f: Failure, eventId: Id)
      returns (r: Result<ThreadState, StoreError>)
      requires Valid() && eventId != Id.Blank
      modifies this
      ensures Recorded(old(events), eventId,
                       if Normalize(f).None? then Err(InvalidFailure)
                       else FailureOutcome(old(State()), expected, op, f.automatic), r)
      ensures r.Ok? ==> Stamped(old(CurrentPause()), f).Some?
                        && details == old(details) + [Stamp(Stamped(old(CurrentPause()), f).value)]
      ensures r.Err? ==> details == old(details)
      ensures CurrentPause() == if r.Ok? then After(old(CurrentPause()), Failed(f)) else old(CurrentPause())
    {
      var input := Normalize(f);
      if input.None? {
        return Err(InvalidFailure);
      }
      var automatic := input.value.automatic;
      WriteGuardsMatchReplay(events, eventId, expected, op, automatic);
      if expected != State().revision {
        return Err(RevisionConflict);
      }
      var pending := State().pending;
      if pending.Some? {
        if op != pending.value.operation || automatic != pending.value.automatic {
          return Err(OperationMismatch);
        }
      } else if op != Id.Blank && op in State().operations {
        return Err(DuplicateOperation);
      }
      RecordedFailuresReplay(CurrentPause(), f);
      StampKeepsKind(CurrentPause(), f);
      var stamp := Materialize(CurrentPause(), input.value);
      var s := Append(eventId, CompactionFailed(op, automatic), Stamp(stamp.value));
      r := Ok(s);
    }

    method FinishCompaction(op: Id, f: Failure, eventId: Id) returns (r: Result<ThreadState, StoreError>)
      requires Valid() && eventId != Id.Blank
      modifies this
      ensures Recorded(old(events), eventId,
                       if Normalize(f).None? then Err(InvalidFailure)
                       else FinishOutcome(old(State()), op, f.automatic), r)
      ensures r.Ok? ==> Stamped(old(CurrentPause()), f).Some?
                        && details == old(details) + [Stamp(Stamped(old(CurrentPause()), f).value)]
      ensures r.Err? ==> details == old(details)
      ensures CurrentPause() == if r.Ok? then After(old(CurrentPause()), Failed(f)) else old(CurrentPause())
    {
      var input := Normalize(f);
      if input.None? {
        return Err(InvalidFailure);
      }
      var automatic := input.value.automatic;
      if op == Id.Blank {
        return Err(BlankOperation);
      }
      var pending := State().pending;
      if pending.None? {
        return Err(OperationNotPending);
      }
      if op != pending.value.operation || automatic != pending.value.automatic {
        return Err(OperationNotPending);
      }
      RecordedFailuresReplay(CurrentPause(), f);
      StampKeepsKind(CurrentPause(), f);
      var stamp := Materialize(CurrentPause(), input.value);
      var s := Append(eventId, CompactionFailed(op, automatic), Stamp(stamp.value));
      r := Ok(s);
    }

    /** Appends at whatever revision is current; a call already on record is not recorded again. */
    method RecordUsage(u: Usage, eventId: Id) returns (r: Result<ThreadState, StoreError>)
      requires Valid() && eventId != Id.Blank
      modifies this
      ensures var outcome := UsageOutcome(old(State()), u);
        if outcome == Ok(None) then events == old(events) && details == old(details) && r == Ok(State())
        else Recorded(old(events), eventId, if outcome.Ok? then Ok(outcome.value.value) else Err(outcome.error), r)
      ensures CurrentPause() == old(CurrentPause())
    {
      if !ValidUsage(u) {
        return Err(InvalidUsage);
      }
      var existing := UsageByCallId(events, u.callId);
      if existing.Some? {
        return if existing.value != u then Err(UsageConflict) else Ok(State());
      }
      var pending := State().pending;
      if u.compaction && u.operation != Id.Blank {
        if pending.None? || u.operation != pending.value.operation {
          return Err(OperationMismatch);
        }
      }
      if !(u.compaction && u.turn == Id.Blank) && !OpenTurn(State(), u.turn) {
        return Err(InvalidUsage);
      }
      var s := Append(eventId, UsageRecorded(u), NoDetail);
      r := Ok(s);
    }

    /** A blank checkpoint id is replaced by a random one; `paused` is the pause flag of the input,
        which sessions leave off. */
    method CommitCheckpoint(expected: nat, input: StoredCheckpoint, paused: bool, randomId: Id, eventId: Id)
      returns (r: Result<ThreadState, StoreError>)
      requires Valid() && eventId != Id.Blank && randomId != Id.Blank
      modifies this
      ensures var c := input.(id := if input.id == Id.Blank then randomId else input.id);
        Recorded(old(events), eventId, CommitOutcome(old(events), old(State()), expected, c), r)
      ensures CurrentPause() == if r.Ok? then UNPAUSED.(paused := paused) else old(CurrentPause())
    {
      if expected != State().revision {
        return Err(RevisionConflict);
      }
      if input.parentId != State().activeCheckpoint {
        return Err(ParentMismatch);
      }
      var pending := State().pending;
      if pending.Some? {
        if input.operationId != pending.value.operation || input.automatic != pending.value.automatic {
          return Err(OperationMismatch);
        }
      } else if input.operationId != Id.Blank {
        return Err(OperationMismatch);
      }
      if input.parentId != Id.Blank {
        var parent := CheckpointFromJournal(events, input.parentId);
        if parent.None? {
          return Err(ParentMissing);
        }
      }
      var c := input.(id := if input.id == Id.Blank then randomId else input.id, sequence := State().revision + 1);
      var existing := CheckpointFromJournal(events, c.id);
      if existing.Some? {
        return Err(DuplicateCheckpoint);
      }
      CommitGuardMatchesReplay(events, eventId, expected, c);
      var s := Append(eventId, Compacted(c), Pauses(paused));
      r := Ok(s);
    }

    /** `explained` says that a pause reason is given. */
    method ResetIncompatibleCheckpoint(expected: nat, checkpoint: Id, paused: bool, explained: bool, eventId: Id)
      returns (r: Result<ThreadState, StoreError>)
      requires Valid() && eventId != Id.Blank
      modifies this
      ensures Recorded(old(events), eventId,
                       if checkpoint != Id.Blank && paused != explained then Err(InvalidReset)
                       else ResetOutcome(old(State()), expected, checkpoint), r)
      ensures CurrentPause() ==
              if r.Ok? then After(old(CurrentPause()), PausePolicy.Reset(paused)) else old(CurrentPause())
    {
      if checkpoint == Id.Blank {
        return Err(BlankCheckpoint);
      }
      if paused != explained {
        return Err(InvalidReset);
      }
      if expected != State().revision {
        return Err(RevisionConflict);
      }
      if State().activeCheckpoint == Id.Blank || State().activeCheckpoint != checkpoint {
        return Err(ResetMismatch);
      }
      var s := Append(eventId, CheckpointReset(checkpoint), Pauses(paused));
      r := Ok(s);
    }

    /** The walk never reports a cycle, and fails only when the first checkpoint does not exist. */
    method LoadCheckpointLineage(id: Id) returns (r: Result<seq<StoredCheckpoint>, StoreError>)
      requires Valid()
      ensures r == if id == Id.Blank then Err(BlankCheckpoint)
                   else if id in State().checkpoints then Ok(Lineage(events, id))
                   else Err(CheckpointNotFound)
    {
      if id == Id.Blank {
        return Err(BlankCheckpoint);
      }
      FindIsRecorded(events, id);
      if id in State().checkpoints {
        LineageReachesRoot(events, id);
      }
      var lineage: seq<StoredCheckpoint>, seen, current := [], {}, id;
      ghost var whole, recorded := Lineage(events, id), id in State().checkpoints;
      ghost var rest: seq<StoredCheckpoint>, before: nat := whole, |events| + 1;
      assert [] + whole == whole;
      while current != Id.Blank
        invariant recorded ==> WalkState(events, whole, lineage, rest, current, before)
        invariant !recorded ==> lineage == [] && current == id
        invariant forall x :: x in seen ==> exists c :: c in lineage && c.id == x
        decreases if recorded then |rest| else 0
      {
        if recorded {
          WalkStep(events, whole, lineage, rest, current, before);
        }
        if current in seen {
          assert false;
          return Err(LineageCycle);
        }
        seen := seen + {current};
        var checkpoint := CheckpointFromJournal(events, current);
        if checkpoint.None? {
          return Err(CheckpointNotFound);
        }
        lineage := lineage + [checkpoint.value];
        current := checkpoint.value.parentId;
        rest, before := rest[1..], rest[0].sequence;
      }
      assert lineage + [] == lineage;
      r := Ok(lineage);
    }
  }
}
