/** What every interleaving of `CompactionProtocol` keeps. */
module CompactionSafety {
  import opened Ids
  import opened CheckpointContract
  import opened Compaction
  import opened ThreadJournal
  import opened TurnGroups
  import opened ThreadStores
  import opened Coverage
  import opened Resume
  import opened CompactionProtocol

  // ---- the invariant ----

  predicate UsageOf(e: Event, op: Id) {
    e.payload.UsageRecorded? && e.payload.usage.operation == op
  }

  /** Between two positions the operation only records its own model calls. */
  ghost predicate OnlyUsage(events: seq<Event>, from: nat, to: nat, op: Id) {
    forall j :: from <= j < to && j < |events| ==> UsageOf(events[j], op)
  }

  /** Every checkpoint follows the start of its own operation with nothing but usage in between. */
  ghost predicate Contiguous(events: seq<Event>) {
    forall j :: 0 <= j < |events| && events[j].payload.Compacted? ==> ContiguousAt(events, j)
  }

  ghost predicate ContiguousAt(events: seq<Event>, j: nat)
    requires j < |events| && events[j].payload.Compacted?
  {
    var c := events[j].payload.checkpoint;
    && c.operationId != Id.Blank
    && exists i :: 0 <= i < j && events[i].payload == CompactionStarted(c.operationId, c.automatic)
                   && OnlyUsage(events, i + 1, j, c.operationId)
  }

  ghost predicate Covers(l: Ledger, events: seq<Event>, m: Memory) {
    exists k :: Agrees(l, events, m, k)
  }

  /** Every checkpoint on record can be resumed. */
  ghost predicate Resumable(l: Ledger, events: seq<Event>) {
    forall id :: ValidJournal(events) && id in State(events).checkpoints ==> HasMemory(l, events, id)
  }

  ghost predicate HasMemory(l: Ledger, events: seq<Event>, id: Id) {
    exists m :: Covers(l, events, m) && ActiveId(m) == id
  }

  ghost predicate Takes(l: Ledger, base: seq<Event>, snapshot: Snapshot, k: nat, b: nat) {
    Agrees(l, base, snapshot.memory, k) && PlansTurns(base, snapshot.plan, k, b)
  }

  ghost predicate SnapshotAt(sys: System, events: seq<Event>, n: nat, snapshot: Snapshot) {
    && n <= |events| && ActiveAt(events, n) == ActiveId(snapshot.memory)
    && exists k, b :: Takes(sys.ledger, events[..n], snapshot, k, b)
  }

  ghost predicate UsagesSeen(events: seq<Event>, op: Id, seen: set<Id>) {
    ValidJournal(events) ==>
      forall id :: id in State(events).usages && State(events).usages[id].operation == op ==> id in seen
  }

  ghost predicate NotStarted(events: seq<Event>, op: Id) {
    ValidJournal(events) ==> op !in State(events).operations
  }

  ghost predicate NotPending(events: seq<Event>, op: Id) {
    ValidJournal(events) ==> State(events).pending.None? || State(events).pending.value.operation != op
  }

  /** Nobody else starts the operation, so if it is pending it is pending as its owner started it. */
  ghost predicate PendingMatches(events: seq<Event>, op: Id, automatic: bool) {
    ValidJournal(events) && State(events).pending.Some? && State(events).pending.value.operation == op ==>
      State(events).pending.value.automatic == automatic
  }

  ghost predicate RunningOk(sys: System, events: seq<Event>, p: Phase)
    requires p.Running?
  {
    && 1 <= p.start <= p.rev <= |events| && events[p.start - 1].payload == CompactionStarted(p.op, p.automatic)
    && SnapshotAt(sys, events, p.start - 1, p.snapshot)
    && (!p.stale ==> OnlyUsage(events, p.start, p.rev, p.op))
    && UsagesSeen(events, p.op, p.seen) && PendingMatches(events, p.op, p.automatic)
  }

  ghost predicate PhaseOk(sys: System, events: seq<Event>, p: Phase) {
    match p
    case Idle => true
    case Loaded(op, _, rev) => rev <= |events| && NotStarted(events, op)
    case Planned(op, _, rev, base, snapshot) =>
      && rev <= base <= |events| && NotStarted(events, op)
      && (rev == base ==> SnapshotAt(sys, events, base, snapshot))
    case Running(_, _, _, _, _, _, _, _) => RunningOk(sys, events, p)
    case Failing(op, automatic, rev) => rev <= |events| && PendingMatches(events, op, automatic)
    case Reloading(op, automatic, rev) => rev <= |events| && PendingMatches(events, op, automatic)
    case Finishing(op, automatic, rev) => rev <= |events| && PendingMatches(events, op, automatic)
    case Settled(op) => NotPending(events, op)
  }

  ghost predicate SessionOk(sys: System, events: seq<Event>, s: Session) {
    Covers(sys.ledger, events, s.memory) && PhaseOk(sys, events, s.phase)
  }

  ghost predicate JournalOk(sys: System, events: seq<Event>) {
    events != [] && Ledgered(events) && Contiguous(events) && Resumable(sys.ledger, events)
  }

  ghost predicate OpsOk(w: World) {
    && (ValidJournal(w.events) ==> State(w.events).operations <= w.usedOps)
    && (forall i :: 0 <= i < |w.sessions| && !w.sessions[i].phase.Idle? ==>
          w.sessions[i].phase.op in w.usedOps && w.sessions[i].phase.op != Id.Blank)
    && (forall i, j :: 0 <= i < j < |w.sessions| && !w.sessions[i].phase.Idle? && !w.sessions[j].phase.Idle? ==>
          w.sessions[i].phase.op != w.sessions[j].phase.op)
  }

  ghost predicate Inv(sys: System, w: World) {
    && JournalOk(sys, w.events) && OpsOk(w)
    && forall i :: 0 <= i < |w.sessions| ==> SessionOk(sys, w.events, w.sessions[i])
  }

  // ---- appending one event ----

  /** A legal append: the event applies, its id is fresh, and a checkpoint extends the active one. */
  ghost predicate Legal(events: seq<Event>, id: Id, p: Payload) {
    && events != [] && Ledgered(events) && id != Id.Blank && id !in EventIds(events)
    && Replays(State(events), id, p)
    && (p.Compacted? ==> p.checkpoint.parentId == State(events).activeCheckpoint)
  }

  lemma LegalAppend(events: seq<Event>, id: Id, p: Payload)
    requires Legal(events, id, p)
    ensures var e := NextEvent(State(events), id, p); var after := Append(events, id, p);
      after == events + [e] && Ledgered(after) && Replay(after) == Apply(State(events), e)
  {
    var e := NextEvent(State(events), id, p);
    WrittenAppend(events, State(events), id, p);
    SnocInit(events, e);
    CanonicalConcat(EventIds(events), [id]);
  }

  lemma CoversStays(l: Ledger, events: seq<Event>, id: Id, p: Payload, m: Memory)
    requires Legal(events, id, p) && Covers(l, events, m)
    ensures Covers(l, Append(events, id, p), m)
  {
    LegalAppend(events, id, p);
    var k :| Agrees(l, events, m, k);
    AgreementIsStable(l, events, NextEvent(State(events), id, p), m, k);
  }

  lemma SnapshotStays(sys: System, events: seq<Event>, e: Event, n: nat, snapshot: Snapshot)
    requires SnapshotAt(sys, events, n, snapshot)
    ensures SnapshotAt(sys, events + [e], n, snapshot)
  {
    assert (events + [e])[..n] == events[..n];
  }

  lemma ContiguousStays(events: seq<Event>, e: Event)
    requires Contiguous(events)
    requires e.payload.Compacted? ==> ContiguousAt(events + [e], |events|)
    ensures Contiguous(events + [e])
  {
    var after := events + [e];
    forall j | 0 <= j < |after| && after[j].payload.Compacted? ensures ContiguousAt(after, j) {
      if j < |events| {
        assert after[j] == events[j] && ContiguousAt(events, j);
        var c := events[j].payload.checkpoint;
        var i :| 0 <= i < j && events[i].payload == CompactionStarted(c.operationId, c.automatic)
          && OnlyUsage(events, i + 1, j, c.operationId);
        assert after[i] == events[i] && OnlyUsage(after, i + 1, j, c.operationId);
      }
    }
  }

  lemma HasMemoryStays(l: Ledger, events: seq<Event>, id: Id, p: Payload, checkpoint: Id)
    requires Legal(events, id, p) && HasMemory(l, events, checkpoint)
    ensures HasMemory(l, Append(events, id, p), checkpoint)
  {
    var m :| Covers(l, events, m) && ActiveId(m) == checkpoint;
    CoversStays(l, events, id, p, m);
  }

  lemma CheckpointsGrow(events: seq<Event>, id: Id, p: Payload)
    requires Legal(events, id, p)
    ensures ValidJournal(Append(events, id, p))
    ensures State(Append(events, id, p)).checkpoints ==
            State(events).checkpoints + if p.Compacted? then {p.checkpoint.id} else {}
  {
    LegalAppend(events, id, p);
  }

  lemma ResumableStays(l: Ledger, events: seq<Event>, id: Id, p: Payload)
    requires Legal(events, id, p) && Resumable(l, events)
    requires p.Compacted? ==> HasMemory(l, Append(events, id, p), p.checkpoint.id)
    ensures Resumable(l, Append(events, id, p))
  {
    CheckpointsGrow(events, id, p);
    hide HasMemory, Apply, Replay, Written, EventIds;
    var after := Append(events, id, p);
    forall checkpoint | checkpoint in State(after).checkpoints ensures HasMemory(l, after, checkpoint) {
      if checkpoint in State(events).checkpoints {
        HasMemoryStays(l, events, id, p, checkpoint);
      }
    }
  }

  /** An event that says nothing about `op` except, perhaps, that it failed. */
  predicate Unrelated(p: Payload, op: Id) {
    match p
    case CompactionStarted(other, _) => other != op
    case UsageRecorded(u) => u.operation != op
    case _ => true
  }

  /** What an unrelated event cannot change about an operation. */
  lemma OperationStays(events: seq<Event>, id: Id, p: Payload, op: Id, automatic: bool, seen: set<Id>)
    requires Legal(events, id, p) && Unrelated(p, op)
    ensures UsagesSeen(events, op, seen) ==> UsagesSeen(Append(events, id, p), op, seen)
    ensures PendingMatches(events, op, automatic) ==> PendingMatches(Append(events, id, p), op, automatic)
    ensures NotPending(events, op) ==> NotPending(Append(events, id, p), op)
  {
    LegalAppend(events, id, p);
  }

  lemma NotStartedStays(events: seq<Event>, id: Id, p: Payload, op: Id)
    requires Legal(events, id, p) && Unrelated(p, op) && NotStarted(events, op)
    requires !p.CompactionFailed? || State(events).pending.Some? || p.operation != op
    ensures NotStarted(Append(events, id, p), op)
  {
    LegalAppend(events, id, p);
    PendingOnRecord(events);
  }

  lemma OnlyUsageStays(events: seq<Event>, e: Event, from: nat, to: nat, op: Id)
    requires to <= |events| && OnlyUsage(events, from, to, op)
    ensures OnlyUsage(events + [e], from, to, op)
  {
  }

  lemma RunningStays(sys: System, events: seq<Event>, id: Id, p: Payload, phase: Phase)
    requires Legal(events, id, p) && phase.Running? && RunningOk(sys, events, phase) && Unrelated(p, phase.op)
    ensures RunningOk(sys, Append(events, id, p), phase)
  {
    hide Unrelated, UsagesSeen, PendingMatches, NotPending, NotStarted, Apply, Replay, StoreGroups, Takes;
    var e := NextEvent(State(events), id, p);
    LegalAppend(events, id, p);
    OperationStays(events, id, p, phase.op, phase.automatic, phase.seen);
    SnapshotStays(sys, events, e, phase.start - 1, phase.snapshot);
    if !phase.stale {
      OnlyUsageStays(events, e, phase.start, phase.rev, phase.op);
    }
  }

  lemma PhaseStays(sys: System, events: seq<Event>, id: Id, p: Payload, phase: Phase)
    requires Legal(events, id, p) && PhaseOk(sys, events, phase)
    requires !phase.Idle? ==> Unrelated(p, phase.op)
    requires phase.Loaded? || phase.Planned? ==>
             !p.CompactionFailed? || State(events).pending.Some? || p.operation != phase.op
    ensures PhaseOk(sys, Append(events, id, p), phase)
  {
    hide Unrelated, UsagesSeen, PendingMatches, NotPending, NotStarted, RunningOk, Apply, Replay, StoreGroups, Takes;
    if phase.Loaded? || phase.Planned? {
      NotStartedStays(events, id, p, phase.op);
      if phase.Planned? && phase.rev == phase.base {
        LegalAppend(events, id, p);
        SnapshotStays(sys, events, NextEvent(State(events), id, p), phase.base, phase.snapshot);
      }
    } else if phase.Running? {
      RunningStays(sys, events, id, p, phase);
    } else if !phase.Idle? {
      OperationStays(events, id, p, phase.op, !phase.Settled? && phase.automatic, {});
    }
  }

  // ---- the steps of one session ----

  predicate Own(p: Payload, op: Id) {
    match p
    case CompactionStarted(o, _) => o == op
    case UsageRecorded(u) => u.operation == op
    case CompactionFailed(o, _) => o == op
    case Compacted(c) => c.operationId == op
    case _ => false
  }

  ghost predicate Sound(sys: System) {
    sys.compactor.h == sys.ledger.h
  }

  /** What a step of a session may do to the journal: nothing, or one legal event of its own. */
  ghost predicate Did(events: seq<Event>, after: seq<Event>, id: Id, p: Option<Payload>, op: Id) {
    if p.None? then after == events
    else Legal(events, id, p.value) && after == Append(events, id, p.value) && Own(p.value, op)
  }

  /** Journal part of the invariant for an event that is not a checkpoint. */
  lemma JournalStays(sys: System, events: seq<Event>, id: Id, p: Payload)
    requires JournalOk(sys, events) && Legal(events, id, p) && !p.Compacted?
    ensures JournalOk(sys, Append(events, id, p))
  {
    LegalAppend(events, id, p);
    ContiguousStays(events, NextEvent(State(events), id, p));
    ResumableStays(sys.ledger, events, id, p);
  }

  lemma {:induction false} UsageOpOnRecord(events: seq<Event>, id: Id)
    requires ValidJournal(events) && id in State(events).usages && State(events).usages[id].operation != Id.Blank
    ensures State(events).usages[id].operation in State(events).operations
  {
    var rest, last := events[..|events| - 1], events[|events| - 1];
    PendingOnRecord(rest);
    if id in State(rest).usages && State(rest).usages[id] == State(events).usages[id] {
      UsageOpOnRecord(rest, id);
    }
  }

  lemma NothingSeenBeforeStart(events: seq<Event>, id: Id, op: Id, automatic: bool)
    requires Legal(events, id, CompactionStarted(op, automatic))
    ensures UsagesSeen(Append(events, id, CompactionStarted(op, automatic)), op, {})
  {
    LegalAppend(events, id, CompactionStarted(op, automatic));
    var usages := State(events).usages;
    forall x | x in usages && usages[x].operation == op ensures false {
      UsageOpOnRecord(events, x);
    }
  }

  lemma StartKeeps(sys: System, events: seq<Event>, s: Session, id: Id) returns (p: Option<Payload>)
    requires JournalOk(sys, events) && SessionOk(sys, events, s) && id != Id.Blank && id !in EventIds(events)
    requires s.phase.Planned? && s.phase.op != Id.Blank && Next(sys, events, s, Start, id).Some?
    ensures var o := Next(sys, events, s, Start, id).value;
      && Did(events, o.events, id, p, s.phase.op) && JournalOk(sys, o.events) && SessionOk(sys, o.events, o.session)
      && (o.session.phase.Idle? || o.session.phase.op == s.phase.op)
  {
    hide Contiguous, Resumable, StoreGroups, EventIds, Covers, Takes;
    var ph := s.phase;
    var r := StartOutcome(State(events), ph.rev, ph.op, ph.automatic);
    WriteGuardsMatchReplay(events, id, ph.rev, ph.op, ph.automatic);
    if r.Err? {
      p := None;
    } else {
      p := Some(r.value);
      LegalAppend(events, id, r.value);
      JournalStays(sys, events, id, r.value);
      CoversStays(sys.ledger, events, id, r.value, s.memory);
      SnapshotStays(sys, events, NextEvent(State(events), id, r.value), |events|, ph.snapshot);
      NothingSeenBeforeStart(events, id, ph.op, ph.automatic);
    }
  }

  lemma SeenAfterCall(events: seq<Event>, id: Id, u: Usage, op: Id, seen: set<Id>)
    requires Legal(events, id, UsageRecorded(u)) && UsagesSeen(events, op, seen)
    ensures UsagesSeen(Append(events, id, UsageRecorded(u)), op, seen + {u.callId})
  {
    LegalAppend(events, id, UsageRecorded(u));
  }

  lemma OnlyUsageGrows(events: seq<Event>, e: Event, from: nat, op: Id)
    requires OnlyUsage(events, from, |events|, op) && UsageOf(e, op)
    ensures OnlyUsage(events + [e], from, |events| + 1, op)
  {
    forall j | from <= j < |events| + 1 ensures UsageOf((events + [e])[j], op) {
      assert j < |events| ==> (events + [e])[j] == events[j];
    }
  }

  lemma PendingMatchesStays(events: seq<Event>, id: Id, p: Payload, op: Id, automatic: bool)
    requires Legal(events, id, p) && PendingMatches(events, op, automatic)
    requires !p.CompactionStarted?
    ensures PendingMatches(Append(events, id, p), op, automatic)
  {
    LegalAppend(events, id, p);
  }

  /** A call is recorded or recognised; unless it shows up as stale, nothing came in between. */
  lemma CallKeeps(sys: System, events: seq<Event>, s: Session, u: Usage, id: Id) returns (p: Option<Payload>)
    requires JournalOk(sys, events) && SessionOk(sys, events, s) && id != Id.Blank && id !in EventIds(events)
    requires s.phase.Running? && s.phase.op != Id.Blank && u.compaction && u.operation == s.phase.op
             && u.turn == Id.Blank
    ensures var o := AfterCall(events, s, u, id);
      && Did(events, o.events, id, p, s.phase.op) && JournalOk(sys, o.events) && SessionOk(sys, o.events, o.session)
      && o.session.phase.Running? && o.session.phase.op == s.phase.op
  {
    hide Unique, GroupIds, SourceIds, StoreGroups, ContextGroups, EventIds, Lineage, Verify;
    var r, ph := UsageOutcome(State(events), u), s.phase;
    p := None;
    if r.Ok? && r.value.Some? {
      UsageGuardMatchesReplay(events, id, u);
      p := r.value;
      LegalAppend(events, id, p.value);
      JournalStays(sys, events, id, p.value);
      CoversStays(sys.ledger, events, id, p.value, s.memory);
      CallMovesPhase(sys, events, s, u, id);
    }
  }

  lemma CallMovesPhase(sys: System, events: seq<Event>, s: Session, u: Usage, id: Id)
    requires s.phase.Running? && RunningOk(sys, events, s.phase) && u.operation == s.phase.op
    requires Legal(events, id, UsageRecorded(u)) && u.callId !in State(events).usages
    requires UsageOutcome(State(events), u) == Ok(Some(UsageRecorded(u)))
    ensures var o := AfterCall(events, s, u, id); PhaseOk(sys, o.events, o.session.phase)
  {
    hide UsagesSeen, PendingMatches, UsageOutcome, UsageOf, Apply, Replay, StoreGroups, Takes;
    var ph, e := s.phase, NextEvent(State(events), id, UsageRecorded(u));
    LegalAppend(events, id, UsageRecorded(u));
    SnapshotStays(sys, events, e, ph.start - 1, ph.snapshot);
    SeenAfterCall(events, id, u, ph.op, ph.seen);
    PendingMatchesStays(events, id, UsageRecorded(u), ph.op, ph.automatic);
    if !ph.stale && ph.rev == |events| {
      assert UsageOf(e, ph.op) by {
        CallIsUsage(e, u, ph.op);
      }
      OnlyUsageGrows(events, e, ph.start, ph.op);
    }
  }

  lemma CallIsUsage(e: Event, u: Usage, op: Id)
    requires e.payload == UsageRecorded(u) && u.operation == op
    ensures UsageOf(e, op)
  {
  }

  /** Closing a compaction: the event applies, and afterwards the operation is not pending. */
  lemma CloseKeeps(sys: System, events: seq<Event>, m: Memory, id: Id, op: Id, automatic: bool)
    requires JournalOk(sys, events) && Covers(sys.ledger, events, m)
             && Legal(events, id, CompactionFailed(op, automatic))
    ensures var after := Append(events, id, CompactionFailed(op, automatic));
      && Did(events, after, id, Some(CompactionFailed(op, automatic)), op) && JournalOk(sys, after)
      && SessionOk(sys, after, Session(m, Settled(op)))
  {
    var p := CompactionFailed(op, automatic);
    LegalAppend(events, id, p);
    JournalStays(sys, events, id, p);
    CoversStays(sys.ledger, events, id, p, m);
  }

  lemma FailureKeeps(sys: System, events: seq<Event>, s: Session, id: Id) returns (p: Option<Payload>)
    requires JournalOk(sys, events) && SessionOk(sys, events, s) && id != Id.Blank && id !in EventIds(events)
    requires !s.phase.Idle? && s.phase.op != Id.Blank && Next(sys, events, s, RecordFailure, id).Some?
    ensures var o := Next(sys, events, s, RecordFailure, id).value;
      && Did(events, o.events, id, p, s.phase.op) && JournalOk(sys, o.events) && SessionOk(sys, o.events, o.session)
      && (o.session.phase.Idle? || o.session.phase.op == s.phase.op)
  {
    hide Contiguous, Resumable, Covers, StoreGroups, EventIds, Apply;
    var ph := s.phase;
    p := None;
    if FailureOutcome(State(events), ph.rev, ph.op, ph.automatic).Ok? {
      WriteGuardsMatchReplay(events, id, ph.rev, ph.op, ph.automatic);
      p := Some(CompactionFailed(ph.op, ph.automatic));
      CloseKeeps(sys, events, s.memory, id, ph.op, ph.automatic);
    }
  }

  lemma FinishOrNotPending(events: seq<Event>, op: Id, automatic: bool)
    requires ValidJournal(events) && op != Id.Blank && PendingMatches(events, op, automatic)
    ensures var r := FinishOutcome(State(events), op, automatic);
      r == Ok(CompactionFailed(op, automatic)) || (r == Err(OperationNotPending) && NotPending(events, op))
  {
  }

  lemma FinishIsLegal(events: seq<Event>, id: Id, op: Id, automatic: bool)
    requires events != [] && Ledgered(events) && id != Id.Blank && id !in EventIds(events)
    requires FinishOutcome(State(events), op, automatic).Ok?
    ensures Legal(events, id, CompactionFailed(op, automatic))
  {
    WriteGuardsMatchReplay(events, id, 0, op, automatic);
  }

  lemma FinishKeeps(sys: System, events: seq<Event>, s: Session, id: Id) returns (p: Option<Payload>)
    requires JournalOk(sys, events) && SessionOk(sys, events, s) && id != Id.Blank && id !in EventIds(events)
    requires !s.phase.Idle? && s.phase.op != Id.Blank && Next(sys, events, s, Finish, id).Some?
    ensures var o := Next(sys, events, s, Finish, id).value;
      && Did(events, o.events, id, p, s.phase.op) && JournalOk(sys, o.events) && SessionOk(sys, o.events, o.session)
      && o.session.phase == Settled(s.phase.op)
  {
    hide Contiguous, Resumable, Covers, StoreGroups, EventIds, FinishOutcome, PendingMatches, NotPending, Legal, Append,
      State;
    var ph := s.phase;
    p := None;
    FinishOrNotPending(events, ph.op, ph.automatic);
    if FinishOutcome(State(events), ph.op, ph.automatic).Ok? {
      FinishIsLegal(events, id, ph.op, ph.automatic);
      p := Some(CompactionFailed(ph.op, ph.automatic));
      CloseKeeps(sys, events, s.memory, id, ph.op, ph.automatic);
    }
  }

  /** A reload that does not find the operation pending has nothing left to close. */
  lemma ReloadKeeps(sys: System, events: seq<Event>, s: Session, id: Id)
    requires ValidJournal(events) && SessionOk(sys, events, s) && Next(sys, events, s, Reload, id).Some?
    ensures var o := Next(sys, events, s, Reload, id).value;
      o.events == events && SessionOk(sys, events, o.session) && o.session.phase.op == s.phase.op
  {
  }

  /** A preflight failure has started nothing. */
  lemma PreflightKeeps(sys: System, events: seq<Event>, s: Session, id: Id)
    requires ValidJournal(events) && SessionOk(sys, events, s) && Next(sys, events, s, PreflightFails, id).Some?
    ensures var o := Next(sys, events, s, PreflightFails, id).value;
      o.events == events && SessionOk(sys, events, o.session) && o.session.phase.op == s.phase.op
  {
    PendingOnRecord(events);
  }

  // ---- loading and planning ----

  /** Whatever checkpoint is on record, verification succeeds and gives a covering memory. */
  lemma LoadCovers(l: Ledger, events: seq<Event>, id: Id)
    requires Ledgered(events) && Resumable(l, events) && (id == Id.Blank || id in State(events).checkpoints)
    ensures LoadMemory(l, events, id).Some?
    ensures Covers(l, events, LoadMemory(l, events, id).value) && ActiveId(LoadMemory(l, events, id).value) == id
  {
    if id == Id.Blank {
      NoCheckpointAgrees(l, events);
    } else {
      assert HasMemory(l, events, id);
      var m :| Covers(l, events, m) && ActiveId(m) == id;
      var k :| Agrees(l, events, m, k);
      JournalContext(events);
      CoverageMerges(ContextGroups(StoreGroups(events)), 0, k);
      UniqueFixpoint(m.coverage);
    }
  }

  lemma PlanKeeps(sys: System, events: seq<Event>, s: Session, a: Action, id: Id)
    requires JournalOk(sys, events) && SessionOk(sys, events, s) && a.Plan? && Next(sys, events, s, a, id).Some?
    ensures var o := Next(sys, events, s, a, id).value;
      o.events == events && SessionOk(sys, events, o.session) && o.session.phase.Planned?
        && o.session.phase.op == s.phase.op
  {
    hide Unique, GroupIds, SourceIds, StoreGroups, ContextGroups, EventIds, Lineage, Verify;
    if s.phase.rev == |events| {
      assert events[..|events|] == events;
      ActiveIsRecorded(events);
      LoadCovers(sys.ledger, events, State(events).activeCheckpoint);
      var m := CompactionMemory(sys.ledger, events, s.memory, State(events).activeCheckpoint).value;
      var k: nat :| Agrees(sys.ledger, events, m, k);
      PlanTakesNextTurns(sys.ledger, events, m, k, a.keep, a.omitted, a.plan);
      assert Takes(sys.ledger, events, Snapshot(m, a.plan), k, k + |a.plan.candidates|);
    }
  }

  // ---- the commit ----

  lemma {:induction false} AgreesLater(l: Ledger, events: seq<Event>, n: nat, m: Memory, k: nat)
    requires Ledgered(events) && n <= |events| && Agrees(l, events[..n], m, k)
    ensures Agrees(l, events, m, k)
  {
    if n == |events| {
      assert events[..n] == events;
    } else {
      var rest, e := events[..|events| - 1], events[|events| - 1];
      InitLast(events);
      assert rest[..n] == events[..n];
      CanonicalParts(EventIds(rest), [e.id]);
      AgreesLater(l, rest, n, m, k);
      AgreementIsStable(l, rest, e, m, k);
    }
  }

  predicate Quiet(p: Payload) {
    p.CompactionStarted? || p.UsageRecorded?
  }

  /** Starting and charging a compaction changes neither the active checkpoint nor the turns. */
  lemma {:induction false} QuietKeepsActive(events: seq<Event>, n: nat)
    requires ValidJournal(events) && n <= |events|
    requires forall j :: n <= j < |events| ==> Quiet(events[j].payload)
    ensures ActiveAt(events, n) == State(events).activeCheckpoint
    ensures ContextGroups(StoreGroups(events[..n])) == ContextGroups(StoreGroups(events))
  {
    ContextGroupsStable(events, n);
    if n == |events| {
      assert events[..n] == events;
    } else {
      var rest := events[..|events| - 1];
      assert rest[..n] == events[..n];
      QuietKeepsActive(rest, n);
    }
  }

  /** Everything a successful commit establishes. */
  ghost predicate Committed(l: Ledger, events: seq<Event>, after: seq<Event>, before: Memory, installed: Memory,
                            stored: StoredCheckpoint, k: nat, b: nat) {
    && Agrees(l, events, before, k) && Agrees(l, after, installed, b) && k < b
    && StoreGroups(after) == StoreGroups(events)
    && var ctx := ContextGroups(StoreGroups(events));
      && b <= |ctx| && stored.sourceEventIds == SourceIds(ctx[k..b])
      && stored.tailStart == (if b < |ctx| then ctx[b].startSequence else 0)
  }

  /** Until it goes stale, a running compaction still describes the journal as it is. */
  lemma SnapshotHolds(sys: System, events: seq<Event>, p: Phase) returns (k: nat, b: nat)
    requires Ledgered(events) && PhaseOk(sys, events, p) && p.Running? && !p.stale && p.rev == |events|
    ensures Takes(sys.ledger, events, p.snapshot, k, b) && ActiveId(p.snapshot.memory) == State(events).activeCheckpoint
  {
    hide Unique, GroupIds, SourceIds, StoreGroups, ContextGroups, EventIds, Lineage, Verify;
    var n := p.start - 1;
    k, b :| Takes(sys.ledger, events[..n], p.snapshot, k, b);
    QuietKeepsActive(events, n);
    AgreesLater(sys.ledger, events, n, p.snapshot.memory, k);
    PlanHolds(events[..n], events, p.snapshot.plan, k, b);
  }

  lemma PlanHolds(base: seq<Event>, events: seq<Event>, plan: CompactionPlan, k: nat, b: nat)
    requires PlansTurns(base, plan, k, b) && ContextGroups(StoreGroups(base)) == ContextGroups(StoreGroups(events))
    ensures PlansTurns(events, plan, k, b)
  {
  }

  function Offered(snapshot: Snapshot, p: Phase, id: Id, cp: Checkpoint, sequence: nat): StoredCheckpoint
    requires p.Running?
  {
    ToStored(snapshot.memory, snapshot.plan.ids, snapshot.plan.tailStart, cp, id, p.op, p.automatic, sequence)
  }

  /** The store takes a checkpoint only at the revision its session last saw. */
  lemma CommitStored(sys: System, events: seq<Event>, s: Session, id: Id, checkpointId: Id, cp: Checkpoint)
    returns (stored: StoredCheckpoint)
    requires JournalOk(sys, events) && ValidJournal(events) && s.phase.Running? && checkpointId != Id.Blank
    requires id != Id.Blank && id !in EventIds(events)
    requires AfterCommit(sys, events, s, checkpointId, cp, id).session.phase.Idle?
    ensures s.phase.rev == |events|
    ensures stored == Offered(s.phase.snapshot, s.phase, checkpointId, cp, |events| + 1)
                      .(parentId := State(events).activeCheckpoint)
    ensures Legal(events, id, Compacted(stored))
    ensures AfterCommit(sys, events, s, checkpointId, cp, id) ==
            Outcome(Append(events, id, Compacted(stored)),
                    Session(Installed(sys.ledger, s.phase.snapshot.memory, cp, stored), Idle))
  {
    hide Contiguous, Resumable, EventIds, Installed;
    var ph := s.phase;
    assert events[..|events|] == events;
    stored := Offered(ph.snapshot, ph, checkpointId, cp, |events| + 1).(parentId := State(events).activeCheckpoint);
    CommitGuardMatchesReplay(events, id, ph.rev, stored);
  }

  /** A checkpoint that commits was built from exactly the next uncovered turns of the journal it
      lands in, and the session's merged memory is what a resume of the new journal rebuilds. */
  lemma CommitInstalls(sys: System, events: seq<Event>, s: Session, id: Id, checkpointId: Id, r: CompactionRequest,
                       cp: Checkpoint)
    returns (stored: StoredCheckpoint, k: nat, b: nat)
    requires Sound(sys) && JournalOk(sys, events) && PhaseOk(sys, events, s.phase) && id != Id.Blank
             && id !in EventIds(events)
    requires s.phase.Running? && !s.phase.stale && s.phase.op != Id.Blank && checkpointId != Id.Blank
    requires RequestFits(s.phase.snapshot, r) && sys.compactor.Certified(r, cp)
    requires AfterCommit(sys, events, s, checkpointId, cp, id).session.phase.Idle?
    ensures s.phase.rev == |events| && stored == Offered(s.phase.snapshot, s.phase, checkpointId, cp, |events| + 1)
    ensures Legal(events, id, Compacted(stored))
    ensures AfterCommit(sys, events, s, checkpointId, cp, id) ==
            Outcome(Append(events, id, Compacted(stored)),
                    Session(Installed(sys.ledger, s.phase.snapshot.memory, cp, stored), Idle))
    ensures Committed(sys.ledger, events, Append(events, id, Compacted(stored)), s.phase.snapshot.memory,
                      Installed(sys.ledger, s.phase.snapshot.memory, cp, stored), stored, k, b)
  {
    hide AfterCommit, Contiguous, Resumable, RunningOk, Legal, RequestFits, Installed, Committed, EventIds, Takes,
      Lineage, Verify, StoreGroups, ContextGroups;
    stored := CommitStored(sys, events, s, id, checkpointId, cp);
    k, b := SnapshotHolds(sys, events, s.phase);
    CommitLands(sys, events, s.phase.snapshot, id, r, cp, stored, k, b);
  }

  lemma CommitLands(sys: System, events: seq<Event>, snapshot: Snapshot, id: Id, r: CompactionRequest, cp: Checkpoint,
                    stored: StoredCheckpoint, k: nat, b: nat)
    requires Sound(sys) && Legal(events, id, Compacted(stored)) && Takes(sys.ledger, events, snapshot, k, b)
    requires RequestFits(snapshot, r) && sys.compactor.Certified(r, cp)
    requires stored == Stored(snapshot, stored, cp, |events| + 1)
    ensures Committed(sys.ledger, events, Append(events, id, Compacted(stored)), snapshot.memory,
                      Installed(sys.ledger, snapshot.memory, cp, stored), stored, k, b)
  {
    CommitLeaves(sys, events, snapshot, id, r, cp, stored, k, b);
    hide Agrees, EventIds, ContextGroups, SourceIds, Lineage, Verify, Installed, Legal, RequestFits, StoreGroups;
  }

  function Stored(snapshot: Snapshot, c: StoredCheckpoint, cp: Checkpoint, sequence: nat): StoredCheckpoint {
    ToStored(snapshot.memory, snapshot.plan.ids, snapshot.plan.tailStart, cp, c.id, c.operationId, c.automatic,
             sequence)
  }

  lemma CommitLeaves(sys: System, events: seq<Event>, snapshot: Snapshot, id: Id, r: CompactionRequest, cp: Checkpoint,
                     stored: StoredCheckpoint, k: nat, b: nat)
    requires Sound(sys) && Legal(events, id, Compacted(stored)) && Takes(sys.ledger, events, snapshot, k, b)
    requires RequestFits(snapshot, r) && sys.compactor.Certified(r, cp)
    requires stored == Stored(snapshot, stored, cp, |events| + 1)
    ensures var after := Append(events, id, Compacted(stored));
      && Agrees(sys.ledger, after, Installed(sys.ledger, snapshot.memory, cp, stored), b)
      && StoreGroups(after) == StoreGroups(events)
  {
    LegalAppend(events, id, Compacted(stored));
    var e := NextEvent(State(events), id, Compacted(stored));
    CommitAgrees(sys.ledger, sys.compactor, events, e, snapshot.memory, k, b, r, cp, stored);
    NewLineage(sys.ledger, events, e, snapshot.memory, stored);
  }

  /** The journal from the start of the operation to its checkpoint. */
  lemma CommitIsContiguous(events: seq<Event>, e: Event, p: Phase, stored: StoredCheckpoint)
    requires p.Running? && 1 <= p.start <= |events|
             && events[p.start - 1].payload == CompactionStarted(p.op, p.automatic)
    requires OnlyUsage(events, p.start, |events|, p.op) && p.op != Id.Blank
    requires e.payload == Compacted(stored) && stored.operationId == p.op && stored.automatic == p.automatic
    ensures ContiguousAt(events + [e], |events|)
  {
    var after := events + [e];
    OnlyUsageStays(events, e, p.start, |events|, p.op);
    assert after[p.start - 1] == events[p.start - 1] && after[|events|] == e;
    assert OnlyUsage(after, p.start - 1 + 1, |events|, p.op);
  }

  lemma CommitRefused(sys: System, events: seq<Event>, s: Session, id: Id, checkpointId: Id, cp: Checkpoint)
    requires ValidJournal(events) && s.phase.Running? && PhaseOk(sys, events, s.phase)
    requires !AfterCommit(sys, events, s, checkpointId, cp, id).session.phase.Idle?
    ensures var o := AfterCommit(sys, events, s, checkpointId, cp, id);
      && o.events == events && o.session.memory == s.memory
      && PhaseOk(sys, events, o.session.phase) && o.session.phase.op == s.phase.op
  {
    hide StoreGroups, CommitOutcome, SnapshotAt;
  }

  lemma CommitSucceeds(sys: System, events: seq<Event>, s: Session, id: Id, checkpointId: Id, r: CompactionRequest,
                       cp: Checkpoint)
    returns (stored: StoredCheckpoint)
    requires Sound(sys) && JournalOk(sys, events) && PhaseOk(sys, events, s.phase) && id != Id.Blank
             && id !in EventIds(events)
    requires s.phase.Running? && !s.phase.stale && s.phase.op != Id.Blank && checkpointId != Id.Blank
    requires RequestFits(s.phase.snapshot, r) && sys.compactor.Certified(r, cp)
    requires AfterCommit(sys, events, s, checkpointId, cp, id).session.phase.Idle?
    ensures var o := AfterCommit(sys, events, s, checkpointId, cp, id);
      && Legal(events, id, Compacted(stored)) && o.events == Append(events, id, Compacted(stored))
      && stored.operationId == s.phase.op
      && JournalOk(sys, o.events) && Covers(sys.ledger, o.events, o.session.memory)
  {
    var k, b;
    stored, k, b := CommitInstalls(sys, events, s, id, checkpointId, r, cp);
    hide Committed, StoreGroups, AfterCommit, EventIds, Installed, Agrees, Contiguous, Resumable, Apply, RunningOk;
    CommitFacts(sys, events, s.phase, id, cp, stored, k, b);
  }

  lemma CommitKeeps(sys: System, events: seq<Event>, s: Session, id: Id, checkpointId: Id, r: CompactionRequest,
                    cp: Checkpoint)
    returns (p: Option<Payload>)
    requires Sound(sys) && JournalOk(sys, events) && SessionOk(sys, events, s) && id != Id.Blank
             && id !in EventIds(events)
    requires s.phase.Running? && !s.phase.stale && s.phase.op != Id.Blank && checkpointId != Id.Blank
    requires RequestFits(s.phase.snapshot, r) && sys.compactor.Certified(r, cp)
    ensures var o := AfterCommit(sys, events, s, checkpointId, cp, id);
      && Did(events, o.events, id, p, s.phase.op) && JournalOk(sys, o.events) && SessionOk(sys, o.events, o.session)
      && (o.session.phase.Idle? || o.session.phase.op == s.phase.op)
  {
    hide AfterCommit, Legal, Covers, RunningOk, RequestFits, Contiguous, Resumable, EventIds;
    p := None;
    if AfterCommit(sys, events, s, checkpointId, cp, id).session.phase.Idle? {
      var stored := CommitSucceeds(sys, events, s, id, checkpointId, r, cp);
      p := Some(Compacted(stored));
    } else {
      CommitRefused(sys, events, s, id, checkpointId, cp);
    }
  }

  lemma CommitFacts(sys: System, events: seq<Event>, p: Phase, id: Id, cp: Checkpoint, stored: StoredCheckpoint, k: nat,
                    b: nat)
    requires JournalOk(sys, events) && p.Running? && !p.stale && RunningOk(sys, events, p) && p.op != Id.Blank
    requires p.rev == |events| && stored.operationId == p.op && stored.automatic == p.automatic
    requires Legal(events, id, Compacted(stored))
    requires Committed(sys.ledger, events, Append(events, id, Compacted(stored)), p.snapshot.memory,
                       Installed(sys.ledger, p.snapshot.memory, cp, stored), stored, k, b)
    ensures JournalOk(sys, Append(events, id, Compacted(stored)))
    ensures Covers(sys.ledger, Append(events, id, Compacted(stored)),
                   Installed(sys.ledger, p.snapshot.memory, cp, stored))
  {
    hide StoreGroups, Takes, EventIds, Agrees, Apply;
    var m, e := Installed(sys.ledger, p.snapshot.memory, cp, stored), NextEvent(State(events), id, Compacted(stored));
    LegalAppend(events, id, Compacted(stored));
    CommitIsContiguous(events, e, p, stored);
    ContiguousStays(events, e);
    assert HasMemory(sys.ledger, events + [e], stored.id) by {
      assert Covers(sys.ledger, events + [e], m);
    }
    ResumableStays(sys.ledger, events, id, Compacted(stored));
  }

  lemma ReopenKeeps(sys: System, events: seq<Event>, s: Session, id: Id)
    requires JournalOk(sys, events)
    ensures var o := Next(sys, events, s, Reopen, id);
      o.Some? && o.value.events == events && SessionOk(sys, events, o.value.session) && o.value.session.phase.Idle?
  {
    hide Covers, LoadMemory, Contiguous, Resumable, StoreGroups, EventIds;
    ActiveIsRecorded(events);
    LoadCovers(sys.ledger, events, State(events).activeCheckpoint);
  }

  // ---- every step of the system ----

  /** One session's step keeps the journal and itself in order, and touches no other operation. */
  lemma SessionKeeps(sys: System, events: seq<Event>, s: Session, a: Action, id: Id) returns (p: Option<Payload>)
    requires Sound(sys) && JournalOk(sys, events) && SessionOk(sys, events, s) && id != Id.Blank
             && id !in EventIds(events)
    requires Next(sys, events, s, a, id).Some? && (!s.phase.Idle? ==> s.phase.op != Id.Blank)
    requires a.Load? ==> NotStarted(events, a.newOp)
    ensures var o := Next(sys, events, s, a, id).value;
      && Did(events, o.events, id, p, if s.phase.Idle? then Id.Blank else s.phase.op)
      && (p.Some? ==> !s.phase.Idle?)
      && JournalOk(sys, o.events) && SessionOk(sys, o.events, o.session)
      && (o.session.phase.Idle?
          || o.session.phase.op == if a.Load? then a.newOp else if s.phase.Idle? then Id.Blank else s.phase.op)
      && (!o.session.phase.Idle? && !a.Load? ==> !s.phase.Idle?)
  {
    hide Contiguous, Resumable, Covers, StoreGroups, EventIds, Takes, AfterCommit, AfterCall;
    p := None;
    match a {
      case Load(_, _) =>
      case Plan(_, _, _) => PlanKeeps(sys, events, s, a, id);
      case GiveUp =>
      case PreflightFails => PreflightKeeps(sys, events, s, id);
      case Start => p := StartKeeps(sys, events, s, id);
      case RecordCall(u) => p := CallKeeps(sys, events, s, u, id);
      case Commit(cp, r, c) => p := CommitKeeps(sys, events, s, id, cp, r, c);
      case RunFails =>
      case RecordFailure => p := FailureKeeps(sys, events, s, id);
      case Reload => ReloadKeeps(sys, events, s, id);
      case Finish => p := FinishKeeps(sys, events, s, id);
      case Reopen => ReopenKeeps(sys, events, s, id);
    }
  }

  /** A session that did not move is undisturbed by another one's event. */
  lemma OtherKeeps(sys: System, events: seq<Event>, after: seq<Event>, id: Id, p: Option<Payload>, op: Id,
                   other: Session)
    requires Ledgered(events) && Did(events, after, id, p, op) && SessionOk(sys, events, other)
    requires p.Some? && !other.phase.Idle? ==> other.phase.op != op
    ensures SessionOk(sys, after, other)
  {
    if p.Some? {
      CoversStays(sys.ledger, events, id, p.value, other.memory);
      PhaseStays(sys, events, id, p.value, other.phase);
    }
  }

  lemma OutsideKeepsSession(sys: System, events: seq<Event>, id: Id, p: Payload, s: Session)
    requires Legal(events, id, p) && Outside(State(events), p) && SessionOk(sys, events, s)
    requires !s.phase.Idle? ==> s.phase.op != Id.Blank
    ensures SessionOk(sys, Append(events, id, p), s)
  {
    CoversStays(sys.ledger, events, id, p, s.memory);
    PhaseStays(sys, events, id, p, s.phase);
  }

  /** The operation ids on record grow by at most the event's own. */
  lemma OperationsGrow(events: seq<Event>, id: Id, p: Payload)
    requires Legal(events, id, p)
    ensures ValidJournal(Append(events, id, p))
    ensures var before, after := State(events).operations, State(Append(events, id, p)).operations;
      match p
      case CompactionStarted(op, _) => after == before + {op}
      case CompactionFailed(op, _) => after <= before + {op} && (State(events).pending.Some? ==> after == before)
      case _ => after == before
  {
    LegalAppend(events, id, p);
  }

  lemma OutsideKeeps(sys: System, w: World, w': World, id: Id, p: Payload)
    requires Inv(sys, w) && OutsideStep(w, w', id, p)
    ensures Inv(sys, w')
  {
    assert Legal(w.events, id, p);
    JournalStays(sys, w.events, id, p);
    OperationsGrow(w.events, id, p);
    forall i | 0 <= i < |w'.sessions| ensures SessionOk(sys, w'.events, w'.sessions[i]) {
      OutsideKeepsSession(sys, w.events, id, p, w.sessions[i]);
    }
  }

  lemma SessionStepKeeps(sys: System, w: World, w': World, i: nat, a: Action, id: Id) returns (p: Option<Payload>)
    requires Sound(sys) && Inv(sys, w) && SessionStep(sys, w, w', i, a, id)
    ensures Inv(sys, w')
    ensures Did(w.events, w'.events, id, p, if w.sessions[i].phase.Idle? then Id.Blank else w.sessions[i].phase.op)
  {
    hide JournalOk, SessionOk, Legal, Ledgered, Next, EventIds;
    var s := w.sessions[i];
    p := ActorKeeps(sys, w, w', i, a, id);
    forall j | 0 <= j < |w'.sessions| ensures SessionOk(sys, w'.events, w'.sessions[j]) {
      if j != i {
        OthersKeep(sys, w, w', i, j, id, p);
      }
    }
    OpsStay(w, w', i, a, id, p);
  }

  lemma ActorKeeps(sys: System, w: World, w': World, i: nat, a: Action, id: Id) returns (p: Option<Payload>)
    requires Sound(sys) && Inv(sys, w) && SessionStep(sys, w, w', i, a, id)
    ensures JournalOk(sys, w'.events) && SessionOk(sys, w'.events, w'.sessions[i]) && Moves(w, w', i, a, id, p)
  {
    hide Contiguous, Resumable, Covers, PhaseOk, Next, EventIds;
    p := SessionKeeps(sys, w.events, w.sessions[i], a, id);
  }

  /** The bookkeeping of a session step, without what the store or the session contain. */
  ghost predicate Moves(w: World, w': World, i: nat, a: Action, id: Id, p: Option<Payload>) {
    && i < |w.sessions| == |w'.sessions| && w' == World(w'.events, w'.usedOps, w.sessions[i := w'.sessions[i]])
    && w'.usedOps == (if a.Load? then w.usedOps + {a.newOp} else w.usedOps)
    && (a.Load? ==> a.newOp != Id.Blank && a.newOp !in w.usedOps)
    && var s, s' := w.sessions[i].phase, w'.sessions[i].phase;
      && Did(w.events, w'.events, id, p, if s.Idle? then Id.Blank else s.op)
      && (p.Some? ==> !s.Idle?)
      && (!s'.Idle? ==> a.Load? || !s.Idle?)
      && (!s'.Idle? ==> s'.op == if a.Load? then a.newOp else s.op)
  }

  lemma OthersKeep(sys: System, w: World, w': World, i: nat, j: nat, id: Id, p: Option<Payload>)
    requires Inv(sys, w) && i < |w.sessions| && j < |w.sessions| && i != j
    requires Did(w.events, w'.events, id, p, if w.sessions[i].phase.Idle? then Id.Blank else w.sessions[i].phase.op)
    requires p.Some? ==> !w.sessions[i].phase.Idle?
    ensures SessionOk(sys, w'.events, w.sessions[j])
  {
    var op := if w.sessions[i].phase.Idle? then Id.Blank else w.sessions[i].phase.op;
    OtherKeeps(sys, w.events, w'.events, id, p, op, w.sessions[j]);
  }

  lemma OpsStay(w: World, w': World, i: nat, a: Action, id: Id, p: Option<Payload>)
    requires OpsOk(w) && Moves(w, w', i, a, id, p) && ValidJournal(w.events)
    ensures OpsOk(w')
  {
    if p.Some? {
      OperationsGrow(w.events, id, p.value);
    }
  }

  lemma InitIsOk(sys: System, w: World)
    requires Init(w)
    ensures Inv(sys, w)
  {
    var events := w.events;
    assert events[..0] == [];
    assert EventIds([]) == [];
    assert events[0].payload.ThreadCreated?;
    NoCheckpointAgrees(sys.ledger, events);
    assert Covers(sys.ledger, events, NO_CHECKPOINT);
  }

  lemma StepKeeps(sys: System, w: World, w': World)
    requires Sound(sys) && Inv(sys, w) && Step(sys, w, w')
    ensures Inv(sys, w')
  {
    if exists id, p :: OutsideStep(w, w', id, p) {
      var id, p :| OutsideStep(w, w', id, p);
      OutsideKeeps(sys, w, w', id, p);
    } else {
      var i, a, id :| SessionStep(sys, w, w', i, a, id);
      var p := SessionStepKeeps(sys, w, w', i, a, id);
    }
  }

  /** Every world of every run keeps the invariant. */
  lemma {:induction false} RunsAreSafe(sys: System, run: seq<World>, n: nat)
    requires Sound(sys) && Run(sys, run) && n < |run|
    ensures Inv(sys, run[n])
  {
    hide Inv, Step, Init;
    if n == 0 {
      InitIsOk(sys, run[0]);
    } else {
      RunsAreSafe(sys, run, n - 1);
      StepKeeps(sys, run[n - 1], run[n]);
    }
  }

  // ---- what that means ----

  /** In every interleaving a checkpoint that commits is preceded by the start of its operation,
      and by nothing but model calls of that operation in between. */
  lemma CheckpointsAreContiguous(sys: System, run: seq<World>, n: nat, j: nat)
    requires Sound(sys) && Run(sys, run) && n < |run|
    requires j < |run[n].events| && run[n].events[j].payload.Compacted?
    ensures ContiguousAt(run[n].events, j)
  {
    RunsAreSafe(sys, run, n);
  }

  /** When the failure path has returned without a store error, its operation is not pending. */
  lemma FailuresAreSettled(sys: System, run: seq<World>, n: nat, i: nat)
    requires Sound(sys) && Run(sys, run) && n < |run| && i < |run[n].sessions| && run[n].sessions[i].phase.Settled?
    ensures ValidJournal(run[n].events)
    ensures
      var pending := State(run[n].events).pending;
      pending.None? || pending.value.operation != run[n].sessions[i].phase.op
  {
    RunsAreSafe(sys, run, n);
    hide Contiguous, Resumable, Covers, StoreGroups, Run, OpsOk, RunningOk;
    assert SessionOk(sys, run[n].events, run[n].sessions[i]);
  }

  /** The failure path writes nothing, or closes its own operation; never another one. */
  lemma FailuresCloseTheirOwn(sys: System, run: seq<World>, n: nat, i: nat, a: Action, id: Id)
    requires Sound(sys) && Run(sys, run) && n + 1 < |run| && SessionStep(sys, run[n], run[n + 1], i, a, id)
    requires a.RecordFailure? || a.Reload? || a.Finish?
    ensures var before, after, p := run[n].events, run[n + 1].events, run[n].sessions[i].phase;
      && !p.Idle? && ValidJournal(before)
      && (after == before || exists automatic :: after == Append(before, id, CompactionFailed(p.op, automatic)))
      && (after != before && State(before).pending.Some? ==> State(before).pending.value.operation == p.op)
  {
    RunsAreSafe(sys, run, n);
  }

  /** What any session holds in memory is exactly what loading its checkpoint from the journal
      rebuilds, and it covers a prefix of the committed turns. */
  lemma LiveAgreesWithResume(sys: System, run: seq<World>, n: nat, i: nat) returns (k: nat)
    requires Sound(sys) && Run(sys, run) && n < |run| && i < |run[n].sessions|
    ensures var events, m := run[n].events, run[n].sessions[i].memory; var ctx := ContextGroups(StoreGroups(events));
      && LoadMemory(sys.ledger, events, ActiveId(m)) == Some(m)
      && k <= |ctx| && CoveredGroups(ctx, m.coverage) == ctx[..k] && UncoveredGroups(ctx, m.coverage) == ctx[k..]
  {
    RunsAreSafe(sys, run, n);
    k := MemoryCovers(sys, run[n], i);
  }

  lemma MemoryCovers(sys: System, w: World, i: nat) returns (k: nat)
    requires Inv(sys, w) && i < |w.sessions|
    ensures var m := w.sessions[i].memory; var ctx := ContextGroups(StoreGroups(w.events));
      && LoadMemory(sys.ledger, w.events, ActiveId(m)) == Some(m)
      && k <= |ctx| && CoveredGroups(ctx, m.coverage) == ctx[..k] && UncoveredGroups(ctx, m.coverage) == ctx[k..]
  {
    hide Contiguous, Resumable, PhaseOk, StoreGroups, ContextGroups, SourceIds, CoveredGroups, UncoveredGroups, Unique;
    var events, m := w.events, w.sessions[i].memory;
    assert SessionOk(sys, events, w.sessions[i]);
    var k' :| Agrees(sys.ledger, events, m, k');
    k := k';
    UncoveredIsSuffix(sys.ledger, events, m, k);
    JournalContext(events);
    CoverageMerges(ContextGroups(StoreGroups(events)), 0, k);
    UniqueFixpoint(m.coverage);
    if ActiveId(m) == Id.Blank {
      BlankMemory(sys.ledger, events);
    }
  }

  lemma BlankMemory(l: Ledger, events: seq<Event>)
    ensures ResumeMemory(l, events, Id.Blank) == Some(NO_CHECKPOINT)
  {
  }

  /** A resume of any reachable journal succeeds, whatever checkpoint is active. */
  lemma ResumeSucceeds(sys: System, run: seq<World>, n: nat)
    requires Sound(sys) && Run(sys, run) && n < |run|
    ensures ValidJournal(run[n].events)
    ensures var events := run[n].events; var active := State(events).activeCheckpoint;
      && Walk(events, Lineage(events, active), active, |events| + 1)
      && LoadMemory(sys.ledger, events, active).Some?
      && ActiveId(LoadMemory(sys.ledger, events, active).value) == active
  {
    RunsAreSafe(sys, run, n);
    var events := run[n].events;
    ActiveIsRecorded(events);
    LineageReachesRoot(events, State(events).activeCheckpoint);
    LoadCovers(sys.ledger, events, State(events).activeCheckpoint);
  }

  /** Each success covers strictly more turns than the memory it started from, and records where
      the first turn left raw begins, or 0 when none is. */
  lemma CommitsMakeProgress(sys: System, run: seq<World>, n: nat, i: nat, a: Action, id: Id)
    returns (stored: StoredCheckpoint, k: nat, b: nat)
    requires Sound(sys) && Run(sys, run) && n + 1 < |run| && SessionStep(sys, run[n], run[n + 1], i, a, id)
    requires a.Commit? && run[n + 1].events != run[n].events
    ensures var before, after := run[n], run[n + 1]; var ctx := ContextGroups(StoreGroups(after.events));
      && before.sessions[i].phase.Running? && after.events == Append(before.events, id, Compacted(stored))
      && k < b <= |ctx| && ctx == ContextGroups(StoreGroups(before.events))
      && UncoveredGroups(ctx, before.sessions[i].phase.snapshot.memory.coverage) == ctx[k..]
      && UncoveredGroups(ctx, after.sessions[i].memory.coverage) == ctx[b..]
      && stored.sourceEventIds == SourceIds(ctx[k..b])
      && stored.tailStart == (if b < |ctx| then ctx[b].startSequence else 0)
  {
    RunsAreSafe(sys, run, n);
    stored, k, b := CommitAdvances(sys, run[n], run[n + 1], i, a, id);
  }

  lemma CommitAdvances(sys: System, w: World, w': World, i: nat, a: Action, id: Id)
    returns (stored: StoredCheckpoint, k: nat, b: nat)
    requires Sound(sys) && Inv(sys, w) && SessionStep(sys, w, w', i, a, id) && a.Commit? && w'.events != w.events
    ensures var ctx := ContextGroups(StoreGroups(w'.events));
      && w.sessions[i].phase.Running? && w'.events == Append(w.events, id, Compacted(stored))
      && k < b <= |ctx| && ctx == ContextGroups(StoreGroups(w.events))
      && UncoveredGroups(ctx, w.sessions[i].phase.snapshot.memory.coverage) == ctx[k..]
      && UncoveredGroups(ctx, w'.sessions[i].memory.coverage) == ctx[b..]
      && stored.sourceEventIds == SourceIds(ctx[k..b])
      && stored.tailStart == (if b < |ctx| then ctx[b].startSequence else 0)
  {
    hide Contiguous, Resumable, StoreGroups, ContextGroups, SourceIds, UncoveredGroups, EventIds, AfterCommit, Covers,
      RunningOk, Agrees, Installed;
    var events, s := w.events, w.sessions[i];
    assert SessionOk(sys, events, s);
    if AfterCommit(sys, events, s, a.checkpointId, a.checkpoint, id).session.phase.Idle? {
      stored, k, b := CommitInstalls(sys, events, s, id, a.checkpointId, a.request, a.checkpoint);
      LegalAppend(events, id, Compacted(stored));
      UncoveredIsSuffix(sys.ledger, events, s.phase.snapshot.memory, k);
      UncoveredIsSuffix(sys.ledger, w'.events, w'.sessions[i].memory, b);
    } else {
      CommitRefused(sys, events, s, id, a.checkpointId, a.checkpoint);
    }
  }

  /** Until something else is written, a running operation stays pending as it was started. */
  lemma {:induction false} PendingSince(events: seq<Event>, start: nat, op: Id, automatic: bool)
    requires ValidJournal(events) && 1 <= start <= |events|
             && events[start - 1].payload == CompactionStarted(op, automatic)
    requires OnlyUsage(events, start, |events|, op)
    ensures State(events).pending == Some(Pending(op, automatic))
  {
    if start < |events| {
      var rest := events[..|events| - 1];
      assert UsageOf(events[|events| - 1], op);
      assert forall j :: start <= j < |rest| ==> rest[j] == events[j] && UsageOf(events[j], op);
      PendingSince(rest, start, op, automatic);
    }
  }

  lemma CommitAccepted(events: seq<Event>, p: Phase, stored: StoredCheckpoint)
    requires Ledgered(events) && p.Running? && stored.id != Id.Blank
    requires State(events).pending == Some(Pending(p.op, p.automatic))
    requires stored.operationId == p.op && stored.automatic == p.automatic
             && stored.parentId == State(events).activeCheckpoint
    ensures CommitOutcome(events, State(events), p.rev, stored).Ok? <==>
            p.rev == |events| && stored.id !in State(events).checkpoints
  {
    hide Apply, Replay, FreshIds;
    FindIsRecorded(events, stored.id);
    FindIsRecorded(events, stored.parentId);
    ActiveIsRecorded(events);
  }

  lemma CommitDecided(sys: System, events: seq<Event>, s: Session, checkpointId: Id, cp: Checkpoint, id: Id)
    requires ValidJournal(events) && Ledgered(events) && s.phase.Running? && RunningOk(sys, events, s.phase)
             && !s.phase.stale && checkpointId != Id.Blank
    ensures AfterCommit(sys, events, s, checkpointId, cp, id).session.phase.Idle? <==>
            s.phase.rev == |events| && checkpointId !in State(events).checkpoints
  {
    hide CommitOutcome, SnapshotAt, UsagesSeen, PendingMatches, Apply, Replay, Written, FreshIds;
    var p := s.phase;
    var stored := Offered(p.snapshot, p, checkpointId, cp, |events| + 1).(parentId := ActiveAt(events, p.rev));
    if p.rev == |events| {
      PendingSince(events, p.start, p.op, p.automatic);
      assert events[..|events|] == events;
      CommitAccepted(events, p, stored);
    } else {
      MovedIsRefused(events, p.rev, stored);
    }
  }

  lemma MovedIsRefused(events: seq<Event>, rev: nat, stored: StoredCheckpoint)
    requires ValidJournal(events) && rev != |events|
    ensures CommitOutcome(events, State(events), rev, stored).Err?
  {
  }

  /** A finished compaction that is not stale is refused only for a reason: something was written
      since its last recorded call, or its checkpoint id is taken. */
  lemma CommitsUnlessMoved(sys: System, run: seq<World>, n: nat, i: nat, checkpointId: Id, cp: Checkpoint, id: Id)
    requires Sound(sys) && Run(sys, run) && n < |run| && i < |run[n].sessions| && checkpointId != Id.Blank
    requires run[n].sessions[i].phase.Running? && !run[n].sessions[i].phase.stale
    ensures var events, s := run[n].events, run[n].sessions[i];
      && ValidJournal(events)
      && (AfterCommit(sys, events, s, checkpointId, cp, id).session.phase.Idle? <==>
            s.phase.rev == |events| && checkpointId !in State(events).checkpoints)
  {
    RunsAreSafe(sys, run, n);
    hide Run, Contiguous, Resumable, Covers, OpsOk, RunningOk, AfterCommit, Replay, Written, FreshIds;
    var events, s := run[n].events, run[n].sessions[i];
    assert SessionOk(sys, events, s);
    CommitDecided(sys, events, s, checkpointId, cp, id);
  }
}
