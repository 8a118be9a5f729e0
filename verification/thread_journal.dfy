/** The append-only session journal of `internal/store`: events, the projection every store call
    recomputes from them, and the turn groups read back from them. */
module ThreadJournal {
  import opened Ids
  import opened Messages
  import opened CheckpointContract

  /** A checkpoint as the ledger keeps it; `payload` is what survives its JSON form. */
  datatype StoredCheckpoint = StoredCheckpoint(
    id: Id, parentId: Id, sequence: nat, sourceEventIds: seq<Id>, sourceHash: Digest,
    tailStart: nat, payload: Checkpoint, automatic: bool, operationId: Id)

  datatype Payload =
    | ThreadCreated
    | TurnStarted(turn: Id)
    | TurnActivity(turn: Id)                         // tool lifecycle inside a turn
    | TaskUpdated(turn: Id)                          // blank outside a turn
    | TurnCommitted(turn: Id, messages: seq<Message>)
    | TurnClosed(turn: Id)                           // cancelled or failed
    | UsageRecorded(usage: Usage)
    | CompactionStarted(operation: Id, automatic: bool)
    | Compacted(checkpoint: StoredCheckpoint)
    | CompactionFailed(operation: Id, automatic: bool)
    | CheckpointReset(checkpointId: Id)
    | Archived | Unarchived | MetadataChanged

  /** One completed model call, of the agent or of the compactor. */
  datatype Usage = Usage(callId: Id, compaction: bool, turn: Id, operation: Id, detail: nat)

  predicate ValidUsage(u: Usage) {
    && u.callId != Id.Blank
    && (!u.compaction ==> u.turn != Id.Blank && u.operation == Id.Blank)
  }

  datatype Event = Event(sequence: nat, id: Id, payload: Payload)

  function TurnOf(p: Payload): Id {
    match p
    case TurnStarted(t) => t
    case TurnActivity(t) => t
    case TaskUpdated(t) => t
    case TurnCommitted(t, _) => t
    case TurnClosed(t) => t
    case UsageRecorded(u) => u.turn
    case _ => Id.Blank
  }

  datatype Pending = Pending(operation: Id, automatic: bool)

  datatype ThreadState = ThreadState(
    revision: nat, activeTurn: Id, turns: set<Id>, archived: bool,
    pending: Option<Pending>, operations: set<Id>, usages: map<Id, Usage>,
    activeCheckpoint: Id, checkpoints: set<Id>)

  const INITIAL_STATE := ThreadState(0, Id.Blank, {}, false, None, {}, map[], Id.Blank, {})

  predicate OpenTurn(s: ThreadState, turn: Id) {
    turn != Id.Blank && s.activeTurn == turn
  }

  /** Lifecycle check and projection of one event; None is a corrupt journal. */
  function Apply(s: ThreadState, e: Event): Option<ThreadState> {
    var next := s.(revision := e.sequence);
    if e.sequence != s.revision + 1 || e.id == Id.Blank || (e.sequence == 1) != e.payload.ThreadCreated? then None else
    match e.payload
    case ThreadCreated => Some(next)
    case TurnStarted(t) =>
      if t == Id.Blank || t in s.turns || s.activeTurn != Id.Blank then None
      else Some(next.(turns := s.turns + {t}, activeTurn := t))
    case TurnActivity(t) => if OpenTurn(s, t) then Some(next) else None
    case TaskUpdated(t) => if t == Id.Blank || OpenTurn(s, t) then Some(next) else None
    case TurnCommitted(t, _) => if OpenTurn(s, t) then Some(next.(activeTurn := Id.Blank)) else None
    case TurnClosed(t) => if OpenTurn(s, t) then Some(next.(activeTurn := Id.Blank)) else None
    case UsageRecorded(u) =>
      if !ValidUsage(u) || ((!u.compaction || u.turn != Id.Blank) && !OpenTurn(s, u.turn)) then None
      else if u.callId in s.usages then (if s.usages[u.callId] == u then Some(next) else None)
      else if u.operation != Id.Blank && (s.pending.None? || s.pending.value.operation != u.operation) then None
      else Some(next.(usages := s.usages[u.callId := u]))
    case CompactionStarted(op, automatic) =>
      if op == Id.Blank || op in s.operations || s.pending.Some? then None
      else Some(next.(operations := s.operations + {op}, pending := Some(Pending(op, automatic))))
    case Compacted(c) =>
      if c.id == Id.Blank || c.id in s.checkpoints || c.sequence != e.sequence then None
      else if s.pending != if c.operationId == Id.Blank then None else Some(Pending(c.operationId, c.automatic))
      then None
      else Some(next.(pending := None, checkpoints := s.checkpoints + {c.id}, activeCheckpoint := c.id))
    case CompactionFailed(op, automatic) =>
      if s.pending.Some? then (if s.pending.value == Pending(op, automatic) then Some(next.(pending := None)) else None)
      else if op != Id.Blank && op in s.operations then None
      else Some(next.(operations := if op == Id.Blank then s.operations else s.operations + {op}))
    case CheckpointReset(id) =>
      if id == Id.Blank || id != s.activeCheckpoint then None else Some(next.(activeCheckpoint := Id.Blank))
    case Archived => Some(next.(archived := true))
    case Unarchived => Some(next.(archived := false))
    case MetadataChanged => Some(next)
  }

  function Replay(events: seq<Event>): (s: Option<ThreadState>)
    ensures s.Some? ==> s.value.revision == |events|
  {
    if events == [] then Some(INITIAL_STATE) else
      var before := Replay(events[..|events| - 1]);
      if before.None? then None else
      var after := Apply(before.value, events[|events| - 1]);
      if after.Some? && after.value.revision == |events| then after else None
  }

  ghost predicate ValidJournal(events: seq<Event>) {
    Replay(events).Some?
  }

  lemma ReplayAppend(events: seq<Event>, e: Event)
    ensures ValidJournal(events + [e]) ==> ValidJournal(events)
    ensures ValidJournal(events) && Apply(Replay(events).value, e).Some? ==>
              Replay(events + [e]) == Apply(Replay(events).value, e)
    ensures ValidJournal(events + [e]) ==> Replay(events + [e]) == Apply(Replay(events).value, e)
  {
    assert (events + [e])[..|events|] == events;
  }

  lemma {:induction false} ReplayPrefix(events: seq<Event>, n: nat)
    requires n <= |events| && ValidJournal(events)
    ensures ValidJournal(events[..n])
  {
    if n == |events| {
      assert events[..n] == events;
    } else {
      ReplayPrefix(events[..|events| - 1], n);
      assert events[..|events| - 1][..n] == events[..n];
    }
  }

  lemma {:induction false} SequenceIsPosition(events: seq<Event>, i: nat)
    requires i < |events| && ValidJournal(events)
    ensures events[i].sequence == i + 1 && events[i].id != Id.Blank
  {
    if i < |events| - 1 {
      SequenceIsPosition(events[..|events| - 1], i);
    }
  }

  // ---- identity of compaction operations over a whole journal ----

  predicate Starts(e: Event, op: Id) {
    e.payload.CompactionStarted? && e.payload.operation == op
  }

  /** The event that ends an operation: its checkpoint or its failure. */
  predicate Ends(e: Event, op: Id) {
    || (e.payload.Compacted? && e.payload.checkpoint.operationId == op)
    || (e.payload.CompactionFailed? && e.payload.operation == op)
  }

  /** Whatever names an operation is on record, and a pending operation has not ended. */
  lemma {:induction false} OperationsOnRecord(events: seq<Event>, i: nat, op: Id)
    requires ValidJournal(events) && i < |events| && op != Id.Blank
    requires Starts(events[i], op) || Ends(events[i], op)
    ensures op in Replay(events).value.operations
    ensures Ends(events[i], op) ==>
            Replay(events).value.pending.None? || Replay(events).value.pending.value.operation != op
  {
    var rest, last := events[..|events| - 1], events[|events| - 1];
    PendingOnRecord(rest);
    if i < |events| - 1 {
      OperationsOnRecord(rest, i, op);
    }
  }

  lemma {:induction false} PendingOnRecord(events: seq<Event>)
    requires ValidJournal(events)
    ensures var s := Replay(events).value;
      s.pending.Some? ==> s.pending.value.operation != Id.Blank && s.pending.value.operation in s.operations
  {
    if events != [] {
      PendingOnRecord(events[..|events| - 1]);
    }
  }

  /** Compaction operations are never restarted and never closed twice, and none starts after it
      ended; between two starts the first one ends. */
  lemma {:induction false} OperationsAreLinear(events: seq<Event>, i: nat, j: nat, op: Id)
    requires ValidJournal(events) && i < j < |events| && op != Id.Blank
    ensures !(Starts(events[i], op) && Starts(events[j], op))
    ensures !(Ends(events[i], op) && Ends(events[j], op))
    ensures !(Ends(events[i], op) && Starts(events[j], op))
  {
    var rest := events[..|events| - 1];
    if j < |events| - 1 {
      OperationsAreLinear(rest, i, j, op);
    } else if Starts(events[i], op) || Ends(events[i], op) {
      OperationsOnRecord(rest, i, op);
      assert rest[i] == events[i];
    }
  }

  /** While an operation is pending its start is the latest start, and nothing has ended it. */
  lemma {:induction false} PendingHasStart(events: seq<Event>) returns (i: nat)
    requires ValidJournal(events) && Replay(events).value.pending.Some?
    ensures i < |events| && Starts(events[i], Replay(events).value.pending.value.operation)
    ensures forall k :: i < k < |events| ==>
      !events[k].payload.CompactionStarted? && !events[k].payload.Compacted? && !events[k].payload.CompactionFailed?
  {
    var rest, last := events[..|events| - 1], events[|events| - 1];
    if last.payload.CompactionStarted? {
      i := |events| - 1;
    } else {
      i := PendingHasStart(rest);
      assert forall k :: 0 <= k < |rest| ==> rest[k] == events[k];
    }
  }

  /** At most one operation is open at a time: between two starts there is an end of the first. */
  lemma {:induction false} StartsDoNotOverlap(events: seq<Event>, i: nat, j: nat, op: Id)
    requires ValidJournal(events) && i < j < |events| && op != Id.Blank
    requires Starts(events[i], op) && events[j].payload.CompactionStarted?
    ensures exists k :: i < k < j && Ends(events[k], op)
  {
    ReplayPrefix(events, j + 1);
    var before := events[..j];
    assert events[..j + 1][..j] == before;
    assert events[..j + 1][j] == events[j];
    OpenUntilEnded(before, i, op);
    var k :| i < k < |before| && Ends(before[k], op);
    assert before[k] == events[k];
  }

  lemma {:induction false} OpenUntilEnded(events: seq<Event>, i: nat, op: Id)
    requires ValidJournal(events) && i < |events| && op != Id.Blank && Starts(events[i], op)
    ensures || (Replay(events).value.pending.Some? && Replay(events).value.pending.value.operation == op)
            || exists k :: i < k < |events| && Ends(events[k], op)
  {
    var n := |events| - 1;
    if i < n {
      var rest := events[..n];
      OpenUntilEnded(rest, i, op);
      if k :| i < k < n && Ends(rest[k], op) {
        assert events[k] == rest[k];
      } else if events[n].payload.Compacted? || events[n].payload.CompactionFailed? {
        assert Ends(events[n], op);
      }
    }
  }

  // ---- turn groups ----

  datatype StoreGroup = StoreGroup(
    turn: Id, startSequence: nat, eventIds: seq<Id>, started: bool, committed: Option<seq<Message>>)

  function IsTurn(turn: Id): StoreGroup -> bool {
    (g: StoreGroup) => g.turn == turn
  }

  function Extend(g: StoreGroup, e: Event): StoreGroup {
    g.(eventIds := g.eventIds + [e.id],
       started := g.started || e.payload.TurnStarted?,
       committed := if e.payload.TurnCommitted? then Some(e.payload.messages) else g.committed)
  }

  function AddEvent(groups: seq<StoreGroup>, e: Event): seq<StoreGroup> {
    var turn := TurnOf(e.payload);
    if turn == Id.Blank then groups else
      var i := FirstIndex(IsTurn(turn), groups);
      if i < |groups| then groups[i := Extend(groups[i], e)]
      else groups + [Extend(StoreGroup(turn, e.sequence, [], false, None), e)]
  }

  /** `turnGroupsFromEvents`, on a whole journal or on any slice of it. */
  function StoreGroups(events: seq<Event>): seq<StoreGroup> {
    if events == [] then [] else AddEvent(StoreGroups(events[..|events| - 1]), events[|events| - 1])
  }

  predicate Complete(g: StoreGroup) {
    g.started && g.committed.Some? && g.committed.value != []
  }

  function ToTurnGroup(g: StoreGroup): TurnGroup
    requires Complete(g)
  {
    TurnGroup(g.turn, g.startSequence, g.eventIds, g.committed.value, [], 0, false, false, [])
  }

  /** `durableContextGroups`: started and committed turns with something to replay. */
  function ContextGroups(groups: seq<StoreGroup>): seq<TurnGroup> {
    if groups == [] then [] else
      var g := groups[|groups| - 1];
      ContextGroups(groups[..|groups| - 1]) + (if Complete(g) then [ToTurnGroup(g)] else [])
  }
}
