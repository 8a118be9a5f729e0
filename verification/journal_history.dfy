/** The lifecycle rules of a session journal, told by its events alone (`internal/store`): which turn is open, which
    compaction is pending, what is on record, and exactly which event may come next. */
module JournalHistory {
  import opened Ids
  import opened ThreadJournal

  predicate StartsTurn(e: Event, turn: Id) {
    e.payload == TurnStarted(turn)
  }

  predicate EndsTurn(e: Event, turn: Id) {
    e.payload == TurnClosed(turn) || (e.payload.TurnCommitted? && e.payload.turn == turn)
  }

  ghost predicate TurnOnRecord(events: seq<Event>, turn: Id) {
    exists i :: 0 <= i < |events| && StartsTurn(events[i], turn)
  }

  ghost predicate OpenFrom(events: seq<Event>, turn: Id, i: int) {
    0 <= i < |events| && StartsTurn(events[i], turn) && forall k :: i < k < |events| ==> !EndsTurn(events[k], turn)
  }

  /** A turn has started and not ended. */
  ghost predicate TurnIsOpen(events: seq<Event>, turn: Id) {
    exists i :: OpenFrom(events, turn, i)
  }

  predicate NamesOperation(e: Event, op: Id) {
    (e.payload.CompactionStarted? || e.payload.CompactionFailed?) && e.payload.operation == op
  }

  ghost predicate OperationOnRecord(events: seq<Event>, op: Id) {
    exists i :: 0 <= i < |events| && NamesOperation(events[i], op)
  }

  ghost predicate PendingFrom(events: seq<Event>, op: Id, automatic: bool, i: int) {
    && 0 <= i < |events| && events[i].payload == CompactionStarted(op, automatic)
    && forall k :: i < k < |events| ==> !events[k].payload.Compacted? && !events[k].payload.CompactionFailed?
  }

  /** A compaction has started, and neither a checkpoint nor a failure came after it. */
  ghost predicate OperationIsPending(events: seq<Event>, op: Id, automatic: bool) {
    exists i :: PendingFrom(events, op, automatic, i)
  }

  predicate Checkpoints(e: Event, id: Id) {
    e.payload.Compacted? && e.payload.checkpoint.id == id
  }

  ghost predicate CheckpointOnRecord(events: seq<Event>, id: Id) {
    exists i :: 0 <= i < |events| && Checkpoints(events[i], id)
  }

  ghost predicate ActiveFrom(events: seq<Event>, id: Id, i: int) {
    && 0 <= i < |events| && Checkpoints(events[i], id)
    && forall k :: i < k < |events| ==> !events[k].payload.Compacted? && !events[k].payload.CheckpointReset?
  }

  /** The newest checkpoint, unless it was reset. */
  ghost predicate CheckpointIsActive(events: seq<Event>, id: Id) {
    exists i :: ActiveFrom(events, id, i)
  }

  ghost predicate UsageOnRecord(events: seq<Event>, u: Usage) {
    exists i :: 0 <= i < |events| && events[i].payload == UsageRecorded(u)
  }

  // ---- the state is a summary of the events ----

  lemma TurnSnoc(events: seq<Event>, turn: Id)
    requires events != []
    ensures var n := |events| - 1; var rest, last := events[..n], events[n];
      && (TurnOnRecord(events, turn) <==> TurnOnRecord(rest, turn) || StartsTurn(last, turn))
      && (TurnIsOpen(events, turn) <==> StartsTurn(last, turn) || (TurnIsOpen(rest, turn) && !EndsTurn(last, turn)))
  {
    var n := |events| - 1;
    var rest, last := events[..n], events[n];
    if StartsTurn(last, turn) {
      assert StartsTurn(events[n], turn) && OpenFrom(events, turn, n);
    }
    if i :| 0 <= i < n && StartsTurn(rest[i], turn) {
      assert StartsTurn(events[i], turn);
    }
    if i :| OpenFrom(rest, turn, i) {
      assert !EndsTurn(last, turn) ==> OpenFrom(events, turn, i);
    }
    if i :| OpenFrom(events, turn, i) {
      assert i < n ==> OpenFrom(rest, turn, i) && !EndsTurn(events[n], turn);
    }
  }

  lemma {:induction false} TurnsAreSummed(events: seq<Event>, turn: Id)
    requires ValidJournal(events) && turn != Id.Blank
    ensures turn in Replay(events).value.turns <==> TurnOnRecord(events, turn)
    ensures Replay(events).value.activeTurn == turn <==> TurnIsOpen(events, turn)
  {
    if events != [] {
      TurnsAreSummed(events[..|events| - 1], turn);
      TurnSnoc(events, turn);
      hide TurnIsOpen, TurnOnRecord;
    }
  }

  predicate EndsPending(e: Event) {
    e.payload.Compacted? || e.payload.CompactionFailed?
  }

  lemma OperationSnoc(events: seq<Event>, op: Id, automatic: bool)
    requires events != []
    ensures var n := |events| - 1; var rest, last := events[..n], events[n];
      && (OperationOnRecord(events, op) <==> OperationOnRecord(rest, op) || NamesOperation(last, op))
      && (OperationIsPending(events, op, automatic) <==>
          (last.payload == CompactionStarted(op, automatic)
           || (OperationIsPending(rest, op, automatic) && !EndsPending(last))))
  {
    var n := |events| - 1;
    var rest, last := events[..n], events[n];
    if NamesOperation(last, op) {
      assert NamesOperation(events[n], op);
    }
    if i :| 0 <= i < n && NamesOperation(rest[i], op) {
      assert NamesOperation(events[i], op);
    }
    if last.payload == CompactionStarted(op, automatic) {
      assert PendingFrom(events, op, automatic, n);
    }
    if i :| PendingFrom(rest, op, automatic, i) {
      assert !EndsPending(last) ==> PendingFrom(events, op, automatic, i);
    }
    if i :| PendingFrom(events, op, automatic, i) {
      assert i < n ==> PendingFrom(rest, op, automatic, i) && !EndsPending(events[n]);
    }
  }

  lemma {:induction false} OperationsAreSummed(events: seq<Event>, op: Id, automatic: bool)
    requires ValidJournal(events) && op != Id.Blank
    ensures op in Replay(events).value.operations <==> OperationOnRecord(events, op)
    ensures Replay(events).value.pending == Some(Pending(op, automatic)) <==> OperationIsPending(events, op, automatic)
  {
    if events != [] {
      OperationsAreSummed(events[..|events| - 1], op, automatic);
      PendingOnRecord(events[..|events| - 1]);
      OperationSnoc(events, op, automatic);
      hide OperationIsPending, OperationOnRecord;
    }
  }

  predicate Replaces(e: Event) {
    e.payload.Compacted? || e.payload.CheckpointReset?
  }

  lemma CheckpointSnoc(events: seq<Event>, id: Id)
    requires events != []
    ensures var n := |events| - 1; var rest, last := events[..n], events[n];
      && (CheckpointOnRecord(events, id) <==> CheckpointOnRecord(rest, id) || Checkpoints(last, id))
      && (CheckpointIsActive(events, id) <==>
          (Checkpoints(last, id) || (CheckpointIsActive(rest, id) && !Replaces(last))))
  {
    var n := |events| - 1;
    var rest, last := events[..n], events[n];
    if Checkpoints(last, id) {
      assert Checkpoints(events[n], id) && ActiveFrom(events, id, n);
    }
    if i :| 0 <= i < n && Checkpoints(rest[i], id) {
      assert Checkpoints(events[i], id);
    }
    if i :| ActiveFrom(rest, id, i) {
      assert !Replaces(last) ==> ActiveFrom(events, id, i);
    }
    if i :| ActiveFrom(events, id, i) {
      assert i < n ==> ActiveFrom(rest, id, i) && !Replaces(events[n]);
    }
  }

  lemma {:induction false} CheckpointsAreSummed(events: seq<Event>, id: Id)
    requires ValidJournal(events) && id != Id.Blank
    ensures id in Replay(events).value.checkpoints <==> CheckpointOnRecord(events, id)
    ensures Replay(events).value.activeCheckpoint == id <==> CheckpointIsActive(events, id)
  {
    if events != [] {
      CheckpointsAreSummed(events[..|events| - 1], id);
      CheckpointSnoc(events, id);
      hide CheckpointIsActive, CheckpointOnRecord;
    }
  }

  lemma UsageSnoc(events: seq<Event>, u: Usage)
    requires events != []
    ensures var n := |events| - 1;
      UsageOnRecord(events, u) <==> UsageOnRecord(events[..n], u) || events[n].payload == UsageRecorded(u)
  {
    var n := |events| - 1;
    if i :| 0 <= i < n && events[..n][i].payload == UsageRecorded(u) {
      assert events[i].payload == UsageRecorded(u);
    }
    if i :| 0 <= i <= n && events[i].payload == UsageRecorded(u) {
      assert i < n ==> events[..n][i].payload == UsageRecorded(u);
    }
  }

  lemma {:induction false} UsagesAreSummed(events: seq<Event>, u: Usage)
    requires ValidJournal(events)
    ensures var usages := Replay(events).value.usages;
      u.callId in usages && usages[u.callId] == u <==> UsageOnRecord(events, u)
  {
    if events != [] {
      UsagesAreSummed(events[..|events| - 1], u);
      UsageSnoc(events, u);
      hide UsageOnRecord;
    }
  }

  lemma UsageIsFiled(events: seq<Event>, callId: Id)
    requires ValidJournal(events) && callId in Replay(events).value.usages
    ensures Replay(events).value.usages[callId].callId == callId
  {
    if events != [] {
      var rest := events[..|events| - 1];
      if callId in Replay(rest).value.usages {
        UsageIsFiled(rest, callId);
      }
    }
  }

  // ---- which event may come next ----

  ghost predicate SomeTurnIsOpen(events: seq<Event>) {
    exists turn :: turn != Id.Blank && TurnIsOpen(events, turn)
  }

  ghost predicate SomethingIsPending(events: seq<Event>) {
    exists op, automatic :: op != Id.Blank && OperationIsPending(events, op, automatic)
  }

  ghost predicate CallOnRecord(events: seq<Event>, callId: Id) {
    exists u: Usage :: u.callId == callId && UsageOnRecord(events, u)
  }

  ghost predicate Billable(events: seq<Event>, u: Usage) {
    && ValidUsage(u) && (u.turn == Id.Blank || TurnIsOpen(events, u.turn))
    && (UsageOnRecord(events, u)
        || (!CallOnRecord(events, u.callId)
            && (u.operation == Id.Blank || exists automatic :: OperationIsPending(events, u.operation, automatic))))
  }

  /** What the history allows next. */
  ghost predicate MayCome(events: seq<Event>, p: Payload) {
    match p
    case ThreadCreated => events == []
    case TurnStarted(turn) => turn != Id.Blank && !TurnOnRecord(events, turn) && !SomeTurnIsOpen(events)
    case TurnActivity(turn) => turn != Id.Blank && TurnIsOpen(events, turn)
    case TaskUpdated(turn) => turn == Id.Blank || TurnIsOpen(events, turn)
    case TurnCommitted(turn, _) => turn != Id.Blank && TurnIsOpen(events, turn)
    case TurnClosed(turn) => turn != Id.Blank && TurnIsOpen(events, turn)
    case UsageRecorded(u) => Billable(events, u)
    case CompactionStarted(op, _) => op != Id.Blank && !OperationOnRecord(events, op) && !SomethingIsPending(events)
    case Compacted(c) =>
      && c.id != Id.Blank && !CheckpointOnRecord(events, c.id) && c.sequence == |events| + 1
      && if c.operationId == Id.Blank then !SomethingIsPending(events)
         else OperationIsPending(events, c.operationId, c.automatic)
    case CompactionFailed(op, automatic) =>
      if SomethingIsPending(events) then op != Id.Blank && OperationIsPending(events, op, automatic)
      else op == Id.Blank || !OperationOnRecord(events, op)
    case CheckpointReset(id) => id != Id.Blank && CheckpointIsActive(events, id)
    case Archived => true
    case Unarchived => true
    case MetadataChanged => true
  }

  lemma OpenTurnsAreSummed(events: seq<Event>)
    requires ValidJournal(events)
    ensures SomeTurnIsOpen(events) <==> Replay(events).value.activeTurn != Id.Blank
  {
    var turn := Replay(events).value.activeTurn;
    if turn != Id.Blank {
      TurnsAreSummed(events, turn);
    }
    if other :| other != Id.Blank && TurnIsOpen(events, other) {
      TurnsAreSummed(events, other);
    }
  }

  lemma PendingIsSummed(events: seq<Event>)
    requires ValidJournal(events)
    ensures SomethingIsPending(events) <==> Replay(events).value.pending.Some?
  {
    PendingOnRecord(events);
    var pending := Replay(events).value.pending;
    if pending.Some? {
      OperationsAreSummed(events, pending.value.operation, pending.value.automatic);
    }
    if op, automatic :| op != Id.Blank && OperationIsPending(events, op, automatic) {
      OperationsAreSummed(events, op, automatic);
    }
  }

  lemma CallsAreSummed(events: seq<Event>, callId: Id)
    requires ValidJournal(events)
    ensures CallOnRecord(events, callId) <==> callId in Replay(events).value.usages
  {
    if callId in Replay(events).value.usages {
      UsageIsFiled(events, callId);
      UsagesAreSummed(events, Replay(events).value.usages[callId]);
    }
    if u: Usage :| u.callId == callId && UsageOnRecord(events, u) {
      UsagesAreSummed(events, u);
    }
  }

  lemma OperationPendsEitherWay(events: seq<Event>, op: Id)
    requires ValidJournal(events) && op != Id.Blank
    ensures (exists automatic :: OperationIsPending(events, op, automatic)) <==>
              (var pending := Replay(events).value.pending; pending.Some? && pending.value.operation == op)
  {
    OperationsAreSummed(events, op, true);
    OperationsAreSummed(events, op, false);
  }

  lemma PayloadIsDecided(events: seq<Event>, e: Event)
    requires ValidJournal(events) && e.sequence == |events| + 1 && e.id != Id.Blank
    requires events == [] ==> e.payload == ThreadCreated
    ensures Apply(Replay(events).value, e).Some? <==> MayCome(events, e.payload)
  {
    hide Replay, TurnOnRecord, TurnIsOpen, OperationOnRecord, OperationIsPending, CheckpointOnRecord,
      CheckpointIsActive, UsageOnRecord, SomeTurnIsOpen, SomethingIsPending, CallOnRecord;
    OpenTurnsAreSummed(events);
    PendingIsSummed(events);
    PendingOnRecord(events);
    match e.payload
    case TurnStarted(turn) =>
      if turn != Id.Blank {
        TurnsAreSummed(events, turn);
      }
    case TurnActivity(turn) =>
      if turn != Id.Blank {
        TurnsAreSummed(events, turn);
      }
    case TaskUpdated(turn) =>
      if turn != Id.Blank {
        TurnsAreSummed(events, turn);
      }
    case TurnCommitted(turn, _) =>
      if turn != Id.Blank {
        TurnsAreSummed(events, turn);
      }
    case TurnClosed(turn) =>
      if turn != Id.Blank {
        TurnsAreSummed(events, turn);
      }
    case UsageRecorded(u) =>
      if u.turn != Id.Blank {
        TurnsAreSummed(events, u.turn);
      }
      if u.operation != Id.Blank {
        OperationPendsEitherWay(events, u.operation);
      }
      UsagesAreSummed(events, u);
      CallsAreSummed(events, u.callId);
    case CompactionStarted(op, automatic) =>
      if op != Id.Blank {
        OperationsAreSummed(events, op, automatic);
      }
    case Compacted(c) =>
      if c.operationId != Id.Blank {
        OperationsAreSummed(events, c.operationId, c.automatic);
      }
      if c.id != Id.Blank {
        CheckpointsAreSummed(events, c.id);
      }
    case CompactionFailed(op, automatic) =>
      if op != Id.Blank {
        OperationsAreSummed(events, op, automatic);
      }
    case CheckpointReset(id) =>
      if id != Id.Blank {
        CheckpointsAreSummed(events, id);
      }
    case _ =>
  }

  /** A journal may go on with exactly the events its own history allows. */
  lemma NextEventIsDecided(events: seq<Event>, e: Event)
    requires ValidJournal(events)
    ensures ValidJournal(events + [e]) <==>
            e.sequence == |events| + 1 && e.id != Id.Blank && (events == [] ==> e.payload == ThreadCreated)
            && MayCome(events, e.payload)
  {
    hide MayCome, Apply;
    ReplayAppend(events, e);
    if Apply(Replay(events).value, e).Some? {
      NumberedNext(Replay(events).value, e);
    }
    if e.sequence == |events| + 1 && e.id != Id.Blank && (events == [] ==> e.payload == ThreadCreated) {
      PayloadIsDecided(events, e);
    }
  }

  lemma NumberedNext(s: ThreadState, e: Event)
    requires Apply(s, e).Some?
    ensures e.sequence == s.revision + 1 && e.id != Id.Blank && (s.revision == 0 ==> e.payload == ThreadCreated)
  {
  }
}
