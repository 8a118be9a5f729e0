/** Sessions of several processes compacting one thread: every store call and every reload of
    `compactLocked` and `persistCompactionFailure` is one step, in any interleaving, with turns,
    resets, explicit recoveries and crashes in between. */
module CompactionProtocol {
  import opened Ids
  import opened CheckpointContract
  import opened Compaction
  import opened ThreadJournal
  import opened TurnGroups
  import opened ThreadStores
  import opened Coverage
  import opened Resume

  datatype System = System(ledger: Ledger, compactor: RecursiveCompactor)

  /** What a compaction holds on to after its preflight. */
  datatype Snapshot = Snapshot(memory: Memory, plan: CompactionPlan)

  datatype Phase =
    | Idle
    | Loaded(op: Id, automatic: bool, rev: nat)
    | Planned(op: Id, automatic: bool, rev: nat, base: nat, snapshot: Snapshot)
    | Running(op: Id, automatic: bool, start: nat, rev: nat, seen: set<Id>, stale: bool, failed: bool,
              snapshot: Snapshot)
    | Failing(op: Id, automatic: bool, rev: nat)
    | Reloading(op: Id, automatic: bool, rev: nat)
    | Finishing(op: Id, automatic: bool, rev: nat)
    | Settled(op: Id)                       // the failure path returned without a store error

  datatype Session = Session(memory: Memory, phase: Phase)

  datatype Outcome = Outcome(events: seq<Event>, session: Session)

  datatype Action =
    | Load(newOp: Id, auto: bool)
    | Plan(keep: nat, omitted: seq<Id>, plan: CompactionPlan)
    | GiveUp
    | PreflightFails
    | Start
    | RecordCall(usage: Usage)
    | Commit(checkpointId: Id, request: CompactionRequest, checkpoint: Checkpoint)
    | RunFails
    | RecordFailure
    | Reload
    | Finish
    | Reopen

  function State(events: seq<Event>): ThreadState
    requires ValidJournal(events)
  {
    Replay(events).value
  }

  function ActiveAt(events: seq<Event>, n: nat): Id {
    if n <= |events| && Replay(events[..n]).Some? then Replay(events[..n]).value.activeCheckpoint else Id.Blank
  }

  function Append(events: seq<Event>, id: Id, p: Payload): seq<Event> {
    events + [Event(|events| + 1, id, p)]
  }

  /** `loadVerifiedActiveCheckpoint`, and the empty memory without an active checkpoint. */
  function LoadMemory(l: Ledger, events: seq<Event>, id: Id): Option<Memory> {
    if id == Id.Blank then Some(NO_CHECKPOINT) else
      var m := ResumeMemory(l, events, id);
      if m.None? then None else Some(m.value.(coverage := Unique(m.value.coverage)))
  }

  function CompactionMemory(l: Ledger, events: seq<Event>, own: Memory, active: Id): Option<Memory> {
    if active != Id.Blank && ActiveId(own) == active then Some(own) else LoadMemory(l, events, active)
  }

  function Move(events: seq<Event>, s: Session, phase: Phase): Outcome {
    Outcome(events, s.(phase := phase))
  }

  function RequestFits(snapshot: Snapshot, r: CompactionRequest): bool {
    r.sourceGroups == snapshot.plan.sourceGroups && r.previous == snapshot.memory.active && r.sourceScope.None?
  }

  /** The usage observer: record, then compare revisions. */
  function AfterCall(events: seq<Event>, s: Session, u: Usage, eventId: Id): Outcome
    requires ValidJournal(events) && s.phase.Running?
  {
    var r := s.phase;
    match UsageOutcome(State(events), u)
    case Err(_) => Move(events, s, r.(failed := true))
    case Ok(p) =>
      var next := if p.None? then events else Append(events, eventId, p.value);
      var moved := if u.callId in r.seen then |next| != r.rev else |next| != r.rev + 1;
      Move(next, s, r.(rev := |next|, seen := r.seen + {u.callId}, stale := r.stale || moved))
  }

  function AfterCommit(sys: System, events: seq<Event>, s: Session, id: Id, cp: Checkpoint, eventId: Id): Outcome
    requires ValidJournal(events) && s.phase.Running?
  {
    var r := s.phase;
    var snapshot := r.snapshot;
    var stored := ToStored(snapshot.memory, snapshot.plan.ids, snapshot.plan.tailStart, cp, id, r.op, r.automatic,
                           |events| + 1)
                  .(parentId := ActiveAt(events, r.rev));
    match CommitOutcome(events, State(events), r.rev, stored)
    case Err(_) => Move(events, s, Failing(r.op, r.automatic, r.rev))
    case Ok(p) => Outcome(Append(events, eventId, p), Session(Installed(sys.ledger, snapshot.memory, cp, stored), Idle))
  }

  /** One step of one session; `eventId` names the event it may append. None: not enabled. */
  ghost function Next(sys: System, events: seq<Event>, s: Session, a: Action, eventId: Id): Option<Outcome>
    requires ValidJournal(events)
  {
    var p := s.phase;
    match a
    case Load(op, auto) =>
      if (p.Idle? || p.Settled?) && State(events).pending.None?
        then Some(Move(events, s, Loaded(op, auto, |events|))) else None
    case Plan(keep, omitted, plan) =>
      if !p.Loaded? then None else
        var m := CompactionMemory(sys.ledger, events, s.memory, ActiveAt(events, p.rev));
        if m.Some? && PlanFollows(sys.ledger, StoreGroups(events), m.value.coverage, keep, omitted, plan)
        then Some(Move(events, s, Planned(p.op, p.automatic, p.rev, |events|, Snapshot(m.value, plan)))) else None
    case GiveUp => if p.Loaded? || p.Planned? then Some(Move(events, s, Idle)) else None
    case PreflightFails =>
      if (p.Loaded? || p.Planned?) && p.automatic then Some(Move(events, s, Failing(p.op, true, p.rev))) else None
    case Start =>
      if !p.Planned? then None else
        var r := StartOutcome(State(events), p.rev, p.op, p.automatic);
        if r.Err? then Some(Move(events, s, Idle))
        else Some(Move(Append(events, eventId, r.value), s,
                Running(p.op, p.automatic, |events| + 1, |events| + 1, {}, false, false, p.snapshot)))
    case RecordCall(u) =>
      if p.Running? && u.compaction && u.operation == p.op && u.turn == Id.Blank
        then Some(AfterCall(events, s, u, eventId)) else None
    case Commit(id, request, cp) =>
      if p.Running? && !p.stale && !p.failed && id != Id.Blank && RequestFits(p.snapshot, request)
        && sys.compactor.Certified(request, cp)
      then Some(AfterCommit(sys, events, s, id, cp, eventId)) else None
    case RunFails => if p.Running? then Some(Move(events, s, Failing(p.op, p.automatic, p.rev))) else None
    case RecordFailure =>
      if !p.Failing? then None else
        var r := FailureOutcome(State(events), p.rev, p.op, p.automatic);
        if r.Ok? then Some(Move(Append(events, eventId, r.value), s, Settled(p.op)))
        else Some(Move(events, s, if r.error == RevisionConflict then Reloading(p.op, p.automatic, p.rev) else Idle))
    case Reload =>
      if !p.Reloading? then None
      else if State(events).pending == Some(Pending(p.op, p.automatic))
        then Some(Move(events, s, Finishing(p.op, p.automatic, p.rev)))
      else Some(Move(events, s, Settled(p.op)))
    case Finish =>
      if !p.Finishing? then None else
        var r := FinishOutcome(State(events), p.op, p.automatic);
        if r.Ok? then Some(Move(Append(events, eventId, r.value), s, Settled(p.op)))
        else Some(Move(events, s, if r.error == OperationNotPending then Settled(p.op) else Idle))
    case Reopen =>
      var m := LoadMemory(sys.ledger, events, State(events).activeCheckpoint);
      if m.None? then None else Some(Outcome(events, Session(m.value, Idle)))
  }

  datatype World = World(events: seq<Event>, usedOps: set<Id>, sessions: seq<Session>)

  /** Events other than a session's compaction: turns, agent usage, metadata, resets, and the
      explicit recovery of whatever operation is pending. */
  predicate Outside(s: ThreadState, p: Payload) {
    match p
    case CompactionStarted(_, _) => false
    case Compacted(_) => false
    case UsageRecorded(u) => u.operation == Id.Blank
    case CompactionFailed(op, automatic) => s.pending == Some(Pending(op, automatic))
    case _ => true
  }

  ghost predicate OutsideStep(w: World, w': World, id: Id, p: Payload) {
    && ValidJournal(w.events) && id != Id.Blank && id !in EventIds(w.events)
    && Outside(State(w.events), p) && Replays(State(w.events), id, p)
    && w' == w.(events := Append(w.events, id, p))
  }

  ghost predicate SessionStep(sys: System, w: World, w': World, i: nat, a: Action, id: Id) {
    && ValidJournal(w.events) && i < |w.sessions| && id != Id.Blank && id !in EventIds(w.events)
    && (a.Load? ==> a.newOp != Id.Blank && a.newOp !in w.usedOps)
    && var next := Next(sys, w.events, w.sessions[i], a, id);
      && next.Some?
      && w' == World(next.value.events, if a.Load? then w.usedOps + {a.newOp} else w.usedOps,
                     w.sessions[i := next.value.session])
  }

  ghost predicate Step(sys: System, w: World, w': World) {
    || (exists id, p :: OutsideStep(w, w', id, p))
    || (exists i, a, id :: SessionStep(sys, w, w', i, a, id))
  }

  ghost predicate Init(w: World) {
    && |w.events| == 1 && Written(w.events) && w.usedOps == {}
    && forall i :: 0 <= i < |w.sessions| ==> w.sessions[i] == Session(NO_CHECKPOINT, Idle)
  }

  ghost predicate Run(sys: System, run: seq<World>) {
    run != [] && Init(run[0]) && forall i :: 0 <= i < |run| - 1 ==> Step(sys, run[i], run[i + 1])
  }
}
