/** A compaction that nobody disturbs goes through: whatever has happened before, a session that has something to
    compact gets its checkpoint committed in four steps. */
module CompactionProgress {
  import opened Ids
  import opened CheckpointContract
  import opened Compaction
  import opened ThreadJournal
  import opened TurnGroups
  import opened ThreadStores
  import opened Coverage
  import opened Resume
  import opened CompactionProtocol
  import opened CompactionSafety

  lemma RunGoesOn(sys: System, run: seq<World>, i: nat, a: Action, id: Id, w': World)
    requires Run(sys, run) && SessionStep(sys, run[|run| - 1], w', i, a, id)
    ensures Run(sys, run + [w'])
  {
    hide SessionStep, OutsideStep, Init;
    var longer := run + [w'];
    forall k | 0 <= k < |longer| - 1 ensures Step(sys, longer[k], longer[k + 1]) {
      assert k < |run| - 1 ==> Step(sys, run[k], run[k + 1]);
    }
  }

  /** The memory a session compacts from can always be had: its own, or the verified lineage of the active
      checkpoint. */
  lemma MemoryLoads(sys: System, run: seq<World>, n: nat, i: nat)
    requires Sound(sys) && Run(sys, run) && n < |run| && i < |run[n].sessions|
    ensures ValidJournal(run[n].events)
    ensures CompactionMemory(sys.ledger, run[n].events, run[n].sessions[i].memory,
                             State(run[n].events).activeCheckpoint).Some?
  {
    ResumeSucceeds(sys, run, n);
    hide Run, Replay, LoadMemory, Lineage, Walk;
  }

  /** What a session offers to do, and that nothing stands in its way. */
  ghost predicate CanCompact(sys: System, w: World, i: nat, op: Id, m: Memory, keep: nat, omitted: seq<Id>,
                             plan: CompactionPlan) {
    && ValidJournal(w.events) && i < |w.sessions| && (w.sessions[i].phase.Idle? || w.sessions[i].phase.Settled?)
    && op != Id.Blank && op !in w.usedOps && !State(w.events).archived && State(w.events).pending.None?
    && CompactionMemory(sys.ledger, w.events, w.sessions[i].memory, State(w.events).activeCheckpoint) == Some(m)
    && PlanFollows(sys.ledger, StoreGroups(w.events), m.coverage, keep, omitted, plan)
  }

  lemma LoadsAndPlans(sys: System, w: World, i: nat, op: Id, automatic: bool, m: Memory, keep: nat, omitted: seq<Id>,
                      plan: CompactionPlan, id: Id)
    returns (w1: World, w2: World)
    requires CanCompact(sys, w, i, op, m, keep, omitted, plan) && id != Id.Blank && id !in EventIds(w.events)
    ensures SessionStep(sys, w, w1, i, Load(op, automatic), id)
    ensures SessionStep(sys, w1, w2, i, Action.Plan(keep, omitted, plan), id)
    ensures w2.events == w.events && |w2.sessions| == |w.sessions|
    ensures w2.sessions[i].phase == Planned(op, automatic, |w.events|, |w.events|, Snapshot(m, plan))
  {
    hide PlanFollows, Replay, EventIds, CompactionMemory, AfterCommit, Apply;
    assert w.events[..|w.events|] == w.events;
    var s := w.sessions[i];
    var loaded := s.(phase := Loaded(op, automatic, |w.events|));
    w1 := World(w.events, w.usedOps + {op}, w.sessions[i := loaded]);
    w2 := w1.(sessions := w1.sessions[i := loaded.(
      phase := Planned(op, automatic, |w.events|, |w.events|, Snapshot(m, plan)))]);
    assert ActiveAt(w.events, |w.events|) == State(w.events).activeCheckpoint;
  }

  /** What the commit leaves. */
  ghost predicate WentThrough(w: World, w': World, i: nat, op: Id, automatic: bool, m: Memory, plan: CompactionPlan,
                              startId: Id, commitId: Id, checkpointId: Id) {
    && ValidJournal(w.events) && |w'.events| == |w.events| + 2 && w.events <= w'.events
    && w'.events[|w.events|] == Event(|w.events| + 1, startId, CompactionStarted(op, automatic))
    && w'.events[|w.events| + 1].id == commitId && w'.events[|w.events| + 1].payload.Compacted?
    && i < |w'.sessions| && w'.sessions[i].phase.Idle?
    && var c, after := w'.events[|w.events| + 1].payload.checkpoint, w'.sessions[i].memory;
       && c.id == checkpointId && c.parentId == State(w.events).activeCheckpoint
       && c.sourceEventIds == plan.ids && c.operationId == op && c.automatic == automatic
       && after.active.Some? && after.active.value.id == checkpointId && after.coverage == Unique(m.coverage + plan.ids)
  }

  lemma CommitGoesThrough(sys: System, run: seq<World>, i: nat, checkpointId: Id, request: CompactionRequest,
                          cp: Checkpoint, id: Id)
    returns (w': World)
    requires Sound(sys) && Run(sys, run)
    requires var w := run[|run| - 1];
      && i < |w.sessions| && w.sessions[i].phase.Running? && !w.sessions[i].phase.stale && !w.sessions[i].phase.failed
      && w.sessions[i].phase.rev == |w.events| && checkpointId != Id.Blank && ValidJournal(w.events)
      && checkpointId !in State(w.events).checkpoints && id != Id.Blank && id !in EventIds(w.events)
      && RequestFits(w.sessions[i].phase.snapshot, request) && sys.compactor.Certified(request, cp)
    ensures var w := run[|run| - 1];
      var p, snapshot := w.sessions[i].phase, w.sessions[i].phase.snapshot;
      && SessionStep(sys, w, w', i, Action.Commit(checkpointId, request, cp), id)
      && |w'.events| == |w.events| + 1 && w.events <= w'.events && w'.events[|w.events|].id == id
      && w'.events[|w.events|].payload.Compacted?
      && var stored := w'.events[|w.events|].payload.checkpoint;
         && stored.id == checkpointId && stored.parentId == State(w.events).activeCheckpoint
         && stored.sourceEventIds == snapshot.plan.ids && stored.operationId == p.op && stored.automatic == p.automatic
         && |w'.sessions| == |w.sessions|
         && w'.sessions[i] == Session(Installed(sys.ledger, snapshot.memory, cp, stored), Idle)
  {
    var w := run[|run| - 1];
    CommitsUnlessMoved(sys, run, |run| - 1, i, checkpointId, cp, id);
    hide *;
    CommitShape(sys, w.events, w.sessions[i], checkpointId, cp, id);
    w' := CommitIsStep(sys, w, i, checkpointId, request, cp, id);
  }

  lemma CommitIsStep(sys: System, w: World, i: nat, checkpointId: Id, request: CompactionRequest, cp: Checkpoint,
                     id: Id)
    returns (w': World)
    requires i < |w.sessions| && w.sessions[i].phase.Running? && !w.sessions[i].phase.stale
    requires !w.sessions[i].phase.failed && checkpointId != Id.Blank && ValidJournal(w.events)
    requires id != Id.Blank && id !in EventIds(w.events)
    requires RequestFits(w.sessions[i].phase.snapshot, request) && sys.compactor.Certified(request, cp)
    ensures SessionStep(sys, w, w', i, Action.Commit(checkpointId, request, cp), id)
    ensures var next := AfterCommit(sys, w.events, w.sessions[i], checkpointId, cp, id);
      w'.events == next.events && |w'.sessions| == |w.sessions| && w'.sessions[i] == next.session
  {
    hide EventIds, RequestFits, RecursiveCompactor.Certified, AfterCommit, Replay;
    var next := AfterCommit(sys, w.events, w.sessions[i], checkpointId, cp, id);
    w' := World(next.events, w.usedOps, w.sessions[i := next.session]);
  }

  /** What an accepted commit writes and installs. */
  lemma CommitShape(sys: System, events: seq<Event>, s: Session, checkpointId: Id, cp: Checkpoint, id: Id)
    requires ValidJournal(events) && s.phase.Running? && s.phase.rev == |events|
    requires AfterCommit(sys, events, s, checkpointId, cp, id).session.phase.Idle?
    ensures var o := AfterCommit(sys, events, s, checkpointId, cp, id);
      && |o.events| == |events| + 1 && events <= o.events && o.events[|events|].id == id
      && o.events[|events|].payload.Compacted?
      && var stored := o.events[|events|].payload.checkpoint;
         && stored.id == checkpointId && stored.parentId == State(events).activeCheckpoint
         && stored.sourceEventIds == s.phase.snapshot.plan.ids
         && stored.operationId == s.phase.op && stored.automatic == s.phase.automatic
         && o.session == Session(Installed(sys.ledger, s.phase.snapshot.memory, cp, stored), Idle)
  {
    hide Replay, FindCheckpoint, Installed;
    assert events[..|events|] == events;
    assert ActiveAt(events, |events|) == State(events).activeCheckpoint;
  }

  /** From any world a run can reach: load, plan, start, commit, and the new checkpoint is active and covers what it
      was planned for. */
  lemma CompactionGoesThrough(sys: System, run: seq<World>, n: nat, i: nat, op: Id, automatic: bool, m: Memory,
                              keep: nat, omitted: seq<Id>, plan: CompactionPlan, request: CompactionRequest,
                              cp: Checkpoint, startId: Id, commitId: Id, checkpointId: Id)
    returns (w1: World, w2: World, w3: World, w4: World)
    requires Sound(sys) && Run(sys, run) && n < |run| && CanCompact(sys, run[n], i, op, m, keep, omitted, plan)
    requires RequestFits(Snapshot(m, plan), request) && sys.compactor.Certified(request, cp)
    requires startId != Id.Blank && commitId != Id.Blank && startId != commitId
             && startId !in EventIds(run[n].events) && commitId !in EventIds(run[n].events)
    requires checkpointId != Id.Blank && checkpointId !in State(run[n].events).checkpoints
    ensures SessionStep(sys, run[n], w1, i, Load(op, automatic), startId)
    ensures SessionStep(sys, w1, w2, i, Action.Plan(keep, omitted, plan), startId)
    ensures SessionStep(sys, w2, w3, i, Start, startId)
    ensures SessionStep(sys, w3, w4, i, Action.Commit(checkpointId, request, cp), commitId)
    ensures WentThrough(run[n], w4, i, op, automatic, m, plan, startId, commitId, checkpointId)
  {
    hide Run, Step, SessionStep, PlanFollows, EventIds, Replay, RequestFits, RecursiveCompactor.Certified,
      CompactionMemory;
    var w := run[n];
    w1, w2 := LoadsAndPlans(sys, w, i, op, automatic, m, keep, omitted, plan, startId);
    var run2 := run[..n + 1] + [w1] + [w2];
    RunPrefix(sys, run, n);
    RunGoesOn(sys, run[..n + 1], i, Load(op, automatic), startId, w1);
    RunGoesOn(sys, run[..n + 1] + [w1], i, Action.Plan(keep, omitted, plan), startId, w2);
    w3 := StartGoesThrough(sys, run2, i, op, automatic, m, plan, startId);
    RunGoesOn(sys, run2, i, Start, startId, w3);
    StillFresh(w.events, startId, CompactionStarted(op, automatic), commitId);
    w4 := CommitGoesThrough(sys, run2 + [w3], i, checkpointId, request, cp, commitId);
  }

  lemma RunPrefix(sys: System, run: seq<World>, n: nat)
    requires Run(sys, run) && n < |run|
    ensures Run(sys, run[..n + 1])
  {
    hide Step, Init;
    var prefix := run[..n + 1];
    forall k | 0 <= k < |prefix| - 1 ensures Step(sys, prefix[k], prefix[k + 1]) {
      assert prefix[k] == run[k] && prefix[k + 1] == run[k + 1];
    }
  }

  lemma StillFresh(events: seq<Event>, id: Id, p: Payload, other: Id)
    requires other != id && other !in EventIds(events)
    ensures other !in EventIds(Append(events, id, p))
  {
    SnocInit(events, Event(|events| + 1, id, p));
  }

  lemma StartGoesThrough(sys: System, run: seq<World>, i: nat, op: Id, automatic: bool, m: Memory, plan: CompactionPlan,
                         id: Id)
    returns (w': World)
    requires Sound(sys) && Run(sys, run) && id != Id.Blank
    requires var w := run[|run| - 1];
      && i < |w.sessions| && ValidJournal(w.events) && !State(w.events).archived && State(w.events).pending.None?
      && w.sessions[i].phase == Planned(op, automatic, |w.events|, |w.events|, Snapshot(m, plan))
      && id !in EventIds(w.events)
    ensures var w := run[|run| - 1];
      && SessionStep(sys, w, w', i, Start, id) && |w'.sessions| == |w.sessions|
      && w'.events == Append(w.events, id, CompactionStarted(op, automatic))
      && w'.sessions[i].phase ==
        Running(op, automatic, |w.events| + 1, |w.events| + 1, {}, false, false, Snapshot(m, plan))
      && ValidJournal(w'.events)
      && State(w'.events).activeCheckpoint == State(w.events).activeCheckpoint
      && State(w'.events).checkpoints == State(w.events).checkpoints
  {
    var w := run[|run| - 1];
    assert w.events != [] && op != Id.Blank && op !in State(w.events).operations by {
      RunsAreSafe(sys, run, |run| - 1);
      PlannedIsNew(sys, w, i);
    }
    hide Run, EventIds, Replay, Apply;
    StartShape(w.events, op, automatic, id);
    var running := Running(op, automatic, |w.events| + 1, |w.events| + 1, {}, false, false, Snapshot(m, plan));
    w' := w.(events := Append(w.events, id, CompactionStarted(op, automatic)),
             sessions := w.sessions[i := w.sessions[i].(phase := running)]);
  }

  lemma StartShape(events: seq<Event>, op: Id, automatic: bool, id: Id)
    requires ValidJournal(events) && events != [] && id != Id.Blank && op != Id.Blank
    requires !State(events).archived && State(events).pending.None? && op !in State(events).operations
    ensures StartOutcome(State(events), |events|, op, automatic) == Ok(CompactionStarted(op, automatic))
    ensures var after := Append(events, id, CompactionStarted(op, automatic));
      && ValidJournal(after) && State(after).activeCheckpoint == State(events).activeCheckpoint
      && State(after).checkpoints == State(events).checkpoints
  {
    hide Replay;
    var e := Event(|events| + 1, id, CompactionStarted(op, automatic));
    assert Apply(State(events), e).Some?;
    ReplayAppend(events, e);
  }

  /** A planned operation is not on record yet. */
  lemma PlannedIsNew(sys: System, w: World, i: nat)
    requires Inv(sys, w) && i < |w.sessions| && w.sessions[i].phase.Planned?
    ensures ValidJournal(w.events) && w.events != [] && w.sessions[i].phase.op != Id.Blank
    ensures w.sessions[i].phase.op !in State(w.events).operations
  {
    assert SessionOk(sys, w.events, w.sessions[i]);
  }
}
