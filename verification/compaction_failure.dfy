/** The failure path of a compaction, to its end: a session that fails while its operation is pending
    closes it, however the journal has moved, and no session walks away from a pending operation. */
module CompactionFailure {
  import opened Ids
  import opened ThreadJournal
  import opened TurnGroups
  import opened ThreadStores
  import opened CheckpointContract
  import opened Resume
  import opened CompactionProtocol
  import opened CompactionSafety

  predicate OnFailurePath(p: Phase) {
    p.Failing? || p.Reloading? || p.Finishing?
  }

  /** How many steps are left at most. */
  function StepsLeft(p: Phase): nat {
    match p
    case Failing(_, _, _) => 3
    case Reloading(_, _, _) => 2
    case Finishing(_, _, _) => 1
    case _ => 0
  }

  ghost predicate IsPending(events: seq<Event>, op: Id) {
    ValidJournal(events) && State(events).pending.Some? && State(events).pending.value.operation == op
  }

  predicate FailureAction(a: Action) {
    a.RecordFailure? || a.Reload? || a.Finish?
  }

  /** While the operation is pending, the store refuses to record its failure only for a revision
      that has moved, and never refuses to finish it. */
  lemma OnlyConflicts(events: seq<Event>, p: Phase)
    requires OnFailurePath(p) && p.op != Id.Blank && IsPending(events, p.op)
    requires PendingMatches(events, p.op, p.automatic)
    ensures FailureOutcome(State(events), p.rev, p.op, p.automatic) ==
            if p.rev != State(events).revision then Err(RevisionConflict) else Ok(CompactionFailed(p.op, p.automatic))
    ensures FinishOutcome(State(events), p.op, p.automatic) == Ok(CompactionFailed(p.op, p.automatic))
  {
  }

  /** The operation is closed by its own failure, or nothing is written and the path goes on. */
  ghost predicate ClosesOrGoesOn(w: World, w': World, i: nat, id: Id) {
    && i < |w.sessions| && |w'.sessions| == |w.sessions| && OnFailurePath(w.sessions[i].phase)
    && var p, p' := w.sessions[i].phase, w'.sessions[i].phase;
      || (p' == Settled(p.op) && w'.events == Append(w.events, id, CompactionFailed(p.op, p.automatic)))
      || (OnFailurePath(p') && p'.op == p.op && p'.automatic == p.automatic && w'.events == w.events
          && StepsLeft(p') < StepsLeft(p))
  }

  lemma StepCloses(sys: System, w: World, w': World, i: nat, a: Action, id: Id)
    requires Inv(sys, w) && SessionStep(sys, w, w', i, a, id) && !a.Reopen?
    requires OnFailurePath(w.sessions[i].phase) && IsPending(w.events, w.sessions[i].phase.op)
    ensures FailureAction(a) && ClosesOrGoesOn(w, w', i, id)
  {
    var p := w.sessions[i].phase;
    assert SessionOk(sys, w.events, w.sessions[i]) && p.op != Id.Blank;
    OnlyConflicts(w.events, p);
    hide JournalOk, Apply, Replay, Covers, FailureOutcome, FinishOutcome, EventIds, AfterCommit, AfterCall;
  }

  /** In every run: a step on the failure path of a pending operation, other than a restart of the
      session, writes that operation's failure and settles, or writes nothing and gets nearer. */
  lemma FailureNeverGivesUp(sys: System, run: seq<World>, n: nat, i: nat, a: Action, id: Id)
    requires Sound(sys) && Run(sys, run) && n + 1 < |run| && SessionStep(sys, run[n], run[n + 1], i, a, id)
    requires !a.Reopen? && OnFailurePath(run[n].sessions[i].phase)
    requires IsPending(run[n].events, run[n].sessions[i].phase.op)
    ensures FailureAction(a) && ClosesOrGoesOn(run[n], run[n + 1], i, id)
  {
    RunsAreSafe(sys, run, n);
    StepCloses(sys, run[n], run[n + 1], i, a, id);
  }

  /** The next step on the path, taken now. */
  ghost function FailureStep(p: Phase): Action
    requires OnFailurePath(p)
  {
    match p
    case Failing(_, _, _) => RecordFailure
    case Reloading(_, _, _) => Reload
    case Finishing(_, _, _) => Finish
  }

  lemma StepIsEnabled(sys: System, w: World, i: nat, id: Id) returns (w': World)
    requires Inv(sys, w) && i < |w.sessions| && OnFailurePath(w.sessions[i].phase)
    requires IsPending(w.events, w.sessions[i].phase.op) && id != Id.Blank && id !in EventIds(w.events)
    ensures SessionStep(sys, w, w', i, FailureStep(w.sessions[i].phase), id) && ClosesOrGoesOn(w, w', i, id)
  {
    hide JournalOk, Apply, Replay, Covers, FailureOutcome, FinishOutcome, EventIds, AfterCommit, AfterCall, Inv;
    var a := FailureStep(w.sessions[i].phase);
    assert ValidJournal(w.events);
    var next := Next(sys, w.events, w.sessions[i], a, id);
    w' := World(next.value.events, w.usedOps, w.sessions[i := next.value.session]);
    StepCloses(sys, w, w', i, a, id);
  }

  /** Steps of one session, all on its failure path. */
  ghost predicate FailureSteps(sys: System, steps: seq<World>, i: nat, id: Id) {
    forall k :: 0 <= k < |steps| - 1 ==>
      exists a :: FailureAction(a) && SessionStep(sys, steps[k], steps[k + 1], i, a, id)
  }

  lemma {:induction false} SettlesFrom(sys: System, w: World, i: nat, id: Id) returns (steps: seq<World>)
    requires Sound(sys) && Inv(sys, w) && i < |w.sessions| && OnFailurePath(w.sessions[i].phase)
    requires IsPending(w.events, w.sessions[i].phase.op) && id != Id.Blank && id !in EventIds(w.events)
    ensures 2 <= |steps| <= StepsLeft(w.sessions[i].phase) + 1 && steps[0] == w && FailureSteps(sys, steps, i, id)
    ensures var last, p := steps[|steps| - 1], w.sessions[i].phase;
      && i < |last.sessions| && last.sessions[i].phase == Settled(p.op)
      && last.events == Append(w.events, id, CompactionFailed(p.op, p.automatic))
    decreases StepsLeft(w.sessions[i].phase)
  {
    hide Inv, Next, EventIds, SessionStep;
    var w' := StepIsEnabled(sys, w, i, id);
    var a := FailureStep(w.sessions[i].phase);
    assert FailureAction(a) && SessionStep(sys, w, w', i, a, id);
    if w'.sessions[i].phase.Settled? {
      steps := [w, w'];
      assert steps[0] == w && steps[0 + 1] == w';
    } else {
      var p := SessionStepKeeps(sys, w, w', i, a, id);
      var rest := SettlesFrom(sys, w', i, id);
      steps := [w] + rest;
      forall k | 0 <= k < |steps| - 1
        ensures exists a :: FailureAction(a) && SessionStep(sys, steps[k], steps[k + 1], i, a, id)
      {
        if k == 0 {
          assert steps[0] == w && steps[1] == w';
        } else {
          var j := k - 1;
          assert steps[k] == rest[j] && steps[k + 1] == rest[j + 1];
        }
      }
    }
  }

  /** In every reachable world a session on its failure path whose operation is pending can settle it
      by its own steps, at most three, with that operation's failure as the only event. */
  lemma FailurePathSettles(sys: System, run: seq<World>, n: nat, i: nat, id: Id) returns (steps: seq<World>)
    requires Sound(sys) && Run(sys, run) && n < |run| && i < |run[n].sessions|
    requires OnFailurePath(run[n].sessions[i].phase) && IsPending(run[n].events, run[n].sessions[i].phase.op)
    requires id != Id.Blank && id !in EventIds(run[n].events)
    ensures 2 <= |steps| <= 4 && steps[0] == run[n] && FailureSteps(sys, steps, i, id)
    ensures var last, p := steps[|steps| - 1], run[n].sessions[i].phase;
      && i < |last.sessions| && last.sessions[i].phase == Settled(p.op)
      && last.events == Append(run[n].events, id, CompactionFailed(p.op, p.automatic))
  {
    RunsAreSafe(sys, run, n);
    steps := SettlesFrom(sys, run[n], i, id);
  }

  /** Short of a restart, no step of a session leaves its operation pending and the session without
      it: it is still running, or on its way to record the failure. */
  lemma OperationIsNeverAbandoned(sys: System, run: seq<World>, n: nat, i: nat, a: Action, id: Id)
    requires Sound(sys) && Run(sys, run) && n + 1 < |run| && SessionStep(sys, run[n], run[n + 1], i, a, id)
    requires !a.Reopen? && !run[n].sessions[i].phase.Idle? && !run[n].sessions[i].phase.Settled?
    requires IsPending(run[n + 1].events, run[n].sessions[i].phase.op)
    ensures var p := run[n + 1].sessions[i].phase;
      (p.Running? || OnFailurePath(p)) && p.op == run[n].sessions[i].phase.op
  {
    RunsAreSafe(sys, run, n);
    StaysWithOperation(sys, run[n], run[n + 1], i, a, id);
  }

  /** A failure on record leaves nothing pending. */
  lemma ClosedIsNotPending(events: seq<Event>, id: Id, op: Id, automatic: bool, other: Id)
    requires ValidJournal(events)
    ensures !IsPending(Append(events, id, CompactionFailed(op, automatic)), other)
  {
    var e := Event(|events| + 1, id, CompactionFailed(op, automatic));
    ReplayAppend(events, e);
  }

  lemma CommitLeavesNothing(events: seq<Event>, id: Id, c: StoredCheckpoint, other: Id)
    requires ValidJournal(events)
    ensures !IsPending(Append(events, id, Compacted(c)), other)
  {
    var e := Event(|events| + 1, id, Compacted(c));
    ReplayAppend(events, e);
  }

  lemma StaysWithOperation(sys: System, w: World, w': World, i: nat, a: Action, id: Id)
    requires Inv(sys, w) && SessionStep(sys, w, w', i, a, id)
    requires !a.Reopen? && !w.sessions[i].phase.Idle? && !w.sessions[i].phase.Settled?
    requires IsPending(w'.events, w.sessions[i].phase.op)
    ensures var p := w'.sessions[i].phase; (p.Running? || OnFailurePath(p)) && p.op == w.sessions[i].phase.op
  {
    var p := w.sessions[i].phase;
    assert SessionOk(sys, w.events, w.sessions[i]) && p.op != Id.Blank;
    if OnFailurePath(p) {
      FailureStays(sys, w, w', i, a, id);
    } else if p.Running? {
      RunningStaysWith(sys, w, w', i, a, id);
    } else {
      PendingOnRecord(w.events);
      hide JournalOk, Apply, Covers, EventIds, AfterCommit, AfterCall;
    }
  }

  lemma RunningStaysWith(sys: System, w: World, w': World, i: nat, a: Action, id: Id)
    requires Inv(sys, w) && SessionStep(sys, w, w', i, a, id) && !a.Reopen? && w.sessions[i].phase.Running?
    requires IsPending(w'.events, w.sessions[i].phase.op)
    ensures var p := w'.sessions[i].phase; (p.Running? || OnFailurePath(p)) && p.op == w.sessions[i].phase.op
  {
    hide JournalOk, Apply, Replay, Covers, EventIds, SessionOk, OpsOk, UsageOutcome;
    var s := w.sessions[i];
    if a.Commit? {
      CommitEnds(sys, w.events, s, a.checkpointId, a.checkpoint, id);
    }
    hide AfterCommit;
  }

  lemma CommitEnds(sys: System, events: seq<Event>, s: Session, id: Id, cp: Checkpoint, eventId: Id)
    requires ValidJournal(events) && s.phase.Running?
    ensures var o := AfterCommit(sys, events, s, id, cp, eventId);
      || (o.session.phase.Failing? && o.session.phase.op == s.phase.op)
      || !IsPending(o.events, s.phase.op)
  {
    hide Apply, Replay, FindCheckpoint, ToStored, ActiveAt;
    var o := AfterCommit(sys, events, s, id, cp, eventId);
    if !o.session.phase.Failing? {
      CommitLeavesNothing(events, eventId, o.events[|events|].payload.checkpoint, s.phase.op);
    }
  }

  lemma FailureStays(sys: System, w: World, w': World, i: nat, a: Action, id: Id)
    requires Inv(sys, w) && SessionStep(sys, w, w', i, a, id) && !a.Reopen? && OnFailurePath(w.sessions[i].phase)
    requires IsPending(w'.events, w.sessions[i].phase.op)
    ensures OnFailurePath(w'.sessions[i].phase) && w'.sessions[i].phase.op == w.sessions[i].phase.op
  {
    var p := w.sessions[i].phase;
    ClosedIsNotPending(w.events, id, p.op, p.automatic, p.op);
    if w'.events == w.events {
      StepCloses(sys, w, w', i, a, id);
    } else {
      hide JournalOk, Apply, Replay, Covers, EventIds, SessionOk, OpsOk, IsPending;
    }
  }

  lemma JournalIsValid(sys: System, w: World)
    requires Inv(sys, w)
    ensures ValidJournal(w.events)
  {
  }

  /** A running compaction can be given up at any time, and goes on to record its failure. */
  lemma RunningCanFail(sys: System, run: seq<World>, n: nat, i: nat, id: Id) returns (w': World)
    requires Sound(sys) && Run(sys, run) && n < |run| && i < |run[n].sessions| && run[n].sessions[i].phase.Running?
    requires id != Id.Blank && id !in EventIds(run[n].events)
    ensures SessionStep(sys, run[n], w', i, RunFails, id) && w'.events == run[n].events
    ensures var p, p' := run[n].sessions[i].phase, w'.sessions[i].phase;
      p' == Failing(p.op, p.automatic, p.rev)
  {
    hide Run, Inv, Sound, AfterCommit, Apply, Replay, EventIds, UsageOutcome, StartOutcome, FailureOutcome,
      FinishOutcome;
    var w, p := run[n], run[n].sessions[i].phase;
    assert ValidJournal(w.events) by {
      RunsAreSafe(sys, run, n);
      JournalIsValid(sys, w);
    }
    w' := w.(sessions := w.sessions[i := w.sessions[i].(phase := Failing(p.op, p.automatic, p.rev))]);
  }

  /** A planned compaction starts if nothing was written since its session looked. */
  lemma StartsUnlessMoved(sys: System, run: seq<World>, n: nat, i: nat, id: Id) returns (w': World)
    requires Sound(sys) && Run(sys, run) && n < |run| && i < |run[n].sessions| && run[n].sessions[i].phase.Planned?
    requires id != Id.Blank && id !in EventIds(run[n].events)
    ensures ValidJournal(run[n].events) && SessionStep(sys, run[n], w', i, Start, id)
    ensures var p, s := run[n].sessions[i].phase, State(run[n].events);
      if p.rev == |run[n].events| && !s.archived && s.pending.None? then
        && w'.events == Append(run[n].events, id, CompactionStarted(p.op, p.automatic))
        && w'.sessions[i].phase.Running? && w'.sessions[i].phase.op == p.op
      else w'.events == run[n].events && w'.sessions[i].phase == Idle
  {
    RunsAreSafe(sys, run, n);
    var w := run[n];
    assert SessionOk(sys, w.events, w.sessions[i]);
    var next := Next(sys, w.events, w.sessions[i], Start, id).value;
    w' := w.(events := next.events, sessions := w.sessions[i := next.session]);
  }

  /** A compaction whose model call could not be accounted for is never committed. */
  lemma UnpaidCallsAreNotCommitted(sys: System, w: World, w': World, i: nat, a: Action, id: Id)
    requires SessionStep(sys, w, w', i, a, id) && w.sessions[i].phase.Running?
    requires w.sessions[i].phase.failed || (a.RecordCall? && UsageOutcome(State(w.events), a.usage).Err?)
    ensures !a.Commit? && (w'.sessions[i].phase.Running? ==> w'.sessions[i].phase.failed)
  {
    hide AfterCommit, Apply, Replay;
  }
}
