/** The pause policy in the step system: every world of every interleaving of sessions that heed the
    pause when they look at it, however old that look is when they write. */
module PausedRuns {
  import opened Ids
  import opened CheckpointContract
  import opened ThreadJournal
  import opened ThreadStores
  import opened Resume
  import opened PausePolicy
  import CP = CompactionProtocol
  import Safe = CompactionSafety

  /** What the step system leaves out of its events, by event id: the failure as it was offered, and
      whether a reset pauses. */
  datatype Details = Details(failure: Id -> Failure, resetPauses: Id -> bool)

  function Told(d: Details, e: Event): seq<Occurrence> {
    match e.payload
    case CompactionStarted(_, automatic) => [Started(automatic)]
    case CompactionFailed(_, _) => [Failed(d.failure(e.id))]
    case Compacted(_) => [Installed]
    case CheckpointReset(_) => [Occurrence.Reset(d.resetPauses(e.id))]
    case _ => []
  }

  function History(d: Details, events: seq<Event>): seq<Occurrence> {
    if events == [] then [] else History(d, events[..|events| - 1]) + Told(d, events[|events| - 1])
  }

  function PauseAt(d: Details, events: seq<Event>): Pause {
    StateOf(History(d, events))
  }

  // ---- sessions that heed the pause ----

  /** A session hands over its own limit and, for a manual failure, the pause it last saw. */
  predicate Offered(d: Details, limit: nat, id: Id, automatic: bool, seen: bool) {
    var f := d.failure(id);
    && f.automatic == automatic && Normalize(f).Some? && MaxAttempts(f) <= limit
    && (!automatic ==> f.streak.None? && f.paused == seen)
  }

  /** An automatic compaction is attempted only if the thread was not paused when it was loaded. */
  ghost predicate Heeds(d: Details, limit: nat, events: seq<Event>, p: CP.Phase, a: CP.Action, id: Id) {
    && (a.Load? && a.auto ==> !PauseAt(d, events).paused)
    && ((a.RecordFailure? && p.Failing?) || (a.Finish? && p.Finishing?) ==>
          p.rev <= |events| ==> Offered(d, limit, id, p.automatic, PauseAt(d, events[..p.rev]).paused))
  }

  ghost predicate HeedingStep(sys: CP.System, d: Details, limit: nat, w: CP.World, w': CP.World) {
    || (exists id, p :: CP.OutsideStep(w, w', id, p)
                        && (p.CompactionFailed? ==>
                              Offered(d, limit, id, p.automatic, PauseAt(d, w.events).paused)))
    || (exists i: nat, a, id :: CP.SessionStep(sys, w, w', i, a, id)
                                && Heeds(d, limit, w.events, w.sessions[i].phase, a, id))
  }

  ghost predicate HeedingRun(sys: CP.System, d: Details, limit: nat, run: seq<CP.World>) {
    && run != [] && CP.Init(run[0])
    && forall i :: 0 <= i < |run| - 1 ==> HeedingStep(sys, d, limit, run[i], run[i + 1])
  }

  // ---- the invariant ----

  /** The journal told so far is a run of the policy, with the same compaction pending. */
  ghost predicate Tracked(d: Details, limit: nat, events: seq<Event>) {
    && ValidJournal(events) && Run(History(d, events), limit)
    && PauseAt(d, events).pending == PendingFlag(CP.State(events))
  }

  /** The operation is on record; as long as a manual one is pending, a full streak was already
      visible in the state its session last saw. */
  ghost predicate Held(d: Details, limit: nat, events: seq<Event>, op: Id, automatic: bool, rev: nat) {
    && ValidJournal(events) && rev <= |events| && op in CP.State(events).operations
    && (!automatic && CP.State(events).pending == Some(Pending(op, false)) && PauseAt(d, events).streak >= limit ==>
          PauseAt(d, events[..rev]).paused)
  }

  ghost predicate Unpaused(d: Details, events: seq<Event>, rev: nat) {
    rev <= |events| && !PauseAt(d, events[..rev]).paused
  }

  ghost predicate Knows(d: Details, limit: nat, events: seq<Event>, p: CP.Phase) {
    match p
    case Idle => true
    case Loaded(_, automatic, rev) => automatic ==> Unpaused(d, events, rev)
    case Planned(_, automatic, rev, _, _) => automatic ==> Unpaused(d, events, rev)
    case Running(op, automatic, _, rev, _, _, _, _) => Held(d, limit, events, op, automatic, rev)
    case Failing(op, automatic, rev) =>
      Held(d, limit, events, op, automatic, rev) || (automatic && Unpaused(d, events, rev))
    case Reloading(op, automatic, rev) => automatic || Held(d, limit, events, op, automatic, rev)
    case Finishing(op, automatic, rev) => automatic || Held(d, limit, events, op, automatic, rev)
    case Settled(_) => true
  }

  ghost predicate PauseInv(sys: CP.System, d: Details, limit: nat, w: CP.World) {
    && Safe.Inv(sys, w) && Tracked(d, limit, w.events)
    && forall i :: 0 <= i < |w.sessions| ==> Knows(d, limit, w.events, w.sessions[i].phase)
  }

  // ---- appending one event ----

  /** What the policy asks of an event. */
  predicate Permitted(d: Details, limit: nat, events: seq<Event>, id: Id, p: Payload) {
    && (p.CompactionStarted? && p.automatic ==> !PauseAt(d, events).paused)
    && (p.CompactionFailed? ==> Allowed(PauseAt(d, events), Failed(d.failure(id)), limit))
  }

  lemma HistoryAppend(d: Details, events: seq<Event>, e: Event)
    ensures History(d, events + [e]) == History(d, events) + Told(d, e)
  {
    SnocInit(events, e);
  }

  /** The policy and the journal agree on what an event does to the pending compaction. */
  lemma PendingFollows(d: Details, limit: nat, s: ThreadState, pause: Pause, e: Event)
    requires Apply(s, e).Some? && pause.pending == PendingFlag(s) && Told(d, e) != []
    requires e.payload.CompactionStarted? && e.payload.automatic ==> !pause.paused
    requires e.payload.CompactionFailed? ==> Allowed(pause, Told(d, e)[0], limit)
    ensures Allowed(pause, Told(d, e)[0], limit)
    ensures After(pause, Told(d, e)[0]).pending == PendingFlag(Apply(s, e).value)
  {
    if e.payload.CompactionFailed? {
      RecordedFailuresReplay(pause, d.failure(e.id));
    }
  }

  lemma ToldOnce(d: Details, e: Event)
    ensures |Told(d, e)| <= 1
    ensures e.payload.CompactionFailed? ==> Told(d, e) == [Failed(d.failure(e.id))]
  {
  }

  lemma SilentKeepsPending(d: Details, s: ThreadState, e: Event)
    requires Apply(s, e).Some? && Told(d, e) == []
    ensures PendingFlag(Apply(s, e).value) == PendingFlag(s)
  {
  }

  lemma TrackedStays(d: Details, limit: nat, events: seq<Event>, id: Id, p: Payload)
    requires Tracked(d, limit, events) && Safe.Legal(events, id, p) && Permitted(d, limit, events, id, p)
    ensures Tracked(d, limit, CP.Append(events, id, p))
  {
    hide Apply, After, Allowed, PendingFlag, Run, StateOf, Told, Replay;
    var e, history := NextEvent(CP.State(events), id, p), History(d, events);
    Safe.LegalAppend(events, id, p);
    HistoryAppend(d, events, e);
    ToldOnce(d, e);
    if Told(d, e) == [] {
      assert history + [] == history;
      SilentKeepsPending(d, CP.State(events), e);
    } else {
      RunSnoc(history, Told(d, e)[0], limit);
      assert Told(d, e) == [Told(d, e)[0]];
      PendingFollows(d, limit, CP.State(events), StateOf(history), e);
    }
  }

  /** What leaves an operation pending says nothing about the pause, except for a reset. */
  lemma StillPending(d: Details, s: ThreadState, e: Event, op: Id, automatic: bool)
    requires Apply(s, e).Some? && Safe.Unrelated(e.payload, op)
    ensures op in s.operations ==> op in Apply(s, e).value.operations
    ensures Apply(s, e).value.pending == Some(Pending(op, automatic)) ==>
              s.pending == Some(Pending(op, automatic)) && (Told(d, e) == [] || e.payload.CheckpointReset?)
  {
  }

  lemma PauseAfter(d: Details, events: seq<Event>, e: Event)
    ensures Told(d, e) == [] ==> PauseAt(d, events + [e]) == PauseAt(d, events)
    ensures e.payload.CheckpointReset? ==> PauseAt(d, events + [e]).streak == 0
  {
    HistoryAppend(d, events, e);
    if Told(d, e) == [] {
      assert History(d, events) + [] == History(d, events);
    } else {
      SnocInit(History(d, events), Told(d, e)[0]);
    }
  }

  /** Nothing another session or the outside does falsifies what a session relies on. */
  lemma HeldStays(d: Details, limit: nat, events: seq<Event>, id: Id, p: Payload, op: Id, automatic: bool, rev: nat)
    requires limit >= 1 && Safe.Legal(events, id, p) && Safe.Unrelated(p, op)
    requires Held(d, limit, events, op, automatic, rev)
    ensures Held(d, limit, CP.Append(events, id, p), op, automatic, rev)
  {
    hide Apply, Told, PauseAt, Safe.Unrelated, Written;
    var e := NextEvent(CP.State(events), id, p);
    Safe.LegalAppend(events, id, p);
    StillPending(d, CP.State(events), e, op, false);
    PauseAfter(d, events, e);
    assert (events + [e])[..rev] == events[..rev];
  }

  lemma UnpausedStays(d: Details, events: seq<Event>, id: Id, p: Payload, rev: nat)
    requires Unpaused(d, events, rev)
    ensures Unpaused(d, CP.Append(events, id, p), rev)
  {
    assert CP.Append(events, id, p)[..rev] == events[..rev];
  }

  lemma KnowsStays(d: Details, limit: nat, events: seq<Event>, id: Id, p: Payload, phase: CP.Phase)
    requires limit >= 1 && Safe.Legal(events, id, p) && Knows(d, limit, events, phase)
    requires !phase.Idle? ==> Safe.Unrelated(p, phase.op)
    ensures Knows(d, limit, CP.Append(events, id, p), phase)
  {
    hide Held, Unpaused, Safe.Unrelated, Safe.Legal;
    if !phase.Idle? && !phase.Settled? {
      if Unpaused(d, events, phase.rev) {
        UnpausedStays(d, events, id, p, phase.rev);
      }
      if Held(d, limit, events, phase.op, phase.automatic, phase.rev) {
        HeldStays(d, limit, events, id, p, phase.op, phase.automatic, phase.rev);
      }
    }
  }

  // ---- the steps of one session ----

  /** Seen from its own end the journal shows a full streak together with the pause. */
  lemma HeldAtEnd(d: Details, limit: nat, events: seq<Event>, op: Id, automatic: bool)
    requires limit >= 1 && Tracked(d, limit, events) && op in CP.State(events).operations
    ensures Held(d, limit, events, op, automatic, |events|)
  {
    assert events[..|events|] == events;
    AttemptsAreBounded(History(d, events), limit);
  }

  /** A failure written at the revision its session last saw. */
  lemma FailurePermitted(d: Details, limit: nat, events: seq<Event>, id: Id, p: CP.Phase)
    requires limit >= 1 && Tracked(d, limit, events) && p.Failing? && Knows(d, limit, events, p) && p.op != Id.Blank
    requires Heeds(d, limit, events, p, CP.RecordFailure, id)
    requires FailureOutcome(CP.State(events), p.rev, p.op, p.automatic).Ok?
    ensures Permitted(d, limit, events, id, CompactionFailed(p.op, p.automatic))
  {
    assert events[..p.rev] == events;
    AttemptsAreBounded(History(d, events), limit);
  }

  /** A failure of the operation that is still pending, whatever has happened since. */
  lemma FinishPermitted(d: Details, limit: nat, events: seq<Event>, id: Id, p: CP.Phase)
    requires limit >= 1 && Tracked(d, limit, events) && p.Finishing? && Knows(d, limit, events, p)
    requires p.rev <= |events| && Heeds(d, limit, events, p, CP.Finish, id)
    requires FinishOutcome(CP.State(events), p.op, p.automatic).Ok?
    ensures Permitted(d, limit, events, id, CompactionFailed(p.op, p.automatic))
  {
  }

  /** A session starts at the revision at which it found the thread unpaused. */
  lemma StartKnows(sys: CP.System, d: Details, limit: nat, events: seq<Event>, s: CP.Session, id: Id)
    requires limit >= 1 && Tracked(d, limit, events) && Knows(d, limit, events, s.phase) && s.phase.Planned?
    requires StartOutcome(CP.State(events), s.phase.rev, s.phase.op, s.phase.automatic).Ok?
    requires Safe.Legal(events, id, CompactionStarted(s.phase.op, s.phase.automatic))
    ensures var after := CP.Append(events, id, CompactionStarted(s.phase.op, s.phase.automatic));
      Tracked(d, limit, after) && Held(d, limit, after, s.phase.op, s.phase.automatic, |events| + 1)
  {
    assert events[..s.phase.rev] == events;
    var p := CompactionStarted(s.phase.op, s.phase.automatic);
    TrackedStays(d, limit, events, id, p);
    Safe.LegalAppend(events, id, p);
    HeldAtEnd(d, limit, CP.Append(events, id, p), s.phase.op, s.phase.automatic);
  }

  /** A recorded call leaves the session with the newest state, a refused one with the state it had. */
  lemma CallKnows(d: Details, limit: nat, events: seq<Event>, s: CP.Session, u: Usage, id: Id)
    requires limit >= 1 && Tracked(d, limit, events) && s.phase.Running? && Knows(d, limit, events, s.phase)
    requires UsageOutcome(CP.State(events), u) == Ok(Some(UsageRecorded(u))) ==>
               Safe.Legal(events, id, UsageRecorded(u))
    ensures var o := CP.AfterCall(events, s, u, id);
      Tracked(d, limit, o.events) && Knows(d, limit, o.events, o.session.phase)
  {
    var op, automatic := s.phase.op, s.phase.automatic;
    var outcome := UsageOutcome(CP.State(events), u);
    if outcome.Ok? {
      HeldAtEnd(d, limit, events, op, automatic);
      if outcome.value.Some? {
        TrackedStays(d, limit, events, id, UsageRecorded(u));
        Safe.LegalAppend(events, id, UsageRecorded(u));
        HeldAtEnd(d, limit, CP.Append(events, id, UsageRecorded(u)), op, automatic);
      }
    }
  }

  /** What a step of a session is allowed to rest on. */
  ghost predicate Ready(sys: CP.System, d: Details, limit: nat, events: seq<Event>, s: CP.Session, a: CP.Action,
                        id: Id) {
    && limit >= 1 && ValidJournal(events) && Tracked(d, limit, events) && Knows(d, limit, events, s.phase)
    && (!s.phase.Idle? ==> s.phase.op != Id.Blank) && (s.phase.Finishing? ==> s.phase.rev <= |events|)
    && CP.Next(sys, events, s, a, id).Some? && Heeds(d, limit, events, s.phase, a, id)
  }

  /** Steps that write nothing hand on what the session knows. */
  lemma QuietKnows(sys: CP.System, d: Details, limit: nat, events: seq<Event>, s: CP.Session, a: CP.Action, id: Id)
    requires Ready(sys, d, limit, events, s, a, id)
    requires a.Load? || a.Plan? || a.GiveUp? || a.PreflightFails? || a.RunFails? || a.Reload? || a.Reopen?
    ensures var o := CP.Next(sys, events, s, a, id).value;
      o.events == events && Knows(d, limit, events, o.session.phase)
  {
    hide Tracked, Held, Offered, CP.LoadMemory, CP.CompactionMemory, PlanFollows, PauseAt;
    assert events[..|events|] == events;
  }

  lemma CommitMoves(sys: CP.System, events: seq<Event>, s: CP.Session, id: Id, cp: Checkpoint, eventId: Id)
    requires ValidJournal(events) && s.phase.Running?
    ensures var o, r := CP.AfterCommit(sys, events, s, id, cp, eventId), s.phase;
      || o == CP.Move(events, s, CP.Failing(r.op, r.automatic, r.rev))
      || (o.session.phase.Idle? && |o.events| == |events| + 1 && o.events[|events|].payload.Compacted?)
  {
    hide ToStored, CP.ActiveAt, Replay, FindCheckpoint;
  }

  /** A checkpoint takes the pause away; a refused one leaves what the session knows. */
  lemma CommitKnows(sys: CP.System, d: Details, limit: nat, events: seq<Event>, s: CP.Session, id: Id, cp: Checkpoint,
                    eventId: Id, p: Option<Payload>)
    requires ValidJournal(events) && s.phase.Running? && Tracked(d, limit, events) && Knows(d, limit, events, s.phase)
    requires Safe.Did(events, CP.AfterCommit(sys, events, s, id, cp, eventId).events, eventId, p, s.phase.op)
    ensures var o := CP.AfterCommit(sys, events, s, id, cp, eventId);
      Tracked(d, limit, o.events) && Knows(d, limit, o.events, o.session.phase)
  {
    hide Tracked, Held, PauseAt, CP.AfterCommit;
    CommitMoves(sys, events, s, id, cp, eventId);
    if p.Some? {
      assert CP.AfterCommit(sys, events, s, id, cp, eventId).events[|events|].payload == p.value;
      TrackedStays(d, limit, events, eventId, p.value);
    }
  }

  lemma FailureKnows(sys: CP.System, d: Details, limit: nat, events: seq<Event>, s: CP.Session, a: CP.Action, id: Id,
                     p: Option<Payload>)
    requires Ready(sys, d, limit, events, s, a, id) && (a.RecordFailure? || a.Finish?)
    requires Safe.Did(events, CP.Next(sys, events, s, a, id).value.events, id, p, s.phase.op)
    ensures var o := CP.Next(sys, events, s, a, id).value;
      Tracked(d, limit, o.events) && Knows(d, limit, o.events, o.session.phase)
  {
    hide Tracked, Held, Permitted, PauseAt, Offered;
    var o := CP.Next(sys, events, s, a, id).value;
    if p.Some? {
      assert o.events[|events|].payload == p.value;
      if a.RecordFailure? {
        FailurePermitted(d, limit, events, id, s.phase);
      } else {
        FinishPermitted(d, limit, events, id, s.phase);
      }
      TrackedStays(d, limit, events, id, p.value);
    }
  }

  /** One session's step, whatever it writes, keeps the journal a run of the policy. */
  lemma ActorKnows(sys: CP.System, d: Details, limit: nat, events: seq<Event>, s: CP.Session, a: CP.Action, id: Id,
                   p: Option<Payload>)
    requires Ready(sys, d, limit, events, s, a, id)
    requires Safe.Did(events, CP.Next(sys, events, s, a, id).value.events, id, p,
                      if s.phase.Idle? then Id.Blank else s.phase.op)
    ensures var o := CP.Next(sys, events, s, a, id).value;
      Tracked(d, limit, o.events) && Knows(d, limit, o.events, o.session.phase)
  {
    if a.Start? {
      StartStepKnows(sys, d, limit, events, s, id, p);
    } else if a.RecordCall? {
      CallStepKnows(sys, d, limit, events, s, a.usage, id, p);
    } else if a.Commit? {
      CommitKnows(sys, d, limit, events, s, a.checkpointId, a.checkpoint, id, p);
    } else if a.RecordFailure? || a.Finish? {
      FailureKnows(sys, d, limit, events, s, a, id, p);
    } else {
      QuietKnows(sys, d, limit, events, s, a, id);
    }
  }

  lemma StartStepKnows(sys: CP.System, d: Details, limit: nat, events: seq<Event>, s: CP.Session, id: Id,
                       p: Option<Payload>)
    requires Ready(sys, d, limit, events, s, CP.Start, id)
    requires Safe.Did(events, CP.Next(sys, events, s, CP.Start, id).value.events, id, p, s.phase.op)
    ensures var o := CP.Next(sys, events, s, CP.Start, id).value;
      Tracked(d, limit, o.events) && Knows(d, limit, o.events, o.session.phase)
  {
    hide Tracked, Held, PauseAt, Heeds;
    var o := CP.Next(sys, events, s, CP.Start, id).value;
    if p.Some? {
      assert o.events[|events|].payload == p.value;
      StartKnows(sys, d, limit, events, s, id);
    }
  }

  lemma CallStepKnows(sys: CP.System, d: Details, limit: nat, events: seq<Event>, s: CP.Session, u: Usage, id: Id,
                      p: Option<Payload>)
    requires Ready(sys, d, limit, events, s, CP.RecordCall(u), id)
    requires Safe.Did(events, CP.Next(sys, events, s, CP.RecordCall(u), id).value.events, id, p, s.phase.op)
    ensures var o := CP.Next(sys, events, s, CP.RecordCall(u), id).value;
      Tracked(d, limit, o.events) && Knows(d, limit, o.events, o.session.phase)
  {
    hide Tracked, Held, PauseAt, Heeds;
    var o := CP.Next(sys, events, s, CP.RecordCall(u), id).value;
    if p.Some? {
      assert o.events[|events|].payload == p.value;
    }
    CallKnows(d, limit, events, s, u, id);
  }

  lemma SessionStepKnows(sys: CP.System, d: Details, limit: nat, w: CP.World, w': CP.World, i: nat, a: CP.Action,
                         id: Id)
    requires Safe.Sound(sys) && limit >= 1 && PauseInv(sys, d, limit, w) && CP.SessionStep(sys, w, w', i, a, id)
    requires Heeds(d, limit, w.events, w.sessions[i].phase, a, id)
    ensures PauseInv(sys, d, limit, w')
  {
    hide Tracked, Knows, Heeds, CP.Next, Safe.JournalOk, Safe.Legal;
    var p := Safe.SessionStepKeeps(sys, w, w', i, a, id);
    assert Safe.SessionOk(sys, w.events, w.sessions[i]);
    ActorKnows(sys, d, limit, w.events, w.sessions[i], a, id, p);
    forall j | 0 <= j < |w'.sessions| ensures Knows(d, limit, w'.events, w'.sessions[j].phase) {
      if j != i && p.Some? {
        var phase := w.sessions[j].phase;
        assert w.sessions[i].phase.Idle? || phase.Idle? || w.sessions[i].phase.op != phase.op;
        KnowsStays(d, limit, w.events, id, p.value, phase);
      }
    }
  }

  lemma OutsideStepKnows(sys: CP.System, d: Details, limit: nat, w: CP.World, w': CP.World, id: Id, p: Payload)
    requires limit >= 1 && PauseInv(sys, d, limit, w) && CP.OutsideStep(w, w', id, p)
    requires p.CompactionFailed? ==> Offered(d, limit, id, p.automatic, PauseAt(d, w.events).paused)
    ensures PauseInv(sys, d, limit, w')
  {
    assert Safe.Legal(w.events, id, p);
    Safe.OutsideKeeps(sys, w, w', id, p);
    AttemptsAreBounded(History(d, w.events), limit);
    TrackedStays(d, limit, w.events, id, p);
    forall j | 0 <= j < |w'.sessions| ensures Knows(d, limit, w'.events, w'.sessions[j].phase) {
      KnowsStays(d, limit, w.events, id, p, w.sessions[j].phase);
    }
  }

  lemma InitKnows(sys: CP.System, d: Details, limit: nat, w: CP.World)
    requires CP.Init(w)
    ensures PauseInv(sys, d, limit, w)
  {
    Safe.InitIsOk(sys, w);
    InitTracked(d, limit, w.events);
    hide Safe.Inv, Tracked;
  }

  lemma InitTracked(d: Details, limit: nat, events: seq<Event>)
    requires |events| == 1 && Written(events)
    ensures Tracked(d, limit, events)
  {
    assert events[..0] == [];
    assert events[0].payload.ThreadCreated?;
    assert History(d, events) == [];
  }

  lemma HeedingStepKeeps(sys: CP.System, d: Details, limit: nat, w: CP.World, w': CP.World)
    requires Safe.Sound(sys) && limit >= 1 && PauseInv(sys, d, limit, w) && HeedingStep(sys, d, limit, w, w')
    ensures PauseInv(sys, d, limit, w')
  {
    hide PauseInv, CP.OutsideStep, CP.Next, Heeds, Offered, PauseAt;
    if exists id, p :: CP.OutsideStep(w, w', id, p)
                       && (p.CompactionFailed? ==> Offered(d, limit, id, p.automatic, PauseAt(d, w.events).paused)) {
      var id, p :| CP.OutsideStep(w, w', id, p)
        && (p.CompactionFailed? ==> Offered(d, limit, id, p.automatic, PauseAt(d, w.events).paused));
      OutsideStepKnows(sys, d, limit, w, w', id, p);
    } else {
      var i: nat, a, id :| CP.SessionStep(sys, w, w', i, a, id)
        && Heeds(d, limit, w.events, w.sessions[i].phase, a, id);
      SessionStepKnows(sys, d, limit, w, w', i, a, id);
    }
  }

  /** Every world of every run whose sessions heed the pause keeps the invariant. */
  lemma {:induction false} HeedingRunsAreSafe(sys: CP.System, d: Details, limit: nat, run: seq<CP.World>, n: nat)
    requires Safe.Sound(sys) && limit >= 1 && HeedingRun(sys, d, limit, run) && n < |run|
    ensures PauseInv(sys, d, limit, run[n])
  {
    hide PauseInv, HeedingStep, CP.Init;
    if n == 0 {
      InitKnows(sys, d, limit, run[0]);
    } else {
      HeedingRunsAreSafe(sys, d, limit, run, n - 1);
      HeedingStepKeeps(sys, d, limit, run[n - 1], run[n]);
    }
  }

  // ---- what that means ----

  /** However many sessions compact one thread, in every world the streak is the number of low-gain
      attempts recorded since anything else was decided, it never passes the limit, and at the
      limit the thread is paused with no automatic compaction left to run. */
  lemma LowGainIsBounded(sys: CP.System, d: Details, limit: nat, run: seq<CP.World>, n: nat)
    requires Safe.Sound(sys) && limit >= 1 && HeedingRun(sys, d, limit, run) && n < |run|
    ensures ValidJournal(run[n].events)
    ensures var s := PauseAt(d, run[n].events);
      && EndsWith(Filter(Counts, History(d, run[n].events)), s.streak) && s.streak <= limit
      && (s.streak == limit ==>
            s.paused && forall op :: CP.State(run[n].events).pending != Some(Pending(op, true)))
  {
    HeedingRunsAreSafe(sys, d, limit, run, n);
    AttemptsAreBounded(History(d, run[n].events), limit);
    StreakCountsAttempts(History(d, run[n].events), limit);
  }

  lemma StartsAllowed(s: Pause, limit: nat)
    ensures Allowed(s, Started(true), limit) ==> !s.paused
  {
  }

  /** An automatic compaction starts only in a thread that is not paused at that moment, though its
      session looked at the pause some steps earlier. */
  lemma {:induction false} AutomaticStartsUnpaused(d: Details, limit: nat, events: seq<Event>, j: nat)
    requires Run(History(d, events), limit) && j < |events|
    requires events[j].payload.CompactionStarted? && events[j].payload.automatic
    ensures !PauseAt(d, events[..j]).paused
  {
    hide Allowed, Run, StateOf;
    var rest, last := events[..|events| - 1], events[|events| - 1];
    ToldOnce(d, last);
    if Told(d, last) == [] {
      assert History(d, rest) + [] == History(d, rest);
    } else {
      RunSnoc(History(d, rest), Told(d, last)[0], limit);
      assert Told(d, last) == [Told(d, last)[0]];
      StartsAllowed(StateOf(History(d, rest)), limit);
    }
    if j < |events| - 1 {
      AutomaticStartsUnpaused(d, limit, rest, j);
      assert rest[..j] == events[..j];
    }
  }

  lemma NoStartWhilePaused(sys: CP.System, d: Details, limit: nat, run: seq<CP.World>, n: nat, j: nat)
    requires Safe.Sound(sys) && limit >= 1 && HeedingRun(sys, d, limit, run) && n < |run| && j < |run[n].events|
    requires run[n].events[j].payload.CompactionStarted? && run[n].events[j].payload.automatic
    ensures !PauseAt(d, run[n].events[..j]).paused
  {
    HeedingRunsAreSafe(sys, d, limit, run, n);
    AutomaticStartsUnpaused(d, limit, run[n].events, j);
  }
}
