/** Forking a thread (`internal/store/thread_fork.go`): a committed prefix of one hash-chained
    journal is rebuilt, event by event, under another thread id. */
module ThreadFork {
  import opened Ids
  import opened Messages
  import opened ThreadJournal

  /** Creation metadata that a fork rewrites. */
  datatype Meta = Meta(thread: Id, title: string, model: string, parent: Id, boundaryTurn: Id, sourceHash: Digest)

  datatype Body = Created(meta: Meta, systemPrompt: string) | Recorded(payload: Payload)

  datatype Envelope = Envelope(
    sequence: nat, id: Id, thread: Id, timestamp: nat, body: Body, expectedRevision: nat, revision: nat,
    payloadHash: Digest, previousHash: Digest, hash: Digest)

  /** SHA-256 of a payload and of an envelope without its own hash. */
  datatype Hasher = Hasher(payload: Body -> Digest, envelope: Envelope -> Digest)

  function PayloadOf(b: Body): Payload {
    if b.Created? then ThreadCreated else b.payload
  }

  function EventOf(e: Envelope): Event {
    Event(e.sequence, e.id, PayloadOf(e.body))
  }

  function Events(chain: seq<Envelope>): seq<Event> {
    if chain == [] then [] else Events(chain[..|chain| - 1]) + [EventOf(chain[|chain| - 1])]
  }

  /** `validateThreadEvent` against the event before it; a blank hash precedes the first one. */
  predicate ValidNext(h: Hasher, thread: Id, count: nat, lastHash: Digest, e: Envelope) {
    && e.sequence == count + 1 && e.revision == count + 1 && e.expectedRevision == count
    && (e.body.Created? <==> e.sequence == 1) && (e.body.Recorded? ==> !e.body.payload.ThreadCreated?)
    && e.thread == thread != Id.Blank && e.id != Id.Blank
    && e.payloadHash == h.payload(e.body)
    && e.previousHash == lastHash
    && e.hash == h.envelope(e.(hash := Malformed))
  }

  function LastHash(chain: seq<Envelope>): Digest {
    if chain == [] then Malformed else chain[|chain| - 1].hash
  }

  ghost predicate ValidChain(h: Hasher, thread: Id, chain: seq<Envelope>) {
    chain != [] ==>
      var rest := chain[..|chain| - 1];
      ValidChain(h, thread, rest) && ValidNext(h, thread, |rest|, LastHash(rest), chain[|rest|])
  }

  lemma ChainSnoc(h: Hasher, thread: Id, chain: seq<Envelope>, e: Envelope)
    ensures ValidChain(h, thread, chain + [e]) <==>
            ValidChain(h, thread, chain) && ValidNext(h, thread, |chain|, LastHash(chain), e)
    ensures Events(chain + [e]) == Events(chain) + [EventOf(e)]
  {
    SnocInit(chain, e);
  }

  lemma {:induction false} ChainPrefix(h: Hasher, thread: Id, chain: seq<Envelope>, n: nat)
    requires ValidChain(h, thread, chain) && n <= |chain|
    ensures ValidChain(h, thread, chain[..n])
    ensures |Events(chain)| == |chain| && Events(chain[..n]) == Events(chain)[..n]
  {
    if n == |chain| {
      assert chain[..n] == chain;
      EventsLength(chain);
      assert Events(chain)[..n] == Events(chain);
    } else {
      ChainPrefix(h, thread, chain[..|chain| - 1], n);
      assert chain[..|chain| - 1][..n] == chain[..n];
      EventsLength(chain[..|chain| - 1]);
    }
  }

  lemma {:induction false} EventsLength(chain: seq<Envelope>)
    ensures |Events(chain)| == |chain|
    ensures forall i :: 0 <= i < |chain| ==> Events(chain)[i] == EventOf(chain[i])
  {
    if chain != [] {
      EventsLength(chain[..|chain| - 1]);
    }
  }

  // ---- choosing the boundary ----

  datatype ForkError =
    | ChildIsSource | ThreadIsArchived | PendingCompaction | ActiveTurn | UnsupportedState | NoCommittedTurn
    | InvalidBoundary

  datatype Boundary = Boundary(index: nat, turn: Id)

  /** What a fork refuses to copy. */
  predicate Unsupported(p: Payload) {
    p.TaskUpdated? || p.CompactionStarted? || p.Compacted? || p.CompactionFailed? || p.CheckpointReset?
    || (p.UsageRecorded? && p.usage.compaction)
  }

  predicate IsCommit(events: seq<Event>, b: Boundary) {
    b.index < |events| && events[b.index].payload.TurnCommitted? && events[b.index].payload.turn == b.turn
  }

  ghost predicate HasUnsupported(events: seq<Event>) {
    exists i :: 0 <= i < |events| && Unsupported(events[i].payload)
  }

  ghost predicate HasCommit(events: seq<Event>) {
    exists i :: 0 <= i < |events| && events[i].payload.TurnCommitted?
  }

  ghost predicate CommitsTurn(events: seq<Event>, turn: Id) {
    exists i :: 0 <= i < |events| && IsCommit(events, Boundary(i, turn))
  }

  ghost predicate LatestCommit(events: seq<Event>, b: Boundary) {
    IsCommit(events, b) && forall i :: b.index < i < |events| ==> !events[i].payload.TurnCommitted?
  }

  /** The first refusal that applies, in the order of the checks. */
  ghost function ForkRefusal(events: seq<Event>, beforeFirst: bool, lastTurn: Id): Option<ForkError>
    requires ValidJournal(events)
  {
    var s := Replay(events).value;
    if s.archived then Some(ThreadIsArchived)
    else if s.pending.Some? then Some(PendingCompaction)
    else if s.activeTurn != Id.Blank then Some(ActiveTurn)
    else if HasUnsupported(events) then Some(UnsupportedState)
    else if beforeFirst then None
    else if !HasCommit(events) then Some(NoCommittedTurn)
    else if lastTurn != Id.Blank && !CommitsTurn(events, lastTurn) then Some(InvalidBoundary)
    else None
  }

  /** `analyzeForkSource`: the creation event, the latest commit, or the commit of a named turn. */
  method AnalyzeForkSource(events: seq<Event>, beforeFirst: bool, lastTurn: Id) returns (r: Result<Boundary, ForkError>)
    requires ValidJournal(events) && events != []
    ensures var refusal := ForkRefusal(events, beforeFirst, lastTurn);
      if refusal.Some? then r == Err(refusal.value)
      else r.Ok? && if beforeFirst then r.value == Boundary(0, Id.Blank)
                    else if lastTurn == Id.Blank then LatestCommit(events, r.value)
                    else IsCommit(events, r.value) && r.value.turn == lastTurn
  {
    var s := Replay(events).value;
    if s.archived {
      return Err(ThreadIsArchived);
    }
    if s.pending.Some? {
      return Err(PendingCompaction);
    }
    if s.activeTurn != Id.Blank {
      return Err(ActiveTurn);
    }
    var commits: seq<Boundary> := [];
    for i := 0 to |events|
      invariant forall k :: 0 <= k < i ==> !Unsupported(events[k].payload)
      invariant forall k :: 0 <= k < |commits| ==> IsCommit(events, commits[k]) && commits[k].index < i
      invariant forall k :: 0 <= k < i && events[k].payload.TurnCommitted? ==>
                Boundary(k, events[k].payload.turn) in commits
      invariant commits != [] ==> forall k :: commits[|commits| - 1].index < k < i ==> !events[k].payload.TurnCommitted?
    {
      if Unsupported(events[i].payload) {
        return Err(UnsupportedState);
      }
      if events[i].payload.TurnCommitted? {
        commits := commits + [Boundary(i, events[i].payload.turn)];
      }
    }
    if beforeFirst {
      return Ok(Boundary(0, Id.Blank));
    }
    if commits == [] {
      return Err(NoCommittedTurn);
    }
    assert IsCommit(events, commits[0]);
    if lastTurn == Id.Blank {
      return Ok(commits[|commits| - 1]);
    }
    for i := 0 to |commits|
      invariant forall k :: 0 <= k < i ==> commits[k].turn != lastTurn
    {
      if commits[i].turn == lastTurn {
        assert IsCommit(events, Boundary(commits[i].index, lastTurn));
        return Ok(commits[i]);
      }
    }
    r := Err(InvalidBoundary);
  }

  // ---- rebuilding ----

  datatype RebuildError = InvalidEvent(position: int) | InvalidLifecycle(position: int)

  datatype ForkSource = ForkSource(thread: Id, title: string, model: string, boundary: Boundary, sourceHash: Digest)

  function ChildBody(child: Id, source: ForkSource, b: Body): Body {
    if b.Created? then
      Created(Meta(child, source.title, source.model, source.thread, source.boundary.turn, source.sourceHash),
              b.systemPrompt)
    else b
  }

  /** An event is copied with its time; only the creation event is rewritten, to say where the child comes from. */
  ghost predicate Carried(child: Id, source: ForkSource, from: Envelope, to: Envelope) {
    && to.timestamp == from.timestamp
    && (from.body.Recorded? ==> to.body == from.body)
    && (from.body.Created? ==>
          && to.body.Created? && to.body.systemPrompt == from.body.systemPrompt
          && to.body.meta.thread == child && to.body.meta.title == source.title && to.body.meta.model == source.model
          && to.body.meta.parent == source.thread && to.body.meta.boundaryTurn == source.boundary.turn
          && to.body.meta.sourceHash == source.sourceHash)
  }

  /** The rebuilt prefix is a valid chain of the child, and no check of the rebuild can fail. */
  method RebuildForkEvents(h: Hasher, child: Id, source: ForkSource, chain: seq<Envelope>, freshId: nat -> Id)
    returns (r: Result<seq<Envelope>, RebuildError>)
    requires child != Id.Blank && (forall k :: freshId(k) != Id.Blank)
    requires source.boundary.index < |chain| && ValidChain(h, source.thread, chain) && ValidJournal(Events(chain))
    ensures r.Ok? && |r.value| == source.boundary.index + 1
    ensures ValidChain(h, child, r.value)
    ensures forall i :: 0 <= i <= source.boundary.index ==> Carried(child, source, chain[i], r.value[i])
    ensures Replay(Events(r.value)) == Replay(Events(chain[..source.boundary.index + 1])) != None
  {
    hide Events, Replay, ValidChain, Apply;
    var events: seq<Envelope> := [];
    NothingYet(h, child, chain);
    for i := 0 to source.boundary.index + 1
      invariant |events| == i && ValidChain(h, child, events)
      invariant forall k :: 0 <= k < i ==> Carried(child, source, chain[k], events[k])
      invariant Replay(Events(events)) == Replay(Events(chain[..i])) != None
    {
      ghost var state := Replay(Events(events)).value;
      var from := chain[i];
      var body := ChildBody(child, source, from.body);
      var event := Envelope(i + 1, freshId(i), child, from.timestamp, body, i, i + 1, h.payload(body),
                            LastHash(events), Malformed);
      event := event.(hash := h.envelope(event));
      RebuildStep(h, source.thread, chain, i, events, event);
      if !ValidNext(h, child, i, LastHash(events), event) {
        return Err(InvalidEvent(i + 1));
      }
      if Apply(Replay(Events(events)).value, EventOf(event)).None? {
        return Err(InvalidLifecycle(i + 1));
      }
      ChainSnoc(h, child, events, event);
      events := events + [event];
    }
    r := Ok(events);
  }

  lemma NothingYet(h: Hasher, child: Id, chain: seq<Envelope>)
    ensures ValidChain(h, child, []) && Replay(Events([])) == Replay(Events(chain[..0])) != None
  {
    assert chain[..0] == [];
  }

  lemma SourceStep(h: Hasher, thread: Id, chain: seq<Envelope>, i: nat)
    requires i < |chain| && ValidChain(h, thread, chain) && ValidJournal(Events(chain))
    ensures ValidNext(h, thread, i, LastHash(chain[..i]), chain[i])
    ensures ValidJournal(Events(chain[..i]))
    ensures Replay(Events(chain[..i + 1])) == Apply(Replay(Events(chain[..i])).value, EventOf(chain[i])) != None
  {
    hide Apply, Replay, Events, ValidNext;
    ChainPrefix(h, thread, chain, i + 1);
    ReplayPrefix(Events(chain), i + 1);
    assert chain[..i + 1] == chain[..i] + [chain[i]];
    ChainSnoc(h, thread, chain[..i], chain[i]);
    ReplayAppend(Events(chain[..i]), EventOf(chain[i]));
  }

  /** One event: the child's copy is accepted exactly as the source's event was. */
  lemma RebuildStep(h: Hasher, thread: Id, chain: seq<Envelope>, i: nat, events: seq<Envelope>, event: Envelope)
    requires i < |chain| && ValidChain(h, thread, chain) && ValidJournal(Events(chain)) && |events| == i
    requires Replay(Events(events)) == Replay(Events(chain[..i])) != None
    requires event.sequence == i + 1 && event.id != Id.Blank && PayloadOf(event.body) == PayloadOf(chain[i].body)
    ensures chain[i].body.Created? <==> i == 0
    ensures chain[i].body.Recorded? ==> !chain[i].body.payload.ThreadCreated?
    ensures Apply(Replay(Events(events)).value, EventOf(event)).Some?
    ensures Replay(Events(events + [event])) == Replay(Events(chain[..i + 1])) != None
  {
    hide Apply, Replay, ValidChain, Events;
    SourceStep(h, thread, chain, i);
    ChainSnoc(h, thread, events, event);
    IdsDoNotMatter(Replay(Events(events)).value, EventOf(chain[i]), EventOf(event));
    ReplayAppend(Events(events), EventOf(event));
  }

  /** Replay looks at an event's id only to see that it has one. */
  lemma IdsDoNotMatter(s: ThreadState, a: Event, b: Event)
    requires a.sequence == b.sequence && a.payload == b.payload && a.id != Id.Blank && b.id != Id.Blank
    ensures Apply(s, a) == Apply(s, b)
  {
  }

  // ---- what the child replays to ----

  function Fold<S>(step: (S, Body) -> S, state: S, chain: seq<Envelope>): S {
    if chain == [] then state else step(Fold(step, state, chain[..|chain| - 1]), chain[|chain| - 1].body)
  }

  /** Any projection that does not look at the creation metadata reads the same from the child as
      from the source prefix: turns, messages, tools, usage. */
  lemma {:induction false} ForkPreservesProjections<S(!new)>(step: (S, Body) -> S, state: S, child: Id,
                                                             source: ForkSource,
                                                             from: seq<Envelope>, to: seq<Envelope>)
    requires |from| == |to| && forall i :: 0 <= i < |from| ==> Carried(child, source, from[i], to[i])
    requires forall s, m, m', p :: step(s, Created(m, p)) == step(s, Created(m', p))
    ensures Fold(step, state, to) == Fold(step, state, from)
  {
    if from != [] {
      var n := |from| - 1;
      ForkPreservesProjections(step, state, child, source, from[..n], to[..n]);
      assert Carried(child, source, from[n], to[n]);
      var b, copy := from[n].body, to[n].body;
      if b.Created? {
        assert b == Created(b.meta, b.systemPrompt) && copy == Created(copy.meta, b.systemPrompt);
      }
    }
  }

  /** Every child is idle: no turn is open at a committed boundary, and nothing about compaction
      was copied. */
  lemma ChildIsIdle(events: seq<Event>, b: Boundary)
    requires ValidJournal(events) && b.index < |events|
    requires IsCommit(events, b) || b.index == 0
    requires forall i :: 0 <= i < |events| ==> !Unsupported(events[i].payload)
    ensures ValidJournal(events[..b.index + 1])
    ensures
      var s := Replay(events[..b.index + 1]).value;
      s.activeTurn == Id.Blank && s.pending == None && s.activeCheckpoint == Id.Blank
  {
    ReplayPrefix(events, b.index + 1);
    var prefix := events[..b.index + 1];
    NoCompaction(prefix);
    var s := Replay(prefix[..b.index]).value;
    assert Apply(s, events[b.index]).Some?;
    if b.index == 0 {
      assert prefix[..0] == [];
      assert events[0].payload.ThreadCreated?;
    }
  }

  lemma {:induction false} NoCompaction(events: seq<Event>)
    requires ValidJournal(events) && forall i :: 0 <= i < |events| ==> !Unsupported(events[i].payload)
    ensures var s := Replay(events).value; s.pending == None && s.activeCheckpoint == Id.Blank
  {
    if events != [] {
      NoCompaction(events[..|events| - 1]);
    }
  }

  // ---- the whole operation ----

  /** What a thread that never compacted holds: turns, their usage, and its own metadata. */
  predicate Conversation(p: Payload) {
    || p.ThreadCreated? || p.TurnStarted? || p.TurnActivity? || p.TurnCommitted? || p.TurnClosed?
    || (p.UsageRecorded? && !p.usage.compaction)
    || p.Archived? || p.Unarchived? || p.MetadataChanged?
  }

  /** What `fork` says about `chain`: it copies its first events, names the hash of the last one copied, and is
      itself a valid chain. */
  ghost predicate ForkOf(h: Hasher, thread: Id, title: string, model: string, chain: seq<Envelope>, child: Id, turn: Id,
                         fork: seq<Envelope>) {
    && 0 < |fork| <= |chain| && ValidChain(h, child, fork)
    && forall i :: 0 <= i < |fork| ==>
         Carried(child, ForkSource(thread, title, model, Boundary(|fork| - 1, turn), chain[|fork| - 1].hash),
                 chain[i], fork[i])
  }

  /** Where the copy ends. */
  ghost predicate EndsWhereAsked(events: seq<Event>, beforeFirst: bool, lastTurn: Id, b: Boundary) {
    if beforeFirst then b == Boundary(0, Id.Blank)
    else if lastTurn == Id.Blank then LatestCommit(events, b)
    else IsCommit(events, b) && b.turn == lastTurn
  }

  ghost predicate ForkedWhereAsked(h: Hasher, thread: Id, title: string, model: string, chain: seq<Envelope>, child: Id,
                                   beforeFirst: bool, lastTurn: Id, fork: seq<Envelope>) {
    exists turn :: ForkOf(h, thread, title, model, chain, child, turn, fork)
                     && EndsWhereAsked(Events(chain), beforeFirst, lastTurn, Boundary(|fork| - 1, turn))
  }

  /** No turn is open, no compaction pending, no checkpoint active. */
  ghost predicate Idle(events: seq<Event>) {
    var s := Replay(events);
    s.Some? && s.value.activeTurn == Id.Blank && s.value.pending == None && s.value.activeCheckpoint == Id.Blank
  }

  ghost predicate OnlyConversation(events: seq<Event>) {
    forall i :: 0 <= i < |events| ==> Conversation(events[i].payload)
  }

  lemma CopiesConversation(child: Id, source: ForkSource, chain: seq<Envelope>, fork: seq<Envelope>)
    requires |fork| <= |chain| && !HasUnsupported(Events(chain))
    requires forall i :: 0 <= i < |fork| ==> Carried(child, source, chain[i], fork[i])
    ensures OnlyConversation(Events(fork))
  {
    hide Events;
    EventsLength(chain);
    EventsLength(fork);
    forall i | 0 <= i < |fork| ensures Conversation(Events(fork)[i].payload) {
      assert Carried(child, source, chain[i], fork[i]) && !Unsupported(Events(chain)[i].payload);
    }
  }

  /** `forkThread` between reading the source journal and publishing the child's. */
  method ForkThread(h: Hasher, thread: Id, title: string, model: string, chain: seq<Envelope>, child: Id,
                    beforeFirst: bool, lastTurn: Id, freshId: nat -> Id)
    returns (r: Result<seq<Envelope>, ForkError>)
    requires child != Id.Blank && (forall k :: freshId(k) != Id.Blank)
    requires chain != [] && ValidChain(h, thread, chain) && ValidJournal(Events(chain))
    ensures child == thread ==> r == Err(ChildIsSource)
    ensures child != thread ==>
      var refusal := ForkRefusal(Events(chain), beforeFirst, lastTurn);
      if refusal.Some? then r == Err(refusal.value)
      else r.Ok? && ForkedWhereAsked(h, thread, title, model, chain, child, beforeFirst, lastTurn, r.value)
    ensures r.Ok? ==> Idle(Events(r.value)) && OnlyConversation(Events(r.value))
    ensures r == Err(UnsupportedState) ==> !OnlyConversation(Events(chain))
  {
    hide *;
    if child == thread {
      return Err(ChildIsSource);
    }
    assert |Events(chain)| == |chain| by {
      EventsLength(chain);
    }
    var found := AnalyzeForkSource(Events(chain), beforeFirst, lastTurn);
    if found.Err? {
      RefusedKinds(Events(chain), beforeFirst, lastTurn);
      return Err(found.error);
    }
    BoundaryIsFound(Events(chain), beforeFirst, lastTurn, found.value);
    var source := ForkSource(thread, title, model, found.value, chain[found.value.index].hash);
    var fork := RebuildForkEvents(h, child, source, chain, freshId);
    ForkIsSettled(h, chain, child, source, beforeFirst, lastTurn, fork.value);
    r := Ok(fork.value);
  }

  lemma RefusedKinds(events: seq<Event>, beforeFirst: bool, lastTurn: Id)
    requires ValidJournal(events)
    ensures ForkRefusal(events, beforeFirst, lastTurn) == Some(UnsupportedState) ==> !OnlyConversation(events)
  {
    hide Replay, HasCommit, CommitsTurn;
    if HasUnsupported(events) {
      var i :| 0 <= i < |events| && Unsupported(events[i].payload);
      assert !Conversation(events[i].payload);
    }
  }

  lemma BoundaryIsFound(events: seq<Event>, beforeFirst: bool, lastTurn: Id, b: Boundary)
    requires ValidJournal(events) && events != [] && ForkRefusal(events, beforeFirst, lastTurn) == None
    requires if beforeFirst then b == Boundary(0, Id.Blank)
             else if lastTurn == Id.Blank then LatestCommit(events, b) else IsCommit(events, b) && b.turn == lastTurn
    ensures EndsWhereAsked(events, beforeFirst, lastTurn, b) && b.index < |events| && !HasUnsupported(events)
  {
    hide Replay;
  }

  lemma ForkIsSettled(h: Hasher, chain: seq<Envelope>, child: Id, source: ForkSource, beforeFirst: bool, lastTurn: Id,
                      fork: seq<Envelope>)
    requires var b := source.boundary;
      && b.index < |chain| && ValidJournal(Events(chain)) && ValidChain(h, source.thread, chain)
      && EndsWhereAsked(Events(chain), beforeFirst, lastTurn, b) && !HasUnsupported(Events(chain))
      && source.sourceHash == chain[b.index].hash
      && |fork| == b.index + 1 && ValidChain(h, child, fork)
      && (forall i :: 0 <= i <= b.index ==> Carried(child, source, chain[i], fork[i]))
      && Replay(Events(fork)) == Replay(Events(chain[..b.index + 1]))
    ensures ForkedWhereAsked(h, source.thread, source.title, source.model, chain, child, beforeFirst, lastTurn, fork)
    ensures Idle(Events(fork)) && OnlyConversation(Events(fork))
  {
    hide Replay, Apply, ValidChain, Events, Carried, OnlyConversation;
    var b := source.boundary;
    assert |Events(chain)| == |chain| by {
      EventsLength(chain);
    }
    assert ForkOf(h, source.thread, source.title, source.model, chain, child, b.turn, fork);
    ChildIsIdle(Events(chain), b);
    ChainPrefix(h, source.thread, chain, b.index + 1);
    CopiesConversation(child, source, chain, fork);
  }

  /** No two bodies and no two envelopes share a digest. */
  ghost predicate CollisionFree(h: Hasher) {
    && (forall a, b :: h.envelope(a) == h.envelope(b) ==> a == b)
    && (forall a :: h.envelope(a) != Malformed)
  }

  /** The hash of the last event pins the whole history before it. */
  lemma {:induction false} HashFixesHistory(h: Hasher, thread: Id, a: seq<Envelope>, other: Id, b: seq<Envelope>)
    requires CollisionFree(h) && ValidChain(h, thread, a) && ValidChain(h, other, b) && LastHash(a) == LastHash(b)
    ensures a == b
  {
    if a != [] && b != [] {
      var x, y := a[|a| - 1], b[|b| - 1];
      assert x.(hash := Malformed) == y.(hash := Malformed);
      assert x == x.(hash := Malformed).(hash := x.hash) && y == y.(hash := Malformed).(hash := y.hash);
      HashFixesHistory(h, thread, a[..|a| - 1], other, b[..|b| - 1]);
      assert a == a[..|a| - 1] + [x] && b == b[..|b| - 1] + [y];
    }
  }

  /** The provenance a child records is enough to find what it was copied from: any chain that has an event with
      the recorded hash begins with exactly the events the child copied. */
  lemma ProvenancePinsPrefix(h: Hasher, thread: Id, title: string, model: string, chain: seq<Envelope>, child: Id,
                             turn: Id, fork: seq<Envelope>, other: Id, elsewhere: seq<Envelope>, n: nat)
    requires CollisionFree(h) && ValidChain(h, thread, chain)
    requires ForkOf(h, thread, title, model, chain, child, turn, fork)
    requires ValidChain(h, other, elsewhere) && n < |elsewhere|
    requires fork != [] && fork[0].body.Created? && elsewhere[n].hash == fork[0].body.meta.sourceHash
    ensures |fork| <= |chain| && elsewhere[..n + 1] == chain[..|fork|]
    ensures fork[0].body.meta.parent == thread == other
  {
    hide ValidChain, CollisionFree;
    SamePrefix(h, thread, chain, |fork|, other, elsewhere, n + 1);
    SourceStart(h, thread, chain);
    SourceStart(h, other, elsewhere);
    var a, b := chain[..|fork|], elsewhere[..n + 1];
    assert a[0] == chain[0] && b[0] == elsewhere[0];
    assert Carried(child, ForkSource(thread, title, model, Boundary(|fork| - 1, turn), chain[|fork| - 1].hash),
                   chain[0], fork[0]);
  }

  lemma SamePrefix(h: Hasher, thread: Id, chain: seq<Envelope>, k: nat, other: Id, elsewhere: seq<Envelope>, n: nat)
    requires CollisionFree(h) && ValidChain(h, thread, chain) && ValidChain(h, other, elsewhere)
    requires 0 < k <= |chain| && 0 < n <= |elsewhere| && chain[k - 1].hash == elsewhere[n - 1].hash
    ensures elsewhere[..n] == chain[..k]
  {
    hide ValidChain, CollisionFree;
    ChainPrefix(h, thread, chain, k);
    ChainPrefix(h, other, elsewhere, n);
    HashFixesHistory(h, thread, chain[..k], other, elsewhere[..n]);
  }

  lemma SourceStart(h: Hasher, thread: Id, chain: seq<Envelope>)
    requires chain != [] && ValidChain(h, thread, chain)
    ensures chain[0].body.Created? && chain[0].thread == thread
  {
    ChainPrefix(h, thread, chain, 1);
    assert chain[..1][..0] == [] && chain[..1][0] == chain[0];
  }
}
