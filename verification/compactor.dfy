/** Splitting an ordered source without splitting one of its elements. */
module Chunking {
  import opened Ids

  predicate Fits<T>(tokens: seq<T> -> Option<nat>, groups: seq<T>, maxTokens: int) {
    tokens(groups).Some? && tokens(groups).value <= maxTokens
  }

  /** Greedy chunks: none empty, several elements only if they fit, and no chunk could have taken
      the first element of the next one as well. */
  ghost predicate Greedy<T>(tokens: seq<T> -> Option<nat>, chunks: seq<seq<T>>, maxTokens: int) {
    && (forall k :: 0 <= k < |chunks| ==> chunks[k] != [])
    && (forall k :: 0 <= k < |chunks| ==> |chunks[k]| == 1 || Fits(tokens, chunks[k], maxTokens))
    && (forall k :: 0 <= k < |chunks| - 1 ==> !Fits(tokens, chunks[k] + [chunks[k + 1][0]], maxTokens))
  }

  lemma GreedyGrow<T>(tokens: seq<T> -> Option<nat>, done: seq<seq<T>>, current: seq<T>, next: T, maxTokens: int)
    requires Greedy(tokens, done + [current], maxTokens)
    requires Fits(tokens, current + [next], maxTokens)
    ensures Greedy(tokens, done + [current + [next]], maxTokens)
    ensures Concat(done + [current + [next]]) == Concat(done + [current]) + [next]
  {
    ConcatSnoc(done, current);
    ConcatSnoc(done, current + [next]);
    var old', new' := done + [current], done + [current + [next]];
    assert current == old'[|done|] && current != [];
    forall k | 0 <= k < |new'| - 1 ensures !Fits(tokens, new'[k] + [new'[k + 1][0]], maxTokens) {
      assert new'[k] == old'[k] && new'[k + 1][0] == old'[k + 1][0];
    }
  }

  lemma GreedyClose<T>(tokens: seq<T> -> Option<nat>, chunks: seq<seq<T>>, next: T, maxTokens: int)
    requires Greedy(tokens, chunks, maxTokens)
    requires chunks != [] && !Fits(tokens, chunks[|chunks| - 1] + [next], maxTokens)
    ensures Greedy(tokens, chunks + [[next]], maxTokens)
    ensures Concat(chunks + [[next]]) == Concat(chunks) + [next]
  {
    ConcatSnoc(chunks, [next]);
    var new' := chunks + [[next]];
    forall k | 0 <= k < |new'| - 1 ensures !Fits(tokens, new'[k] + [new'[k + 1][0]], maxTokens) {
      if k < |chunks| - 1 {
        assert new'[k] == chunks[k] && new'[k + 1] == chunks[k + 1];
      }
    }
  }

  /** Nothing is lost or reordered; None is a sizing error. */
  method ChunkForCompaction<T>(tokens: seq<T> -> Option<nat>, groups: seq<T>, maxTokens: int)
    returns (chunks: Option<seq<seq<T>>>)
    requires maxTokens > 0 && groups != []
    ensures chunks.Some? ==>
      Concat(chunks.value) == groups && chunks.value != [] && Greedy(tokens, chunks.value, maxTokens)
    ensures chunks.None? ==> exists a, b :: 0 <= a < b <= |groups| && tokens(groups[a..b]).None?
  {
    var done: seq<seq<T>>, current: seq<T> := [], [groups[0]];
    assert Concat([[groups[0]]]) == [groups[0]] == groups[..1];
    for i := 1 to |groups|
      invariant Concat(done + [current]) == groups[..i]
      invariant Greedy(tokens, done + [current], maxTokens)
      invariant |current| <= i && current == groups[i - |current|..i]
    {
      var group := groups[i];
      assert groups[..i + 1] == groups[..i] + [group];
      assert current + [group] == groups[i - |current|..i + 1];
      var size := tokens(current + [group]);
      if size.None? {
        return None;
      }
      if size.value > maxTokens {
        GreedyClose(tokens, done + [current], group, maxTokens);
        done, current := done + [current], [group];
      } else {
        GreedyGrow(tokens, done, current, group, maxTokens);
        current := current + [group];
      }
    }
    assert groups[..|groups|] == groups;
    chunks := Some(done + [current]);
  }
}

/** `RecursiveCompactor`: an oversized source is split at turn-group boundaries, every chunk is
    summarised, and the summaries are merged once under the identity of the whole source. */
module Compaction {
  import opened Chunking
  import ContextConfig
  import opened Ids
  import opened Messages
  import opened CheckpointContract

  const MAX_DEPTH: nat := 4
  const CHECKPOINT_TARGET_TOKENS: nat := 2000
  const MINIMUM_GAIN_PERCENT := 20

  datatype CompactionError =
    | InvalidRequest | Cancelled | CompactorFailed(code: nat) | RecursionLimit
    | InvalidCheckpoint | CheckpointTooLarge | LowGain

  datatype SourceScope = SourceScope(eventIds: seq<Id>, hash: Digest)

  datatype CompactionRequest = CompactionRequest(
    taskGoal: string, focus: string, trigger: string,
    sourceGroups: seq<TurnGroup>, directIds: seq<Id>, directHash: Option<Digest>,
    previous: Option<Checkpoint>, sourceScope: Option<SourceScope>)

  datatype CompactionResult = CompactionResult(
    checkpoint: Checkpoint, attempts: nat, sourceTokens: int, resultTokens: int, gainPercent: int)

  function GroupIds(groups: seq<TurnGroup>): seq<Id> {
    if groups == [] then [] else
      GroupIds(groups[..|groups| - 1]) + groups[|groups| - 1].EffectiveSourceEventIds()
  }

  lemma {:induction false} GroupIdsMembers(groups: seq<TurnGroup>, id: Id)
    ensures id in GroupIds(groups) <==> exists g :: g in groups && id in g.EffectiveSourceEventIds()
  {
    if groups != [] {
      var rest, last := groups[..|groups| - 1], groups[|groups| - 1];
      GroupIdsMembers(rest, id);
      assert groups == rest + [last];
    }
  }

  /** The identity a request commits to: the manifest it was given, or the one its groups spell out. */
  function DirectSourceScope(h: Digests, r: CompactionRequest): Option<SourceScope> {
    if r.sourceScope.Some? then
      var scope := r.sourceScope.value;
      if CanonicalIds(scope.eventIds) && scope.hash.SHA256? then Some(SourceScope(Unique(scope.eventIds), scope.hash))
      else None
    else
      var ids := Unique(GroupIds(r.sourceGroups));
      var hash := h.groups(r.sourceGroups);
      if !CanonicalIds(ids) || !(forall i :: 0 <= i < |r.sourceGroups| ==> r.sourceGroups[i].Valid()) then None
      else if r.directIds != [] && (!CanonicalIds(r.directIds) || Unique(r.directIds) != ids) then None
      else if r.directHash.Some? && r.directHash.value != hash then None
      else Some(SourceScope(ids, hash))
  }

  function ParentOf(previous: Option<Checkpoint>): Option<ParentRef> {
    if previous.None? then None
    else Some(ParentRef(previous.value.id, previous.value.storageHash, previous.value.provenance.lineageHash))
  }

  predicate DurableParent(h: Digests, r: CompactionRequest) {
    r.previous.Some? ==>
      && ValidCheckpoint(h, r.previous.value)
      && r.previous.value.id != Id.Blank
      && r.previous.value.storageHash.SHA256?
      && r.previous.value.provenance.lineageHash.SHA256?
  }

  function SourceIdentity(h: Digests, r: CompactionRequest): Option<Provenance> {
    var scope := DirectSourceScope(h, r);
    if !(forall i :: 0 <= i < |r.sourceGroups| ==> r.sourceGroups[i].Valid()) || scope.None?
      || !DurableParent(h, r) then None
    else ProvenanceForSource(h, scope.value.eventIds, scope.value.hash, ParentOf(r.previous))
  }

  predicate HasDerivedGroups(groups: seq<TurnGroup>) {
    exists i :: 0 <= i < |groups| && groups[i].derived
  }

  function VisibleIds(groups: seq<TurnGroup>): seq<Id> {
    if groups == [] then [] else
      var g := groups[|groups| - 1];
      VisibleIds(groups[..|groups| - 1]) + g.EffectiveSourceEventIds() + (if g.derived then g.visibleEventIds else [])
  }

  /** Event ids the compactor may cite: all of them for raw groups, only what the child
      checkpoints expose for a merge. None is the "outside the direct source manifest" error. */
  function ClaimSourceScope(groups: seq<TurnGroup>, scope: SourceScope): Option<seq<Id>> {
    if !HasDerivedGroups(groups) then Some(scope.eventIds) else
      var visible := Unique(VisibleIds(groups));
      if visible == [] || exists i :: 0 <= i < |visible| && visible[i] !in IdSet(scope.eventIds) then None
      else Some(visible)
  }

  function GainPercent(before: int, after: int): int {
    if before <= 0 || after >= before then 0 else (before - after) * 100 / before
  }

  /** The 20 percent rule in exact terms: a checkpoint is kept only if it is at most four fifths. */
  lemma GainRule(before: nat, after: nat)
    ensures GainPercent(before, after) >= MINIMUM_GAIN_PERCENT <==> before > 0 && 5 * after <= 4 * before
  {
    if before > 0 && after < before {
      var gain, rest := (before - after) * 100 / before, (before - after) * 100 % before;
      assert (before - after) * 100 == gain * before + rest;
      if gain >= 20 {
        MulAtLeast(gain, 20, before);
      } else {
        MulAtLeast(19, gain, before);
      }
    }
  }

  lemma MulAtLeast(a: int, b: int, c: nat)
    requires a >= b
    ensures a * c >= b * c
  {
  }

  /** The compactor with everything it cannot compute itself as a parameter: `compact(k, r)` is
      the outcome of the k-th model-backed call, `cancelled(k)` the context state at the k-th poll. */
  datatype RecursiveCompactor = RecursiveCompactor(
    h: Digests,
    compact: (nat, CompactionRequest) -> Result<Checkpoint, nat>,
    promptTokens: (CompactionRequest, Provenance) -> nat,
    checkpointTokens: Checkpoint -> nat,
    groupTokens: TurnGroup -> nat,
    promptText: Checkpoint -> string,
    cancelled: nat -> bool,
    windowTokens: int)
  {
    ghost predicate Sound() {
      h.Sound() && ContextConfig.Normalize(windowTokens) >= 2
    }

    function Budget(): int {
      ContextConfig.Ceiling(windowTokens)
    }

    /** Size of the request that would summarise `groups` on behalf of `r`. */
    function RequestTokens(r: CompactionRequest, groups: seq<TurnGroup>): Option<nat> {
      var direct := r.(sourceGroups := groups);
      var sized := if r.sourceScope.None? then direct.(directIds := [], directHash := None) else direct;
      var identity := SourceIdentity(h, sized);
      if identity.None? then None else Some(promptTokens(sized, identity.value))
    }

    /** What a successful compaction promises: the provenance of the unchunked request, and claims
        that a later reader can check against the whole source manifest. */
    ghost predicate Certified(r: CompactionRequest, c: Checkpoint) {
      var scope := DirectSourceScope(h, r);
      && scope.Some?
      && SourceIdentity(h, r) == Some(c.provenance)
      && ValidForSource(h, c, c.provenance, scope.value.eventIds, scope.value.eventIds)
      && c.manifest == Unique(scope.value.eventIds)
      && checkpointTokens(c) <= CHECKPOINT_TARGET_TOKENS
    }
  }

  // ---- what was asked, and what for ----

  /** One model-backed call: the request, the poll of the context before it, and the answer. */
  datatype ModelCall = ModelCall(request: CompactionRequest, polled: nat, answer: Result<Checkpoint, nat>)

  /** What a compaction is about, without the identity it is filed under. */
  datatype Task = Task(
    goal: string, focus: string, trigger: string, previous: Option<Checkpoint>, groups: seq<TurnGroup>)

  ghost function TaskOf(r: CompactionRequest): Task {
    Task(r.taskGoal, r.focus, r.trigger, r.previous, r.sourceGroups)
  }

  /** How a checkpoint came about: from one call, or from one call over the summaries of chunks. */
  datatype Origin =
    | Asked(call: ModelCall, result: Checkpoint)
    | Merged(call: ModelCall, result: Checkpoint, chunks: seq<seq<TurnGroup>>, parts: seq<Origin>)

  /** The checkpoint is the answer to a call that showed the model the whole task: its very groups,
      or, in their order, one summary for each chunk of them, which came about in the same way. */
  ghost predicate Tells(c: RecursiveCompactor, task: Task, o: Origin)
    decreases o
  {
    && o.call.answer.Ok? && o.result == o.call.answer.value.(manifest := o.result.manifest)
    && var asked := TaskOf(o.call.request);
       match o
       case Asked(_, _) => asked == task
       case Merged(_, _, chunks, parts) =>
         && asked == task.(groups := asked.groups)
         && Concat(chunks) == task.groups && |parts| == |chunks| == |asked.groups|
         && forall i :: 0 <= i < |parts| ==>
           && chunks[i] != [] && Tells(c, task.(previous := None, groups := chunks[i]), parts[i])
           && ShowsSummary(c, asked.groups[i], parts[i].result)
  }

  ghost predicate ShowsSummary(c: RecursiveCompactor, g: TurnGroup, summary: Checkpoint) {
    && g.derived && g.messages == [User(c.promptText(summary))]
    && g.sourceEventIds == summary.provenance.eventIds && g.visibleEventIds == VisibleEventIds(summary)
  }

  /** The calls behind a checkpoint, in the order in which they were made. */
  ghost function Calls(o: Origin): seq<ModelCall>
    decreases o
  {
    match o
    case Asked(call, _) => [call]
    case Merged(call, _, _, parts) => AllCalls(parts) + [call]
  }

  ghost function AllCalls(parts: seq<Origin>): seq<ModelCall>
    decreases parts
  {
    if parts == [] then [] else AllCalls(parts[..|parts| - 1]) + Calls(parts[|parts| - 1])
  }

  /** The ledger groups the model was shown, in the order of the calls. */
  ghost function RawShown(calls: seq<ModelCall>): seq<TurnGroup> {
    if calls == [] then [] else
      var groups := calls[|calls| - 1].request.sourceGroups;
      RawShown(calls[..|calls| - 1]) + if HasDerivedGroups(groups) then [] else groups
  }

  lemma {:induction false} RawShownAppend(a: seq<ModelCall>, b: seq<ModelCall>)
    ensures RawShown(a + b) == RawShown(a) + RawShown(b)
  {
    if b == [] {
      assert a + b == a;
    } else {
      var n := |b| - 1;
      RawShownAppend(a, b[..n]);
      assert (a + b)[..|a + b| - 1] == a + b[..n];
    }
  }

  /** Every ledger group is shown to the model once, in source order. */
  lemma {:induction false} SourceIsShownOnce(c: RecursiveCompactor, task: Task, o: Origin)
    requires Tells(c, task, o) && !HasDerivedGroups(task.groups)
    ensures RawShown(Calls(o)) == task.groups
    decreases o
  {
    if o.Asked? {
      assert Calls(o)[..0] == [];
    } else {
      PartsAreShownOnce(c, task, o, |o.parts|);
      assert o.parts[..|o.parts|] == o.parts && o.chunks[..|o.chunks|] == o.chunks;
      RawShownAppend(AllCalls(o.parts), [o.call]);
      assert [o.call][..0] == [];
      if o.parts != [] {
        assert ShowsSummary(c, o.call.request.sourceGroups[0], o.parts[0].result);
      }
    }
  }

  lemma {:induction false} PartsAreShownOnce(c: RecursiveCompactor, task: Task, o: Origin, n: nat)
    requires o.Merged? && Tells(c, task, o) && !HasDerivedGroups(task.groups) && n <= |o.parts|
    ensures RawShown(AllCalls(o.parts[..n])) == Concat(o.chunks[..n])
    decreases o, 0, n
  {
    if n > 0 {
      PartsAreShownOnce(c, task, o, n - 1);
      assert o.parts[..n][..n - 1] == o.parts[..n - 1];
      ChunkGroupsInWhole(o.chunks, n - 1);
      SourceIsShownOnce(c, task.(previous := None, groups := o.chunks[n - 1]), o.parts[n - 1]);
      RawShownAppend(AllCalls(o.parts[..n - 1]), Calls(o.parts[n - 1]));
      ConcatSplit(o.chunks, n - 1);
    }
  }

  ghost predicate FitsRequest(c: RecursiveCompactor, r: CompactionRequest, groups: seq<TurnGroup>) {
    c.RequestTokens(r, groups).Some? && c.RequestTokens(r, groups).value <= c.Budget()
  }

  /** What is sent to the model: it fits the budget, unless it is a single ledger group without a
      previous checkpoint, and it names the identity it commits to. */
  ghost predicate MayBeSent(c: RecursiveCompactor, r: CompactionRequest) {
    && r.sourceGroups != []
    && (FitsRequest(c, r, r.sourceGroups)
        || (|r.sourceGroups| == 1 && !r.sourceGroups[0].derived && r.previous.None?))
    && SourceIdentity(c.h, r).Some?
    && DirectSourceScope(c.h, r) == Some(SourceScope(r.directIds, if r.directHash.Some? then r.directHash.value
                                                                  else Malformed))
  }

  /** The mutable part of one run. */
  class RecursiveState {
    var attempts: nat
    var polls: nat
    ghost var log: seq<ModelCall>
    ghost var deepest: nat
    ghost var oversized: Option<CompactionRequest>      // a merge that was not sent

    constructor ()
      ensures attempts == 0 && polls == 0 && log == [] && deepest == 0 && oversized.None?
    {
      attempts, polls, log, deepest, oversized := 0, 0, [], 0, None;
    }

    /** The log is what the compactor was asked and what it answered: call `k` is the `k`-th one, and
        before each the context was polled and not over. */
    ghost predicate Logged(c: RecursiveCompactor)
      reads this
    {
      && |log| == attempts
      && (forall i :: 0 <= i < |log| ==>
            && log[i].answer == c.compact(i + 1, log[i].request) && MayBeSent(c, log[i].request)
            && log[i].polled <= polls && !c.cancelled(log[i].polled))
      && forall i, j :: 0 <= i < j < |log| ==> log[i].polled < log[j].polled
    }

    /** Every call so far came after an earlier poll than the newest one. */
    ghost predicate Polled(c: RecursiveCompactor)
      reads this
    {
      Logged(c) && forall i :: 0 <= i < |log| ==> log[i].polled < polls
    }

    /** Looks at the context, and answers whether it is over. */
    method Poll(c: RecursiveCompactor) returns (over: bool)
      requires Logged(c)
      modifies this`polls
      ensures Polled(c) && over == c.cancelled(polls)
      ensures over ==> Explains(c, Cancelled)
    {
      polls := polls + 1;
      over := c.cancelled(polls);
    }

    ghost method Descend(c: RecursiveCompactor, depth: nat)
      modifies this`deepest
      ensures Logged(c) == old(Logged(c)) && Polled(c) == old(Polled(c))
      ensures depth > MAX_DEPTH ==> Explains(c, RecursionLimit)
    {
      if depth > deepest {
        deepest := depth;
      }
    }

    ghost method NoteOversized(c: RecursiveCompactor, r: CompactionRequest)
      requires TooBigToMerge(c, r)
      modifies this`oversized
      ensures Logged(c) == old(Logged(c)) && Explains(c, RecursionLimit)
    {
      hide MayBeSent;
      oversized := Some(r);
    }

    method Ask(c: RecursiveCompactor, request: CompactionRequest) returns (answer: Result<Checkpoint, nat>)
      requires Polled(c) && MayBeSent(c, request) && !c.cancelled(polls)
      modifies this`attempts, this`log
      ensures Logged(c) && attempts == old(attempts) + 1 && answer == c.compact(attempts, request)
      ensures log == old(log) + [ModelCall(request, polls, answer)]
    {
      hide MayBeSent;
      attempts := attempts + 1;
      answer := c.compact(attempts, request);
      log := log + [ModelCall(request, polls, answer)];
    }

    /** Why a run ends without a checkpoint; the last call is to blame, or the context, or the size. */
    ghost predicate Explains(c: RecursiveCompactor, e: CompactionError)
      reads this
    {
      match e
      case Cancelled => c.cancelled(polls)
      case CompactorFailed(code) => log != [] && log[|log| - 1].answer == Err(code) && !c.cancelled(polls)
      case InvalidCheckpoint => log != [] && Unusable(c, log[|log| - 1])
      case CheckpointTooLarge => log != [] && TooLarge(c, log[|log| - 1])
      case RecursionLimit => deepest > MAX_DEPTH || (oversized.Some? && TooBigToMerge(c, oversized.value))
      case InvalidRequest => false
      case LowGain => false
    }
  }

  /** The answer does not meet the contract of the request it answers. */
  ghost predicate Unusable(c: RecursiveCompactor, call: ModelCall) {
    var scope, identity := DirectSourceScope(c.h, call.request), SourceIdentity(c.h, call.request);
    && call.answer.Ok? && scope.Some? && identity.Some?
    && var cited := ClaimSourceScope(call.request.sourceGroups, scope.value);
       cited.Some? && !ValidForSource(c.h, call.answer.value, identity.value, scope.value.eventIds, cited.value)
  }

  ghost predicate TooLarge(c: RecursiveCompactor, call: ModelCall) {
    && call.answer.Ok?
    && exists manifest :: c.checkpointTokens(call.answer.value.(manifest := manifest)) > CHECKPOINT_TARGET_TOKENS
  }

  /** Summaries that do not fit into one request: some prefix of them is over the budget. */
  ghost predicate TooBigToMerge(c: RecursiveCompactor, r: CompactionRequest) {
    && HasDerivedGroups(r.sourceGroups)
    && exists n :: 0 < n <= |r.sourceGroups|
                   && !FitsRequest(c, r, r.sourceGroups[..n])
  }

  /** A request over ledger groups; a root scope, when present, was derived from those groups. */
  ghost predicate RawRequest(r: CompactionRequest) {
    && r.sourceGroups != []
    && !HasDerivedGroups(r.sourceGroups)
    && (r.sourceScope.Some? ==> r.sourceScope.value.eventIds == Unique(GroupIds(r.sourceGroups)))
  }

  /** A request over child checkpoints that expose only events of the root manifest. */
  ghost predicate MergeRequest(r: CompactionRequest) {
    && r.sourceGroups != []
    && r.sourceScope.Some?
    && MergeGroups(r.sourceGroups, r.sourceScope.value.eventIds)
  }

  ghost predicate MergeGroups(groups: seq<TurnGroup>, manifest: seq<Id>) {
    forall i :: 0 <= i < |groups| ==> MergeGroup(groups[i], manifest)
  }

  lemma AppendMergeGroup(groups: seq<TurnGroup>, g: TurnGroup, manifest: seq<Id>)
    requires MergeGroups(groups, manifest) && MergeGroup(g, manifest)
    ensures MergeGroups(groups + [g], manifest)
  {
  }

  ghost predicate MergeGroup(g: TurnGroup, manifest: seq<Id>) {
    && g.Valid() && g.derived
    && (forall id :: id in g.EffectiveSourceEventIds() ==> id in manifest)
    && (forall id :: id in g.visibleEventIds ==> id in manifest)
  }

  /** Compactor calls a request may cost. */
  ghost function CallBound(r: CompactionRequest): int {
    if HasDerivedGroups(r.sourceGroups) then 1
    else if r.previous.Some? then 2 * |r.sourceGroups|
    else 2 * |r.sourceGroups| - 1
  }

  lemma {:induction false} VisibleIdsInManifest(groups: seq<TurnGroup>, manifest: seq<Id>)
    requires MergeGroups(groups, manifest)
    ensures forall id :: id in VisibleIds(groups) ==> id in manifest
    ensures groups != [] ==> Unique(VisibleIds(groups)) != []
  {
    if groups != [] {
      VisibleIdsInManifest(groups[..|groups| - 1], manifest);
      var g := groups[|groups| - 1];
      UniqueMembers(g.sourceEventIds);
      UniqueMembers(VisibleIds(groups));
      assert g.EffectiveSourceEventIds()[0] in VisibleIds(groups);
    }
  }

  /** The merge's own manifest check cannot fire. */
  lemma MergeClaimScopeExists(h: Digests, r: CompactionRequest)
    requires MergeRequest(r) && DirectSourceScope(h, r).Some?
    ensures ClaimSourceScope(r.sourceGroups, DirectSourceScope(h, r).value).Some?
  {
    var manifest := r.sourceScope.value.eventIds;
    VisibleIdsInManifest(r.sourceGroups, manifest);
    CanonicalIdsIffCanonical(manifest);
    UniqueMembers(manifest);
    UniqueMembers(VisibleIds(r.sourceGroups));
  }

  function MergeInput(c: RecursiveCompactor, index: nat, checkpoint: Checkpoint): TurnGroup {
    TurnGroup(Named(index + 1), 0, checkpoint.provenance.eventIds, [User(c.promptText(checkpoint))], [],
              c.checkpointTokens(checkpoint), false, true, VisibleEventIds(checkpoint))
  }

  function ChunkRequest(r: CompactionRequest, chunk: seq<TurnGroup>): CompactionRequest {
    r.(sourceGroups := chunk, directIds := [], directHash := None, sourceScope := None, previous := None)
  }

  lemma ChunkIdsInWhole(whole: seq<TurnGroup>, chunk: seq<TurnGroup>)
    requires forall g :: g in chunk ==> g in whole
    ensures forall id :: id in Unique(GroupIds(chunk)) ==> id in Unique(GroupIds(whole))
  {
    UniqueMembers(GroupIds(whole));
    UniqueMembers(GroupIds(chunk));
    forall id | id in Unique(GroupIds(chunk)) ensures id in Unique(GroupIds(whole)) {
      GroupIdsMembers(chunk, id);
      GroupIdsMembers(whole, id);
    }
  }

  lemma CertifiedStaysInManifest(c: RecursiveCompactor, r: CompactionRequest, checkpoint: Checkpoint)
    requires c.Certified(r, checkpoint)
    ensures forall id :: Cites(checkpoint, id) ==> id in DirectSourceScope(c.h, r).value.eventIds
    ensures forall id :: id in VisibleEventIds(checkpoint) ==> id in DirectSourceScope(c.h, r).value.eventIds
    ensures forall id :: id in checkpoint.provenance.eventIds ==> id in DirectSourceScope(c.h, r).value.eventIds
    ensures Unique(checkpoint.provenance.eventIds) != []
  {
    var ids, p := DirectSourceScope(c.h, r).value.eventIds, checkpoint.provenance;
    ValidCheckpointStaysInManifest(c.h, checkpoint, p, ids, ids);
    ProvenanceAnchorsInManifest(c.h, ids, p.contentHash, p.parent);
  }

  /** A child's checkpoint becomes a merge input that stays inside the parent's manifest. */
  lemma ChildStaysInManifest(c: RecursiveCompactor, r: CompactionRequest, chunk: seq<TurnGroup>, manifest: seq<Id>,
                             index: nat, child: Checkpoint)
    requires forall id :: id in Unique(GroupIds(chunk)) ==> id in manifest
    requires c.Certified(ChunkRequest(r, chunk), child)
    ensures MergeGroup(MergeInput(c, index, child), manifest)
  {
    CertifiedStaysInManifest(c, ChunkRequest(r, chunk), child);
    assert DirectSourceScope(c.h, ChunkRequest(r, chunk)).value.eventIds == Unique(GroupIds(chunk));
    UniqueMembers(child.provenance.eventIds);
  }

  /** Valid ledger groups under a durable parent always have an identity. */
  lemma GroupsHaveIdentity(h: Digests, r: CompactionRequest)
    requires h.Sound() && r.sourceScope.None? && r.directIds == [] && r.directHash.None? && DurableParent(h, r)
    requires r.sourceGroups != [] && forall i :: 0 <= i < |r.sourceGroups| ==> r.sourceGroups[i].Valid()
    ensures SourceIdentity(h, r).Some?
  {
    hide ProvenanceForSource, GroupIds, Unique, Canonical, CanonicalIds, ValidCheckpoint;
    var ids := Unique(GroupIds(r.sourceGroups));
    UniqueMembers(GroupIds(r.sourceGroups));
    var g := r.sourceGroups[0];
    UniqueMembers(g.sourceEventIds);
    GroupIdsMembers(r.sourceGroups, g.EffectiveSourceEventIds()[0]);
    assert g.EffectiveSourceEventIds()[0] in ids;
    CanonicalIdsIffCanonical(ids);
    UniqueFixpoint(ids);
    ProvenanceExists(h, ids, h.groups(r.sourceGroups), ParentOf(r.previous));
  }

  /** Sizing a part of a request never fails. */
  lemma PartHasTokens(c: RecursiveCompactor, r: CompactionRequest, a: nat, b: nat)
    requires c.Sound() && SourceIdentity(c.h, r).Some? && a < b <= |r.sourceGroups|
    ensures c.RequestTokens(r, r.sourceGroups[a..b]).Some?
  {
    var part := r.sourceGroups[a..b];
    assert forall i :: 0 <= i < |part| ==> part[i] == r.sourceGroups[a + i];
    if r.sourceScope.None? {
      GroupsHaveIdentity(c.h, r.(sourceGroups := part, directIds := [], directHash := None));
    }
  }

  /** More than one chunk means that a prefix did not fit. */
  lemma PrefixOverflows<T>(tokens: seq<T> -> Option<nat>, groups: seq<T>, chunks: seq<seq<T>>, maxTokens: int)
    returns (n: nat)
    requires Concat(chunks) == groups && Greedy(tokens, chunks, maxTokens) && |chunks| > 1
    ensures 0 < n <= |groups| && !Fits(tokens, groups[..n], maxTokens)
  {
    n := |chunks[0]| + 1;
    ConcatSplit(chunks, 0);
    ConcatSplit(chunks, 1);
    var first := chunks[0] + chunks[1];
    assert chunks[..0] == [] && Concat(chunks[..2]) == first <= groups;
    assert groups[..n] == first[..n] == chunks[0] + [chunks[1][0]];
  }

  lemma OneChunk<T>(chunks: seq<seq<T>>)
    requires |chunks| == 1
    ensures Concat(chunks) == chunks[0]
  {
    ConcatSplit(chunks, 0);
    assert chunks[..0] == [] && chunks[..1] == chunks;
  }

  lemma MergeIsTooBig(c: RecursiveCompactor, r: CompactionRequest, chunks: seq<seq<TurnGroup>>)
    requires HasDerivedGroups(r.sourceGroups) && Concat(chunks) == r.sourceGroups
    requires Greedy(groups => c.RequestTokens(r, groups), chunks, c.Budget())
    requires |chunks| > 1 || !FitsRequest(c, r, r.sourceGroups)
    ensures TooBigToMerge(c, r)
  {
    hide Greedy;
    var n := |r.sourceGroups|;
    assert r.sourceGroups[..n] == r.sourceGroups;
    if |chunks| > 1 {
      n := PrefixOverflows(groups => c.RequestTokens(r, groups), r.sourceGroups, chunks, c.Budget());
    }
    assert !FitsRequest(c, r, r.sourceGroups[..n]);
  }

  /** A request in one chunk that is not split fits, or is a single group that cannot be split. */
  lemma WholeMayBeSent(c: RecursiveCompactor, r: CompactionRequest, chunks: seq<seq<TurnGroup>>)
    requires Concat(chunks) == r.sourceGroups && |chunks| == 1
    requires Greedy(groups => c.RequestTokens(r, groups), chunks, c.Budget())
    requires FitsRequest(c, r, r.sourceGroups) || (r.previous.None? && !HasDerivedGroups(r.sourceGroups))
    requires SourceIdentity(c.h, r).Some?
    requires r.directHash.Some? && DirectSourceScope(c.h, r) == Some(SourceScope(r.directIds, r.directHash.value))
    ensures MayBeSent(c, r)
  {
    OneChunk(chunks);
  }

  lemma OnlyRawIsSplit(r: CompactionRequest)
    requires (RawRequest(r) || MergeRequest(r)) && !HasDerivedGroups(r.sourceGroups)
    ensures RawRequest(r)
  {
    assert MergeRequest(r) ==> MergeGroup(r.sourceGroups[0], r.sourceScope.value.eventIds);
  }

  method CompactRecursive(c: RecursiveCompactor, request: CompactionRequest, depth: nat, state: RecursiveState)
    returns (r: Result<Checkpoint, CompactionError>, ghost o: Option<Origin>)
    requires c.Sound() && depth <= MAX_DEPTH + 1 && state.Logged(c)
    requires RawRequest(request) || MergeRequest(request)
    modifies state
    ensures state.Logged(c) && old(state.log) <= state.log
    ensures old(state.attempts) <= state.attempts <= old(state.attempts) + CallBound(request)
    ensures r.Ok? ==> c.Certified(request, r.value)
    ensures r.Ok? ==> o.Some? && o.value.result == r.value && Tells(c, TaskOf(request), o.value)
                      && state.log == old(state.log) + Calls(o.value)
    ensures r.Err? ==>
              if r.error == InvalidRequest then SourceIdentity(c.h, request).None? else state.Explains(c, r.error)
    ensures HasDerivedGroups(request.sourceGroups) && o.Some? ==> o.value.Asked?
    decreases MAX_DEPTH + 1 - depth, 3
  {
    hide Tells, Calls, MayBeSent, TooBigToMerge, Greedy, ProvenanceForSource, GroupIds, Unique, CanonicalIds,
      ValidForSource, ValidCheckpoint, RecursiveState.Logged, RecursiveState.Explains;
    o := None;
    var over := state.Poll(c);
    if over {
      r := Err(Cancelled);
      return;
    }
    var provenance, scope := SourceIdentity(c.h, request), DirectSourceScope(c.h, request);
    if provenance.None? {
      r := Err(InvalidRequest);
      return;
    }
    var full := request.(directIds := scope.value.eventIds, directHash := Some(scope.value.hash));
    RestatedIdentity(c.h, request);
    state.Descend(c, depth);
    if depth > MAX_DEPTH {
      r := Err(RecursionLimit);
      return;
    }
    PartHasTokens(c, full, 0, |full.sourceGroups|);
    assert full.sourceGroups[0..|full.sourceGroups|] == full.sourceGroups;
    var chunks := ChunkForCompaction(groups => c.RequestTokens(full, groups), full.sourceGroups, c.Budget());
    if chunks.None? {
      NoSizingError(c, full);
      assert false;
      r := Err(InvalidRequest);
      return;
    }
    var requestTokens := c.RequestTokens(full, full.sourceGroups);
    var overBudget := requestTokens.value > c.Budget();
    var derived := HasDerivedGroups(full.sourceGroups);
    if derived && (|chunks.value| > 1 || overBudget) {
      MergeIsTooBig(c, full, chunks.value);
      state.NoteOversized(c, full);
      r := Err(RecursionLimit);
      return;
    }
    if |chunks.value| <= 1 && !(overBudget && full.previous.Some?) {
      WholeMayBeSent(c, full, chunks.value);
      r, o := CompactOnce(c, full, provenance.value, scope.value, state);
    } else {
      OnlyRawIsSplit(request);
      r, o := CompactChunks(c, full, scope.value, chunks.value, depth, state);
    }
  }

  lemma NoSizingError(c: RecursiveCompactor, r: CompactionRequest)
    requires c.Sound() && SourceIdentity(c.h, r).Some?
    ensures !exists a: nat, b: nat :: 0 <= a < b <= |r.sourceGroups| && c.RequestTokens(r, r.sourceGroups[a..b]).None?
  {
    forall a: nat, b: nat | 0 <= a < b <= |r.sourceGroups| ensures c.RequestTokens(r, r.sourceGroups[a..b]).Some? {
      PartHasTokens(c, r, a, b);
    }
  }

  /** Writing the resolved identity back into a request does not change it. */
  lemma RestatedIdentity(h: Digests, r: CompactionRequest)
    requires DirectSourceScope(h, r).Some?
    ensures var scope := DirectSourceScope(h, r).value;
      var full := r.(directIds := scope.eventIds, directHash := Some(scope.hash));
      && DirectSourceScope(h, full) == DirectSourceScope(h, r)
      && SourceIdentity(h, full) == SourceIdentity(h, r)
      && ParentOf(full.previous) == ParentOf(r.previous)
      && scope.eventIds == Unique(scope.eventIds) && Canonical(scope.eventIds)
  {
    if r.sourceScope.Some? {
      CanonicalIdsIffCanonical(r.sourceScope.value.eventIds);
    } else {
      CanonicalIdsIffCanonical(Unique(GroupIds(r.sourceGroups)));
    }
  }

  /** An accepted answer with its manifest injected is valid for the whole source. */
  lemma ManifestStaysValid(h: Digests, answer: Checkpoint, provenance: Provenance, manifest: seq<Id>, cited: seq<Id>)
    requires ValidForSource(h, answer, provenance, manifest, cited)
    ensures ValidForSource(h, answer.(manifest := Unique(manifest)), provenance, manifest, manifest)
  {
    WiderClaimScopeStaysValid(h, answer, provenance, manifest, cited);
  }

  /** One model-backed call, with the checks that decide whether its answer may be used. */
  method CompactOnce(c: RecursiveCompactor, request: CompactionRequest, provenance: Provenance, scope: SourceScope,
                     state: RecursiveState)
    returns (r: Result<Checkpoint, CompactionError>, ghost o: Option<Origin>)
    requires c.Sound() && state.Polled(c)
    requires RawRequest(request) || MergeRequest(request)
    requires SourceIdentity(c.h, request) == Some(provenance) && DirectSourceScope(c.h, request) == Some(scope)
    requires MayBeSent(c, request) && !c.cancelled(state.polls)
    modifies state
    ensures state.Logged(c) && state.attempts == old(state.attempts) + 1 && old(state.log) <= state.log
    ensures r.Ok? ==> c.Certified(request, r.value)
    ensures r.Ok? ==> o.Some? && o.value.Asked? && o.value.result == r.value && Tells(c, TaskOf(request), o.value)
                      && state.log == old(state.log) + Calls(o.value)
    ensures r.Err? ==> o.None? && r.error != InvalidRequest && state.Explains(c, r.error)
  {
    hide RecursiveState.Logged, MayBeSent, ValidForSource, MergeGroups, ProvenanceForSource, GroupIds, CanonicalIds;
    o := None;
    var polled := state.polls;
    var answer := state.Ask(c, request);
    if answer.Err? {
      var over := state.Poll(c);
      r := Err(if over then Cancelled else CompactorFailed(answer.error));
      return;
    }
    var claimScope := ClaimSourceScope(request.sourceGroups, scope);
    if claimScope.None? {
      MergeClaimScopeExists(c.h, request);
      assert false;
      r := Err(InvalidCheckpoint);
      return;
    }
    if !ValidForSource(c.h, answer.value, provenance, scope.eventIds, claimScope.value) {
      r := Err(InvalidCheckpoint);
      return;
    }
    var checkpoint := answer.value.(manifest := Unique(scope.eventIds));
    ManifestStaysValid(c.h, answer.value, provenance, scope.eventIds, claimScope.value);
    if c.checkpointTokens(checkpoint) > CHECKPOINT_TARGET_TOKENS {
      r := Err(CheckpointTooLarge);
      return;
    }
    r, o := Ok(checkpoint), Some(Asked(ModelCall(request, polled, answer), checkpoint));
  }

  /** One chunk under its own identity; its checkpoint becomes an input of the merge. */
  method CompactChild(c: RecursiveCompactor, request: CompactionRequest, manifest: seq<Id>, chunk: seq<TurnGroup>,
                      index: nat, depth: nat, state: RecursiveState)
    returns (r: Result<TurnGroup, CompactionError>, ghost o: Option<Origin>)
    requires c.Sound() && depth <= MAX_DEPTH && state.Logged(c)
    requires ChunkOf(chunk, manifest)
    modifies state
    ensures state.Logged(c) && old(state.log) <= state.log
    ensures old(state.attempts) <= state.attempts <= old(state.attempts) + 2 * |chunk| - 1
    ensures r.Ok? ==> MergeGroup(r.value, manifest)
    ensures r.Ok? ==> o.Some? && Tells(c, TaskOf(ChunkRequest(request, chunk)), o.value)
                      && ShowsSummary(c, r.value, o.value.result) && state.log == old(state.log) + Calls(o.value)
    ensures r.Err? ==> r.error != InvalidRequest && state.Explains(c, r.error)
    decreases MAX_DEPTH + 1 - depth, 0
  {
    var child;
    child, o := CompactRecursive(c, ChunkRequest(request, chunk), depth + 1, state);
    if child.Err? {
      if child.error == InvalidRequest {
        GroupsHaveIdentity(c.h, ChunkRequest(request, chunk));
      }
      r := Err(child.error);
      return;
    }
    ChildStaysInManifest(c, request, chunk, manifest, index, child.value);
    r := Ok(MergeInput(c, index, child.value));
  }

  /** A non-empty run of ledger groups whose events all lie in `manifest`. */
  ghost predicate ChunkOf(chunk: seq<TurnGroup>, manifest: seq<Id>) {
    && chunk != []
    && !HasDerivedGroups(chunk)
    && (forall i :: 0 <= i < |chunk| ==> chunk[i].Valid())
    && forall id :: id in Unique(GroupIds(chunk)) ==> id in manifest
  }

  /** The first summaries, how they came about, and the calls made for them. */
  ghost predicate Summarised(c: RecursiveCompactor, request: CompactionRequest, chunks: seq<seq<TurnGroup>>,
                             merged: seq<TurnGroup>, parts: seq<Origin>, before: seq<ModelCall>, log: seq<ModelCall>) {
    && |merged| == |parts| <= |chunks| && log == before + AllCalls(parts)
    && forall i :: 0 <= i < |parts| ==>
      Tells(c, TaskOf(ChunkRequest(request, chunks[i])), parts[i]) && ShowsSummary(c, merged[i], parts[i].result)
  }

  lemma SummariseNext(c: RecursiveCompactor, request: CompactionRequest, chunks: seq<seq<TurnGroup>>,
                      merged: seq<TurnGroup>, parts: seq<Origin>, before: seq<ModelCall>, log: seq<ModelCall>,
                      group: TurnGroup, part: Origin)
    requires Summarised(c, request, chunks, merged, parts, before, log) && |parts| < |chunks|
    requires Tells(c, TaskOf(ChunkRequest(request, chunks[|parts|])), part) && ShowsSummary(c, group, part.result)
    ensures Summarised(c, request, chunks, merged + [group], parts + [part], before, log + Calls(part))
  {
    hide Tells, Calls, ShowsSummary;
    SnocInit(parts, part);
    ConcatAssoc(before, AllCalls(parts), Calls(part));
  }

  method CompactChildren(c: RecursiveCompactor, request: CompactionRequest, manifest: seq<Id>,
                         chunks: seq<seq<TurnGroup>>, depth: nat, state: RecursiveState)
    returns (r: Result<seq<TurnGroup>, CompactionError>, ghost parts: seq<Origin>)
    requires c.Sound() && depth <= MAX_DEPTH && state.Logged(c)
    requires chunks != [] && forall k :: 0 <= k < |chunks| ==> ChunkOf(chunks[k], manifest)
    modifies state
    ensures state.Logged(c) && old(state.log) <= state.log
    ensures old(state.attempts) <= state.attempts
    ensures state.attempts <= old(state.attempts) + 2 * |Concat(chunks)| - (if r.Ok? then |chunks| else 1)
    ensures r.Ok? ==> |r.value| == |parts| == |chunks| && MergeGroups(r.value, manifest)
    ensures r.Ok? ==> Summarised(c, request, chunks, r.value, parts, old(state.log), state.log)
    ensures r.Err? ==> r.error != InvalidRequest && state.Explains(c, r.error)
    decreases MAX_DEPTH + 1 - depth, 1
  {
    hide Tells, Calls, ShowsSummary, MayBeSent;
    var merged: seq<TurnGroup> := [];
    parts := [];
    for i := 0 to |chunks|
      invariant state.Logged(c) && old(state.log) <= state.log
      invariant old(state.attempts) <= state.attempts <= old(state.attempts) + 2 * |Concat(chunks[..i])| - i
      invariant |merged| == i && MergeGroups(merged, manifest)
      invariant Summarised(c, request, chunks, merged, parts, old(state.log), state.log)
    {
      ConcatSplit(chunks, i);
      ghost var before, part := state.log, None;
      var child;
      child, part := CompactChild(c, request, manifest, chunks[i], i, depth, state);
      if child.Err? {
        r := Err(child.error);
        return;
      }
      AppendMergeGroup(merged, child.value, manifest);
      SummariseNext(c, request, chunks, merged, parts, old(state.log), before, child.value, part.value);
      merged, parts := merged + [child.value], parts + [part.value];
    }
    assert chunks[..|chunks|] == chunks;
    r := Ok(merged);
  }

  lemma ChunksOf(h: Digests, r: CompactionRequest, scope: SourceScope, chunks: seq<seq<TurnGroup>>)
    requires RawRequest(r) && SourceIdentity(h, r).Some? && DirectSourceScope(h, r) == Some(scope)
    requires Concat(chunks) == r.sourceGroups && forall k :: 0 <= k < |chunks| ==> chunks[k] != []
    ensures forall k :: 0 <= k < |chunks| ==> ChunkOf(chunks[k], scope.eventIds)
  {
    hide ChunkOf, SourceIdentity, DirectSourceScope;
    RawManifest(h, r);
    IdentityHasValidGroups(h, r);
    forall k | 0 <= k < |chunks| ensures ChunkOf(chunks[k], scope.eventIds) {
      ChunkIsOne(r.sourceGroups, chunks, k);
    }
  }

  lemma IdentityHasValidGroups(h: Digests, r: CompactionRequest)
    requires SourceIdentity(h, r).Some?
    ensures forall i :: 0 <= i < |r.sourceGroups| ==> r.sourceGroups[i].Valid()
  {
  }

  lemma ChunkIsOne(groups: seq<TurnGroup>, chunks: seq<seq<TurnGroup>>, k: nat)
    requires Concat(chunks) == groups && k < |chunks| && chunks[k] != [] && !HasDerivedGroups(groups)
    requires forall i :: 0 <= i < |groups| ==> groups[i].Valid()
    ensures ChunkOf(chunks[k], Unique(GroupIds(groups)))
  {
    hide GroupIds, Unique, HasDerivedGroups;
    ChunkGroupsInWhole(chunks, k);
    ChunkIdsInWhole(groups, chunks[k]);
    forall i | 0 <= i < |chunks[k]| ensures chunks[k][i].Valid() {
      assert chunks[k][i] in groups;
    }
  }

  lemma MergedAreDerived(groups: seq<TurnGroup>, manifest: seq<Id>)
    requires groups != [] && MergeGroups(groups, manifest)
    ensures HasDerivedGroups(groups)
  {
    assert MergeGroup(groups[0], manifest) && groups[0].derived;
  }

  /** Every chunk on its own, then one merge under the root identity. */
  method CompactChunks(c: RecursiveCompactor, request: CompactionRequest, scope: SourceScope,
                       chunks: seq<seq<TurnGroup>>, depth: nat, state: RecursiveState)
    returns (r: Result<Checkpoint, CompactionError>, ghost o: Option<Origin>)
    requires c.Sound() && depth <= MAX_DEPTH && state.Logged(c)
    requires RawRequest(request)
    requires SourceIdentity(c.h, request).Some? && DirectSourceScope(c.h, request) == Some(scope)
    requires Concat(chunks) == request.sourceGroups && (forall k :: 0 <= k < |chunks| ==> chunks[k] != [])
    requires |chunks| > 1 || (|chunks| == 1 && request.previous.Some?)
    modifies state
    ensures state.Logged(c) && old(state.log) <= state.log
    ensures old(state.attempts) <= state.attempts <= old(state.attempts) + CallBound(request)
    ensures r.Ok? ==> c.Certified(request, r.value)
    ensures r.Ok? ==> o.Some? && o.value.result == r.value && Tells(c, TaskOf(request), o.value)
                      && state.log == old(state.log) + Calls(o.value)
    ensures r.Err? ==> r.error != InvalidRequest && state.Explains(c, r.error)
    decreases MAX_DEPTH + 1 - depth, 2
  {
    hide Tells, Calls, MayBeSent, Summarised, MergeGroups, ChunkOf, ProvenanceForSource, GroupIds, CanonicalIds,
      ValidForSource, ValidCheckpoint, RecursiveState.Logged, RecursiveState.Explains;
    ChunksOf(c.h, request, scope, chunks);
    o := None;
    var merged;
    ghost var parts;
    merged, parts := CompactChildren(c, request, scope.eventIds, chunks, depth, state);
    if merged.Err? {
      r := Err(merged.error);
      return;
    }
    var mergeRequest := MergeOf(request, scope, merged.value);
    MergedAreDerived(merged.value, scope.eventIds);
    assert MergeRequest(mergeRequest);
    MergeHasIdentity(c, request, mergeRequest);
    hide SourceIdentity, DirectSourceScope;
    ghost var between := state.log;
    r, o := CompactRecursive(c, mergeRequest, depth + 1, state);
    if r.Ok? {
      MergeKeepsIdentity(c, request, mergeRequest, r.value);
      ghost var whole := MergeTells(c, request, mergeRequest, chunks, parts, old(state.log), between, o.value);
      o := Some(whole);
    }
  }

  lemma MergeHasIdentity(c: RecursiveCompactor, r: CompactionRequest, merge: CompactionRequest)
    requires SourceIdentity(c.h, r).Some? && merge.sourceScope == DirectSourceScope(c.h, r)
    requires merge.previous == r.previous && MergeRequest(merge)
    ensures SourceIdentity(c.h, merge).Some?
  {
    RestatedIdentity(c.h, r);
  }

  /** The merge of the summaries is an account of the whole task. */
  lemma MergeTells(c: RecursiveCompactor, r: CompactionRequest, merge: CompactionRequest, chunks: seq<seq<TurnGroup>>,
                   parts: seq<Origin>, before: seq<ModelCall>, between: seq<ModelCall>, last: Origin)
    returns (o: Origin)
    requires Summarised(c, r, chunks, merge.sourceGroups, parts, before, between) && |parts| == |chunks|
    requires Concat(chunks) == r.sourceGroups && (forall k :: 0 <= k < |chunks| ==> chunks[k] != [])
    requires TaskOf(merge) == TaskOf(r).(groups := merge.sourceGroups)
    requires last.Asked? && Tells(c, TaskOf(merge), last)
    ensures o.result == last.result && Tells(c, TaskOf(r), o) && before + Calls(o) == between + Calls(last)
  {
    o := Merged(last.call, last.result, chunks, parts);
    forall i | 0 <= i < |parts|
      ensures Tells(c, TaskOf(r).(previous := None, groups := chunks[i]), parts[i])
              && ShowsSummary(c, last.call.request.sourceGroups[i], parts[i].result)
    {
      assert TaskOf(ChunkRequest(r, chunks[i])) == TaskOf(r).(previous := None, groups := chunks[i]);
    }
    ConcatAssoc(before, AllCalls(parts), [last.call]);
  }

  lemma RawManifest(h: Digests, r: CompactionRequest)
    requires RawRequest(r) && DirectSourceScope(h, r).Some?
    ensures DirectSourceScope(h, r).value.eventIds == Unique(GroupIds(r.sourceGroups))
  {
    UniqueMembers(GroupIds(r.sourceGroups));
    UniqueFixpoint(Unique(GroupIds(r.sourceGroups)));
  }

  /** The identity under which the summaries are merged is the one of the whole source. */
  function MergeOf(r: CompactionRequest, scope: SourceScope, summaries: seq<TurnGroup>): CompactionRequest {
    r.(sourceGroups := summaries, directIds := scope.eventIds, directHash := Some(scope.hash),
       sourceScope := Some(scope))
  }

  lemma ChunkGroupsInWhole(chunks: seq<seq<TurnGroup>>, i: nat)
    requires i < |chunks|
    ensures forall g :: g in chunks[i] ==> g in Concat(chunks)
    ensures !HasDerivedGroups(Concat(chunks)) ==> !HasDerivedGroups(chunks[i])
  {
    ConcatSplit(chunks, i);
    var before, upTo := Concat(chunks[..i]), Concat(chunks[..i + 1]);
    assert forall k :: 0 <= k < |chunks[i]| ==> chunks[i][k] == upTo[|before| + k];
    if HasDerivedGroups(chunks[i]) {
      var k :| 0 <= k < |chunks[i]| && chunks[i][k].derived;
      assert Concat(chunks)[|before| + k] == chunks[i][k];
    }
  }

  /** The merge request commits to exactly the identity of the request it stands for. */
  lemma MergeKeepsIdentity(c: RecursiveCompactor, r: CompactionRequest, merge: CompactionRequest,
                           checkpoint: Checkpoint)
    requires DirectSourceScope(c.h, r).Some? && SourceIdentity(c.h, r).Some?
    requires merge.sourceScope == DirectSourceScope(c.h, r) && merge.previous == r.previous
    requires c.Certified(merge, checkpoint)
    ensures c.Certified(r, checkpoint)
  {
    RestatedIdentity(c.h, r);
  }

  lemma IdentityHasGroups(h: Digests, r: CompactionRequest)
    requires r.sourceScope.None? && DirectSourceScope(h, r).Some?
    ensures r.sourceGroups != [] && DirectSourceScope(h, r).value.eventIds == Unique(GroupIds(r.sourceGroups))
  {
    assert GroupIds([]) == [];
  }

  /** One whole compaction: bounded cost whatever happens, a result that tells the model the whole
      source, is certified for the unchunked request and worth installing, or a reason against it. */
  method CompactWithResult(c: RecursiveCompactor, request: CompactionRequest, state: RecursiveState)
    returns (r: Result<CompactionResult, CompactionError>, ghost o: Option<Origin>)
    requires c.h.Sound()
    requires request.sourceScope.None? && !HasDerivedGroups(request.sourceGroups)
    requires state.attempts == 0 && state.log == []
    modifies state
    ensures state.Logged(c) && state.attempts <= 2 * |request.sourceGroups|
    ensures o.Some? ==> Tells(c, TaskOf(request), o.value) && state.log == Calls(o.value)
    ensures r.Ok? ==>
      && o.Some? && r.value.checkpoint == o.value.result
      && c.Certified(request, r.value.checkpoint)
      && RawShown(state.log) == request.sourceGroups
      && r.value.attempts == state.attempts
      && r.value.sourceTokens == SumTokens(c, request.sourceGroups)
      && r.value.resultTokens == c.checkpointTokens(r.value.checkpoint) <= CHECKPOINT_TARGET_TOKENS
      && 5 * r.value.resultTokens <= 4 * (r.value.sourceTokens + PreviousTokens(c, request.previous))
    ensures r.Err? ==>
      match r.error
      case InvalidRequest => !ContextConfig.ValidWindow(c.windowTokens) || SourceIdentity(c.h, request).None?
      case LowGain =>
        var replaced := SumTokens(c, request.sourceGroups) + PreviousTokens(c, request.previous);
        o.Some? && !(replaced > 0 && 5 * c.checkpointTokens(o.value.result) <= 4 * replaced)
      case _ => state.Explains(c, r.error)
  {
    hide Tells, Calls, MayBeSent, ProvenanceForSource, GroupIds, CanonicalIds, ValidForSource, ValidCheckpoint,
      Unusable, TooLarge, TooBigToMerge, FitsRequest, RawShown, SumTokens, GainPercent;
    o := None;
    var over := state.Poll(c);
    if over {
      r := Err(Cancelled);
      return;
    }
    if !ContextConfig.ValidWindow(c.windowTokens) {
      r := Err(InvalidRequest);
      return;
    }
    var scope := DirectSourceScope(c.h, request);
    if SourceIdentity(c.h, request).None? {
      r := Err(InvalidRequest);
      return;
    }
    var root := request.(directIds := scope.value.eventIds, directHash := Some(scope.value.hash), sourceScope := scope);
    RestatedIdentity(c.h, request);
    IdentityHasGroups(c.h, request);
    RootKeepsIdentity(c.h, request);
    var checkpoint;
    checkpoint, o := CompactRecursive(c, root, 0, state);
    if checkpoint.Err? {
      r, o := Err(checkpoint.error), None;
      return;
    }
    assert [] + Calls(o.value) == Calls(o.value);
    SourceIsShownOnce(c, TaskOf(request), o.value);
    var replaced := ReplacedTokens(c, request);
    var resultTokens := c.checkpointTokens(checkpoint.value);
    var gain := GainPercent(replaced, resultTokens);
    GainRule(replaced, resultTokens);
    if gain < MINIMUM_GAIN_PERCENT {
      r := Err(LowGain);
      return;
    }
    r := Ok(CompactionResult(checkpoint.value, state.attempts, SumTokens(c, request.sourceGroups), resultTokens, gain));
  }

  lemma RootKeepsIdentity(h: Digests, r: CompactionRequest)
    requires r.sourceScope.None? && DirectSourceScope(h, r).Some? && h.Sound()
    ensures var scope := DirectSourceScope(h, r);
      var root := r.(directIds := scope.value.eventIds, directHash := Some(scope.value.hash), sourceScope := scope);
      DirectSourceScope(h, root) == scope && SourceIdentity(h, root) == SourceIdentity(h, r)
  {
    RestatedIdentity(h, r);
    CanonicalIdsIffCanonical(Unique(GroupIds(r.sourceGroups)));
  }

  ghost function PreviousTokens(c: RecursiveCompactor, previous: Option<Checkpoint>): nat {
    match previous
    case None => 0
    case Some(p) => c.checkpointTokens(p)
  }

  /** What the checkpoint replaces in the prompt: the summarised groups and the previous checkpoint. */
  function ReplacedTokens(c: RecursiveCompactor, r: CompactionRequest): nat {
    SumTokens(c, r.sourceGroups) + if r.previous.Some? then c.checkpointTokens(r.previous.value) else 0
  }

  function SumTokens(c: RecursiveCompactor, groups: seq<TurnGroup>): nat {
    if groups == [] then 0 else c.groupTokens(groups[0]) + SumTokens(c, groups[1..])
  }

  lemma {:induction false} SumTokensAppend(c: RecursiveCompactor, groups: seq<TurnGroup>, g: TurnGroup)
    ensures SumTokens(c, []) == 0 && SumTokens(c, groups + [g]) == SumTokens(c, groups) + c.groupTokens(g)
  {
    if groups == [] {
      assert [] + [g] == [g] && [g][1..] == [];
    } else {
      SumTokensAppend(c, groups[1..], g);
      assert (groups + [g])[1..] == groups[1..] + [g];
    }
  }
}
