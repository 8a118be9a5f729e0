/** What a session holds in memory about its checkpoint, how a compaction extends it, and how a
    resumed session rebuilds it from the ledger (`internal/chat/session.go`). */
module Resume {
  import opened Ids
  import opened CheckpointContract
  import opened Compaction
  import opened ThreadJournal
  import opened TurnGroups
  import opened ThreadStores
  import opened Coverage

  /** The digests a ledger stores; `storageHash` is the digest of a whole stored checkpoint. */
  datatype Ledger = Ledger(h: Digests, storageHash: StoredCheckpoint -> Digest) {
    ghost predicate Sound() {
      h.Sound() && forall c :: storageHash(c).SHA256?
    }
  }

  /** `Session.checkpoint` and `Session.coverage`. */
  datatype Memory = Memory(active: Option<Checkpoint>, coverage: seq<Id>)

  const NO_CHECKPOINT := Memory(None, [])

  function ActiveId(m: Memory): Id {
    if m.active.None? then Id.Blank else m.active.value.id
  }

  /** The JSON form drops the two fields that are only injected after a load. */
  function ToPayload(c: Checkpoint): Checkpoint {
    c.(storageHash := Malformed, manifest := [])
  }

  function Install(l: Ledger, c: StoredCheckpoint, payload: Checkpoint): Checkpoint {
    payload.(id := c.id, storageHash := l.storageHash(c), manifest := Unique(c.sourceEventIds))
  }

  // ---- verification of a stored lineage ----

  function ColdGroups(evidence: seq<TurnGroup>, wanted: set<Id>): Option<seq<TurnGroup>> {
    if evidence == [] then Some([]) else
      var before, g := ColdGroups(evidence[..|evidence| - 1], wanted), evidence[|evidence| - 1];
      var matched := CountIn(g.EffectiveSourceEventIds(), wanted);
      if before.None? then None
      else if matched == 0 then before
      else if matched != |g.EffectiveSourceEventIds()| then None
      else Some(before.value + [g])
  }

  predicate ColdSourceMatches(l: Ledger, c: StoredCheckpoint, evidence: seq<TurnGroup>) {
    var ids := c.sourceEventIds;
    ids != [] && Unique(ids) == ids &&
    var cold := ColdGroups(evidence, set id | id in ids);
    cold.Some? && Unique(GroupIds(cold.value)) == ids && l.h.groups(cold.value) == c.sourceHash
  }

  method SelectColdGroups(evidence: seq<TurnGroup>, wanted: set<Id>) returns (r: Option<seq<TurnGroup>>)
    ensures r == ColdGroups(evidence, wanted)
  {
    var groups := [];
    for i := 0 to |evidence|
      invariant ColdGroups(evidence[..i], wanted) == Some(groups)
    {
      assert evidence[..i + 1][..i] == evidence[..i];
      var groupIds := evidence[i].EffectiveSourceEventIds();
      var matched := CountIn(groupIds, wanted);
      if matched != 0 {
        if matched != |groupIds| {
          ColdFails(evidence, wanted, i + 1);
          return None;
        }
        groups := groups + [evidence[i]];
      }
    }
    assert evidence[..|evidence|] == evidence;
    r := Some(groups);
  }

  method ValidateColdSource(l: Ledger, c: StoredCheckpoint, evidence: seq<TurnGroup>) returns (ok: bool)
    ensures ok == ColdSourceMatches(l, c, evidence)
  {
    var ids := c.sourceEventIds;
    if ids == [] || Unique(ids) != ids {
      return false;
    }
    var groups := SelectColdGroups(evidence, set id | id in ids);
    if groups.None? {
      return false;
    }
    ok := Unique(GroupIds(groups.value)) == ids && l.h.groups(groups.value) == c.sourceHash;
  }

  lemma {:induction false} ColdFails(evidence: seq<TurnGroup>, wanted: set<Id>, n: nat)
    requires n <= |evidence| && ColdGroups(evidence[..n], wanted).None?
    ensures ColdGroups(evidence, wanted).None?
  {
    if n < |evidence| {
      var rest := evidence[..|evidence| - 1];
      assert rest[..n] == evidence[..n];
      ColdFails(rest, wanted, n);
    } else {
      assert evidence[..n] == evidence;
    }
  }

  /** One link of a lineage, checked against the ledger and the link before it. */
  function VerifyOne(l: Ledger, groups: seq<StoreGroup>, before: Memory, c: StoredCheckpoint): Option<Memory> {
    if c.parentId != ActiveId(before) then None else
      var source := CompleteSourceGroups(groups, c.sourceEventIds);
      if source.None? || !ColdSourceMatches(l, c, ContextGroups(source.value)) then None else
        var expected := ProvenanceForSource(l.h, c.sourceEventIds, c.sourceHash, ParentOf(before.active));
        if expected.None? || !ValidForSource(l.h, c.payload, expected.value, c.sourceEventIds, c.sourceEventIds)
          then None
        else Some(Memory(Some(Install(l, c, c.payload)), before.coverage + c.sourceEventIds))
  }

  /** Root first; `coverage` collects the direct manifests in that order. */
  function Verify(l: Ledger, groups: seq<StoreGroup>, lineage: seq<StoredCheckpoint>): Option<Memory> {
    if lineage == [] then Some(NO_CHECKPOINT) else
      var before := Verify(l, groups, lineage[1..]);
      if before.None? then None else VerifyOne(l, groups, before.value, lineage[0])
  }

  /** `loadVerifiedPersistedCheckpoint`; None is any of its errors. */
  method LoadVerified(l: Ledger, groups: seq<StoreGroup>, lineage: seq<StoredCheckpoint>) returns (r: Option<Memory>)
    ensures r == if lineage == [] || Verify(l, groups, lineage).None? then None
                 else var m := Verify(l, groups, lineage).value;
                      Some(m.(coverage := Unique(m.coverage)))
  {
    if lineage == [] {
      return None;
    }
    var memory := NO_CHECKPOINT;
    for i := |lineage| downto 0
      invariant Verify(l, groups, lineage[i..]) == Some(memory)
    {
      assert lineage[i..][1..] == lineage[i + 1..] || i == |lineage|;
      var c := lineage[i];
      var source := ResolveSourceGroups(groups, c.sourceEventIds);
      var valid := false;
      if c.parentId == ActiveId(memory) && source.Some? {
        valid := ValidateColdSource(l, c, ContextGroups(source.value));
      }
      var expected := ProvenanceForSource(l.h, c.sourceEventIds, c.sourceHash, ParentOf(memory.active));
      if !valid || expected.None?
        || !ValidForSource(l.h, c.payload, expected.value, c.sourceEventIds, c.sourceEventIds) {
        VerifyFails(l, groups, lineage, i);
        return None;
      }
      memory := Memory(Some(Install(l, c, c.payload)), memory.coverage + c.sourceEventIds);
    }
    assert lineage[0..] == lineage;
    var coverage := CollectUnique(memory.coverage);
    r := Some(memory.(coverage := coverage));
  }

  lemma {:induction false} VerifyFails(l: Ledger, groups: seq<StoreGroup>, lineage: seq<StoredCheckpoint>, i: nat)
    requires i <= |lineage| && Verify(l, groups, lineage[i..]).None?
    ensures Verify(l, groups, lineage).None?
  {
    if i > 0 {
      assert lineage[1..][i - 1..] == lineage[i..];
      VerifyFails(l, groups, lineage[1..], i - 1);
    } else {
      assert lineage[0..] == lineage;
    }
  }

  /** Merging manifests one compaction at a time gives what merging the whole lineage gives. */
  lemma {:induction false} MergesCommute(a: seq<Id>, b: seq<Id>)
    ensures Unique(Unique(a) + b) == Unique(a + b)
  {
    if b == [] {
      UniqueMembers(a);
      UniqueFixpoint(Unique(a));
      assert Unique(a) + b == Unique(a) && a + b == a;
    } else {
      var rest, last := b[..|b| - 1], b[|b| - 1];
      MergesCommute(a, rest);
      assert (Unique(a) + b)[..|Unique(a) + b| - 1] == Unique(a) + rest;
      assert (a + b)[..|a + b| - 1] == a + rest;
    }
  }

  /** What resuming finds for checkpoint `id`. */
  function ResumeMemory(l: Ledger, events: seq<Event>, id: Id): Option<Memory> {
    Verify(l, StoreGroups(events), Lineage(events, id))
  }

  // ---- the ledger only grows: what verified once verifies for ever ----

  ghost predicate Ledgered(events: seq<Event>) {
    Written(events) && FreshIds(events)
  }

  lemma {:induction false} ContextIdsDistinct(groups: seq<StoreGroup>)
    requires forall i, j :: 0 <= i < j < |groups| ==> groups[i].turn != groups[j].turn
    ensures var ctx := ContextGroups(groups); forall i, j :: 0 <= i < j < |ctx| ==> ctx[i].id != ctx[j].id
  {
    if groups != [] {
      var rest, ctx := groups[..|groups| - 1], ContextGroups(groups);
      ContextIdsDistinct(rest);
      forall i, j | 0 <= i < j < |ctx| ensures ctx[i].id != ctx[j].id {
        ContextIdIsTurn(rest, i);
      }
    }
  }

  lemma {:induction false} ContextIdIsTurn(groups: seq<StoreGroup>, i: nat)
    ensures i < |ContextGroups(groups)| ==>
            exists k :: 0 <= k < |groups| && groups[k].turn == ContextGroups(groups)[i].id
  {
    if groups != [] {
      var rest := groups[..|groups| - 1];
      ContextIdIsTurn(rest, i);
      if i < |ContextGroups(groups)| {
        if i < |ContextGroups(rest)| {
          var k :| 0 <= k < |rest| && rest[k].turn == ContextGroups(rest)[i].id;
          assert groups[k] == rest[k];
        } else {
          assert groups[|groups| - 1].turn == ContextGroups(groups)[i].id;
        }
      }
    }
  }

  lemma JournalContext(events: seq<Event>)
    requires Ledgered(events)
    ensures var groups := StoreGroups(events);
      && Canonical(AllIds(groups)) && Disjoint(ContextGroups(groups))
      && (forall i :: 0 <= i < |groups| ==> groups[i].eventIds != [])
  {
    var groups := StoreGroups(events);
    JournalGroupsAreTidy(events);
    GroupIdsComeFromEvents(events);
    ContextIdsCanonical(groups);
    ContextIdsDistinct(groups);
  }

  lemma {:induction false} SelectedIdsExist(groups: seq<StoreGroup>, wanted: set<Id>)
    requires SelectGroups(groups, wanted).Some?
    ensures forall id :: id in AllIds(SelectGroups(groups, wanted).value) ==> id in AllIds(groups)
  {
    if groups != [] {
      SelectedIdsExist(groups[..|groups| - 1], wanted);
    }
  }

  lemma SelectSnoc(groups: seq<StoreGroup>, g: StoreGroup, wanted: set<Id>)
    requires CountIn(g.eventIds, wanted) == 0
    ensures SelectGroups(groups + [g], wanted) == SelectGroups(groups, wanted)
  {
    SnocInit(groups, g);
  }

  /** One more event does not change what a resolved manifest selects. */
  lemma SelectStable(groups: seq<StoreGroup>, e: Event, wanted: set<Id>)
    requires Advances(groups, AddEvent(groups, e), e) && e.id !in wanted
    requires SelectGroups(groups, wanted).Some?
    ensures SelectGroups(AddEvent(groups, e), wanted) == SelectGroups(groups, wanted)
  {
    if TurnOf(e.payload) != Id.Blank {
      if e.payload.TurnStarted? {
        SelectSnoc(groups, StoreGroup(e.payload.turn, e.sequence, [e.id], true, None), wanted);
      } else {
        var rest, last := groups[..|groups| - 1], groups[|groups| - 1];
        assert groups == rest + [last];
        SelectSnoc(rest, last, wanted);
        SelectSnoc(rest, Extend(last, e), wanted);
      }
    }
  }

  lemma SourceStable(events: seq<Event>, e: Event, ids: seq<Id>)
    requires Ledgered(events) && ValidJournal(events + [e]) && FreshIds(events + [e])
    requires CompleteSourceGroups(StoreGroups(events), ids).Some?
    ensures CompleteSourceGroups(StoreGroups(events + [e]), ids) == CompleteSourceGroups(StoreGroups(events), ids)
  {
    var groups, wanted := StoreGroups(events), set id | id in ids;
    ReplayAppend(events, e);
    JournalGroupsAreTidy(events);
    OneEventAdvances(groups, Replay(events).value, e);
    SnocInit(events, e);
    GroupIdsComeFromEvents(events);
    SelectedIdsExist(groups, wanted);
    UniqueMembers(AllIds(SelectGroups(groups, wanted).value));
    CanonicalParts(EventIds(events), [e.id]);
    assert e.id in [e.id];
    SelectStable(groups, e, wanted);
  }

  lemma {:induction false} VerifyStable(l: Ledger, events: seq<Event>, e: Event, lineage: seq<StoredCheckpoint>)
    requires Ledgered(events) && ValidJournal(events + [e]) && FreshIds(events + [e])
    requires Verify(l, StoreGroups(events), lineage).Some?
    ensures Verify(l, StoreGroups(events + [e]), lineage) == Verify(l, StoreGroups(events), lineage)
  {
    if lineage != [] {
      VerifyStable(l, events, e, lineage[1..]);
      SourceStable(events, e, lineage[0].sourceEventIds);
    }
  }

  /** Live memory and cold rebuild agree, and cover the first `k` committed groups. */
  ghost predicate Agrees(l: Ledger, events: seq<Event>, m: Memory, k: nat) {
    var ctx := ContextGroups(StoreGroups(events));
    && ValidJournal(events)
    && k <= |ctx| && m.coverage == SourceIds(ctx[..k])
    && (ActiveId(m) == Id.Blank || ActiveId(m) in Replay(events).value.checkpoints)
    && ResumeMemory(l, events, ActiveId(m)) == Some(m)
  }

  lemma NoCheckpointAgrees(l: Ledger, events: seq<Event>)
    requires ValidJournal(events)
    ensures Agrees(l, events, NO_CHECKPOINT, 0)
  {
    assert Lineage(events, Id.Blank) == [];
  }

  lemma ResumeIsStable(l: Ledger, events: seq<Event>, e: Event, id: Id)
    requires Ledgered(events) && ValidJournal(events + [e]) && FreshIds(events + [e])
    requires id == Id.Blank || id in Replay(events).value.checkpoints
    requires ResumeMemory(l, events, id).Some?
    ensures ResumeMemory(l, events + [e], id) == ResumeMemory(l, events, id)
  {
    if id != Id.Blank {
      LineageIsStable(events, e, id);
    }
    assert Lineage(events + [e], id) == Lineage(events, id);
    VerifyStable(l, events, e, Lineage(events, id));
  }

  /** Any other event leaves the agreement alone. */
  lemma AgreementIsStable(l: Ledger, events: seq<Event>, e: Event, m: Memory, k: nat)
    requires Ledgered(events) && ValidJournal(events + [e]) && FreshIds(events + [e])
    requires Agrees(l, events, m, k)
    ensures Agrees(l, events + [e], m, k)
  {
    ContextGroupsGrow(events, e);
    PrefixOfPrefix(ContextGroups(StoreGroups(events)), ContextGroups(StoreGroups(events + [e])), k);
    CheckpointsStay(events, e, ActiveId(m));
    ResumeIsStable(l, events, e, ActiveId(m));
  }

  lemma PrefixOfPrefix<T>(s: seq<T>, t: seq<T>, k: nat)
    requires k <= |s| && s <= t
    ensures t[..k] == s[..k]
  {
  }

  lemma CheckpointsStay(events: seq<Event>, e: Event, id: Id)
    requires ValidJournal(events + [e])
    ensures ValidJournal(events)
            && (id in Replay(events).value.checkpoints ==> id in Replay(events + [e]).value.checkpoints)
  {
    ReplayAppend(events, e);
  }

  // ---- extending the coverage by one compaction ----

  datatype CompactionPlan = CompactionPlan(
    candidates: seq<TurnGroup>, ids: seq<Id>, sourceGroups: seq<TurnGroup>, hash: Digest, tailStart: nat)

  datatype PlanError = NoCandidates | SourceUnresolved

  function SourceOf(groups: seq<StoreGroup>, candidates: seq<TurnGroup>): Option<seq<StoreGroup>> {
    CompleteSourceGroups(groups, Unique(GroupIds(candidates)))
  }

  ghost predicate PlanFollows(l: Ledger, groups: seq<StoreGroup>, coverage: seq<Id>, keep: nat, omitted: seq<Id>,
                              p: CompactionPlan) {
    var all := ContextGroups(groups);
    var uncovered := UncoveredGroups(all, coverage);
    && 0 < |p.candidates| && p.candidates <= uncovered && IsCandidateCut(uncovered, keep, omitted, |p.candidates|)
    && p.ids == Unique(GroupIds(p.candidates)) && p.hash == l.h.groups(p.sourceGroups)
    && SourceOf(groups, p.candidates).Some? && p.sourceGroups == ContextGroups(SourceOf(groups, p.candidates).value)
    && p.tailStart == TailStart(all, p.candidates)
  }

  ghost predicate Unresolved(groups: seq<StoreGroup>, uncovered: seq<TurnGroup>, cut: int) {
    0 < cut <= |uncovered| && SourceOf(groups, uncovered[..cut]).None?
  }

  /** The preflight of `compactLocked`: what to summarise, resolved against the ledger. */
  method PlanCompaction(l: Ledger, groups: seq<StoreGroup>, coverage: seq<Id>, keepRecent: int, omitted: seq<Id>)
    returns (r: Result<CompactionPlan, PlanError>)
    ensures r.Ok? ==>
      var keep := if keepRecent < 0 then KEEP_RECENT_TURN_GROUPS else keepRecent;
      PlanFollows(l, groups, coverage, keep, omitted, r.value)
    ensures r == Err(NoCandidates) ==>
      IsCandidateCut(UncoveredGroups(ContextGroups(groups), coverage),
                     if keepRecent < 0 then KEEP_RECENT_TURN_GROUPS else keepRecent, omitted, 0)
    ensures r == Err(SourceUnresolved) ==>
      exists cut :: Unresolved(groups, UncoveredGroups(ContextGroups(groups), coverage), cut)
  {
    var all := ContextGroups(groups);
    var candidates := CompactionCandidates(all, coverage, keepRecent, omitted);
    if candidates == [] {
      return Err(NoCandidates);
    }
    var ids := CollectUnique(GroupIds(candidates));
    var source := ResolveSourceGroups(groups, ids);
    if source.None? {
      ghost var uncovered := UncoveredGroups(all, coverage);
      assert candidates == uncovered[..|candidates|];
      assert Unresolved(groups, uncovered, |candidates|);
      return Err(SourceUnresolved);
    }
    var sourceGroups := ContextGroups(source.value);
    var tail := TailStartSequence(all, candidates);
    r := Ok(CompactionPlan(candidates, ids, sourceGroups, l.h.groups(sourceGroups), tail));
  }

  /** While memory covers a prefix of the committed turns, the uncovered ones are the rest. */
  lemma UncoveredIsSuffix(l: Ledger, events: seq<Event>, m: Memory, k: nat)
    requires Ledgered(events) && Agrees(l, events, m, k)
    ensures var ctx := ContextGroups(StoreGroups(events));
      CoveredGroups(ctx, m.coverage) == ctx[..k] && UncoveredGroups(ctx, m.coverage) == ctx[k..]
  {
    JournalContext(events);
    PrefixCoverage(ContextGroups(StoreGroups(events)), k);
  }

  /** Any run of whole turns resolves to itself, and its tail is the first turn after it. */
  lemma TurnsResolve(events: seq<Event>, k: nat, b: nat)
    requires Ledgered(events) && k < b <= |ContextGroups(StoreGroups(events))|
    ensures var groups := StoreGroups(events); var ctx := ContextGroups(groups);
      && Unique(GroupIds(ctx[k..b])) == SourceIds(ctx[k..b])
      && SourceOf(groups, ctx[k..b]).Some? && ContextGroups(SourceOf(groups, ctx[k..b]).value) == ctx[k..b]
      && TailStart(ctx, ctx[k..b]) == (if b < |ctx| then ctx[b].startSequence else 0)
  {
    var groups := StoreGroups(events);
    JournalContext(events);
    CandidateIds(ContextGroups(groups), k, b);
    SliceResolves(groups, k, b);
    TailIsFirstUncovered(ContextGroups(groups), k, b);
  }

  /** The plan is about turns `k..b`: the next whole turns, and the first one it leaves raw. */
  ghost predicate PlansTurns(events: seq<Event>, p: CompactionPlan, k: nat, b: nat) {
    var ctx := ContextGroups(StoreGroups(events));
    && k < b <= |ctx|
    && p.ids == SourceIds(ctx[k..b]) && p.sourceGroups == ctx[k..b]
    && p.tailStart == if b < |ctx| then ctx[b].startSequence else 0
  }

  lemma PlanTakesNextTurns(l: Ledger, events: seq<Event>, m: Memory, k: nat, keep: nat, omitted: seq<Id>,
                           p: CompactionPlan)
    requires Ledgered(events) && Agrees(l, events, m, k)
    requires PlanFollows(l, StoreGroups(events), m.coverage, keep, omitted, p)
    ensures PlansTurns(events, p, k, k + |p.candidates|)
  {
    hide Unique, GroupIds, SourceIds, StoreGroups, ContextGroups;
    var ctx, b := ContextGroups(StoreGroups(events)), k + |p.candidates|;
    UncoveredIsSuffix(l, events, m, k);
    PrefixIsTake(p.candidates, ctx[k..]);
    SliceOfTail(ctx, k, k, b);
    assert p.candidates == ctx[k..b];
    TurnsResolve(events, k, b);
  }

  /** The preflight never fails to resolve the turns it chose. */
  lemma EveryCutResolves(l: Ledger, events: seq<Event>, m: Memory, k: nat, cut: int)
    requires Ledgered(events) && Agrees(l, events, m, k)
    ensures !Unresolved(StoreGroups(events), UncoveredGroups(ContextGroups(StoreGroups(events)), m.coverage), cut)
  {
    hide Unique, GroupIds, SourceIds, StoreGroups, ContextGroups;
    var ctx := ContextGroups(StoreGroups(events));
    UncoveredIsSuffix(l, events, m, k);
    if 0 < cut <= |ctx[k..]| {
      SliceOfTail(ctx, k, k, k + cut);
      assert ctx[k..][..cut] == ctx[k..k + cut];
      TurnsResolve(events, k, k + cut);
    }
  }

  /** What `CommitCheckpoint` is given for a generated checkpoint; the store sets the sequence. */
  function ToStored(m: Memory, ids: seq<Id>, tailStart: nat, cp: Checkpoint, id: Id, op: Id, automatic: bool,
                    sequence: nat): StoredCheckpoint {
    StoredCheckpoint(id, ActiveId(m), sequence, ids, cp.provenance.contentHash, tailStart, ToPayload(cp.(id := id)),
                     automatic, op)
  }

  /** `setCheckpoint` after a successful commit. */
  function Installed(l: Ledger, m: Memory, cp: Checkpoint, stored: StoredCheckpoint): Memory {
    Memory(Some(cp.(id := stored.id, storageHash := l.storageHash(stored))), Unique(m.coverage + stored.sourceEventIds))
  }

  lemma PayloadStaysValid(h: Digests, cp: Checkpoint, id: Id, expected: Provenance, ids: seq<Id>)
    requires ValidForSource(h, cp, expected, ids, ids)
    ensures ValidForSource(h, ToPayload(cp.(id := id)), expected, ids, ids)
  {
  }

  /** A certified result names exactly the slice it was built from. */
  lemma CertifiedProvenance(c: RecursiveCompactor, r: CompactionRequest, cp: Checkpoint, ids: seq<Id>)
    requires c.Certified(r, cp) && r.sourceScope.None? && Unique(GroupIds(r.sourceGroups)) == ids
    ensures ids != [] && Unique(ids) == ids && cp.manifest == ids
    ensures cp.provenance.contentHash == c.h.groups(r.sourceGroups)
    ensures ProvenanceForSource(c.h, ids, cp.provenance.contentHash, ParentOf(r.previous)) == Some(cp.provenance)
    ensures ValidForSource(c.h, cp, cp.provenance, ids, ids)
  {
    CanonicalIdsIffCanonical(ids);
  }

  lemma {:induction false} ColdKeepsAll(evidence: seq<TurnGroup>, wanted: set<Id>)
    requires forall i :: 0 <= i < |evidence| ==> WhollyWanted(evidence[i], wanted)
    ensures ColdGroups(evidence, wanted) == Some(evidence)
  {
    if evidence != [] {
      var rest, last := evidence[..|evidence| - 1], evidence[|evidence| - 1];
      ColdKeepsAll(rest, wanted);
      InitLast(evidence);
      assert WhollyWanted(last, wanted);
    }
  }

  ghost predicate WhollyWanted(g: TurnGroup, wanted: set<Id>) {
    CountIn(g.EffectiveSourceEventIds(), wanted) == |g.EffectiveSourceEventIds()| != 0
  }

  lemma SliceIsColdSource(ctx: seq<TurnGroup>, a: nat, b: nat)
    requires Disjoint(ctx) && a < b <= |ctx|
    ensures var ids := SourceIds(ctx[a..b]); ColdGroups(ctx[a..b], set id | id in ids) == Some(ctx[a..b])
  {
    var ids := SourceIds(ctx[a..b]);
    forall i | 0 <= i < b - a ensures WhollyWanted(ctx[a..b][i], set id | id in ids) {
      SourceIdsSplit(ctx, a + i);
      UniqueFixpoint(ctx[a + i].sourceEventIds);
      forall id | id in ctx[a + i].sourceEventIds ensures id in ids {
        SourceIdsMember(ctx[a..b], i, id);
      }
    }
    ColdKeepsAll(ctx[a..b], set id | id in ids);
  }

  /** Committing what a compaction of turns `k..b` produced: a later resume rebuilds exactly the
      checkpoint and the coverage the live session installs, now covering `b` turns. */
  lemma CommitAgrees(l: Ledger, c: RecursiveCompactor, events: seq<Event>, e: Event, m: Memory, k: nat, b: nat,
                     r: CompactionRequest, cp: Checkpoint, stored: StoredCheckpoint)
    requires Ledgered(events) && ValidJournal(events + [e]) && FreshIds(events + [e]) && c.h == l.h
    requires var ctx := ContextGroups(StoreGroups(events));
      && Agrees(l, events, m, k) && k < b <= |ctx|
      && r.sourceGroups == ctx[k..b] && r.previous == m.active && r.sourceScope.None?
      && c.Certified(r, cp)
      && stored == ToStored(m, SourceIds(ctx[k..b]), stored.tailStart, cp, stored.id, stored.operationId,
                            stored.automatic, e.sequence)
      && e.payload == Compacted(stored)
    ensures Agrees(l, events + [e], Installed(l, m, cp, stored), b)
  {
    var groups := StoreGroups(events);
    var ctx := ContextGroups(groups);
    var ids := SourceIds(ctx[k..b]);
    JournalContext(events);
    NewLineage(l, events, e, m, stored);
    CandidateIds(ctx, k, b);
    CertifiedProvenance(c, r, cp, ids);
    SliceResolves(groups, k, b);
    SliceIsColdSource(ctx, k, b);
    PayloadStaysValid(l.h, cp, stored.id, cp.provenance, ids);
    assert VerifyOne(l, groups, m, stored) ==
      Some(Memory(Some(cp.(id := stored.id, storageHash := l.storageHash(stored))), m.coverage + ids));
    CoverageMerges(ctx, k, b);
    ctx := ContextGroups(StoreGroups(events + [e]));
  }

  lemma NewLineage(l: Ledger, events: seq<Event>, e: Event, m: Memory, stored: StoredCheckpoint)
    requires Ledgered(events) && ValidJournal(events + [e]) && e.payload == Compacted(stored)
    requires stored.parentId == ActiveId(m) && ResumeMemory(l, events, ActiveId(m)) == Some(m)
    ensures StoreGroups(events + [e]) == StoreGroups(events)
    ensures stored.id != Id.Blank && stored.id in Replay(events + [e]).value.checkpoints
    ensures ResumeMemory(l, events + [e], stored.id) == VerifyOne(l, StoreGroups(events), m, stored)
  {
    SnocInit(events, e);
    ReplayAppend(events, e);
    var lineage := [stored] + Lineage(events, stored.parentId);
    assert Lineage(events + [e], stored.id) == lineage;
    assert lineage[1..] == Lineage(events, stored.parentId);
  }
}
