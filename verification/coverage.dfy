/** Which committed turn groups a checkpoint covers, which ones the next compaction takes, and how a
    cold source manifest is resolved back to whole turns (`internal/chat/session.go`). */
module Coverage {
  import opened Ids
  import opened CheckpointContract
  import opened Compaction
  import opened ThreadJournal
  import opened TurnGroups

  const KEEP_RECENT_TURN_GROUPS := 12

  predicate Covered(g: TurnGroup, coverage: seq<Id>) {
    var ids := g.EffectiveSourceEventIds();
    ids != [] && forall i :: 0 <= i < |ids| ==> ids[i] in coverage
  }

  function Covers(coverage: seq<Id>, covered: bool): TurnGroup -> bool {
    (g: TurnGroup) => Covered(g, coverage) == covered
  }

  function CoveredGroups(groups: seq<TurnGroup>, coverage: seq<Id>): seq<TurnGroup> {
    Filter(Covers(coverage, true), groups)
  }

  function UncoveredGroups(groups: seq<TurnGroup>, coverage: seq<Id>): seq<TurnGroup> {
    Filter(Covers(coverage, false), groups)
  }

  method CollectUncovered(groups: seq<TurnGroup>, coverage: seq<Id>) returns (out: seq<TurnGroup>)
    ensures out == UncoveredGroups(groups, coverage)
  {
    out := [];
    for i := 0 to |groups|
      invariant out == UncoveredGroups(groups[..i], coverage)
    {
      assert groups[..i + 1][..i] == groups[..i];
      if !Covered(groups[i], coverage) {
        out := out + [groups[i]];
      }
    }
    assert groups[..|groups|] == groups;
  }

  /** Everything but the hot tail, and at least up to the last group the prompt had to omit. */
  ghost predicate IsCandidateCut(groups: seq<TurnGroup>, keepRecent: nat, omitted: seq<Id>, cut: nat) {
    && cut <= |groups|
    && cut >= |groups| - keepRecent
    && (forall i :: 0 <= i < |groups| && groups[i].id in omitted ==> i < cut)
    && (cut == 0 || cut == |groups| - keepRecent || groups[cut - 1].id in omitted)
  }

  method CompactionCandidates(all: seq<TurnGroup>, coverage: seq<Id>, keepRecent: int, omitted: seq<Id>)
    returns (candidates: seq<TurnGroup>)
    ensures var groups := UncoveredGroups(all, coverage);
      && candidates <= groups
      && IsCandidateCut(groups, if keepRecent < 0 then KEEP_RECENT_TURN_GROUPS else keepRecent, omitted, |candidates|)
  {
    var keep := if keepRecent < 0 then KEEP_RECENT_TURN_GROUPS else keepRecent;
    var groups := CollectUncovered(all, coverage);
    var cut := if |groups| > keep then |groups| - keep else 0;
    for i := 0 to |groups|
      invariant 0 <= cut <= |groups| && cut >= |groups| - keep
      invariant forall k :: 0 <= k < i && groups[k].id in omitted ==> k < cut
      invariant cut == 0 || cut == |groups| - keep || groups[cut - 1].id in omitted
    {
      if groups[i].id in omitted && cut < i + 1 {
        cut := i + 1;
      }
    }
    candidates := groups[..cut];
  }

  /** The cut is determined by its description, so the method has exactly one possible answer. */
  lemma CandidateCutIsUnique(groups: seq<TurnGroup>, keepRecent: nat, omitted: seq<Id>, a: nat, b: nat)
    requires IsCandidateCut(groups, keepRecent, omitted, a) && IsCandidateCut(groups, keepRecent, omitted, b)
    ensures a == b
  {
  }

  function HasId(id: Id): TurnGroup -> bool {
    (g: TurnGroup) => g.id == id
  }

  /** `compactionTailStartSequence`. */
  method TailStartSequence(all: seq<TurnGroup>, candidates: seq<TurnGroup>) returns (tail: nat)
    ensures tail == TailStart(all, candidates)
  {
    if candidates == [] {
      return 0;
    }
    var last := candidates[|candidates| - 1].id;
    for i := 0 to |all|
      invariant forall k :: 0 <= k < i ==> all[k].id != last
    {
      if all[i].id == last {
        return if i + 1 < |all| then all[i + 1].startSequence else 0;
      }
    }
    tail := 0;
  }

  function TailStart(all: seq<TurnGroup>, candidates: seq<TurnGroup>): nat {
    if candidates == [] then 0 else
      var i := FirstIndex(HasId(candidates[|candidates| - 1].id), all);
      if i + 1 < |all| then all[i + 1].startSequence else 0
  }

  function CountIn(ids: seq<Id>, wanted: set<Id>): (n: nat)
    ensures n <= |ids|
    ensures n == |ids| <==> forall i :: 0 <= i < |ids| ==> ids[i] in wanted
    ensures n == 0 <==> forall i :: 0 <= i < |ids| ==> ids[i] !in wanted
  {
    if ids == [] then 0 else
      var rest := ids[..|ids| - 1];
      assert forall i :: 0 <= i < |rest| ==> rest[i] == ids[i];
      CountIn(rest, wanted) + (if ids[|ids| - 1] in wanted then 1 else 0)
  }

  function SelectGroups(groups: seq<StoreGroup>, wanted: set<Id>): Option<seq<StoreGroup>> {
    if groups == [] then Some([]) else
      var before, g := SelectGroups(groups[..|groups| - 1], wanted), groups[|groups| - 1];
      var matched := CountIn(g.eventIds, wanted);
      if before.None? then None
      else if matched == 0 then before
      else if !g.started || g.committed.None? || matched != |g.eventIds| then None
      else Some(before.value + [g])
  }

  /** `completeDurableSourceGroups`: a manifest names whole committed turns, in order, or nothing. */
  function CompleteSourceGroups(groups: seq<StoreGroup>, ids: seq<Id>): Option<seq<StoreGroup>> {
    if ids == [] || Unique(ids) != ids then None else
      var selected := SelectGroups(groups, set id | id in ids);
      if selected.Some? && Unique(AllIds(selected.value)) == ids then selected else None
  }

  method ResolveSourceGroups(groups: seq<StoreGroup>, ids: seq<Id>) returns (r: Option<seq<StoreGroup>>)
    ensures r == CompleteSourceGroups(groups, ids)
  {
    if ids == [] || Unique(ids) != ids {
      return None;
    }
    var wanted, selected, actual := set id | id in ids, [], [];
    for i := 0 to |groups|
      invariant SelectGroups(groups[..i], wanted) == Some(selected)
      invariant actual == AllIds(selected)
    {
      assert groups[..i + 1][..i] == groups[..i];
      var matched := CountIn(groups[i].eventIds, wanted);
      if matched != 0 {
        if !groups[i].started || groups[i].committed.None? || matched != |groups[i].eventIds| {
          SelectFails(groups, wanted, i + 1);
          return None;
        }
        assert (selected + [groups[i]])[..|selected|] == selected;
        selected, actual := selected + [groups[i]], actual + groups[i].eventIds;
      }
    }
    assert groups[..|groups|] == groups;
    var unique := CollectUnique(actual);
    r := if unique == ids then Some(selected) else None;
  }

  lemma {:induction false} SelectFails(groups: seq<StoreGroup>, wanted: set<Id>, n: nat)
    requires n <= |groups| && SelectGroups(groups[..n], wanted).None?
    ensures SelectGroups(groups, wanted).None?
  {
    if n < |groups| {
      var rest := groups[..|groups| - 1];
      assert rest[..n] == groups[..n];
      SelectFails(rest, wanted, n);
    } else {
      assert groups[..n] == groups;
    }
  }

  // ---- a contiguous prefix is covered ----

  /** Committed groups as the ledger yields them: distinct ids, non-empty disjoint event ids. */
  ghost predicate Disjoint(groups: seq<TurnGroup>) {
    && Canonical(SourceIds(groups))
    && (forall i :: 0 <= i < |groups| ==> groups[i].sourceEventIds != [])
    && (forall i, j :: 0 <= i < j < |groups| ==> groups[i].id != groups[j].id)
  }

  lemma {:induction false} SourceIdsAppend(a: seq<TurnGroup>, b: seq<TurnGroup>)
    ensures SourceIds(a + b) == SourceIds(a) + SourceIds(b)
  {
    if b == [] {
      assert a + b == a;
    } else {
      var rest, last := b[..|b| - 1], b[|b| - 1];
      SourceIdsAppend(a, rest);
      assert (a + b)[..|a + b| - 1] == a + rest;
      ConcatAssoc(SourceIds(a), SourceIds(rest), last.sourceEventIds);
    }
  }

  lemma {:induction false} SourceIdsMember(groups: seq<TurnGroup>, i: nat, id: Id)
    requires i < |groups| && id in groups[i].sourceEventIds
    ensures id in SourceIds(groups)
  {
    if i < |groups| - 1 {
      SourceIdsMember(groups[..|groups| - 1], i, id);
    }
  }

  /** The ids of group `i` are canonical and occur in no other stretch of the groups. */
  lemma SourceIdsSplit(groups: seq<TurnGroup>, i: nat)
    requires Disjoint(groups) && i < |groups|
    ensures Canonical(groups[i].sourceEventIds)
    ensures forall id :: id in groups[i].sourceEventIds ==>
      id !in SourceIds(groups[..i]) && id !in SourceIds(groups[i + 1..])
  {
    assert groups == (groups[..i] + [groups[i]]) + groups[i + 1..];
    SourceIdsAppend(groups[..i] + [groups[i]], groups[i + 1..]);
    SourceIdsAppend(groups[..i], [groups[i]]);
    assert SourceIds([groups[i]]) == groups[i].sourceEventIds;
    CanonicalParts(SourceIds(groups[..i]) + groups[i].sourceEventIds, SourceIds(groups[i + 1..]));
    CanonicalParts(SourceIds(groups[..i]), groups[i].sourceEventIds);
  }

  lemma SliceIds(groups: seq<TurnGroup>, a: nat, b: nat)
    requires a <= b <= |groups|
    ensures SourceIds(groups) == (SourceIds(groups[..a]) + SourceIds(groups[a..b])) + SourceIds(groups[b..])
    ensures forall id :: id in SourceIds(groups[a..b]) ==> id in SourceIds(groups)
  {
    SplitSlice(groups, a, b);
    SourceIdsAppend(groups[..a] + groups[a..b], groups[b..]);
    SourceIdsAppend(groups[..a], groups[a..b]);
  }

  /** Against the ids of a slice, exactly the groups of the slice count as covered. */
  lemma CoveredIffInSlice(groups: seq<TurnGroup>, a: nat, b: nat, i: nat)
    requires Disjoint(groups) && a <= b <= |groups| && i < |groups|
    ensures Covered(groups[i], SourceIds(groups[a..b])) <==> a <= i < b
    ensures !(a <= i < b) ==> forall id :: id in groups[i].sourceEventIds ==> id !in SourceIds(groups[a..b])
  {
    hide Canonical, SourceIds;
    SourceIdsSplit(groups, i);
    var ids := groups[i].sourceEventIds;
    UniqueFixpoint(ids);
    if a <= i < b {
      assert groups[a..b][i - a] == groups[i];
      forall id | id in ids ensures id in SourceIds(groups[a..b]) {
        SourceIdsMember(groups[a..b], i - a, id);
      }
    } else {
      OutsideSlice(groups, a, b, i);
      assert ids[0] in ids;
    }
  }

  /** What a stretch cites is cited by the groups before `i`, or by those after it. */
  lemma OutsideSlice(groups: seq<TurnGroup>, a: nat, b: nat, i: nat)
    requires a <= b <= |groups| && i < |groups| && !(a <= i < b)
    ensures forall id :: id in SourceIds(groups[a..b]) ==>
      id in SourceIds(groups[..i]) || id in SourceIds(groups[i + 1..])
  {
    hide SourceIds;
    if i < a {
      SliceOfTail(groups, i + 1, a, b);
      SliceIds(groups[i + 1..], a - i - 1, b - i - 1);
    } else {
      SliceOfHead(groups, i, a, b);
      SliceIds(groups[..i], a, b);
    }
  }

  lemma CoveredSlice(groups: seq<TurnGroup>, a: nat, b: nat)
    requires Disjoint(groups) && a <= b <= |groups|
    ensures CoveredGroups(groups, SourceIds(groups[a..b])) == groups[a..b]
  {
    var coverage := SourceIds(groups[a..b]);
    forall i | 0 <= i < |groups| ensures Covered(groups[i], coverage) <==> a <= i < b {
      CoveredIffInSlice(groups, a, b, i);
    }
    FilterInside(Covers(coverage, true), groups, a, b);
  }

  /** Coverage of a prefix: covered and uncovered groups are exactly the prefix and the rest. */
  lemma PrefixCoverage(groups: seq<TurnGroup>, k: nat)
    requires Disjoint(groups) && k <= |groups|
    ensures CoveredGroups(groups, SourceIds(groups[..k])) == groups[..k]
    ensures UncoveredGroups(groups, SourceIds(groups[..k])) == groups[k..]
  {
    assert groups[0..k] == groups[..k] && groups[k..|groups|] == groups[k..];
    CoveredSlice(groups, 0, k);
    forall i | 0 <= i < |groups| ensures Covered(groups[i], SourceIds(groups[..k])) <==> i < k {
      CoveredIffInSlice(groups, 0, k, i);
    }
    FilterInside(Covers(SourceIds(groups[..k]), false), groups, k, |groups|);
  }

  /** Merging the manifests of consecutive slices is the manifest of the whole prefix. */
  lemma CoverageMerges(groups: seq<TurnGroup>, a: nat, b: nat)
    requires Disjoint(groups) && a <= b <= |groups|
    ensures Canonical(SourceIds(groups[..a])) && Canonical(SourceIds(groups[a..b])) && Canonical(SourceIds(groups[..b]))
    ensures SourceIds(groups[..a]) + SourceIds(groups[a..b]) == SourceIds(groups[..b])
    ensures Unique(SourceIds(groups[..a]) + SourceIds(groups[a..b])) == SourceIds(groups[..b])
  {
    assert groups == groups[..b] + groups[b..];
    SourceIdsAppend(groups[..b], groups[b..]);
    CanonicalParts(SourceIds(groups[..b]), SourceIds(groups[b..]));
    assert groups[..b] == groups[..a] + groups[a..b];
    SourceIdsAppend(groups[..a], groups[a..b]);
    CanonicalParts(SourceIds(groups[..a]), SourceIds(groups[a..b]));
    UniqueFixpoint(SourceIds(groups[..b]));
  }

  /** The recorded tail is the start of the first group left uncovered, or 0 when none is. */
  lemma TailIsFirstUncovered(groups: seq<TurnGroup>, a: nat, b: nat)
    requires Disjoint(groups) && a < b <= |groups|
    ensures TailStart(groups, groups[a..b]) == if b < |groups| then groups[b].startSequence else 0
  {
    var last := groups[a..b][b - a - 1];
    assert last == groups[b - 1];
    var i := FirstIndex(HasId(last.id), groups);
    assert i == b - 1;
  }

  lemma {:induction false} GroupIdsAreSourceIds(groups: seq<TurnGroup>)
    requires forall i :: 0 <= i < |groups| ==> groups[i].sourceEventIds != [] && Canonical(groups[i].sourceEventIds)
    ensures GroupIds(groups) == SourceIds(groups)
  {
    if groups != [] {
      GroupIdsAreSourceIds(groups[..|groups| - 1]);
      UniqueFixpoint(groups[|groups| - 1].sourceEventIds);
    }
  }

  /** What a compaction of groups `a..b` hands to the compactor: exactly their event ids. */
  lemma CandidateIds(groups: seq<TurnGroup>, a: nat, b: nat)
    requires Disjoint(groups) && a <= b <= |groups|
    ensures GroupIds(groups[a..b]) == SourceIds(groups[a..b])
    ensures Unique(GroupIds(groups[a..b])) == SourceIds(groups[a..b])
  {
    forall i | 0 <= i < b - a
      ensures groups[a..b][i].sourceEventIds != [] && Canonical(groups[a..b][i].sourceEventIds)
    {
      SourceIdsSplit(groups, a + i);
    }
    GroupIdsAreSourceIds(groups[a..b]);
    CoverageMerges(groups, a, b);
    UniqueFixpoint(SourceIds(groups[a..b]));
  }

  // ---- resolving a manifest ----

  /** Each group is either wanted as a whole and complete, or not touched at all. */
  ghost predicate WholeTurns(groups: seq<StoreGroup>, wanted: set<Id>) {
    forall i :: 0 <= i < |groups| ==>
      var g := groups[i];
      || (Complete(g) && g.eventIds != [] && Canonical(g.eventIds)
          && forall k :: 0 <= k < |g.eventIds| ==> g.eventIds[k] in wanted)
      || (forall k :: 0 <= k < |g.eventIds| ==> g.eventIds[k] !in wanted)
  }

  /** `selected` is the resolution of `ids` among `groups`. */
  ghost predicate Resolves(groups: seq<StoreGroup>, ids: seq<Id>, selected: seq<StoreGroup>) {
    && SelectGroups(groups, set id | id in ids) == Some(selected)
    && ContextGroups(selected) == CoveredGroups(ContextGroups(groups), ids)
    && AllIds(selected) == SourceIds(ContextGroups(selected))
  }

  lemma {:induction false} SelectWholeTurns(groups: seq<StoreGroup>, ids: seq<Id>) returns (selected: seq<StoreGroup>)
    requires WholeTurns(groups, set id | id in ids)
    requires forall i :: 0 <= i < |groups| ==> groups[i].eventIds != [] && Canonical(groups[i].eventIds)
    ensures Resolves(groups, ids, selected)
  {
    selected := [];
    if groups != [] {
      var rest, g := groups[..|groups| - 1], groups[|groups| - 1];
      selected := SelectWholeTurns(rest, ids);
      assert groups == rest + [g] && WholeTurns([g], set id | id in ids);
      if CountIn(g.eventIds, set id | id in ids) != 0 {
        TakenIsCovered(g, ids);
        SelectTaken(rest, g, ids, selected);
        selected := selected + [g];
      } else {
        SelectSkipped(rest, g, ids, selected);
      }
    }
  }

  lemma SelectTaken(rest: seq<StoreGroup>, g: StoreGroup, ids: seq<Id>, before: seq<StoreGroup>)
    requires Resolves(rest, ids, before) && Complete(g) && Covered(ToTurnGroup(g), ids)
    requires CountIn(g.eventIds, set id | id in ids) == |g.eventIds| != 0
    ensures Resolves(rest + [g], ids, before + [g])
  {
    ContextSnoc(rest, g);
    ContextSnoc(before, g);
    ContextSnocIds(before, g);
    FilterSnoc(Covers(ids, true), ContextGroups(rest), ToTurnGroup(g));
    SnocInit(rest, g);
    SnocInit(before, g);
  }

  lemma SelectSkipped(rest: seq<StoreGroup>, g: StoreGroup, ids: seq<Id>, before: seq<StoreGroup>)
    requires Resolves(rest, ids, before) && g.eventIds != [] && Canonical(g.eventIds)
    requires CountIn(g.eventIds, set id | id in ids) == 0
    ensures Resolves(rest + [g], ids, before)
  {
    ContextSnoc(rest, g);
    assert (rest + [g])[..|rest|] == rest;
    if Complete(g) {
      UniqueFixpoint(g.eventIds);
      assert ToTurnGroup(g).EffectiveSourceEventIds()[0] !in ids;
      FilterSnoc(Covers(ids, true), ContextGroups(rest), ToTurnGroup(g));
    }
  }

  lemma TakenIsCovered(g: StoreGroup, ids: seq<Id>)
    requires WholeTurns([g], set id | id in ids) && Canonical(g.eventIds)
    requires CountIn(g.eventIds, set id | id in ids) != 0
    ensures Complete(g) && CountIn(g.eventIds, set id | id in ids) == |g.eventIds|
    ensures Covered(ToTurnGroup(g), ids)
  {
    assert [g][0] == g;
    UniqueFixpoint(g.eventIds);
  }

  lemma ResolvedManifest(groups: seq<StoreGroup>, ids: seq<Id>, selected: seq<StoreGroup>)
    requires Resolves(groups, ids, selected) && ids != [] && Canonical(ids)
    requires SourceIds(CoveredGroups(ContextGroups(groups), ids)) == ids
    ensures CompleteSourceGroups(groups, ids) == Some(selected)
  {
    UniqueFixpoint(ids);
  }

  /** The manifest of a slice of committed groups resolves to exactly those groups. */
  lemma SliceResolves(groups: seq<StoreGroup>, a: nat, b: nat)
    requires Canonical(AllIds(groups)) && Disjoint(ContextGroups(groups))
    requires forall i :: 0 <= i < |groups| ==> groups[i].eventIds != []
    requires a < b <= |ContextGroups(groups)|
    ensures var ids := SourceIds(ContextGroups(groups)[a..b]);
      var r := CompleteSourceGroups(groups, ids);
      r.Some? && ContextGroups(r.value) == ContextGroups(groups)[a..b]
  {
    var ctx := ContextGroups(groups);
    var ids := SourceIds(ctx[a..b]);
    CoverageMerges(ctx, a, b);
    SourceIdsMember(ctx[a..b], 0, ctx[a].sourceEventIds[0]);
    forall i | 0 <= i < |groups| ensures Canonical(groups[i].eventIds) {
      StoreIdsCanonical(groups, i);
    }
    SliceTakesWholeTurns(groups, a, b);
    var selected := SelectWholeTurns(groups, ids);
    CoveredSlice(ctx, a, b);
    ResolvedManifest(groups, ids, selected);
  }

  lemma {:induction false} StoreIdsCanonical(groups: seq<StoreGroup>, i: nat)
    requires Canonical(AllIds(groups)) && i < |groups|
    ensures Canonical(groups[i].eventIds)
    ensures forall id :: id in groups[i].eventIds ==> id in AllIds(groups)
  {
    var rest := groups[..|groups| - 1];
    CanonicalParts(AllIds(rest), groups[|groups| - 1].eventIds);
    if i < |rest| {
      StoreIdsCanonical(rest, i);
    }
  }

  /** A group that is not complete shares no event id with the complete ones. */
  lemma {:induction false} IncompleteIsDisjoint(groups: seq<StoreGroup>, i: nat, id: Id)
    requires Canonical(AllIds(groups)) && i < |groups| && !Complete(groups[i]) && id in groups[i].eventIds
    ensures id !in SourceIds(ContextGroups(groups))
  {
    var rest, last := groups[..|groups| - 1], groups[|groups| - 1];
    CanonicalParts(AllIds(rest), last.eventIds);
    ContextInAll(rest);
    ContextSnocIds(rest, last);
    assert groups == rest + [last];
    if i < |rest| {
      StoreIdsCanonical(rest, i);
      IncompleteIsDisjoint(rest, i, id);
    }
  }

  lemma ContextSnocIds(rest: seq<StoreGroup>, g: StoreGroup)
    ensures SourceIds(ContextGroups(rest + [g])) ==
            if Complete(g) then SourceIds(ContextGroups(rest)) + g.eventIds else SourceIds(ContextGroups(rest))
  {
    ContextSnoc(rest, g);
    if Complete(g) {
      SnocInit(ContextGroups(rest), ToTurnGroup(g));
    }
  }

  lemma {:induction false} ContextInAll(groups: seq<StoreGroup>)
    ensures forall id :: id in SourceIds(ContextGroups(groups)) ==> id in AllIds(groups)
  {
    if groups != [] {
      var rest, g := groups[..|groups| - 1], groups[|groups| - 1];
      ContextInAll(rest);
      var ctx := ContextGroups(rest);
      if Complete(g) {
        assert ContextGroups(groups)[..|ctx|] == ctx;
      } else {
        assert ContextGroups(groups) == ctx;
      }
    }
  }

  lemma {:induction false} CompletePosition(groups: seq<StoreGroup>, i: nat) returns (k: nat)
    requires i < |groups| && Complete(groups[i])
    ensures k < |ContextGroups(groups)| && ContextGroups(groups)[k] == ToTurnGroup(groups[i])
  {
    if i == |groups| - 1 {
      k := |ContextGroups(groups[..i])|;
    } else {
      k := CompletePosition(groups[..|groups| - 1], i);
    }
  }

  lemma SliceTakesWholeTurns(groups: seq<StoreGroup>, a: nat, b: nat)
    requires Canonical(AllIds(groups)) && Disjoint(ContextGroups(groups))
    requires forall i :: 0 <= i < |groups| ==> groups[i].eventIds != []
    requires a < b <= |ContextGroups(groups)|
    ensures WholeTurns(groups, set id | id in SourceIds(ContextGroups(groups)[a..b]))
  {
    var ctx := ContextGroups(groups);
    var ids := SourceIds(ctx[a..b]);
    forall i | 0 <= i < |groups|
      ensures WholeTurns([groups[i]], set id | id in ids)
    {
      var g := groups[i];
      StoreIdsCanonical(groups, i);
      if Complete(g) {
        var k := CompletePosition(groups, i);
        CoveredIffInSlice(ctx, a, b, k);
        UniqueFixpoint(g.eventIds);
        assert ctx[k].EffectiveSourceEventIds() == g.eventIds;
      } else {
        forall id | id in g.eventIds ensures id !in ids {
          IncompleteIsDisjoint(groups, i, id);
          SliceIds(ctx, a, b);
        }
      }
    }
    assert forall i :: 0 <= i < |groups| ==> [groups[i]][0] == groups[i];
  }
}
