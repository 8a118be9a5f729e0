/** What the ledger must show for a stored lineage to be loaded, link by link, and what is loaded then
    (`internal/chat/session.go`): stated without the loop that checks it. */
module ResumeLinks {
  import opened Ids
  import opened CheckpointContract
  import opened Compaction
  import opened ThreadJournal
  import opened TurnGroups
  import opened Coverage
  import opened ThreadStores
  import opened Resume

  /** The turns with an event of the manifest. */
  function Touches(ids: seq<Id>): StoreGroup -> bool {
    (g: StoreGroup) => exists i :: 0 <= i < |g.eventIds| && g.eventIds[i] in ids
  }

  function Touched(groups: seq<StoreGroup>, ids: seq<Id>): seq<StoreGroup> {
    Filter(Touches(ids), groups)
  }

  predicate Whole(g: StoreGroup, ids: seq<Id>) {
    g.started && g.committed.Some? && forall i :: 0 <= i < |g.eventIds| ==> g.eventIds[i] in ids
  }

  /** The manifest names whole committed turns in ledger order, and the stored hash is the hash of these turns. */
  ghost predicate Backed(l: Ledger, groups: seq<StoreGroup>, c: StoredCheckpoint) {
    var ids, turns := c.sourceEventIds, Touched(groups, c.sourceEventIds);
    && ids != [] && Canonical(ids)
    && (forall i :: 0 <= i < |turns| ==> Whole(turns[i], ids))
    && Unique(AllIds(turns)) == ids && Unique(GroupIds(ContextGroups(turns))) == ids
    && l.h.groups(ContextGroups(turns)) == c.sourceHash
  }

  /** What a payload must say about the link before it, the next one in `lineage`. */
  function ParentLink(l: Ledger, lineage: seq<StoredCheckpoint>, i: nat): (Id, Option<ParentRef>)
    requires i < |lineage|
  {
    if i + 1 == |lineage| then (Id.Blank, None) else
      var p := lineage[i + 1];
      (p.id, Some(ParentRef(p.id, l.storageHash(p), p.payload.provenance.lineageHash)))
  }

  ghost predicate Vouched(l: Ledger, lineage: seq<StoredCheckpoint>, i: nat)
    requires i < |lineage|
  {
    var c, parent := lineage[i], ParentLink(l, lineage, i);
    var p := c.payload.provenance;
    && c.parentId == parent.0 && p.parent == parent.1 && p.contentHash == c.sourceHash
    && ValidForSource(l.h, c.payload, p, c.sourceEventIds, c.sourceEventIds)
  }

  ghost predicate Sound(l: Ledger, groups: seq<StoreGroup>, lineage: seq<StoredCheckpoint>) {
    forall i :: 0 <= i < |lineage| ==> Backed(l, groups, lineage[i]) && Vouched(l, lineage, i)
  }

  /** The manifests of a lineage, root first. */
  function Manifests(lineage: seq<StoredCheckpoint>): seq<Id> {
    if lineage == [] then [] else Manifests(lineage[1..]) + lineage[0].sourceEventIds
  }

  lemma TouchesCounts(g: StoreGroup, ids: seq<Id>)
    ensures var n := CountIn(g.eventIds, set id | id in ids);
      && (Touches(ids)(g) <==> n != 0)
      && (Whole(g, ids) <==> g.started && g.committed.Some? && n == |g.eventIds|)
  {
  }

  lemma {:induction false} SelectIsTouched(groups: seq<StoreGroup>, ids: seq<Id>)
    ensures var r, turns := SelectGroups(groups, set id | id in ids), Touched(groups, ids);
      if forall i :: 0 <= i < |turns| ==> Whole(turns[i], ids) then r == Some(turns) else r == None
  {
    if groups != [] {
      var rest, last := groups[..|groups| - 1], groups[|groups| - 1];
      SelectIsTouched(rest, ids);
      TouchesCounts(last, ids);
      var turns, before := Touched(groups, ids), Touched(rest, ids);
      if Touches(ids)(last) {
        assert turns == before + [last];
        assert turns[|before|] == last && forall i :: 0 <= i < |before| ==> turns[i] == before[i];
      }
    }
  }

  lemma {:induction false} TouchedTouch(groups: seq<StoreGroup>, ids: seq<Id>, i: nat)
    requires i < |Touched(groups, ids)|
    ensures Touches(ids)(Touched(groups, ids)[i])
  {
    var rest := groups[..|groups| - 1];
    if i < |Touched(rest, ids)| {
      TouchedTouch(rest, ids, i);
    }
  }

  lemma {:induction false} ContextIsWanted(turns: seq<StoreGroup>, ids: seq<Id>, k: nat)
    requires Canonical(ids) && k < |ContextGroups(turns)|
    requires forall i :: 0 <= i < |turns| ==> Whole(turns[i], ids) && Touches(ids)(turns[i])
    ensures WhollyWanted(ContextGroups(turns)[k], set id | id in ids)
  {
    var rest, last := turns[..|turns| - 1], turns[|turns| - 1];
    if k < |ContextGroups(rest)| {
      ContextIsWanted(rest, ids, k);
    } else {
      UniqueMembers(last.eventIds);
      var i :| 0 <= i < |last.eventIds| && last.eventIds[i] in ids;
      var unique := Unique(last.eventIds);
      assert last.eventIds[i] in unique;
      forall j | 0 <= j < |unique| ensures unique[j] in ids {
        assert unique[j] in unique;
        assert unique[j] in last.eventIds;
      }
    }
  }

  /** The two passes over the ledger together decide `Backed`. */
  lemma BackedIsChecked(l: Ledger, groups: seq<StoreGroup>, c: StoredCheckpoint)
    ensures var source := CompleteSourceGroups(groups, c.sourceEventIds);
      Backed(l, groups, c) <==> source.Some? && ColdSourceMatches(l, c, ContextGroups(source.value))
  {
    var ids := c.sourceEventIds;
    UniqueMembers(ids);
    if ids != [] && Unique(ids) == ids {
      SelectIsTouched(groups, ids);
      var turns := Touched(groups, ids);
      if forall i :: 0 <= i < |turns| ==> Whole(turns[i], ids) {
        forall k | 0 <= k < |ContextGroups(turns)|
          ensures WhollyWanted(ContextGroups(turns)[k], set id | id in ids)
        {
          forall i | 0 <= i < |turns| ensures Touches(ids)(turns[i]) {
            TouchedTouch(groups, ids, i);
          }
          ContextIsWanted(turns, ids, k);
        }
        ColdKeepsAll(ContextGroups(turns), set id | id in ids);
      }
    } else if Canonical(ids) {
      UniqueFixpoint(ids);
    }
  }

  /** What a verified lineage leaves in memory. */
  function Loaded(l: Ledger, lineage: seq<StoredCheckpoint>): Memory {
    if lineage == [] then NO_CHECKPOINT
    else Memory(Some(Install(l, lineage[0], lineage[0].payload)), Manifests(lineage))
  }

  lemma VouchedIsChecked(l: Ledger, lineage: seq<StoredCheckpoint>)
    requires lineage != []
    ensures var c, before := lineage[0], Loaded(l, lineage[1..]);
      var expected := ProvenanceForSource(l.h, c.sourceEventIds, c.sourceHash, ParentOf(before.active));
      Vouched(l, lineage, 0) <==>
        && c.parentId == ActiveId(before) && expected.Some?
        && ValidForSource(l.h, c.payload, expected.value, c.sourceEventIds, c.sourceEventIds)
  {
    hide ValidClaims, EvidenceRefs, Unique, ValidShape;
  }

  lemma VouchedShifts(l: Ledger, lineage: seq<StoredCheckpoint>, i: nat)
    requires i + 1 < |lineage|
    ensures Vouched(l, lineage, i + 1) <==> Vouched(l, lineage[1..], i)
  {
    hide ValidForSource;
    assert ParentLink(l, lineage, i + 1) == ParentLink(l, lineage[1..], i);
  }

  /** A lineage verifies if and only if every link is backed by the ledger and vouched for by its payload. */
  lemma {:induction false} VerifiesIffSound(l: Ledger, groups: seq<StoreGroup>, lineage: seq<StoredCheckpoint>)
    ensures Verify(l, groups, lineage) == if Sound(l, groups, lineage) then Some(Loaded(l, lineage)) else None
  {
    hide Backed, Vouched, ProvenanceForSource, ValidForSource, CompleteSourceGroups, ColdSourceMatches;
    if lineage != [] {
      var rest := lineage[1..];
      VerifiesIffSound(l, groups, rest);
      BackedIsChecked(l, groups, lineage[0]);
      VouchedIsChecked(l, lineage);
      forall i | 0 <= i < |rest|
        ensures rest[i] == lineage[i + 1] && (Vouched(l, lineage, i + 1) <==> Vouched(l, rest, i))
      {
        VouchedShifts(l, lineage, i);
      }
      if Sound(l, groups, rest) && Backed(l, groups, lineage[0]) && Vouched(l, lineage, 0) {
        forall i | 0 <= i < |lineage| ensures Backed(l, groups, lineage[i]) && Vouched(l, lineage, i) {
          if i > 0 {
            assert lineage[i] == rest[i - 1];
          }
        }
      }
    }
  }
}
