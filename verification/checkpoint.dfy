/** The checkpoint contract of `internal/contextbuild`: provenance of a source range, the bounded
    evidence anchors, and the validation of a checkpoint's claims. Validators that return an error
    are predicates here; two failing inputs are told apart only where a caller does so. */
module CheckpointContract {
  import opened Ids
  import opened Messages

  const SCHEMA_VERSION := 2
  const MAX_EVIDENCE_REFS := 32

  datatype RefKind = SourceEvent | ParentCheckpoint | OtherKind

  /** `padded` records white space around the kind: the validator trims it away, the collector
      of visible events does not. */
  datatype SourceRef = SourceRef(kind: RefKind, padded: bool, id: Id)

  datatype Confidence = Observed | Inferred | Unknown | InvalidConfidence

  /** One item of any of the seven claim sections. */
  datatype Claim = Claim(hasText: bool, refs: seq<SourceRef>, confidence: Confidence)

  datatype ParentRef = ParentRef(id: Id, hash: Digest, lineageHash: Digest)

  datatype Provenance = Provenance(
    from: Id, to: Id, contentHash: Digest, eventIds: seq<Id>,
    parent: Option<ParentRef>, lineageHash: Digest)

  /** `manifest` is the in-memory direct source scope; `[]` when none was injected. */
  datatype Checkpoint = Checkpoint(
    schemaVersion: nat, id: Id, storageHash: Digest, provenance: Provenance,
    hasGoal: bool, claims: seq<Claim>, manifest: seq<Id>)

  /** `prompt` is the rendered reference; `known` says that its confidence is a valid one. */
  datatype Artifact = Artifact(id: Id, prompt: string, tokenEstimate: int, known: bool, required: bool) {
    predicate Valid() {
      id != Id.Blank && tokenEstimate >= 0 && known
    }
  }

  datatype TurnGroup = TurnGroup(
    id: Id, startSequence: nat, sourceEventIds: seq<Id>, messages: seq<Message>, artifacts: seq<Artifact>,
    tokenEstimate: int, required: bool, derived: bool, visibleEventIds: seq<Id>)
  {
    function EffectiveSourceEventIds(): seq<Id> {
      if sourceEventIds != [] then Unique(sourceEventIds)
      else if id == Id.Blank then []
      else [id]
    }

    predicate Valid() {
      && id != Id.Blank
      && tokenEstimate >= 0
      && (messages != [] || artifacts != [])
      && (forall i :: 0 <= i < |artifacts| ==> artifacts[i].Valid())
      && EffectiveSourceEventIds() != []
    }
  }

  /** SHA-256 over canonical encodings; nothing is assumed but that a digest comes out. */
  datatype Digests = Digests(
    lineage: (Option<ParentRef>, Digest) -> Digest,
    groups: seq<TurnGroup> -> Digest)
  {
    ghost predicate Sound() {
      && (forall p, d :: lineage(p, d).SHA256?)
      && (forall g :: groups(g).SHA256?)
    }
  }

  /** The bounded anchors of an ordered manifest: all of it, or both ends of it. */
  function EvidenceRefs(eventIds: seq<Id>): seq<Id> {
    BothEnds(Unique(eventIds))
  }

  function BothEnds(ids: seq<Id>): seq<Id> {
    if |ids| <= MAX_EVIDENCE_REFS then ids else
      var head := MAX_EVIDENCE_REFS / 2;
      var tail := MAX_EVIDENCE_REFS - head;
      ids[..head] + ids[|ids| - tail..]
  }

  /** Anchors are bounded, cite only the manifest, and keep both of its ends. */
  lemma EvidenceRefsAnchorTheRange(ids: seq<Id>)
    requires Canonical(ids) && ids != []
    ensures var anchors := EvidenceRefs(ids);
      && Canonical(anchors) && 1 <= |anchors| <= MAX_EVIDENCE_REFS
      && anchors[0] == ids[0] && anchors[|anchors| - 1] == ids[|ids| - 1]
      && (forall id :: id in anchors ==> id in ids)
      && (|ids| <= MAX_EVIDENCE_REFS ==> anchors == ids)
      && (|ids| > MAX_EVIDENCE_REFS ==>
            |anchors| == MAX_EVIDENCE_REFS && anchors[..16] == ids[..16] && anchors[16..] == ids[|ids| - 16..])
  {
    UniqueFixpoint(ids);
    if |ids| > MAX_EVIDENCE_REFS {
      var anchors, skipped := BothEnds(ids), |ids| - MAX_EVIDENCE_REFS;
      assert forall i :: 0 <= i < |anchors| ==> anchors[i] == ids[if i < 16 then i else i + skipped];
    }
  }

  predicate CanonicalIds(ids: seq<Id>) {
    Unique(ids) != [] && |Unique(ids)| == |ids|
  }

  /** The length test of `canonicalDirectSourceEventIDs` decides canonical form. */
  lemma {:induction false} CanonicalIdsIffCanonical(ids: seq<Id>)
    ensures CanonicalIds(ids) <==> ids != [] && Canonical(ids)
    ensures CanonicalIds(ids) ==> Unique(ids) == ids
  {
    if Canonical(ids) {
      UniqueFixpoint(ids);
    } else {
      NotCanonicalShrinks(ids);
    }
  }

  lemma {:induction false} NotCanonicalShrinks(ids: seq<Id>)
    requires !Canonical(ids)
    ensures |Unique(ids)| < |ids|
  {
    var rest, last := ids[..|ids| - 1], ids[|ids| - 1];
    assert ids == rest + [last];
    if Canonical(rest) {
      UniqueFixpoint(rest);
    } else {
      NotCanonicalShrinks(rest);
    }
  }

  predicate ValidProvenance(h: Digests, p: Provenance) {
    var ids := Unique(p.eventIds);
    && ids != [] && |ids| == |p.eventIds|
    && p.from != Id.Blank && p.to != Id.Blank
    && p.contentHash.SHA256?
    && p.from == ids[0] && p.to == ids[|ids| - 1]
    && (p.parent.Some? ==>
          p.parent.value.id != Id.Blank && p.parent.value.hash.SHA256? && p.parent.value.lineageHash.SHA256?)
    && p.lineageHash.SHA256?
    && p.lineageHash == h.lineage(p.parent, p.contentHash)
  }

  /** `CheckpointProvenanceForSource`; None stands for its error. */
  function ProvenanceForSource(h: Digests, ids: seq<Id>, hash: Digest, parent: Option<ParentRef>): Option<Provenance> {
    if !CanonicalIds(ids) || !hash.SHA256? then None else
      var anchors := EvidenceRefs(ids);
      if anchors == [] then None else
        var p := Provenance(anchors[0], anchors[|anchors| - 1], hash, anchors, parent, h.lineage(parent, hash));
        if ValidProvenance(h, p) then Some(p) else None
  }

  /** A canonical manifest with a digest and a durable parent always has a provenance. */
  lemma ProvenanceExists(h: Digests, ids: seq<Id>, hash: Digest, parent: Option<ParentRef>)
    requires h.Sound() && ids != [] && Canonical(ids) && hash.SHA256?
    requires parent.Some? ==>
      parent.value.id != Id.Blank && parent.value.hash.SHA256? && parent.value.lineageHash.SHA256?
    ensures var p := ProvenanceForSource(h, ids, hash, parent);
      && p.Some? && p.value.eventIds == EvidenceRefs(ids)
      && p.value.contentHash == hash && p.value.parent == parent
      && p.value.lineageHash == h.lineage(parent, hash)
  {
    CanonicalIdsIffCanonical(ids);
    EvidenceRefsAnchorTheRange(ids);
    var anchors := EvidenceRefs(ids);
    UniqueFixpoint(anchors);
    var p := Provenance(anchors[0], anchors[|anchors| - 1], hash, anchors, parent, h.lineage(parent, hash));
    assert p.from != Id.Blank && p.to != Id.Blank;
    assert ValidProvenance(h, p);
  }

  lemma ProvenanceAnchorsInManifest(h: Digests, ids: seq<Id>, hash: Digest, parent: Option<ParentRef>)
    requires ProvenanceForSource(h, ids, hash, parent).Some?
    ensures forall id :: id in ProvenanceForSource(h, ids, hash, parent).value.eventIds ==> id in ids
  {
    CanonicalIdsIffCanonical(ids);
    EvidenceRefsAnchorTheRange(ids);
  }

  predicate ValidRef(ref: SourceRef, allowed: Option<set<Id>>, parent: Option<ParentRef>) {
    && ref.id != Id.Blank
    && match ref.kind
       case SourceEvent => allowed.Some? ==> ref.id in allowed.value
       case ParentCheckpoint => parent.Some? && ref.id == parent.value.id
       case OtherKind => false
  }

  predicate ValidClaim(claim: Claim, allowed: Option<set<Id>>, parent: Option<ParentRef>) {
    && claim.hasText
    && claim.refs != []
    && claim.confidence != InvalidConfidence
    && (forall i :: 0 <= i < |claim.refs| ==> ValidRef(claim.refs[i], allowed, parent))
    && (forall i, j :: 0 <= i < j < |claim.refs| ==>
          (claim.refs[i].kind, claim.refs[i].id) != (claim.refs[j].kind, claim.refs[j].id))
  }

  predicate ValidClaims(claims: seq<Claim>, allowed: Option<set<Id>>, parent: Option<ParentRef>) {
    && claims != []
    && forall i :: 0 <= i < |claims| ==> ValidClaim(claims[i], allowed, parent)
  }

  function IdSet(ids: seq<Id>): set<Id> {
    set id | id in Unique(ids)
  }

  predicate ValidShape(h: Digests, c: Checkpoint) {
    && c.schemaVersion == SCHEMA_VERSION
    && c.hasGoal
    && ValidProvenance(h, c.provenance)
    && ValidClaims(c.claims, None, c.provenance.parent)
  }

  /** `Validate`: claims are checked against the injected manifest, or against the anchors. */
  predicate ValidCheckpoint(h: Digests, c: Checkpoint) {
    && ValidShape(h, c)
    && ValidClaims(c.claims, Some(IdSet(if c.manifest != [] then c.manifest else c.provenance.eventIds)),
                   c.provenance.parent)
  }

  /** `ValidateForSourceWithClaimScope`. */
  predicate ValidForSource(h: Digests, c: Checkpoint, expected: Provenance, manifest: seq<Id>, claimIds: seq<Id>) {
    && ValidShape(h, c)
    && ProvenanceForSource(h, manifest, expected.contentHash, expected.parent) == Some(expected)
    && c.provenance == expected
    && Unique(claimIds) != []
    && (forall id :: id in Unique(claimIds) ==> id in IdSet(manifest))
    && ValidClaims(c.claims, Some(IdSet(claimIds)), expected.parent)
  }

  /** Event ids a checkpoint cites, as the validator reads them. */
  ghost predicate Cites(c: Checkpoint, id: Id) {
    exists i, j :: (0 <= i < |c.claims| && 0 <= j < |c.claims[i].refs|
                    && c.claims[i].refs[j].kind == SourceEvent && c.claims[i].refs[j].id == id)
  }

  function VisibleRefs(refs: seq<SourceRef>): seq<Id> {
    if refs == [] then [] else
      (if refs[0].kind == SourceEvent && !refs[0].padded then [refs[0].id] else []) + VisibleRefs(refs[1..])
  }

  function VisibleClaims(claims: seq<Claim>): seq<Id> {
    if claims == [] then [] else VisibleRefs(claims[0].refs) + VisibleClaims(claims[1..])
  }

  /** `modelVisibleDirectEventIDs`: anchors plus explicit event citations. */
  function VisibleEventIds(c: Checkpoint): seq<Id> {
    Unique(c.provenance.eventIds + VisibleClaims(c.claims))
  }

  lemma {:induction false} VisibleRefsAreEvents(refs: seq<SourceRef>, id: Id)
    requires id in VisibleRefs(refs)
    ensures exists j :: 0 <= j < |refs| && refs[j].kind == SourceEvent && refs[j].id == id
  {
    if id in VisibleRefs(refs[1..]) {
      VisibleRefsAreEvents(refs[1..], id);
      var j :| 0 <= j < |refs[1..]| && refs[1..][j].kind == SourceEvent && refs[1..][j].id == id;
      assert refs[j + 1] == refs[1..][j];
    } else {
      assert refs[0].kind == SourceEvent && refs[0].id == id;
    }
  }

  lemma {:induction false} VisibleClaimsAreCited(claims: seq<Claim>, id: Id)
    requires id in VisibleClaims(claims)
    ensures exists i, j :: (0 <= i < |claims| && 0 <= j < |claims[i].refs|
                            && claims[i].refs[j].kind == SourceEvent && claims[i].refs[j].id == id)
  {
    if id in VisibleRefs(claims[0].refs) {
      VisibleRefsAreEvents(claims[0].refs, id);
    } else {
      VisibleClaimsAreCited(claims[1..], id);
      var i, j :| 0 <= i < |claims[1..]| && 0 <= j < |claims[1..][i].refs|
        && claims[1..][i].refs[j].kind == SourceEvent && claims[1..][i].refs[j].id == id;
      assert claims[i + 1] == claims[1..][i];
    }
  }

  /** Event `id` is cited as it stands, without padding. */
  ghost predicate CitesPlainly(c: Checkpoint, id: Id) {
    exists i, j :: (0 <= i < |c.claims| && 0 <= j < |c.claims[i].refs|
                    && c.claims[i].refs[j] == SourceRef(SourceEvent, false, id))
  }

  lemma {:induction false} PlainRefIsVisible(refs: seq<SourceRef>, j: nat)
    requires j < |refs| && refs[j].kind == SourceEvent && !refs[j].padded
    ensures refs[j].id in VisibleRefs(refs)
  {
    if j > 0 {
      PlainRefIsVisible(refs[1..], j - 1);
    }
  }

  lemma {:induction false} PlainClaimIsVisible(claims: seq<Claim>, i: nat, j: nat)
    requires i < |claims| && j < |claims[i].refs|
    requires claims[i].refs[j].kind == SourceEvent && !claims[i].refs[j].padded
    ensures claims[i].refs[j].id in VisibleClaims(claims)
  {
    if i > 0 {
      PlainClaimIsVisible(claims[1..], i - 1, j);
    } else {
      PlainRefIsVisible(claims[0].refs, j);
    }
  }

  /** The model is shown every anchor and every event that is cited as it stands. */
  lemma CitedEventsAreVisible(c: Checkpoint, id: Id)
    requires id != Id.Blank && (id in c.provenance.eventIds || CitesPlainly(c, id))
    ensures id in VisibleEventIds(c)
  {
    UniqueMembers(c.provenance.eventIds + VisibleClaims(c.claims));
    if id !in c.provenance.eventIds {
      var i, j :| 0 <= i < |c.claims| && 0 <= j < |c.claims[i].refs|
        && c.claims[i].refs[j] == SourceRef(SourceEvent, false, id);
      PlainClaimIsVisible(c.claims, i, j);
    }
  }

  /** A validated checkpoint exposes and cites nothing outside its source manifest. */
  lemma ValidCheckpointStaysInManifest(h: Digests, c: Checkpoint, expected: Provenance, manifest: seq<Id>,
                                       claimIds: seq<Id>)
    requires ValidForSource(h, c, expected, manifest, claimIds)
    ensures forall id :: Cites(c, id) ==> id in claimIds && id in manifest
    ensures forall id :: id in VisibleEventIds(c) ==> id in manifest
    ensures VisibleEventIds(c) != [] && Canonical(VisibleEventIds(c))
  {
    UniqueMembers(manifest);
    UniqueMembers(claimIds);
    ProvenanceAnchorsInManifest(h, manifest, expected.contentHash, expected.parent);
    forall id | Cites(c, id) ensures id in claimIds && id in manifest {
      var i, j :| 0 <= i < |c.claims| && 0 <= j < |c.claims[i].refs|
        && c.claims[i].refs[j].kind == SourceEvent && c.claims[i].refs[j].id == id;
      assert ValidClaim(c.claims[i], Some(IdSet(claimIds)), expected.parent);
      assert ValidRef(c.claims[i].refs[j], Some(IdSet(claimIds)), expected.parent);
    }
    var all := c.provenance.eventIds + VisibleClaims(c.claims);
    UniqueMembers(all);
    UniqueMembers(c.provenance.eventIds);
    assert c.provenance.eventIds[0] in all;
    forall id | id in VisibleEventIds(c) ensures id in manifest {
      if id !in c.provenance.eventIds {
        VisibleClaimsAreCited(c.claims, id);
      }
    }
  }

  /** Widening the claim scope to the whole manifest keeps a checkpoint valid: what the compactor
      accepted under the narrow scope, resume accepts under the full one. */
  lemma WiderClaimScopeStaysValid(h: Digests, c: Checkpoint, expected: Provenance, manifest: seq<Id>, claimIds: seq<Id>)
    requires ValidForSource(h, c, expected, manifest, claimIds)
    ensures ValidForSource(h, c, expected, manifest, manifest)
  {
    UniqueMembers(manifest);
    UniqueMembers(claimIds);
    forall i | 0 <= i < |c.claims| ensures ValidClaim(c.claims[i], Some(IdSet(manifest)), expected.parent) {
      var claim := c.claims[i];
      assert ValidClaim(claim, Some(IdSet(claimIds)), expected.parent);
      forall j | 0 <= j < |claim.refs| ensures ValidRef(claim.refs[j], Some(IdSet(manifest)), expected.parent) {
        assert ValidRef(claim.refs[j], Some(IdSet(claimIds)), expected.parent);
      }
    }
  }
}
