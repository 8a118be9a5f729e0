/** The project memory (`internal/memory/store.go`) as a table of versioned rows, a table of
    extraction leases and a reset generation. Every method is one transaction: it commits as a
    whole or leaves everything as it was. */
module MemoryStore {
  import opened Ids

  datatype Trust = UserTrust | CandidateTrust

  datatype Status = Active | Superseded | Deleted

  datatype Entry = Entry(
    id: Id, key: Id, claim: string, trust: Trust, status: Status, version: nat, thread: Id, sources: seq<Id>,
    supersedes: Id)

  datatype MemoryError =
    | ClaimRequired | IdRequired | NotFound | CandidateRefused | GenerationChanged | DuplicateId | DuplicateSource
    | NotClaimed | LeaseChanged

  // ---- the table ----

  /** Versions of `key` among the first `n` rows. */
  function CountKey(rows: seq<Entry>, n: nat, key: Id): nat
    requires n <= |rows|
  {
    if n == 0 then 0 else CountKey(rows, n - 1, key) + if rows[n - 1].key == key then 1 else 0
  }

  /** Versions of a key are 1, 2, 3, ... in order of insertion. */
  ghost predicate Versioned(rows: seq<Entry>) {
    forall i :: 0 <= i < |rows| ==> VersionedAt(rows, i)
  }

  predicate VersionedAt(rows: seq<Entry>, i: nat)
    requires i < |rows|
  {
    rows[i].version == CountKey(rows, i, rows[i].key) + 1
  }

  /** Only the newest row of a key can be active. */
  ghost predicate ActiveIsLatest(rows: seq<Entry>) {
    forall i, j :: 0 <= i < j < |rows| && rows[i].status == Active ==> rows[j].key != rows[i].key
  }

  ghost predicate DistinctIds(rows: seq<Entry>) {
    forall i, j :: 0 <= i < j < |rows| ==> rows[i].id != rows[j].id
  }

  ghost predicate ValidTable(rows: seq<Entry>) {
    Versioned(rows) && ActiveIsLatest(rows) && DistinctIds(rows)
  }

  /** What the invariant means for a reader: one active entry per key, and it has the top version. */
  lemma ActiveIsUniqueAndNewest(rows: seq<Entry>, i: nat, j: nat)
    requires ValidTable(rows) && i < |rows| && j < |rows|
    requires rows[i].status == Active && rows[j].key == rows[i].key
    ensures rows[j].status == Active ==> j == i
    ensures j != i ==> rows[j].version < rows[i].version
    ensures rows[i].version == CountKey(rows, |rows|, rows[i].key)
  {
    assert VersionedAt(rows, i) && VersionedAt(rows, j);
    if j < i {
      CountGrows(rows, j + 1, i, rows[i].key);
    }
    CountFrozen(rows, i + 1, rows[i].key);
  }

  /** Versions never repeat within a key. */
  lemma VersionsAreDistinct(rows: seq<Entry>, i: nat, j: nat)
    requires Versioned(rows) && i < j < |rows| && rows[i].key == rows[j].key
    ensures 1 <= rows[i].version < rows[j].version <= CountKey(rows, |rows|, rows[j].key)
  {
    assert VersionedAt(rows, i) && VersionedAt(rows, j);
    CountGrows(rows, i + 1, j, rows[i].key);
    CountGrows(rows, j + 1, |rows|, rows[i].key);
  }

  lemma {:induction false} CountGrows(rows: seq<Entry>, i: nat, j: nat, key: Id)
    requires i <= j <= |rows|
    ensures CountKey(rows, i, key) <= CountKey(rows, j, key)
  {
    if i < j {
      CountGrows(rows, i, j - 1, key);
    }
  }

  lemma {:induction false} CountFrozen(rows: seq<Entry>, i: nat, key: Id)
    requires i <= |rows| && forall j :: i <= j < |rows| ==> rows[j].key != key
    ensures CountKey(rows, i, key) == CountKey(rows, |rows|, key)
    decreases |rows| - i
  {
    if i < |rows| {
      CountFrozen(rows, i + 1, key);
    }
  }

  lemma {:induction false} CountSame(a: seq<Entry>, b: seq<Entry>, n: nat, key: Id)
    requires n <= |a| && n <= |b| && forall i :: 0 <= i < n ==> a[i].key == b[i].key
    ensures CountKey(a, n, key) == CountKey(b, n, key)
  {
    if n > 0 {
      CountSame(a, b, n - 1, key);
    }
  }

  // ---- inserting a version ----

  function Retire(e: Entry, key: Id): Entry {
    if e.status == Active && e.key == key then e.(status := Superseded) else e
  }

  function RetireAll(rows: seq<Entry>, key: Id): (r: seq<Entry>)
    ensures |r| == |rows| && forall i :: 0 <= i < |rows| ==> r[i] == Retire(rows[i], key)
  {
    if rows == [] then [] else RetireAll(rows[..|rows| - 1], key) + [Retire(rows[|rows| - 1], key)]
  }

  function ActiveId(rows: seq<Entry>, key: Id): Id {
    if rows == [] then Id.Blank
    else if rows[|rows| - 1].status == Active && rows[|rows| - 1].key == key then rows[|rows| - 1].id
    else ActiveId(rows[..|rows| - 1], key)
  }

  function Inserted(rows: seq<Entry>, id: Id, key: Id, claim: string, trust: Trust, thread: Id,
                    sources: seq<Id>): seq<Entry> {
    RetireAll(rows, key) +
      [Entry(id, key, claim, trust, Active, CountKey(rows, |rows|, key) + 1, thread, sources, ActiveId(rows, key))]
  }

  /** A new version keeps the table in order. */
  lemma InsertKeepsTable(rows: seq<Entry>, id: Id, key: Id, claim: string, trust: Trust, thread: Id, sources: seq<Id>)
    requires ValidTable(rows) && forall i :: 0 <= i < |rows| ==> rows[i].id != id
    ensures ValidTable(Inserted(rows, id, key, claim, trust, thread, sources))
  {
    var after := Inserted(rows, id, key, claim, trust, thread, sources);
    forall i | 0 <= i < |after| ensures VersionedAt(after, i) {
      CountSame(rows, after, i, after[i].key);
      assert i < |rows| ==> VersionedAt(rows, i);
    }
  }

  /** The highest version on record is the number of versions. */
  lemma MaxIsCount(rows: seq<Entry>, key: Id, max: nat)
    requires Versioned(rows)
    requires forall i :: 0 <= i < |rows| && rows[i].key == key ==> rows[i].version <= max
    requires max == 0 || exists i :: 0 <= i < |rows| && rows[i].key == key && rows[i].version == max
    ensures max == CountKey(rows, |rows|, key)
  {
    if max > 0 {
      var i :| 0 <= i < |rows| && rows[i].key == key && rows[i].version == max;
      assert VersionedAt(rows, i);
      CountGrows(rows, i + 1, |rows|, key);
    }
    if CountKey(rows, |rows|, key) > 0 {
      var k := LastOfKey(rows, |rows|, key);
      assert VersionedAt(rows, k);
      CountFrozen(rows, k + 1, key);
    }
  }

  lemma {:induction false} LastOfKey(rows: seq<Entry>, n: nat, key: Id) returns (k: nat)
    requires n <= |rows| && CountKey(rows, n, key) > 0
    ensures k < n && rows[k].key == key && forall j :: k < j < n ==> rows[j].key != key
  {
    if rows[n - 1].key == key {
      k := n - 1;
    } else {
      k := LastOfKey(rows, n - 1, key);
    }
  }

  method NextVersion(rows: seq<Entry>, key: Id) returns (version: nat)
    requires Versioned(rows)
    ensures version == CountKey(rows, |rows|, key) + 1
  {
    var max: nat := 0;
    for i := 0 to |rows|
      invariant forall k :: 0 <= k < i && rows[k].key == key ==> rows[k].version <= max
      invariant max == 0 || exists k :: 0 <= k < i && rows[k].key == key && rows[k].version == max
    {
      if rows[i].key == key && rows[i].version > max {
        max := rows[i].version;
      }
    }
    MaxIsCount(rows, key, max);
    version := max + 1;
  }

  method RetireActive(rows: seq<Entry>, key: Id) returns (tx: seq<Entry>, supersedes: Id)
    ensures tx == RetireAll(rows, key) && supersedes == ActiveId(rows, key)
  {
    supersedes, tx := Id.Blank, rows;
    for i := 0 to |rows|
      invariant supersedes == ActiveId(rows[..i], key)
      invariant |tx| == |rows| && (forall k :: 0 <= k < i ==> tx[k] == Retire(rows[k], key))
                && (forall k :: i <= k < |rows| ==> tx[k] == rows[k])
    {
      assert rows[..i + 1][..i] == rows[..i];
      if rows[i].status == Active && rows[i].key == key {
        supersedes, tx := rows[i].id, tx[i := rows[i].(status := Superseded)];
      }
    }
    assert rows[..|rows|] == rows;
  }

  ghost predicate Unused(rows: seq<Entry>, id: Id) {
    forall i :: 0 <= i < |rows| ==> rows[i].id != id
  }

  ghost predicate NoRepeat(ids: seq<Id>) {
    forall i, j :: 0 <= i < j < |ids| ==> ids[i] != ids[j]
  }

  /** One version in a transaction; a clash of ids or of source ids rolls it back. */
  method InsertVersion(rows: seq<Entry>, newId: Id, key: Id, claim: string, trust: Trust, thread: Id, sources: seq<Id>)
    returns (r: Result<seq<Entry>, MemoryError>)
    requires ValidTable(rows)
    ensures r.Ok? <==> Unused(rows, newId) && NoRepeat(sources)
    ensures r.Ok? ==> r.value == Inserted(rows, newId, key, claim, trust, thread, sources) && ValidTable(r.value)
  {
    var version := NextVersion(rows, key);
    var tx, supersedes := RetireActive(rows, key);
    for i := 0 to |rows|
      invariant forall k :: 0 <= k < i ==> rows[k].id != newId
    {
      if rows[i].id == newId {
        return Err(DuplicateId);
      }
    }
    var repeated := HasRepeat(sources);
    if repeated {
      return Err(DuplicateSource);
    }
    InsertKeepsTable(rows, newId, key, claim, trust, thread, sources);
    r := Ok(tx + [Entry(newId, key, claim, trust, Active, version, thread, sources, supersedes)]);
  }

  method HasRepeat(ids: seq<Id>) returns (b: bool)
    ensures b <==> exists i, j :: 0 <= i < j < |ids| && ids[i] == ids[j]
  {
    var seen: set<Id> := {};
    for i := 0 to |ids|
      invariant seen == set k | 0 <= k < i :: ids[k]
      invariant forall j, k :: 0 <= j < k < i ==> ids[j] != ids[k]
    {
      if ids[i] in seen {
        return true;
      }
      seen := seen + {ids[i]};
    }
    b := false;
  }

  /** User entries that are active now. */
  ghost predicate KeepsUsers(before: seq<Entry>, after: seq<Entry>) {
    forall i :: 0 <= i < |before| && before[i].status == Active && before[i].trust == UserTrust ==>
      i < |after| && after[i] == before[i]
  }

  ghost predicate HasUser(rows: seq<Entry>, key: Id) {
    exists i :: 0 <= i < |rows| && IsUser(rows[i], key)
  }

  predicate IsUser(e: Entry, key: Id) {
    e.key == key && e.status == Active && e.trust == UserTrust
  }

  method UserExists(rows: seq<Entry>, key: Id) returns (b: bool)
    ensures b <==> HasUser(rows, key)
  {
    for i := 0 to |rows|
      invariant forall k :: 0 <= k < i ==> !IsUser(rows[k], key)
    {
      if IsUser(rows[i], key) {
        return true;
      }
    }
    b := false;
  }

  /** A candidate for a key without an active user entry displaces no user entry. */
  lemma CandidateKeepsUsers(rows: seq<Entry>, id: Id, key: Id, claim: string, thread: Id, sources: seq<Id>)
    requires !HasUser(rows, key)
    ensures KeepsUsers(rows, Inserted(rows, id, key, claim, CandidateTrust, thread, sources))
  {
    forall i | 0 <= i < |rows| && rows[i].status == Active && rows[i].trust == UserTrust
      ensures Inserted(rows, id, key, claim, CandidateTrust, thread, sources)[i] == rows[i]
    {
      assert !IsUser(rows[i], key);
    }
  }

  lemma UsersStay(a: seq<Entry>, b: seq<Entry>, c: seq<Entry>)
    requires KeepsUsers(a, b) && KeepsUsers(b, c)
    ensures KeepsUsers(a, c)
  {
  }

  /** An active entry with this id or key. */
  predicate Names(e: Entry, idOrKey: Id) {
    e.status == Active && (e.id == idOrKey || e.key == idOrKey)
  }

  // ---- extraction leases ----

  const LEASE_MINUTES := 15

  datatype ExtractionStatus = Running | Succeeded | Failed

  datatype Extraction = Extraction(
    source: nat, generation: nat, status: ExtractionStatus, leaseUntil: Option<int>, attempts: nat,
    nextAttempt: Option<int>)

  datatype Draft = Draft(key: Id, claim: string)

  function Doubled(minutes: nat, times: nat): nat {
    if times == 0 then minutes else 2 * Doubled(minutes, times - 1)
  }

  /** Minutes to wait after a failure. */
  function Delay(attempts: nat): nat {
    var delay := if attempts > 1 then Doubled(5, if attempts - 1 < 6 then attempts - 1 else 6) else 5;
    if delay > 360 then 360 else delay
  }

  /** The first wait is five minutes; each failure doubles it until it levels off at 320 minutes, so the six-hour
      cap never bites. */
  lemma {:induction false} BackoffIsBounded(attempts: nat)
    ensures Delay(0) == Delay(1) == 5
    ensures 1 <= attempts < 7 ==> Delay(attempts + 1) == 2 * Delay(attempts)
    ensures attempts >= 7 ==> Delay(attempts) == 320
    ensures 5 <= Delay(attempts) <= Delay(attempts + 1) <= 320
  {
    assert Doubled(5, 0) == 5 && Doubled(5, 1) == 10 && Doubled(5, 2) == 20;
    assert Doubled(5, 3) == 40 && Doubled(5, 4) == 80;
    assert Doubled(5, 5) == 160 && Doubled(5, 6) == 320;
  }

  /** Whether a claim of this source succeeds now. */
  predicate Claimable(x: Option<Extraction>, source: nat, now: int) {
    x.None? || x.value.source != source ||
    (&& !x.value.status.Succeeded?
     && !(x.value.status.Running? && x.value.leaseUntil.Some? && x.value.leaseUntil.value > now)
     && !(x.value.nextAttempt.Some? && x.value.nextAttempt.value > now))
  }

  function Claimed(x: Option<Extraction>, source: nat, generation: nat, now: int): Extraction {
    Extraction(source, generation, Running, Some(now + LEASE_MINUTES),
               if x.Some? && x.value.source == source then x.value.attempts + 1 else 1, None)
  }

  /** The only guard of a finish besides the generation: somebody is at work on this source. */
  predicate Finishable(x: Option<Extraction>, source: nat) {
    x.Some? && x.value.status == Running && x.value.source == source
  }

  function Finished(x: Extraction, failed: bool, now: int): Extraction {
    if failed then x.(status := Failed, leaseUntil := None, nextAttempt := Some(now + Delay(x.attempts)))
    else x.(status := Succeeded, leaseUntil := None, nextAttempt := None)
  }

  /** While a lease runs, nobody else gets the same source. */
  lemma LeaseIsExclusive(x: Option<Extraction>, source: nat, generation: nat, now: int, later: int)
    requires now <= later
    ensures Claimable(Some(Claimed(x, source, generation, now)), source, later) <==> later >= now + LEASE_MINUTES
  {
  }

  /** A failed attempt is retried only after its delay. */
  lemma FailureWaits(x: Extraction, now: int, later: int)
    ensures Claimable(Some(Finished(x, true, now)), x.source, later) <==> later >= now + Delay(x.attempts)
  {
  }

  /** Calls about one thread under one generation, by any number of workers, about any state of the
      thread. A finish that does not fail is `stored` if its drafts can be inserted. */
  datatype LeaseCall =
    | Claim(worker: nat, source: nat, now: int)
    | Finish(worker: nat, source: nat, now: int, failed: bool, stored: bool)

  predicate Accepted(x: Option<Extraction>, c: LeaseCall) {
    match c
    case Claim(_, source, now) => Claimable(x, source, now)
    case Finish(_, source, _, failed, stored) => Finishable(x, source) && (failed || stored)
  }

  function AfterCall(x: Option<Extraction>, generation: nat, c: LeaseCall): Option<Extraction> {
    if !Accepted(x, c) then x
    else match c
      case Claim(_, source, now) => Some(Claimed(x, source, generation, now))
      case Finish(_, _, now, failed, _) => Some(Finished(x.value, failed, now))
  }

  function LeaseAfter(generation: nat, calls: seq<LeaseCall>): Option<Extraction> {
    if calls == [] then None else
      AfterCall(LeaseAfter(generation, calls[..|calls| - 1]), generation, calls[|calls| - 1])
  }

  /** Call `i` changed the row: a claim that was granted, or a finish that was accepted. */
  predicate Took(generation: nat, calls: seq<LeaseCall>, i: nat)
    requires i < |calls|
  {
    Accepted(LeaseAfter(generation, calls[..i]), calls[i])
  }

  predicate Granted(generation: nat, calls: seq<LeaseCall>, i: nat)
    requires i < |calls|
  {
    calls[i].Claim? && Took(generation, calls, i)
  }

  /** The row is still the one that claim `i` wrote: whoever finishes now closes claim `i`. */
  ghost predicate Holds(generation: nat, calls: seq<LeaseCall>, i: nat)
    requires i < |calls|
  {
    Granted(generation, calls, i) && forall k :: i < k < |calls| ==> !Took(generation, calls, k)
  }

  /** Calls that leave the row of a claim alone: claims of the same source before the lease runs out,
      finishes of another source, and finishes that cannot store their drafts. */
  predicate Leaves(claim: LeaseCall, c: LeaseCall) {
    match c
    case Claim(_, source, now) => source == claim.source && now < claim.now + LEASE_MINUTES
    case Finish(_, source, _, failed, stored) => source != claim.source || !(failed || stored)
  }

  lemma TookEarlier(generation: nat, calls: seq<LeaseCall>, n: nat)
    requires n <= |calls|
    ensures forall k :: 0 <= k < n ==> (Took(generation, calls[..n], k) <==> Took(generation, calls, k))
  {
    assert forall k :: 0 <= k < n ==> calls[..n][k] == calls[k] && calls[..n][..k] == calls[..k];
  }

  /** What the row holds as long as it is the claim's own. */
  predicate OwnRow(x: Option<Extraction>, claim: LeaseCall) {
    && x.Some? && x.value.status == Running && x.value.source == claim.source
    && x.value.leaseUntil == Some(claim.now + LEASE_MINUTES) && x.value.nextAttempt.None?
  }

  lemma {:induction false} HeldRow(generation: nat, calls: seq<LeaseCall>, i: nat)
    requires i < |calls| && Holds(generation, calls, i)
    ensures OwnRow(LeaseAfter(generation, calls), calls[i])
  {
    var n := |calls| - 1;
    if i < n {
      TookEarlier(generation, calls, n);
      HeldRow(generation, calls[..n], i);
      assert !Took(generation, calls, n);
    }
  }

  lemma OwnRowIsLeft(x: Option<Extraction>, claim: LeaseCall, c: LeaseCall)
    requires OwnRow(x, claim)
    ensures Accepted(x, c) <==> !Leaves(claim, c)
  {
  }

  /** Whatever calls come after a granted claim, in whatever order: a finish closes that claim if
      and only if each of them is a claim of the same source inside the lease, a finish of another
      source, or a finish that cannot store its drafts. */
  lemma {:induction false} FinishBelongsToItsClaim(generation: nat, calls: seq<LeaseCall>, i: nat)
    requires i < |calls| && Granted(generation, calls, i)
    ensures Holds(generation, calls, i) <==> forall k :: i < k < |calls| ==> Leaves(calls[i], calls[k])
  {
    var n := |calls| - 1;
    if i < n {
      var rest := calls[..n];
      TookEarlier(generation, calls, n);
      assert rest[i] == calls[i] && Granted(generation, rest, i);
      FinishBelongsToItsClaim(generation, rest, i);
      OneMoreCall(generation, calls, i);
    }
  }

  lemma OneMoreCall(generation: nat, calls: seq<LeaseCall>, i: nat)
    requires i < |calls| - 1 && Granted(generation, calls, i)
    ensures var n := |calls| - 1;
      Holds(generation, calls, i) <==> Holds(generation, calls[..n], i) && Leaves(calls[i], calls[n])
  {
    var n := |calls| - 1;
    var rest := calls[..n];
    TookEarlier(generation, calls, n);
    assert rest[i] == calls[i];
    if Holds(generation, rest, i) {
      HeldRow(generation, rest, i);
      OwnRowIsLeft(LeaseAfter(generation, rest), calls[i], calls[n]);
      assert Took(generation, calls, n) <==> !Leaves(calls[i], calls[n]);
    }
    hide Took, Leaves;
    assert forall k :: i < k < n ==> (Took(generation, rest, k) <==> Took(generation, calls, k));
  }

  /** A source is being worked on exactly when one of its claims still holds the row. */
  lemma {:induction false} FinishIsOpen(generation: nat, calls: seq<LeaseCall>, source: nat)
    ensures Finishable(LeaseAfter(generation, calls), source) <==>
            exists k :: 0 <= k < |calls| && calls[k].source == source && Holds(generation, calls, k)
  {
    if calls != [] {
      var n := |calls| - 1;
      var rest := calls[..n];
      FinishIsOpen(generation, rest, source);
      TookEarlier(generation, calls, n);
      if Took(generation, calls, n) {
        assert forall k :: 0 <= k < n ==> !Holds(generation, calls, k);
        assert calls[n].Claim? ==> Holds(generation, calls, n);
      } else {
        assert !Holds(generation, calls, n);
        assert forall k :: 0 <= k < n ==> (Holds(generation, rest, k) <==> Holds(generation, calls, k));
        assert forall k :: 0 <= k < n ==> rest[k] == calls[k];
      }
    }
  }

  /** At most one claim holds the row. */
  lemma HolderIsUnique(generation: nat, calls: seq<LeaseCall>, i: nat, j: nat)
    requires i < |calls| && j < |calls| && Holds(generation, calls, i) && Holds(generation, calls, j)
    ensures i == j
  {
  }

  /** A worker's own finish, after anything that may have come since its claim: it is refused if no
      claim of its source holds the row, and otherwise it closes that one claim, which need not be
      its own. */
  lemma FinishClosesTheHolder(generation: nat, calls: seq<LeaseCall>, finish: LeaseCall)
    requires finish.Finish? && (finish.failed || finish.stored)
    ensures Took(generation, calls + [finish], |calls|) <==>
            exists k :: 0 <= k < |calls| && calls[k].source == finish.source && Holds(generation, calls, k)
    ensures forall k :: 0 <= k <= |calls| && (calls + [finish])[k].source == finish.source ==>
      !Holds(generation, calls + [finish], k)
  {
    FinishIsOpen(generation, calls, finish.source);
    NextCall(generation, calls, finish);
    forall k | 0 <= k < |calls| && (calls + [finish])[k].source == finish.source
      ensures !Holds(generation, calls + [finish], k)
    {
      HeldBefore(generation, calls, finish, k);
      assert (calls + [finish])[k] == calls[k];
    }
  }

  /** What holds after one more call held before it, and the call took nothing. */
  lemma HeldBefore(generation: nat, calls: seq<LeaseCall>, c: LeaseCall, k: nat)
    requires k < |calls|
    ensures Holds(generation, calls + [c], k) ==>
              Holds(generation, calls, k) && !Took(generation, calls + [c], |calls|)
  {
    SnocInit(calls, c);
    TookEarlier(generation, calls + [c], |calls|);
    if Holds(generation, calls + [c], k) {
      forall m | k < m < |calls| ensures !Took(generation, calls, m) {
        assert !Took(generation, calls + [c], m);
      }
    }
  }

  /** Worker 1 claims at minute 0, worker 2 at minute 20. The late finish of worker 1 closes worker
      2's claim: as a success it leaves worker 2 with a refusal, as a failure it marks as failed an
      extraction that is still running. */
  lemma LateFinishClosesAnothersClaim(generation: nat, source: nat, failed: bool)
    ensures var calls := [Claim(1, source, 0), Claim(2, source, 20)];
      && Granted(generation, calls, 0) && Holds(generation, calls, 1) && !Holds(generation, calls, 0)
      && var after := LeaseAfter(generation, calls + [Finish(1, source, 21, failed, true)]);
         && after.Some? && after.value.status == (if failed then Failed else Succeeded)
         && !Finishable(after, source)
  {
    var calls := [Claim(1, source, 0), Claim(2, source, 20)];
    var finish := Finish(1, source, 21, failed, true);
    FirstClaim(generation, Claim(1, source, 0));
    NextCall(generation, [Claim(1, source, 0)], Claim(2, source, 20));
    assert [Claim(1, source, 0)] + [Claim(2, source, 20)] == calls;
    NextCall(generation, calls, finish);
    assert calls[..1] == [Claim(1, source, 0)] && calls[..0] == [];
  }

  lemma FirstClaim(generation: nat, c: LeaseCall)
    requires c.Claim?
    ensures LeaseAfter(generation, []) == None
    ensures LeaseAfter(generation, [c]) == Some(Claimed(None, c.source, generation, c.now))
  {
    assert [c][..0] == [];
  }

  lemma NextCall(generation: nat, calls: seq<LeaseCall>, c: LeaseCall)
    ensures LeaseAfter(generation, calls + [c]) == AfterCall(LeaseAfter(generation, calls), generation, c)
    ensures Took(generation, calls + [c], |calls|) <==> Accepted(LeaseAfter(generation, calls), c)
  {
    SnocInit(calls, c);
  }

  /** Worker 2 finishes inside its own lease, which runs from minute 15 to 30, and closes worker 3's
      claim: the late failure of worker 1 has cut worker 2 off at minute 16 and let worker 3 in when
      the delay of ten minutes was over. No claim came after the lease of worker 2 had run out. */
  lemma LateFailureCutsLeaseShort(generation: nat, source: nat)
    ensures var calls := [Claim(1, source, 0), Claim(2, source, 15), Finish(1, source, 16, true, true),
                          Claim(3, source, 26)];
      && Granted(generation, calls, 1) && !Holds(generation, calls, 1)
      && (forall k :: 1 < k < |calls| ==> calls[k].now < calls[1].now + LEASE_MINUTES)
      && Holds(generation, calls, 3)
      && Took(generation, calls + [Finish(2, source, 27, false, true)], 4)
  {
    var c1, c2, c3 := Claim(1, source, 0), Claim(2, source, 15), Claim(3, source, 26);
    var late, own := Finish(1, source, 16, true, true), Finish(2, source, 27, false, true);
    var calls := [c1, c2, late, c3];
    FirstClaim(generation, c1);
    NextCall(generation, [c1], c2);
    NextCall(generation, [c1, c2], late);
    NextCall(generation, [c1, c2, late], c3);
    NextCall(generation, calls, own);
    assert [c1] + [c2] == [c1, c2] && [c1, c2] + [late] == [c1, c2, late] && [c1, c2, late] + [c3] == calls;
    assert calls[..1] == [c1] && calls[..2] == [c1, c2] && calls[..3] == [c1, c2, late];
    assert Doubled(5, 1) == 10;
  }

  lemma KeepsOwn(rows: seq<Entry>)
    ensures KeepsUsers(rows, rows)
  {
  }

  /** The table after the first `n` drafts of an extraction. */
  ghost function Drafted(normalizeKey: (Id, string) -> Id, newIds: nat -> Id, rows: seq<Entry>, thread: Id,
                         drafts: seq<Draft>, n: nat): seq<Entry>
    requires n <= |drafts|
  {
    if n == 0 then rows else
      var before, d := Drafted(normalizeKey, newIds, rows, thread, drafts, n - 1), drafts[n - 1];
      var key := normalizeKey(d.key, d.claim);
      if d.claim == "" || HasUser(before, key) then before
      else Inserted(before, newIds(n - 1), key, d.claim, CandidateTrust, thread, [])
  }

  /** Draft `n` is skipped, or its new id is unused. */
  ghost predicate InsertableAt(normalizeKey: (Id, string) -> Id, newIds: nat -> Id, rows: seq<Entry>, thread: Id,
                               drafts: seq<Draft>, n: nat)
    requires n < |drafts|
  {
    var before, d := Drafted(normalizeKey, newIds, rows, thread, drafts, n), drafts[n];
    d.claim == "" || HasUser(before, normalizeKey(d.key, d.claim)) || Unused(before, newIds(n))
  }

  ghost predicate Insertable(normalizeKey: (Id, string) -> Id, newIds: nat -> Id, rows: seq<Entry>, thread: Id,
                             drafts: seq<Draft>) {
    forall n :: 0 <= n < |drafts| ==> InsertableAt(normalizeKey, newIds, rows, thread, drafts, n)
  }

  // ---- the store ----

  class Store {
    const normalizeKey: (Id, string) -> Id
    var rows: seq<Entry>
    var generation: nat
    var extractions: map<Id, Extraction>

    ghost predicate Valid()
      reads this
    {
      ValidTable(rows)
    }

    twostate predicate Unchanged()
      reads this
    {
      rows == old(rows) && generation == old(generation) && extractions == old(extractions)
    }

    constructor (normalizeKey: (Id, string) -> Id)
      ensures Valid() && rows == [] && generation == 0 && extractions == map[]
    {
      this.normalizeKey := normalizeKey;
      rows, generation, extractions := [], 0, map[];
    }

    /** A candidate never displaces an active user entry, nor anything written under an older
        generation. */
    method Add(key: Id, claim: string, trust: Trust, thread: Id, sources: seq<Id>, at: Option<nat>, newId: Id)
      returns (r: Result<Entry, MemoryError>)
      requires Valid()
      modifies this
      ensures Valid() && generation == old(generation) && extractions == old(extractions)
      ensures var key' := normalizeKey(key, claim);
        && (r.Ok? <==>
            claim != "" && (at.Some? ==> at.value == generation)
              && (trust.CandidateTrust? ==> !HasUser(old(rows), key'))
                       && Unused(old(rows), newId) && NoRepeat(sources))
        && (r.Ok? ==>
            rows == Inserted(old(rows), newId, key', claim, trust, thread, sources) && r.value == rows[|old(rows)|])
        && (trust.CandidateTrust? ==> KeepsUsers(old(rows), rows))
      ensures r.Err? ==> Unchanged()
    {
      if claim == "" {
        return Err(ClaimRequired);
      }
      var key' := normalizeKey(key, claim);
      if at.Some? && at.value != generation {
        return Err(GenerationChanged);
      }
      if trust == CandidateTrust {
        var refused := UserExists(rows, key');
        if refused {
          return Err(CandidateRefused);
        }
        CandidateKeepsUsers(rows, newId, key', claim, thread, sources);
      }
      var tx := InsertVersion(rows, newId, key', claim, trust, thread, sources);
      if tx.Err? {
        return Err(tx.error);
      }
      rows := tx.value;
      r := Ok(rows[|rows| - 1]);
    }

    /** The position of an active entry with this id or key. */
    method FindActive(idOrKey: Id) returns (i: nat)
      ensures i <= |rows|
      ensures i < |rows| ==> Names(rows[i], idOrKey)
      ensures i == |rows| ==> forall k :: 0 <= k < |rows| ==> !Names(rows[k], idOrKey)
    {
      for k := 0 to |rows|
        invariant forall j :: 0 <= j < k ==> !Names(rows[j], idOrKey)
      {
        if rows[k].status == Active && (rows[k].id == idOrKey || rows[k].key == idOrKey) {
          return k;
        }
      }
      i := |rows|;
    }

    /** A user claim becomes the next version of the key it names; exactly when it is refused. */
    method UpdateUser(idOrKey: Id, claim: string, newId: Id) returns (r: Result<Entry, MemoryError>)
      requires Valid()
      modifies this
      ensures Valid() && generation == old(generation) && extractions == old(extractions)
      ensures r.Ok? <==> idOrKey != Id.Blank && claim != "" && Unused(old(rows), newId)
                         && exists i :: 0 <= i < |old(rows)| && Names(old(rows)[i], idOrKey)
      ensures r.Ok? ==> exists i :: (0 <= i < |old(rows)| && Names(old(rows)[i], idOrKey)
        && rows == Inserted(old(rows), newId, old(rows)[i].key, claim, UserTrust, Id.Blank, []))
      ensures r.Ok? ==> |rows| == |old(rows)| + 1 && r.value == rows[|old(rows)|]
      ensures r == Err(NotFound) <==>
        idOrKey != Id.Blank && claim != "" && forall k :: 0 <= k < |old(rows)| ==> !Names(old(rows)[k], idOrKey)
      ensures r.Err? ==> Unchanged()
    {
      if idOrKey == Id.Blank {
        return Err(IdRequired);
      }
      if claim == "" {
        return Err(ClaimRequired);
      }
      var i := FindActive(idOrKey);
      if i == |rows| {
        return Err(NotFound);
      }
      var tx := InsertVersion(rows, newId, rows[i].key, claim, UserTrust, Id.Blank, []);
      if tx.Err? {
        return Err(DuplicateId);
      }
      rows := tx.value;
      r := Ok(rows[|rows| - 1]);
    }

    /** Deleting keeps the row and its version; the key has no active entry afterwards. */
    method Delete(idOrKey: Id) returns (r: Result<Entry, MemoryError>)
      requires Valid()
      modifies this
      ensures Valid() && generation == old(generation) && extractions == old(extractions)
      ensures r.Ok? ==> exists i :: (0 <= i < |old(rows)| && Names(old(rows)[i], idOrKey)
        && rows == old(rows)[i := old(rows)[i].(status := Deleted)] && r.value == rows[i])
      ensures r.Ok? ==> forall k :: 0 <= k < |rows| && rows[k].key == r.value.key ==> rows[k].status != Active
      ensures r.Err? ==> Unchanged()
      ensures r.Err? <==> idOrKey == Id.Blank || forall k :: 0 <= k < |old(rows)| ==> !Names(old(rows)[k], idOrKey)
    {
      if idOrKey == Id.Blank {
        return Err(IdRequired);
      }
      var i := FindActive(idOrKey);
      if i == |rows| {
        return Err(NotFound);
      }
      ghost var before := rows;
      rows := rows[i := rows[i].(status := Deleted)];
      SameKeysSameTable(before, rows);
      r := Ok(rows[i]);
    }

    /** A confirmed candidate keeps its version; confirming twice changes nothing. */
    method Accept(id: Id) returns (r: Result<Entry, MemoryError>)
      requires Valid()
      modifies this
      ensures Valid() && generation == old(generation) && extractions == old(extractions)
      ensures r.Ok? ==> exists i :: (0 <= i < |old(rows)| && old(rows)[i].status == Active && old(rows)[i].id == id
        && rows == old(rows)[i := old(rows)[i].(trust := UserTrust)] && r.value == rows[i])
      ensures r.Err? ==> Unchanged()
      ensures r.Err? <==>
              id == Id.Blank
              || forall k :: 0 <= k < |old(rows)| && old(rows)[k].status == Active ==> old(rows)[k].id != id
    {
      if id == Id.Blank {
        return Err(IdRequired);
      }
      for i := 0 to |rows|
        invariant Unchanged()
        invariant forall k :: 0 <= k < i && rows[k].status == Active ==> rows[k].id != id
      {
        if rows[i].status == Active && rows[i].id == id {
          if rows[i].trust == UserTrust {
            assert rows[i := rows[i].(trust := UserTrust)] == rows;
            return Ok(rows[i]);
          }
          ghost var before := rows;
          rows := rows[i := rows[i].(trust := UserTrust)];
          SameKeysSameTable(before, rows);
          return Ok(rows[i]);
        }
      }
      r := Err(NotFound);
    }

    /** Nothing survives, and whoever still works for the old generation is locked out. */
    method Reset()
      requires Valid()
      modifies this
      ensures Valid() && rows == [] && extractions == map[] && generation == old(generation) + 1
    {
      rows, extractions, generation := [], map[], generation + 1;
    }

    method ClaimExtraction(thread: Id, source: nat, at: nat, now: int) returns (r: Result<bool, MemoryError>)
      requires Valid()
      modifies this
      ensures Valid() && rows == old(rows) && generation == old(generation)
      ensures r == if at != generation then Err(GenerationChanged)
              else Ok(Claimable(Lookup(old(extractions), thread), source, now))
      ensures extractions ==
              if r == Ok(true)
              then old(extractions)[thread := Claimed(Lookup(old(extractions), thread), source, at, now)]
              else old(extractions)
    {
      if at != generation {
        return Err(GenerationChanged);
      }
      var x := Lookup(extractions, thread);
      if x.Some? && x.value.source == source && x.value.status == Succeeded {
        return Ok(false);
      }
      if x.Some? && x.value.source == source && x.value.status == Running && x.value.leaseUntil.Some? {
        if x.value.leaseUntil.value > now {
          return Ok(false);
        }
      }
      if x.Some? && x.value.source == source && x.value.nextAttempt.Some? {
        if x.value.nextAttempt.value > now {
          return Ok(false);
        }
      }
      extractions := extractions[thread := Claimed(x, source, at, now)];
      r := Ok(true);
    }

    /** The table with every draft that is neither empty nor about a user's key, or the first clash. */
    method InsertDrafts(thread: Id, drafts: seq<Draft>, newIds: nat -> Id)
      returns (r: Result<seq<Entry>, MemoryError>, written: nat)
      requires Valid()
      ensures r.Ok? <==> Insertable(normalizeKey, newIds, rows, thread, drafts)
      ensures r.Ok? ==> r.value == Drafted(normalizeKey, newIds, rows, thread, drafts, |drafts|)
      ensures r.Ok? ==> ValidTable(r.value) && KeepsUsers(rows, r.value) && |r.value| == |rows| + written
    {
      hide ValidTable, HasUser, KeepsUsers, Unused;
      KeepsOwn(rows);
      var tx := rows;
      written := 0;
      for i := 0 to |drafts|
        invariant ValidTable(tx) && KeepsUsers(rows, tx) && |tx| == |rows| + written
        invariant tx == Drafted(normalizeKey, newIds, rows, thread, drafts, i)
        invariant forall n :: 0 <= n < i ==> InsertableAt(normalizeKey, newIds, rows, thread, drafts, n)
      {
        var d := drafts[i];
        if d.claim == "" {
          continue;
        }
        var key := normalizeKey(d.key, d.claim);
        var users := UserExists(tx, key);
        if users {
          continue;
        }
        var inserted := InsertVersion(tx, newIds(i), key, d.claim, CandidateTrust, thread, []);
        if inserted.Err? {
          assert !InsertableAt(normalizeKey, newIds, rows, thread, drafts, i);
          return Err(inserted.error), 0;
        }
        CandidateKeepsUsers(tx, newIds(i), key, d.claim, thread, []);
        UsersStay(rows, tx, inserted.value);
        tx, written := inserted.value, written + 1;
      }
      r := Ok(tx);
    }

    /** The drafts of a finished extraction, all of them or none, and never at the expense of a user
        entry: exactly when the generation is current, somebody is at work on this source, and the
        new ids are unused. Whose claim it closes is not checked. */
    method FinishExtraction(thread: Id, source: nat, at: nat, drafts: seq<Draft>, failed: bool, now: int,
                            newIds: nat -> Id)
      returns (r: Result<nat, MemoryError>)
      requires Valid()
      modifies this
      ensures Valid() && generation == old(generation)
      ensures r.Ok? <==> at == old(generation) && Finishable(Lookup(old(extractions), thread), source)
                         && (failed || Insertable(normalizeKey, newIds, old(rows), thread, drafts))
      ensures at != old(generation) ==> r == Err(GenerationChanged)
      ensures r.Err? ==> Unchanged()
      ensures KeepsUsers(old(rows), rows)
      ensures r.Ok? ==> extractions == old(extractions)[thread := Finished(old(extractions)[thread], failed, now)]
      ensures r.Ok? && failed ==> rows == old(rows) && r.value == 0
      ensures r.Ok? && !failed ==>
        rows == Drafted(normalizeKey, newIds, old(rows), thread, drafts, |drafts|) && |rows| == |old(rows)| + r.value
    {
      if at != generation {
        return Err(GenerationChanged);
      }
      if thread !in extractions {
        return Err(NotClaimed);
      }
      var x := extractions[thread];
      if x.status != Running || x.source != source {
        return Err(LeaseChanged);
      }
      if failed {
        extractions := extractions[thread := Finished(x, true, now)];
        return Ok(0);
      }
      var tx, written := InsertDrafts(thread, drafts, newIds);
      if tx.Err? {
        return Err(tx.error);
      }
      rows := tx.value;
      extractions := extractions[thread := Finished(x, false, now)];
      r := Ok(written);
    }
  }

  /** The same call, but for whether its drafts can be stored. */
  predicate SameCall(a: LeaseCall, b: LeaseCall) {
    if a.Claim? then a == b else b.Finish? && a == b.(stored := a.stored)
  }

  /** Whatever workers ask about one thread, the store keeps the row that `LeaseAfter` says, and
      answers whether a call was accepted. */
  method ServeCalls(store: Store, thread: Id, calls: seq<LeaseCall>, drafts: nat -> seq<Draft>,
                    newIds: (nat, nat) -> Id)
    returns (answers: seq<bool>, ghost ran: seq<LeaseCall>)
    requires store.Valid() && thread !in store.extractions
    modifies store
    ensures store.Valid() && store.generation == old(store.generation)
    ensures |answers| == |ran| == |calls| && forall i :: 0 <= i < |calls| ==> SameCall(calls[i], ran[i])
    ensures Lookup(store.extractions, thread) == LeaseAfter(store.generation, ran)
    ensures forall i :: 0 <= i < |calls| ==> (answers[i] <==> Took(store.generation, ran, i))
  {
    hide Took, Claimable, Claimed, Finished, LeaseAfter, ValidTable, Insertable, Drafted, KeepsUsers;
    answers, ran := [], [];
    NothingServed(store.generation);
    for i := 0 to |calls|
      invariant store.Valid() && store.generation == old(store.generation)
      invariant |answers| == |ran| == i && forall k :: 0 <= k < i ==> SameCall(calls[k], ran[k])
      invariant Lookup(store.extractions, thread) == LeaseAfter(store.generation, ran)
      invariant forall k :: 0 <= k < i ==> (answers[k] <==> Took(store.generation, ran, k))
    {
      ghost var c := calls[i];
      var answer;
      match calls[i] {
        case Claim(_, source, now) =>
          var r := store.ClaimExtraction(thread, source, store.generation, now);
          answer := r.value;
        case Finish(_, source, now, failed, _) =>
          var ids := (n: nat) => newIds(i, n);
          c := c.(stored := Insertable(store.normalizeKey, ids, store.rows, thread, drafts(i)));
          var r := store.FinishExtraction(thread, source, store.generation, drafts(i), failed, now, ids);
          answer := r.Ok?;
      }
      NextCall(store.generation, ran, c);
      TookEarlier(store.generation, ran + [c], i);
      assert (ran + [c])[..i] == ran;
      answers, ran := answers + [answer], ran + [c];
    }
  }

  lemma NothingServed(generation: nat)
    ensures LeaseAfter(generation, []) == None
  {
  }

  function Lookup(extractions: map<Id, Extraction>, thread: Id): Option<Extraction> {
    if thread in extractions then Some(extractions[thread]) else None
  }

  /** Changing a row in place, without reviving it, keeps the table in order. */
  lemma SameKeysSameTable(before: seq<Entry>, after: seq<Entry>)
    requires ValidTable(before) && |after| == |before|
    requires forall i :: 0 <= i < |before| ==>
      && after[i].id == before[i].id && after[i].key == before[i].key && after[i].version == before[i].version
      && (after[i].status == Active ==> before[i].status == Active)
    ensures ValidTable(after)
  {
    forall i | 0 <= i < |after| ensures VersionedAt(after, i) {
      CountSame(before, after, i, after[i].key);
      assert VersionedAt(before, i);
    }
  }
}
