/** What the memory store's transactions amount to (`internal/memory/store.go`): which rows a new version and the
    drafts of an extraction write, how attempts are counted, and when a source is done. */
module MemoryHistory {
  import opened Ids
  import opened MemoryStore

  // ---- one version ----

  ghost predicate HasActive(rows: seq<Entry>, key: Id, id: Id) {
    exists i :: 0 <= i < |rows| && rows[i].status == Active && rows[i].key == key && rows[i].id == id
  }

  ghost predicate HasVersion(rows: seq<Entry>, key: Id, version: int) {
    exists i :: 0 <= i < |rows| && rows[i].key == key && rows[i].version == version
  }

  /** The active row of the key is superseded and named, every other row stays, and the new row is active under
      the version after the newest. */
  ghost predicate AddsVersion(before: seq<Entry>, after: seq<Entry>, id: Id, key: Id, claim: string, trust: Trust,
                              thread: Id, sources: seq<Id>)
  {
    && |after| == |before| + 1
    && (forall i :: 0 <= i < |before| ==>
          after[i] == if before[i].status == Active && before[i].key == key then before[i].(status := Superseded)
                      else before[i])
    && var e := after[|before|];
       && e.id == id && e.key == key && e.claim == claim && e.trust == trust && e.status == Active
       && e.thread == thread && e.sources == sources
       && (if exists x :: HasActive(before, key, x) then HasActive(before, key, e.supersedes)
           else e.supersedes == Id.Blank)
       && (forall i :: 0 <= i < |before| && before[i].key == key ==> before[i].version < e.version)
       && (e.version == 1 || HasVersion(before, key, e.version - 1))
  }

  lemma {:induction false} ActiveIdIsActive(rows: seq<Entry>, key: Id)
    ensures if exists x :: HasActive(rows, key, x) then HasActive(rows, key, ActiveId(rows, key))
            else ActiveId(rows, key) == Id.Blank
  {
    if rows != [] {
      var rest, last := rows[..|rows| - 1], rows[|rows| - 1];
      ActiveIdIsActive(rest, key);
      forall id ensures HasActive(rows, key, id) <==>
        HasActive(rest, key, id) || (last.status == Active && last.key == key && last.id == id)
      {
        if HasActive(rest, key, id) {
          var i :| 0 <= i < |rest| && rest[i].status == Active && rest[i].key == key && rest[i].id == id;
          assert rows[i] == rest[i];
        }
        if last.status == Active && last.key == key && last.id == id {
          assert rows[|rows| - 1].id == id;
        }
      }
      hide HasActive;
    } else {
      assert forall id :: !HasActive(rows, key, id);
    }
  }

  /** The versions of a key go up to their number. */
  lemma VersionsUpTo(rows: seq<Entry>, key: Id)
    requires Versioned(rows)
    ensures var n := CountKey(rows, |rows|, key);
      && (forall i :: 0 <= i < |rows| && rows[i].key == key ==> rows[i].version <= n)
      && (n == 0 || HasVersion(rows, key, n))
  {
    var n := CountKey(rows, |rows|, key);
    forall i | 0 <= i < |rows| && rows[i].key == key ensures rows[i].version <= n {
      assert VersionedAt(rows, i);
      CountGrows(rows, i + 1, |rows|, key);
    }
    if n > 0 {
      var k := LastOfKey(rows, |rows|, key);
      assert VersionedAt(rows, k);
      CountFrozen(rows, k + 1, key);
    }
  }

  lemma InsertedAddsVersion(rows: seq<Entry>, id: Id, key: Id, claim: string, trust: Trust, thread: Id,
                            sources: seq<Id>)
    requires ValidTable(rows)
    ensures AddsVersion(rows, Inserted(rows, id, key, claim, trust, thread, sources), id, key, claim, trust, thread,
                        sources)
  {
    ActiveIdIsActive(rows, key);
    VersionsUpTo(rows, key);
    hide HasActive, HasVersion, ActiveId, CountKey, ValidTable;
  }

  // ---- the drafts of an extraction ----

  /** A draft is stored unless it is empty or about something the user has settled. */
  ghost predicate Wanted(normalizeKey: (Id, string) -> Id, rows: seq<Entry>, d: Draft) {
    d.claim != "" && !HasUser(rows, normalizeKey(d.key, d.claim))
  }

  ghost function CountWanted(normalizeKey: (Id, string) -> Id, rows: seq<Entry>, drafts: seq<Draft>, n: nat): nat
    requires n <= |drafts|
  {
    if n == 0 then 0 else
      CountWanted(normalizeKey, rows, drafts, n - 1) + if Wanted(normalizeKey, rows, drafts[n - 1]) then 1 else 0
  }

  /** Some wanted draft among those from `from` to `to` is about `key`. */
  ghost predicate Drafts(normalizeKey: (Id, string) -> Id, rows: seq<Entry>, drafts: seq<Draft>, from: nat, to: nat,
                         key: Id)
    requires from <= to <= |drafts|
  {
    exists i :: from <= i < to && Wanted(normalizeKey, rows, drafts[i])
                && normalizeKey(drafts[i].key, drafts[i].claim) == key
  }

  /** Row `at` holds draft `d`. */
  predicate Holds(e: Entry, normalizeKey: (Id, string) -> Id, d: Draft, id: Id, thread: Id) {
    && e.id == id && e.key == normalizeKey(d.key, d.claim) && e.claim == d.claim && e.trust == CandidateTrust
    && e.thread == thread && e.sources == []
  }

  /** Every wanted draft among the first `n` has its row, in order; only the last one about a key is active, and
      only what these drafts are about was superseded. */
  ghost predicate Stored(normalizeKey: (Id, string) -> Id, newIds: nat -> Id, rows: seq<Entry>, thread: Id,
                         drafts: seq<Draft>, n: nat, after: seq<Entry>)
    requires n <= |drafts|
  {
    && |after| == |rows| + CountWanted(normalizeKey, rows, drafts, n)
    && (forall k :: 0 <= k < |rows| ==>
          after[k] == if rows[k].status == Active && Drafts(normalizeKey, rows, drafts, 0, n, rows[k].key)
                      then rows[k].(status := Superseded) else rows[k])
    && (forall i :: 0 <= i < n && Wanted(normalizeKey, rows, drafts[i]) ==>
          StoredAt(normalizeKey, newIds, rows, thread, drafts, n, after, i))
  }

  ghost predicate StoredAt(normalizeKey: (Id, string) -> Id, newIds: nat -> Id, rows: seq<Entry>, thread: Id,
                           drafts: seq<Draft>, n: nat, after: seq<Entry>, i: nat)
    requires i < n <= |drafts|
  {
    var at, key := |rows| + CountWanted(normalizeKey, rows, drafts, i), normalizeKey(drafts[i].key, drafts[i].claim);
    && at < |after| && Holds(after[at], normalizeKey, drafts[i], newIds(i), thread)
    && after[at].status == if Drafts(normalizeKey, rows, drafts, i + 1, n, key) then Superseded else Active
  }

  lemma {:induction false} CountBefore(normalizeKey: (Id, string) -> Id, rows: seq<Entry>, drafts: seq<Draft>, i: nat,
                                       n: nat)
    requires i < n <= |drafts| && Wanted(normalizeKey, rows, drafts[i])
    ensures CountWanted(normalizeKey, rows, drafts, i) < CountWanted(normalizeKey, rows, drafts, n)
  {
    if i < n - 1 {
      CountBefore(normalizeKey, rows, drafts, i, n - 1);
    }
  }

  /** Row `r` of the drafts belongs to one of them. */
  lemma {:induction false} RowHasDraft(normalizeKey: (Id, string) -> Id, rows: seq<Entry>, drafts: seq<Draft>, n: nat,
                                       r: nat)
    returns (i: nat)
    requires n <= |drafts| && r < CountWanted(normalizeKey, rows, drafts, n)
    ensures i < n && Wanted(normalizeKey, rows, drafts[i]) && CountWanted(normalizeKey, rows, drafts, i) == r
  {
    if r < CountWanted(normalizeKey, rows, drafts, n - 1) {
      i := RowHasDraft(normalizeKey, rows, drafts, n - 1, r);
    } else {
      i := n - 1;
    }
  }

  lemma DraftsGrow(normalizeKey: (Id, string) -> Id, rows: seq<Entry>, drafts: seq<Draft>, from: nat, n: nat, key: Id)
    requires from <= n < |drafts|
    ensures Drafts(normalizeKey, rows, drafts, from, n + 1, key) <==>
      || Drafts(normalizeKey, rows, drafts, from, n, key)
      || (Wanted(normalizeKey, rows, drafts[n]) && normalizeKey(drafts[n].key, drafts[n].claim) == key)
  {
  }

  /** Drafts settle nothing for the user and take nothing from them. */
  lemma UsersAreSettled(normalizeKey: (Id, string) -> Id, newIds: nat -> Id, rows: seq<Entry>, thread: Id,
                        drafts: seq<Draft>, n: nat, after: seq<Entry>, key: Id)
    requires n <= |drafts| && Stored(normalizeKey, newIds, rows, thread, drafts, n, after)
    ensures HasUser(after, key) <==> HasUser(rows, key)
  {
    forall k | |rows| <= k < |after| ensures after[k].trust == CandidateTrust {
      var i := RowHasDraft(normalizeKey, rows, drafts, n, k - |rows|);
      assert StoredAt(normalizeKey, newIds, rows, thread, drafts, n, after, i);
    }
    if HasUser(after, key) {
      var k :| 0 <= k < |after| && IsUser(after[k], key);
      assert IsUser(rows[k], key);
    }
    if HasUser(rows, key) {
      var k :| 0 <= k < |rows| && IsUser(rows[k], key);
      assert IsUser(after[k], key);
    }
  }

  lemma {:induction false} DraftedIsStored(normalizeKey: (Id, string) -> Id, newIds: nat -> Id, rows: seq<Entry>,
                                           thread: Id, drafts: seq<Draft>, n: nat)
    requires n <= |drafts|
    ensures Stored(normalizeKey, newIds, rows, thread, drafts, n,
                   Drafted(normalizeKey, newIds, rows, thread, drafts, n))
  {
    hide Stored, HasUser, Inserted;
    if n == 0 {
      NothingStored(normalizeKey, newIds, rows, thread, drafts);
    } else {
      var before, d := Drafted(normalizeKey, newIds, rows, thread, drafts, n - 1), drafts[n - 1];
      var key := normalizeKey(d.key, d.claim);
      DraftedIsStored(normalizeKey, newIds, rows, thread, drafts, n - 1);
      UsersAreSettled(normalizeKey, newIds, rows, thread, drafts, n - 1, before, key);
      OneMoreDraft(normalizeKey, newIds, rows, thread, drafts, n - 1, before);
    }
  }

  lemma NothingStored(normalizeKey: (Id, string) -> Id, newIds: nat -> Id, rows: seq<Entry>, thread: Id,
                      drafts: seq<Draft>)
    ensures Stored(normalizeKey, newIds, rows, thread, drafts, 0, rows)
  {
  }

  lemma OneMoreDraft(normalizeKey: (Id, string) -> Id, newIds: nat -> Id, rows: seq<Entry>, thread: Id,
                     drafts: seq<Draft>, n: nat, before: seq<Entry>)
    requires n < |drafts| && Stored(normalizeKey, newIds, rows, thread, drafts, n, before)
    ensures var d := drafts[n];
      var key := normalizeKey(d.key, d.claim);
      var after := if Wanted(normalizeKey, rows, d)
        then Inserted(before, newIds(n), key, d.claim, CandidateTrust, thread, []) else before;
      Stored(normalizeKey, newIds, rows, thread, drafts, n + 1, after)
  {
    hide Wanted, CountKey, ActiveId;
    var d := drafts[n];
    var key := normalizeKey(d.key, d.claim);
    var wanted := Wanted(normalizeKey, rows, d);
    var after := if wanted then Inserted(before, newIds(n), key, d.claim, CandidateTrust, thread, []) else before;
    forall from, k | 0 <= from <= n
      ensures Drafts(normalizeKey, rows, drafts, from, n + 1, k) <==>
              Drafts(normalizeKey, rows, drafts, from, n, k) || (wanted && key == k)
    {
      DraftsGrow(normalizeKey, rows, drafts, from, n, k);
    }
    assert !Drafts(normalizeKey, rows, drafts, n + 1, n + 1, key);
    hide Drafts;
    forall i | 0 <= i < n + 1 && Wanted(normalizeKey, rows, drafts[i])
      ensures StoredAt(normalizeKey, newIds, rows, thread, drafts, n + 1, after, i)
    {
      if i < n {
        CountBefore(normalizeKey, rows, drafts, i, n);
        assert StoredAt(normalizeKey, newIds, rows, thread, drafts, n, before, i);
      }
    }
  }

  /** The ids an extraction needs: new, and one for each draft it stores. */
  ghost predicate FreshFor(normalizeKey: (Id, string) -> Id, newIds: nat -> Id, rows: seq<Entry>, drafts: seq<Draft>,
                           n: nat)
    requires n <= |drafts|
  {
    && (forall i :: 0 <= i < n && Wanted(normalizeKey, rows, drafts[i]) ==> Unused(rows, newIds(i)))
    && (forall i, j :: 0 <= i < j < n && Wanted(normalizeKey, rows, drafts[i]) && Wanted(normalizeKey, rows, drafts[j])
          ==> newIds(i) != newIds(j))
  }

  lemma UnusedIsFresh(normalizeKey: (Id, string) -> Id, newIds: nat -> Id, rows: seq<Entry>, thread: Id,
                      drafts: seq<Draft>, n: nat, after: seq<Entry>, id: Id)
    requires n <= |drafts| && Stored(normalizeKey, newIds, rows, thread, drafts, n, after)
    ensures Unused(after, id) <==>
      (Unused(rows, id) && forall i :: 0 <= i < n && Wanted(normalizeKey, rows, drafts[i]) ==> newIds(i) != id)
  {
    hide Wanted, Drafts;
    if !Unused(after, id) {
      var k :| 0 <= k < |after| && after[k].id == id;
      if k >= |rows| {
        var i := RowHasDraft(normalizeKey, rows, drafts, n, k - |rows|);
        assert StoredAt(normalizeKey, newIds, rows, thread, drafts, n, after, i);
      }
    } else {
      forall k | 0 <= k < |rows| ensures rows[k].id != id {
        assert after[k].id == rows[k].id;
      }
      forall i | 0 <= i < n && Wanted(normalizeKey, rows, drafts[i]) ensures newIds(i) != id {
        assert StoredAt(normalizeKey, newIds, rows, thread, drafts, n, after, i);
      }
    }
  }

  lemma {:induction false} InsertableIsFresh(normalizeKey: (Id, string) -> Id, newIds: nat -> Id, rows: seq<Entry>,
                                             thread: Id, drafts: seq<Draft>)
    ensures Insertable(normalizeKey, newIds, rows, thread, drafts) <==>
            FreshFor(normalizeKey, newIds, rows, drafts, |drafts|)
  {
    hide Drafted, Stored;
    forall n | 0 <= n < |drafts|
      ensures InsertableAt(normalizeKey, newIds, rows, thread, drafts, n) <==>
        (Wanted(normalizeKey, rows, drafts[n]) ==>
          Unused(rows, newIds(n))
          && forall i :: 0 <= i < n && Wanted(normalizeKey, rows, drafts[i]) ==> newIds(i) != newIds(n))
    {
      var before := Drafted(normalizeKey, newIds, rows, thread, drafts, n);
      var key := normalizeKey(drafts[n].key, drafts[n].claim);
      DraftedIsStored(normalizeKey, newIds, rows, thread, drafts, n);
      UsersAreSettled(normalizeKey, newIds, rows, thread, drafts, n, before, key);
      UnusedIsFresh(normalizeKey, newIds, rows, thread, drafts, n, before, newIds(n));
    }
    hide Wanted, Unused, InsertableAt;
  }

  // ---- attempts, and the end of a source ----

  /** Claims granted from call `from` on. */
  function Grants(generation: nat, calls: seq<LeaseCall>, from: nat, n: nat): nat
    requires from <= n <= |calls|
    decreases n
  {
    if n == from then 0 else
      Grants(generation, calls, from, n - 1) + if Granted(generation, calls, n - 1) then 1 else 0
  }

  /** From call `from` on every granted claim is about `source`, and the one granted last before it was not. */
  ghost predicate Streak(generation: nat, calls: seq<LeaseCall>, from: nat, source: nat)
    requires from <= |calls|
  {
    && (forall k :: from <= k < |calls| && Granted(generation, calls, k) ==> calls[k].source == source)
    && ((forall k :: 0 <= k < from ==> !Granted(generation, calls, k))
        || exists l :: LastBefore(generation, calls, from, l) && calls[l].source != source)
  }

  ghost predicate LastBefore(generation: nat, calls: seq<LeaseCall>, from: nat, l: int)
    requires from <= |calls|
  {
    0 <= l < from && Granted(generation, calls, l) && forall k :: l < k < from ==> !Granted(generation, calls, k)
  }

  /** The attempts on record are the claims granted for the source since another one was claimed; a failure does
      not start the count again. */
  ghost predicate CountsAttempts(generation: nat, calls: seq<LeaseCall>, x: Extraction) {
    exists from :: 0 <= from <= |calls| && Streak(generation, calls, from, x.source)
                   && x.attempts == Grants(generation, calls, from, |calls|) > 0
  }

  lemma {:induction false} GrantsEarlier(generation: nat, calls: seq<LeaseCall>, from: nat, n: nat, m: nat)
    requires from <= n <= m <= |calls|
    ensures Grants(generation, calls[..m], from, n) == Grants(generation, calls, from, n)
  {
    if from < n {
      GrantsEarlier(generation, calls, from, n - 1, m);
      TookEarlier(generation, calls, m);
      assert calls[..m][n - 1] == calls[n - 1];
    }
  }

  /** What was granted is granted, whatever comes next. */
  lemma GrantedEarlier(generation: nat, calls: seq<LeaseCall>, n: nat)
    requires n <= |calls|
    ensures forall k :: 0 <= k < n ==>
      calls[..n][k] == calls[k] && (Granted(generation, calls[..n], k) <==> Granted(generation, calls, k))
  {
    TookEarlier(generation, calls, n);
  }

  lemma StreakGoesOn(generation: nat, calls: seq<LeaseCall>, from: nat, source: nat)
    requires from < |calls| && Streak(generation, calls[..|calls| - 1], from, source)
    requires Granted(generation, calls, |calls| - 1) ==> calls[|calls| - 1].source == source
    ensures Streak(generation, calls, from, source)
  {
    hide Granted;
    var n := |calls| - 1;
    var rest := calls[..n];
    GrantedEarlier(generation, calls, n);
    if !(forall k :: 0 <= k < from ==> !Granted(generation, rest, k)) {
      var l :| LastBefore(generation, rest, from, l) && rest[l].source != source;
      assert LastBefore(generation, calls, from, l) && calls[l].source != source;
    }
  }

  lemma StreakBegins(generation: nat, calls: seq<LeaseCall>, from: nat, last: nat)
    requires from < |calls| && Granted(generation, calls, |calls| - 1) && last != calls[|calls| - 1].source
    requires var rest := calls[..|calls| - 1];
      Streak(generation, rest, from, last) && Grants(generation, rest, from, |rest|) > 0
    ensures Streak(generation, calls, |calls| - 1, calls[|calls| - 1].source)
  {
    hide Granted;
    var n := |calls| - 1;
    var rest := calls[..n];
    GrantedEarlier(generation, calls, n);
    var l := LastGrant(generation, rest, from, n);
    assert LastBefore(generation, calls, n, l) && calls[l].source == last;
  }

  lemma {:induction false} LastGrant(generation: nat, calls: seq<LeaseCall>, from: nat, n: nat) returns (l: nat)
    requires from <= n <= |calls| && Grants(generation, calls, from, n) > 0
    ensures from <= l < n && Granted(generation, calls, l)
    ensures forall k :: l < k < n ==> !Granted(generation, calls, k)
  {
    if Granted(generation, calls, n - 1) {
      l := n - 1;
    } else {
      l := LastGrant(generation, calls, from, n - 1);
    }
  }

  lemma {:induction false} AttemptsAreCounted(generation: nat, calls: seq<LeaseCall>)
    ensures var x := LeaseAfter(generation, calls);
      if x.None? then forall k :: 0 <= k < |calls| ==> !Granted(generation, calls, k)
      else CountsAttempts(generation, calls, x.value)
  {
    if calls != [] {
      var n := |calls| - 1;
      var rest, x := calls[..n], LeaseAfter(generation, calls[..n]);
      AttemptsAreCounted(generation, rest);
      GrantedEarlier(generation, calls, n);
      if x.None? {
        assert Granted(generation, calls, n) ==> Streak(generation, calls, n, calls[n].source);
        assert Granted(generation, calls, n) ==> Grants(generation, calls, n, n + 1) == 1;
      } else {
        var from :| 0 <= from <= n && Streak(generation, rest, from, x.value.source)
                    && x.value.attempts == Grants(generation, rest, from, n) > 0;
        if Granted(generation, calls, n) && x.value.source != calls[n].source {
          StreakBegins(generation, calls, from, x.value.source);
          assert Grants(generation, calls, n, n + 1) == 1;
        } else {
          StreakGoesOn(generation, calls, from, x.value.source);
          GrantsEarlier(generation, calls, from, n, n);
        }
      }
    }
  }

  predicate Done(x: Option<Extraction>, source: nat) {
    x.Some? && x.value.status == Succeeded && x.value.source == source
  }

  /** A source whose extraction succeeded is not claimed again, unless another source of the thread was in
      between. */
  lemma {:induction false} SuccessIsFinal(generation: nat, calls: seq<LeaseCall>, i: nat, n: nat)
    requires i < n <= |calls| && calls[i].Finish? && !calls[i].failed && Took(generation, calls, i)
    requires forall k :: i < k < n && Granted(generation, calls, k) ==> calls[k].source == calls[i].source
    ensures Done(LeaseAfter(generation, calls[..n]), calls[i].source)
    ensures forall k :: i < k < n ==> !Took(generation, calls, k)
  {
    assert calls[..n][..n - 1] == calls[..n - 1];
    if i < n - 1 {
      SuccessIsFinal(generation, calls, i, n - 1);
    }
  }
}
