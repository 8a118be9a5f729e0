/** The per-turn tool budget of `internal/runtimeguard`: batch admission, claims of admitted calls,
    direct starts and resets, all under one mutex, so a run is a sequence of calls. */
module TurnBudgets {
  import opened Ids

  /** Canonical tool name and arguments of a call. */
  type CallKey = nat

  datatype ToolCall = ToolCall(id: Id, key: CallKey)

  datatype Denial = BudgetExceeded | EquivalentLimit

  datatype Admission = Admission(key: CallKey, denial: Option<Denial>, started: bool)

  datatype AdmitError = IdRequired | AlreadyAdmitted

  datatype StartError = Denied(reason: Denial) | Mismatch | AlreadyStarted | NotAdmitted

  /** What the mutex serialised. Refused calls leave no note. */
  datatype Note =
    | Admitted(calls: seq<ToolCall>, denials: seq<Option<Denial>>)
    | Claimed(id: Id)
    | DirectStart(key: CallKey)
    | Acquired
    | StateChanged

  function Get(counts: map<CallKey, nat>, key: CallKey): nat {
    if key in counts then counts[key] else 0
  }

  // ---- what a batch is told ----

  function CountKey(calls: seq<ToolCall>, key: CallKey): nat {
    if calls == [] then 0 else
      CountKey(calls[..|calls| - 1], key) + if calls[|calls| - 1].key == key then 1 else 0
  }

  /** Call `i` is under its limit, counting every equivalent call before it in the batch. */
  predicate Eligible(counts: map<CallKey, nat>, calls: seq<ToolCall>, limit: nat, i: nat)
    requires i < |calls|
  {
    Get(counts, calls[i].key) + CountKey(calls[..i], calls[i].key) < limit
  }

  function EligibleCount(counts: map<CallKey, nat>, calls: seq<ToolCall>, limit: nat, n: nat): (count: nat)
    requires n <= |calls|
    ensures count <= n
  {
    if n == 0 then 0 else
      EligibleCount(counts, calls, limit, n - 1) + if Eligible(counts, calls, limit, n - 1) then 1 else 0
  }

  /** Eligible calls are allowed if all of them fit; otherwise none is. */
  ghost predicate Decided(counts: map<CallKey, nat>, calls: seq<ToolCall>, limit: nat, remaining: int,
                          denials: seq<Option<Denial>>) {
    && |denials| == |calls|
    && forall i :: 0 <= i < |calls| ==>
      denials[i] ==
        if !Eligible(counts, calls, limit, i) then Some(EquivalentLimit)
        else if EligibleCount(counts, calls, limit, |calls|) > remaining then Some(BudgetExceeded)
        else None
  }

  /** The id of call `i` is blank, repeats an earlier one of the batch, or is taken. */
  ghost predicate Offends(calls: seq<ToolCall>, known: set<Id>, i: nat)
    requires i < |calls|
  {
    || calls[i].id == Id.Blank || calls[i].id in known
    || exists j :: 0 <= j < i && calls[j].id == calls[i].id
  }

  ghost predicate FirstOffence(calls: seq<ToolCall>, known: set<Id>, i: nat) {
    i < |calls| && Offends(calls, known, i) && forall j :: 0 <= j < i ==> !Offends(calls, known, j)
  }

  function CallIds(calls: seq<ToolCall>): set<Id> {
    set call | call in calls :: call.id
  }

  /** Whose decision counts: as many as are allowed, and as many as have the key. */
  lemma {:induction false} AllowedIsCount(denials: seq<Option<Denial>>)
    ensures AllowedIn(denials) == |set i | 0 <= i < |denials| && denials[i].None?|
  {
    if denials != [] {
      var n := |denials| - 1;
      AllowedIsCount(denials[..n]);
      var before, after := set i | 0 <= i < n && denials[..n][i].None?, set i | 0 <= i < |denials| && denials[i].None?;
      assert after == before + if denials[n].None? then {n} else {};
    }
  }

  lemma {:induction false} CountKeyIsCount(calls: seq<ToolCall>, key: CallKey)
    ensures CountKey(calls, key) == |set i | 0 <= i < |calls| && calls[i].key == key|
  {
    if calls != [] {
      var n := |calls| - 1;
      CountKeyIsCount(calls[..n], key);
      var before := set i | 0 <= i < n && calls[..n][i].key == key;
      var after := set i | 0 <= i < |calls| && calls[i].key == key;
      assert after == before + if calls[n].key == key then {n} else {};
    }
  }

  lemma {:induction false} EligibleIsCount(counts: map<CallKey, nat>, calls: seq<ToolCall>, limit: nat, n: nat)
    requires n <= |calls|
    ensures EligibleCount(counts, calls, limit, n) == |set i | 0 <= i < n && Eligible(counts, calls, limit, i)|
  {
    if n > 0 {
      EligibleIsCount(counts, calls, limit, n - 1);
      var before := set i | 0 <= i < n - 1 && Eligible(counts, calls, limit, i);
      var after := set i | 0 <= i < n && Eligible(counts, calls, limit, i);
      assert after == before + if Eligible(counts, calls, limit, n - 1) then {n - 1} else {};
    }
  }

  lemma {:induction false} CountKeyGrows(calls: seq<ToolCall>, i: nat)
    requires i < |calls|
    ensures CountKey(calls[..i], calls[i].key) < CountKey(calls, calls[i].key)
  {
    var n := |calls| - 1;
    if i < n {
      CountKeyGrows(calls[..n], i);
      assert calls[..n][..i] == calls[..i];
    }
  }

  /** No call is refused needlessly: if the whole batch fits under every limit, all of it may run. */
  lemma FittingBatchIsAllowed(counts: map<CallKey, nat>, calls: seq<ToolCall>, limit: nat, remaining: int,
                              denials: seq<Option<Denial>>)
    requires Decided(counts, calls, limit, remaining, denials) && |calls| <= remaining
    requires forall i :: 0 <= i < |calls| ==> Get(counts, calls[i].key) + CountKey(calls, calls[i].key) <= limit
    ensures forall i :: 0 <= i < |denials| ==> denials[i].None?
  {
    forall i | 0 <= i < |denials| ensures denials[i].None? {
      CountKeyGrows(calls, i);
    }
  }

  /** A call is refused for its key exactly when the equivalent calls before it have used up the
      limit, and for the budget exactly when those that are left do not fit together. */
  lemma RefusalIsDue(counts: map<CallKey, nat>, calls: seq<ToolCall>, limit: nat, remaining: int,
                     denials: seq<Option<Denial>>, i: nat)
    requires Decided(counts, calls, limit, remaining, denials) && i < |calls|
    ensures var key, before := calls[i].key, set j | 0 <= j < i && calls[..i][j].key == calls[i].key;
      denials[i] == Some(EquivalentLimit) <==> Get(counts, key) + |before| >= limit
    ensures denials[i] == Some(BudgetExceeded) <==>
            && denials[i] != Some(EquivalentLimit)
            && |set j | 0 <= j < |calls| && Eligible(counts, calls, limit, j)| > remaining
  {
    CountKeyIsCount(calls[..i], calls[i].key);
    EligibleIsCount(counts, calls, limit, |calls|);
  }

  // ---- accounts kept by the history ----

  function AllowedIn(denials: seq<Option<Denial>>): (n: nat)
    ensures n <= |denials|
  {
    if denials == [] then 0 else
      AllowedIn(denials[..|denials| - 1]) + if denials[|denials| - 1].None? then 1 else 0
  }

  function AllowedWithKey(calls: seq<ToolCall>, denials: seq<Option<Denial>>, key: CallKey): nat
    requires |calls| == |denials|
  {
    if calls == [] then 0 else
      var n := |calls| - 1;
      AllowedWithKey(calls[..n], denials[..n], key) + if denials[n].None? && calls[n].key == key then 1 else 0
  }

  function Reservations(history: seq<Note>): nat {
    if history == [] then 0 else
      Reservations(history[..|history| - 1]) +
      match history[|history| - 1]
      case Admitted(_, denials) => AllowedIn(denials)
      case DirectStart(_) => 1
      case Acquired => 1
      case _ => 0
  }

  /** Reservations of one key since the last recorded state change. */
  function KeyReservations(history: seq<Note>, key: CallKey): nat {
    if history == [] then 0 else
      var before := KeyReservations(history[..|history| - 1], key);
      match history[|history| - 1]
      case Admitted(calls, denials) => before + if |calls| == |denials| then AllowedWithKey(calls, denials, key) else 0
      case DirectStart(k) => before + if k == key then 1 else 0
      case StateChanged => 0
      case _ => before
  }

  /** Tool executions: claims of admitted calls, direct starts and unkeyed acquisitions. */
  function Executions(history: seq<Note>): nat {
    if history == [] then 0 else
      Executions(history[..|history| - 1]) +
      match history[|history| - 1]
      case Claimed(_) => 1
      case DirectStart(_) => 1
      case Acquired => 1
      case _ => 0
  }

  function Claims(history: seq<Note>, id: Id): nat {
    if history == [] then 0 else
      Claims(history[..|history| - 1], id) + if history[|history| - 1] == Claimed(id) then 1 else 0
  }

  ghost predicate HasBatch(history: seq<Note>) {
    exists i :: 0 <= i < |history| && history[i].Admitted?
  }

  /** No execution bypasses the admissions once a batch has been decided. */
  ghost predicate NoBypass(history: seq<Note>) {
    forall i, j :: 0 <= i < j < |history| && history[i].Admitted? ==> !history[j].DirectStart?
  }

  function AllowedIds(admitted: map<Id, Admission>): set<Id> {
    set id | id in admitted && admitted[id].denial.None?
  }

  function StartedIds(admitted: map<Id, Admission>): set<Id> {
    set id | id in admitted && admitted[id].started
  }

  /** The counters say exactly what the history says. */
  ghost predicate Accounts(history: seq<Note>, limit: nat, toolCalls: nat, counts: map<CallKey, nat>,
                           admitted: map<Id, Admission>, hasBatch: bool) {
    && toolCalls == Reservations(history)
    && (forall key :: Get(counts, key) == KeyReservations(history, key) <= limit)
    && (forall id :: Claims(history, id) == if id in admitted && admitted[id].started then 1 else 0)
    && (forall id :: id in admitted && admitted[id].started ==> admitted[id].denial.None?)
    && Executions(history) + |AllowedIds(admitted)| == Reservations(history) + |StartedIds(admitted)|
    && hasBatch == HasBatch(history)
    && NoBypass(history)
  }

  /** Whatever the interleaving: executions never exceed the reservations. */
  lemma ExecutionsAreReserved(history: seq<Note>, limit: nat, toolCalls: nat, counts: map<CallKey, nat>,
                              admitted: map<Id, Admission>, hasBatch: bool)
    requires Accounts(history, limit, toolCalls, counts, admitted, hasBatch)
    ensures Executions(history) <= toolCalls
  {
    SubsetSize(StartedIds(admitted), AllowedIds(admitted));
  }

  lemma UnderLimit(history: seq<Note>, limit: nat, toolCalls: nat, counts: map<CallKey, nat>,
                   admitted: map<Id, Admission>, hasBatch: bool)
    requires Accounts(history, limit, toolCalls, counts, admitted, hasBatch)
    ensures forall key :: Get(counts, key) <= limit
  {
  }

  lemma {:induction false} SubsetSize<T>(a: set<T>, b: set<T>)
    requires a <= b
    ensures |a| <= |b|
  {
    if a != {} {
      var x :| x in a;
      SubsetSize(a - {x}, b - {x});
    }
  }

  // ---- deciding a batch ----

  function Capped(n: nat, limit: nat): nat {
    if n < limit then n else limit
  }

  /** The working copy after a stretch of calls: capped by the limit, and up by what was allowed. */
  ghost predicate Tallied(counts: map<CallKey, nat>, tentative: map<CallKey, nat>, calls: seq<ToolCall>,
                          denials: seq<Option<Denial>>, limit: nat, key: CallKey) {
    && |denials| == |calls|
    && Get(tentative, key) == Get(counts, key) + AllowedWithKey(calls, denials, key)
    && Get(tentative, key) == Capped(Get(counts, key) + CountKey(calls, key), limit)
  }

  lemma TallyStep(counts: map<CallKey, nat>, tentative: map<CallKey, nat>, calls: seq<ToolCall>,
                  denials: seq<Option<Denial>>, limit: nat, call: ToolCall, denial: Option<Denial>, key: CallKey)
    requires Tallied(counts, tentative, calls, denials, limit, key)
    requires denial.None? <==> Get(tentative, call.key) < limit
    ensures var after := if denial.None? then tentative[call.key := Get(tentative, call.key) + 1] else tentative;
      Tallied(counts, after, calls + [call], denials + [denial], limit, key)
  {
    SnocInit(calls, call);
    SnocInit(denials, denial);
  }

  /** What the first pass has settled about the first `n` calls. */
  ghost predicate Marked(counts: map<CallKey, nat>, calls: seq<ToolCall>, limit: nat, n: nat,
                         denials: seq<Option<Denial>>, tentative: map<CallKey, nat>, allowed: nat) {
    && |denials| == n <= |calls|
    && (forall k :: 0 <= k < n ==>
          denials[k] == if Eligible(counts, calls, limit, k) then None else Some(EquivalentLimit))
    && (forall key :: Tallied(counts, tentative, calls[..n], denials, limit, key))
    && allowed == AllowedIn(denials) == EligibleCount(counts, calls, limit, n)
  }

  lemma MarkNext(counts: map<CallKey, nat>, calls: seq<ToolCall>, limit: nat, i: nat, denials: seq<Option<Denial>>,
                 tentative: map<CallKey, nat>, allowed: nat, denial: Option<Denial>)
    requires i < |calls| && Marked(counts, calls, limit, i, denials, tentative, allowed)
    requires denial == if Get(tentative, calls[i].key) >= limit then Some(EquivalentLimit) else None
    ensures var key := calls[i].key;
      Marked(counts, calls, limit, i + 1, denials + [denial],
             if denial.None? then tentative[key := Get(tentative, key) + 1] else tentative,
             if denial.None? then allowed + 1 else allowed)
  {
    hide CountKey, AllowedWithKey;
    var call, before := calls[i], calls[..i];
    assert Tallied(counts, tentative, before, denials, limit, call.key);
    var moved := if denial.None? then tentative[call.key := Get(tentative, call.key) + 1] else tentative;
    forall key
      ensures Tallied(counts, moved, before + [call], denials + [denial], limit, key)
    {
      TallyStep(counts, tentative, before, denials, limit, call, denial, key);
    }
    assert calls[..i + 1] == before + [call];
    SnocInit(denials, denial);
  }

  lemma NothingMarked(counts: map<CallKey, nat>, calls: seq<ToolCall>, limit: nat)
    requires forall key :: Get(counts, key) <= limit
    ensures Marked(counts, calls, limit, 0, [], counts, 0)
  {
  }

  lemma AllMarked(counts: map<CallKey, nat>, calls: seq<ToolCall>, limit: nat, denials: seq<Option<Denial>>,
                  tentative: map<CallKey, nat>, allowed: nat)
    requires Marked(counts, calls, limit, |calls|, denials, tentative, allowed)
    ensures forall key :: Get(tentative, key) == Get(counts, key) + AllowedWithKey(calls, denials, key) <= limit
  {
    assert calls[..|calls|] == calls;
    forall key
      ensures Get(tentative, key) == Get(counts, key) + AllowedWithKey(calls, denials, key) <= limit
    {
      assert Tallied(counts, tentative, calls, denials, limit, key);
    }
  }

  /** First pass: source order, on a copy of the counters. */
  method MarkEligible(counts: map<CallKey, nat>, calls: seq<ToolCall>, limit: nat)
    returns (denials: seq<Option<Denial>>, tentative: map<CallKey, nat>, allowed: nat)
    requires forall key :: Get(counts, key) <= limit
    ensures |denials| == |calls|
    ensures forall i :: 0 <= i < |calls| ==>
      denials[i] == if Eligible(counts, calls, limit, i) then None else Some(EquivalentLimit)
    ensures forall key :: Get(tentative, key) == Get(counts, key) + AllowedWithKey(calls, denials, key) <= limit
    ensures allowed == AllowedIn(denials) == EligibleCount(counts, calls, limit, |calls|)
  {
    denials, tentative, allowed := [], counts, 0;
    NothingMarked(counts, calls, limit);
    for i := 0 to |calls|
      invariant Marked(counts, calls, limit, i, denials, tentative, allowed)
    {
      hide Marked;
      var call := calls[i];
      var denial := if Get(tentative, call.key) >= limit then Some(EquivalentLimit) else None;
      MarkNext(counts, calls, limit, i, denials, tentative, allowed, denial);
      if denial.None? {
        tentative := tentative[call.key := Get(tentative, call.key) + 1];
        allowed := allowed + 1;
      }
      denials := denials + [denial];
    }
    AllMarked(counts, calls, limit, denials, tentative, allowed);
  }

  /** Second pass: the calls that would be allowed fit together, or none of them is. */
  method DecideBatch(counts: map<CallKey, nat>, calls: seq<ToolCall>, limit: nat, remaining: nat)
    returns (denials: seq<Option<Denial>>, counts': map<CallKey, nat>)
    requires forall key :: Get(counts, key) <= limit
    ensures Decided(counts, calls, limit, remaining, denials)
    ensures forall key :: Get(counts', key) == Get(counts, key) + AllowedWithKey(calls, denials, key) <= limit
    ensures AllowedIn(denials) <= remaining
    ensures AllowedIn(denials) == 0 || AllowedIn(denials) == EligibleCount(counts, calls, limit, |calls|)
  {
    var tentative, allowed;
    denials, tentative, allowed := MarkEligible(counts, calls, limit);
    if allowed <= remaining {
      counts' := tentative;
      return;
    }
    counts' := counts;
    for i := 0 to |calls|
      invariant |denials| == |calls|
      invariant forall k :: 0 <= k < i ==>
                denials[k] == Some(if Eligible(counts, calls, limit, k) then BudgetExceeded else EquivalentLimit)
      invariant forall k :: i <= k < |calls| ==>
        denials[k] == if Eligible(counts, calls, limit, k) then None else Some(EquivalentLimit)
    {
      if denials[i].None? {
        denials := denials[i := Some(BudgetExceeded)];
      }
    }
    NoneAllowed(calls, denials);
  }

  lemma {:induction false} NoneAllowed(calls: seq<ToolCall>, denials: seq<Option<Denial>>)
    requires |denials| == |calls| && forall i :: 0 <= i < |denials| ==> denials[i].Some?
    ensures AllowedIn(denials) == 0 && forall key :: AllowedWithKey(calls, denials, key) == 0
  {
    if calls != [] {
      NoneAllowed(calls[..|calls| - 1], denials[..|calls| - 1]);
    }
  }

  function Register(admitted: map<Id, Admission>, calls: seq<ToolCall>,
                    denials: seq<Option<Denial>>): map<Id, Admission>
    requires |calls| == |denials|
  {
    if calls == [] then admitted else
      var n := |calls| - 1;
      Register(admitted, calls[..n], denials[..n])[calls[n].id := Admission(calls[n].key, denials[n], false)]
  }

  ghost predicate FreshIds(calls: seq<ToolCall>, admitted: map<Id, Admission>) {
    && (forall i :: 0 <= i < |calls| ==> calls[i].id != Id.Blank && calls[i].id !in admitted)
    && (forall i, j :: 0 <= i < j < |calls| ==> calls[i].id != calls[j].id)
  }

  lemma OffenceIsNotFresh(calls: seq<ToolCall>, admitted: map<Id, Admission>, i: nat)
    requires i < |calls| && Offends(calls, admitted.Keys, i)
    ensures !FreshIds(calls, admitted)
  {
  }

  lemma NoOffenceIsFresh(calls: seq<ToolCall>, admitted: map<Id, Admission>)
    requires forall i :: 0 <= i < |calls| ==> !Offends(calls, admitted.Keys, i)
    ensures FreshIds(calls, admitted)
  {
    forall i | 0 <= i < |calls| ensures calls[i].id != Id.Blank && calls[i].id !in admitted {
      assert !Offends(calls, admitted.Keys, i);
    }
    forall i, j | 0 <= i < j < |calls| ensures calls[i].id != calls[j].id {
      assert !Offends(calls, admitted.Keys, j);
    }
  }

  /** What is registered afterwards: the calls, each with its own decision, and what was before. */
  ghost predicate Adds(before: map<Id, Admission>, calls: seq<ToolCall>, denials: seq<Option<Denial>>,
                       after: map<Id, Admission>) {
    && |denials| == |calls|
    && (forall i :: 0 <= i < |calls| ==>
          calls[i].id in after && after[calls[i].id] == Admission(calls[i].key, denials[i], false))
    && (forall id :: id in before ==> id in after && after[id] == before[id])
    && (forall id :: id in after ==> id in before || id in CallIds(calls))
  }

  /** Registering a batch adds exactly its calls, each with its own decision. */
  lemma {:induction false} Registered(admitted: map<Id, Admission>, calls: seq<ToolCall>, denials: seq<Option<Denial>>)
    requires |calls| == |denials| && FreshIds(calls, admitted)
    ensures var after := Register(admitted, calls, denials);
      Adds(admitted, calls, denials, after)
  {
    if calls != [] {
      var n := |calls| - 1;
      Registered(admitted, calls[..n], denials[..n]);
      InitLast(calls);
      assert forall id :: id in CallIds(calls) <==> id in CallIds(calls[..n]) || id == calls[n].id;
    }
  }

  lemma AddOne(admitted: map<Id, Admission>, id: Id, a: Admission)
    requires id !in admitted && !a.started
    ensures StartedIds(admitted[id := a]) == StartedIds(admitted)
    ensures |AllowedIds(admitted[id := a])| == |AllowedIds(admitted)| + if a.denial.None? then 1 else 0
  {
    var after := admitted[id := a];
    assert id !in AllowedIds(admitted) && id !in StartedIds(admitted);
    forall x
      ensures x in StartedIds(after) <==> x in StartedIds(admitted)
      ensures x in AllowedIds(after) <==> x in AllowedIds(admitted) || (x == id && a.denial.None?)
    {
    }
    assert StartedIds(after) == StartedIds(admitted);
    if a.denial.None? {
      assert AllowedIds(after) == AllowedIds(admitted) + {id};
    } else {
      assert AllowedIds(after) == AllowedIds(admitted);
    }
  }

  lemma {:induction false} RegisteredSizes(admitted: map<Id, Admission>, calls: seq<ToolCall>,
                                           denials: seq<Option<Denial>>)
    requires |calls| == |denials| && FreshIds(calls, admitted)
    ensures StartedIds(Register(admitted, calls, denials)) == StartedIds(admitted)
    ensures |AllowedIds(Register(admitted, calls, denials))| == |AllowedIds(admitted)| + AllowedIn(denials)
  {
    if calls != [] {
      hide StartedIds, AllowedIds;
      var n := |calls| - 1;
      RegisteredSizes(admitted, calls[..n], denials[..n]);
      Registered(admitted, calls[..n], denials[..n]);
      AddOne(Register(admitted, calls[..n], denials[..n]), calls[n].id, Admission(calls[n].key, denials[n], false));
    }
  }

  // ---- one call at a time ----

  lemma NoteOrder(history: seq<Note>, note: Note)
    ensures HasBatch(history + [note]) <==> HasBatch(history) || note.Admitted?
    ensures NoBypass(history + [note]) <==> NoBypass(history) && !(note.DirectStart? && HasBatch(history))
  {
    var after := history + [note];
    assert forall i :: 0 <= i < |history| ==> after[i] == history[i];
    assert after[|history|] == note;
  }

  lemma NoteBatch(history: seq<Note>, limit: nat, toolCalls: nat, counts: map<CallKey, nat>,
                  admitted: map<Id, Admission>, hasBatch: bool, calls: seq<ToolCall>, denials: seq<Option<Denial>>,
                  counts': map<CallKey, nat>)
    requires Accounts(history, limit, toolCalls, counts, admitted, hasBatch)
    requires |calls| == |denials| && FreshIds(calls, admitted)
    requires forall key :: Get(counts', key) == Get(counts, key) + AllowedWithKey(calls, denials, key) <= limit
    ensures Accounts(history + [Admitted(calls, denials)], limit, toolCalls + AllowedIn(denials), counts',
                     Register(admitted, calls, denials), true)
  {
    NoteOrder(history, Admitted(calls, denials));
    SnocInit(history, Admitted(calls, denials));
    Registered(admitted, calls, denials);
    RegisteredSizes(admitted, calls, denials);
    var after := Register(admitted, calls, denials);
    forall id
      ensures id in StartedIds(after) <==> id in StartedIds(admitted)
    {
    }
    assert forall id :: id in after && after[id].started <==> id in StartedIds(after);
    assert forall id :: id in admitted && admitted[id].started <==> id in StartedIds(admitted);
  }

  lemma NoteClaim(history: seq<Note>, limit: nat, toolCalls: nat, counts: map<CallKey, nat>,
                  admitted: map<Id, Admission>, hasBatch: bool, id: Id)
    requires Accounts(history, limit, toolCalls, counts, admitted, hasBatch)
    requires id in admitted && !admitted[id].started && admitted[id].denial.None?
    ensures Accounts(history + [Claimed(id)], limit, toolCalls, counts,
                     admitted[id := admitted[id].(started := true)], hasBatch)
  {
    NoteOrder(history, Claimed(id));
    SnocInit(history, Claimed(id));
    var after := admitted[id := admitted[id].(started := true)];
    forall x
      ensures Claims(history + [Claimed(id)], x) == if x in after && after[x].started then 1 else 0
    {
      assert Claims(history, x) == if x in admitted && admitted[x].started then 1 else 0;
    }
    assert AllowedIds(after) == AllowedIds(admitted);
    assert StartedIds(after) == StartedIds(admitted) + {id} && id !in StartedIds(admitted);
    assert forall x :: x in after && after[x].started ==> after[x].denial.None?;
    assert |StartedIds(after)| == |StartedIds(admitted)| + 1;
    var h := history + [Claimed(id)];
    assert Executions(h) == Executions(history) + 1;
    assert Reservations(h) == Reservations(history);
    assert forall key :: KeyReservations(h, key) == KeyReservations(history, key);
  }

  lemma NoteDirect(history: seq<Note>, limit: nat, toolCalls: nat, counts: map<CallKey, nat>,
                   admitted: map<Id, Admission>, key: CallKey)
    requires Accounts(history, limit, toolCalls, counts, admitted, false) && Get(counts, key) < limit
    ensures Accounts(history + [DirectStart(key)], limit, toolCalls + 1, counts[key := Get(counts, key) + 1],
                     admitted, false)
  {
    NoteOrder(history, DirectStart(key));
    SnocInit(history, DirectStart(key));
    var after := counts[key := Get(counts, key) + 1];
    forall k
      ensures Get(after, k) == KeyReservations(history + [DirectStart(key)], k) <= limit
    {
      assert Get(counts, k) == KeyReservations(history, k) <= limit;
    }
  }

  lemma NoteOther(history: seq<Note>, limit: nat, toolCalls: nat, counts: map<CallKey, nat>,
                  admitted: map<Id, Admission>, hasBatch: bool)
    requires Accounts(history, limit, toolCalls, counts, admitted, hasBatch)
    ensures Accounts(history + [Acquired], limit, toolCalls + 1, counts, admitted, hasBatch)
    ensures Accounts(history + [StateChanged], limit, toolCalls, map[], admitted, hasBatch)
  {
    NoteOrder(history, Acquired);
    SnocInit(history, Acquired);
    NoteOrder(history, StateChanged);
    SnocInit(history, StateChanged);
  }

  // ---- the budget ----

  class TurnBudget {
    const maxModelSteps: nat
    const maxToolCalls: nat
    const maxEquivalent: nat
    var modelSteps: nat
    var finalResponseAcquired: bool
    var toolCalls: nat
    var equivalent: map<CallKey, nat>
    var admitted: map<Id, Admission>
    var hasBatchAdmissions: bool
    ghost var history: seq<Note>

    ghost predicate Valid()
      reads this
    {
      && Accounts(history, maxEquivalent, toolCalls, equivalent, admitted, hasBatchAdmissions)
      && toolCalls <= maxToolCalls
      && modelSteps <= maxModelSteps
      && Id.Blank !in admitted
    }

    /** Nothing but the tool half of the state may change. */
    twostate predicate StepsUnchanged()
      reads this
    {
      modelSteps == old(modelSteps) && finalResponseAcquired == old(finalResponseAcquired)
    }

    twostate predicate Unchanged()
      reads this
    {
      && StepsUnchanged()
      && toolCalls == old(toolCalls) && equivalent == old(equivalent) && admitted == old(admitted)
      && hasBatchAdmissions == old(hasBatchAdmissions) && history == old(history)
    }

    constructor (maxModelSteps: nat, maxToolCalls: nat, maxEquivalent: nat)
      ensures Valid() && history == [] && toolCalls == 0
      ensures this.maxToolCalls == maxToolCalls && this.maxEquivalent == maxEquivalent
              && this.maxModelSteps == maxModelSteps
    {
      this.maxModelSteps, this.maxToolCalls, this.maxEquivalent := maxModelSteps, maxToolCalls, maxEquivalent;
      modelSteps, finalResponseAcquired, toolCalls := 0, false, 0;
      equivalent, admitted, hasBatchAdmissions, history := map[], map[], false, [];
      new;
      assert StartedIds(admitted) == {} == AllowedIds(admitted);
    }

    /** Exact and all-or-nothing: an id error changes nothing; otherwise every call is registered
        with its decision and the counters rise by exactly what was allowed. */
    method AdmitToolBatch(calls: seq<ToolCall>) returns (r: Result<seq<Option<Denial>>, AdmitError>)
      requires Valid()
      modifies this
      ensures Valid() && StepsUnchanged()
      ensures r.Ok? <==> FreshIds(calls, old(admitted))
      ensures r.Err? ==> Unchanged() && exists i: nat :: FirstOffence(calls, old(admitted.Keys), i)
                                                    && (r.error.IdRequired? <==> calls[i].id == Id.Blank)
      ensures calls == [] ==> r == Ok([]) && Unchanged()
      ensures r.Ok? && calls != [] ==>
        && Decided(old(equivalent), calls, maxEquivalent, maxToolCalls - old(toolCalls), r.value)
        && toolCalls == old(toolCalls) + AllowedIn(r.value)
        && (forall key :: Get(equivalent, key) == Get(old(equivalent), key) + AllowedWithKey(calls, r.value, key))
        && Adds(old(admitted), calls, r.value, admitted)
        && hasBatchAdmissions && history == old(history) + [Admitted(calls, r.value)]
    {
      hide Accounts;
      if calls == [] {
        return Ok([]);
      }
      var idError := CheckIds(calls);
      if idError.Some? {
        return Err(idError.value);
      }
      UnderLimit(history, maxEquivalent, toolCalls, equivalent, admitted, hasBatchAdmissions);
      var denials, counts := DecideBatch(equivalent, calls, maxEquivalent, maxToolCalls - toolCalls);
      InstallBatch(calls, denials, counts);
      r := Ok(denials);
    }

    method InstallBatch(calls: seq<ToolCall>, denials: seq<Option<Denial>>, counts: map<CallKey, nat>)
      requires Valid() && |denials| == |calls| && FreshIds(calls, admitted)
               && AllowedIn(denials) <= maxToolCalls - toolCalls
      requires forall key ::
        Get(counts, key) == Get(equivalent, key) + AllowedWithKey(calls, denials, key) <= maxEquivalent
      modifies this
      ensures Valid() && StepsUnchanged()
      ensures toolCalls == old(toolCalls) + AllowedIn(denials) && equivalent == counts
      ensures admitted == Register(old(admitted), calls, denials) && Adds(old(admitted), calls, denials, admitted)
      ensures hasBatchAdmissions && history == old(history) + [Admitted(calls, denials)]
    {
      hide Accounts;
      NoteBatch(history, maxEquivalent, toolCalls, equivalent, admitted, hasBatchAdmissions, calls, denials, counts);
      Registered(admitted, calls, denials);
      toolCalls, equivalent := toolCalls + AllowedIn(denials), counts;
      history := history + [Admitted(calls, denials)];
      RegisterCalls(calls, denials);
      hasBatchAdmissions := true;
    }

    method RegisterCalls(calls: seq<ToolCall>, denials: seq<Option<Denial>>)
      requires |calls| == |denials|
      modifies this`admitted
      ensures admitted == Register(old(admitted), calls, denials)
    {
      for i := 0 to |calls|
        invariant admitted == Register(old(admitted), calls[..i], denials[..i])
      {
        assert calls[..i + 1][..i] == calls[..i] && denials[..i + 1][..i] == denials[..i];
        admitted := admitted[calls[i].id := Admission(calls[i].key, denials[i], false)];
      }
      assert calls[..|calls|] == calls && denials[..|calls|] == denials;
    }

    method CheckIds(calls: seq<ToolCall>) returns (e: Option<AdmitError>)
      ensures e.None? <==> FreshIds(calls, admitted)
      ensures e.Some? ==> exists i: nat :: FirstOffence(calls, admitted.Keys, i)
                                      && (e.value.IdRequired? <==> calls[i].id == Id.Blank)
    {
      var seen: set<Id> := {};
      for i := 0 to |calls|
        invariant forall j :: 0 <= j < i ==> !Offends(calls, admitted.Keys, j)
        invariant forall id :: id in seen <==> exists j :: 0 <= j < i && calls[j].id == id
      {
        var id := calls[i].id;
        if id == Id.Blank {
          OffenceIsNotFresh(calls, admitted, i);
          assert FirstOffence(calls, admitted.Keys, i);
          return Some(IdRequired);
        }
        if id in seen || id in admitted {
          OffenceIsNotFresh(calls, admitted, i);
          assert FirstOffence(calls, admitted.Keys, i);
          return Some(AlreadyAdmitted);
        }
        seen := seen + {id};
      }
      NoOffenceIsFresh(calls, admitted);
      e := None;
    }

    /** An admitted call is claimed once, by the same invocation, without a second reservation.
        Once a batch has been admitted every other start is refused. */
    method StartToolCall(call: ToolCall) returns (r: Result<(), StartError>)
      requires Valid()
      modifies this
      ensures Valid() && StepsUnchanged()
      ensures call.id in old(admitted) ==> var a := old(admitted)[call.id];
        && r == (if a.key != call.key then Err(Mismatch)
                 else if a.denial.Some? then Err(Denied(a.denial.value))
                 else if a.started then Err(AlreadyStarted) else Ok(()))
        && toolCalls == old(toolCalls) && equivalent == old(equivalent)
        && (r.Ok? ==>
            admitted == old(admitted)[call.id := a.(started := true)] && history == old(history) + [Claimed(call.id)])
      ensures call.id !in old(admitted) ==>
        && r == (if old(hasBatchAdmissions) then Err(NotAdmitted)
                 else if old(toolCalls) >= maxToolCalls then Err(Denied(BudgetExceeded))
                 else if Get(old(equivalent), call.key) >= maxEquivalent then Err(Denied(EquivalentLimit)) else Ok(()))
        && admitted == old(admitted)
        && (r.Ok? ==> toolCalls == old(toolCalls) + 1 && history == old(history) + [DirectStart(call.key)]
                      && equivalent == old(equivalent)[call.key := Get(old(equivalent), call.key) + 1])
      ensures r.Err? ==> Unchanged()
    {
      hide Accounts;
      if call.id in admitted {
        var a := admitted[call.id];
        if a.key != call.key {
          return Err(Mismatch);
        }
        if a.denial.Some? {
          return Err(Denied(a.denial.value));
        }
        if a.started {
          return Err(AlreadyStarted);
        }
        NoteClaim(history, maxEquivalent, toolCalls, equivalent, admitted, hasBatchAdmissions, call.id);
        admitted := admitted[call.id := a.(started := true)];
        history := history + [Claimed(call.id)];
        return Ok(());
      }
      if hasBatchAdmissions {
        return Err(NotAdmitted);
      }
      if toolCalls >= maxToolCalls {
        return Err(Denied(BudgetExceeded));
      }
      if Get(equivalent, call.key) >= maxEquivalent {
        return Err(Denied(EquivalentLimit));
      }
      NoteDirect(history, maxEquivalent, toolCalls, equivalent, admitted, call.key);
      toolCalls, equivalent := toolCalls + 1, equivalent[call.key := Get(equivalent, call.key) + 1];
      history := history + [DirectStart(call.key)];
      r := Ok(());
    }

    method AcquireToolCall() returns (ok: bool)
      requires Valid()
      modifies this
      ensures Valid() && StepsUnchanged()
      ensures ok == (old(toolCalls) < maxToolCalls)
      ensures toolCalls == old(toolCalls) + (if ok then 1 else 0) && equivalent == old(equivalent)
              && admitted == old(admitted)
      ensures history == if ok then old(history) + [Acquired] else old(history)
    {
      hide Accounts;
      if toolCalls >= maxToolCalls {
        return false;
      }
      NoteOther(history, maxEquivalent, toolCalls, equivalent, admitted, hasBatchAdmissions);
      toolCalls, history := toolCalls + 1, history + [Acquired];
      ok := true;
    }

    /** Forgets the equivalent-call counters, but no admission. */
    method MarkStateChanged()
      requires Valid()
      modifies this
      ensures Valid() && StepsUnchanged()
      ensures toolCalls == old(toolCalls) && admitted == old(admitted) && hasBatchAdmissions == old(hasBatchAdmissions)
      ensures equivalent == map[] && history == old(history) + [StateChanged]
    {
      hide Accounts;
      NoteOther(history, maxEquivalent, toolCalls, equivalent, admitted, hasBatchAdmissions);
      equivalent, history := map[], history + [StateChanged];
    }

    method AcquireModelStep() returns (ok: bool)
      requires Valid()
      modifies this`modelSteps
      ensures Valid()
      ensures ok == (old(modelSteps) < maxModelSteps) && modelSteps == old(modelSteps) + if ok then 1 else 0
    {
      if modelSteps >= maxModelSteps {
        return false;
      }
      modelSteps := modelSteps + 1;
      ok := true;
    }

    /** The one reserved final response. */
    method AcquireFinalResponse() returns (ok: bool)
      requires Valid()
      modifies this`finalResponseAcquired
      ensures Valid()
      ensures ok == !old(finalResponseAcquired) && finalResponseAcquired
    {
      ok := !finalResponseAcquired;
      finalResponseAcquired := true;
    }
  }

  /** The account of a whole turn, whatever the interleaving of its calls. */
  lemma TurnIsBounded(b: TurnBudget)
    requires b.Valid()
    ensures Executions(b.history) <= Reservations(b.history) == b.toolCalls <= b.maxToolCalls
    ensures forall key :: KeyReservations(b.history, key) <= b.maxEquivalent
    ensures forall id :: Claims(b.history, id) <= 1
    ensures NoBypass(b.history)
  {
    ExecutionsAreReserved(b.history, b.maxEquivalent, b.toolCalls, b.equivalent, b.admitted, b.hasBatchAdmissions);
  }
}
