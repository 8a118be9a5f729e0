/** One tool batch of the ReAct loop (`internal/agent/react.go`): the budget decides, refused calls
    are answered in place, the others go to the tools node, and the recorder bounds what is shown. */
module ReActBatch {
  import opened Ids
  import opened Messages
  import opened ToolPairs
  import opened Previews
  import opened TurnBudgets
  import opened TurnRecorders

  /** Why a call is answered without being run. */
  datatype Refusal = Sequential | UnknownTool | OverBudget(denial: Denial)

  datatype Decision = Permitted | Refused(why: Refusal)

  datatype BatchError =
    | InvalidArguments | ContextEnded | AdmissionRefused(error: AdmitError) | IncompleteBatch | OversizedBatch
    | ToolsFailed | RecorderFailed

  /** What tools may do to the budget while they run. */
  datatype BudgetUse = UseStart(call: ToolCall) | UseAcquire | UseStateChanged

  datatype NodeRun = NodeRun(events: seq<ToolEvent>, uses: seq<BudgetUse>, results: Option<seq<Message>>)

  /** The registered tools, the node that runs them, and how refusals and previews read. */
  datatype Tools = Tools(
    executable: string -> bool, control: string -> bool, key: Call -> Option<CallKey>,
    refusal: (Call, Refusal) -> string,
    contextOk: nat -> bool, invoke: (nat, seq<Call>) -> NodeRun, render: (Id, Preview) -> string,
    refusalStorage: (nat, nat) -> Storage, nodeStorage: (nat, nat) -> Storage)
  {
    /** A tools node that answers the calls it is given, in call order. */
    ghost predicate AnswersInOrder() {
      forall k, calls :: invoke(k, calls).results.Some? ==> Answers(invoke(k, calls).results.value, calls)
    }

    /** A tools node that, when it answers, has reported the start and the end of every call it was
        given. Calls without an id never get this far. */
    ghost predicate ReportsCalls() {
      forall k, calls ::
        HaveIds(calls) && invoke(k, calls).results.Some? ==> Reports(invoke(k, calls).events, calls)
    }
  }

  ghost predicate HaveIds(calls: seq<Call>) {
    forall i :: 0 <= i < |calls| ==> calls[i].id != Id.Blank
  }

  ghost predicate Reports(events: seq<ToolEvent>, calls: seq<Call>) {
    && multiset(IdsOf(calls)) <= multiset(StartIds(events))
    && forall i :: 0 <= i < |calls| ==> calls[i].id in EndIds(events)
  }

  function IdsOf(calls: seq<Call>): (ids: seq<Id>)
    ensures |ids| == |calls| && forall i :: 0 <= i < |calls| ==> ids[i] == calls[i].id
  {
    if calls == [] then [] else IdsOf(calls[..|calls| - 1]) + [calls[|calls| - 1].id]
  }

  // ---- the decisions ----

  /** The executable calls, as the budget sees them. */
  function Requested(t: Tools, calls: seq<Call>): (requested: seq<ToolCall>)
    ensures |requested| <= |calls|
  {
    if calls == [] then [] else
      var c := calls[|calls| - 1];
      Requested(t, calls[..|calls| - 1])
        + if t.executable(c.name) then [ToolCall(c.id, if t.key(c).Some? then t.key(c).value else 0)] else []
  }

  /** Plan updates do not share a batch with other calls. */
  predicate Mixed(t: Tools, calls: seq<Call>) {
    |calls| > 1 && exists i :: 0 <= i < |calls| && t.control(calls[i].name)
  }

  /** Unknown tools are refused, and executable ones exactly when the budget refused them. */
  function Decide(t: Tools, calls: seq<Call>, denials: seq<Option<Denial>>): (decisions: seq<Decision>)
    requires |Requested(t, calls)| <= |denials|
    ensures |decisions| == |calls|
  {
    if calls == [] then [] else
      var rest, c := calls[..|calls| - 1], calls[|calls| - 1];
      Decide(t, rest, denials) +
        [if !t.executable(c.name) then Refused(UnknownTool)
         else if denials[|Requested(t, rest)|].Some? then Refused(OverBudget(denials[|Requested(t, rest)|].value))
         else Permitted]
  }

  function AllSequential(calls: seq<Call>): (decisions: seq<Decision>)
    ensures |decisions| == |calls| && forall i :: 0 <= i < |calls| ==> decisions[i] == Refused(Sequential)
  {
    if calls == [] then [] else AllSequential(calls[..|calls| - 1]) + [Refused(Sequential)]
  }

  /** As many calls reach the tools node as the budget has reserved for. */
  lemma {:induction false} PermittedAreReserved(t: Tools, calls: seq<Call>, denials: seq<Option<Denial>>)
    requires |Requested(t, calls)| <= |denials|
    ensures |PermittedCalls(calls, Decide(t, calls, denials))| == AllowedIn(denials[..|Requested(t, calls)|])
  {
    if calls != [] {
      var n := |calls| - 1;
      var k := |Requested(t, calls[..n])|;
      PermittedAreReserved(t, calls[..n], denials);
      assert Decide(t, calls, denials)[..n] == Decide(t, calls[..n], denials);
      if t.executable(calls[n].name) {
        assert denials[..k + 1][..k] == denials[..k];
      }
    }
  }

  lemma {:induction false} NonePermitted(calls: seq<Call>, decisions: seq<Decision>)
    requires |decisions| == |calls| && forall i :: 0 <= i < |calls| ==> decisions[i].Refused?
    ensures PermittedCalls(calls, decisions) == []
  {
    if calls != [] {
      NonePermitted(calls[..|calls| - 1], decisions[..|calls| - 1]);
    }
  }

  /** Call by call: an unknown tool is refused as such, any other call as the budget says about it. */
  ghost predicate Follows(t: Tools, calls: seq<Call>, denials: seq<Option<Denial>>, decisions: seq<Decision>) {
    && |decisions| == |calls| && |denials| == |Requested(t, calls)|
    && forall i :: 0 <= i < |calls| ==>
      var k := |Requested(t, calls[..i])|;
      if !t.executable(calls[i].name) then decisions[i] == Refused(UnknownTool)
      else
        && k < |denials| && Requested(t, calls)[k].id == calls[i].id
        && decisions[i] == if denials[k].Some? then Refused(OverBudget(denials[k].value)) else Permitted
  }

  lemma {:induction false} DecideFollows(t: Tools, calls: seq<Call>, denials: seq<Option<Denial>>)
    requires |denials| == |Requested(t, calls)|
    ensures Follows(t, calls, denials, Decide(t, calls, denials))
  {
    forall i | 0 <= i < |calls|
      ensures t.executable(calls[i].name) ==>
                |Requested(t, calls[..i])| < |denials|
                && Requested(t, calls)[|Requested(t, calls[..i])|].id == calls[i].id
      ensures Decide(t, calls, denials)[i] ==
              if !t.executable(calls[i].name) then Refused(UnknownTool)
              else if denials[|Requested(t, calls[..i])|].Some?
                then Refused(OverBudget(denials[|Requested(t, calls[..i])|].value))
              else Permitted
    {
      DecideAt(t, calls, denials, i);
    }
  }

  lemma {:induction false} DecideAt(t: Tools, calls: seq<Call>, denials: seq<Option<Denial>>, i: nat)
    requires |Requested(t, calls)| <= |denials| && i < |calls|
    ensures var k := |Requested(t, calls[..i])|;
      && Requested(t, calls[..i]) <= Requested(t, calls)
      && (t.executable(calls[i].name) ==>
            && k < |Requested(t, calls)| && Requested(t, calls)[k].id == calls[i].id
            && Decide(t, calls, denials)[i] ==
               if denials[k].Some? then Refused(OverBudget(denials[k].value)) else Permitted)
      && (!t.executable(calls[i].name) ==> Decide(t, calls, denials)[i] == Refused(UnknownTool))
  {
    var n := |calls| - 1;
    if i < n {
      DecideAt(t, calls[..n], denials, i);
      assert calls[..n][..i] == calls[..i];
    }
  }

  /** Which calls may run: nothing is left open by the budget's answer. */
  ghost predicate Admits(t: Tools, calls: seq<Call>, decisions: seq<Decision>, before: seq<Note>, after: seq<Note>) {
    if Mixed(t, calls) then
      after == before && |decisions| == |calls| && forall i :: 0 <= i < |calls| ==> decisions[i] == Refused(Sequential)
    else if Requested(t, calls) == [] then Follows(t, calls, [], decisions) && after == before
    else exists denials :: AdmittedAs(t, calls, decisions, before, after, denials)
  }

  ghost predicate AdmittedAs(t: Tools, calls: seq<Call>, decisions: seq<Decision>, before: seq<Note>, after: seq<Note>,
                             denials: seq<Option<Denial>>) {
    Follows(t, calls, denials, decisions) && after == before + [Admitted(Requested(t, calls), denials)]
  }

  /** When a batch gets its decisions at all. */
  ghost predicate Admissible(t: Tools, k: nat, calls: seq<Call>, admitted: map<Id, Admission>) {
    && (forall i :: 0 <= i < |calls| ==> t.key(calls[i]).Some?)
    && (Mixed(t, calls) || Requested(t, calls) == []
        || (t.contextOk(k) && FreshIds(Requested(t, calls), admitted)))
  }

  /** Why a batch ends without results, for the batch error it ends with. */
  ghost predicate Fails(t: Tools, k: nat, calls: seq<Call>, admitted: map<Id, Admission>, failed: bool, e: BatchError) {
    match e
    case InvalidArguments => exists i :: 0 <= i < |calls| && t.key(calls[i]).None?
    case ContextEnded => !t.contextOk(k)
    case AdmissionRefused(_) => !FreshIds(Requested(t, calls), admitted)
    case ToolsFailed => exists permitted :: permitted != [] && t.invoke(k, permitted).results.None?
    case IncompleteBatch => exists permitted :: Returned(t, k, permitted) < |permitted|
    case OversizedBatch => exists permitted :: Returned(t, k, permitted) > |permitted|
    case RecorderFailed => failed
  }

  ghost function Returned(t: Tools, k: nat, permitted: seq<Call>): nat {
    if permitted == [] then 0 else
      var results := t.invoke(k, permitted).results;
      if results.None? then |permitted| else |results.value|
  }

  method CollectRequested(t: Tools, calls: seq<Call>) returns (requested: Option<seq<ToolCall>>)
    ensures requested.Some? <==> forall i :: 0 <= i < |calls| ==> t.key(calls[i]).Some?
    ensures requested.Some? ==> requested.value == Requested(t, calls)
  {
    var collected := [];
    for i := 0 to |calls|
      invariant collected == Requested(t, calls[..i])
      invariant forall k :: 0 <= k < i ==> t.key(calls[k]).Some?
    {
      assert calls[..i + 1][..i] == calls[..i];
      var key := t.key(calls[i]);
      if key.None? {
        return None;
      }
      if t.executable(calls[i].name) {
        collected := collected + [ToolCall(calls[i].id, key.value)];
      }
    }
    assert calls[..|calls|] == calls;
    requested := Some(collected);
  }

  method IsMixed(t: Tools, calls: seq<Call>) returns (mixed: bool)
    ensures mixed == Mixed(t, calls)
  {
    if |calls| <= 1 {
      return false;
    }
    for i := 0 to |calls|
      invariant forall k :: 0 <= k < i ==> !t.control(calls[k].name)
    {
      if t.control(calls[i].name) {
        return true;
      }
    }
    mixed := false;
  }

  /** A refused call is one the budget refuses, an unknown tool, or part of a mixed batch; a call
      that may run has its slot reserved. */
  method AdmitBatch(t: Tools, k: nat, calls: seq<Call>, budget: TurnBudget)
    returns (r: Result<seq<Decision>, BatchError>)
    requires budget.Valid()
    modifies budget
    ensures budget.Valid() && budget.StepsUnchanged()
    ensures r.Ok? <==> Admissible(t, k, calls, old(budget.admitted))
    ensures r.Err? ==> budget.Unchanged() && Fails(t, k, calls, old(budget.admitted), false, r.error)
    ensures r.Ok? ==> |r.value| == |calls| && Admits(t, calls, r.value, old(budget.history), budget.history)
    ensures r.Ok? ==> budget.toolCalls == old(budget.toolCalls) + |PermittedCalls(calls, r.value)|
  {
    hide Accounts, Decide, Requested, PermittedCalls, AllSequential, Follows, FreshIds, Adds;
    var requested := CollectRequested(t, calls);
    if requested.None? {
      return Err(InvalidArguments);
    }
    var mixed := IsMixed(t, calls);
    if mixed {
      NonePermitted(calls, AllSequential(calls));
      return Ok(AllSequential(calls));
    }
    if requested.value == [] {
      DecideFollows(t, calls, []);
      PermittedAreReserved(t, calls, []);
      NothingAllowed();
      return Ok(Decide(t, calls, []));
    }
    if !t.contextOk(k) {
      return Err(ContextEnded);
    }
    var denials := budget.AdmitToolBatch(requested.value);
    if denials.Err? {
      return Err(AdmissionRefused(denials.error));
    }
    assert denials.value[..|denials.value|] == denials.value;
    PermittedAreReserved(t, calls, denials.value);
    DecideFollows(t, calls, denials.value);
    assert AdmittedAs(t, calls, Decide(t, calls, denials.value), old(budget.history), budget.history, denials.value);
    r := Ok(Decide(t, calls, denials.value));
  }

  lemma NothingAllowed()
    ensures forall d: seq<Option<Denial>> :: d == [] ==> AllowedIn(d) == 0
  {
  }

  // ---- merging ----

  function PermittedCalls(calls: seq<Call>, decisions: seq<Decision>): seq<Call>
    requires |decisions| == |calls|
  {
    if calls == [] then [] else
      var n := |calls| - 1;
      PermittedCalls(calls[..n], decisions[..n]) + if decisions[n].Permitted? then [calls[n]] else []
  }

  /** Result `i` is its refusal, or the next result of the tools node. */
  ghost predicate Merged(text: (Call, Refusal) -> string, calls: seq<Call>, decisions: seq<Decision>,
                         permitted: seq<Message>, results: seq<Message>)
    requires |decisions| == |calls|
  {
    && |results| == |calls|
    && forall i :: 0 <= i < |calls| ==>
      match decisions[i]
      case Refused(why) => results[i] == Message.Tool(calls[i].id, text(calls[i], why))
      case Permitted =>
        var k := |PermittedCalls(calls[..i], decisions[..i])|;
        k < |permitted| && results[i] == permitted[k]
  }

  lemma MergedSnoc(text: (Call, Refusal) -> string, calls: seq<Call>, decisions: seq<Decision>, permitted: seq<Message>,
                   results: seq<Message>, call: Call, decision: Decision, result: Message)
    requires |decisions| == |calls| && Merged(text, calls, decisions, permitted, results)
    requires
      match decision
      case Refused(why) => result == Message.Tool(call.id, text(call, why))
      case Permitted =>
        var k := |PermittedCalls(calls, decisions)|;
        k < |permitted| && result == permitted[k]
    ensures Merged(text, calls + [call], decisions + [decision], permitted, results + [result])
    ensures |PermittedCalls(calls + [call], decisions + [decision])| ==
            |PermittedCalls(calls, decisions)| + if decision.Permitted? then 1 else 0
  {
    SnocInit(calls, call);
    SnocInit(decisions, decision);
    var n := |calls|;
    forall k | 0 <= k <= n
      ensures (calls + [call])[..k] == calls[..k] && (decisions + [decision])[..k] == decisions[..k]
    {
    }
    assert calls[..n] == calls && decisions[..n] == decisions;
  }

  method MergeResults(text: (Call, Refusal) -> string, calls: seq<Call>, decisions: seq<Decision>,
                      permitted: seq<Message>)
    returns (r: Result<seq<Message>, BatchError>)
    requires |decisions| == |calls|
    ensures var n := |PermittedCalls(calls, decisions)|;
      && (r == Err(IncompleteBatch) <==> |permitted| < n)
      && (r == Err(OversizedBatch) <==> |permitted| > n)
      && (r.Ok? <==> |permitted| == n)
    ensures r.Ok? ==> Merged(text, calls, decisions, permitted, r.value)
  {
    hide Merged, PermittedCalls;
    var results: seq<Message>, permittedIndex := [], 0;
    MergedNone(text, permitted);
    for i := 0 to |calls|
      invariant permittedIndex == |PermittedCalls(calls[..i], decisions[..i])| <= |permitted|
      invariant Merged(text, calls[..i], decisions[..i], permitted, results)
    {
      assert calls[..i + 1] == calls[..i] + [calls[i]] && decisions[..i + 1] == decisions[..i] + [decisions[i]];
      if decisions[i].Refused? {
        var refusal := Message.Tool(calls[i].id, text(calls[i], decisions[i].why));
        MergedSnoc(text, calls[..i], decisions[..i], permitted, results, calls[i], decisions[i], refusal);
        results := results + [refusal];
      } else {
        if permittedIndex >= |permitted| {
          OneMorePermitted(calls, decisions, i);
          return Err(IncompleteBatch);
        }
        MergedSnoc(text, calls[..i], decisions[..i], permitted, results, calls[i], decisions[i],
                   permitted[permittedIndex]);
        results := results + [permitted[permittedIndex]];
        permittedIndex := permittedIndex + 1;
      }
    }
    assert calls[..|calls|] == calls && decisions[..|decisions|] == decisions;
    if permittedIndex != |permitted| {
      return Err(OversizedBatch);
    }
    r := Ok(results);
  }

  lemma MergedNone(text: (Call, Refusal) -> string, permitted: seq<Message>)
    ensures PermittedCalls([], []) == [] && Merged(text, [], [], permitted, [])
  {
  }

  lemma OneMorePermitted(calls: seq<Call>, decisions: seq<Decision>, i: nat)
    requires |decisions| == |calls| && i < |calls| && decisions[i].Permitted?
    ensures |PermittedCalls(calls[..i], decisions[..i])| < |PermittedCalls(calls, decisions)|
  {
    PermittedAt(calls, decisions, i);
  }

  lemma {:induction false} PermittedMonotone(calls: seq<Call>, decisions: seq<Decision>, i: nat)
    requires |decisions| == |calls| && i <= |calls|
    ensures PermittedCalls(calls[..i], decisions[..i]) <= PermittedCalls(calls, decisions)
  {
    if i == |calls| {
      assert calls[..i] == calls && decisions[..i] == decisions;
    } else {
      var n := |calls| - 1;
      PermittedMonotone(calls[..n], decisions[..n], i);
      assert calls[..n][..i] == calls[..i] && decisions[..n][..i] == decisions[..i];
    }
  }

  lemma {:induction false} PermittedAt(calls: seq<Call>, decisions: seq<Decision>, i: nat)
    requires |decisions| == |calls| && i < |calls| && decisions[i].Permitted?
    ensures var k := |PermittedCalls(calls[..i], decisions[..i])|;
      k < |PermittedCalls(calls, decisions)| && PermittedCalls(calls, decisions)[k] == calls[i]
  {
    PermittedMonotone(calls, decisions, i + 1);
    assert calls[..i + 1][..i] == calls[..i] && decisions[..i + 1][..i] == decisions[..i];
  }

  /** Re-interleaving: if the node answers its calls in order, the batch answers all calls in order. */
  lemma MergedAnswers(text: (Call, Refusal) -> string, calls: seq<Call>, decisions: seq<Decision>,
                      permitted: seq<Message>, results: seq<Message>)
    requires |decisions| == |calls| && Merged(text, calls, decisions, permitted, results)
    requires Answers(permitted, PermittedCalls(calls, decisions))
    ensures Answers(results, calls)
  {
    forall i | 0 <= i < |results| ensures results[i].Tool? && results[i].callId == calls[i].id {
      if decisions[i].Permitted? {
        PermittedAt(calls, decisions, i);
      }
    }
  }

  /** The durable preview replaces the text of a result, never its place or its call id. */
  function Projected(project: Message -> string, results: seq<Message>): (projected: seq<Message>)
    ensures |projected| == |results|
  {
    if results == [] then [] else
      var last := results[|results| - 1];
      Projected(project, results[..|results| - 1]) +
        [if last.Tool? then Message.Tool(last.callId, project(last)) else last]
  }

  lemma {:induction false} ProjectedAnswers(project: Message -> string, results: seq<Message>, calls: seq<Call>)
    requires Answers(results, calls)
    ensures Answers(Projected(project, results), calls)
  {
    if results != [] {
      var n := |results| - 1;
      assert Answers(results[..n], calls[..n]);
      ProjectedAnswers(project, results[..n], calls[..n]);
    }
  }

  method ProjectResults(project: Message -> string, results: seq<Message>) returns (projected: seq<Message>)
    ensures projected == Projected(project, results)
  {
    projected := [];
    for i := 0 to |results|
      invariant projected == Projected(project, results[..i])
    {
      assert results[..i + 1][..i] == results[..i];
      projected := projected +
        [if results[i].Tool? then Message.Tool(results[i].callId, project(results[i])) else results[i]];
    }
    assert results[..|results|] == results;
  }

  // ---- one batch ----

  /** Ids of the results that have one. */
  function ResultIds(results: seq<Message>): seq<Id> {
    if results == [] then [] else
      var last := results[|results| - 1];
      ResultIds(results[..|results| - 1]) + if last.Tool? && last.callId != Id.Blank then [last.callId] else []
  }

  method CollectResultIds(results: seq<Message>) returns (ids: seq<Id>)
    ensures ids == ResultIds(results)
  {
    ids := [];
    for i := 0 to |results|
      invariant ids == ResultIds(results[..i])
    {
      assert results[..i + 1][..i] == results[..i];
      if results[i].Tool? && results[i].callId != Id.Blank {
        ids := ids + [results[i].callId];
      }
    }
    assert results[..|results|] == results;
  }

  lemma {:induction false} AnswersHaveIds(results: seq<Message>, calls: seq<Call>)
    requires Answers(results, calls) && HaveIds(calls)
    ensures ResultIds(results) == IdsOf(calls)
  {
    if results != [] {
      var n := |results| - 1;
      assert Answers(results[..n], calls[..n]);
      AnswersHaveIds(results[..n], calls[..n]);
    }
  }

  /** What a result says to the model: its preview, where the recorder has one. */
  function View(t: Tools, previews: map<Id, Preview>): Message -> string {
    (m: Message) => if m.Tool? && m.callId in previews then t.render(m.callId, previews[m.callId])
                    else if m.Tool? then m.text else ""
  }

  /** The lifecycle of the refused calls, in call order. */
  function RefusedEvents(t: Tools, calls: seq<Call>, decisions: seq<Decision>): seq<ToolEvent>
    requires |decisions| == |calls|
  {
    if calls == [] then [] else
      var n := |calls| - 1;
      var c := calls[n];
      RefusedEvents(t, calls[..n], decisions[..n])
      + if decisions[n].Refused? then [ToolStart(c.id, c.name), ToolEnd(c.id, c.name, t.refusal(c, decisions[n].why))]
        else []
  }

  lemma StartIdsSnoc(events: seq<ToolEvent>, e: ToolEvent)
    ensures StartIds(events + [e]) == StartIds(events) + if e.ToolStart? && e.id != Id.Blank then [e.id] else []
  {
    SnocInit(events, e);
  }

  lemma RefusedSnoc(t: Tools, calls: seq<Call>, decisions: seq<Decision>)
    requires |decisions| == |calls| > 0 && calls[|calls| - 1].id != Id.Blank
    ensures var n := |calls| - 1;
      var before, after := RefusedEvents(t, calls[..n], decisions[..n]), RefusedEvents(t, calls, decisions);
      && StartIds(after) == StartIds(before) + (if decisions[n].Refused? then [calls[n].id] else [])
      && (forall id :: id in EndIds(before) ==> id in EndIds(after))
      && (decisions[n].Refused? ==> calls[n].id in EndIds(after))
  {
    hide StartIds;
    var n := |calls| - 1;
    var c, before := calls[n], RefusedEvents(t, calls[..n], decisions[..n]);
    if decisions[n].Refused? {
      var start, end := ToolStart(c.id, c.name), ToolEnd(c.id, c.name, t.refusal(c, decisions[n].why));
      StartIdsSnoc(before, start);
      StartIdsSnoc(before + [start], end);
      ConcatAssoc(before, [start], [end]);
      assert [start] + [end] == [start, end];
      assert end in before + [start, end];
    } else {
      assert before + [] == before;
    }
  }

  lemma IdsSnoc(calls: seq<Call>, c: Call)
    ensures IdsOf(calls + [c]) == IdsOf(calls) + [c.id]
  {
    SnocInit(calls, c);
  }

  lemma PermittedSnoc(calls: seq<Call>, decisions: seq<Decision>)
    requires |decisions| == |calls| > 0
    ensures var n := |calls| - 1;
      var before, after := PermittedCalls(calls[..n], decisions[..n]), PermittedCalls(calls, decisions);
      && IdsOf(after) == IdsOf(before) + (if decisions[n].Permitted? then [calls[n].id] else [])
      && (forall c :: c in before ==> c in after) && (decisions[n].Permitted? ==> calls[n] in after)
  {
    hide IdsOf;
    var n := |calls| - 1;
    var before := PermittedCalls(calls[..n], decisions[..n]);
    IdsSnoc(before, calls[n]);
    assert before + [] == before;
  }

  lemma {:induction false} PermittedHaveIds(calls: seq<Call>, decisions: seq<Decision>)
    requires |decisions| == |calls| && HaveIds(calls)
    ensures HaveIds(PermittedCalls(calls, decisions))
  {
    if calls != [] {
      PermittedHaveIds(calls[..|calls| - 1], decisions[..|calls| - 1]);
    }
  }

  /** Every call is either refused and reported here, or handed to the node. */
  lemma {:induction false} EveryCallIsReported(t: Tools, calls: seq<Call>, decisions: seq<Decision>)
    requires |decisions| == |calls| && HaveIds(calls)
    ensures multiset(IdsOf(calls)) ==
            multiset(StartIds(RefusedEvents(t, calls, decisions))) + multiset(IdsOf(PermittedCalls(calls, decisions)))
  {
    hide StartIds, RefusedEvents, PermittedCalls, IdsOf;
    if calls == [] {
      NothingReported(t);
    } else {
      var n := |calls| - 1;
      EveryCallIsReported(t, calls[..n], decisions[..n]);
      RefusedSnoc(t, calls, decisions);
      PermittedSnoc(calls, decisions);
      InitLast(calls);
      IdsSnoc(calls[..n], calls[n]);
      var refused, permitted := StartIds(RefusedEvents(t, calls[..n], decisions[..n])),
        IdsOf(PermittedCalls(calls[..n], decisions[..n]));
      BagSnoc(IdsOf(calls[..n]), refused, permitted, calls[n].id, decisions[n].Refused?);
    }
  }

  lemma BagSnoc(all: seq<Id>, refused: seq<Id>, permitted: seq<Id>, id: Id, isRefused: bool)
    requires multiset(all) == multiset(refused) + multiset(permitted)
    ensures multiset(all + [id]) ==
            multiset(refused + if isRefused then [id] else []) + multiset(permitted + if isRefused then [] else [id])
  {
  }

  lemma {:induction false} EveryCallEnds(t: Tools, calls: seq<Call>, decisions: seq<Decision>, i: nat)
    requires |decisions| == |calls| && i < |calls| && HaveIds(calls)
    ensures calls[i].id in EndIds(RefusedEvents(t, calls, decisions)) || calls[i] in PermittedCalls(calls, decisions)
  {
    hide StartIds, EndIds, RefusedEvents, PermittedCalls, IdsOf;
    var n := |calls| - 1;
    RefusedSnoc(t, calls, decisions);
    PermittedSnoc(calls, decisions);
    if i < n {
      EveryCallEnds(t, calls[..n], decisions[..n], i);
      assert calls[..n][i] == calls[i];
    }
  }

  lemma NothingReported(t: Tools)
    ensures StartIds(RefusedEvents(t, [], [])) == [] && IdsOf(PermittedCalls([], [])) == [] && IdsOf([]) == []
  {
  }

  /** A node that starts, ends and answers every call it is given. */
  function Diligent(t: Tools): (nat, seq<Call>) -> NodeRun {
    (k: nat, calls: seq<Call>) =>
      NodeRun(RefusedEvents(t, calls, AllSequential(calls)), [], Some(Replies(calls)))
  }

  function Replies(calls: seq<Call>): (results: seq<Message>)
    ensures Answers(results, calls)
  {
    seq(|calls|, i requires 0 <= i < |calls| => Message.Tool(calls[i].id, ""))
  }

  /** What is asked of a tools node can be met, by one that never fails. */
  lemma SomeNodeReports(t: Tools)
    ensures var node := t.(invoke := Diligent(t));
      && node.AnswersInOrder() && node.ReportsCalls()
      && forall k, calls :: node.invoke(k, calls).results.Some?
  {
    var node := t.(invoke := Diligent(t));
    hide RefusedEvents, StartIds, PermittedCalls, IdsOf;
    forall k: nat, calls: seq<Call> | HaveIds(calls) ensures Reports(node.invoke(k, calls).events, calls) {
      var decisions := AllSequential(calls);
      NonePermitted(calls, decisions);
      EveryCallIsReported(t, calls, decisions);
      NothingReported(t);
      forall i | 0 <= i < |calls| ensures calls[i].id in EndIds(node.invoke(k, calls).events) {
        EveryCallEnds(t, calls, decisions, i);
      }
    }
  }

  /** What a finished batch puts in front of the model is bounded, however large its outputs were. */
  ghost predicate Bounded(ids: seq<Id>, previews: map<Id, Preview>) {
    && (forall i :: 0 <= i < |ids| ==> ids[i] in previews)
    && BatchShown(ids, previews, |ids|) <= Max(MAX_BATCH_BYTES, MIN_ALLOWANCE * |ids|)
    && (|ids| <= 24 ==> BatchShown(ids, previews, |ids|) <= MAX_BATCH_BYTES)
  }

  method UseBudget(budget: TurnBudget, uses: seq<BudgetUse>)
    requires budget.Valid()
    modifies budget
    ensures budget.Valid() && budget.StepsUnchanged() && budget.toolCalls >= old(budget.toolCalls)
  {
    for i := 0 to |uses|
      invariant budget.Valid() && budget.StepsUnchanged() && budget.toolCalls >= old(budget.toolCalls)
    {
      match uses[i] {
        case UseStart(call) =>
          var started := budget.StartToolCall(call);
        case UseAcquire =>
          var acquired := budget.AcquireToolCall();
        case UseStateChanged =>
          budget.MarkStateChanged();
      }
    }
  }

  /** The refusals and the node's own answers, each at the place of its call. */
  ghost predicate BatchOutcome(t: Tools, k: nat, calls: seq<Call>, decisions: seq<Decision>, merged: seq<Message>) {
    && |decisions| == |calls|
    && var permitted := PermittedCalls(calls, decisions);
       var answers := if permitted == [] then Some([]) else t.invoke(k, permitted).results;
       answers.Some? && |answers.value| == |permitted| && Merged(t.refusal, calls, decisions, answers.value, merged)
  }

  /** `invokeAdmittedToolBatch`: report the refused calls, run the others, put the answers together. */
  method InvokeBatch(t: Tools, k: nat, calls: seq<Call>, decisions: seq<Decision>, budget: TurnBudget,
                     recorder: TurnRecorder)
    returns (r: Result<seq<Message>, BatchError>)
    requires |decisions| == |calls| && budget.Valid() && recorder.Valid()
    requires HaveIds(calls)
    modifies budget, recorder
    ensures budget.Valid() && budget.StepsUnchanged() && budget.toolCalls >= old(budget.toolCalls)
    ensures recorder.Valid()
    ensures r.Ok? ==> BatchOutcome(t, k, calls, decisions, r.value)
    ensures r.Err? ==> !r.error.RecorderFailed? && !r.error.AdmissionRefused? && !r.error.InvalidArguments?
                       && !r.error.ContextEnded? && Fails(t, k, calls, map[], false, r.error)
    ensures r.Ok? && t.ReportsCalls() && !recorder.failed ==>
      && multiset(IdsOf(calls)) <= multiset(recorder.started)
      && forall i :: 0 <= i < |calls| ==> calls[i].id in recorder.rawOutputs
  {
    hide Merged, PermittedCalls, Accounts, RefusedEvents, StartIds, IdsOf, NoRepeat;
    var refusedEvents := RefusedEvents(t, calls, decisions);
    recorder.RecordAll(refusedEvents, (j: nat) => t.refusalStorage(k, j));
    ghost var middle := recorder.started;
    var permittedCalls := PermittedCalls(calls, decisions);
    var permitted: seq<Message> := [];
    ghost var nodeEvents: seq<ToolEvent> := [];
    if permittedCalls != [] {
      var run := t.invoke(k, permittedCalls);
      nodeEvents := run.events;
      recorder.RecordAll(run.events, (j: nat) => t.nodeStorage(k, j));
      UseBudget(budget, run.uses);
      if run.results.None? {
        return Err(ToolsFailed);
      }
      permitted := run.results.value;
    } else {
      GainsNothing(recorder.started);
    }
    r := MergeResults(t.refusal, calls, decisions, permitted);
    assert |permitted| == Returned(t, k, permittedCalls);
    if r.Ok? && t.ReportsCalls() && !recorder.failed {
      PermittedHaveIds(calls, decisions);
      EveryCallIsReported(t, calls, decisions);
      forall i | 0 <= i < |calls| ensures calls[i].id in recorder.rawOutputs {
        EveryCallEnds(t, calls, decisions, i);
      }
      assert permittedCalls != [] ==> Reports(nodeEvents, permittedCalls);
      AllReported(old(recorder.started), middle, recorder.started, IdsOf(calls), StartIds(refusedEvents),
                  StartIds(nodeEvents), IdsOf(permittedCalls));
    }
  }

  lemma AllReported(first: seq<Id>, middle: seq<Id>, last: seq<Id>, all: seq<Id>, refused: seq<Id>, node: seq<Id>,
                    permitted: seq<Id>)
    requires Gains(first, refused, middle) && Gains(middle, node, last)
    requires multiset(all) == multiset(refused) + multiset(permitted) && multiset(permitted) <= multiset(node)
    ensures multiset(all) <= multiset(last)
  {
  }

  /** The answers of a batch as the model sees them. */
  method ShowBatch(t: Tools, ghost k: nat, calls: seq<Call>, ghost decisions: seq<Decision>, merged: seq<Message>,
                   recorder: TurnRecorder)
    returns (shown: seq<Message>, ghost previews: map<Id, Preview>)
    requires recorder.Valid() && !recorder.failed && BatchOutcome(t, k, calls, decisions, merged)
    requires HaveIds(calls)
    requires t.ReportsCalls() ==>
      && multiset(IdsOf(calls)) <= multiset(recorder.started)
      && forall i :: 0 <= i < |calls| ==> calls[i].id in recorder.rawOutputs
    ensures shown == Projected(View(t, previews), merged)
    ensures t.AnswersInOrder() ==> Answers(shown, calls)
    ensures t.AnswersInOrder() && t.ReportsCalls() ==> Bounded(IdsOf(calls), previews)
  {
    hide Merged, PermittedCalls, StartIds, IdsOf, NoRepeat, Projected, ResultIds, Answers, BatchOutcome;
    var ids := CollectResultIds(merged);
    var projections := recorder.BatchProjections(ids);
    previews := projections;
    shown := ProjectResults(View(t, projections), merged);
    if t.AnswersInOrder() {
      BatchAnswers(t, k, calls, decisions, merged);
      AnswersHaveIds(merged, calls);
      ProjectedAnswers(View(t, projections), merged, calls);
    }
  }

  /** One admitted batch, from decisions to what the model is shown. Whatever the tools return, the
      previews of a batch stay within their shared budget: a repeated call id has failed the
      recorder before anything is shown. */
  method RunBatch(t: Tools, k: nat, calls: seq<Call>, budget: TurnBudget, recorder: TurnRecorder)
    returns (r: Result<seq<Message>, BatchError>, ghost decisions: seq<Decision>, ghost previews: map<Id, Preview>)
    requires budget.Valid() && recorder.Valid()
    requires HaveIds(calls)
    modifies budget, recorder
    ensures budget.Valid() && budget.StepsUnchanged() && recorder.Valid()
    ensures budget.toolCalls >= old(budget.toolCalls)
    ensures r.Err? ==> Fails(t, k, calls, old(budget.admitted), recorder.failed, r.error)
    ensures r.Ok? ==>
      && |decisions| == |calls| && budget.toolCalls >= old(budget.toolCalls) + |PermittedCalls(calls, decisions)|
      && !recorder.failed
      && (exists after :: Admits(t, calls, decisions, old(budget.history), after))
      && (exists merged ::
            BatchOutcome(t, k, calls, decisions, merged) && r.value == Projected(View(t, previews), merged))
    ensures r.Ok? && t.AnswersInOrder() ==> Answers(r.value, calls)
    ensures r.Ok? && t.AnswersInOrder() && t.ReportsCalls() ==> Bounded(IdsOf(calls), previews)
  {
    hide Merged, PermittedCalls, Accounts, StartIds, IdsOf, NoRepeat, Admits, Projected, Answers, BatchOutcome, Bounded;
    decisions, previews := [], map[];
    var admitted := AdmitBatch(t, k, calls, budget);
    if admitted.Err? {
      r := Err(admitted.error);
      return;
    }
    decisions := admitted.value;
    assert Admits(t, calls, decisions, old(budget.history), budget.history);
    var merged := InvokeBatch(t, k, calls, admitted.value, budget, recorder);
    if merged.Err? {
      r := Err(merged.error);
      return;
    }
    if recorder.failed {
      r := Err(RecorderFailed);
      return;
    }
    var shown;
    shown, previews := ShowBatch(t, k, calls, decisions, merged.value, recorder);
    r := Ok(shown);
  }

  lemma BatchAnswers(t: Tools, k: nat, calls: seq<Call>, decisions: seq<Decision>, merged: seq<Message>)
    requires BatchOutcome(t, k, calls, decisions, merged) && t.AnswersInOrder()
    ensures Answers(merged, calls)
  {
    hide Merged, PermittedCalls, Answers;
    var permitted := PermittedCalls(calls, decisions);
    var answers := if permitted == [] then [] else t.invoke(k, permitted).results.value;
    MergedAnswers(t.refusal, calls, decisions, answers, merged);
  }
}
