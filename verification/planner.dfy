/** `ContextPlanner`: a bounded prompt from immutable context, a checkpoint, artifacts and the
    longest newest run of whole turn groups that fits. */
module Planner {
  import opened Ids
  import opened Messages
  import opened CheckpointContract
  import ContextConfig

  datatype PlannerInput = PlannerInput(
    immutable: seq<Message>, active: seq<Message>, current: seq<Message>,
    checkpoint: Option<Checkpoint>, groups: seq<TurnGroup>, artifacts: seq<Artifact>)

  datatype Fallback = CheckpointOmitted | ArtifactOmitted(id: Id) | GroupsOmitted(ids: seq<Id>)

  datatype PromptPlan = PromptPlan(
    messages: seq<Message>, originalTokens: nat, resultTokens: nat,
    includedGroups: seq<Id>, omittedGroups: seq<Id>, includedArtifacts: seq<Artifact>,
    shouldCompact: bool, fallbacks: seq<Fallback>)

  datatype PlanError =
    | InvalidConfig | InvalidInput | ImmutableOverBudget(tokens: nat)
    | RequiredArtifactOverBudget(artifact: Id) | RequiredGroupOverBudget(group: Id)

  function ArtifactMessage(a: Artifact): Message {
    User(a.prompt)
  }

  function ArtifactMessages(artifacts: seq<Artifact>): seq<Message> {
    if artifacts == [] then []
    else ArtifactMessages(artifacts[..|artifacts| - 1]) + [ArtifactMessage(artifacts[|artifacts| - 1])]
  }

  function Max(a: int, b: int): int {
    if a < b then b else a
  }

  function ArtifactTokens(cost: Message -> nat, a: Artifact): nat {
    Max(a.tokenEstimate, cost(ArtifactMessage(a)))
  }

  /** Declared sizes of the artifacts with the given flag. */
  function ArtifactSum(cost: Message -> nat, artifacts: seq<Artifact>, required: bool): nat {
    if artifacts == [] then 0 else
      var a := artifacts[|artifacts| - 1];
      ArtifactSum(cost, artifacts[..|artifacts| - 1], required)
      + if a.required == required then ArtifactTokens(cost, a) else 0
  }

  function GroupMessages(g: TurnGroup): seq<Message> {
    g.messages + ArtifactMessages(g.artifacts)
  }

  function GroupTokens(cost: Message -> nat, g: TurnGroup): nat {
    Max(g.tokenEstimate,
        Cost(cost, g.messages) + ArtifactSum(cost, g.artifacts, true) + ArtifactSum(cost, g.artifacts, false))
  }

  function GroupSum(cost: Message -> nat, groups: seq<TurnGroup>): nat {
    if groups == [] then 0 else GroupTokens(cost, groups[0]) + GroupSum(cost, groups[1..])
  }

  function AllMessages(groups: seq<TurnGroup>): seq<Message> {
    if groups == [] then [] else GroupMessages(groups[0]) + AllMessages(groups[1..])
  }

  function GroupNames(groups: seq<TurnGroup>): seq<Id> {
    if groups == [] then [] else [groups[0].id] + GroupNames(groups[1..])
  }

  function IsRequired(required: bool): Artifact -> bool {
    (a: Artifact) => a.required == required
  }

  // ---- rendered size never exceeds the estimate ----

  lemma {:induction false} ArtifactsWithinEstimate(cost: Message -> nat, artifacts: seq<Artifact>)
    ensures Cost(cost, ArtifactMessages(artifacts)) <=
            ArtifactSum(cost, artifacts, true) + ArtifactSum(cost, artifacts, false)
  {
    if artifacts != [] {
      var rest, a := artifacts[..|artifacts| - 1], artifacts[|artifacts| - 1];
      ArtifactsWithinEstimate(cost, rest);
      CostSnoc(cost, ArtifactMessages(rest), ArtifactMessage(a));
    }
  }

  lemma {:induction false} GroupsWithinEstimate(cost: Message -> nat, groups: seq<TurnGroup>)
    ensures Cost(cost, AllMessages(groups)) <= GroupSum(cost, groups)
  {
    if groups != [] {
      GroupsWithinEstimate(cost, groups[1..]);
      var g := groups[0];
      ArtifactsWithinEstimate(cost, g.artifacts);
      CostAppend(cost, g.messages, ArtifactMessages(g.artifacts));
      CostAppend(cost, GroupMessages(g), AllMessages(groups[1..]));
    }
  }

  // ---- the newest run of groups ----

  /** Everything from `cut` on fits beside `used` tokens, and one group more would not. */
  ghost predicate IsCut(cost: Message -> nat, groups: seq<TurnGroup>, used: nat, ceiling: nat, cut: nat) {
    && cut <= |groups|
    && used + GroupSum(cost, groups[cut..]) <= ceiling
    && (cut > 0 ==> used + GroupSum(cost, groups[cut - 1..]) > ceiling)
  }

  /** So it is the longest run that ends with the newest group and fits. */
  lemma {:induction false} CutIsLongest(cost: Message -> nat, groups: seq<TurnGroup>, used: nat, ceiling: nat, cut: nat,
                                        k: nat)
    requires IsCut(cost, groups, used, ceiling, cut) && k <= |groups|
    ensures used + GroupSum(cost, groups[k..]) <= ceiling <==> k >= cut
  {
    if k < cut {
      SumShrinks(cost, groups, k, cut - 1);
    } else {
      SumShrinks(cost, groups, cut, k);
    }
  }

  lemma CutIsUnique(cost: Message -> nat, groups: seq<TurnGroup>, used: nat, ceiling: nat, a: nat, b: nat)
    requires IsCut(cost, groups, used, ceiling, a) && IsCut(cost, groups, used, ceiling, b)
    ensures a == b
  {
    CutIsLongest(cost, groups, used, ceiling, a, b);
    CutIsLongest(cost, groups, used, ceiling, b, a);
  }

  lemma {:induction false} SumShrinks(cost: Message -> nat, groups: seq<TurnGroup>, i: nat, j: nat)
    requires i <= j <= |groups|
    ensures GroupSum(cost, groups[i..]) >= GroupSum(cost, groups[j..])
    decreases j - i
  {
    if i < j {
      SumShrinks(cost, groups, i + 1, j);
      assert groups[i..][1..] == groups[i + 1..];
    }
  }

  lemma GroupSumStep(cost: Message -> nat, groups: seq<TurnGroup>, i: nat)
    requires i < |groups|
    ensures GroupSum(cost, groups[i..]) == GroupTokens(cost, groups[i]) + GroupSum(cost, groups[i + 1..])
  {
    assert groups[i..][1..] == groups[i + 1..];
  }

  function Reversed<T>(s: seq<T>): seq<T> {
    if s == [] then [] else Reversed(s[1..]) + [s[0]]
  }

  /** Newest first: once a group does not fit, everything older is omitted as well. */
  method SelectNewest(cost: Message -> nat, groups: seq<TurnGroup>, before: nat, ceiling: nat)
    returns (r: Result<nat, Id>, selected: seq<TurnGroup>, omitted: seq<Id>)
    requires before <= ceiling
    ensures exists cut ::
      && IsCut(cost, groups, before, ceiling, cut)
      && Selected(cost, groups, before, cut, r, selected, omitted)
  {
    var used, cut := before, false;
    selected, omitted := [], [];
    ghost var start := |groups|;
    for i := |groups| downto 0
      invariant cut ==> i < start && IsCut(cost, groups, before, ceiling, start)
      invariant !cut ==> start == i
      invariant start <= |groups| && used == before + GroupSum(cost, groups[start..]) <= ceiling
      invariant selected == Reversed(groups[start..]) && omitted == Reversed(GroupNames(groups[i..start]))
      invariant forall k :: i <= k < start ==> !groups[k].required
    {
      var group := groups[i];
      var tokens := GroupTokens(cost, group);
      GroupSumStep(cost, groups, i);
      assert groups[i..start][1..] == groups[i + 1..start] || i == start;
      if cut || used + tokens > ceiling {
        assert IsCut(cost, groups, before, ceiling, start);
        if group.required {
          assert RequiredGroupAt(groups, i, group.id);
          return Err(group.id), selected, omitted;
        }
        omitted, cut := omitted + [group.id], true;
      } else {
        selected, used := selected + [group], used + tokens;
        start := i;
      }
    }
    assert groups[0..start] == groups[..start];
    r := Ok(used);
    assert IsCut(cost, groups, before, ceiling, start) && Selected(cost, groups, before, start, r, selected, omitted);
  }

  predicate RequiredGroupAt(groups: seq<TurnGroup>, k: nat, id: Id) {
    k < |groups| && groups[k].required && groups[k].id == id
  }

  /** The answer for a cut: its groups newest first, or the newest required group before it. */
  ghost predicate Selected(cost: Message -> nat, groups: seq<TurnGroup>, before: nat, cut: nat, r: Result<nat, Id>,
                           selected: seq<TurnGroup>, omitted: seq<Id>)
  {
    cut <= |groups| &&
    match r
    case Ok(used) =>
      && used == before + GroupSum(cost, groups[cut..])
      && selected == Reversed(groups[cut..]) && omitted == Reversed(GroupNames(groups[..cut]))
      && forall k :: 0 <= k < cut ==> !groups[k].required
    case Err(id) =>
      exists k: nat ::
        && k < cut && RequiredGroupAt(groups, k, id)
        && forall j :: k < j < cut ==> !groups[j].required
  }

  // ---- artifacts ----

  function RenderedSum(cost: Message -> nat, artifacts: seq<Artifact>): nat {
    Cost(cost, ArtifactMessages(artifacts))
  }

  lemma RenderedSnoc(cost: Message -> nat, artifacts: seq<Artifact>, a: Artifact)
    ensures ArtifactMessages(artifacts + [a]) == ArtifactMessages(artifacts) + [ArtifactMessage(a)]
    ensures RenderedSum(cost, artifacts + [a]) == RenderedSum(cost, artifacts) + cost(ArtifactMessage(a))
  {
    SnocInit(artifacts, a);
    CostSnoc(cost, ArtifactMessages(artifacts), ArtifactMessage(a));
  }

  /** Artifact `i` is the first required one that does not fit. */
  ghost predicate Overflows(cost: Message -> nat, artifacts: seq<Artifact>, before: nat, ceiling: nat, i: nat, id: Id) {
    && i < |artifacts| && artifacts[i].required && artifacts[i].id == id
    && var used := before + RenderedSum(cost, Filter(IsRequired(true), artifacts[..i]));
       used <= ceiling < used + cost(ArtifactMessage(artifacts[i]))
  }

  ghost predicate SomeOverflows(cost: Message -> nat, artifacts: seq<Artifact>, before: nat, ceiling: nat, id: Id) {
    exists i: nat :: Overflows(cost, artifacts, before, ceiling, i, id)
  }

  /** Required artifacts are admitted in order, or the first one that does not fit is an error. */
  method AdmitRequired(cost: Message -> nat, artifacts: seq<Artifact>, before: nat, ceiling: nat)
    returns (r: Result<seq<Artifact>, Id>)
    requires before <= ceiling
    ensures var required := Filter(IsRequired(true), artifacts);
      if r.Ok? then r.value == required && before + RenderedSum(cost, required) <= ceiling
      else before + RenderedSum(cost, required) > ceiling && SomeOverflows(cost, artifacts, before, ceiling, r.error)
  {
    var admitted, used := [], before;
    for i := 0 to |artifacts|
      invariant admitted == Filter(IsRequired(true), artifacts[..i])
      invariant used == before + RenderedSum(cost, admitted) <= ceiling
    {
      var a := artifacts[i];
      assert artifacts[..i + 1] == artifacts[..i] + [a];
      FilterSnoc(IsRequired(true), artifacts[..i], a);
      if a.required {
        RenderedSnoc(cost, admitted, a);
        if used + cost(ArtifactMessage(a)) > ceiling {
          MoreRequiredCostMore(cost, artifacts, i + 1);
          assert Overflows(cost, artifacts, before, ceiling, i, a.id);
          return Err(a.id);
        }
        admitted, used := admitted + [a], used + cost(ArtifactMessage(a));
      }
    }
    assert artifacts[..|artifacts|] == artifacts;
    r := Ok(admitted);
  }

  lemma {:induction false} MoreRequiredCostMore(cost: Message -> nat, artifacts: seq<Artifact>, n: nat)
    requires n <= |artifacts|
    ensures RenderedSum(cost, Filter(IsRequired(true), artifacts[..n])) <=
            RenderedSum(cost, Filter(IsRequired(true), artifacts))
  {
    if n == |artifacts| {
      assert artifacts[..n] == artifacts;
    } else {
      var rest, a := artifacts[..|artifacts| - 1], artifacts[|artifacts| - 1];
      MoreRequiredCostMore(cost, rest, n);
      assert rest[..n] == artifacts[..n];
      RenderedSnoc(cost, Filter(IsRequired(true), rest), a);
    }
  }

  /** Size of the kept artifacts among the first `n`. */
  ghost function KeptCost(cost: Message -> nat, artifacts: seq<Artifact>, keep: seq<bool>, n: nat): nat
    requires n <= |artifacts| == |keep|
  {
    if n == 0 then 0 else
      KeptCost(cost, artifacts, keep, n - 1) + if keep[n - 1] then cost(ArtifactMessage(artifacts[n - 1])) else 0
  }

  /** Kept is exactly what is optional and fits beside the ones kept before it. */
  ghost predicate KeepsWhatFits(cost: Message -> nat, artifacts: seq<Artifact>, before: nat, ceiling: nat,
                                keep: seq<bool>) {
    && |keep| == |artifacts|
    && forall i :: 0 <= i < |artifacts| ==>
      (keep[i] <==>
         && !artifacts[i].required
         && before + KeptCost(cost, artifacts, keep, i) + cost(ArtifactMessage(artifacts[i])) <= ceiling)
  }

  /** The kept artifacts, in order. */
  ghost function Picked(artifacts: seq<Artifact>, keep: seq<bool>): seq<Artifact>
    requires |keep| == |artifacts|
  {
    if artifacts == [] then [] else
      var n := |artifacts| - 1;
      Picked(artifacts[..n], keep[..n]) + if keep[n] then [artifacts[n]] else []
  }

  /** Reports about the optional artifacts that are not kept, in order. */
  ghost function LeftOut(artifacts: seq<Artifact>, keep: seq<bool>): seq<Fallback>
    requires |keep| == |artifacts|
  {
    if artifacts == [] then [] else
      var n := |artifacts| - 1;
      LeftOut(artifacts[..n], keep[..n])
      + if !keep[n] && !artifacts[n].required then [ArtifactOmitted(artifacts[n].id)] else []
  }

  /** Every kept artifact stands behind the kept ones before it, and nothing else is there. */
  lemma {:induction false} PickedInOrder(artifacts: seq<Artifact>, keep: seq<bool>, i: nat)
    requires |keep| == |artifacts| && i < |artifacts| && keep[i]
    ensures |Picked(artifacts[..i], keep[..i])| < |Picked(artifacts, keep)| <= |artifacts|
    ensures Picked(artifacts, keep)[|Picked(artifacts[..i], keep[..i])|] == artifacts[i]
    ensures forall a :: a in Picked(artifacts, keep) ==> a in artifacts
  {
    var n := |artifacts| - 1;
    PickedMembers(artifacts, keep);
    if i < n {
      PickedInOrder(artifacts[..n], keep[..n], i);
      assert artifacts[..n][..i] == artifacts[..i] && keep[..n][..i] == keep[..i];
    }
  }

  lemma {:induction false} PickedMembers(artifacts: seq<Artifact>, keep: seq<bool>)
    requires |keep| == |artifacts|
    ensures |Picked(artifacts, keep)| <= |artifacts| && forall a :: a in Picked(artifacts, keep) ==> a in artifacts
  {
    if artifacts != [] {
      PickedMembers(artifacts[..|artifacts| - 1], keep[..|artifacts| - 1]);
    }
  }

  lemma {:induction false} KeptPrefix(cost: Message -> nat, artifacts: seq<Artifact>, keep: seq<bool>, a: Artifact,
                                      b: bool, n: nat)
    requires n <= |artifacts| == |keep|
    ensures KeptCost(cost, artifacts + [a], keep + [b], n) == KeptCost(cost, artifacts, keep, n)
  {
    if n > 0 {
      KeptPrefix(cost, artifacts, keep, a, b, n - 1);
    }
  }

  lemma KeepsNext(cost: Message -> nat, artifacts: seq<Artifact>, before: nat, ceiling: nat, keep: seq<bool>,
                  a: Artifact, b: bool)
    requires KeepsWhatFits(cost, artifacts, before, ceiling, keep)
    requires b <==>
      (!a.required && before + KeptCost(cost, artifacts, keep, |keep|) + cost(ArtifactMessage(a)) <= ceiling)
    ensures KeepsWhatFits(cost, artifacts + [a], before, ceiling, keep + [b])
  {
    var artifacts', keep' := artifacts + [a], keep + [b];
    forall i | 0 <= i < |artifacts'|
      ensures KeptCost(cost, artifacts', keep', i) == KeptCost(cost, artifacts, keep, i)
    {
      KeptPrefix(cost, artifacts, keep, a, b, i);
    }
    hide KeptCost;
  }

  /** One more artifact has had its turn. */
  lemma PicksNext(cost: Message -> nat, artifacts: seq<Artifact>, keep: seq<bool>, a: Artifact, b: bool)
    requires |keep| == |artifacts|
    ensures KeptCost(cost, artifacts + [a], keep + [b], |keep| + 1) ==
            KeptCost(cost, artifacts, keep, |keep|) + if b then cost(ArtifactMessage(a)) else 0
    ensures Picked(artifacts + [a], keep + [b]) == Picked(artifacts, keep) + if b then [a] else []
    ensures LeftOut(artifacts + [a], keep + [b]) ==
            LeftOut(artifacts, keep) + if !b && !a.required then [ArtifactOmitted(a.id)] else []
  {
    SnocInit(artifacts, a);
    SnocInit(keep, b);
    KeptPrefix(cost, artifacts, keep, a, b, |keep|);
  }

  /** Optional artifacts are tried in order; one that does not fit is reported and skipped. */
  method AdmitOptional(cost: Message -> nat, artifacts: seq<Artifact>, before: nat, ceiling: nat)
    returns (admitted: seq<Artifact>, skipped: seq<Fallback>, ghost keep: seq<bool>)
    ensures |keep| == |artifacts| && KeepsWhatFits(cost, artifacts, before, ceiling, keep)
    ensures admitted == Picked(artifacts, keep) && skipped == LeftOut(artifacts, keep)
  {
    hide KeepsWhatFits, Picked, LeftOut;
    admitted, skipped, keep := [], [], [];
    NothingKept(cost, before, ceiling);
    var used := before;
    for i := 0 to |artifacts|
      invariant KeepsWhatFits(cost, artifacts[..i], before, ceiling, keep) && |keep| == i
      invariant admitted == Picked(artifacts[..i], keep) && skipped == LeftOut(artifacts[..i], keep)
      invariant used == before + KeptCost(cost, artifacts[..i], keep, i)
    {
      var a := artifacts[i];
      assert artifacts[..i + 1] == artifacts[..i] + [a];
      ghost var b := !a.required && used + cost(ArtifactMessage(a)) <= ceiling;
      KeepsNext(cost, artifacts[..i], before, ceiling, keep, a, b);
      PicksNext(cost, artifacts[..i], keep, a, b);
      if !a.required {
        if used + cost(ArtifactMessage(a)) > ceiling {
          skipped := skipped + [ArtifactOmitted(a.id)];
        } else {
          admitted, used := admitted + [a], used + cost(ArtifactMessage(a));
        }
      }
      keep := keep + [b];
    }
    assert artifacts[..|artifacts|] == artifacts;
  }

  lemma NothingKept(cost: Message -> nat, before: nat, ceiling: nat)
    ensures KeepsWhatFits(cost, [], before, ceiling, []) && Picked([], []) == [] && LeftOut([], []) == []
  {
  }

  lemma {:induction false} PickedCost(cost: Message -> nat, artifacts: seq<Artifact>, keep: seq<bool>)
    requires |keep| == |artifacts|
    ensures RenderedSum(cost, Picked(artifacts, keep)) == KeptCost(cost, artifacts, keep, |keep|)
  {
    if artifacts != [] {
      var n := |artifacts| - 1;
      PickedCost(cost, artifacts[..n], keep[..n]);
      InitLast(artifacts);
      InitLast(keep);
      KeptPrefix(cost, artifacts[..n], keep[..n], artifacts[n], keep[n], n);
      RenderedSnoc(cost, Picked(artifacts[..n], keep[..n]), artifacts[n]);
      assert Picked(artifacts[..n], keep[..n]) + [] == Picked(artifacts[..n], keep[..n]);
    }
  }

  /** What was kept fits; if something was left out, all of it together would not have. */
  lemma {:induction false} KeepingIsFair(cost: Message -> nat, artifacts: seq<Artifact>, before: nat, ceiling: nat,
                                         keep: seq<bool>)
    requires before <= ceiling && KeepsWhatFits(cost, artifacts, before, ceiling, keep)
    ensures var kept := RenderedSum(cost, Picked(artifacts, keep));
      && before + kept <= ceiling && kept <= ArtifactSum(cost, artifacts, false)
      && (LeftOut(artifacts, keep) != [] ==> before + ArtifactSum(cost, artifacts, false) > ceiling)
  {
    if artifacts != [] {
      var n := |artifacts| - 1;
      var rest, init, a, b := artifacts[..n], keep[..n], artifacts[n], keep[n];
      InitLast(artifacts);
      InitLast(keep);
      KeepsEarlier(cost, rest, before, ceiling, init, a, b);
      KeepingIsFair(cost, rest, before, ceiling, init);
      PickedCost(cost, rest, init);
      RenderedSnoc(cost, Picked(rest, init), a);
      KeptPrefix(cost, rest, init, a, b, n);
      assert Picked(rest, init) + [] == Picked(rest, init);
    }
  }

  lemma KeepsEarlier(cost: Message -> nat, artifacts: seq<Artifact>, before: nat, ceiling: nat, keep: seq<bool>,
                     a: Artifact, b: bool)
    requires |keep| == |artifacts| && KeepsWhatFits(cost, artifacts + [a], before, ceiling, keep + [b])
    ensures KeepsWhatFits(cost, artifacts, before, ceiling, keep)
  {
    var artifacts', keep' := artifacts + [a], keep + [b];
    forall i | 0 <= i < |artifacts|
      ensures keep[i] <==>
                && !artifacts[i].required
                && before + KeptCost(cost, artifacts, keep, i) + cost(ArtifactMessage(artifacts[i])) <= ceiling
    {
      KeptPrefix(cost, artifacts, keep, a, b, i);
      assert keep'[i] == keep[i] && artifacts'[i] == artifacts[i];
    }
  }

  // ---- the plan ----

  function Prefix(input: PlannerInput): seq<Message> {
    input.immutable + input.active
  }

  function CheckpointMessages(promptText: Checkpoint -> string, checkpoint: Option<Checkpoint>): seq<Message> {
    if checkpoint.None? then [] else [System(promptText(checkpoint.value))]
  }

  /** The checkpoint rides along if it fits beside the mandatory messages. */
  function PlacedCheckpoint(cost: Message -> nat, promptText: Checkpoint -> string, input: PlannerInput,
                            ceiling: int): seq<Message> {
    var messages := CheckpointMessages(promptText, input.checkpoint);
    if Cost(cost, Prefix(input) + input.current) + Cost(cost, messages) <= ceiling then messages else []
  }

  /** Tokens in front of the turn groups. */
  function Front(cost: Message -> nat, promptText: Checkpoint -> string, input: PlannerInput, ceiling: int): nat {
    Cost(cost, Prefix(input) + input.current) + Cost(cost, PlacedCheckpoint(cost, promptText, input, ceiling))
      + RenderedSum(cost, Filter(IsRequired(true), input.artifacts))
  }

  /** Size of everything offered, before anything is left out. */
  function OriginalTokens(cost: Message -> nat, promptText: Checkpoint -> string, input: PlannerInput): nat {
    Cost(cost, Prefix(input) + input.current) + Cost(cost, CheckpointMessages(promptText, input.checkpoint))
    + ArtifactSum(cost, input.artifacts, true) + ArtifactSum(cost, input.artifacts, false)
    + GroupSum(cost, input.groups)
  }

  predicate ValidInput(h: Digests, input: PlannerInput) {
    && (forall i :: 0 <= i < |input.groups| ==> input.groups[i].Valid())
    && (forall i :: 0 <= i < |input.artifacts| ==> input.artifacts[i].Valid())
    && (input.checkpoint.Some? ==> ValidCheckpoint(h, input.checkpoint.value))
  }

  /** Everything in its place: the system context, the checkpoint if it fits beside it and the
      request, required artifacts, whole groups from `cut` on in source order, the kept optional
      artifacts, and the request last. */
  ghost predicate Renders(cost: Message -> nat, promptText: Checkpoint -> string, input: PlannerInput, ceiling: nat,
                          cut: nat, keep: seq<bool>, plan: PromptPlan) {
    && var front := Front(cost, promptText, input, ceiling);
       var checkpoint := PlacedCheckpoint(cost, promptText, input, ceiling);
       var required := Filter(IsRequired(true), input.artifacts);
      && IsCut(cost, input.groups, front, ceiling, cut) && |keep| == |input.artifacts|
      && KeepsWhatFits(cost, input.artifacts, front + GroupSum(cost, input.groups[cut..]), ceiling, keep)
      && (forall k :: 0 <= k < cut ==> !input.groups[k].required)
      && plan.includedGroups == GroupNames(input.groups[cut..]) && plan.omittedGroups == GroupNames(input.groups[..cut])
      && plan.includedArtifacts == required + Picked(input.artifacts, keep)
      && plan.messages ==
        Assemble(input, checkpoint, required, input.groups[cut..], Picked(input.artifacts, keep))
      && plan.fallbacks == Reports(input, checkpoint, LeftOut(input.artifacts, keep), plan.omittedGroups)
  }

  ghost function Assemble(input: PlannerInput, checkpoint: seq<Message>, required: seq<Artifact>,
                          groups: seq<TurnGroup>, optional: seq<Artifact>): seq<Message> {
    Prefix(input) + checkpoint + ArtifactMessages(required) + AllMessages(groups) + ArtifactMessages(optional) +
      input.current
  }

  function Reports(input: PlannerInput, checkpoint: seq<Message>, skipped: seq<Fallback>,
                   omitted: seq<Id>): seq<Fallback> {
    (if input.checkpoint.Some? && checkpoint == [] then [CheckpointOmitted] else []) + skipped
      + (if omitted != [] then [GroupsOmitted(omitted)] else [])
  }

  /** The checkpoint is in the plan, or it does not fit and its absence is reported. */
  lemma CheckpointIsPlaced(cost: Message -> nat, promptText: Checkpoint -> string, input: PlannerInput, ceiling: nat,
                           cut: nat, keep: seq<bool>, plan: PromptPlan)
    requires Renders(cost, promptText, input, ceiling, cut, keep, plan) && input.checkpoint.Some?
    ensures var m, n := System(promptText(input.checkpoint.value)), |input.immutable| + |input.active|;
      if Cost(cost, input.immutable + input.active + input.current) + cost(m) <= ceiling
      then n < |plan.messages| && plan.messages[n] == m && CheckpointOmitted !in plan.fallbacks
      else CheckpointOmitted in plan.fallbacks
  {
    var m := System(promptText(input.checkpoint.value));
    CostSnoc(cost, [], m);
    assert [] + [m] == [m];
    NoCheckpointReports(input.artifacts, keep);
    hide Cost, ArtifactMessages, AllMessages, Picked, LeftOut, GroupNames, Filter, IsCut, KeepsWhatFits, GroupSum;
  }

  lemma {:induction false} NoCheckpointReports(artifacts: seq<Artifact>, keep: seq<bool>)
    requires |keep| == |artifacts|
    ensures CheckpointOmitted !in LeftOut(artifacts, keep)
  {
    if artifacts != [] {
      NoCheckpointReports(artifacts[..|artifacts| - 1], keep[..|artifacts| - 1]);
    }
  }

  lemma {:induction false} LeftOutMember(artifacts: seq<Artifact>, keep: seq<bool>, i: nat)
    requires |keep| == |artifacts| && i < |artifacts| && !keep[i] && !artifacts[i].required
    ensures ArtifactOmitted(artifacts[i].id) in LeftOut(artifacts, keep)
  {
    var n := |artifacts| - 1;
    if i < n {
      LeftOutMember(artifacts[..n], keep[..n], i);
    }
  }

  /** Nothing is dropped in silence: every omitted group and every optional artifact that is not in
      the plan is reported. */
  lemma OmissionsAreReported(cost: Message -> nat, promptText: Checkpoint -> string, input: PlannerInput, ceiling: nat,
                             cut: nat, keep: seq<bool>, plan: PromptPlan, i: nat)
    requires Renders(cost, promptText, input, ceiling, cut, keep, plan)
    ensures plan.omittedGroups != [] ==> GroupsOmitted(plan.omittedGroups) in plan.fallbacks
    ensures i < |input.artifacts| && !input.artifacts[i].required && !keep[i] ==>
              ArtifactOmitted(input.artifacts[i].id) in plan.fallbacks
  {
    var reports := LeftOut(input.artifacts, keep);
    if i < |input.artifacts| && !input.artifacts[i].required && !keep[i] {
      LeftOutMember(input.artifacts, keep, i);
    }
    assert forall f :: f in reports ==> f in plan.fallbacks;
    assert plan.omittedGroups != [] ==> plan.fallbacks[|plan.fallbacks| - 1] == GroupsOmitted(plan.omittedGroups);
    hide Cost, ArtifactMessages, AllMessages, Picked, LeftOut, GroupNames, Filter, IsCut, KeepsWhatFits, GroupSum,
      Assemble, Front;
  }

  /** The request comes last, and the system context first. */
  lemma RequestIsLast(cost: Message -> nat, promptText: Checkpoint -> string, input: PlannerInput, ceiling: nat,
                      cut: nat, keep: seq<bool>, plan: PromptPlan)
    requires Renders(cost, promptText, input, ceiling, cut, keep, plan)
    ensures input.immutable <= plan.messages && |input.current| <= |plan.messages|
    ensures plan.messages[|plan.messages| - |input.current|..] == input.current
  {
    hide ArtifactMessages, AllMessages, Picked, LeftOut, GroupNames, Filter, IsCut, KeepsWhatFits, GroupSum;
  }

  lemma AssembleCost(cost: Message -> nat, input: PlannerInput, checkpoint: seq<Message>, required: seq<Artifact>,
                     groups: seq<TurnGroup>, optional: seq<Artifact>)
    ensures Cost(cost, Assemble(input, checkpoint, required, groups, optional)) ==
            Cost(cost, Prefix(input) + input.current) + Cost(cost, checkpoint) + RenderedSum(cost, required)
            + Cost(cost, AllMessages(groups)) + RenderedSum(cost, optional)
  {
    hide Cost, ArtifactMessages, AllMessages;
    CostAppend(cost, Prefix(input), input.current);
    CostAppend(cost, Prefix(input), checkpoint);
    CostAppend(cost, Prefix(input) + checkpoint, ArtifactMessages(required));
    CostAppend(cost, Prefix(input) + checkpoint + ArtifactMessages(required), AllMessages(groups));
    CostAppend(cost, Prefix(input) + checkpoint + ArtifactMessages(required) + AllMessages(groups),
               ArtifactMessages(optional));
    CostAppend(cost, Prefix(input) + checkpoint + ArtifactMessages(required) + AllMessages(groups)
                     + ArtifactMessages(optional), input.current);
  }

  /** The assembled prompt stays under the ceiling. */
  lemma RenderedWithinCeiling(cost: Message -> nat, promptText: Checkpoint -> string, input: PlannerInput, ceiling: nat,
                              cut: nat, keep: seq<bool>, plan: PromptPlan)
    requires Renders(cost, promptText, input, ceiling, cut, keep, plan)
    ensures Cost(cost, plan.messages) <= ceiling
  {
    hide Cost, ArtifactMessages, AllMessages, Picked, LeftOut, KeepsWhatFits, GroupSum, Filter, Reports;
    var front, run := Front(cost, promptText, input, ceiling), input.groups[cut..];
    GroupsWithinEstimate(cost, run);
    KeepingIsFair(cost, input.artifacts, front + GroupSum(cost, run), ceiling, keep);
    AssembleCost(cost, input, PlacedCheckpoint(cost, promptText, input, ceiling),
                 Filter(IsRequired(true), input.artifacts), run,
                 Picked(input.artifacts, keep));
  }

  lemma {:induction false} RequiredWithinEstimate(cost: Message -> nat, artifacts: seq<Artifact>)
    ensures RenderedSum(cost, Filter(IsRequired(true), artifacts)) <= ArtifactSum(cost, artifacts, true)
  {
    if artifacts != [] {
      var rest, a := artifacts[..|artifacts| - 1], artifacts[|artifacts| - 1];
      RequiredWithinEstimate(cost, rest);
      RenderedSnoc(cost, Filter(IsRequired(true), rest), a);
    }
  }

  /** Any omission at all means that what was offered exceeds the ceiling. */
  lemma OmissionsMeanOverflow(cost: Message -> nat, promptText: Checkpoint -> string, input: PlannerInput, ceiling: nat,
                              cut: nat, keep: seq<bool>, plan: PromptPlan)
    requires Renders(cost, promptText, input, ceiling, cut, keep, plan) && plan.fallbacks != []
    ensures OriginalTokens(cost, promptText, input) > ceiling
  {
    hide Cost, ArtifactMessages, AllMessages, Picked, LeftOut, KeepsWhatFits, GroupSum, Filter, ArtifactSum, GroupNames,
      ValidInput;
    var front := Front(cost, promptText, input, ceiling);
    RequiredWithinEstimate(cost, input.artifacts);
    SumShrinks(cost, input.groups, 0, cut);
    assert input.groups[0..] == input.groups;
    KeepingIsFair(cost, input.artifacts, front + GroupSum(cost, input.groups[cut..]), ceiling, keep);
    if cut > 0 {
      SumShrinks(cost, input.groups, 0, cut - 1);
    } else if plan.omittedGroups != [] {
      assert input.groups[..0] == [];
      NoNames();
    }
  }

  lemma NoNames()
    ensures GroupNames([]) == []
  {
  }

  /** The decision about one group too many, for a required group. */
  ghost predicate RequiredBeforeCut(cost: Message -> nat, input: PlannerInput, front: nat, ceiling: nat, id: Id) {
    exists cut: nat, k: nat ::
      IsCut(cost, input.groups, front, ceiling, cut) && 0 <= k < cut && RequiredGroupAt(input.groups, k, id)
  }

  ghost predicate ArtifactOverflows(cost: Message -> nat, promptText: Checkpoint -> string, input: PlannerInput,
                                    ceiling: nat, id: Id) {
    var used := Cost(cost, Prefix(input) + input.current)
      + Cost(cost, PlacedCheckpoint(cost, promptText, input, ceiling));
    SomeOverflows(cost, input.artifacts, used, ceiling, id)
  }

  /** Nothing required is dropped, the ceiling holds, and whatever is dropped forces a compaction. */
  method Plan(h: Digests, cost: Message -> nat, promptText: Checkpoint -> string, windowTokens: int,
              input: PlannerInput)
    returns (r: Result<PromptPlan, PlanError>)
    ensures r == Err(InvalidConfig) <==> !ContextConfig.ValidWindow(windowTokens)
    ensures r == Err(InvalidInput) <==> ContextConfig.ValidWindow(windowTokens) && !ValidInput(h, input)
    ensures ContextConfig.ValidWindow(windowTokens) && ValidInput(h, input) ==>
      var ceiling := ContextConfig.Ceiling(windowTokens);
      var mandatory, front := Cost(cost, Prefix(input) + input.current), Front(cost, promptText, input, ceiling);
      && (mandatory > ceiling <==> r == Err(ImmutableOverBudget(mandatory)))
      && (mandatory > ceiling <==> r.Err? && r.error.ImmutableOverBudget?)
      && (mandatory <= ceiling < front <==> r.Err? && r.error.RequiredArtifactOverBudget?)
      && (r.Err? && r.error.RequiredArtifactOverBudget? ==>
            ArtifactOverflows(cost, promptText, input, ceiling, r.error.artifact))
      && (r.Err? && r.error.RequiredGroupOverBudget? ==>
            RequiredBeforeCut(cost, input, front, ceiling, r.error.group))
      && (r.Ok? ==> forall cut :: IsCut(cost, input.groups, front, ceiling, cut) ==>
            forall k :: 0 <= k < cut ==> !input.groups[k].required)
      && (r.Err? ==> !r.error.InvalidConfig? && !r.error.InvalidInput?)
    ensures r.Ok? ==>
      var plan, ceiling := r.value, ContextConfig.Ceiling(windowTokens);
      && (exists cut, keep :: Renders(cost, promptText, input, ceiling, cut, keep, plan))
      && plan.originalTokens == OriginalTokens(cost, promptText, input)
      && plan.resultTokens == Cost(cost, plan.messages) <= ceiling
      && (plan.shouldCompact <==> plan.originalTokens >= ContextConfig.Trigger(windowTokens)
                                  && (plan.omittedGroups != []
                                      || plan.originalTokens > ContextConfig.Target(windowTokens)))
      && (plan.fallbacks != [] ==> plan.originalTokens > ceiling && plan.shouldCompact)
  {
    hide Cost, ArtifactMessages, AllMessages, Picked, LeftOut, KeepsWhatFits, GroupSum, Filter, ArtifactSum, GroupNames,
      ValidInput, Renders, IsCut, Reversed, OriginalTokens, SomeOverflows;
    if !ContextConfig.ValidWindow(windowTokens) {
      return Err(InvalidConfig);
    }
    if !ValidInput(h, input) {
      return Err(InvalidInput);
    }
    ContextConfig.WatermarksAreOrdered(windowTokens);
    var ceiling := ContextConfig.Ceiling(windowTokens);
    var mandatory := Cost(cost, Prefix(input) + input.current);
    if mandatory > ceiling {
      return Err(ImmutableOverBudget(mandatory));
    }
    var checkpoint := PlacedCheckpoint(cost, promptText, input, ceiling);
    NoCost(cost);
    var fixed: nat := mandatory + Cost(cost, checkpoint);
    var required := AdmitRequired(cost, input.artifacts, fixed, ceiling);
    if required.Err? {
      return Err(RequiredArtifactOverBudget(required.error));
    }
    var front := fixed + Cost(cost, ArtifactMessages(required.value));
    var used, selected, omitted := SelectNewest(cost, input.groups, front, ceiling);
    ghost var cut: nat :| IsCut(cost, input.groups, front, ceiling, cut)
      && Selected(cost, input.groups, front, cut, used, selected, omitted);
    if used.Err? {
      ghost var k: nat :| k < cut && RequiredGroupAt(input.groups, k, used.error);
      return Err(RequiredGroupOverBudget(used.error));
    }
    forall other | IsCut(cost, input.groups, front, ceiling, other) ensures other == cut {
      CutIsUnique(cost, input.groups, front, ceiling, cut, other);
    }
    var plan;
    ghost var keep;
    plan, keep := Build(cost, promptText, windowTokens, input, cut, checkpoint, required.value, used.value, selected,
                        omitted);
    assert Renders(cost, promptText, input, ceiling, cut, keep, plan);
    r := Ok(plan);
  }

  /** The selection is made: render it and account for what was left out. */
  method Build(cost: Message -> nat, promptText: Checkpoint -> string, windowTokens: int, input: PlannerInput,
               ghost cut: nat, checkpoint: seq<Message>, required: seq<Artifact>, used: nat, selected: seq<TurnGroup>,
               omitted: seq<Id>)
    returns (plan: PromptPlan, ghost keep: seq<bool>)
    requires var ceiling := ContextConfig.Ceiling(windowTokens);
      && 0 <= ceiling && checkpoint == PlacedCheckpoint(cost, promptText, input, ceiling)
      && required == Filter(IsRequired(true), input.artifacts)
      && IsCut(cost, input.groups, Front(cost, promptText, input, ceiling), ceiling, cut)
      && Selected(cost, input.groups, Front(cost, promptText, input, ceiling), cut, Ok(used), selected, omitted)
    ensures Renders(cost, promptText, input, ContextConfig.Ceiling(windowTokens), cut, keep, plan)
    ensures plan.originalTokens == OriginalTokens(cost, promptText, input)
    ensures plan.resultTokens == Cost(cost, plan.messages) <= ContextConfig.Ceiling(windowTokens)
    ensures plan.shouldCompact <==> plan.originalTokens >= ContextConfig.Trigger(windowTokens)
                                    && (plan.omittedGroups != []
                                        || plan.originalTokens > ContextConfig.Target(windowTokens))
    ensures plan.fallbacks != [] ==> plan.originalTokens > ContextConfig.Ceiling(windowTokens) && plan.shouldCompact
  {
    hide Cost, ArtifactMessages, AllMessages, Picked, LeftOut, KeepsWhatFits, GroupSum, Filter, ArtifactSum, GroupNames,
      Front, OriginalTokens, PlacedCheckpoint;
    ContextConfig.WatermarksAreOrdered(windowTokens);
    var ceiling := ContextConfig.Ceiling(windowTokens);
    var groupMessages, includedGroups := RenderSelected(input.groups[cut..], selected);
    var omittedGroups := ReverseNames(GroupNames(input.groups[..cut]), omitted);
    var optional, skipped;
    optional, skipped, keep := AdmitOptional(cost, input.artifacts, used, ceiling);
    var messages := Prefix(input) + checkpoint + ArtifactMessages(required) + groupMessages +
      ArtifactMessages(optional) + input.current;
    var original := OriginalTokens(cost, promptText, input);
    var shouldCompact := original >= ContextConfig.Trigger(windowTokens)
      && (omittedGroups != [] || original > ContextConfig.Target(windowTokens));
    plan := PromptPlan(messages, original, Cost(cost, messages), includedGroups, omittedGroups,
                       required + optional, shouldCompact, Reports(input, checkpoint, skipped, omittedGroups));
    RenderedWithinCeiling(cost, promptText, input, ceiling, cut, keep, plan);
    if plan.fallbacks != [] {
      OmissionsMeanOverflow(cost, promptText, input, ceiling, cut, keep, plan);
    }
  }

  lemma NoCost(cost: Message -> nat)
    ensures Cost(cost, []) == 0
  {
  }

  /** The selected groups come newest first; the prompt and the names want source order. */
  method RenderSelected(ghost run: seq<TurnGroup>, selected: seq<TurnGroup>)
    returns (messages: seq<Message>, names: seq<Id>)
    requires selected == Reversed(run)
    ensures messages == AllMessages(run) && names == GroupNames(run)
  {
    messages, names := [], [];
    ReversedTwice(run);
    for i := |selected| downto 0
      invariant messages == AllMessages(run[..|selected| - i]) && names == GroupNames(run[..|selected| - i])
    {
      ghost var n := |selected| - i - 1;
      ReversedAt(run, i);
      NamesSnoc(run[..n], run[n]);
      assert run[..n + 1] == run[..n] + [run[n]];
      messages, names := messages + GroupMessages(selected[i]), names + [selected[i].id];
    }
    assert run[..|run|] == run;
  }

  method ReverseNames(ghost names: seq<Id>, reversed: seq<Id>) returns (r: seq<Id>)
    requires reversed == Reversed(names)
    ensures r == names
  {
    r := [];
    ReversedTwice(names);
    for i := |reversed| downto 0
      invariant r == names[..|reversed| - i]
    {
      ReversedAt(names, i);
      r := r + [reversed[i]];
    }
  }

  lemma {:induction false} ReversedTwice<T>(s: seq<T>)
    ensures |Reversed(s)| == |s|
  {
    if s != [] {
      ReversedTwice(s[1..]);
    }
  }

  lemma {:induction false} ReversedAt<T>(s: seq<T>, i: nat)
    requires i < |s|
    ensures |Reversed(s)| == |s| && Reversed(s)[i] == s[|s| - 1 - i]
  {
    ReversedTwice(s);
    ReversedTwice(s[1..]);
    if i < |s| - 1 {
      ReversedAt(s[1..], i);
    }
  }

  lemma {:induction false} NamesSnoc(groups: seq<TurnGroup>, g: TurnGroup)
    ensures AllMessages(groups + [g]) == AllMessages(groups) + GroupMessages(g)
    ensures GroupNames(groups + [g]) == GroupNames(groups) + [g.id]
  {
    if groups != [] {
      NamesSnoc(groups[1..], g);
      assert (groups + [g])[1..] == groups[1..] + [g];
      ConcatAssoc(GroupMessages(groups[0]), AllMessages(groups[1..]), GroupMessages(g));
    } else {
      assert (groups + [g])[1..] == [] && groups + [g] == [g];
    }
  }
}
