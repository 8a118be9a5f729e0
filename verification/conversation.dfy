/** A whole thread: every turn is planned over the replay of the turns before it, run, and committed
    (`internal/chat/session.go`). */
module Conversation {
  import opened Ids
  import opened Messages
  import opened CheckpointContract
  import ContextConfig
  import opened Planner
  import opened ToolPairs
  import opened Steering
  import opened TurnBudgets
  import opened TurnRecorders
  import opened ReActTurn

  /** What a thread does not decide itself about one of its turns. `covered` says how many turns the
      checkpoint stands for, `tools` what the journal holds of the turn's tool calls. */
  datatype TurnWorld = TurnWorld(
    id: Id, env: Environment, user: string, checkpoint: Option<Checkpoint>, covered: nat, closing: Closing,
    tools: seq<ToolRecord>, newToolId: (string, nat) -> Id, supported: bool, maxSteps: nat, maxToolCalls: nat,
    maxEquivalent: nat)

  datatype Policy = Policy(
    h: Digests, cost: Message -> nat, promptText: Checkpoint -> string, windowTokens: int, system: string,
    replayer: Replayer)

  /** A committed turn as the next prompt replays it. */
  function ReplayedGroup(p: Policy, w: TurnWorld, messages: seq<Message>): TurnGroup {
    TurnGroup(w.id, 0, [w.id], ReplayMessages(p.replayer, CommittedTurn(messages, w.tools)), [], 0, false, false, [])
  }

  function InputFor(p: Policy, w: TurnWorld, groups: seq<TurnGroup>): PlannerInput {
    PlannerInput([System(p.system)], [], [User(w.user)], w.checkpoint,
                 if w.covered <= |groups| then groups[w.covered..] else [], [])
  }

  ghost predicate AllPaired(lists: seq<seq<Message>>) {
    forall i :: 0 <= i < |lists| ==> Paired(lists[i])
  }

  ghost predicate PairedGroups(groups: seq<TurnGroup>) {
    forall i :: 0 <= i < |groups| ==> Paired(groups[i].messages)
  }

  /** What a committed turn replays to is well formed, whatever its tools were. */
  lemma CommittedTurnIsPaired(p: Policy, w: TurnWorld, messages: seq<Message>, user: Message, inputs: seq<SteerInput>,
                              answer: string)
    requires Commits(messages, user, inputs, answer)
    ensures Paired(ReplayedGroup(p, w, messages).messages)
  {
    CommitHasNoTool(messages, user, inputs, answer);
    ReplayIsPaired(p.replayer, CommittedTurn(messages, w.tools));
  }

  lemma PromptIsPaired(p: Policy, w: TurnWorld, groups: seq<TurnGroup>, ceiling: nat, cut: nat, keep: seq<bool>,
                       plan: PromptPlan)
    requires PairedGroups(groups) && Renders(p.cost, p.promptText, InputFor(p, w, groups), ceiling, cut, keep, plan)
    ensures Paired(plan.messages)
  {
    hide Renders;
    PlainIsPaired([System(p.system)]);
    PlainIsPaired([]);
    PlainIsPaired([User(w.user)]);
    PlanIsPaired(p.cost, p.promptText, InputFor(p, w, groups), ceiling, cut, keep, plan);
  }

  lemma RequestsOfTurnArePaired(prompt: seq<Message>, trace: seq<Segment>, requests: seq<seq<Message>>)
    requires Paired(prompt) && WellFormedTrace(trace) && AllSent(prompt, trace, requests)
    ensures AllPaired(requests)
  {
    forall i | 0 <= i < |requests| ensures Paired(requests[i]) {
      RequestsArePaired(prompt, trace, requests, i);
    }
  }

  /** What happened in a turn. */
  datatype TurnLog =
    | NotAsked
    | Asked(plan: PromptPlan, trace: seq<Segment>, requests: seq<seq<Message>>, answer: Result<Reply, TurnError>,
            recorded: bool, commit: Option<seq<Message>>)
  {
    function Requests(): seq<seq<Message>> {
      if NotAsked? then [] else requests
    }
  }

  /** Why nothing is asked: no prompt fits, or none that shows the checkpoint. */
  ghost predicate NoPrompt(p: Policy, input: PlannerInput) {
    || !ContextConfig.ValidWindow(p.windowTokens) || !ValidInput(p.h, input)
    || var ceiling, mandatory := ContextConfig.Ceiling(p.windowTokens), Cost(p.cost, Prefix(input) + input.current);
       || mandatory > ceiling
       || (exists id :: RequiredBeforeCut(p.cost, input, Front(p.cost, p.promptText, input, ceiling), ceiling, id))
       || (input.checkpoint.Some? && mandatory + p.cost(System(p.promptText(input.checkpoint.value))) > ceiling)
  }

  ghost predicate Planned(p: Policy, input: PlannerInput, plan: PromptPlan) {
    exists cut, keep ::
      Renders(p.cost, p.promptText, input, ContextConfig.Ceiling(p.windowTokens), cut, keep, plan)
  }

  ghost predicate Answered(w: TurnWorld, plan: PromptPlan, trace: seq<Segment>, requests: seq<seq<Message>>,
                           answer: Result<Reply, TurnError>) {
    exists final, spent :: Ended(w.env, w.maxSteps, plan.messages, trace, requests, final, spent, answer)
  }

  /** A turn either has no prompt, or its plan is what the model was shown first, the loop ended as it may, and what
      was committed is the one group more that later turns replay. */
  ghost predicate Happened(p: Policy, w: TurnWorld, groups: seq<TurnGroup>, log: TurnLog, groups': seq<TurnGroup>) {
    match log
    case NotAsked => NoPrompt(p, InputFor(p, w, groups)) && groups' == groups
    case Asked(plan, trace, requests, answer, recorded, commit) =>
      && Planned(p, InputFor(p, w, groups), plan) && CheckpointOmitted !in plan.fallbacks
      && AllSent(plan.messages, trace, requests) && Answered(w, plan, trace, requests, answer)
      && (commit.Some? <==> answer.Ok? && recorded && !w.closing.cancelled && w.closing.valid(answer.value.text)
                            && w.closing.stored)
      && (commit.Some? ==>
            Commits(commit.value, User(w.user), TraceInputs(trace), w.closing.stripReasoning(answer.value.text)))
      && groups' == groups + if commit.Some? then [ReplayedGroup(p, w, commit.value)] else []
  }

  /** Without artifacts, what comes before the groups fits whenever the rest of the prompt does. */
  lemma FrontFits(p: Policy, input: PlannerInput, ceiling: nat)
    requires input.artifacts == [] && Cost(p.cost, Prefix(input) + input.current) <= ceiling
    ensures Front(p.cost, p.promptText, input, ceiling) <= ceiling
  {
    hide CheckpointMessages, Prefix;
    assert Filter(IsRequired(true), input.artifacts) == [];
    assert RenderedSum(p.cost, []) == 0;
    assert Cost(p.cost, []) == 0;
  }

  /** A checkpoint that was left out did not fit. */
  lemma OmittedDoesNotFit(p: Policy, input: PlannerInput, plan: PromptPlan)
    requires Planned(p, input, plan) && CheckpointOmitted in plan.fallbacks && input.artifacts == []
    ensures NoPrompt(p, input)
  {
    var ceiling := ContextConfig.Ceiling(p.windowTokens);
    var cut, keep :| Renders(p.cost, p.promptText, input, ceiling, cut, keep, plan);
    assert input.checkpoint.Some? by {
      assert keep == [] && LeftOut(input.artifacts, keep) == [];
    }
    CheckpointIsPlaced(p.cost, p.promptText, input, ceiling, cut, keep, plan);
  }

  /** One turn: plan, ask, and replay what was committed. */
  method NextTurn(p: Policy, w: TurnWorld, groups: seq<TurnGroup>, session: SteerSession)
    returns (groups': seq<TurnGroup>, requests: seq<seq<Message>>, ghost log: TurnLog)
    requires session.Valid() && PairedGroups(groups)
    modifies session
    ensures session.Valid() && PairedGroups(groups')
    ensures Happened(p, w, groups, log, groups') && requests == log.Requests()
    ensures w.env.tools.AnswersInOrder() ==> AllPaired(requests)
  {
    hide Paired, AllSent, WellFormedTrace, BoundedTrace, Renders, ReplayMessages, Sent, WindowAfter, Orderly, Known,
      InputsTo, OriginalTokens, ValidInput, Commits, TraceInputs, Accounts, NoRepeat, Ended, Explained, Batches, Cost,
      Front, RequiredBeforeCut, IsCut, ArtifactOverflows;
    groups', requests, log := groups, [], NotAsked;
    var input := InputFor(p, w, groups);
    var plan := Plan(p.h, p.cost, p.promptText, p.windowTokens, input);
    if plan.Err? {
      if plan.error.RequiredArtifactOverBudget? {
        FrontFits(p, input, ContextConfig.Ceiling(p.windowTokens));
      }
      return;
    }
    if CheckpointOmitted in plan.value.fallbacks {
      OmittedDoesNotFit(p, input, plan.value);
      return;
    }
    var ceiling := ContextConfig.Ceiling(p.windowTokens);
    ghost var cut: nat, keep :| Renders(p.cost, p.promptText, input, ceiling, cut, keep, plan.value);
    PromptIsPaired(p, w, groups, ceiling, cut, keep, plan.value);
    var budget := new TurnBudget(w.maxSteps, w.maxToolCalls, w.maxEquivalent);
    var recorder := new TurnRecorder(w.newToolId);
    var user := User(w.user);
    ghost var trace, late, outcome;
    var commit, sent, mailbox;
    commit, sent, trace, mailbox, late, outcome :=
      AskTurn(w.env, w.maxSteps, plan.value.messages, user, w.closing, session, w.id, w.supported, budget, recorder);
    requests := sent;
    log := Asked(plan.value, trace, sent, outcome, !recorder.failed, commit);
    if w.env.tools.AnswersInOrder() {
      RequestsOfTurnArePaired(plan.value.messages, trace, requests);
    }
    if commit.Some? {
      CommittedTurnIsPaired(p, w, commit.value, user, TraceInputs(trace),
                            w.closing.stripReasoning(outcome.value.text));
      groups' := groups + [ReplayedGroup(p, w, commit.value)];
    }
  }

  /** Over any life of a thread every request of every turn keeps each tool result next to its call:
      through commit, replay, planning, packets, steers and the loop itself. `history` holds the committed groups
      before each turn and after the last. */
  method Converse(p: Policy, worlds: seq<TurnWorld>)
    returns (requests: seq<seq<seq<Message>>>, groups: seq<TurnGroup>, ghost history: seq<seq<TurnGroup>>,
             ghost logs: seq<TurnLog>)
    ensures |requests| == |worlds| == |logs| && |history| == |worlds| + 1
    ensures history[0] == [] && history[|worlds|] == groups && PairedGroups(groups)
    ensures forall i :: 0 <= i < |worlds| ==> Happened(p, worlds[i], history[i], logs[i], history[i + 1])
    ensures forall i :: 0 <= i < |worlds| ==>
      requests[i] == logs[i].Requests() && (worlds[i].env.tools.AnswersInOrder() ==> AllPaired(requests[i]))
  {
    hide Paired, AllPaired, Happened;
    var session := new SteerSession();
    requests, groups, history, logs := [], [], [[]], [];
    for i := 0 to |worlds|
      invariant session.Valid() && fresh(session)
      invariant |requests| == |logs| == i && |history| == i + 1 && history[0] == [] && history[i] == groups
      invariant PairedGroups(groups)
      invariant forall k :: 0 <= k < i ==> Happened(p, worlds[k], history[k], logs[k], history[k + 1])
      invariant forall k :: 0 <= k < i ==>
        requests[k] == logs[k].Requests() && (worlds[k].env.tools.AnswersInOrder() ==> AllPaired(requests[k]))
    {
      var sent;
      ghost var log;
      groups, sent, log := NextTurn(p, worlds[i], groups, session);
      requests, history, logs := requests + [sent], history + [groups], logs + [log];
    }
  }
}
