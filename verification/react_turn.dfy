/** The bounded ReAct loop (`internal/agent/react.go`) with steering at every model boundary, and
    what a finished turn commits (`internal/chat/session.go`). */
module ReActTurn {
  import opened Ids
  import opened Messages
  import opened Text
  import opened ToolPairs
  import opened Steering
  import opened Previews
  import opened TurnBudgets
  import opened TurnRecorders
  import opened ReActBatch

  datatype TurnError =
    | ModelFailed | ContextLost | RequestTooLarge | BatchFailed(error: BatchError) | FinalResponseSpent

  datatype Reply = Reply(text: string, calls: seq<Call>)

  /** Input offered to the session while a turn runs. */
  datatype Arrival = Arrival(expected: Id, content: string, callerCancelled: bool, turnCancelled: bool)

  /** Everything outside the loop: what arrives before boundary `k`, the controller's packet, the
      context, the provider and the tools. */
  datatype Environment = Environment(
    arrivals: nat -> seq<Arrival>, packet: nat -> string, contextOk: nat -> bool,
    admitted: (nat, seq<Message>) -> bool, respond: (nat, seq<Message>) -> Option<Reply>,
    localId: (nat, nat) -> nat, tools: Tools, finalInstruction: string, finalFallback: string)

  /** What a turn added to its history. A batch remembers how many of its calls were run and what
      the model was shown of their outputs. */
  datatype Segment =
    | Steered(inputs: seq<SteerInput>)
    | Batch(text: string, calls: seq<Call>, results: seq<Message>, run: nat, previews: map<Id, Preview>)

  function SegmentMessages(s: Segment): seq<Message> {
    match s
    case Steered(inputs) => SteerMessages(inputs)
    case Batch(text, calls, results, _, _) => [Assistant(text, calls)] + results
  }

  function TraceMessages(trace: seq<Segment>): seq<Message> {
    if trace == [] then [] else TraceMessages(trace[..|trace| - 1]) + SegmentMessages(trace[|trace| - 1])
  }

  function TraceInputs(trace: seq<Segment>): seq<SteerInput> {
    if trace == [] then [] else
      TraceInputs(trace[..|trace| - 1]) + if trace[|trace| - 1].Steered? then trace[|trace| - 1].inputs else []
  }

  /** Calls that reached the tools node. */
  function CallsRun(trace: seq<Segment>): nat {
    if trace == [] then 0
    else CallsRun(trace[..|trace| - 1]) + if trace[|trace| - 1].Batch? then trace[|trace| - 1].run else 0
  }

  function Batches(trace: seq<Segment>): seq<Reply> {
    if trace == [] then [] else
      Batches(trace[..|trace| - 1]) +
      match trace[|trace| - 1]
      case Steered(_) => []
      case Batch(text, calls, _, _, _) => [Reply(text, calls)]
  }

  /** Batch `k` of the history is the reply to request `k`, with its missing call ids filled in. */
  ghost predicate Explained(env: Environment, requests: seq<seq<Message>>, batches: seq<Reply>) {
    && |batches| <= |requests|
    && forall k :: 0 <= k < |batches| ==>
      var reply := env.respond(k, requests[k]);
      reply.Some? && batches[k] == Reply(reply.value.text, WithIds(env, k, reply.value.calls)) && batches[k].calls != []
  }

  lemma ExplainedLater(env: Environment, requests: seq<seq<Message>>, later: seq<seq<Message>>, batches: seq<Reply>)
    requires Explained(env, requests, batches) && requests <= later
    ensures Explained(env, later, batches)
  {
  }

  lemma ExplainedSnoc(env: Environment, requests: seq<seq<Message>>, batches: seq<Reply>, reply: Reply)
    requires Explained(env, requests, batches) && |requests| == |batches| + 1
    requires env.respond(|batches|, requests[|batches|]) == Some(reply) && WithIds(env, |batches|, reply.calls) != []
    ensures Explained(env, requests, batches + [Reply(reply.text, WithIds(env, |batches|, reply.calls))])
  {
    hide WithIds;
    var after := batches + [Reply(reply.text, WithIds(env, |batches|, reply.calls))];
    assert forall k :: 0 <= k < |batches| ==> after[k] == batches[k];
  }

  ghost predicate WellFormedTrace(trace: seq<Segment>) {
    forall i :: 0 <= i < |trace| && trace[i].Batch? ==> Answers(trace[i].results, trace[i].calls)
  }

  lemma {:induction false} TraceIsPaired(trace: seq<Segment>)
    requires WellFormedTrace(trace)
    ensures Paired(TraceMessages(trace))
  {
    if trace != [] {
      var rest, last := trace[..|trace| - 1], trace[|trace| - 1];
      TraceIsPaired(rest);
      if last.Steered? {
        SteersAreUsers(last.inputs);
        PlainIsPaired(SteerMessages(last.inputs));
      } else {
        BatchIsPaired(last.text, last.calls, last.results);
      }
      PairedAppend(TraceMessages(rest), SegmentMessages(last));
    }
  }

  /** Every batch of the turn stayed within its preview budget. */
  ghost predicate BoundedTrace(trace: seq<Segment>) {
    forall i :: 0 <= i < |trace| && trace[i].Batch? ==> Bounded(IdsOf(trace[i].calls), trace[i].previews)
  }

  /** A request is the history with the ephemeral packets after its system prefix. */
  function Request(history: seq<Message>, packet: string, instruction: Option<string>): seq<Message> {
    var withPacket := if packet == "" then history else WithPacket(history, System(packet));
    if instruction.None? then withPacket else WithPacket(withPacket, System(instruction.value))
  }

  ghost predicate Sent(base: seq<Message>, trace: seq<Segment>, request: seq<Message>, n: nat) {
    && n <= |trace|
    && exists packet, instruction :: request == Request(base + TraceMessages(trace[..n]), packet, instruction)
  }

  lemma RequestIsPaired(base: seq<Message>, trace: seq<Segment>, request: seq<Message>, n: nat)
    requires Paired(base) && WellFormedTrace(trace) && Sent(base, trace, request, n)
    ensures Paired(request)
  {
    var packet, instruction :| request == Request(base + TraceMessages(trace[..n]), packet, instruction);
    var history := base + TraceMessages(trace[..n]);
    TraceIsPaired(trace[..n]);
    PairedAppend(base, TraceMessages(trace[..n]));
    PacketKeepsPairs(history, System(packet));
    if instruction.Some? {
      var sent := if packet == "" then history else WithPacket(history, System(packet));
      PacketKeepsPairs(sent, System(instruction.value));
    }
  }

  function WithIds(env: Environment, k: nat, calls: seq<Call>): (r: seq<Call>)
    ensures |r| == |calls| && forall i :: 0 <= i < |r| ==> r[i].id != Id.Blank
    ensures forall i :: 0 <= i < |r| ==>
      r[i] == calls[i] || (calls[i].id == Id.Blank && r[i] == calls[i].(id := r[i].id))
  {
    if calls == [] then [] else
      var n := |calls| - 1;
      WithIds(env, k, calls[..n]) +
        [if calls[n].id == Id.Blank then calls[n].(id := Named(env.localId(k, n))) else calls[n]]
  }

  // ---- how a turn ends ----

  /** The tools-disabled answer as it is streamed: without calls, and with a fixed text if it has none
      of its own. */
  function FinalAnswer(env: Environment, reply: Reply): Reply {
    Reply(if IsBlank(reply.text) then reply.text + env.finalFallback else reply.text, [])
  }

  /** What the outcome of a turn says about its last request, after `n` batches. `final`: the reserved
      response was used up; `spent`: no model step was left. */
  ghost predicate Ended(env: Environment, maxSteps: nat, base: seq<Message>, trace: seq<Segment>,
                        requests: seq<seq<Message>>, final: bool, spent: bool, r: Result<Reply, TurnError>) {
    var n := |Batches(trace)|;
    && (final ==> n == maxSteps || spent)
    && match r
       case Ok(answer) =>
         && |requests| == n + 1
         && var reply := env.respond(n, requests[n]);
            reply.Some?
              && if final then answer == FinalAnswer(env, reply.value) else answer == reply.value && answer.calls == []
       case Err(ModelFailed) => |requests| == n + 1 && env.respond(n, requests[n]).None?
       case Err(ContextLost) => !env.contextOk(n)
       case Err(RequestTooLarge) => exists request :: Sent(base, trace, request, |trace|) && !env.admitted(n, request)
       case Err(BatchFailed(e)) =>
         && |requests| == n + 1 && !final
         && var reply := env.respond(n, requests[n]);
            reply.Some? && reply.value.calls != []
            && exists admitted, failed :: Fails(env.tools, n, WithIds(env, n, reply.value.calls), admitted, failed, e)
       case Err(FinalResponseSpent) => n == maxSteps || spent
  }

  // ---- steering inside the loop ----

  /** The session steers this turn's mailbox, and the mailbox has forgotten nothing it delivered. */
  ghost predicate Steers(session: SteerSession, turn: Id, mailbox: TurnSteerMailbox)
    reads session, session.mailboxes, mailbox
  {
    && session.Valid() && session.active.Some? && session.active.value.id == turn
      && session.active.value.mailbox == mailbox
    && mailbox in session.mailboxes && mailbox.consumed == mailbox.delivered
  }

  /** Whatever arrives is offered to the session; nothing is delivered yet. */
  method Admit(session: SteerSession, ghost turn: Id, mailbox: TurnSteerMailbox, arrivals: seq<Arrival>)
    requires Steers(session, turn, mailbox)
    modifies session, mailbox
    ensures Steers(session, turn, mailbox) && session.mailboxes == old(session.mailboxes)
    ensures mailbox.delivered == old(mailbox.delivered) && old(mailbox.accepted) <= mailbox.accepted
  {
    for i := 0 to |arrivals|
      invariant Steers(session, turn, mailbox) && session.mailboxes == old(session.mailboxes)
      invariant mailbox.delivered == old(mailbox.delivered) && old(mailbox.accepted) <= mailbox.accepted
    {
      var a := arrivals[i];
      var r := session.SteerWithReceipt(a.expected, a.content, a.callerCancelled, a.turnCancelled);
    }
  }

  /** Before a model call: deliver what is pending, as user messages at the end. */
  method Rewrite(session: SteerSession, ghost turn: Id, mailbox: TurnSteerMailbox, history: seq<Message>)
    returns (r: seq<Message>, ghost inputs: seq<SteerInput>)
    requires Steers(session, turn, mailbox)
    modifies mailbox
    ensures Steers(session, turn, mailbox) && mailbox.accepted == old(mailbox.accepted)
    ensures mailbox.delivered == old(mailbox.delivered) + inputs
    ensures r == history + SteerMessages(inputs)
  {
    var batch := mailbox.TakeTurnSteers();
    inputs := batch;
    if batch == [] {
      assert history + [] == history;
      return history, inputs;
    }
    var users := RenderSteers(batch);
    r := history + users;
  }

  method WithTaskPacket(messages: seq<Message>, packet: string) returns (r: seq<Message>)
    ensures r == Request(messages, packet, None)
  {
    if packet == "" {
      return messages;
    }
    r := InsertAfterSystem(messages, System(packet));
  }

  lemma {:induction false} LeadingSystemAppend(messages: seq<Message>, users: seq<Message>)
    requires forall i :: 0 <= i < |users| ==> !users[i].System?
    ensures LeadingSystem(messages + users) == LeadingSystem(messages)
  {
    if messages != [] {
      LeadingSystemAppend(messages[1..], users);
      assert (messages + users)[1..] == messages[1..] + users;
    } else {
      assert messages + users == users;
    }
  }

  /** Steers arrive at the end, packets after the system prefix: the order of the two is immaterial. */
  lemma SteerAfterPacket(history: seq<Message>, packet: Message, inputs: seq<SteerInput>)
    ensures WithPacket(history, packet) + SteerMessages(inputs) == WithPacket(history + SteerMessages(inputs), packet)
  {
    var users, n := SteerMessages(inputs), LeadingSystem(history);
    SteersAreUsers(inputs);
    LeadingSystemAppend(history, users);
    assert (history + users)[..n] == history[..n] && (history + users)[n..] == history[n..] + users;
    ConcatAssoc(history[..n] + [packet], history[n..], users);
  }

  lemma SteerAfterRequest(history: seq<Message>, packet: string, instruction: string, inputs: seq<SteerInput>)
    ensures Request(history, packet, Some(instruction)) + SteerMessages(inputs) ==
            Request(history + SteerMessages(inputs), packet, Some(instruction))
  {
    var withPacket := if packet == "" then history else WithPacket(history, System(packet));
    SteerAfterPacket(history, System(packet), inputs);
    SteerAfterPacket(withPacket, System(instruction), inputs);
  }

  ghost predicate SentSometime(base: seq<Message>, trace: seq<Segment>, request: seq<Message>) {
    exists n: nat :: Sent(base, trace, request, n)
  }

  ghost predicate AllSent(base: seq<Message>, trace: seq<Segment>, requests: seq<seq<Message>>) {
    forall i :: 0 <= i < |requests| ==> SentSometime(base, trace, requests[i])
  }

  lemma SentStays(base: seq<Message>, trace: seq<Segment>, s: Segment, request: seq<Message>)
    requires SentSometime(base, trace, request)
    ensures SentSometime(base, trace + [s], request)
  {
    var n: nat :| Sent(base, trace, request, n);
    assert (trace + [s])[..n] == trace[..n];
    assert Sent(base, trace + [s], request, n);
  }

  lemma TraceSnoc(base: seq<Message>, trace: seq<Segment>, s: Segment, requests: seq<seq<Message>>)
    requires AllSent(base, trace, requests)
    ensures AllSent(base, trace + [s], requests)
    ensures base + TraceMessages(trace + [s]) == (base + TraceMessages(trace)) + SegmentMessages(s)
    ensures TraceInputs(trace + [s]) == TraceInputs(trace) + (if s.Steered? then s.inputs else [])
  {
    hide SentSometime;
    forall i | 0 <= i < |requests| ensures SentSometime(base, trace + [s], requests[i]) {
      SentStays(base, trace, s, requests[i]);
    }
    SnocInit(trace, s);
    ConcatAssoc(base, TraceMessages(trace), SegmentMessages(s));
  }

  lemma SegmentsSnoc(trace: seq<Segment>, s: Segment)
    ensures Batches(trace + [s]) == Batches(trace) + (if s.Batch? then [Reply(s.text, s.calls)] else [])
    ensures CallsRun(trace + [s]) == CallsRun(trace) + (if s.Batch? then s.run else 0)
    ensures WellFormedTrace(trace + [s]) <==> WellFormedTrace(trace) && (s.Batch? ==> Answers(s.results, s.calls))
    ensures BoundedTrace(trace + [s]) <==> BoundedTrace(trace) && (s.Batch? ==> Bounded(IdsOf(s.calls), s.previews))
  {
    hide Bounded, Answers;
    SnocInit(trace, s);
    assert forall i :: 0 <= i < |trace| ==> (trace + [s])[i] == trace[i];
    assert (trace + [s])[|trace|] == s;
  }

  lemma SendOne(base: seq<Message>, trace: seq<Segment>, requests: seq<seq<Message>>, history: seq<Message>,
                packet: string, instruction: Option<string>)
    requires AllSent(base, trace, requests) && history == base + TraceMessages(trace)
    ensures AllSent(base, trace, requests + [Request(history, packet, instruction)])
    ensures Sent(base, trace, Request(history, packet, instruction), |trace|)
  {
    assert trace[..|trace|] == trace;
    var request := Request(history, packet, instruction);
    assert Sent(base, trace, request, |trace|);
    assert SentSometime(base, trace, request);
    hide SentSometime;
  }

  /** What a stretch of the loop keeps of its trace when it only steers. */
  ghost predicate OnlySteered(before: seq<Segment>, after: seq<Segment>, inputs: seq<SteerInput>) {
    && TraceInputs(after) == TraceInputs(before) + inputs && Batches(after) == Batches(before)
    && CallsRun(after) == CallsRun(before) && (WellFormedTrace(after) <==> WellFormedTrace(before))
    && (BoundedTrace(after) <==> BoundedTrace(before))
  }

  lemma SteerOnly(base: seq<Message>, trace: seq<Segment>, requests: seq<seq<Message>>, inputs: seq<SteerInput>)
    requires AllSent(base, trace, requests)
    ensures OnlySteered(trace, trace + [Steered(inputs)], inputs) && AllSent(base, trace + [Steered(inputs)], requests)
    ensures base + TraceMessages(trace + [Steered(inputs)]) == (base + TraceMessages(trace)) + SteerMessages(inputs)
  {
    hide AllSent, WellFormedTrace, BoundedTrace, TraceMessages, Batches, CallsRun, TraceInputs;
    TraceSnoc(base, trace, Steered(inputs), requests);
    SegmentsSnoc(trace, Steered(inputs));
    assert Batches(trace) + [] == Batches(trace);
  }

  /** Deliver, then note what was delivered. */
  method Boundary(env: Environment, k: nat, session: SteerSession, ghost turn: Id, mailbox: TurnSteerMailbox,
                  ghost base: seq<Message>, history: seq<Message>, ghost trace: seq<Segment>,
                  ghost requests: seq<seq<Message>>)
    returns (history': seq<Message>, ghost trace': seq<Segment>, ghost inputs: seq<SteerInput>)
    requires Steers(session, turn, mailbox) && AllSent(base, trace, requests) && history == base + TraceMessages(trace)
    modifies session, mailbox
    ensures Steers(session, turn, mailbox) && session.mailboxes == old(session.mailboxes)
    ensures mailbox.delivered == old(mailbox.delivered) + inputs
    ensures history' == history + SteerMessages(inputs) == base + TraceMessages(trace')
            && AllSent(base, trace', requests)
    ensures OnlySteered(trace, trace', inputs)
  {
    hide AllSent, OnlySteered, TraceMessages, Steers;
    Admit(session, turn, mailbox, env.arrivals(k));
    history', inputs := Rewrite(session, turn, mailbox, history);
    trace' := trace + [Steered(inputs)];
    SteerOnly(base, trace, requests, inputs);
  }

  lemma NothingExplained(env: Environment)
    ensures Explained(env, [], []) && WellFormedTrace([]) && BoundedTrace([]) && CallsRun([]) == 0
  {
  }

  lemma NothingSent(base: seq<Message>)
    ensures AllSent(base, [], []) && base + TraceMessages([]) == base && TraceInputs([]) == [] && Batches([]) == []
  {
  }

  /** The reserved tools-disabled answer: packets first, then a last delivery, then the request. */
  method FinalStep(env: Environment, k: nat, ghost base: seq<Message>, history: seq<Message>, ghost trace: seq<Segment>,
                   requests: seq<seq<Message>>, session: SteerSession, ghost turn: Id, mailbox: TurnSteerMailbox,
                   budget: TurnBudget, ghost maxSteps: nat, ghost spent: bool)
    returns (requests': seq<seq<Message>>, r: Result<Reply, TurnError>, ghost trace': seq<Segment>,
             ghost inputs: seq<SteerInput>)
    requires Steers(session, turn, mailbox) && budget.Valid()
    requires AllSent(base, trace, requests) && history == base + TraceMessages(trace)
    requires |requests| == |Batches(trace)| == k && (k == maxSteps || spent)
    modifies session, mailbox, budget`finalResponseAcquired
    ensures Steers(session, turn, mailbox) && budget.Valid() && session.mailboxes == old(session.mailboxes)
    ensures mailbox.delivered == old(mailbox.delivered) + inputs && OnlySteered(trace, trace', inputs)
    ensures |requests'| <= |requests| + 1 && AllSent(base, trace', requests') && requests <= requests'
    ensures r.Ok? ==> |requests'| == |requests| + 1 && Sent(base, trace', requests'[|requests|], |trace'|)
    ensures Ended(env, maxSteps, base, trace', requests',
                  budget.finalResponseAcquired && !old(budget.finalResponseAcquired), spent, r)
    ensures old(budget.finalResponseAcquired) ==> budget.finalResponseAcquired && r.Err? && |requests'| == |requests|
    ensures !old(budget.finalResponseAcquired) ==>
      |requests'| == |requests| + if budget.finalResponseAcquired then 1 else 0
  {
    hide AllSent, Sent, TraceMessages, OnlySteered, Request, Steers, Accounts, Batches;
    var withPacket := WithTaskPacket(history, env.packet(k));
    var withInstruction := InsertAfterSystem(withPacket, System(env.finalInstruction));
    PacketsOf(history, env.packet(k), env.finalInstruction);
    Admit(session, turn, mailbox, env.arrivals(k));
    var request;
    request, inputs := Rewrite(session, turn, mailbox, withInstruction);
    SteerAfterRequest(history, env.packet(k), env.finalInstruction, inputs);
    trace' := trace + [Steered(inputs)];
    SteerOnly(base, trace, requests, inputs);
    FinalParts(trace, trace', inputs);
    requests' := requests;
    SendOne(base, trace', requests, history + SteerMessages(inputs), env.packet(k), Some(env.finalInstruction));
    if !env.admitted(k, request) {
      r := Err(RequestTooLarge);
      return;
    }
    if !env.contextOk(k) {
      r := Err(ContextLost);
      return;
    }
    var acquired := budget.AcquireFinalResponse();
    if !acquired {
      r := Err(FinalResponseSpent);
      return;
    }
    requests' := requests + [request];
    var reply := env.respond(k, request);
    r := if reply.None? then Err(ModelFailed) else Ok(FinalAnswer(env, reply.value));
  }

  lemma PacketsOf(history: seq<Message>, packet: string, instruction: string)
    ensures WithPacket(Request(history, packet, None), System(instruction)) ==
            Request(history, packet, Some(instruction))
  {
  }

  /** The loop's account of itself after `steps` batches. */
  ghost predicate Accounted(env: Environment, base: seq<Message>, history: seq<Message>, trace: seq<Segment>,
                            requests: seq<seq<Message>>, steps: nat) {
    && history == base + TraceMessages(trace) && AllSent(base, trace, requests)
    && |Batches(trace)| == steps && Explained(env, requests, Batches(trace))
    && (env.tools.AnswersInOrder() ==> WellFormedTrace(trace))
    && (env.tools.AnswersInOrder() && env.tools.ReportsCalls() ==> BoundedTrace(trace))
  }

  /** One batch is added to the account. */
  lemma AddBatch(env: Environment, base: seq<Message>, history: seq<Message>, trace: seq<Segment>,
                 requests: seq<seq<Message>>, steps: nat, reply: Reply, b: Segment)
    requires Accounted(env, base, history, trace, requests, steps) && |requests| == steps + 1
    requires env.respond(steps, requests[steps]) == Some(reply) && WithIds(env, steps, reply.calls) != []
    requires b.Batch? && b.text == reply.text && b.calls == WithIds(env, steps, reply.calls)
    requires env.tools.AnswersInOrder() ==> Answers(b.results, b.calls)
    requires env.tools.AnswersInOrder() && env.tools.ReportsCalls() ==> Bounded(IdsOf(b.calls), b.previews)
    ensures Accounted(env, base, history + ([Assistant(b.text, b.calls)] + b.results), trace + [b], requests, steps + 1)
    ensures TraceInputs(trace + [b]) == TraceInputs(trace) && CallsRun(trace + [b]) == CallsRun(trace) + b.run
  {
    hide AllSent, Explained, WellFormedTrace, BoundedTrace, TraceMessages, Batches, WithIds, Answers, Bounded,
      TraceInputs, CallsRun;
    TraceSnoc(base, trace, b, requests);
    SegmentsSnoc(trace, b);
    ExplainedSnoc(env, requests, Batches(trace), reply);
    assert TraceInputs(trace) + [] == TraceInputs(trace);
  }

  lemma AddSteers(env: Environment, base: seq<Message>, history: seq<Message>, history': seq<Message>,
                  trace: seq<Segment>, trace': seq<Segment>, requests: seq<seq<Message>>, steps: nat,
                  inputs: seq<SteerInput>)
    requires Accounted(env, base, history, trace, requests, steps) && OnlySteered(trace, trace', inputs)
    requires history' == base + TraceMessages(trace') && AllSent(base, trace', requests)
    ensures Accounted(env, base, history', trace', requests, steps)
  {
  }

  lemma AddRequest(env: Environment, base: seq<Message>, history: seq<Message>, trace: seq<Segment>,
                   requests: seq<seq<Message>>, steps: nat, packet: string)
    requires Accounted(env, base, history, trace, requests, steps)
    ensures Accounted(env, base, history, trace, requests + [Request(history, packet, None)], steps)
    ensures Sent(base, trace, Request(history, packet, None), |trace|)
  {
    hide AllSent, Sent, Explained, WellFormedTrace, BoundedTrace, TraceMessages, Batches, Request;
    SendOne(base, trace, requests, history, packet, None);
    ExplainedLater(env, requests, requests + [Request(history, packet, None)], Batches(trace));
  }

  /** One round: deliver, ask, and either finish or run the batch. None: go on. */
  method Step(env: Environment, k: nat, ghost base: seq<Message>, history: seq<Message>, ghost trace: seq<Segment>,
              requests: seq<seq<Message>>, session: SteerSession, ghost turn: Id, mailbox: TurnSteerMailbox,
              budget: TurnBudget, recorder: TurnRecorder)
    returns (history': seq<Message>, requests': seq<seq<Message>>, r: Option<Result<Reply, TurnError>>,
             ghost trace': seq<Segment>, ghost inputs: seq<SteerInput>)
    requires Steers(session, turn, mailbox) && budget.Valid() && recorder.Valid()
    requires Accounted(env, base, history, trace, requests, k) && |requests| == k
    modifies session, mailbox, budget, recorder
    ensures Steers(session, turn, mailbox) && budget.Valid() && recorder.Valid()
            && session.mailboxes == old(session.mailboxes)
    ensures mailbox.delivered == old(mailbox.delivered) + inputs && TraceInputs(trace') == TraceInputs(trace) + inputs
    ensures Accounted(env, base, history', trace', requests', if r.None? then k + 1 else k)
    ensures k <= |requests'| <= k + 1 && (r.None? ==> |requests'| == k + 1)
    ensures r.Some? && r.value.Ok? ==> |requests'| == k + 1 && Sent(base, trace', requests'[k], |trace'|)
    ensures r.Some? ==>
      Ended(env, 0, base, trace', requests', false, false, r.value) && r.value != Err(FinalResponseSpent)
    ensures budget.StepsUnchanged()
    ensures old(budget.toolCalls) + CallsRun(trace') <= budget.toolCalls + CallsRun(trace)
  {
    hide Accounted, AllSent, Sent, OnlySteered, Request, TraceMessages, TraceInputs, Batches, CallsRun, WithIds, Steers,
      Accounts, Explained, Bounded, Answers, NoRepeat, Admits, BatchOutcome, Projected;
    requests' := requests;
    AccountParts(env, base, history, trace, requests, k);
    history', trace', inputs := Boundary(env, k, session, turn, mailbox, base, history, trace, requests);
    AddSteers(env, base, history, history', trace, trace', requests, k, inputs);
    SteersCount(trace, trace', inputs);
    var request := WithTaskPacket(history', env.packet(k));
    AddRequest(env, base, history', trace', requests, k, env.packet(k));
    AccountParts(env, base, history', trace', requests, k);
    if !env.admitted(k, request) {
      r := Some(Err(RequestTooLarge));
      return;
    }
    requests' := requests + [request];
    var reply := env.respond(k, request);
    if reply.None? {
      r := Some(Err(ModelFailed));
      return;
    }
    var calls := WithIds(env, k, reply.value.calls);
    if calls == [] {
      r := Some(Ok(reply.value));
      return;
    }
    var results, decisions, previews := RunBatch(env.tools, k, calls, budget, recorder);
    if results.Err? {
      r := Some(Err(BatchFailed(results.error)));
      assert Fails(env.tools, k, calls, old(budget.admitted), recorder.failed, results.error);
      return;
    }
    ghost var b := Batch(reply.value.text, calls, results.value, |PermittedCalls(calls, decisions)|, previews);
    AddBatch(env, base, history', trace', requests', k, reply.value, b);
    history' := history' + ([Assistant(reply.value.text, calls)] + results.value);
    trace' := trace' + [b];
    r := None;
  }

  lemma AccountParts(env: Environment, base: seq<Message>, history: seq<Message>, trace: seq<Segment>,
                     requests: seq<seq<Message>>, steps: nat)
    requires Accounted(env, base, history, trace, requests, steps)
    ensures history == base + TraceMessages(trace) && AllSent(base, trace, requests)
    ensures |Batches(trace)| == steps && Explained(env, requests, Batches(trace))
    ensures env.tools.AnswersInOrder() ==> WellFormedTrace(trace)
    ensures env.tools.AnswersInOrder() && env.tools.ReportsCalls() ==> BoundedTrace(trace)
  {
  }

  lemma SteersCount(trace: seq<Segment>, trace': seq<Segment>, inputs: seq<SteerInput>)
    requires OnlySteered(trace, trace', inputs)
    ensures TraceInputs(trace') == TraceInputs(trace) + inputs && CallsRun(trace') == CallsRun(trace)
  {
  }

  lemma StartAccount(env: Environment, base: seq<Message>)
    ensures Accounted(env, base, base, [], [], 0) && TraceInputs([]) == [] && CallsRun([]) == 0
  {
    NothingSent(base);
    NothingExplained(env);
  }

  /** Every request is the history so far, with the packets in its system prefix; what the mailbox
      delivered is exactly what the history shows; the last request shows all of it; no more calls
      reach the tools than the budget reserved, and no batch shows more than its bound. */
  method RunTurn(env: Environment, maxSteps: nat, messages: seq<Message>, session: SteerSession, ghost turn: Id,
                 mailbox: TurnSteerMailbox, budget: TurnBudget, recorder: TurnRecorder)
    returns (requests: seq<seq<Message>>, r: Result<Reply, TurnError>, ghost trace: seq<Segment>)
    requires Steers(session, turn, mailbox) && budget.Valid() && recorder.Valid()
    modifies session, mailbox, budget, recorder
    ensures Steers(session, turn, mailbox) && budget.Valid() && recorder.Valid()
            && session.mailboxes == old(session.mailboxes)
    ensures |requests| <= maxSteps + 1 && AllSent(messages, trace, requests)
    ensures r.Ok? ==> requests != [] && Sent(messages, trace, requests[|requests| - 1], |trace|)
    ensures mailbox.delivered == old(mailbox.delivered) + TraceInputs(trace)
    ensures Explained(env, requests, Batches(trace)) && |requests| <= |Batches(trace)| + 1
    ensures var final := budget.finalResponseAcquired && !old(budget.finalResponseAcquired);
      && Ended(env, maxSteps, messages, trace, requests, final, budget.modelSteps >= budget.maxModelSteps, r)
      && old(budget.modelSteps) + |requests| <= budget.modelSteps + if final then 1 else 0
    ensures env.tools.AnswersInOrder() ==> WellFormedTrace(trace)
    ensures env.tools.AnswersInOrder() && env.tools.ReportsCalls() ==> BoundedTrace(trace)
    ensures old(budget.toolCalls) + CallsRun(trace) <= budget.toolCalls
  {
    hide Accounted, AllSent, Sent, OnlySteered, TraceMessages, TraceInputs, Batches, CallsRun, Steers, Accounts,
      Explained, NoRepeat, WellFormedTrace, BoundedTrace, Ended;
    requests, trace := [], [];
    var history, step := messages, 0;
    ghost var inputs;
    StartAccount(env, messages);
    assert mailbox.delivered + [] == mailbox.delivered;
    while step < maxSteps
      invariant step <= maxSteps && |requests| == step
      invariant Steers(session, turn, mailbox) && budget.Valid() && recorder.Valid()
                && session.mailboxes == old(session.mailboxes)
      invariant Accounted(env, messages, history, trace, requests, step)
      invariant mailbox.delivered == old(mailbox.delivered) + TraceInputs(trace)
      invariant old(budget.toolCalls) + CallsRun(trace) <= budget.toolCalls
      invariant budget.modelSteps == old(budget.modelSteps) + step
      invariant budget.finalResponseAcquired == old(budget.finalResponseAcquired)
    {
      AccountParts(env, messages, history, trace, requests, step);
      if !env.contextOk(step) {
        EndedWithoutContext(env, maxSteps, messages, trace, requests, budget.modelSteps >= budget.maxModelSteps);
        return requests, Err(ContextLost), trace;
      }
      var acquired := budget.AcquireModelStep();
      if !acquired {
        break;
      }
      ghost var before := TraceInputs(trace);
      var done;
      history, requests, done, trace, inputs :=
        Step(env, step, messages, history, trace, requests, session, turn, mailbox, budget, recorder);
      ConcatAssoc(old(mailbox.delivered), before, inputs);
      if done.Some? {
        AccountParts(env, messages, history, trace, requests, step);
        EndedInLoop(env, maxSteps, messages, trace, requests, budget.modelSteps >= budget.maxModelSteps, done.value);
        return requests, done.value, trace;
      }
      step := step + 1;
    }
    ghost var before, sent := trace, requests;
    AccountParts(env, messages, history, trace, requests, step);
    requests, r, trace, inputs :=
      FinalStep(env, step, messages, history, trace, requests, session, turn, mailbox, budget, maxSteps,
                budget.modelSteps >= budget.maxModelSteps);
    ExplainedLater(env, sent, requests, Batches(before));
    FinalParts(before, trace, inputs);
    ConcatAssoc(old(mailbox.delivered), TraceInputs(before), inputs);
  }

  lemma EndedWithoutContext(env: Environment, maxSteps: nat, base: seq<Message>, trace: seq<Segment>,
                            requests: seq<seq<Message>>, spent: bool)
    requires !env.contextOk(|Batches(trace)|)
    ensures Ended(env, maxSteps, base, trace, requests, false, spent, Err(ContextLost))
  {
  }

  /** How the loop itself ends does not depend on what is left for the final response. */
  lemma EndedInLoop(env: Environment, maxSteps: nat, base: seq<Message>, trace: seq<Segment>,
                    requests: seq<seq<Message>>, spent: bool, r: Result<Reply, TurnError>)
    requires Ended(env, 0, base, trace, requests, false, false, r) && r != Err(FinalResponseSpent)
    ensures Ended(env, maxSteps, base, trace, requests, false, spent, r)
  {
  }

  lemma FinalParts(trace: seq<Segment>, trace': seq<Segment>, inputs: seq<SteerInput>)
    requires OnlySteered(trace, trace', inputs)
    ensures TraceInputs(trace') == TraceInputs(trace) + inputs && Batches(trace') == Batches(trace)
    ensures CallsRun(trace') == CallsRun(trace) && (WellFormedTrace(trace') <==> WellFormedTrace(trace))
    ensures BoundedTrace(trace') <==> BoundedTrace(trace)
  {
  }

  /** The theorem about the loop: all its requests are well formed. */
  lemma RequestsArePaired(messages: seq<Message>, trace: seq<Segment>, requests: seq<seq<Message>>, i: nat)
    requires Paired(messages) && WellFormedTrace(trace) && AllSent(messages, trace, requests) && i < |requests|
    ensures Paired(requests[i])
  {
    assert SentSometime(messages, trace, requests[i]);
    var n: nat :| Sent(messages, trace, requests[i], n);
    RequestIsPaired(messages, trace, requests[i], n);
  }

  // ---- the commit ----

  /** How a turn ends outside the loop: what arrives while the answer is streamed, and whether the
      turn may and can be stored. */
  datatype Closing = Closing(
    late: seq<Arrival>, cancelled: bool, valid: string -> bool, stored: bool, stripReasoning: string -> string)

  /** A turn of a session from its activation until its answer has been streamed. */
  method RunSteered(env: Environment, maxSteps: nat, prompt: seq<Message>, late: seq<Arrival>, session: SteerSession,
                    turn: Id, supported: bool, budget: TurnBudget, recorder: TurnRecorder)
    returns (requests: seq<seq<Message>>, r: Result<Reply, TurnError>, ghost trace: seq<Segment>,
             mailbox: TurnSteerMailbox)
    requires session.Valid() && budget.Valid() && recorder.Valid()
    modifies session, budget, recorder
    ensures fresh(mailbox) && Steers(session, turn, mailbox) && session.mailboxes == old(session.mailboxes) + {mailbox}
    ensures budget.Valid() && recorder.Valid()
    ensures AllSent(prompt, trace, requests) && (env.tools.AnswersInOrder() ==> WellFormedTrace(trace))
    ensures env.tools.AnswersInOrder() && env.tools.ReportsCalls() ==> BoundedTrace(trace)
    ensures old(budget.toolCalls) + CallsRun(trace) <= budget.toolCalls
    ensures mailbox.delivered == TraceInputs(trace)
    ensures r.Ok? ==> requests != [] && Sent(prompt, trace, requests[|requests| - 1], |trace|)
    ensures Explained(env, requests, Batches(trace))
    ensures var final := budget.finalResponseAcquired && !old(budget.finalResponseAcquired);
      Ended(env, maxSteps, prompt, trace, requests, final, budget.modelSteps >= budget.maxModelSteps, r)
  {
    hide AllSent, Sent, TraceMessages, TraceInputs, WellFormedTrace, BoundedTrace, CallsRun, Accounts, NoRepeat,
      WindowAfter, Orderly, Known, InputsTo, Numbered, Explained, Batches, Ended;
    mailbox := new TurnSteerMailbox();
    session.Activate(turn, mailbox, supported);
    requests, r, trace := RunTurn(env, maxSteps, prompt, session, turn, mailbox, budget, recorder);
    assert [] + TraceInputs(trace) == TraceInputs(trace);
    Admit(session, turn, mailbox, late);
  }

  /** `closeSteering`: nothing is accepted from here on, and what still waits is dropped. */
  method CloseSteering(session: SteerSession, turn: Id, mailbox: TurnSteerMailbox, keep: bool)
    returns (inputs: seq<SteerInput>)
    requires Steers(session, turn, mailbox)
    modifies session, mailbox
    ensures session.Valid() && !session.Steerable(turn) && session.mailboxes == old(session.mailboxes)
    ensures mailbox.Valid() && mailbox.closed && mailbox.accepted == old(mailbox.accepted)
    ensures mailbox.delivered == old(mailbox.delivered) && (!keep ==> mailbox.consumed == [])
    ensures inputs == if keep then mailbox.delivered else []
  {
    hide WindowAfter, Orderly, Known, InputsTo, Numbered;
    session.StopSteerTurn(turn);
    inputs := mailbox.Close();
    if !keep {
      mailbox.Discard();
      inputs := [];
    }
    session.ClearSteerTurn(turn);
  }

  /** A turn that commits stores the request, exactly the inputs the model was shown, in the order it
      was shown them, and the answer the loop ended with, without its reasoning; no tool result is
      among them. It commits whenever there is an answer that may be stored. Input that comes after the
      last model call is accepted and not stored. Any other end forgets all of it. */
  method AskTurn(env: Environment, maxSteps: nat, prompt: seq<Message>, user: Message, closing: Closing,
                 session: SteerSession, turn: Id, supported: bool, budget: TurnBudget, recorder: TurnRecorder)
    returns (commit: Option<seq<Message>>, requests: seq<seq<Message>>, ghost trace: seq<Segment>,
             mailbox: TurnSteerMailbox, ghost late: seq<SteerInput>, ghost r: Result<Reply, TurnError>)
    requires user.User? && session.Valid() && budget.Valid() && recorder.Valid()
    modifies session, budget, recorder
    ensures session.Valid() && !session.Steerable(turn) && budget.Valid() && recorder.Valid()
    ensures AllSent(prompt, trace, requests) && (env.tools.AnswersInOrder() ==> WellFormedTrace(trace))
    ensures env.tools.AnswersInOrder() && env.tools.ReportsCalls() ==> BoundedTrace(trace)
    ensures old(budget.toolCalls) + CallsRun(trace) <= budget.toolCalls
    ensures fresh(mailbox) && mailbox.Valid() && mailbox.closed
            && session.mailboxes == old(session.mailboxes) + {mailbox}
    ensures mailbox.accepted == TraceInputs(trace) + late
    ensures Explained(env, requests, Batches(trace))
    ensures var final := budget.finalResponseAcquired && !old(budget.finalResponseAcquired);
      Ended(env, maxSteps, prompt, trace, requests, final, budget.modelSteps >= budget.maxModelSteps, r)
    ensures commit.Some? <==>
              r.Ok? && !recorder.failed && !closing.cancelled && closing.valid(r.value.text) && closing.stored
    ensures commit.Some? ==>
      && requests != [] && Sent(prompt, trace, requests[|requests| - 1], |trace|)
      && Commits(commit.value, user, TraceInputs(trace), closing.stripReasoning(r.value.text))
    ensures commit.None? ==> mailbox.consumed == []
  {
    hide AllSent, Sent, TraceMessages, TraceInputs, WellFormedTrace, BoundedTrace, CallsRun, Accounts, NoRepeat, Steers,
      Numbered, WindowAfter, Orderly, Known, InputsTo, SteerMessages, Explained, Batches;
    var outcome;
    requests, outcome, trace, mailbox :=
      RunSteered(env, maxSteps, prompt, closing.late, session, turn, supported, budget, recorder);
    r := outcome;
    var keep := outcome.Ok? && !recorder.failed && !closing.cancelled && closing.valid(outcome.value.text)
      && closing.stored;
    var inputs := CloseSteering(session, turn, mailbox, keep);
    late := mailbox.accepted[|TraceInputs(trace)|..];
    commit := None;
    if keep {
      AnswersAskNothing(env, maxSteps, prompt, trace, requests,
                        budget.finalResponseAcquired && !old(budget.finalResponseAcquired),
                        budget.modelSteps >= budget.maxModelSteps, outcome.value);
      hide Ended;
      var steers := RenderSteers(inputs);
      commit := Some([user] + steers + [Assistant(closing.stripReasoning(outcome.value.text), outcome.value.calls)]);
    }
  }

  /** An answer carries no tool calls. */
  lemma AnswersAskNothing(env: Environment, maxSteps: nat, base: seq<Message>, trace: seq<Segment>,
                          requests: seq<seq<Message>>, final: bool, spent: bool, answer: Reply)
    requires Ended(env, maxSteps, base, trace, requests, final, spent, Ok(answer))
    ensures answer.calls == []
  {
  }

  /** What a committed turn holds: the request, the inputs shown, the answer. */
  ghost predicate Commits(messages: seq<Message>, user: Message, inputs: seq<SteerInput>, answer: string) {
    user.User? && messages == [user] + SteerMessages(inputs) + [Assistant(answer, [])]
  }

  lemma CommitHasNoTool(messages: seq<Message>, user: Message, inputs: seq<SteerInput>, answer: string)
    requires Commits(messages, user, inputs, answer)
    ensures forall i :: 0 <= i < |messages| ==> !messages[i].Tool?
  {
    SteersAreUsers(inputs);
  }
}
