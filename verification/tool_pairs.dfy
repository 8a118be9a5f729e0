/** Every tool result directly follows the assistant call it answers, or its batch siblings: through
    durable replay (`internal/chat/session.go`) and through the planner. */
module ToolPairs {
  import opened Ids
  import opened Messages
  import opened CheckpointContract
  import opened Planner

  /** The results answer the calls one by one, in call order. */
  predicate Answers(results: seq<Message>, calls: seq<Call>) {
    && |results| == |calls|
    && forall i :: 0 <= i < |results| ==> results[i].Tool? && results[i].callId == calls[i].id
  }

  predicate Paired(messages: seq<Message>) {
    if messages == [] then true
    else match messages[0]
      case Tool(_, _) => false
      case Assistant(_, calls) =>
        && |messages| > |calls|
        && Answers(messages[1..1 + |calls|], calls)
        && Paired(messages[1 + |calls|..])
      case _ => Paired(messages[1..])
  }

  /** The leading block: one message, or an assistant message and the results of its batch. */
  function Block(message: Message): nat {
    if message.Assistant? then 1 + |message.calls| else 1
  }

  lemma PairedUnfold(messages: seq<Message>)
    requires messages != []
    ensures var m, n := messages[0], Block(messages[0]);
      Paired(messages) <==>
        !m.Tool? && n <= |messages| && Paired(messages[n..]) && (m.Assistant? ==> Answers(messages[1..n], m.calls))
  {
  }

  lemma {:induction false} PairedAppend(a: seq<Message>, b: seq<Message>)
    requires Paired(a) && Paired(b)
    ensures Paired(a + b)
  {
    if a == [] {
      assert a + b == b;
    } else {
      var n := Block(a[0]);
      PairedUnfold(a);
      PairedAppend(a[n..], b);
      TailOfAppend(a, b, n);
      PairedUnfold(a + b);
    }
  }

  lemma TailOfAppend<T>(a: seq<T>, b: seq<T>, n: nat)
    requires 1 <= n <= |a|
    ensures (a + b)[0] == a[0] && (a + b)[1..n] == a[1..n] && (a + b)[n..] == a[n..] + b
  {
  }

  predicate Plain(m: Message) {
    !m.Tool? && (m.Assistant? ==> m.calls == [])
  }

  lemma {:induction false} PlainIsPaired(messages: seq<Message>)
    requires forall i :: 0 <= i < |messages| ==> Plain(messages[i])
    ensures Paired(messages)
  {
    if messages != [] {
      PlainIsPaired(messages[1..]);
    }
  }

  /** One complete batch. */
  lemma BatchIsPaired(text: string, calls: seq<Call>, results: seq<Message>)
    requires Answers(results, calls)
    ensures Paired([Assistant(text, calls)] + results)
  {
    var messages := [Assistant(text, calls)] + results;
    assert messages[1..1 + |calls|] == results && messages[1 + |calls|..] == [];
  }

  // ---- a packet after the system prefix ----

  function LeadingSystem(messages: seq<Message>): (n: nat)
    ensures n <= |messages| && (n < |messages| ==> !messages[n].System?)
    ensures forall i :: 0 <= i < n ==> messages[i].System?
  {
    if messages == [] || !messages[0].System? then 0 else 1 + LeadingSystem(messages[1..])
  }

  method InsertAfterSystem(messages: seq<Message>, packet: Message) returns (r: seq<Message>)
    ensures r == WithPacket(messages, packet)
  {
    var insertAt := 0;
    while insertAt < |messages| && messages[insertAt].System?
      invariant insertAt <= |messages|
      invariant LeadingSystem(messages) == insertAt + LeadingSystem(messages[insertAt..])
    {
      assert messages[insertAt..][1..] == messages[insertAt + 1..];
      insertAt := insertAt + 1;
    }
    r := messages[..insertAt] + [packet] + messages[insertAt..];
  }

  function WithPacket(messages: seq<Message>, packet: Message): seq<Message> {
    messages[..LeadingSystem(messages)] + [packet] + messages[LeadingSystem(messages)..]
  }

  lemma {:induction false} SystemPrefix(messages: seq<Message>)
    requires Paired(messages)
    ensures Paired(messages[..LeadingSystem(messages)]) && Paired(messages[LeadingSystem(messages)..])
  {
    var n := LeadingSystem(messages);
    if n == 0 {
      assert messages[n..] == messages;
    } else {
      SystemPrefix(messages[1..]);
      assert messages[1..][n - 1..] == messages[n..];
      assert messages[..n][1..] == messages[1..][..n - 1];
    }
  }

  /** The packet cannot fall between a call and its results. */
  lemma PacketKeepsPairs(messages: seq<Message>, packet: Message)
    requires Paired(messages) && Plain(packet)
    ensures Paired(WithPacket(messages, packet))
  {
    var n := LeadingSystem(messages);
    SystemPrefix(messages);
    PlainIsPaired([packet]);
    PairedAppend(messages[..n], [packet]);
    PairedAppend(messages[..n] + [packet], messages[n..]);
  }

  // ---- durable replay of a committed turn ----

  datatype ToolStarted = ToolStarted(callId: Id, name: string, input: string)

  datatype ToolRecord = ToolRecord(started: Option<ToolStarted>, output: Option<string>)

  datatype CommittedTurn = CommittedTurn(messages: seq<Message>, tools: seq<ToolRecord>)

  /** How replay prints what it cannot take over literally. */
  datatype Replayer = Replayer(
    stripReasoning: string -> string, toolArguments: string -> string, generatedId: nat -> Id)
  {
    function Strip(m: Message): Message {
      if m.Assistant? then Assistant(stripReasoning(m.text), []) else m
    }

    function StripAll(messages: seq<Message>): (stripped: seq<Message>)
      ensures |stripped| == |messages|
    {
      if messages == [] then [] else StripAll(messages[..|messages| - 1]) + [Strip(messages[|messages| - 1])]
    }

    function Pair(tool: ToolRecord, i: nat): seq<Message> {
      if tool.started.None? || tool.output.None? then [] else
        var s := tool.started.value;
        var id := if s.callId == Id.Blank then generatedId(i + 1) else s.callId;
        [Assistant("", [Call(id, s.name, toolArguments(s.input))]), Message.Tool(id, tool.output.value)]
    }

    function Pairs(tools: seq<ToolRecord>): seq<Message> {
      if tools == [] then [] else
        var n := |tools| - 1;
        Pairs(tools[..n]) + Pair(tools[n], n)
    }
  }

  /** Position of the last assistant message, or the end when there is none. */
  function LastAssistant(messages: seq<Message>): (n: nat)
    ensures n <= |messages|
    ensures n < |messages| ==> messages[n].Assistant? && forall i :: n < i < |messages| ==> !messages[i].Assistant?
    ensures n == |messages| ==> forall i :: 0 <= i < |messages| ==> !messages[i].Assistant?
  {
    if messages == [] then 0
    else if messages[|messages| - 1].Assistant? then |messages| - 1
    else
      var n := LastAssistant(messages[..|messages| - 1]);
      if n == |messages| - 1 then |messages| else n
  }

  /** Completed tool calls are put back, as pairs, in front of the final answer. */
  function ReplayMessages(r: Replayer, turn: CommittedTurn): seq<Message> {
    var base := r.StripAll(turn.messages);
    base[..LastAssistant(base)] + r.Pairs(turn.tools) + base[LastAssistant(base)..]
  }

  /** Strip what a polluted commit could leak, then splice the completed tools in. */
  method TurnGroupMessages(r: Replayer, turn: CommittedTurn) returns (messages: seq<Message>)
    ensures messages == ReplayMessages(r, turn)
  {
    hide LastAssistant;
    var base := StripCommitted(r, turn.messages);
    ghost var at := LastAssistant(base);
    SpliceNothing(base, at);
    if turn.tools == [] {
      return base;
    }
    var insertAt := |base|;
    for i := |base| downto 0
      invariant insertAt == |base|
      invariant forall k :: i <= k < |base| ==> !base[k].Assistant?
    {
      if base[i].Assistant? {
        insertAt := i;
        break;
      }
    }
    assert insertAt == at;
    var toolMessages := RebuildPairs(r, turn.tools);
    if toolMessages == [] {
      return base;
    }
    messages := base[..insertAt] + toolMessages + base[insertAt..];
  }

  lemma SpliceNothing<T>(s: seq<T>, at: nat)
    requires at <= |s|
    ensures s[..at] + [] + s[at..] == s
  {
  }

  method StripCommitted(r: Replayer, messages: seq<Message>) returns (base: seq<Message>)
    ensures base == r.StripAll(messages)
  {
    base := messages;
    for i := 0 to |messages|
      invariant |base| == |messages| && base[..i] == r.StripAll(messages[..i]) && base[i..] == messages[i..]
    {
      assert messages[..i + 1][..i] == messages[..i];
      if base[i].Assistant? {
        base := base[i := r.Strip(base[i])];
      }
    }
    assert messages[..|messages|] == messages && base[..|base|] == base;
  }

  method RebuildPairs(r: Replayer, tools: seq<ToolRecord>) returns (toolMessages: seq<Message>)
    ensures toolMessages == r.Pairs(tools)
  {
    toolMessages := [];
    for i := 0 to |tools|
      invariant toolMessages == r.Pairs(tools[..i])
    {
      var tool := tools[i];
      assert tools[..i + 1][..i] == tools[..i];
      if tool.started.None? || tool.output.None? {
        continue;
      }
      var callId := tool.started.value.callId;
      if callId == Id.Blank {
        callId := r.generatedId(i + 1);
      }
      ConcatAssoc(toolMessages,
                  [Assistant("", [Call(callId, tool.started.value.name, r.toolArguments(tool.started.value.input))])],
                  [Message.Tool(callId, tool.output.value)]);
      toolMessages := toolMessages +
        [Assistant("", [Call(callId, tool.started.value.name, r.toolArguments(tool.started.value.input))])];
      toolMessages := toolMessages + [Message.Tool(callId, tool.output.value)];
    }
    assert tools[..|tools|] == tools;
  }

  lemma {:induction false} StrippedIsPlain(r: Replayer, messages: seq<Message>)
    requires forall i :: 0 <= i < |messages| ==> !messages[i].Tool?
    ensures forall i :: 0 <= i < |r.StripAll(messages)| ==> Plain(r.StripAll(messages)[i])
  {
    if messages != [] {
      StrippedIsPlain(r, messages[..|messages| - 1]);
    }
  }

  lemma {:induction false} PairsArePaired(r: Replayer, tools: seq<ToolRecord>)
    ensures Paired(r.Pairs(tools))
  {
    if tools != [] {
      var n := |tools| - 1;
      PairsArePaired(r, tools[..n]);
      var pair := r.Pair(tools[n], n);
      if pair != [] {
        BatchIsPaired("", pair[0].calls, [pair[1]]);
        assert pair == [pair[0]] + [pair[1]];
      }
      PairedAppend(r.Pairs(tools[..n]), pair);
    }
  }

  /** A commit without tool-role messages replays well formed, whatever it contained otherwise. */
  lemma ReplayIsPaired(r: Replayer, turn: CommittedTurn)
    requires forall i :: 0 <= i < |turn.messages| ==> !turn.messages[i].Tool?
    ensures Paired(ReplayMessages(r, turn))
  {
    var base := r.StripAll(turn.messages);
    var at := LastAssistant(base);
    StrippedIsPlain(r, turn.messages);
    PlainIsPaired(base[..at]);
    PlainIsPaired(base[at..]);
    PairsArePaired(r, turn.tools);
    PairedAppend(base[..at], r.Pairs(turn.tools));
    PairedAppend(base[..at] + r.Pairs(turn.tools), base[at..]);
  }

  /** A tool call whose start and completion are both on record. */
  predicate Completed(tool: ToolRecord) {
    tool.started.Some? && tool.output.Some?
  }

  function CountCompleted(tools: seq<ToolRecord>, n: nat): nat
    requires n <= |tools|
  {
    if n == 0 then 0 else CountCompleted(tools, n - 1) + if Completed(tools[n - 1]) then 1 else 0
  }

  /** The id a replayed call goes by. */
  function ReplayId(r: Replayer, tools: seq<ToolRecord>, i: nat): Id
    requires i < |tools| && tools[i].started.Some?
  {
    if tools[i].started.value.callId == Id.Blank then r.generatedId(i + 1) else tools[i].started.value.callId
  }

  /** `shown` is one call and its result for each completed tool, in the order of the tools. */
  ghost predicate ShowsCompleted(r: Replayer, tools: seq<ToolRecord>, n: nat, shown: seq<Message>)
    requires n <= |tools|
  {
    && |shown| == 2 * CountCompleted(tools, n)
    && forall i :: 0 <= i < n && Completed(tools[i]) ==> ShowsTool(r, tools, i, shown)
  }

  ghost predicate ShowsTool(r: Replayer, tools: seq<ToolRecord>, i: nat, shown: seq<Message>)
    requires i < |tools| && Completed(tools[i])
  {
    var at, s, id := 2 * CountCompleted(tools, i), tools[i].started.value, ReplayId(r, tools, i);
    && at + 1 < |shown|
    && shown[at] == Assistant("", [Call(id, s.name, r.toolArguments(s.input))])
    && shown[at + 1] == Message.Tool(id, tools[i].output.value)
  }

  lemma {:induction false} PairsShowCompleted(r: Replayer, tools: seq<ToolRecord>, n: nat)
    requires n <= |tools|
    ensures ShowsCompleted(r, tools, n, r.Pairs(tools[..n]))
  {
    if n > 0 {
      PairsShowCompleted(r, tools, n - 1);
      assert tools[..n][..n - 1] == tools[..n - 1];
      var before, shown := r.Pairs(tools[..n - 1]), r.Pairs(tools[..n]);
      assert shown == before + r.Pair(tools[n - 1], n - 1);
      forall i | 0 <= i < n && Completed(tools[i]) ensures ShowsTool(r, tools, i, shown) {
        if i < n - 1 {
          assert ShowsTool(r, tools, i, before);
        }
      }
    }
  }

  /** `to` is `from`, without reasoning and calls. */
  predicate IsStripped(r: Replayer, from: Message, to: Message) {
    if from.Assistant? then to == Assistant(r.stripReasoning(from.text), []) else to == from
  }

  lemma {:induction false} StripAllAt(r: Replayer, messages: seq<Message>, i: nat)
    requires i < |messages|
    ensures IsStripped(r, messages[i], r.StripAll(messages)[i])
  {
    if i < |messages| - 1 {
      StripAllAt(r, messages[..|messages| - 1], i);
    }
  }

  /** Replay is the committed messages, every assistant message without its reasoning and its calls, with every
      completed tool in front of the last assistant message: nothing is dropped, added or moved. */
  lemma ReplayIsExact(r: Replayer, turn: CommittedTurn) returns (base: seq<Message>, at: nat, shown: seq<Message>)
    ensures |base| == |turn.messages| && forall i :: 0 <= i < |base| ==> IsStripped(r, turn.messages[i], base[i])
    ensures at <= |base| && (at < |base| ==> base[at].Assistant?)
            && forall i :: at <= i < |base| && base[i].Assistant? ==> i == at
    ensures ShowsCompleted(r, turn.tools, |turn.tools|, shown)
    ensures ReplayMessages(r, turn) == base[..at] + shown + base[at..]
  {
    base := r.StripAll(turn.messages);
    at, shown := LastAssistant(base), r.Pairs(turn.tools);
    forall i | 0 <= i < |base| ensures IsStripped(r, turn.messages[i], base[i]) {
      StripAllAt(r, turn.messages, i);
    }
    PairsShowCompleted(r, turn.tools, |turn.tools|);
    assert turn.tools[..|turn.tools|] == turn.tools;
  }

  // ---- whole-group planning ----

  lemma {:induction false} ArtifactsArePaired(artifacts: seq<Artifact>)
    ensures Paired(ArtifactMessages(artifacts))
  {
    if artifacts != [] {
      ArtifactsArePaired(artifacts[..|artifacts| - 1]);
      var last := [ArtifactMessage(artifacts[|artifacts| - 1])];
      PlainIsPaired(last);
      PairedAppend(ArtifactMessages(artifacts[..|artifacts| - 1]), last);
    }
  }

  lemma {:induction false} GroupsArePaired(groups: seq<TurnGroup>)
    requires forall g :: g in groups ==> Paired(g.messages)
    ensures Paired(AllMessages(groups))
  {
    if groups != [] {
      GroupsArePaired(groups[1..]);
      ArtifactsArePaired(groups[0].artifacts);
      PairedAppend(groups[0].messages, ArtifactMessages(groups[0].artifacts));
      PairedAppend(GroupMessages(groups[0]), AllMessages(groups[1..]));
    }
  }

  lemma AssembledIsPaired(input: PlannerInput, checkpoint: seq<Message>, required: seq<Artifact>,
                          groups: seq<TurnGroup>, optional: seq<Artifact>)
    requires Paired(input.immutable) && Paired(input.active) && Paired(input.current) && Paired(checkpoint)
    requires forall g :: g in groups ==> Paired(g.messages)
    ensures Paired(Assemble(input, checkpoint, required, groups, optional))
  {
    hide Paired, AllMessages, ArtifactMessages;
    ArtifactsArePaired(required);
    GroupsArePaired(groups);
    ArtifactsArePaired(optional);
    var front := Prefix(input) + checkpoint;
    PairedAppend(input.immutable, input.active);
    PairedAppend(Prefix(input), checkpoint);
    PairedAppend(front, ArtifactMessages(required));
    PairedAppend(front + ArtifactMessages(required), AllMessages(groups));
    PairedAppend(front + ArtifactMessages(required) + AllMessages(groups), ArtifactMessages(optional));
    PairedAppend(front + ArtifactMessages(required) + AllMessages(groups) + ArtifactMessages(optional), input.current);
  }

  /** Since groups are kept or dropped as a whole, a plan over well-formed parts is well formed. */
  lemma PlanIsPaired(cost: Message -> nat, promptText: Checkpoint -> string, input: PlannerInput, ceiling: nat,
                     cut: nat, keep: seq<bool>, plan: PromptPlan)
    requires Renders(cost, promptText, input, ceiling, cut, keep, plan)
    requires Paired(input.immutable) && Paired(input.active) && Paired(input.current)
    requires forall g :: g in input.groups ==> Paired(g.messages)
    ensures Paired(plan.messages)
  {
    hide Paired, Assemble, Picked, LeftOut, KeepsWhatFits, Filter, GroupSum, GroupNames, Cost, Front, Reports;
    var checkpoint := PlacedCheckpoint(cost, promptText, input, ceiling);
    PlainIsPaired(checkpoint);
    AssembledIsPaired(input, checkpoint, Filter(IsRequired(true), input.artifacts), input.groups[cut..],
                      Picked(input.artifacts, keep));
  }
}
