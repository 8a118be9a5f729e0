/** Prompt messages: what the model reads and what a turn commits. */
module Messages {
  import opened Ids

  /** One requested tool invocation, with its protocol call id. */
  datatype Call = Call(id: Id, name: string, arguments: string)

  datatype Message =
    | System(text: string)
    | User(text: string)
    | Assistant(text: string, calls: seq<Call>)
    | Tool(callId: Id, text: string)

  /** The estimate of a prompt is the sum of the estimates of its messages. */
  function Cost(cost: Message -> nat, messages: seq<Message>): nat {
    if messages == [] then 0 else Cost(cost, messages[..|messages| - 1]) + cost(messages[|messages| - 1])
  }

  lemma CostSnoc(cost: Message -> nat, messages: seq<Message>, last: Message)
    ensures Cost(cost, messages + [last]) == Cost(cost, messages) + cost(last)
  {
    SnocInit(messages, last);
  }

  lemma {:induction false} CostAppend(cost: Message -> nat, a: seq<Message>, b: seq<Message>)
    ensures Cost(cost, a + b) == Cost(cost, a) + Cost(cost, b)
  {
    if b == [] {
      assert a + b == a;
    } else {
      var rest, last := b[..|b| - 1], b[|b| - 1];
      CostAppend(cost, a, rest);
      assert (a + b)[..|a + b| - 1] == a + rest;
    }
  }
}
