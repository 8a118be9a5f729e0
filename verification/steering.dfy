/** Steering a running turn: the turn-local mailbox of `internal/chat/steer.go` and the session's
    record of which turn accepts input. Every method is one critical section. */
module Steering {
  import opened Ids
  import opened Messages
  import opened Text

  datatype SteerInput = SteerInput(sequence: nat, content: string)

  datatype SteerError = EmptyInput | Cancelled | NoActiveTurn | TurnMismatch | NotSteerable | Unsupported

  ghost predicate Numbered(inputs: seq<SteerInput>) {
    forall i :: 0 <= i < |inputs| ==> inputs[i].sequence == i + 1
  }

  class TurnSteerMailbox {
    var closed: bool
    var next: nat
    var pending: seq<SteerInput>
    var consumed: seq<SteerInput>
    ghost var accepted: seq<SteerInput>
    ghost var delivered: seq<SteerInput>

    /** While open, what was delivered followed by what waits is everything that was accepted. */
    ghost predicate Valid()
      reads this
    {
      && next == |accepted| && Numbered(accepted)
      && delivered <= accepted
      && (!closed ==> accepted == delivered + pending && consumed == delivered)
      && (closed ==> pending == [] && (consumed == delivered || consumed == []))
    }

    constructor ()
      ensures Valid() && !closed && accepted == [] && delivered == []
    {
      closed, next, pending, consumed, accepted, delivered := false, 0, [], [], [], [];
    }

    /** Accepted inputs are numbered 1, 2, 3, ...; nothing is accepted after close. */
    method Enqueue(input: string, cancelled: bool) returns (r: Result<SteerInput, SteerError>)
      requires Valid()
      modifies this
      ensures Valid() && closed == old(closed) && delivered == old(delivered) && consumed == old(consumed)
      ensures r == if IsBlank(input) then Err(EmptyInput) else if cancelled then Err(Cancelled)
                   else if old(closed) then Err(NotSteerable) else Ok(SteerInput(|old(accepted)| + 1, input))
      ensures accepted == old(accepted) + (if r.Ok? then [r.value] else [])
    {
      assert accepted + [] == accepted;
      if IsBlank(input) {
        return Err(EmptyInput);
      }
      if cancelled {
        return Err(Cancelled);
      }
      if closed {
        return Err(NotSteerable);
      }
      next := next + 1;
      var input' := SteerInput(next, input);
      ConcatAssoc(delivered, pending, [input']);
      pending, accepted := pending + [input'], accepted + [input'];
      r := Ok(input');
    }

    /** Delivery is destructive, complete and in admission order. */
    method TakeTurnSteers() returns (batch: seq<SteerInput>)
      requires Valid()
      modifies this
      ensures Valid() && closed == old(closed) && accepted == old(accepted)
      ensures batch == (if old(closed) then [] else old(pending)) && delivered == old(delivered) + batch
      ensures consumed == old(consumed) + batch
      ensures !closed ==> pending == [] && delivered == accepted
    {
      if closed || pending == [] {
        batch := [];
        assert delivered + [] == delivered && consumed + [] == consumed;
        return;
      }
      batch := pending;
      pending := [];
      consumed, delivered := consumed + batch, delivered + batch;
      assert delivered + [] == delivered;
    }

    /** Whatever still waits is dropped; the answer is what the model has seen. */
    method Close() returns (inputs: seq<SteerInput>)
      requires Valid()
      modifies this
      ensures Valid() && closed && accepted == old(accepted) && delivered == old(delivered) && consumed == old(consumed)
      ensures inputs == consumed && (!old(closed) ==> inputs == delivered)
    {
      if !closed {
        closed, pending := true, [];
      }
      inputs := consumed;
    }

    /** A turn that does not commit forgets its inputs. */
    method Discard()
      requires Valid() && closed
      modifies this
      ensures Valid() && closed && consumed == [] && accepted == old(accepted) && delivered == old(delivered)
    {
      pending, consumed := [], [];
    }
  }

  /** Over any life of a mailbox: each input is delivered at most once, in admission order, and its
      number tells its place. */
  lemma DeliveryIsOrdered(m: TurnSteerMailbox, i: nat)
    requires m.Valid() && i < |m.delivered|
    ensures m.delivered[i] == m.accepted[i] && m.delivered[i].sequence == i + 1
    ensures forall j :: 0 <= j < |m.delivered| && m.delivered[j] == m.delivered[i] ==> j == i
  {
    assert forall j :: 0 <= j < |m.delivered| ==> m.delivered[j] == m.accepted[j] && m.accepted[j].sequence == j + 1;
  }

  // ---- which turn accepts input ----

  datatype ActiveTurn = ActiveTurn(id: Id, mailbox: TurnSteerMailbox, supported: bool, accepting: bool)

  /** What a session did about steering, in order. Refused inputs leave no note. */
  datatype SteerNote =
    | Activated(turn: Id, mailbox: TurnSteerMailbox)
    | Stopped(turn: Id)
    | Cleared(turn: Id)
    | Accepted(turn: Id, mailbox: TurnSteerMailbox, input: SteerInput)

  datatype Window = Shut | Window(turn: Id, mailbox: TurnSteerMailbox, accepting: bool)

  /** The turn that can be steered after these notes. */
  ghost function WindowAfter(notes: seq<SteerNote>): Window {
    if notes == [] then Shut else
      var before := WindowAfter(notes[..|notes| - 1]);
      match notes[|notes| - 1]
      case Activated(turn, mailbox) => Window(turn, mailbox, true)
      case Stopped(turn) => if before.Window? && before.turn == turn then before.(accepting := false) else before
      case Cleared(turn) => if before.Window? && before.turn == turn then Shut else before
      case Accepted(_, _, _) => before
  }

  /** Input was accepted only by the turn whose window was open, into that turn's mailbox. */
  ghost predicate Orderly(notes: seq<SteerNote>) {
    forall j :: 0 <= j < |notes| && notes[j].Accepted? ==>
      WindowAfter(notes[..j]) == Window(notes[j].turn, notes[j].mailbox, true)
  }

  ghost function InputsTo(notes: seq<SteerNote>, mailbox: TurnSteerMailbox): seq<SteerInput> {
    if notes == [] then [] else
      var before, last := InputsTo(notes[..|notes| - 1], mailbox), notes[|notes| - 1];
      if last.Accepted? && last.mailbox == mailbox then before + [last.input] else before
  }

  ghost predicate Mentions(n: SteerNote, mailbox: TurnSteerMailbox) {
    (n.Activated? || n.Accepted?) && n.mailbox == mailbox
  }

  ghost predicate Known(notes: seq<SteerNote>, mailboxes: set<TurnSteerMailbox>) {
    forall i :: 0 <= i < |notes| && (notes[i].Activated? || notes[i].Accepted?) ==> notes[i].mailbox in mailboxes
  }

  lemma {:induction false} NoInputsToStranger(notes: seq<SteerNote>, mailboxes: set<TurnSteerMailbox>,
                                              mailbox: TurnSteerMailbox)
    requires Known(notes, mailboxes) && mailbox !in mailboxes
    ensures InputsTo(notes, mailbox) == []
  {
    if notes != [] {
      NoInputsToStranger(notes[..|notes| - 1], mailboxes, mailbox);
    }
  }

  lemma OneMoreNote(notes: seq<SteerNote>, note: SteerNote)
    requires Orderly(notes)
    requires note.Accepted? ==> WindowAfter(notes) == Window(note.turn, note.mailbox, true)
    ensures Orderly(notes + [note])
  {
    var after := notes + [note];
    forall j | 0 <= j < |after| && after[j].Accepted?
      ensures WindowAfter(after[..j]) == Window(after[j].turn, after[j].mailbox, true)
    {
      if j < |notes| {
        assert after[j] == notes[j] && after[..j] == notes[..j];
      } else {
        assert after[..j] == notes;
      }
    }
  }

  /** An open window was opened by the turn's activation, and nothing has closed it since. */
  ghost predicate OpenSince(notes: seq<SteerNote>, i: nat, turn: Id, mailbox: TurnSteerMailbox) {
    && i < |notes| && notes[i] == Activated(turn, mailbox)
    && forall k :: i < k < |notes| ==> !notes[k].Activated? && notes[k] != Stopped(turn) && notes[k] != Cleared(turn)
  }

  lemma {:induction false} WindowWasOpened(notes: seq<SteerNote>, turn: Id, mailbox: TurnSteerMailbox) returns (i: nat)
    requires WindowAfter(notes) == Window(turn, mailbox, true)
    ensures OpenSince(notes, i, turn, mailbox)
  {
    var rest, last := notes[..|notes| - 1], notes[|notes| - 1];
    if last.Activated? {
      i := |notes| - 1;
    } else {
      i := WindowWasOpened(rest, turn, mailbox);
      assert forall k :: 0 <= k < |rest| ==> rest[k] == notes[k];
    }
  }

  /** The steering half of a session: at most one turn accepts input. `mailboxes` are those of the
      turns it has activated. */
  class SteerSession {
    var active: Option<ActiveTurn>
    ghost var notes: seq<SteerNote>
    ghost var mailboxes: set<TurnSteerMailbox>

    /** The record decides who can be steered, and every mailbox holds exactly what was accepted for it. */
    ghost predicate Valid()
      reads this, mailboxes
    {
      && WindowAfter(notes) ==
        (if active.None? then Shut else Window(active.value.id, active.value.mailbox, active.value.accepting))
      && Orderly(notes) && Known(notes, mailboxes)
      && (active.Some? ==> active.value.mailbox in mailboxes)
      && forall m :: m in mailboxes ==> m.Valid() && m.accepted == InputsTo(notes, m)
    }

    constructor ()
      ensures Valid() && active == None && notes == [] && mailboxes == {}
    {
      active, notes, mailboxes := None, [], {};
    }

    method Activate(turn: Id, mailbox: TurnSteerMailbox, supported: bool)
      requires Valid() && mailbox.Valid() && mailbox !in mailboxes && mailbox.accepted == []
      modifies this
      ensures Valid() && active == Some(ActiveTurn(turn, mailbox, supported, true))
      ensures notes == old(notes) + [Activated(turn, mailbox)] && mailboxes == old(mailboxes) + {mailbox}
    {
      NoInputsToStranger(notes, mailboxes, mailbox);
      OneMoreNote(notes, Activated(turn, mailbox));
      SnocInit(notes, Activated(turn, mailbox));
      active, notes, mailboxes := Some(ActiveTurn(turn, mailbox, supported, true)), notes + [Activated(turn, mailbox)],
        mailboxes + {mailbox};
    }

    /** Whether input for this turn can still be accepted. */
    ghost predicate Steerable(turn: Id)
      reads this
    {
      active.Some? && active.value.id == turn && active.value.accepting
    }

    method StopSteerTurn(turn: Id)
      requires Valid()
      modifies this
      ensures Valid() && !Steerable(turn) && mailboxes == old(mailboxes) && notes == old(notes) + [Stopped(turn)]
      ensures forall other :: other != turn ==> (Steerable(other) <==> old(Steerable(other)))
    {
      OneMoreNote(notes, Stopped(turn));
      SnocInit(notes, Stopped(turn));
      if active.Some? && active.value.id == turn {
        active := Some(active.value.(accepting := false));
      }
      notes := notes + [Stopped(turn)];
    }

    method ClearSteerTurn(turn: Id)
      requires Valid()
      modifies this
      ensures Valid() && !Steerable(turn) && mailboxes == old(mailboxes) && notes == old(notes) + [Cleared(turn)]
      ensures forall other :: other != turn ==> (Steerable(other) <==> old(Steerable(other)))
    {
      OneMoreNote(notes, Cleared(turn));
      SnocInit(notes, Cleared(turn));
      if active.Some? && active.value.id == turn {
        active := None;
      }
      notes := notes + [Cleared(turn)];
    }

    /** Refusals in the order they are decided, for an input that is not blank. */
    function Refusal(expected: Id, callerCancelled: bool, turnCancelled: bool): Option<SteerError>
      reads this
    {
      if expected == Id.Blank then Some(TurnMismatch)
      else if callerCancelled then Some(Cancelled)
      else if active.None? || active.value.id == Id.Blank then Some(NoActiveTurn)
      else if active.value.id != expected then Some(TurnMismatch)
      else if !active.value.accepting || turnCancelled then Some(NotSteerable)
      else if !active.value.supported then Some(Unsupported)
      else None
    }

    /** Input reaches exactly the expected, accepting turn; a cancelled turn closes for good. */
    method SteerWithReceipt(expected: Id, input: string, callerCancelled: bool, turnCancelled: bool)
      returns (r: Result<SteerInput, SteerError>)
      requires Valid()
      modifies this, if active.Some? then {active.value.mailbox} else {}
      ensures Valid() && mailboxes == old(mailboxes)
      ensures r == if IsBlank(input) then Err(EmptyInput)
                   else if old(Refusal(expected, callerCancelled, turnCancelled)).Some? then
                     Err(old(Refusal(expected, callerCancelled, turnCancelled)).value)
                   else if old(active.value.mailbox.closed) then Err(NotSteerable)
                   else Ok(SteerInput(|old(active.value.mailbox.accepted)| + 1, input))
      ensures r.Ok? ==> old(Steerable(expected)) && active == old(active)
                        && notes == old(notes) + [Accepted(expected, active.value.mailbox, r.value)]
                        && active.value.mailbox.accepted == old(active.value.mailbox.accepted) + [r.value]
      ensures r.Err? && old(active).Some? ==> old(active).value.mailbox.accepted == old(active.value.mailbox.accepted)
      ensures old(active).Some? ==> Kept(old(active).value.mailbox)
      ensures active.Some? <==> old(active).Some?
      ensures active.Some? ==>
              active.value.id == old(active).value.id && active.value.mailbox == old(active).value.mailbox
    {
      if IsBlank(input) {
        return Err(EmptyInput);
      }
      if expected == Id.Blank {
        return Err(TurnMismatch);
      }
      if callerCancelled {
        return Err(Cancelled);
      }
      if active.None? || active.value.id == Id.Blank {
        return Err(NoActiveTurn);
      }
      if active.value.id != expected {
        return Err(TurnMismatch);
      }
      if !active.value.accepting {
        return Err(NotSteerable);
      }
      if turnCancelled {
        OneMoreNote(notes, Stopped(expected));
        SnocInit(notes, Stopped(expected));
        var mailbox := active.value.mailbox;
        active, notes := Some(active.value.(accepting := false)), notes + [Stopped(expected)];
        var inputs := mailbox.Close();
        return Err(NotSteerable);
      }
      if !active.value.supported {
        return Err(Unsupported);
      }
      r := active.value.mailbox.Enqueue(input, callerCancelled);
      if r.Ok? {
        ghost var note := Accepted(expected, active.value.mailbox, r.value);
        OneMoreNote(notes, note);
        SnocInit(notes, note);
        notes := notes + [note];
      }
    }

    /** Steering delivers nothing and forgets nothing that was delivered. */
    twostate predicate Kept(mailbox: TurnSteerMailbox)
      reads this, mailbox
    {
      mailbox.delivered == old(mailbox.delivered) && mailbox.consumed == old(mailbox.consumed)
    }
  }

  /** Over any life of a session: once a turn is stopped or cleared it accepts nothing, until it is
      activated again. */
  lemma ClosedTurnAcceptsNothing(s: SteerSession, i: nat, j: nat, turn: Id)
    requires s.Valid() && i < j < |s.notes|
    requires s.notes[i] == Stopped(turn) || s.notes[i] == Cleared(turn)
    requires s.notes[j].Accepted? && s.notes[j].turn == turn
    ensures exists k :: i < k < j && s.notes[k] == Activated(turn, s.notes[j].mailbox)
  {
    var before := s.notes[..j];
    var k := WindowWasOpened(before, turn, s.notes[j].mailbox);
    assert before[k] == s.notes[k] && before[i] == s.notes[i];
  }

  /** Every accepted input lies in the mailbox of the turn that was active when it came. */
  lemma AcceptedInputsAreKept(s: SteerSession, j: nat)
    requires s.Valid() && j < |s.notes| && s.notes[j].Accepted?
    ensures var n := s.notes[j];
      && n.mailbox in s.mailboxes && n.input in n.mailbox.accepted
      && exists i :: OpenSince(s.notes[..j], i, n.turn, n.mailbox)
  {
    var n := s.notes[j];
    InputIsListed(s.notes, j);
    var i := WindowWasOpened(s.notes[..j], n.turn, n.mailbox);
  }

  lemma {:induction false} InputIsListed(notes: seq<SteerNote>, j: nat)
    requires j < |notes| && notes[j].Accepted?
    ensures notes[j].input in InputsTo(notes, notes[j].mailbox)
  {
    if j < |notes| - 1 {
      InputIsListed(notes[..|notes| - 1], j);
    }
  }

  function SteerMessages(inputs: seq<SteerInput>): seq<Message> {
    if inputs == [] then [] else SteerMessages(inputs[..|inputs| - 1]) + [User(inputs[|inputs| - 1].content)]
  }

  method RenderSteers(inputs: seq<SteerInput>) returns (messages: seq<Message>)
    ensures messages == SteerMessages(inputs)
  {
    messages := [];
    for i := 0 to |inputs|
      invariant messages == SteerMessages(inputs[..i])
    {
      assert inputs[..i + 1][..i] == inputs[..i];
      messages := messages + [User(inputs[i].content)];
    }
    assert inputs[..|inputs|] == inputs;
  }

  lemma {:induction false} SteerMessagesAppend(a: seq<SteerInput>, b: seq<SteerInput>)
    ensures SteerMessages(a + b) == SteerMessages(a) + SteerMessages(b)
  {
    if b == [] {
      assert a + b == a;
    } else {
      var rest, last := b[..|b| - 1], b[|b| - 1];
      SteerMessagesAppend(a, rest);
      assert (a + b)[..|a + b| - 1] == a + rest;
      ConcatAssoc(SteerMessages(a), SteerMessages(rest), [User(last.content)]);
    }
  }

  lemma {:induction false} SteersAreUsers(inputs: seq<SteerInput>)
    ensures |SteerMessages(inputs)| == |inputs|
    ensures forall i :: 0 <= i < |inputs| ==> SteerMessages(inputs)[i] == User(inputs[i].content)
  {
    if inputs != [] {
      SteersAreUsers(inputs[..|inputs| - 1]);
    }
  }
}
