/** The headless stream writer (`cmd/eino-assistant/run_exec_stream.go`): producers, one bounded
    queue, one writer goroutine, acknowledgements and a terminal record, step by step. */
module ExecStream {
  import opened Ids

  const QUEUE_CAPACITY: nat := 32
  const MAX_SEQUENCE: nat := 0xFFFF_FFFF_FFFF_FFFF

  /** A queued record, named by the call that offered it. */
  datatype Record = Record(call: nat, terminal: bool, waits: bool)

  datatype Line = Line(number: nat, record: Record)

  /** `enqueue`, `enqueueAndWait` and `enqueueTerminal`. */
  datatype Kind = Plain | Wait | Terminal

  datatype CallPhase =
    | Begun(kind: Kind)
    | Marked                                   // enqueueTerminal has set the flag
    | Locked(kind: Kind)                       // inside enqueue, holding stateMu
    | Waiting(kind: Kind)
    | Rechecking(kind: Kind)                   // saw the writer stopped, looks for an ack once more
    | Returned(kind: Kind, ok: bool)

  datatype WriterPhase =
    | Ready
    | Writing(record: Record)
    | Acking(record: Record)
    | Finishing                                // the terminal line is acknowledged
    | Failed(record: Record)                   // finish(err) is done, the ack is not
    | Stopped(lost: Option<Record>)

  datatype World = World(
    queue: seq<Record>, lines: seq<Line>, sequence: nat, holder: Option<nat>, terminalEnqueued: bool,
    acks: map<nat, bool>, writer: WriterPhase, calls: map<nat, CallPhase>, accepted: seq<Record>)

  const START := World([], [], 0, None, false, map[], Ready, map[], [])

  predicate IsStopped(w: World) {
    w.writer.Failed? || w.writer.Stopped?
  }

  function RecordOf(call: nat, kind: Kind): Record {
    Record(call, kind.Terminal?, !kind.Plain?)
  }

  datatype Action =
    | Begin(call: nat, kind: Kind) | Mark(call: nat) | Lock(call: nat)
    | Refuse(call: nat) | Abort(call: nat) | Push(call: nat)
    | SeeAck(call: nat) | SeeStop(call: nat) | Recheck(call: nat)
    | Take | WriteOk | WriteFail | Acknowledge | Finish

  function To(w: World, call: nat, phase: CallPhase): World {
    w.(calls := w.calls[call := phase])
  }

  predicate At(w: World, call: nat, phase: CallPhase) {
    call in w.calls && w.calls[call] == phase
  }

  /** One step of one goroutine; None when it is not enabled. */
  function Next(w: World, a: Action): Option<World> {
    match a
    case Begin(c, kind) => if c in w.calls then None else Some(To(w, c, Begun(kind)))
    case Mark(c) =>
      if !At(w, c, Begun(Terminal)) || w.holder.Some? then None
      else if w.terminalEnqueued then Some(To(w, c, Returned(Terminal, false)))
      else Some(To(w, c, Marked).(terminalEnqueued := true))
    case Lock(c) =>
      if w.holder.Some? || c !in w.calls then None
      else if w.calls[c] == Marked then Some(To(w, c, Locked(Terminal)).(holder := Some(c)))
      else if w.calls[c].Begun? && !w.calls[c].kind.Terminal?
        then Some(To(w, c, Locked(w.calls[c].kind)).(holder := Some(c)))
      else None
    case Refuse(c) =>                          // closed to everything but the terminal record, or stopped
      if c in w.calls && w.calls[c].Locked? && ((w.terminalEnqueued && !w.calls[c].kind.Terminal?) || IsStopped(w))
      then Some(To(w, c, Returned(w.calls[c].kind, false)).(holder := None)) else None
    case Abort(c) =>                           // the caller's context ended; the terminal record has none
      if c in w.calls && w.calls[c].Locked? && !w.calls[c].kind.Terminal? && !w.terminalEnqueued
      then Some(To(w, c, Returned(w.calls[c].kind, false)).(holder := None)) else None
    case Push(c) =>
      if c in w.calls && w.calls[c].Locked? && |w.queue| < QUEUE_CAPACITY
        && (!w.terminalEnqueued || w.calls[c].kind.Terminal?)
      then
        var kind := w.calls[c].kind;
        Some(To(w, c, if kind.Plain? then Returned(Plain, true) else Waiting(kind)).(
               holder := None, queue := w.queue + [RecordOf(c, kind)], accepted := w.accepted + [RecordOf(c, kind)]))
      else None
    case SeeAck(c) =>
      if c in w.calls && w.calls[c].Waiting? && c in w.acks
        then Some(To(w, c, Returned(w.calls[c].kind, w.acks[c]))) else None
    case SeeStop(c) =>
      if c in w.calls && w.calls[c].Waiting? && IsStopped(w) then Some(To(w, c, Rechecking(w.calls[c].kind))) else None
    case Recheck(c) =>
      if c in w.calls && w.calls[c].Rechecking?
      then Some(To(w, c, Returned(w.calls[c].kind, c in w.acks && w.acks[c]))) else None
    case Take =>
      if !w.writer.Ready? || w.queue == [] then None
      else if w.sequence == MAX_SEQUENCE then Some(w.(queue := w.queue[1..], writer := Failed(w.queue[0])))
      else Some(w.(queue := w.queue[1..], sequence := w.sequence + 1, writer := Writing(w.queue[0])))
    case WriteOk =>
      if !w.writer.Writing? then None
      else Some(w.(lines := w.lines + [Line(w.sequence, w.writer.record)], writer := Acking(w.writer.record)))
    case WriteFail => if !w.writer.Writing? then None else Some(w.(writer := Failed(w.writer.record)))
    case Acknowledge =>
      if w.writer.Acking? then
        var r := w.writer.record;
        Some(w.(acks := if r.waits then w.acks[r.call := true] else w.acks,
                writer := if r.terminal then Finishing else Ready))
      else if w.writer.Failed? then
        var r := w.writer.record;
        Some(w.(acks := if r.waits then w.acks[r.call := false] else w.acks, writer := Stopped(Some(r))))
      else None
    case Finish => if w.writer.Finishing? then Some(w.(writer := Stopped(None))) else None
  }

  ghost predicate Run(run: seq<World>) {
    run != [] && run[0] == START && forall i :: 0 <= i < |run| - 1 ==> exists a :: Next(run[i], a) == Some(run[i + 1])
  }

  // ---- the invariant ----

  function Records(lines: seq<Line>): seq<Record> {
    if lines == [] then [] else Records(lines[..|lines| - 1]) + [lines[|lines| - 1].record]
  }

  function InFlight(p: WriterPhase): seq<Record> {
    match p
    case Writing(r) => [r]
    case Failed(r) => [r]
    case Stopped(Some(r)) => [r]
    case _ => []
  }

  /** Whether the writer has drawn a number it has not printed. */
  function Drawn(w: World): nat {
    if w.writer.Writing? then 1 else 0
  }

  ghost predicate Numbered(lines: seq<Line>) {
    forall i :: 0 <= i < |lines| ==> lines[i].number == i + 1
  }

  /** Acceptance order is writing order, and nothing is lost but what a failed writer holds. */
  ghost predicate Ordered(w: World) {
    && w.accepted == Records(w.lines) + InFlight(w.writer) + w.queue
    && Numbered(w.lines)
    && (w.writer.Ready? || w.writer.Acking? || w.writer.Writing? || w.writer.Finishing? ==>
        w.sequence == |w.lines| + Drawn(w))
    && (w.writer.Acking? ==> w.lines != [] && w.lines[|w.lines| - 1].record == w.writer.record)
  }

  predicate Pending(p: CallPhase) {
    p.Begun? || p.Marked? || p.Locked?
  }

  /** A record is accepted at most once, by the call it is named after. */
  ghost predicate Named(w: World) {
    && (forall i, j :: 0 <= i < j < |w.accepted| ==> w.accepted[i].call != w.accepted[j].call)
    && (forall i :: 0 <= i < |w.accepted| ==> w.accepted[i].call in w.calls && !Pending(w.calls[w.accepted[i].call]))
    && (forall c :: c in w.calls && (w.calls[c].Waiting? || w.calls[c].Rechecking?) ==>
          !w.calls[c].kind.Plain? && RecordOf(c, w.calls[c].kind) in w.accepted)
  }

  predicate TerminalPending(p: CallPhase) {
    p.Marked? || (p.Locked? && p.kind.Terminal?)
  }

  /** One call owns the terminal record, and once it is accepted nothing else is. */
  ghost predicate TerminalLast(w: World) {
    && (forall i :: 0 <= i < |w.accepted| && w.accepted[i].terminal ==> i == |w.accepted| - 1 && w.terminalEnqueued)
    && (forall c :: c in w.calls && TerminalPending(w.calls[c]) ==>
          w.terminalEnqueued && forall i :: 0 <= i < |w.accepted| ==> !w.accepted[i].terminal)
    && (forall c, d :: c in w.calls && d in w.calls && TerminalPending(w.calls[c]) && TerminalPending(w.calls[d]) ==>
        c == d)
  }

  ghost predicate Written(w: World, call: nat) {
    exists i :: 0 <= i < |w.lines| && w.lines[i].record.call == call
  }

  /** Acknowledgements tell the truth, and only the line just written may still lack one. */
  ghost predicate Acked(w: World) {
    && (forall c :: c in w.acks ==> (w.acks[c] <==> Written(w, c)))
    && (forall c :: c in w.acks ==> exists i :: 0 <= i < |w.accepted| && w.accepted[i].call == c)
    && (forall i :: 0 <= i < |w.lines| && w.lines[i].record.waits ==>
          w.lines[i].record.call in w.acks || w.writer == Acking(w.lines[i].record))
    && (forall i :: 0 <= i < |w.queue| ==> w.queue[i].call !in w.acks)
    && (w.writer.Writing? || w.writer.Failed? ==> w.writer.record.call !in w.acks)
  }

  ghost predicate Answered(w: World) {
    forall c :: c in w.calls && w.calls[c].Returned? && !w.calls[c].kind.Plain? ==>
      && (w.calls[c].ok ==> Written(w, c))
      && (!w.calls[c].ok ==>
          !Written(w, c) && (IsStopped(w) || forall i :: 0 <= i < |w.accepted| ==> w.accepted[i].call != c))
  }

  /** The writer stops after the terminal line, and only then or on a failure. */
  ghost predicate EndsWithTerminal(w: World) {
    && (forall i :: 0 <= i < |w.lines| && w.lines[i].record.terminal ==>
          i == |w.lines| - 1
            && (w.writer == Acking(w.lines[i].record) || w.writer.Finishing? || w.writer == Stopped(None)))
    && (w.writer.Finishing? || w.writer == Stopped(None) ==> w.lines != [] && w.lines[|w.lines| - 1].record.terminal)
  }

  ghost predicate RecheckingStopped(w: World) {
    forall c :: c in w.calls && w.calls[c].Rechecking? ==> IsStopped(w)
  }

  ghost predicate Inv(w: World) {
    && Ordered(w) && Named(w) && TerminalLast(w) && Acked(w) && Answered(w) && EndsWithTerminal(w)
    && RecheckingStopped(w) && |w.queue| <= QUEUE_CAPACITY
  }

  lemma {:induction false} RecordsAt(lines: seq<Line>)
    ensures |Records(lines)| == |lines|
    ensures forall i :: 0 <= i < |lines| ==> Records(lines)[i] == lines[i].record
  {
    if lines != [] {
      RecordsAt(lines[..|lines| - 1]);
    }
  }

  /** Where an accepted record is: printed, held by the writer, or queued. */
  lemma Layout(w: World)
    requires Ordered(w)
    ensures var n, m := |w.lines|, |InFlight(w.writer)|;
      && |w.accepted| == n + m + |w.queue|
      && (forall i :: 0 <= i < n ==> w.accepted[i] == w.lines[i].record)
      && (forall i :: 0 <= i < m ==> w.accepted[n + i] == InFlight(w.writer)[i])
      && (forall i :: 0 <= i < |w.queue| ==> w.accepted[n + m + i] == w.queue[i])
  {
    RecordsAt(w.lines);
  }

  /** A call that has not been accepted has nothing printed. */
  lemma PendingIsUnwritten(w: World, c: nat)
    requires Ordered(w) && Named(w) && c in w.calls && Pending(w.calls[c])
    ensures !Written(w, c) && forall i :: 0 <= i < |w.accepted| ==> w.accepted[i].call != c
  {
    Layout(w);
  }

  /** A queued record shares its call with nothing printed and nothing the writer holds. */
  lemma QueueIsApart(w: World, i: nat, k: nat)
    requires Ordered(w) && Named(w) && i < |w.queue| && k < |w.lines| + |InFlight(w.writer)|
    ensures |w.lines| + |InFlight(w.writer)| <= |w.accepted| && w.accepted[k].call != w.queue[i].call
  {
    Layout(w);
    assert w.accepted[k].call != w.accepted[|w.lines| + |InFlight(w.writer)| + i].call;
  }

  lemma HeldIsUnwritten(w: World)
    requires Ordered(w) && Named(w) && InFlight(w.writer) != []
    ensures !Written(w, InFlight(w.writer)[0].call)
  {
    Layout(w);
    forall k | 0 <= k < |w.lines| ensures w.lines[k].record.call != InFlight(w.writer)[0].call {
      assert w.accepted[k].call != w.accepted[|w.lines|].call;
    }
  }

  // ---- producers ----

  predicate OfProducer(a: Action) {
    a.Begin? || a.Mark? || a.Lock? || a.Refuse? || a.Abort? || a.SeeAck? || a.SeeStop? || a.Recheck?
  }

  /** The part of the state only the writer and a push can change. */
  predicate SameStream(w: World, w': World) {
    && w'.queue == w.queue && w'.lines == w.lines && w'.sequence == w.sequence && w'.acks == w.acks
    && w'.writer == w.writer && w'.accepted == w.accepted
  }

  lemma ProducerLeavesStream(w: World, a: Action)
    requires Next(w, a).Some? && OfProducer(a)
    ensures SameStream(w, Next(w, a).value)
  {
  }

  lemma StreamStays(w: World, w': World)
    requires SameStream(w, w') && Ordered(w) && Acked(w) && EndsWithTerminal(w)
    ensures Ordered(w') && Acked(w') && EndsWithTerminal(w')
    ensures forall c :: Written(w', c) <==> Written(w, c)
  {
  }

  /** Only the acting call moves, and only forward. */
  ghost predicate Moves(w: World, w': World, c: nat) {
    && c in w'.calls && w'.calls == w.calls[c := w'.calls[c]]
    && w'.accepted == w.accepted && w'.writer == w.writer
    && (Pending(w'.calls[c]) ==> c !in w.calls || Pending(w.calls[c]))
    && (w'.calls[c].Waiting? ==> false)
    && (w'.calls[c].Rechecking? ==> c in w.calls && w.calls[c] == Waiting(w'.calls[c].kind) && IsStopped(w))
  }

  lemma ProducerMoves(w: World, a: Action)
    requires Next(w, a).Some? && OfProducer(a)
    ensures Moves(w, Next(w, a).value, a.call)
  {
  }

  lemma MovesKeepNames(w: World, w': World, c: nat)
    requires Moves(w, w', c) && Named(w) && RecheckingStopped(w)
    ensures Named(w') && RecheckingStopped(w')
  {
  }

  lemma ProducerKeepsTerminal(w: World, a: Action)
    requires Next(w, a).Some? && OfProducer(a) && TerminalLast(w)
    ensures TerminalLast(Next(w, a).value)
  {
  }

  /** Looking once more after the stop misses nothing: a printed record was acknowledged before. */
  lemma StoppedMissesNothing(w: World, c: nat)
    requires Ordered(w) && Named(w) && Acked(w) && IsStopped(w)
    requires c in w.calls && w.calls[c].Rechecking? && Written(w, c)
    ensures c in w.acks && w.acks[c]
  {
    var i :| 0 <= i < |w.lines| && w.lines[i].record.call == c;
    Layout(w);
    var j :| 0 <= j < |w.accepted| && w.accepted[j] == RecordOf(c, w.calls[c].kind);
    assert w.accepted[i] == w.lines[i].record && w.accepted[i].call == w.accepted[j].call;
    assert i == j;
  }

  lemma AnswerIsTrue(w: World, a: Action)
    requires Inv(w) && Next(w, a).Some? && (a.Mark? || a.Refuse? || a.Abort? || a.SeeAck? || a.Recheck?)
    ensures var p := Next(w, a).value.calls[a.call];
      p.Returned? && !p.kind.Plain? ==>
        && (p.ok <==> Written(w, a.call))
        && (!p.ok ==> IsStopped(w) || forall i :: 0 <= i < |w.accepted| ==> w.accepted[i].call != a.call)
  {
    hide TerminalLast, EndsWithTerminal;
    if a.Mark? || a.Refuse? || a.Abort? {
      PendingIsUnwritten(w, a.call);
    } else if a.Recheck? && Written(w, a.call) {
      StoppedMissesNothing(w, a.call);
    } else if a.SeeAck? && !w.acks[a.call] {
      RefusedMeansStopped(w, a.call);
    }
  }

  /** A negative acknowledgement comes from a writer that has stopped. */
  lemma RefusedMeansStopped(w: World, c: nat)
    requires Ordered(w) && Acked(w) && c in w.acks && !w.acks[c]
    ensures IsStopped(w)
  {
    hide Records, Numbered;
    assert forall k :: 0 <= k < |w.lines| ==> w.lines[k].record.call != c;
    assert forall k :: 0 <= k < |w.queue| ==> w.queue[k].call != c;
    Layout(w);
    hide Ordered;
    var i :| 0 <= i < |w.accepted| && w.accepted[i].call == c;
    assert i >= |w.lines|;
    assert i < |w.lines| + |InFlight(w.writer)| by {
      assert forall k :: 0 <= k < |w.queue| ==> w.accepted[|w.lines| + |InFlight(w.writer)| + k] == w.queue[k];
    }
  }

  lemma ProducerKeepsAnswers(w: World, a: Action)
    requires Inv(w) && Next(w, a).Some? && OfProducer(a)
    ensures Answered(Next(w, a).value)
  {
    hide Inv, Ordered, Named, TerminalLast, Acked, EndsWithTerminal, RecheckingStopped;
    assert Answered(w) && Ordered(w) && Acked(w) && EndsWithTerminal(w) by {
      InvParts(w);
    }
    ProducerLeavesStream(w, a);
    StreamStays(w, Next(w, a).value);
    if a.Mark? || a.Refuse? || a.Abort? || a.SeeAck? || a.Recheck? {
      AnswerIsTrue(w, a);
    }
    hide Written;
  }

  lemma InvParts(w: World)
    requires Inv(w)
    ensures Ordered(w) && Named(w) && TerminalLast(w) && Acked(w) && Answered(w) && EndsWithTerminal(w)
            && RecheckingStopped(w)
  {
  }

  lemma ProducerKeeps(w: World, a: Action)
    requires Inv(w) && Next(w, a).Some? && OfProducer(a)
    ensures Inv(Next(w, a).value)
  {
    ProducerLeavesStream(w, a);
    hide Ordered, Named, TerminalLast, Acked, Answered, EndsWithTerminal, RecheckingStopped, Next, Moves;
    StreamStays(w, Next(w, a).value);
    ProducerMoves(w, a);
    MovesKeepNames(w, Next(w, a).value, a.call);
    ProducerKeepsTerminal(w, a);
    ProducerKeepsAnswers(w, a);
  }

  // ---- accepting a record ----

  lemma PushOrdered(w: World, call: nat)
    requires Next(w, Push(call)).Some? && Ordered(w) && Named(w)
    ensures Ordered(Next(w, Push(call)).value)
  {
    ConcatAssoc(Records(w.lines) + InFlight(w.writer), w.queue, [RecordOf(call, w.calls[call].kind)]);
  }

  lemma PushNamed(w: World, call: nat)
    requires Next(w, Push(call)).Some? && Ordered(w) && Named(w) && RecheckingStopped(w)
    ensures Named(Next(w, Push(call)).value) && RecheckingStopped(Next(w, Push(call)).value)
  {
    PendingIsUnwritten(w, call);
    var after := Next(w, Push(call)).value;
    assert after.accepted[|w.accepted|] == RecordOf(call, w.calls[call].kind);
    assert forall i :: 0 <= i < |w.accepted| ==> after.accepted[i] == w.accepted[i];
  }

  lemma PushTerminal(w: World, call: nat)
    requires Next(w, Push(call)).Some? && TerminalLast(w)
    ensures TerminalLast(Next(w, Push(call)).value)
  {
    var after := Next(w, Push(call)).value;
    assert forall i :: 0 <= i < |w.accepted| ==> after.accepted[i] == w.accepted[i];
  }

  lemma PushAcked(w: World, call: nat)
    requires Next(w, Push(call)).Some? && Ordered(w) && Named(w) && Acked(w)
    ensures Acked(Next(w, Push(call)).value)
  {
    PendingIsUnwritten(w, call);
    var after := Next(w, Push(call)).value;
    assert forall c :: Written(after, c) <==> Written(w, c);
    forall c | c in after.acks ensures exists i :: 0 <= i < |after.accepted| && after.accepted[i].call == c {
      var i :| 0 <= i < |w.accepted| && w.accepted[i].call == c;
      assert after.accepted[i].call == c;
    }
  }

  lemma PushAnswered(w: World, call: nat)
    requires Next(w, Push(call)).Some? && Ordered(w) && Named(w) && Answered(w)
    ensures Answered(Next(w, Push(call)).value)
  {
    var after := Next(w, Push(call)).value;
    assert forall c :: Written(after, c) <==> Written(w, c);
    assert forall c :: c in after.calls && after.calls[c].Returned? && !after.calls[c].kind.Plain? ==>
      c != call && after.calls[c] == w.calls[c];
  }

  lemma PushKeeps(w: World, call: nat)
    requires Inv(w) && Next(w, Push(call)).Some?
    ensures Inv(Next(w, Push(call)).value)
  {
    PushOrdered(w, call);
    PushNamed(w, call);
    PushTerminal(w, call);
    PushAcked(w, call);
    PushAnswered(w, call);
    hide Ordered, Named, TerminalLast, Acked, Answered, RecheckingStopped;
  }

  // ---- the writer ----

  predicate OfWriter(a: Action) {
    a.Take? || a.WriteOk? || a.WriteFail? || a.Acknowledge? || a.Finish?
  }

  predicate SameCalls(w: World, w': World) {
    && w'.calls == w.calls && w'.accepted == w.accepted && w'.terminalEnqueued == w.terminalEnqueued
    && (IsStopped(w) ==> IsStopped(w'))
  }

  lemma WriterLeavesCalls(w: World, a: Action)
    requires Next(w, a).Some? && OfWriter(a)
    ensures SameCalls(w, Next(w, a).value)
  {
  }

  lemma CallsStay(w: World, w': World)
    requires SameCalls(w, w') && Named(w) && TerminalLast(w) && RecheckingStopped(w)
    ensures Named(w') && TerminalLast(w') && RecheckingStopped(w')
  {
  }

  lemma TakeOrdered(w: World)
    requires Next(w, Take).Some? && Ordered(w)
    ensures Ordered(Next(w, Take).value)
  {
    hide Records;
    assert w.queue == [w.queue[0]] + w.queue[1..];
    ConcatAssoc(Records(w.lines), [w.queue[0]], w.queue[1..]);
    assert Records(w.lines) + [] == Records(w.lines);
  }

  lemma RecordsSnoc(lines: seq<Line>, line: Line)
    ensures Records(lines + [line]) == Records(lines) + [line.record]
    ensures Numbered(lines) && line.number == |lines| + 1 ==> Numbered(lines + [line])
  {
    SnocInit(lines, line);
  }

  lemma WriteOkOrdered(w: World)
    requires Next(w, WriteOk).Some? && Ordered(w)
    ensures Ordered(Next(w, WriteOk).value)
  {
    hide Records, Numbered;
    RecordsSnoc(w.lines, Line(w.sequence, w.writer.record));
    var after := Next(w, WriteOk).value;
    assert Records(after.lines) + [] == Records(after.lines);
  }

  lemma OtherOrdered(w: World, a: Action)
    requires Next(w, a).Some? && (a.WriteFail? || a.Acknowledge? || a.Finish?) && Ordered(w)
    ensures Ordered(Next(w, a).value)
  {
    hide Records;
  }

  lemma WriterOrdered(w: World, a: Action)
    requires Next(w, a).Some? && OfWriter(a) && Ordered(w)
    ensures Ordered(Next(w, a).value)
  {
    hide Ordered, Next;
    if a.Take? {
      TakeOrdered(w);
    } else if a.WriteOk? {
      WriteOkOrdered(w);
    } else {
      OtherOrdered(w, a);
    }
  }

  lemma WriteOkWrites(w: World, c: nat)
    requires w.writer.Writing?
    ensures Written(Next(w, WriteOk).value, c) <==> Written(w, c) || c == w.writer.record.call
  {
    var after := Next(w, WriteOk).value;
    assert after.lines[|w.lines|].record == w.writer.record;
    assert forall i :: 0 <= i < |w.lines| ==> after.lines[i] == w.lines[i];
  }

  lemma OtherWritesNothing(w: World, a: Action, c: nat)
    requires Next(w, a).Some? && OfWriter(a) && !a.WriteOk?
    ensures Written(Next(w, a).value, c) <==> Written(w, c)
  {
  }

  lemma TakeAcked(w: World)
    requires Next(w, Take).Some? && Acked(w)
    ensures Acked(Next(w, Take).value)
  {
    var after := Next(w, Take).value;
    forall c {
      OtherWritesNothing(w, Take, c);
    }
    assert forall i :: 0 <= i < |after.queue| ==> after.queue[i] == w.queue[i + 1];
    hide Written;
  }

  lemma WriteOkAcked(w: World)
    requires Next(w, WriteOk).Some? && Acked(w)
    ensures Acked(Next(w, WriteOk).value)
  {
    var after := Next(w, WriteOk).value;
    forall c ensures Written(after, c) <==> Written(w, c) || c == w.writer.record.call {
      WriteOkWrites(w, c);
    }
    hide Written;
    assert forall i :: 0 <= i < |w.lines| ==> after.lines[i] == w.lines[i];
  }

  lemma StopAcked(w: World, a: Action)
    requires Next(w, a).Some? && (a.WriteFail? || a.Finish?) && Acked(w)
    ensures Acked(Next(w, a).value)
  {
    var after := Next(w, a).value;
    assert forall c :: Written(after, c) <==> Written(w, c);
    hide Written;
  }

  /** The acknowledged record is the one just printed, or the one the failure lost. */
  lemma AcknowledgeIsTrue(w: World)
    requires Next(w, Acknowledge).Some? && Ordered(w) && Named(w)
    ensures Written(w, w.writer.record.call) <==> w.writer.Acking?
    ensures exists i :: 0 <= i < |w.accepted| && w.accepted[i].call == w.writer.record.call
    ensures forall i :: 0 <= i < |w.queue| ==> w.queue[i].call != w.writer.record.call
  {
    hide Records, Numbered, Named;
    var n := |w.lines|;
    Layout(w);
    assert w.writer.Acking? ==> n > 0 && w.lines[n - 1].record == w.writer.record;
    hide Ordered;
    if w.writer.Failed? {
      HeldIsUnwritten(w);
      assert w.accepted[n].call == w.writer.record.call;
    } else {
      assert w.accepted[n - 1].call == w.writer.record.call && w.lines[n - 1].record.call == w.writer.record.call;
    }
    forall i | 0 <= i < |w.queue| ensures w.queue[i].call != w.writer.record.call {
      QueueIsApart(w, i, if w.writer.Failed? then n else n - 1);
    }
  }

  lemma AcknowledgeAcked(w: World)
    requires Next(w, Acknowledge).Some? && Ordered(w) && Named(w) && Acked(w)
    ensures Acked(Next(w, Acknowledge).value)
  {
    hide Ordered, Named;
    AcknowledgeIsTrue(w);
    var after := Next(w, Acknowledge).value;
    assert forall c :: Written(after, c) <==> Written(w, c);
    hide Written;
  }

  lemma WriteOkAnswered(w: World)
    requires Next(w, WriteOk).Some? && Ordered(w) && Answered(w)
    ensures Answered(Next(w, WriteOk).value)
  {
    var after := Next(w, WriteOk).value;
    Layout(w);
    assert w.accepted[|w.lines|].call == w.writer.record.call;
    forall c ensures Written(after, c) <==> Written(w, c) || c == w.writer.record.call {
      WriteOkWrites(w, c);
    }
    hide Written, Ordered, Records;
  }

  lemma OtherAnswered(w: World, a: Action)
    requires Next(w, a).Some? && OfWriter(a) && !a.WriteOk? && Answered(w)
    ensures Answered(Next(w, a).value)
  {
    assert forall c :: Written(Next(w, a).value, c) <==> Written(w, c);
    hide Written;
  }

  lemma TakeEnds(w: World)
    requires Next(w, Take).Some? && Ordered(w) && TerminalLast(w) && EndsWithTerminal(w)
    ensures EndsWithTerminal(Next(w, Take).value)
  {
    hide Records, Numbered;
    Layout(w);
    hide Ordered;
    assert w.accepted[|w.lines|] == w.queue[0];
    assert forall i :: 0 <= i < |w.lines| ==> !w.lines[i].record.terminal;
  }

  lemma WriteEnds(w: World)
    requires Next(w, WriteOk).Some? && Ordered(w) && TerminalLast(w) && EndsWithTerminal(w)
    ensures EndsWithTerminal(Next(w, WriteOk).value)
  {
    hide Records, Numbered;
    Layout(w);
    hide Ordered;
    assert forall i :: 0 <= i < |w.lines| ==> w.accepted[i] == w.lines[i].record;
    assert forall i :: 0 <= i < |w.lines| ==> Next(w, WriteOk).value.lines[i] == w.lines[i];
  }

  lemma WriterEnds(w: World, a: Action)
    requires Next(w, a).Some? && OfWriter(a) && Ordered(w) && TerminalLast(w) && EndsWithTerminal(w)
    ensures EndsWithTerminal(Next(w, a).value)
  {
    hide TerminalLast;
    if a.Take? {
      TakeEnds(w);
    } else if a.WriteOk? {
      WriteEnds(w);
    } else {
      assert w.writer.Acking? ==> w.lines != [] && w.lines[|w.lines| - 1].record == w.writer.record;
      hide Ordered;
    }
  }

  lemma WriterKeeps(w: World, a: Action)
    requires Inv(w) && Next(w, a).Some? && OfWriter(a)
    ensures Inv(Next(w, a).value)
  {
    hide Ordered, Named, TerminalLast, Acked, Answered, EndsWithTerminal, RecheckingStopped;
    WriterLeavesCalls(w, a);
    CallsStay(w, Next(w, a).value);
    WriterOrdered(w, a);
    WriterEnds(w, a);
    if a.WriteOk? {
      WriteOkAnswered(w);
      WriteOkAcked(w);
    } else {
      OtherAnswered(w, a);
      match a
      case Take => TakeAcked(w);
      case Acknowledge => AcknowledgeAcked(w);
      case _ => StopAcked(w, a);
    }
  }

  lemma StepKeeps(w: World, a: Action)
    requires Inv(w) && Next(w, a).Some?
    ensures Inv(Next(w, a).value)
  {
    hide Inv, Next;
    if a.Push? {
      PushKeeps(w, a.call);
    } else if OfProducer(a) {
      ProducerKeeps(w, a);
    } else {
      WriterKeeps(w, a);
    }
  }

  lemma {:induction false} RunsAreSafe(run: seq<World>, n: nat)
    requires Run(run) && n < |run|
    ensures Inv(run[n])
  {
    if n > 0 {
      RunsAreSafe(run, n - 1);
      var a :| Next(run[n - 1], a) == Some(run[n]);
      StepKeeps(run[n - 1], a);
    }
  }

  // ---- what that means ----

  /** Lines are numbered 1, 2, 3, ... and show the accepted records in acceptance order. */
  lemma LinesAreInOrder(run: seq<World>, n: nat, i: nat)
    requires Run(run) && n < |run| && i < |run[n].lines|
    ensures run[n].lines[i].number == i + 1
    ensures |run[n].lines| <= |run[n].accepted| && run[n].lines[i].record == run[n].accepted[i]
  {
    RunsAreSafe(run, n);
    Layout(run[n]);
  }

  /** No call is printed twice. */
  lemma LinesAreDistinct(run: seq<World>, n: nat, i: nat, j: nat)
    requires Run(run) && n < |run| && i < |run[n].lines| && j < |run[n].lines| && i != j
    ensures run[n].lines[i].record.call != run[n].lines[j].record.call
  {
    RunsAreSafe(run, n);
    Layout(run[n]);
    var accepted := run[n].accepted;
    assert accepted[i].call != accepted[j].call;
  }

  /** A printed terminal line is the last one, and everything accepted was printed before it. */
  lemma TerminalLineIsLast(run: seq<World>, n: nat, i: nat)
    requires Run(run) && n < |run| && i < |run[n].lines| && run[n].lines[i].record.terminal
    ensures i == |run[n].lines| - 1 == |run[n].accepted| - 1
    ensures forall j :: 0 <= j < i ==> !run[n].lines[j].record.terminal
  {
    RunsAreSafe(run, n);
    Layout(run[n]);
  }

  /** `enqueueAndWait` returns nil exactly when its record has been printed in full, and an error is
      final: the record is never printed later. */
  lemma WaitersAreToldTheTruth(run: seq<World>, n: nat, m: nat, c: nat)
    requires Run(run) && n <= m < |run| && c in run[n].calls && run[n].calls[c].Returned?
             && !run[n].calls[c].kind.Plain?
    ensures run[n].calls[c].ok ==> Written(run[n], c)
    ensures !run[n].calls[c].ok ==> !Written(run[m], c)
  {
    RunsAreSafe(run, n);
    RunsAreSafe(run, m);
    ReturnedStays(run, n, m, c);
  }

  lemma ReturnedIsFinal(w: World, a: Action, c: nat)
    requires Next(w, a).Some? && c in w.calls && w.calls[c].Returned?
    ensures c in Next(w, a).value.calls && Next(w, a).value.calls[c] == w.calls[c]
  {
  }

  lemma {:induction false} ReturnedStays(run: seq<World>, n: nat, m: nat, c: nat)
    requires Run(run) && n <= m < |run| && c in run[n].calls && run[n].calls[c].Returned?
    ensures c in run[m].calls && run[m].calls[c] == run[n].calls[c]
  {
    hide Next;
    if n < m {
      ReturnedStays(run, n, m - 1, c);
      var a :| Next(run[m - 1], a) == Some(run[m]);
      ReturnedIsFinal(run[m - 1], a, c);
    }
  }

  // ---- plain calls, and progress ----

  ghost predicate IsAccepted(w: World, c: nat) {
    exists i :: 0 <= i < |w.accepted| && w.accepted[i].call == c
  }

  /** The answer of a plain call. */
  ghost predicate PlainAnswered(w: World) {
    forall c :: c in w.calls && w.calls[c].Returned? && w.calls[c].kind.Plain? ==> (w.calls[c].ok <==> IsAccepted(w, c))
  }

  /** The lock is held by the one call inside `enqueue`. */
  ghost predicate HeldByOne(w: World) {
    forall c :: c in w.calls && w.calls[c].Locked? ==> w.holder == Some(c)
  }

  ghost predicate HolderIsInside(w: World) {
    w.holder.Some? ==> w.holder.value in w.calls && w.calls[w.holder.value].Locked?
  }

  lemma AcceptedGrows(w: World, a: Action)
    requires Next(w, a).Some?
    ensures var w' := Next(w, a).value;
      forall c :: IsAccepted(w', c) <==> IsAccepted(w, c) || a == Push(c)
  {
    var w' := Next(w, a).value;
    if a.Push? {
      forall c ensures IsAccepted(w', c) <==> IsAccepted(w, c) || a == Push(c) {
        if IsAccepted(w, c) {
          var i :| 0 <= i < |w.accepted| && w.accepted[i].call == c;
          assert w'.accepted[i].call == c;
        }
        if c == a.call {
          assert w'.accepted[|w.accepted|].call == c;
        }
      }
    }
  }

  lemma PlainStaysAnswered(w: World, a: Action)
    requires PlainAnswered(w) && Named(w) && Next(w, a).Some?
    ensures PlainAnswered(Next(w, a).value)
  {
    AcceptedGrows(w, a);
    AcceptedAreDone(w);
    var w' := Next(w, a).value;
    hide IsAccepted, Named, Next;
    forall c | c in w'.calls && w'.calls[c].Returned? && w'.calls[c].kind.Plain?
      ensures w'.calls[c].ok <==> IsAccepted(w', c)
    {
      PlainReturn(w, a, c);
    }
  }

  /** A plain call that has returned had done so before, or does so in this step: accepted, or never so. */
  lemma PlainReturn(w: World, a: Action, c: nat)
    requires Next(w, a).Some?
    requires Named(w)
    requires var p := Next(w, a).value.calls; c in p && p[c].Returned? && p[c].kind.Plain?
    ensures c in w.calls
    ensures var p := Next(w, a).value.calls;
      p[c] == w.calls[c] || (Pending(w.calls[c]) && (p[c].ok <==> a == Push(c)))
    ensures a == Push(c) ==> Pending(w.calls[c])
  {
  }

  lemma LockStays(w: World, a: Action)
    requires HeldByOne(w) && HolderIsInside(w) && Next(w, a).Some?
    ensures HeldByOne(Next(w, a).value) && HolderIsInside(Next(w, a).value)
  {
  }

  lemma AcceptedAreDone(w: World)
    requires Named(w)
    ensures forall c :: IsAccepted(w, c) ==> c in w.calls && !Pending(w.calls[c])
  {
  }

  lemma {:induction false} PlainInRuns(run: seq<World>, n: nat)
    requires Run(run) && n < |run|
    ensures PlainAnswered(run[n]) && HeldByOne(run[n]) && HolderIsInside(run[n])
  {
    if n > 0 {
      hide Next, PlainAnswered, HeldByOne, HolderIsInside, Inv;
      PlainInRuns(run, n - 1);
      RunsAreSafe(run, n - 1);
      InvParts(run[n - 1]);
      var a :| Next(run[n - 1], a) == Some(run[n]);
      PlainStaysAnswered(run[n - 1], a);
      LockStays(run[n - 1], a);
    }
  }

  /** `enqueue` returns nil if and only if its record has been accepted. */
  lemma PlainCallsAreToldTheTruth(run: seq<World>, n: nat, c: nat)
    requires Run(run) && n < |run| && c in run[n].calls && run[n].calls[c].Returned? && run[n].calls[c].kind.Plain?
    ensures run[n].calls[c].ok <==> exists i :: 0 <= i < |run[n].accepted| && run[n].accepted[i].call == c
  {
    PlainInRuns(run, n);
  }

  /** The writer is never stuck while it has not stopped and has something to do. */
  lemma WriterGoesOn(w: World) returns (a: Action)
    requires !w.writer.Stopped? && (w.writer.Ready? ==> w.queue != [])
    ensures OfWriter(a) && Next(w, a).Some?
  {
    match w.writer {
      case Ready => a := Take;
      case Writing(_) => a := WriteOk;
      case Acking(_) => a := Acknowledge;
      case Failed(_) => a := Acknowledge;
      case Finishing => a := Finish;
    }
  }

  /** Nobody is left waiting: as long as a call has not returned, some goroutine can take a step. */
  lemma NobodyIsStuck(run: seq<World>, n: nat, c: nat) returns (a: Action)
    requires Run(run) && n < |run| && c in run[n].calls && !run[n].calls[c].Returned?
    ensures Next(run[n], a).Some? && !a.Begin?
  {
    hide Inv, PlainAnswered, TerminalLast, Answered, EndsWithTerminal;
    var w := run[n];
    PlainInRuns(run, n);
    RunsAreSafe(run, n);
    InvParts(w);
    if w.holder.Some? {
      a := HolderGoesOn(w, w.holder.value);
    } else {
      match w.calls[c] {
        case Begun(kind) => a := if kind.Terminal? then Mark(c) else Lock(c);
        case Marked => a := Lock(c);
        case Waiting(_) => a := WaiterGoesOn(w, c);
        case Rechecking(_) => a := Recheck(c);
      }
    }
  }

  lemma HolderGoesOn(w: World, c: nat) returns (a: Action)
    requires c in w.calls && w.calls[c].Locked?
    ensures Next(w, a).Some? && !a.Begin?
  {
    if IsStopped(w) || (w.terminalEnqueued && !w.calls[c].kind.Terminal?) {
      a := Refuse(c);
    } else if |w.queue| < QUEUE_CAPACITY {
      a := Push(c);
    } else {
      a := WriterGoesOn(w);
    }
  }

  /** A call that waits without an answer has its record queued or with the writer. */
  lemma WaitingHasWork(w: World, c: nat)
    requires Ordered(w) && Named(w) && Acked(w) && c in w.calls && w.calls[c].Waiting?
    requires c !in w.acks && w.queue == []
    ensures !w.writer.Ready?
  {
    Layout(w);
    var i :| 0 <= i < |w.accepted| && w.accepted[i] == RecordOf(c, w.calls[c].kind);
    assert i < |w.lines| ==> w.lines[i].record.waits && w.lines[i].record.call == c;
  }

  lemma WaiterGoesOn(w: World, c: nat) returns (a: Action)
    requires Ordered(w) && Named(w) && Acked(w) && c in w.calls && w.calls[c].Waiting?
    ensures Next(w, a).Some? && !a.Begin?
  {
    if c in w.acks {
      a := SeeAck(c);
    } else if IsStopped(w) {
      a := SeeStop(c);
    } else {
      if w.queue == [] {
        WaitingHasWork(w, c);
      }
      hide Ordered, Named, Acked;
      a := WriterGoesOn(w);
    }
  }
}
