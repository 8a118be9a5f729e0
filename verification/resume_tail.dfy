/** The resume snapshot (`internal/store/thread_resume.go`): only the journal suffix a checkpoint
    does not supersede is read back, and when that suffix still holds every uncovered turn. */
module ResumeTail {
  import opened Ids
  import Messages
  import opened CheckpointContract
  import opened ThreadJournal
  import opened TurnGroups
  import opened ThreadStores
  import opened Coverage
  import opened Resume

  function TailCut(c: StoredCheckpoint): nat {
    if c.tailStart == 0 then c.sequence + 1 else c.tailStart
  }

  /** `resumeTailEvents`; None is its "invalid tail start" and "is absent" errors. */
  method TailEvents(events: seq<Event>, active: StoredCheckpoint) returns (r: Option<seq<Event>>)
    requires ValidJournal(events)
    ensures r == if 1 <= TailCut(active) <= |events| + 1 then Some(events[TailCut(active) - 1..]) else None
  {
    var tailStart := active.tailStart;
    if tailStart == 0 {
      tailStart := active.sequence + 1;
    }
    if tailStart == 0 || tailStart > |events| + 1 {
      return None;
    }
    if tailStart == |events| + 1 {
      assert events[|events|..] == [];
      return Some([]);
    }
    for i := 0 to |events|
      invariant i < tailStart
    {
      SequenceIsPosition(events, i);
      if events[i].sequence == tailStart {
        return Some(events[i..]);
      }
    }
    assert false;
    r := None;
  }

  /** The groups a snapshot keeps as evidence: those that hold an event some checkpoint names. */
  function TouchedBy(wanted: set<Id>): StoreGroup -> bool {
    (g: StoreGroup) => CountIn(g.eventIds, wanted) != 0
  }

  lemma {:induction false} EvidenceSelects(groups: seq<StoreGroup>, touched: set<Id>, wanted: set<Id>)
    requires wanted <= touched
    ensures SelectGroups(Filter(TouchedBy(touched), groups), wanted) == SelectGroups(groups, wanted)
  {
    if groups != [] {
      var rest, g := groups[..|groups| - 1], groups[|groups| - 1];
      EvidenceSelects(rest, touched, wanted);
      if TouchedBy(touched)(g) {
        SnocInit(Filter(TouchedBy(touched), rest), g);
      } else {
        assert forall i :: 0 <= i < |g.eventIds| ==> g.eventIds[i] !in wanted;
      }
    }
  }

  /** Verifying a lineage against that evidence decides the same as against the whole ledger. */
  lemma {:induction false} EvidenceSuffices(l: Ledger, groups: seq<StoreGroup>, lineage: seq<StoredCheckpoint>,
                                            touched: set<Id>)
    requires forall c, id :: c in lineage && id in c.sourceEventIds ==> id in touched
    ensures Verify(l, Filter(TouchedBy(touched), groups), lineage) == Verify(l, groups, lineage)
  {
    if lineage != [] {
      EvidenceSuffices(l, groups, lineage[1..], touched);
      EvidenceSelects(groups, touched, set id | id in lineage[0].sourceEventIds);
    }
  }

  lemma AddNew(groups: seq<StoreGroup>, e: Event)
    requires TurnOf(e.payload) != Id.Blank
    requires forall i :: 0 <= i < |groups| ==> groups[i].turn != TurnOf(e.payload)
    ensures AddEvent(groups, e) == groups + [Extend(StoreGroup(TurnOf(e.payload), e.sequence, [], false, None), e)]
  {
  }

  lemma AddToLast(rest: seq<StoreGroup>, last: StoreGroup, e: Event)
    requires TurnOf(e.payload) == last.turn != Id.Blank
    requires forall i :: 0 <= i < |rest| ==> rest[i].turn != last.turn
    ensures AddEvent(rest + [last], e) == rest + [Extend(last, e)]
  {
    var groups := rest + [last];
    assert groups[|rest|] == last;
    assert FirstIndex(IsTurn(last.turn), groups) == |rest|;
  }

  /** How the groups of a whole journal and of its suffix relate. `x` is the turn that was open at
      the cut, `y` what the suffix still sees of it, `later` the turns started after the cut. */
  ghost predicate Split(open: Id, active: Id, before: seq<StoreGroup>, x: seq<StoreGroup>, y: seq<StoreGroup>,
                        later: seq<StoreGroup>, whole: seq<StoreGroup>, tail: seq<StoreGroup>) {
    && whole == (before + x) + later
    && tail == y + later
    && (if open == Id.Blank then x == [] && y == [] else
          && |x| == 1 && x[0].turn == open && x[0].started
          && |y| <= 1 && (y != [] ==> y[0].turn == open && !y[0].started)
          && (active == open ==> later == [] && x[0].committed.None?)
          && (active != open ==> y != []))
    && (active != Id.Blank && active != open ==> later != [] && later[|later| - 1].turn == active)
  }

  lemma SplitStarts(open: Id, active: Id, before: seq<StoreGroup>, x: seq<StoreGroup>, y: seq<StoreGroup>,
                    later: seq<StoreGroup>, whole: seq<StoreGroup>, tail: seq<StoreGroup>, e: Event)
    returns (g: StoreGroup)
    requires Split(open, active, before, x, y, later, whole, tail) && active == Id.Blank
    requires e.payload.TurnStarted? && e.payload.turn != Id.Blank
    requires forall i :: 0 <= i < |whole| ==> whole[i].turn != e.payload.turn
    ensures Split(open, e.payload.turn, before, x, y, later + [g], AddEvent(whole, e), AddEvent(tail, e))
  {
    g := Extend(StoreGroup(e.payload.turn, e.sequence, [], false, None), e);
    AddNew(whole, e);
    if open != Id.Blank {
      assert whole[|before|] == x[0];
    }
    forall i | 0 <= i < |tail| ensures tail[i].turn != e.payload.turn {
      if i >= |y| {
        assert tail[i] == whole[|before + x| + i - |y|];
      }
    }
    AddNew(tail, e);
    ConcatAssoc(before + x, later, [g]);
    ConcatAssoc(y, later, [g]);
  }

  lemma SplitContinues(open: Id, active: Id, before: seq<StoreGroup>, x: seq<StoreGroup>, y: seq<StoreGroup>,
                       later: seq<StoreGroup>, whole: seq<StoreGroup>, tail: seq<StoreGroup>, e: Event, after: Id)
    returns (later': seq<StoreGroup>)
    requires Split(open, active, before, x, y, later, whole, tail) && active != Id.Blank && active != open
    requires TurnOf(e.payload) == active && (after == active || after == Id.Blank)
    requires forall i, j :: 0 <= i < j < |whole| ==> whole[i].turn != whole[j].turn
    ensures Split(open, after, before, x, y, later', AddEvent(whole, e), AddEvent(tail, e))
  {
    var rest, last := later[..|later| - 1], later[|later| - 1];
    later' := rest + [Extend(last, e)];
    InitLast(later);
    ConcatAssoc(before + x, rest, [last]);
    ConcatAssoc(y, rest, [last]);
    ConcatAssoc(before + x, rest, [Extend(last, e)]);
    ConcatAssoc(y, rest, [Extend(last, e)]);
    var left := (before + x) + rest;
    forall i | 0 <= i < |left| ensures left[i].turn != active {
      assert whole[i] == left[i] && whole[|left|] == last;
    }
    AddToLast(left, last, e);
    forall i | 0 <= i < |y + rest| ensures (y + rest)[i].turn != active {
      if i >= |y| {
        assert (y + rest)[i] == left[|before + x| + i - |y|];
      }
    }
    AddToLast(y + rest, last, e);
  }

  lemma SplitOpenTurn(open: Id, before: seq<StoreGroup>, x: seq<StoreGroup>, y: seq<StoreGroup>, whole: seq<StoreGroup>,
                      tail: seq<StoreGroup>, e: Event, after: Id)
    returns (x': seq<StoreGroup>, y': seq<StoreGroup>)
    requires open != Id.Blank && Split(open, open, before, x, y, [], whole, tail)
    requires TurnOf(e.payload) == open && !e.payload.TurnStarted?
    requires after == (if e.payload.TurnCommitted? || e.payload.TurnClosed? then Id.Blank else open)
    requires forall i, j :: 0 <= i < j < |whole| ==> whole[i].turn != whole[j].turn
    ensures Split(open, after, before, x', y', [], AddEvent(whole, e), AddEvent(tail, e))
    ensures x'[0].committed == if e.payload.TurnCommitted? then Some(e.payload.messages) else None
  {
    x' := [Extend(x[0], e)];
    y' := if y == [] then [Extend(StoreGroup(open, e.sequence, [], false, None), e)] else [Extend(y[0], e)];
    assert whole == before + [x[0]];
    forall i | 0 <= i < |before| ensures before[i].turn != open {
      assert whole[i] == before[i] && whole[|before|] == x[0];
    }
    AddToLast(before, x[0], e);
    if y == [] {
      AddNew(tail, e);
    } else {
      assert tail == [] + [y[0]];
      AddToLast([], y[0], e);
    }
  }

  /** The turn that was open at the cut, as the whole journal sees it, is committed with messages. */
  ghost predicate CommitsTurn(suffix: seq<Event>, turn: Id) {
    exists i :: 0 <= i < |suffix| && Commits(suffix[i], turn)
  }

  predicate Commits(e: Event, turn: Id) {
    e.payload.TurnCommitted? && e.payload.turn == turn && e.payload.messages != []
  }

  lemma CommitsSnoc(suffix: seq<Event>, e: Event, turn: Id)
    ensures CommitsTurn(suffix + [e], turn) <==> CommitsTurn(suffix, turn) || Commits(e, turn)
  {
    assert forall i :: 0 <= i < |suffix| ==> (suffix + [e])[i] == suffix[i];
    assert (suffix + [e])[|suffix|] == e;
  }

  lemma {:induction false} SplitJournal(prefix: seq<Event>, suffix: seq<Event>)
    returns (before: seq<StoreGroup>, x: seq<StoreGroup>, y: seq<StoreGroup>, later: seq<StoreGroup>)
    requires ValidJournal(prefix + suffix)
    ensures ValidJournal(prefix)
    ensures var open := Replay(prefix).value.activeTurn; var groups := StoreGroups(prefix);
      && Split(open, Replay(prefix + suffix).value.activeTurn, before, x, y, later, StoreGroups(prefix + suffix),
               StoreGroups(suffix))
      && (open != Id.Blank ==> groups != [] && groups[|groups| - 1].committed.None?)
      && before == (if open == Id.Blank then groups else groups[..|groups| - 1])
      && (x != [] ==> (Complete(x[0]) <==> CommitsTurn(suffix, open)))
    decreases |suffix|
  {
    if suffix == [] {
      assert prefix + suffix == prefix;
      JournalGroupsAreTidy(prefix);
      var groups := StoreGroups(prefix);
      y, later := [], [];
      if Replay(prefix).value.activeTurn == Id.Blank {
        before, x := groups, [];
      } else {
        before, x := groups[..|groups| - 1], [groups[|groups| - 1]];
        InitLast(groups);
      }
    } else {
      var rest, e := suffix[..|suffix| - 1], suffix[|suffix| - 1];
      InitLast(suffix);
      ConcatAssoc(prefix, rest, [e]);
      ReplayAppend(prefix + rest, e);
      before, x, y, later := SplitJournal(prefix, rest);
      SnocInit(prefix + rest, e);
      JournalGroupsAreTidy(prefix + rest);
      CommitsSnoc(rest, e, Replay(prefix).value.activeTurn);
      x, y, later := SplitOneMore(Replay(prefix).value.activeTurn, Replay(prefix + rest).value, before, x, y, later,
                                  StoreGroups(prefix + rest), StoreGroups(rest), e);
    }
  }

  lemma SplitOneMore(open: Id, s: ThreadState, before: seq<StoreGroup>, x: seq<StoreGroup>, y: seq<StoreGroup>,
                     later: seq<StoreGroup>, whole: seq<StoreGroup>, tail: seq<StoreGroup>, e: Event)
    returns (x': seq<StoreGroup>, y': seq<StoreGroup>, later': seq<StoreGroup>)
    requires Split(open, s.activeTurn, before, x, y, later, whole, tail) && Tidy(whole, s) && Apply(s, e).Some?
    ensures Split(open, Apply(s, e).value.activeTurn, before, x', y', later', AddEvent(whole, e), AddEvent(tail, e))
    ensures x != [] ==> x' != [] && (Complete(x'[0]) <==> Complete(x[0]) || Commits(e, open))
  {
    x', y', later' := x, y, later;
    var turn := TurnOf(e.payload);
    if turn != Id.Blank {
      if e.payload.TurnStarted? {
        var g := SplitStarts(open, s.activeTurn, before, x, y, later, whole, tail, e);
        later' := later + [g];
      } else if turn == open {
        x', y' := SplitOpenTurn(open, before, x, y, whole, tail, e, Apply(s, e).value.activeTurn);
      } else {
        later' := SplitContinues(open, s.activeTurn, before, x, y, later, whole, tail, e, Apply(s, e).value.activeTurn);
      }
    }
  }

  lemma {:induction false} ContextAppend(a: seq<StoreGroup>, b: seq<StoreGroup>)
    ensures ContextGroups(a + b) == ContextGroups(a) + ContextGroups(b)
  {
    if b == [] {
      assert a + b == a;
    } else {
      var rest, last := b[..|b| - 1], b[|b| - 1];
      ContextAppend(a, rest);
      InitLast(b);
      ConcatAssoc(a, rest, [last]);
      ContextSnoc(a + rest, last);
      ContextSnoc(rest, last);
      ConcatAssoc(ContextGroups(a), ContextGroups(rest), if Complete(last) then [ToTurnGroup(last)] else []);
    }
  }

  lemma ContextOne(g: StoreGroup)
    ensures ContextGroups([g]) == if Complete(g) then [ToTurnGroup(g)] else []
  {
    assert [] + [g] == [g];
    ContextSnoc([], g);
  }

  lemma SplitContexts(open: Id, active: Id, before: seq<StoreGroup>, x: seq<StoreGroup>, y: seq<StoreGroup>,
                      later: seq<StoreGroup>, whole: seq<StoreGroup>, tail: seq<StoreGroup>)
    requires Split(open, active, before, x, y, later, whole, tail)
    ensures ContextGroups(whole) == ContextGroups(before) + (ContextGroups(x) + ContextGroups(tail))
    ensures |x| == 1 ==> ContextGroups(x) == if Complete(x[0]) then [ToTurnGroup(x[0])] else []
    ensures x == [] ==> ContextGroups(x) == []
  {
    hide ContextGroups, ToTurnGroup;
    ContextAppend(before + x, later);
    ContextAppend(before, x);
    ContextAppend(y, later);
    ContextNone();
    if |y| == 1 {
      ContextOne(y[0]);
      assert y == [y[0]];
    }
    if |x| == 1 {
      ContextOne(x[0]);
      assert x == [x[0]];
    }
    assert [] + ContextGroups(later) == ContextGroups(later);
    ConcatAssoc(ContextGroups(before), ContextGroups(x), ContextGroups(later));
  }

  lemma ContextNone()
    ensures ContextGroups([]) == []
  {
  }

  /** Turns read back from a suffix: everything committed after the cut, except a turn that was
      open at the cut. `lost` is that turn when it commits, and nothing otherwise. */
  lemma SuffixGroups(prefix: seq<Event>, suffix: seq<Event>) returns (lost: seq<TurnGroup>)
    requires ValidJournal(prefix + suffix)
    ensures ValidJournal(prefix)
    ensures ContextGroups(StoreGroups(prefix + suffix)) ==
            ContextGroups(StoreGroups(prefix)) + (lost + ContextGroups(StoreGroups(suffix)))
    ensures var open := Replay(prefix).value.activeTurn;
      if open != Id.Blank && CommitsTurn(suffix, open) then |lost| == 1 && lost[0].id == open else lost == []
  {
    var before, x, y, later := SplitJournal(prefix, suffix);
    var groups := StoreGroups(prefix);
    lost := ContextGroups(x);
    SplitContexts(Replay(prefix).value.activeTurn, Replay(prefix + suffix).value.activeTurn, before, x, y, later,
                  StoreGroups(prefix + suffix), StoreGroups(suffix));
    if x != [] {
      InitLast(groups);
      ContextSnoc(before, groups[|groups| - 1]);
    }
  }

  lemma {:induction false} StartIsEvent(events: seq<Event>, i: nat)
    requires ValidJournal(events) && i < |StoreGroups(events)|
    ensures var g := StoreGroups(events)[i];
      1 <= g.startSequence <= |events| && events[g.startSequence - 1].payload == TurnStarted(g.turn)
        && g.turn != Id.Blank
  {
    var rest, e := events[..|events| - 1], events[|events| - 1];
    var groups := StoreGroups(rest);
    JournalGroupsAreTidy(rest);
    OneEventAdvances(groups, Replay(rest).value, e);
    if i < |groups| {
      StartIsEvent(rest, i);
    }
  }

  lemma {:induction false} ContextOrigin(groups: seq<StoreGroup>, k: nat) returns (i: nat)
    requires k < |ContextGroups(groups)|
    ensures i < |groups| && Complete(groups[i]) && ToTurnGroup(groups[i]) == ContextGroups(groups)[k]
  {
    var rest := groups[..|groups| - 1];
    if k < |ContextGroups(rest)| {
      i := ContextOrigin(rest, k);
    } else {
      i := |groups| - 1;
    }
  }

  lemma {:induction false} FirstGroup(suffix: seq<Event>)
    requires suffix != [] && suffix[0].payload.TurnStarted? && suffix[0].payload.turn != Id.Blank
    ensures StoreGroups(suffix) != [] && StoreGroups(suffix)[0].turn == suffix[0].payload.turn
  {
    if |suffix| == 1 {
      assert suffix[..0] == [];
      AddNew([], suffix[0]);
    } else {
      FirstGroup(suffix[..|suffix| - 1]);
    }
  }

  lemma FirstContext(groups: seq<StoreGroup>)
    requires groups != [] && Complete(groups[0])
    ensures ContextGroups(groups) != [] && ContextGroups(groups)[0] == ToTurnGroup(groups[0])
  {
    assert groups == [groups[0]] + groups[1..];
    ContextAppend([groups[0]], groups[1..]);
    ContextOne(groups[0]);
  }

  /** A turn starts only while none is open, so a cut at a turn start loses nothing. */
  lemma CutAtStart(events: seq<Event>, k: nat)
    requires ValidJournal(events) && k < |ContextGroups(StoreGroups(events))|
    ensures var ctx := ContextGroups(StoreGroups(events)); var s := ctx[k].startSequence;
      1 <= s <= |events| && ContextGroups(StoreGroups(events[s - 1..])) == ctx[k..]
  {
    hide ContextGroups, StoreGroups, AddEvent;
    var groups := StoreGroups(events);
    var ctx := ContextGroups(groups);
    var i := ContextOrigin(groups, k);
    StartIsEvent(events, i);
    var s := ctx[k].startSequence;
    var prefix, suffix := events[..s - 1], events[s - 1..];
    assert prefix + suffix == events;
    ReplayPrefix(events, s);
    assert events[..s][..s - 1] == prefix;
    assert Replay(prefix).value.activeTurn == Id.Blank;
    var lost := SuffixGroups(prefix, suffix);
    FirstGroup(suffix);
    StartsTail(prefix, suffix, i);
    FirstContext(StoreGroups(suffix));
    JournalGroupsAreTidy(events);
    ContextIdsDistinct(groups);
    var before := ContextGroups(StoreGroups(prefix));
    assert lost + ContextGroups(StoreGroups(suffix)) == ContextGroups(StoreGroups(suffix));
    assert ctx[|before|] == ctx[k];
  }

  /** The turn a suffix starts with is the same group in the whole journal. */
  lemma StartsTail(prefix: seq<Event>, suffix: seq<Event>, i: nat)
    requires ValidJournal(prefix + suffix) && ValidJournal(prefix) && Replay(prefix).value.activeTurn == Id.Blank
    requires StoreGroups(suffix) != [] && i < |StoreGroups(prefix + suffix)|
    requires StoreGroups(prefix + suffix)[i].turn == StoreGroups(suffix)[0].turn
    ensures StoreGroups(prefix + suffix)[i] == StoreGroups(suffix)[0]
  {
    var before, x, y, later := SplitJournal(prefix, suffix);
    JournalGroupsAreTidy(prefix + suffix);
    var whole := StoreGroups(prefix + suffix);
    assert whole[|before|] == later[0];
  }

  /** A turn was open when event `n` was written, and committed afterwards. */
  ghost predicate Straddles(events: seq<Event>, n: nat)
    requires n <= |events| && ValidJournal(events[..n])
  {
    var open := Replay(events[..n]).value.activeTurn;
    open != Id.Blank && CommitsTurn(events[n..], open)
  }

  /** The snapshot holds exactly the uncovered turns, unless the checkpoint left no committed turn
      raw and a turn that was open when it was written committed later: that turn is then read
      back from neither the checkpoint nor the snapshot. */
  lemma SnapshotHoldsUncovered(events: seq<Event>, c: StoredCheckpoint, k: nat)
    requires ValidJournal(events) && 1 <= c.sequence <= |events|
    requires var then' := ContextGroups(StoreGroups(events[..c.sequence]));
      k <= |then'| && c.tailStart == if k < |then'| then then'[k].startSequence else 0
    ensures ValidJournal(events[..c.sequence]) && 1 <= TailCut(c) <= |events| + 1
    ensures k <= |ContextGroups(StoreGroups(events))|
    ensures ContextGroups(StoreGroups(events[TailCut(c) - 1..])) == ContextGroups(StoreGroups(events))[k..]
            <==> !(c.tailStart == 0 && Straddles(events, c.sequence))
  {
    var n := c.sequence;
    ReplayPrefix(events, n);
    ContextGroupsPrefix(events, n);
    var then', now := ContextGroups(StoreGroups(events[..n])), ContextGroups(StoreGroups(events));
    if k < |then'| {
      assert then'[k] == now[k];
      CutAtStart(events, k);
    } else {
      assert events[..n] + events[n..] == events;
      var lost := SuffixGroups(events[..n], events[n..]);
      var tail := ContextGroups(StoreGroups(events[n..]));
      assert now[k..] == lost + tail;
      assert lost == [] ==> lost + tail == tail;
    }
  }

  /** A journal in which it happens: turn 2 is running when turn 1 is compacted, and commits after. */
  function StraddlingPayload(c: StoredCheckpoint, n: nat): Payload {
    match n
    case 1 => ThreadCreated
    case 2 => TurnStarted(Named(1))
    case 3 => TurnCommitted(Named(1), [Messages.User("first")])
    case 4 => TurnStarted(Named(2))
    case 5 => CompactionStarted(Named(3), false)
    case 6 => Compacted(c)
    case _ => TurnCommitted(Named(2), [Messages.User("second")])
  }

  function StraddlingJournal(c: StoredCheckpoint, n: nat): (events: seq<Event>)
    ensures |events| == n
  {
    if n == 0 then [] else StraddlingJournal(c, n - 1) + [Event(n, Named(n), StraddlingPayload(c, n))]
  }

  function StraddlingCheckpoint(payload: Checkpoint): StoredCheckpoint {
    StoredCheckpoint(Named(4), Id.Blank, 6, [Named(2), Named(3)], SHA256(0), 0, payload, false, Named(3))
  }

  lemma StraddlingStep(c: StoredCheckpoint, n: nat, s: ThreadState)
    requires 1 <= n && Written(StraddlingJournal(c, n - 1)) && Replay(StraddlingJournal(c, n - 1)) == Some(s)
    requires Replays(s, Named(n), StraddlingPayload(c, n))
    requires StraddlingPayload(c, n).Compacted? ==> StraddlingPayload(c, n).checkpoint.parentId == s.activeCheckpoint
    ensures Written(StraddlingJournal(c, n))
    ensures Replay(StraddlingJournal(c, n)) == Apply(s, Event(n, Named(n), StraddlingPayload(c, n)))
  {
    WrittenAppend(StraddlingJournal(c, n - 1), s, Named(n), StraddlingPayload(c, n));
  }

  lemma StraddlingReplays(payload: Checkpoint)
    ensures var c := StraddlingCheckpoint(payload); var events := StraddlingJournal(c, 7);
      Written(events) && Replay(events).value.activeCheckpoint == c.id
  {
    var c := StraddlingCheckpoint(payload);
    var s := INITIAL_STATE;
    StraddlingStep(c, 1, s);
    s := s.(revision := 1);
    StraddlingStep(c, 2, s);
    s := s.(revision := 2, turns := s.turns + {Named(1)}, activeTurn := Named(1));
    StraddlingStep(c, 3, s);
    s := s.(revision := 3, activeTurn := Id.Blank);
    StraddlingStep(c, 4, s);
    s := s.(revision := 4, turns := s.turns + {Named(2)}, activeTurn := Named(2));
    StraddlingStep(c, 5, s);
    s := s.(revision := 5, operations := s.operations + {Named(3)}, pending := Some(Pending(Named(3), false)));
    StraddlingStep(c, 6, s);
    s := s.(revision := 6, pending := None, checkpoints := s.checkpoints + {c.id}, activeCheckpoint := c.id);
    StraddlingStep(c, 7, s);
  }

  lemma StraddlingGroupsStep(c: StoredCheckpoint, n: nat)
    requires 1 <= n
    ensures StoreGroups(StraddlingJournal(c, n)) ==
            AddEvent(StoreGroups(StraddlingJournal(c, n - 1)), Event(n, Named(n), StraddlingPayload(c, n)))
  {
    SnocInit(StraddlingJournal(c, n - 1), Event(n, Named(n), StraddlingPayload(c, n)));
  }

  lemma StraddlingFirst(c: StoredCheckpoint) returns (a: StoreGroup)
    ensures StoreGroups(StraddlingJournal(c, 3)) == [a] && Complete(a) && a.turn == Named(1)
  {
    StraddlingGroupsStep(c, 1);
    StraddlingGroupsStep(c, 2);
    StraddlingGroupsStep(c, 3);
    var e2, e3 := Event(2, Named(2), StraddlingPayload(c, 2)), Event(3, Named(3), StraddlingPayload(c, 3));
    assert StoreGroups(StraddlingJournal(c, 0)) == [];
    AddNew([], e2);
    a := Extend(StoreGroup(Named(1), 2, [], false, None), e2);
    AddToLast([], a, e3);
    a := Extend(a, e3);
  }

  lemma StraddlingGroups(c: StoredCheckpoint) returns (a: StoreGroup, b: StoreGroup)
    ensures StoreGroups(StraddlingJournal(c, 7)) == [a] + [b] && Complete(a) && Complete(b)
  {
    a := StraddlingFirst(c);
    StraddlingGroupsStep(c, 4);
    StraddlingGroupsStep(c, 5);
    StraddlingGroupsStep(c, 6);
    StraddlingGroupsStep(c, 7);
    var e4, e7 := Event(4, Named(4), StraddlingPayload(c, 4)), Event(7, Named(7), StraddlingPayload(c, 7));
    AddNew([a], e4);
    b := Extend(StoreGroup(Named(2), 4, [], false, None), e4);
    AddToLast([a], b, e7);
    b := Extend(b, e7);
  }

  /** The snapshot of that journal is empty although turn 2 is committed and not covered. */
  lemma StraddlingTurnIsLost(payload: Checkpoint)
    ensures var c := StraddlingCheckpoint(payload); var events := StraddlingJournal(c, 7);
      && Written(events) && Replay(events).value.activeCheckpoint == c.id
      && |ContextGroups(StoreGroups(events))| == 2
      && TailCut(c) == 7 && ContextGroups(StoreGroups(events[6..])) == []
  {
    var c := StraddlingCheckpoint(payload);
    var events := StraddlingJournal(c, 7);
    StraddlingReplays(payload);
    var a, b := StraddlingGroups(c);
    ContextAppend([a], [b]);
    ContextOne(a);
    ContextOne(b);
    var e7 := Event(7, Named(7), StraddlingPayload(c, 7));
    assert events[6..] == [] + [e7];
    SnocInit([], e7);
    assert StoreGroups([]) == [];
    AddNew([], e7);
    ContextOne(Extend(StoreGroup(Named(2), 7, [], false, None), e7));
  }
}
