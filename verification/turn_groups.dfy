/** What the lifecycle guarantees about turn groups: a committed group never changes again, groups
    commit in the order they started, and their event ids are pairwise disjoint. */
module TurnGroups {
  import opened Ids
  import opened CheckpointContract
  import opened ThreadJournal

  function EventIds(events: seq<Event>): seq<Id> {
    if events == [] then [] else EventIds(events[..|events| - 1]) + [events[|events| - 1].id]
  }

  /** Event ids are drawn fresh by the store. */
  ghost predicate FreshIds(events: seq<Event>) {
    Canonical(EventIds(events))
  }

  function AllIds(groups: seq<StoreGroup>): seq<Id> {
    if groups == [] then [] else AllIds(groups[..|groups| - 1]) + groups[|groups| - 1].eventIds
  }

  function SourceIds(groups: seq<TurnGroup>): seq<Id> {
    if groups == [] then [] else SourceIds(groups[..|groups| - 1]) + groups[|groups| - 1].sourceEventIds
  }

  /** Groups as a valid journal produces them; only the last one can still be open. */
  ghost predicate Tidy(groups: seq<StoreGroup>, s: ThreadState) {
    && (forall i :: 0 <= i < |groups| ==> groups[i].started && groups[i].turn in s.turns && groups[i].eventIds != [])
    && (forall i, j :: 0 <= i < j < |groups| ==> groups[i].turn != groups[j].turn)
    && (s.activeTurn != Id.Blank ==>
          && groups != []
          && groups[|groups| - 1].turn == s.activeTurn
          && groups[|groups| - 1].committed.None?)
  }

  lemma IndexOfLast(groups: seq<StoreGroup>, turn: Id)
    requires groups != [] && groups[|groups| - 1].turn == turn
    requires forall i, j :: 0 <= i < j < |groups| ==> groups[i].turn != groups[j].turn
    ensures FirstIndex(IsTurn(turn), groups) == |groups| - 1
  {
  }

  /** How one valid event changes the groups. */
  ghost predicate Advances(before: seq<StoreGroup>, after: seq<StoreGroup>, e: Event) {
    if TurnOf(e.payload) == Id.Blank then after == before
    else if e.payload.TurnStarted? then
      after == before + [StoreGroup(e.payload.turn, e.sequence, [e.id], true, None)]
    else
      && before != []
      && before[|before| - 1].committed.None?
      && after == before[..|before| - 1] + [Extend(before[|before| - 1], e)]
  }

  lemma OneEventAdvances(groups: seq<StoreGroup>, s: ThreadState, e: Event)
    requires Tidy(groups, s) && Apply(s, e).Some?
    ensures Advances(groups, AddEvent(groups, e), e)
    ensures Tidy(AddEvent(groups, e), Apply(s, e).value)
  {
    var turn := TurnOf(e.payload);
    if turn != Id.Blank {
      if e.payload.TurnStarted? {
        var i := FirstIndex(IsTurn(turn), groups);
        assert i == |groups|;
        var after := AddEvent(groups, e);
        assert [] + [e.id] == [e.id];
        assert after[|groups|].turn == turn;
      } else {
        IndexOfLast(groups, turn);
      }
    }
  }

  lemma {:induction false} JournalGroupsAreTidy(events: seq<Event>)
    requires ValidJournal(events)
    ensures Tidy(StoreGroups(events), Replay(events).value)
  {
    if events != [] {
      var rest := events[..|events| - 1];
      JournalGroupsAreTidy(rest);
      OneEventAdvances(StoreGroups(rest), Replay(rest).value, events[|events| - 1]);
    }
  }

  lemma ContextSnoc(rest: seq<StoreGroup>, g: StoreGroup)
    ensures ContextGroups(rest + [g]) ==
            if Complete(g) then ContextGroups(rest) + [ToTurnGroup(g)] else ContextGroups(rest)
  {
    SnocInit(rest, g);
  }

  /** `after` is `before`, or `before` and one group more. */
  ghost predicate Grows(before: seq<TurnGroup>, after: seq<TurnGroup>, commit: bool) {
    || after == before
    || (commit && |after| == |before| + 1 && after[..|before|] == before)
  }

  lemma AdvancesGrow(before: seq<StoreGroup>, after: seq<StoreGroup>, e: Event)
    requires Advances(before, after, e)
    ensures Grows(ContextGroups(before), ContextGroups(after), e.payload.TurnCommitted?)
  {
    if TurnOf(e.payload) != Id.Blank {
      if e.payload.TurnStarted? {
        ContextSnoc(before, StoreGroup(e.payload.turn, e.sequence, [e.id], true, None));
      } else {
        var rest, last := before[..|before| - 1], before[|before| - 1];
        InitLast(before);
        ContextSnoc(rest, last);
        ContextSnoc(rest, Extend(last, e));
      }
    }
  }

  /** A valid event leaves the committed groups alone, except that a commit adds its own. */
  lemma ContextGroupsGrow(events: seq<Event>, e: Event)
    requires ValidJournal(events + [e])
    ensures Grows(ContextGroups(StoreGroups(events)), ContextGroups(StoreGroups(events + [e])),
                  e.payload.TurnCommitted?)
  {
    ReplayAppend(events, e);
    JournalGroupsAreTidy(events);
    SnocInit(events, e);
    OneEventAdvances(StoreGroups(events), Replay(events).value, e);
    AdvancesGrow(StoreGroups(events), StoreGroups(events + [e]), e);
  }

  lemma {:induction false} ContextGroupsPrefix(events: seq<Event>, n: nat)
    requires ValidJournal(events) && n <= |events|
    ensures ContextGroups(StoreGroups(events[..n])) <= ContextGroups(StoreGroups(events))
  {
    if n == |events| {
      assert events[..n] == events;
    } else {
      var rest := events[..|events| - 1];
      assert events == rest + [events[|events| - 1]];
      ContextGroupsPrefix(rest, n);
      assert rest[..n] == events[..n];
      ContextGroupsGrow(rest, events[|events| - 1]);
    }
  }

  /** Without a commit the committed groups are the same. */
  lemma {:induction false} ContextGroupsStable(events: seq<Event>, n: nat)
    requires ValidJournal(events) && n <= |events|
    requires forall k :: n <= k < |events| ==> !events[k].payload.TurnCommitted?
    ensures ContextGroups(StoreGroups(events[..n])) == ContextGroups(StoreGroups(events))
  {
    if n == |events| {
      assert events[..n] == events;
    } else {
      var rest := events[..|events| - 1];
      assert events == rest + [events[|events| - 1]];
      ContextGroupsStable(rest, n);
      assert rest[..n] == events[..n];
      ContextGroupsGrow(rest, events[|events| - 1]);
    }
  }

  // ---- event ids ----

  /** Every event that belongs to a turn is in exactly one group, in journal order. */
  lemma {:induction false} GroupIdsComeFromEvents(events: seq<Event>)
    requires ValidJournal(events) && FreshIds(events)
    ensures Canonical(AllIds(StoreGroups(events)))
    ensures forall id :: id in AllIds(StoreGroups(events)) ==> id in EventIds(events)
  {
    if events != [] {
      var rest, e := events[..|events| - 1], events[|events| - 1];
      CanonicalParts(EventIds(rest), [e.id]);
      GroupIdsComeFromEvents(rest);
      JournalGroupsAreTidy(rest);
      var groups := StoreGroups(rest);
      OneEventAdvances(groups, Replay(rest).value, e);
      AddEventIds(groups, e);
      AppendFresh(AllIds(groups), EventIds(rest), e.id);
    }
  }

  lemma AppendFresh(ids: seq<Id>, known: seq<Id>, id: Id)
    requires Canonical(ids) && Canonical(known + [id])
    requires forall x :: x in ids ==> x in known
    ensures Canonical(ids + [id]) && id !in ids
    ensures forall x :: x in ids + [id] ==> x in known + [id]
  {
    CanonicalParts(known, [id]);
    assert id !in known by {
      assert id in [id];
    }
    CanonicalConcat(ids, [id]);
  }

  lemma AddEventIds(groups: seq<StoreGroup>, e: Event)
    requires Advances(groups, AddEvent(groups, e), e)
    ensures AllIds(AddEvent(groups, e)) == AllIds(groups) + (if TurnOf(e.payload) == Id.Blank then [] else [e.id])
  {
    var after := AddEvent(groups, e);
    if TurnOf(e.payload) != Id.Blank {
      if e.payload.TurnStarted? {
        assert after[..|after| - 1] == groups;
      } else {
        var rest, last := groups[..|groups| - 1], groups[|groups| - 1];
        assert after[..|after| - 1] == rest;
        ConcatAssoc(AllIds(rest), last.eventIds, [e.id]);
      }
    }
  }

  /** Ids of the context groups are canonical: non-empty groups, pairwise disjoint. */
  lemma {:induction false} ContextIdsCanonical(groups: seq<StoreGroup>)
    requires Canonical(AllIds(groups))
    requires forall i :: 0 <= i < |groups| ==> groups[i].eventIds != []
    ensures Canonical(SourceIds(ContextGroups(groups)))
    ensures forall id :: id in SourceIds(ContextGroups(groups)) ==> id in AllIds(groups)
    ensures forall i :: 0 <= i < |ContextGroups(groups)| ==> ContextGroups(groups)[i].sourceEventIds != []
  {
    if groups != [] {
      var rest, g := groups[..|groups| - 1], groups[|groups| - 1];
      CanonicalParts(AllIds(rest), g.eventIds);
      ContextIdsCanonical(rest);
      var before := ContextGroups(rest);
      if Complete(g) {
        assert ContextGroups(groups)[..|before|] == before;
        assert SourceIds(ContextGroups(groups)) == SourceIds(before) + g.eventIds;
        CanonicalConcat(SourceIds(before), g.eventIds);
      } else {
        assert ContextGroups(groups) == before;
      }
    }
  }
}
