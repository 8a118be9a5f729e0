/** The recorder of one turn's tool lifecycle (`threadTurnRecorder` in `internal/chat/session.go`):
    what it has been shown, what the journal holds, and the previews it hands to the model. */
module TurnRecorders {
  import opened Ids
  import opened Previews

  /** A tool of the open turn as the journal's lifecycle check knows it. */
  datatype JournalTool = JournalTool(name: string, completed: bool)

  /** Tool starts and ends as they are emitted; an error is an end with its text as output. */
  datatype ToolEvent = ToolStart(id: Id, tool: string) | ToolEnd(id: Id, tool: string, output: string)

  /** Whether the store accepts a start and, for an end, the artifact and the completion. */
  datatype Storage = Storage(starts: bool, completes: bool)

  function StartIds(events: seq<ToolEvent>): seq<Id> {
    if events == [] then [] else
      var last := events[|events| - 1];
      StartIds(events[..|events| - 1]) + if last.ToolStart? && last.id != Id.Blank then [last.id] else []
  }

  function EndIds(events: seq<ToolEvent>): set<Id> {
    set e | e in events && e.ToolEnd? && e.id != Id.Blank :: e.id
  }

  ghost predicate NoRepeat(ids: seq<Id>) {
    forall i, j :: 0 <= i < j < |ids| ==> ids[i] != ids[j]
  }

  /** A list whose members all occur among distinct ones, as often as it holds them, has no repeat. */
  lemma SubBagHasNoRepeat(ids: seq<Id>, all: seq<Id>)
    requires NoRepeat(all) && multiset(ids) <= multiset(all)
    ensures NoRepeat(ids)
  {
    forall i, j | 0 <= i < j < |ids| ensures ids[i] != ids[j] {
      OnceEach(all, ids[i]);
      if ids[i] == ids[j] {
        TwiceAt(ids, i, j);
      }
    }
  }

  lemma {:induction false} OnceEach(all: seq<Id>, id: Id)
    requires NoRepeat(all)
    ensures multiset(all)[id] <= 1
  {
    if all != [] {
      var rest, last := all[..|all| - 1], all[|all| - 1];
      InitLast(all);
      OnceEach(rest, id);
      if last == id {
        assert id !in rest;
        assert multiset(rest)[id] == 0;
      }
      assert multiset(all) == multiset(rest) + multiset([last]);
    }
  }

  lemma TwiceAt(ids: seq<Id>, i: nat, j: nat)
    requires i < j < |ids| && ids[i] == ids[j]
    ensures multiset(ids)[ids[i]] >= 2
  {
    assert ids == ids[..j] + [ids[j]] + ids[j + 1..];
    assert multiset(ids) == multiset(ids[..j]) + multiset([ids[j]]) + multiset(ids[j + 1..]);
    assert ids[i] in ids[..j] by {
      assert ids[..j][i] == ids[i];
    }
    assert multiset(ids[..j])[ids[i]] >= 1;
  }

  // ---- open calls ----

  function OpenOf(openTools: map<string, seq<Id>>, tool: string): seq<Id> {
    if tool in openTools then openTools[tool] else []
  }

  predicate IsOpen(journal: map<Id, JournalTool>, id: Id) {
    id in journal && !journal[id].completed
  }

  function OpenAs(journal: map<Id, JournalTool>, tool: string): Id -> bool {
    (id: Id) => id in journal && !journal[id].completed && journal[id].name == tool
  }

  /** The calls of a tool that have not completed, in the order they started. */
  function OpenCalls(journal: map<Id, JournalTool>, started: seq<Id>, tool: string): seq<Id> {
    Filter(OpenAs(journal, tool), started)
  }

  function Other(id: Id): Id -> bool {
    (x: Id) => x != id
  }

  function Without(ids: seq<Id>, id: Id): seq<Id> {
    Filter(Other(id), ids)
  }

  lemma {:induction false} SameFilter(f: Id -> bool, g: Id -> bool, s: seq<Id>)
    requires forall i :: 0 <= i < |s| ==> f(s[i]) == g(s[i])
    ensures Filter(f, s) == Filter(g, s)
  {
    if s != [] {
      SameFilter(f, g, s[..|s| - 1]);
    }
  }

  lemma {:induction false} FilterTwice(f: Id -> bool, g: Id -> bool, h: Id -> bool, s: seq<Id>)
    requires forall x :: h(x) <==> f(x) && g(x)
    ensures Filter(h, s) == Filter(g, Filter(f, s))
  {
    if s != [] {
      var rest, last := s[..|s| - 1], s[|s| - 1];
      FilterTwice(f, g, h, rest);
      FilterSnoc(g, Filter(f, rest), last);
    }
  }

  lemma {:induction false} FilterNoRepeat(f: Id -> bool, s: seq<Id>)
    requires NoRepeat(s)
    ensures NoRepeat(Filter(f, s)) && forall x :: x in Filter(f, s) <==> x in s && f(x)
  {
    if s != [] {
      var rest, last := s[..|s| - 1], s[|s| - 1];
      FilterNoRepeat(f, rest);
      InitLast(s);
    }
  }

  /** Taking one of distinct ids out. */
  lemma WithoutAt(ids: seq<Id>, i: nat)
    requires NoRepeat(ids) && i < |ids|
    ensures Without(ids, ids[i]) == ids[..i] + ids[i + 1..]
  {
    var keep := Other(ids[i]);
    FilterAll(keep, ids[..i]);
    FilterAll(keep, ids[i + 1..]);
    assert ids == (ids[..i] + [ids[i]]) + ids[i + 1..];
    FilterAppend(keep, ids[..i] + [ids[i]], ids[i + 1..]);
    FilterSnoc(keep, ids[..i], ids[i]);
  }

  lemma StartOpens(journal: map<Id, JournalTool>, started: seq<Id>, id: Id, name: string, tool: string)
    requires id !in started
    ensures OpenCalls(journal[id := JournalTool(name, false)], started + [id], tool) ==
            OpenCalls(journal, started, tool) + if tool == name then [id] else []
  {
    var after := journal[id := JournalTool(name, false)];
    SameFilter(OpenAs(journal, tool), OpenAs(after, tool), started);
    FilterSnoc(OpenAs(after, tool), started, id);
  }

  lemma EndCloses(journal: map<Id, JournalTool>, started: seq<Id>, id: Id, tool: string)
    requires id in journal && !journal[id].completed
    ensures OpenCalls(journal[id := journal[id].(completed := true)], started, tool) ==
            if tool == journal[id].name then Without(OpenCalls(journal, started, tool), id)
            else OpenCalls(journal, started, tool)
  {
    var after := journal[id := journal[id].(completed := true)];
    if tool == journal[id].name {
      FilterTwice(OpenAs(journal, tool), Other(id), OpenAs(after, tool), started);
    } else {
      SameFilter(OpenAs(journal, tool), OpenAs(after, tool), started);
    }
  }

  /** A call that starts with its end is never open. */
  lemma EndsAtOnce(journal: map<Id, JournalTool>, started: seq<Id>, id: Id, name: string, tool: string)
    requires id !in started
    ensures OpenCalls(journal[id := JournalTool(name, true)], started + [id], tool) == OpenCalls(journal, started, tool)
  {
    var after := journal[id := JournalTool(name, true)];
    SameFilter(OpenAs(journal, tool), OpenAs(after, tool), started);
    FilterSnoc(OpenAs(after, tool), started, id);
  }

  /** The journal accepts an end of a call under another name only if one of them is blank. */
  predicate NameFits(name: string, tool: string) {
    name == "" || tool == "" || name == tool
  }

  ghost predicate Records(journal: map<Id, JournalTool>, started: seq<Id>, outputs: map<Id, string>) {
    && NoRepeat(started) && Id.Blank !in started && (forall id :: id in journal <==> id in started)
    && (forall id :: id in outputs <==> id in journal && journal[id].completed)
  }

  lemma RecordsEnd(journal: map<Id, JournalTool>, started: seq<Id>, outputs: map<Id, string>, id: Id, output: string)
    requires Records(journal, started, outputs) && IsOpen(journal, id)
    ensures Records(journal[id := journal[id].(completed := true)], started, outputs[id := output]) && id !in outputs
  {
  }

  lemma RecordsStart(journal: map<Id, JournalTool>, started: seq<Id>, outputs: map<Id, string>, id: Id, tool: string)
    requires Records(journal, started, outputs) && id != Id.Blank && id !in journal
    ensures Records(journal[id := JournalTool(tool, false)], started + [id], outputs) && id !in started
  {
  }

  /** The recorder's own tables say which calls are open, in the order they started. */
  ghost predicate Tracks(toolNames: map<Id, string>, openTools: map<string, seq<Id>>, journal: map<Id, JournalTool>,
                         started: seq<Id>) {
    && (forall id :: id in toolNames <==> IsOpen(journal, id))
    && (forall id :: id in toolNames ==> toolNames[id] == journal[id].name)
    && (forall tool :: OpenOf(openTools, tool) == OpenCalls(journal, started, tool))
  }

  lemma TracksStart(toolNames: map<Id, string>, openTools: map<string, seq<Id>>, journal: map<Id, JournalTool>,
                    started: seq<Id>, id: Id, tool: string)
    requires Tracks(toolNames, openTools, journal, started) && id !in started
    ensures Tracks(toolNames[id := tool], openTools[tool := OpenOf(openTools, tool) + [id]],
                   journal[id := JournalTool(tool, false)], started + [id])
  {
    var openTools' := openTools[tool := OpenOf(openTools, tool) + [id]];
    var journal' := journal[id := JournalTool(tool, false)];
    forall name ensures OpenOf(openTools', name) == OpenCalls(journal', started + [id], name) {
      StartOpens(journal, started, id, tool, name);
      assert OpenOf(openTools, name) == OpenCalls(journal, started, name);
    }
    hide OpenCalls;
  }

  lemma TracksEnd(toolNames: map<Id, string>, openTools: map<string, seq<Id>>, journal: map<Id, JournalTool>,
                  started: seq<Id>, id: Id)
    requires Tracks(toolNames, openTools, journal, started) && IsOpen(journal, id)
    ensures var name := journal[id].name;
      Tracks(toolNames - {id}, openTools[name := Without(OpenOf(openTools, name), id)],
             journal[id := journal[id].(completed := true)], started)
  {
    var tool := journal[id].name;
    var openTools' := openTools[tool := Without(OpenOf(openTools, tool), id)];
    var journal' := journal[id := journal[id].(completed := true)];
    forall name ensures OpenOf(openTools', name) == OpenCalls(journal', started, name) {
      EndCloses(journal, started, id, name);
      assert OpenOf(openTools, name) == OpenCalls(journal, started, name);
    }
    hide OpenCalls, Without;
  }

  lemma TracksEndAtOnce(toolNames: map<Id, string>, openTools: map<string, seq<Id>>, journal: map<Id, JournalTool>,
                        started: seq<Id>, id: Id, tool: string)
    requires Tracks(toolNames, openTools, journal, started) && id !in started && id !in journal
    ensures Tracks(toolNames, openTools, journal[id := JournalTool(tool, true)], started + [id])
  {
    var journal' := journal[id := JournalTool(tool, true)];
    forall name ensures OpenOf(openTools, name) == OpenCalls(journal', started + [id], name) {
      EndsAtOnce(journal, started, id, tool, name);
      assert OpenOf(openTools, name) == OpenCalls(journal, started, name);
    }
    hide OpenCalls;
  }

  /** What the tables are good for: finding a call that is open, or the oldest one of a tool. */
  lemma TrackedIsOpen(toolNames: map<Id, string>, openTools: map<string, seq<Id>>, journal: map<Id, JournalTool>,
                      started: seq<Id>, outputs: map<Id, string>, id: Id, tool: string)
    requires Tracks(toolNames, openTools, journal, started) && Records(journal, started, outputs)
    ensures (id in toolNames <==> IsOpen(journal, id)) && (id in started <==> id in journal) && Id.Blank !in journal
    ensures id in toolNames ==>
      && toolNames[id] == journal[id].name
      && NoRepeat(OpenOf(openTools, toolNames[id])) && id in OpenOf(openTools, toolNames[id])
    ensures var open := OpenOf(openTools, tool);
      && open == OpenCalls(journal, started, tool) && NoRepeat(open)
      && (open != [] ==> IsOpen(journal, open[0]) && journal[open[0]].name == tool && open[0] in journal)
  {
    OpenAreDistinct(journal, started, tool);
    if id in toolNames {
      OpenIsListed(journal, started, id);
      OpenAreDistinct(journal, started, toolNames[id]);
      assert OpenOf(openTools, toolNames[id]) == OpenCalls(journal, started, toolNames[id]);
    }
    if OpenOf(openTools, tool) != [] {
      OpenIsListedAs(journal, started, tool, 0);
    }
  }

  // ---- what a stretch of events does ----

  /** What the journal holds of the turn's tools, and how many ids were made up. */
  datatype Book = Book(journal: map<Id, JournalTool>, started: seq<Id>, outputs: map<Id, string>, madeUp: nat)

  /** One event; None when it is refused, and with it everything that follows. */
  function Booked(newId: (string, nat) -> Id, b: Book, e: ToolEvent, storage: Storage): Option<Book> {
    match e
    case ToolStart(id, tool) =>
      var t := if id == Id.Blank then newId(tool, b.madeUp + 1) else id;
      if !storage.starts || t == Id.Blank || t in b.journal then None
      else Some(Book(b.journal[t := JournalTool(tool, false)], b.started + [t], b.outputs,
                     b.madeUp + if id == Id.Blank then 1 else 0))
    case ToolEnd(id, tool, output) =>
      var waiting := OpenCalls(b.journal, b.started, tool);
      var open := if id == Id.Blank then waiting != [] else IsOpen(b.journal, id);
      var t := if id != Id.Blank then id else if open then waiting[0] else newId(tool, b.madeUp + 1);
      var name := if open && t in b.journal then b.journal[t].name else tool;
      if !storage.completes || !NameFits(name, tool) then None
      else if !open && (!storage.starts || t == Id.Blank || t in b.journal) then None
      else Some(Book(b.journal[t := JournalTool(name, true)], b.started + (if open then [] else [t]),
                     b.outputs[t := output], b.madeUp + if id == Id.Blank && !open then 1 else 0))
  }

  function BookedAll(newId: (string, nat) -> Id, b: Book, events: seq<ToolEvent>, storage: nat -> Storage): Option<Book>
  {
    if events == [] then Some(b) else
      var n := |events| - 1;
      var before := BookedAll(newId, b, events[..n], storage);
      if before.None? then None else Booked(newId, before.value, events[n], storage(n))
  }

  lemma {:induction false} RefusedStaysRefused(newId: (string, nat) -> Id, b: Book, events: seq<ToolEvent>,
                                               storage: nat -> Storage, n: nat)
    requires n <= |events| && BookedAll(newId, b, events[..n], storage).None?
    ensures BookedAll(newId, b, events, storage).None?
  {
    if n < |events| {
      var rest := events[..|events| - 1];
      assert rest[..n] == events[..n];
      RefusedStaysRefused(newId, b, rest, storage, n);
    } else {
      assert events[..n] == events;
    }
  }

  class TurnRecorder {
    const newId: (string, nat) -> Id
    var nextTool: nat
    var openTools: map<string, seq<Id>>
    var toolNames: map<Id, string>
    var rawOutputs: map<Id, string>
    var failed: bool
    var journal: map<Id, JournalTool>
    ghost var started: seq<Id>      // every id a start was shown or made up for

    ghost function Books(): Book
      reads this
    {
      Book(journal, started, rawOutputs, nextTool)
    }

    /** Every id was started once, and the output of every completed tool is held. */
    ghost predicate Recorded()
      reads this
    {
      Records(journal, started, rawOutputs)
    }

    /** The recorder's own tables say which calls are open, in the order they started. */
    ghost predicate Tracked()
      reads this
    {
      Tracks(toolNames, openTools, journal, started)
    }

    ghost predicate Valid()
      reads this
    {
      !failed ==> Recorded() && Tracked()
    }

    constructor (newId: (string, nat) -> Id)
      ensures Valid() && !failed && started == [] && journal == map[] && this.newId == newId
    {
      this.newId := newId;
      nextTool, openTools, toolNames, rawOutputs, failed, journal, started := 0, map[], map[], map[], false, map[], [];
    }

    method NewToolId(tool: string) returns (id: Id)
      modifies this`nextTool
      ensures nextTool == old(nextTool) + 1 && id == newId(tool, nextTool)
    {
      nextTool := nextTool + 1;
      id := newId(tool, nextTool);
    }

    /** The oldest open call of a tool stops being open. */
    method PopToolId(tool: string) returns (id: Id)
      requires NoRepeat(OpenOf(openTools, tool))
      modifies this`openTools, this`toolNames
      ensures var ids := old(OpenOf(openTools, tool));
        if ids == [] then id == Id.Blank && openTools == old(openTools) && toolNames == old(toolNames)
        else id == ids[0] && openTools == old(openTools)[tool := Without(ids, id)] && toolNames == old(toolNames) - {id}
    {
      var ids := if tool in openTools then openTools[tool] else [];
      if ids == [] {
        return Id.Blank;
      }
      id := ids[0];
      WithoutAt(ids, 0);
      assert ids[..0] + ids[1..] == ids[1..];
      openTools := openTools[tool := ids[1..]];
      toolNames := toolNames - {id};
    }

    method RemoveOpenTool(id: Id)
      requires id in toolNames ==> NoRepeat(OpenOf(openTools, toolNames[id])) && id in OpenOf(openTools, toolNames[id])
      modifies this`openTools, this`toolNames
      ensures toolNames == old(toolNames) - {id}
      ensures openTools == if id !in old(toolNames) then old(openTools)
        else old(openTools)[old(toolNames[id]) := Without(old(OpenOf(openTools, toolNames[id])), id)]
    {
      if id !in toolNames {
        return;
      }
      var name := toolNames[id];
      var ids := if name in openTools then openTools[name] else [];
      for i := 0 to |ids|
        invariant toolNames == old(toolNames) && openTools == old(openTools)
        invariant forall k :: 0 <= k < i ==> ids[k] != id
      {
        if ids[i] == id {
          WithoutAt(ids, i);
          openTools := openTools[name := ids[..i] + ids[i + 1..]];
          break;
        }
      }
      toolNames := toolNames - {id};
    }

    /** The journal refuses a blank id and a second start of the same id. */
    method JournalStart(id: Id, tool: string, storage: Storage) returns (ok: bool)
      requires Recorded() && !failed
      modifies this`journal, this`started, this`failed
      ensures failed == !ok && started == old(started) + [id]
      ensures ok <==> storage.starts && id != Id.Blank && id !in old(journal)
      ensures ok ==> Recorded() && id !in old(started) && journal == old(journal)[id := JournalTool(tool, false)]
    {
      hide Records;
      if id != Id.Blank && id !in journal {
        RecordsStart(journal, started, rawOutputs, id, tool);
      }
      started := started + [id];
      if !storage.starts || id == Id.Blank || id in journal {
        failed := true;
        return false;
      }
      journal := journal[id := JournalTool(tool, false)];
      ok := true;
    }

    /** The id a start goes by. */
    function StartId(id: Id, tool: string): Id
      reads this
    {
      if id == Id.Blank then newId(tool, nextTool + 1) else id
    }

    /** `record` for a tool start: accepted exactly when the call is new to the turn and the store takes it. A
        repeated id fails the recorder: while the first call is open its own table refuses it, and later the
        journal does. */
    method RecordStart(id: Id, tool: string, storage: Storage) returns (ok: bool)
      requires Valid()
      modifies this
      ensures Valid() && failed == !ok
      ensures var t := old(StartId(id, tool));
        && (ok <==> !old(failed) && storage.starts && t != Id.Blank && t !in old(journal))
        && (ok ==> journal == old(journal)[t := JournalTool(tool, false)] && started == old(started) + [t]
                   && nextTool == old(nextTool) + if id == Id.Blank then 1 else 0)
      ensures id != Id.Blank ==> started == old(started) + [id]
      ensures old(started) <= started
      ensures ok ==> rawOutputs == old(rawOutputs)
      ensures id != Id.Blank && id in old(started) ==> failed
    {
      hide OpenCalls, Tracks, NoRepeat, Records;
      if failed {
        if id != Id.Blank {
          started := started + [id];
        }
        return false;
      }
      var toolId := id;
      if toolId == Id.Blank {
        toolId := NewToolId(tool);
      }
      TrackedIsOpen(toolNames, openTools, journal, started, rawOutputs, toolId, tool);
      if toolId in toolNames {
        started, failed := started + [toolId], true;
        return false;
      }
      ok := JournalStart(toolId, tool, storage);
      if !ok {
        return false;
      }
      TracksStart(toolNames, openTools, old(journal), old(started), toolId, tool);
      var ids := if tool in openTools then openTools[tool] else [];
      openTools, toolNames := openTools[tool := ids + [toolId]], toolNames[toolId := tool];
    }

    /** The call an end is about: the one it names, else the oldest open call of the tool, else a new one. */
    ghost function EndId(id: Id, tool: string): Id
      reads this
    {
      var open := OpenCalls(journal, started, tool);
      if id != Id.Blank then id else if open != [] then open[0] else newId(tool, nextTool + 1)
    }

    /** Whether an end completes a call that has started. */
    ghost predicate EndsOpen(id: Id, tool: string)
      reads this
    {
      if id != Id.Blank then IsOpen(journal, id) else OpenCalls(journal, started, tool) != []
    }

    /** An open call that ends is open no more. */
    method CloseTool(id: Id, tool: string) returns (toolId: Id, begun: bool)
      requires Valid() && !failed
      modifies this`openTools, this`toolNames
      ensures begun == old(EndsOpen(id, tool)) && (id != Id.Blank ==> toolId == id)
      ensures begun ==> toolId == old(EndId(id, tool)) && IsOpen(journal, toolId)
      ensures begun ==>
        Tracks(toolNames, openTools, journal[toolId := journal[toolId].(completed := true)], started)
      ensures !begun ==> toolId == id && toolNames == old(toolNames) && openTools == old(openTools)
    {
      hide OpenCalls, Tracks, NoRepeat, Without;
      TrackedIsOpen(toolNames, openTools, journal, started, rawOutputs, id, tool);
      toolId, begun := id, false;
      if toolId != Id.Blank {
        begun := toolId in toolNames;
        if !begun {
          assert toolNames - {toolId} == toolNames;
        }
        RemoveOpenTool(toolId);
      } else {
        toolId := PopToolId(tool);
        begun := toolId != Id.Blank;
      }
      if begun {
        TracksEnd(old(toolNames), old(openTools), journal, started, toolId);
      }
    }

    /** `record` for a tool end or error: completes an open call, or one that starts with its end. */
    method RecordEnd(id: Id, tool: string, output: string, storage: Storage) returns (ok: bool)
      requires Valid()
      modifies this
      ensures Valid() && failed == !ok
      ensures var t, open := old(EndId(id, tool)), old(EndsOpen(id, tool));
        && (!old(failed) && open ==> t in old(journal))
        && (ok <==> !old(failed) && storage.completes
                    && if open then NameFits(old(journal)[t].name, tool)
                       else storage.starts && t != Id.Blank && t !in old(journal))
        && (ok ==> journal == old(journal)[t := JournalTool(if open then old(journal)[t].name else tool, true)]
                   && started == old(started) + (if open then [] else [t])
                   && nextTool == old(nextTool) + (if id == Id.Blank && !open then 1 else 0)
                   && rawOutputs == old(rawOutputs)[t := output] && t !in old(rawOutputs))
      ensures old(started) <= started
      ensures ok ==> forall x :: x in old(rawOutputs) ==> x in rawOutputs && rawOutputs[x] == old(rawOutputs)[x]
    {
      hide OpenCalls, Tracks, NoRepeat, Records;
      if failed {
        return false;
      }
      var toolId, begun := CloseTool(id, tool);
      if !begun {
        if toolId == Id.Blank {
          toolId := NewToolId(tool);
        }
        ok := JournalStart(toolId, tool, storage);
        if !ok {
          return false;
        }
      }
      ok := JournalEnd(toolId, tool, output, storage);
      if ok && !begun {
        TracksEndAtOnce(toolNames, openTools, old(journal), old(started), toolId, tool);
        assert journal == old(journal)[toolId := JournalTool(tool, true)];
      }
    }

    /** The journal wants an open call of the same name. */
    method JournalEnd(id: Id, tool: string, output: string, storage: Storage) returns (ok: bool)
      requires Recorded() && !failed
      modifies this`journal, this`rawOutputs, this`failed
      ensures failed == !ok && (ok ==> Recorded())
      ensures ok <==> storage.completes && IsOpen(old(journal), id) && NameFits(old(journal)[id].name, tool)
      ensures ok ==> rawOutputs == old(rawOutputs)[id := output] && id !in old(rawOutputs)
                     && journal == old(journal)[id := old(journal)[id].(completed := true)]
    {
      hide Records;
      if !storage.completes || id !in journal || journal[id].completed
         || (journal[id].name != "" && tool != "" && journal[id].name != tool) {
        failed := true;
        return false;
      }
      RecordsEnd(journal, started, rawOutputs, id, output);
      journal, rawOutputs := journal[id := journal[id].(completed := true)], rawOutputs[id := output];
      ok := true;
    }

    method RecordOne(e: ToolEvent, storage: Storage)
      requires Valid()
      modifies this
      ensures Valid()
      ensures var after := Booked(newId, old(Books()), e, storage);
        (failed <==> old(failed) || after.None?) && (!failed ==> after == Some(Books()))
      ensures Gains(old(started), StartIds([e]), started)
      ensures !failed ==> Extends(old(rawOutputs), rawOutputs) && forall x :: x in EndIds([e]) ==> x in rawOutputs
    {
      hide StartIds, Gains, NoRepeat, OpenCalls, Tracks;
      match e {
        case ToolStart(id, tool) =>
          var ok := RecordStart(id, tool, storage);
        case ToolEnd(id, tool, output) =>
          var ok := RecordEnd(id, tool, output, storage);
      }
      GainsOne(old(started), e, started);
    }

    /** A whole stretch of events; `storage(k)` is what the store does about the k-th. */
    method RecordAll(events: seq<ToolEvent>, storage: nat -> Storage)
      requires Valid()
      modifies this
      ensures Valid()
      ensures var after := BookedAll(newId, old(Books()), events, storage);
        (failed <==> old(failed) || after.None?) && (!failed ==> after == Some(Books()))
      ensures Gains(old(started), StartIds(events), started)
      ensures !failed ==> Extends(old(rawOutputs), rawOutputs) && forall x :: x in EndIds(events) ==> x in rawOutputs
    {
      hide Gains, StartIds, NoRepeat, Booked, Recorded, Tracked;
      GainsNothing(started);
      for i := 0 to |events|
        invariant Valid()
        invariant var after := BookedAll(newId, old(Books()), events[..i], storage);
          (failed <==> old(failed) || after.None?) && (!failed ==> after == Some(Books()))
        invariant Gains(old(started), StartIds(events[..i]), started)
        invariant !failed ==> Extends(old(rawOutputs), rawOutputs)
        invariant !failed ==> forall x :: x in EndIds(events[..i]) ==> x in rawOutputs
      {
        ghost var before := started;
        assert events[..i + 1][..i] == events[..i];
        RecordOne(events[i], storage(i));
        GainsMore(old(started), events, i, before, started);
        assert forall x :: x in EndIds(events[..i + 1]) ==> x in EndIds(events[..i]) || x in EndIds([events[i]]);
      }
      assert events[..|events|] == events;
    }

    /** The previews of one batch, within the shared budget. A batch whose calls were all shown to
        the recorder has no repeated id, so the budget holds for it. */
    method BatchProjections(ids: seq<Id>) returns (previews: map<Id, Preview>)
      requires Valid()
      ensures previews == Allocated(ids, rawOutputs, |ids|).1
      ensures forall id :: id in previews <==> id in ids && id in rawOutputs
      ensures !failed && multiset(ids) <= multiset(started) ==>
        && BatchShown(ids, previews, |ids|) <= Max(MAX_BATCH_BYTES, MIN_ALLOWANCE * |ids|)
        && (|ids| <= 24 ==> BatchShown(ids, previews, |ids|) <= MAX_BATCH_BYTES)
    {
      previews := BatchPreviews(ids, rawOutputs);
      PreviewsAreOfRecordedIds(ids, rawOutputs, |ids|);
      assert ids[..|ids|] == ids;
      if !failed && multiset(ids) <= multiset(started) {
        SubBagHasNoRepeat(ids, started);
        BatchIsBounded(ids, rawOutputs);
      }
    }
  }

  lemma OpenAreDistinct(journal: map<Id, JournalTool>, started: seq<Id>, tool: string)
    requires NoRepeat(started)
    ensures NoRepeat(OpenCalls(journal, started, tool))
  {
    FilterNoRepeat(OpenAs(journal, tool), started);
  }

  lemma OpenIsListed(journal: map<Id, JournalTool>, started: seq<Id>, id: Id)
    requires NoRepeat(started) && IsOpen(journal, id) && id in started
    ensures id in OpenCalls(journal, started, journal[id].name)
  {
    FilterNoRepeat(OpenAs(journal, journal[id].name), started);
  }

  lemma OpenIsListedAs(journal: map<Id, JournalTool>, started: seq<Id>, tool: string, i: nat)
    requires NoRepeat(started) && i < |OpenCalls(journal, started, tool)|
    ensures var id := OpenCalls(journal, started, tool)[i];
      IsOpen(journal, id) && journal[id].name == tool && id in started
  {
    FilterNoRepeat(OpenAs(journal, tool), started);
    assert OpenCalls(journal, started, tool)[i] in OpenCalls(journal, started, tool);
    assert OpenAs(journal, tool)(OpenCalls(journal, started, tool)[i]);
  }

  predicate Extends(before: map<Id, string>, after: map<Id, string>) {
    forall x :: x in before ==> x in after && after[x] == before[x]
  }

  /** `after` continues `before` and holds the new ids besides. */
  ghost predicate Gains(before: seq<Id>, ids: seq<Id>, after: seq<Id>) {
    before <= after && multiset(after) >= multiset(before) + multiset(ids)
  }

  lemma GainsNothing(started: seq<Id>)
    ensures Gains(started, StartIds([]), started)
  {
  }

  lemma GainsOne(before: seq<Id>, e: ToolEvent, after: seq<Id>)
    requires before <= after && (e.ToolStart? && e.id != Id.Blank ==> after == before + [e.id])
    ensures Gains(before, StartIds([e]), after)
  {
    assert StartIds([e]) == if e.ToolStart? && e.id != Id.Blank then [e.id] else [] by {
      assert [e][..0] == [] && StartIds([]) == [];
    }
    assert after == before + after[|before|..];
    assert multiset(after) == multiset(before) + multiset(after[|before|..]);
  }

  lemma GainsMore(first: seq<Id>, events: seq<ToolEvent>, i: nat, before: seq<Id>, after: seq<Id>)
    requires i < |events| && Gains(first, StartIds(events[..i]), before) && Gains(before, StartIds([events[i]]), after)
    ensures Gains(first, StartIds(events[..i + 1]), after)
  {
    assert events[..i + 1][..i] == events[..i];
    assert [events[i]][..0] == [] && StartIds([]) == [];
    assert StartIds(events[..i + 1]) == StartIds(events[..i]) + StartIds([events[i]]);
    assert multiset(StartIds(events[..i + 1])) == multiset(StartIds(events[..i])) + multiset(StartIds([events[i]]));
  }
}
