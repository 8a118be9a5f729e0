/** Boolean settings of a server block: replaced in place, or inserted at the end of the block's own keys. */
module TomlSettings {
  import opened Ids
  import opened Text
  import opened TomlEdit

  // ---- one line ----

  /** `isTOMLAssignment`. */
  predicate IsAssignment(line: string, key: string) {
    var trimmed := Trim(line);
    var at := FirstOf(trimmed, '=');
    !("#" <= trimmed) && at < |trimmed| && Trim(trimmed[..at]) == key
  }

  function Unbroken(s: string): string {
    if s != "" && s[|s| - 1] == '\n' then s[..|s| - 1] else s
  }

  function Break(line: string): string {
    if line != "" && line[|line| - 1] == '\n' then "\n" else ""
  }

  /** Everything from the first number sign on, without its line break. */
  function Comment(line: string): string {
    var at := FirstOf(line, '#');
    if at < |line| then Trim(Unbroken(line[at..])) else ""
  }

  function Plain(key: string, value: bool): string {
    key + " = " + Bool(value)
  }

  function Remark(comment: string): string {
    if comment != "" then " " + comment else ""
  }

  /** `replaceTOMLBooleanSetting`. */
  function Replaced(line: string, key: string, value: bool): string {
    Plain(key, value) + Remark(Comment(line)) + Break(line)
  }

  function Setting(key: string, value: bool): string {
    Plain(key, value) + "\n"
  }

  lemma {:induction false} TrimRightKeeps(s: string, i: nat)
    requires i < |s| && !IsSpace(s[i])
    ensures i < |TrimRight(s)| && TrimRight(s) <= s
  {
    if IsSpace(s[|s| - 1]) {
      TrimRightKeeps(s[..|s| - 1], i);
    }
  }

  /** A line that starts with something is only shortened at its end, and not past `i`. */
  lemma TrimKeeps(s: string, i: nat)
    requires s != "" && !IsSpace(s[0]) && i < |s| && !IsSpace(s[i])
    ensures i < |Trim(s)| && Trim(s) <= s
  {
    assert TrimLeft(s) == s;
    TrimRightKeeps(s, i);
  }

  lemma FirstOfIs(s: string, c: char, n: nat)
    requires n < |s| && s[n] == c && forall i :: 0 <= i < n ==> s[i] != c
    ensures FirstOf(s, c) == n
  {
  }

  lemma KeyIsBare(key: string)
    requires BareKey(key)
    ensures key != "" && forall i :: 0 <= i < |key| ==>
            !IsSpace(key[i]) && key[i] != '=' && key[i] != '#'
              && key[i] != '[' && key[i] != '\n' && key[i] != '"' && key[i] != '\''
  {
  }

  /** A line that begins with the key is an assignment of it, and no header. */
  lemma KeyLine(key: string, rest: string)
    requires BareKey(key)
    ensures IsAssignment(key + " = " + rest, key) && Body(key + " = " + rest)
  {
    var line := key + " = " + rest;
    KeyIsBare(key);
    FirstCharDecides(line);
    var at := |key| + 1;
    assert line[at] == '=' && line[|key|] == ' ' && forall i :: 0 <= i < |key| ==> line[i] == key[i];
    TrimKeeps(line, at);
    var trimmed := Trim(line);
    assert trimmed[0] == key[0];
    FirstOfIs(trimmed, '=', at);
    assert trimmed[..at] == key + [' '];
    TrimDropsSpace(key, ' ');
    TrimNothing(key);
  }

  lemma {:induction false} TrimLeftTail(s: string) returns (i: nat)
    ensures i <= |s| && TrimLeft(s) == s[i..]
  {
    if s != "" && IsSpace(s[0]) {
      var k := TrimLeftTail(s[1..]);
      i := k + 1;
      assert s[1..][k..] == s[i..];
    } else {
      i := 0;
    }
  }

  /** A comment is a stretch of its line that starts with the number sign and ends in something. */
  lemma CommentIsSlice(line: string) returns (i: nat)
    requires Comment(line) != ""
    ensures i + |Comment(line)| <= |Unbroken(line)| && line[i..i + |Comment(line)|] == Comment(line)
    ensures Comment(line)[0] == '#' && Trim(Comment(line)) == Comment(line)
  {
    hide Trim, FirstOf;
    i := FirstOf(line, '#');
    if i == |line| - 1 {
      assert line[i..] == "#";
    }
    MarkedTail(Unbroken(line[i..]));
    PrefixOfTail(line, i, Trim(Unbroken(line[i..])));
  }

  lemma PrefixOfTail(line: string, i: nat, c: string)
    requires i < |line| && c <= Unbroken(line[i..])
    ensures i + |c| <= |Unbroken(line)| && line[i..i + |c|] == c
  {
    assert forall k :: 0 <= k < |c| ==> c[k] == line[i..][k] == line[i + k];
  }

  lemma MarkedTail(tail: string)
    requires tail != "" && tail[0] == '#'
    ensures Trim(tail) <= tail && Trim(tail) != "" && Trim(tail)[0] == '#' && Trim(Trim(tail)) == Trim(tail)
  {
    assert !IsSpace('#');
    TrimKeeps(tail, 0);
    TrimTwice(tail);
  }

  lemma NoMark(key: string, value: bool)
    requires BareKey(key)
    ensures forall i :: 0 <= i < |Plain(key, value)| ==> Plain(key, value)[i] !in ['#', '\n', '"', '\'']
  {
    KeyIsBare(key);
  }

  /** Replacing keeps the comment and the line break. */
  lemma ReplacedKeeps(line: string, key: string, value: bool)
    requires BareKey(key)
    ensures Comment(Replaced(line, key, value)) == Comment(line) && Break(Replaced(line, key, value)) == Break(line)
  {
    hide Plain, BareKey, Comment, Trim;
    NoMark(key, value);
    if Comment(line) == "" {
      MarkFree(Plain(key, value), Break(line));
    } else {
      var _ := CommentIsSlice(line);
      CommentAfter(Plain(key, value), Comment(line), Break(line));
    }
  }

  lemma MarkFree(head: string, end: string)
    requires (end == "" || end == "\n")
    requires forall i :: 0 <= i < |head| ==> head[i] !in ['#', '\n', '"', '\'']
    ensures Comment(head + Remark("") + end) == "" && Break(head + Remark("") + end) == end
  {
    hide Trim;
    var r := head + Remark("") + end;
    assert r == head + end;
    assert FirstOf(r, '#') == |r|;
  }

  lemma CommentAfter(head: string, comment: string, end: string)
    requires (end == "" || end == "\n") && comment != "" && comment[0] == '#' && Trim(comment) == comment
    requires forall i :: 0 <= i < |head| ==> head[i] !in ['#', '\n', '"', '\'']
    ensures Comment(head + Remark(comment) + end) == comment && Break(head + Remark(comment) + end) == end
  {
    hide Trim, FirstOf, Unbroken, Break;
    TrimmedEnds(comment);
    var marked, r := comment + end, head + Remark(comment) + end;
    assert r == (head + [' ']) + marked;
    MarkAt(head + [' '], marked);
    UnbrokenEnd(comment, end);
    BreakEnd(head + [' '], comment, end);
  }

  lemma MarkAt(head: string, marked: string)
    requires marked != "" && marked[0] == '#' && forall i :: 0 <= i < |head| ==> head[i] != '#'
    ensures Comment(head + marked) == Trim(Unbroken(marked))
  {
    hide Trim, FirstOf, Unbroken;
    FirstOfIs(head + marked, '#', |head|);
    assert (head + marked)[|head|..] == marked;
  }

  lemma BreakEnd(head: string, comment: string, end: string)
    requires comment != "" && !IsSpace(comment[|comment| - 1]) && (end == "" || end == "\n")
    ensures Break(head + (comment + end)) == end
  {
  }

  lemma UnbrokenEnd(comment: string, end: string)
    requires comment != "" && !IsSpace(comment[|comment| - 1]) && (end == "" || end == "\n")
    ensures Unbroken(comment + end) == comment
  {
    assert comment + "" == comment && (comment + "\n")[..|comment|] == comment;
  }

  lemma TrimmedEnds(s: string)
    requires s != "" && Trim(s) == s
    ensures !IsSpace(s[|s| - 1])
  {
    TrimRightPrefix(TrimLeft(s));
  }

  /** The value a reader of the line sees: what stands between the equals sign and the comment. */
  function ReadBoolean(line: string, key: string): Option<bool> {
    var at, end := FirstOf(line, '='), FirstOf(line, '#');
    if at >= end || Trim(line[..at]) != key then None else
      var shown := Trim(line[at + 1..end]);
      if shown == "true" then Some(true) else if shown == "false" then Some(false) else None
  }

  lemma ReadsBetween(key: string, value: bool, line: string, stop: nat, pad: string)
    requires BareKey(key) && key + " = " <= line && stop <= |line| && FirstOf(line, '#') == stop > |key| + 2
    requires (pad == "" || pad == "\n" || pad == " ") && line[|key| + 2..stop] == [' '] + Bool(value) + pad
    ensures ReadBoolean(line, key) == Some(value)
  {
    hide Trim, BareKey;
    var at := |key| + 1;
    KeyIsBare(key);
    assert line[at] == '=' && line[|key|] == ' ' && forall i :: 0 <= i < |key| ==> line[i] == key[i];
    FirstOfIs(line, '=', at);
    assert line[..at] == key + [' '];
    TrimDropsSpace(key, ' ');
    TrimNothing(key);
    PaddedReads(value, pad);
  }

  /** A new line shows its value to a reader, whatever comment stands behind it. */
  lemma NewValueReads(key: string, value: bool, comment: string, end: string)
    requires BareKey(key) && (comment == "" || comment[0] == '#') && (end == "" || end == "\n")
    ensures ReadBoolean(Plain(key, value) + Remark(comment) + end, key) == Some(value)
  {
    hide Trim, FirstOf, BareKey, ReadBoolean, Bool;
    var plain := Plain(key, value);
    NoMark(key, value);
    assert plain == key + " = " + Bool(value);
    if comment == "" {
      assert plain + Remark(comment) + end == plain + end;
      PlainReads(key, value, plain, end);
    } else {
      RemarkReads(key, value, plain, comment, end);
    }
  }

  lemma PlainReads(key: string, value: bool, plain: string, end: string)
    requires BareKey(key) && (end == "" || end == "\n") && plain == key + " = " + Bool(value)
    requires forall i :: 0 <= i < |plain| ==> plain[i] != '#'
    ensures ReadBoolean(plain + end, key) == Some(value)
  {
    hide Trim, BareKey, ReadBoolean;
    var line := plain + end;
    assert FirstOf(line, '#') == |line|;
    assert line[|key| + 2..] == [' '] + Bool(value) + end;
    ReadsBetween(key, value, line, |line|, end);
  }

  lemma RemarkReads(key: string, value: bool, plain: string, comment: string, end: string)
    requires BareKey(key) && plain == key + " = " + Bool(value) && comment != "" && comment[0] == '#'
    requires forall i :: 0 <= i < |plain| ==> plain[i] != '#'
    ensures ReadBoolean(plain + Remark(comment) + end, key) == Some(value)
  {
    hide Trim, FirstOf, BareKey, ReadBoolean;
    var head := plain + [' '];
    var line := plain + Remark(comment) + end;
    assert line == head + (comment + end);
    FirstOfIs(line, '#', |head|);
    assert line[..|head|] == head && head[|key| + 2..] == [' '] + Bool(value) + " ";
    assert line[|key| + 2..|head|] == head[|key| + 2..];
    ReadsBetween(key, value, line, |head|, " ");
  }

  lemma PaddedReads(value: bool, end: string)
    requires end == "" || end == "\n" || end == " "
    ensures Trim([' '] + Bool(value) + end) == if value then "true" else "false"
  {
    var shown := [' '] + Bool(value);
    assert shown[1..] == Bool(value);
    TrimNothing(Bool(value));
    if end == "" {
      assert shown + end == shown;
    } else {
      assert shown + end == shown + [end[0]];
      TrimDropsSpace(shown, end[0]);
    }
  }

  /** The second replacement of a line wins. */
  lemma ReplaceTwice(line: string, key: string, a: bool, b: bool)
    requires BareKey(key)
    ensures Replaced(Replaced(line, key, a), key, b) == Replaced(line, key, b)
  {
    ReplacedKeeps(line, key, a);
  }

  lemma ReplaceInserted(key: string, a: bool, b: bool)
    requires BareKey(key)
    ensures Replaced(Setting(key, a), key, b) == Setting(key, b)
  {
    NoMark(key, a);
    assert FirstOf(Setting(key, a), '#') == |Setting(key, a)|;
    assert Plain(key, b) + "" + "\n" == Setting(key, b);
  }

  /** The new line has no quotes but those of the comment. */
  lemma ReplacedHasNoTriple(line: string, key: string, value: bool, t: string)
    requires BareKey(key) && IsQuotes(t) && !Contains(line, t)
    ensures !Contains(Replaced(line, key, value), t)
  {
    hide Plain, BareKey, Comment, Contains, IsQuotes;
    NoMark(key, value);
    if Comment(line) != "" {
      var at := CommentIsSlice(line);
      SliceLacks(line, at, at + |Comment(line)|, t);
    }
    TripleInside(Plain(key, value), Comment(line), Break(line), t);
  }

  lemma SliceLacks(s: string, a: nat, b: nat, t: string)
    requires a <= b <= |s| && !Contains(s, t)
    ensures !Contains(s[a..b], t)
  {
    if Contains(s[a..b], t) {
      var j: nat :| j <= b - a && OccursAt(s[a..b], t, j);
      SliceOfSlice(s, a, b, j, j + |t|);
      assert OccursAt(s, t, a + j);
    }
  }

  lemma TripleInside(head: string, comment: string, end: string, t: string)
    requires IsQuotes(t) && (end == "" || end == "\n") && (comment != "" ==> !Contains(comment, t))
    requires forall i :: 0 <= i < |head| ==> head[i] !in ['#', '\n', '"', '\'']
    ensures !Contains(head + Remark(comment) + end, t)
  {
    hide OccursAt, IsQuotes;
    var r := head + Remark(comment) + end;
    if Contains(r, t) {
      var i: nat :| i <= |r| && OccursAt(r, t, i);
      QuotesAt(r, t, i);
      assert forall k :: 0 <= k < |head| ==> r[k] == head[k];
      if comment != "" {
        ConcatAssoc(head, [' '], comment);
        InComment(head + [' '], comment, end, t, i);
      }
    }
  }

  lemma InComment(head: string, comment: string, end: string, t: string, i: nat)
    requires IsQuotes(t) && (end == "" || end == "\n") && OccursAt(head + comment + end, t, i)
    requires forall i :: 0 <= i < |head| ==> head[i] !in ['"', '\'']
    ensures Contains(comment, t)
  {
    var r := head + comment + end;
    QuotesAt(r, t, i);
    assert forall k :: 0 <= k < |head| ==> r[k] == head[k];
    assert i >= |head| && i + 3 <= |head| + |comment|;
    assert comment[i - |head|..i - |head| + 3] == r[i..i + 3];
    assert OccursAt(comment, t, i - |head|);
  }

  lemma SliceOfSlice(s: string, a: nat, b: nat, i: nat, j: nat)
    requires a <= b <= |s| && i <= j <= b - a
    ensures s[a..b][i..j] == s[a + i..a + j]
  {
    var piece := s[a..b];
    assert forall k :: i <= k < j ==> piece[k] == s[a + k];
  }

  // ---- the block ----

  /** The first header or assignment of `key` from `from` on, or `end`. */
  function Stop(lines: seq<string>, from: nat, end: nat, key: string): (k: nat)
    requires from <= end <= |lines|
    ensures from <= k <= end
    ensures forall i :: from <= i < k ==> !AnyHeader(lines[i]) && !IsAssignment(lines[i], key)
    ensures k < end ==> AnyHeader(lines[k]) || IsAssignment(lines[k], key)
    decreases end - from
  {
    if from == end || AnyHeader(lines[from]) || IsAssignment(lines[from], key) then from
      else Stop(lines, from + 1, end, key)
  }

  function StopAt(lines: seq<string>, start: nat, key: string): (k: nat)
    requires start < |lines|
    ensures start < k <= BlockAt(lines, start).end <= |lines|
  {
    Stop(lines, start + 1, BlockAt(lines, start).end, key)
  }

  /** Whether the block holds the setting, rather than getting it inserted. */
  predicate Holds(lines: seq<string>, start: nat, key: string)
    requires start < |lines|
  {
    var k := StopAt(lines, start, key);
    k < BlockAt(lines, start).end && !AnyHeader(lines[k])
  }

  function SetLines(lines: seq<string>, start: nat, key: string, value: bool): seq<string>
    requires start < |lines|
  {
    var k := StopAt(lines, start, key);
    if Holds(lines, start, key) then lines[..k] + [Replaced(lines[k], key, value)] + lines[k + 1..]
    else lines[..k] + [Setting(key, value)] + lines[k..]
  }

  function WithBoolean(source: string, servers: seq<string>, name: string, key: string,
                       value: bool): Result<string, EditError> {
    var lines, target := Lines(source), Position(servers, name);
    if HasTriple(source) then Err(MultilineStrings)
    else if target == |servers| then Err(NotConfigured)
    else if |Starts(lines)| != |servers| then Err(BlockNotLocated)
    else Ok(Concat(SetLines(lines, Starts(lines)[target], key, value)))
  }

  /** `setMCPServerBooleanSource`: one scan looks for the setting, a second one for the place to insert it. */
  method SetBoolean(source: string, servers: seq<string>, name: string, key: string, value: bool)
    returns (r: Result<string, EditError>)
    ensures r == WithBoolean(source, servers, name, key, value)
  {
    hide AnyHeader, IsAssignment, Starts, Lines, HasTriple, IsServerHeader, EndsBlock, Replaced, Setting, Concat;
    if HasTriple(source) {
      return Err(MultilineStrings);
    }
    var target := FindServer(servers, name);
    if target == |servers| {
      return Err(NotConfigured);
    }
    var lines := Lines(source);
    var blocks := ServerBlocks(lines);
    if |blocks| != |servers| {
      return Err(BlockNotLocated);
    }
    var block := blocks[target];
    var found, at := FindSetting(lines, block, key);
    if found {
      lines := lines[..at] + [Replaced(lines[at], key, value)] + lines[at + 1..];
    } else {
      lines := lines[..at] + [Setting(key, value)] + lines[at..];
    }
    r := Ok(Concat(lines));
  }

  method FindSetting(lines: seq<string>, block: Block, key: string) returns (found: bool, at: nat)
    requires block.start < |lines| && block == BlockAt(lines, block.start)
    ensures found == Holds(lines, block.start, key) && at == StopAt(lines, block.start, key)
  {
    hide AnyHeader, IsAssignment, EndsBlock;
    for i := block.start + 1 to block.end
      invariant forall j :: block.start < j < i ==> !AnyHeader(lines[j]) && !IsAssignment(lines[j], key)
    {
      if AnyHeader(lines[i]) {
        break;
      }
      if IsAssignment(lines[i], key) {
        return true, i;
      }
    }
    at := block.end;
    for i := block.start + 1 to block.end
      invariant forall j :: block.start < j < i ==> !AnyHeader(lines[j])
      invariant at == block.end
    {
      if AnyHeader(lines[i]) {
        at := i;
        break;
      }
    }
    found := false;
  }

  // ---- setting twice ----

  /** Complete lines and a rest without a break, as splitting gives them. */
  ghost predicate SplitForm(lines: seq<string>) {
    lines != [] && AreLines(lines[..|lines| - 1]) && NoBreak(lines[|lines| - 1])
  }

  lemma SplitFormIsLines(lines: seq<string>)
    requires SplitForm(lines)
    ensures Lines(Concat(lines)) == lines
  {
    hide AreLines;
    var init, last := lines[..|lines| - 1], lines[|lines| - 1];
    InitLast(lines);
    LinesAfter(init, last);
    assert FirstBreak(last) == |last|;
  }

  lemma LinesSplit(s: string)
    ensures SplitForm(Lines(s)) && Concat(Lines(s)) == s
  {
    hide Lines, AreLines;
    var lines, rest := SplitText(s);
    SnocInit(lines, rest);
    ConcatSnoc(lines, rest);
  }

  /** The setting would be appended to a last line that has no line break. */
  predicate Open(lines: seq<string>, start: nat, key: string)
    requires start < |lines|
  {
    StopAt(lines, start, key) == |lines| && lines[|lines| - 1] != ""
  }

  function Place(lines: seq<string>, start: nat, key: string): (k: nat)
    requires start < |lines|
    ensures k < |lines| || (k == |lines| && Open(lines, start, key))
  {
    var k := StopAt(lines, start, key);
    if k == |lines| && lines[k - 1] == "" then k - 1 else k
  }

  function NewLine(lines: seq<string>, start: nat, key: string, value: bool): string
    requires start < |lines|
  {
    if Holds(lines, start, key) then Replaced(lines[Place(lines, start, key)], key, value) else Setting(key, value)
  }

  function After(lines: seq<string>, start: nat, key: string): seq<string>
    requires start < |lines|
  {
    if Holds(lines, start, key) then lines[Place(lines, start, key) + 1..] else lines[Place(lines, start, key)..]
  }

  /** The lines of the updated text. */
  function Updated(lines: seq<string>, start: nat, key: string, value: bool): seq<string>
    requires start < |lines|
  {
    lines[..Place(lines, start, key)] + [NewLine(lines, start, key, value)] + After(lines, start, key)
  }

  lemma NewLineIsKey(lines: seq<string>, start: nat, key: string, value: bool)
    requires BareKey(key) && start < |lines|
    ensures IsAssignment(NewLine(lines, start, key, value), key) && Body(NewLine(lines, start, key, value))
  {
    hide IsAssignment, Body, Comment, BareKey, AnyHeader;
    var k := Place(lines, start, key);
    if Holds(lines, start, key) {
      var tail := Remark(Comment(lines[k])) + Break(lines[k]);
      ConcatAssoc(Plain(key, value), Remark(Comment(lines[k])), Break(lines[k]));
      ConcatAssoc(key + " = ", Bool(value), tail);
      KeyLine(key, Bool(value) + tail);
    } else {
      ConcatAssoc(key + " = ", Bool(value), "\n");
      KeyLine(key, Bool(value) + "\n");
    }
  }

  /** A complete line stays one, and an open one stays open. */
  lemma ReplacedShape(line: string, key: string, value: bool)
    requires BareKey(key) && (IsLine(line) || NoBreak(line))
    ensures IsLine(line) ==> IsLine(Replaced(line, key, value))
    ensures NoBreak(line) ==> NoBreak(Replaced(line, key, value))
  {
    hide BareKey, Comment, Plain, Trim;
    NoMark(key, value);
    if Comment(line) != "" {
      var at := CommentIsSlice(line);
      var c := Comment(line);
      forall i | 0 <= i < |c| ensures c[i] != '\n' {
        assert line[at..at + |c|][i] == line[at + i];
      }
    }
    var head := Plain(key, value) + Remark(Comment(line));
    assert NoBreak(head);
    assert Replaced(line, key, value) == head + Break(line);
  }

  lemma {:induction false} StartsConcat(a: seq<string>, b: seq<string>)
    ensures |Starts(a + b)| == |Starts(a)| + |Starts(b)| && Starts(a) <= Starts(a + b)
    ensures forall j :: |Starts(a)| <= j < |Starts(a + b)| ==> Starts(a + b)[j] >= |a|
    decreases |b|
  {
    hide IsServerHeader, Starts;
    if b == [] {
      assert a + b == a;
      NoStarts([]);
    } else {
      var init, last := b[..|b| - 1], b[|b| - 1];
      InitLast(b);
      StartsConcat(a, init);
      ConcatAssoc(a, init, [last]);
      StartsSnoc(a + init, last);
      StartsSnoc(init, last);
    }
  }

  lemma {:induction false} NoStarts(lines: seq<string>)
    requires forall i :: 0 <= i < |lines| ==> !IsServerHeader(lines[i])
    ensures Starts(lines) == []
  {
    if lines != [] {
      NoStarts(lines[..|lines| - 1]);
    }
  }

  /** Exchanging lines that start no server keeps the blocks before them. */
  lemma StartsKept(a: seq<string>, x: seq<string>, y: seq<string>, c: seq<string>, t: nat)
    requires Starts(x) == Starts(y) == [] && t < |Starts(a + x + c)| && Starts(a + x + c)[t] < |a|
    ensures |Starts(a + y + c)| == |Starts(a + x + c)| && Starts(a + y + c)[t] == Starts(a + x + c)[t]
  {
    hide Starts;
    StartsConcat(a, x);
    StartsConcat(a, y);
    StartsConcat(a + x, c);
    StartsConcat(a + y, c);
  }

  /** The first assignment that no header precedes is the one that is found. */
  lemma FoundAt(lines: seq<string>, start: nat, key: string, k: nat)
    requires start < k < |lines| && IsAssignment(lines[k], key) && !AnyHeader(lines[k])
    requires forall i :: start < i < k ==> !AnyHeader(lines[i]) && !IsAssignment(lines[i], key)
    ensures StopAt(lines, start, key) == k && Holds(lines, start, key)
  {
    hide AnyHeader, IsAssignment, IsOwnedHeader;
  }

  lemma PlaceIsPast(lines: seq<string>, start: nat, key: string)
    requires start < |lines| && IsServerHeader(lines[start])
    ensures Place(lines, start, key) > start
    ensures forall i :: start < i < Place(lines, start, key) ==> !AnyHeader(lines[i]) && !IsAssignment(lines[i], key)
  {
    hide AnyHeader, IsAssignment;
    EmptyLineIsBody();
  }

  /** The updated lines are what splitting the updated text gives. */
  lemma UpdatedText(lines: seq<string>, start: nat, key: string, value: bool)
    requires BareKey(key) && SplitForm(lines) && start < |lines| && !Open(lines, start, key)
    ensures SplitForm(Updated(lines, start, key, value))
    ensures Concat(SetLines(lines, start, key, value)) == Concat(Updated(lines, start, key, value))
  {
    hide AnyHeader, IsAssignment, Concat, BareKey, Replaced, Setting, BlockAt, SplitForm, NoBreak, IsLine;
    var k, n := Place(lines, start, key), |lines|;
    if Holds(lines, start, key) {
      SplitFormAt(lines, k);
      ReplacedShape(lines[k], key, value);
      ReplacedSplits(lines, k, Replaced(lines[k], key, value));
    } else {
      SettingIsLine(key, value);
      InsertedSplits(lines, k, Setting(key, value));
      if StopAt(lines, start, key) == n {
        AppendedText(lines, Setting(key, value));
      }
    }
  }

  lemma SplitFormAt(lines: seq<string>, k: nat)
    requires SplitForm(lines) && k < |lines|
    ensures if k < |lines| - 1 then IsLine(lines[k]) else NoBreak(lines[k])
  {
    hide IsLine, NoBreak;
    assert k < |lines| - 1 ==> lines[..|lines| - 1][k] == lines[k];
  }

  lemma ReplacedSplits(lines: seq<string>, k: nat, line: string)
    requires SplitForm(lines) && k < |lines| && (if k < |lines| - 1 then IsLine(line) else NoBreak(line))
    ensures SplitForm(lines[..k] + [line] + lines[k + 1..])
  {
    hide IsLine, NoBreak;
    var r, init := lines[..k] + [line] + lines[k + 1..], lines[..|lines| - 1];
    forall i | 0 <= i < |r| - 1 ensures IsLine(r[i]) {
      if i != k {
        assert r[i] == init[i];
      }
    }
  }

  lemma SettingIsLine(key: string, value: bool)
    requires BareKey(key)
    ensures IsLine(Setting(key, value))
  {
    hide BareKey, Plain;
    NoMark(key, value);
  }

  lemma InsertedSplits(lines: seq<string>, k: nat, line: string)
    requires SplitForm(lines) && k < |lines| && IsLine(line)
    ensures SplitForm(lines[..k] + [line] + lines[k..])
  {
    hide IsLine, NoBreak;
    var r, init := lines[..k] + [line] + lines[k..], lines[..|lines| - 1];
    forall i | 0 <= i < |r| - 1 ensures IsLine(r[i]) {
      if i < k {
        assert r[i] == init[i];
      } else if i > k {
        assert r[i] == init[i - 1];
      }
    }
  }

  /** Before or after an empty last line makes no difference to the text. */
  lemma AppendedText(lines: seq<string>, line: string)
    requires lines != [] && lines[|lines| - 1] == ""
    ensures var n := |lines|;
      Concat(lines[..n] + [line] + lines[n..]) == Concat(lines[..n - 1] + [line] + lines[n - 1..])
  {
    hide Concat;
    var n, init := |lines|, lines[..|lines| - 1];
    InitLast(lines);
    ConcatSnoc(init, "");
    ConcatSnoc(init, line);
    ConcatSnoc(init + [line], "");
    ConcatSnoc(lines, line);
    assert lines[..n] + [line] + lines[n..] == lines + [line];
    assert lines[n - 1..] == [""];
    assert Concat(init) + "" == Concat(init) && Concat(init) + line + "" == Concat(init) + line;
  }

  lemma SetLinesHolds(lines: seq<string>, start: nat, key: string, value: bool)
    requires start < |lines| && Holds(lines, start, key)
    ensures var k := StopAt(lines, start, key);
      SetLines(lines, start, key, value) == lines[..k] + [Replaced(lines[k], key, value)] + lines[k + 1..]
  {
  }

  /** A set value takes effect: the first assignment a reader of the block meets is the new line. */
  lemma SettingIsFound(lines: seq<string>, start: nat, key: string, value: bool)
    requires BareKey(key) && start < |lines| && IsServerHeader(lines[start]) && !Open(lines, start, key)
    ensures var updated, k := Updated(lines, start, key, value), Place(lines, start, key);
      && start < k < |updated| && Holds(updated, start, key) && StopAt(updated, start, key) == k
      && updated[k] == NewLine(lines, start, key, value) && Plain(key, value) <= updated[k]
      && updated[..k] == lines[..k] && updated[k + 1..] == After(lines, start, key)
  {
    hide AnyHeader, IsAssignment, BareKey, EndsBlock, Holds, IsServerHeader, StopAt;
    var k, updated := Place(lines, start, key), Updated(lines, start, key, value);
    PlaceIsPast(lines, start, key);
    NewLineIsKey(lines, start, key, value);
    NewLineShows(lines, start, key, value);
    var head, line, tail := lines[..k], NewLine(lines, start, key, value), After(lines, start, key);
    hide NewLine, After;
    assert updated == head + [line] + tail && updated[k] == line;
    assert forall i :: 0 <= i < k ==> updated[i] == lines[i];
    FoundAt(updated, start, key, k);
    assert updated[..k] == head && updated[k + 1..] == tail;
  }

  lemma NewLineShows(lines: seq<string>, start: nat, key: string, value: bool)
    requires start < |lines|
    ensures Plain(key, value) <= NewLine(lines, start, key, value)
  {
    hide Plain, Comment, StopAt, AnyHeader;
  }

  /** Setting again finds the line that was set, and replaces only that line. */
  lemma SecondSet(lines: seq<string>, start: nat, key: string, a: bool, b: bool)
    requires BareKey(key) && start < |lines| && IsServerHeader(lines[start]) && !Open(lines, start, key)
    ensures SetLines(Updated(lines, start, key, a), start, key, b) == Updated(lines, start, key, b)
  {
    hide AnyHeader, IsAssignment, BareKey, Replaced, Setting, EndsBlock, Holds, IsServerHeader, SetLines, StopAt,
      NewLine, After;
    SettingIsFound(lines, start, key, a);
    SetLinesHolds(Updated(lines, start, key, a), start, key, b);
    NewLineAgain(lines, start, key, a, b);
  }

  lemma NewLineAgain(lines: seq<string>, start: nat, key: string, a: bool, b: bool)
    requires BareKey(key) && start < |lines|
    ensures Replaced(NewLine(lines, start, key, a), key, b) == NewLine(lines, start, key, b)
  {
    hide AnyHeader, IsAssignment, BareKey, Replaced, Setting, StopAt;
    ReplaceInserted(key, a, b);
    if Holds(lines, start, key) {
      ReplaceTwice(lines[Place(lines, start, key)], key, a, b);
    }
  }

  /** The blocks are found again after the update. */
  lemma UpdatedStarts(lines: seq<string>, t: nat, key: string, value: bool)
    requires BareKey(key) && t < |Starts(lines)| && IsServerHeader(lines[Starts(lines)[t]])
    requires !Open(lines, Starts(lines)[t], key)
    ensures var updated := Updated(lines, Starts(lines)[t], key, value);
      |Starts(updated)| == |Starts(lines)| && Starts(updated)[t] == Starts(lines)[t]
  {
    hide IsAssignment, BareKey, Replaced, Setting, EndsBlock, StopAt, Starts, AnyHeader, TableHeader;
    var start := Starts(lines)[t];
    var k := Place(lines, start, key);
    PlaceIsPast(lines, start, key);
    NewLineIsKey(lines, start, key, value);
    var was := if Holds(lines, start, key) then [lines[k]] else [];
    if Holds(lines, start, key) {
      OtherIsNoServer(lines[k]);
    }
    NoStarts(was);
    NoStarts([NewLine(lines, start, key, value)]);
    assert lines == lines[..k] + was + After(lines, start, key);
    StartsKept(lines[..k], was, [NewLine(lines, start, key, value)], After(lines, start, key), t);
  }

  lemma UpdatedLacks(lines: seq<string>, start: nat, key: string, value: bool, t: string)
    requires BareKey(key) && IsQuotes(t) && SplitForm(lines) && start < |lines| && !Open(lines, start, key)
    requires !Contains(Concat(lines), t)
    ensures !Contains(Concat(Updated(lines, start, key, value)), t)
  {
    hide *;
    UpdatedText(lines, start, key, value);
    SplitFormIsSplit(lines);
    SplitFormIsSplit(Updated(lines, start, key, value));
    ConcatLacks(lines, t);
    NewLineLacks(lines, start, key, value, t);
    PartsLack(lines, start, key, value, t);
    ConcatLacks(Updated(lines, start, key, value), t);
  }

  lemma SplitFormIsSplit(lines: seq<string>)
    requires SplitForm(lines)
    ensures lines != [] && AreLines(lines[..|lines| - 1])
  {
    hide AreLines, NoBreak;
  }

  lemma PartsLack(lines: seq<string>, start: nat, key: string, value: bool, t: string)
    requires start < |lines| && NoneContains(lines, t) && !Contains(NewLine(lines, start, key, value), t)
    ensures NoneContains(Updated(lines, start, key, value), t)
  {
    hide Contains, NewLine, StopAt, AnyHeader;
    var k, updated := Place(lines, start, key), Updated(lines, start, key, value);
    forall i | 0 <= i < |updated| ensures !Contains(updated[i], t) {
      if i < k {
        assert updated[i] == lines[i];
      } else if i > k {
        assert updated[i] == After(lines, start, key)[i - k - 1];
      }
    }
  }

  lemma NewLineLacks(lines: seq<string>, start: nat, key: string, value: bool, t: string)
    requires BareKey(key) && IsQuotes(t) && start < |lines| && NoneContains(lines, t)
    ensures !Contains(NewLine(lines, start, key, value), t)
  {
    hide Contains, BareKey, AnyHeader, Comment, Plain, IsQuotes;
    if Holds(lines, start, key) {
      ReplacedHasNoTriple(lines[Place(lines, start, key)], key, value, t);
    } else {
      NoMark(key, value);
      TripleInside(Plain(key, value), "", "\n", t);
      assert Plain(key, value) + "" + "\n" == Setting(key, value);
    }
  }

  lemma StartIsHeader(lines: seq<string>, t: nat)
    requires t < |Starts(lines)|
    ensures IsServerHeader(lines[Starts(lines)[t]])
  {
    hide IsServerHeader;
    if t < |Starts(lines[..|lines| - 1])| {
      StartIsHeader(lines[..|lines| - 1], t);
    }
  }

  /** The setting would be glued to a last line that has no line break. */
  predicate Glues(source: string, servers: seq<string>, name: string, key: string) {
    var lines, target := Lines(source), Position(servers, name);
    target < |Starts(lines)| && Open(lines, Starts(lines)[target], key)
  }

  /** When nothing is glued, the last of two settings wins. */
  lemma LastSettingWins(source: string, servers: seq<string>, name: string, key: string, a: bool, b: bool)
    requires BareKey(key) && !Glues(source, servers, name, key) && WithBoolean(source, servers, name, key, a).Ok?
    ensures WithBoolean(WithBoolean(source, servers, name, key, a).value, servers, name, key, b)
         == WithBoolean(source, servers, name, key, b)
  {
    hide Lines, Starts, Contains, SetLines, Concat, BareKey, Open, Updated, IsServerHeader;
    var lines, target := Lines(source), Position(servers, name);
    LinesSplit(source);
    StartIsHeader(lines, target);
    var start := Starts(lines)[target];
    UpdatedText(lines, start, key, a);
    UpdatedText(lines, start, key, b);
    var updated := Updated(lines, start, key, a);
    SplitFormIsLines(updated);
    UpdatedStarts(lines, target, key, a);
    UpdatedLacks(lines, start, key, a, DOUBLE_TRIPLE);
    UpdatedLacks(lines, start, key, a, SINGLE_TRIPLE);
    SecondSet(lines, start, key, a, b);
  }

  /** The returned text, split into lines again: the target block is where it was, the first
      assignment of the setting a reader meets in it shows the value, and all other lines are as
      they were. */
  lemma SettingTakesEffect(source: string, servers: seq<string>, name: string, key: string, value: bool)
    requires BareKey(key) && !Glues(source, servers, name, key) && WithBoolean(source, servers, name, key, value).Ok?
    ensures var before, after := Lines(source), Lines(WithBoolean(source, servers, name, key, value).value);
      var target := Position(servers, name);
      && target < |Starts(before)| == |Starts(after)| && Starts(after)[target] == Starts(before)[target] < |after|
      && var start := Starts(before)[target];
         var k := Place(before, start, key);
         && Holds(after, start, key) && StopAt(after, start, key) == k < |after|
         && Plain(key, value) <= after[k] && ReadBoolean(after[k], key) == Some(value)
         && (Holds(before, start, key) ==> Comment(after[k]) == Comment(before[k]))
         && after[..k] == before[..k] && after[k + 1..] == After(before, start, key)
  {
    hide Lines, Starts, SetLines, Concat, BareKey, Open, IsServerHeader, SplitForm, Holds, StopAt, Plain, Updated,
      Place, After;
    var lines, target := Lines(source), Position(servers, name);
    LinesSplit(source);
    StartIsHeader(lines, target);
    var start := Starts(lines)[target];
    UpdatedText(lines, start, key, value);
    SplitFormIsLines(Updated(lines, start, key, value));
    UpdatedStarts(lines, target, key, value);
    SettingIsFound(lines, start, key, value);
    NewLineReads(lines, start, key, value);
  }

  lemma NewLineReads(lines: seq<string>, start: nat, key: string, value: bool)
    requires BareKey(key) && start < |lines|
    ensures ReadBoolean(NewLine(lines, start, key, value), key) == Some(value)
    ensures var k := Place(lines, start, key);
      Holds(lines, start, key) ==> k < |lines| && Comment(NewLine(lines, start, key, value)) == Comment(lines[k])
  {
    hide BareKey, StopAt, AnyHeader, ReadBoolean, Comment, Plain;
    if Holds(lines, start, key) {
      var line := lines[Place(lines, start, key)];
      ReplacedKeeps(line, key, value);
      if Comment(line) != "" {
        var _ := CommentIsSlice(line);
      }
      NewValueReads(key, value, Comment(line), Break(line));
    } else {
      NewValueReads(key, value, "", "\n");
      assert Plain(key, value) + Remark("") + "\n" == Setting(key, value);
    }
  }

  lemma EndedTextIsNotGlued(source: string, servers: seq<string>, name: string, key: string)
    requires source == "" || source[|source| - 1] == '\n'
    ensures !Glues(source, servers, name, key)
  {
    hide Lines, StopAt, Starts;
    var lines, rest := SplitText(source);
  }

  // ---- a last line without a line break ----

  /** A line that starts with something is only shortened at its end. */
  lemma TrimIsPrefix(s: string)
    requires s != "" && !IsSpace(s[0])
    ensures Trim(s) <= s && Trim(s) != "" && Trim(s)[0] == s[0]
  {
    TrimKeeps(s, 0);
  }

  /** If the glued line is an assignment and the open line was not, the first equals sign is the setting's own. */
  lemma GluedKey(rest: string, key: string, value: bool)
    requires BareKey(key) && rest != "" && !IsSpace(rest[0]) && !IsAssignment(rest, key)
    ensures !IsAssignment(rest + Setting(key, value), key)
  {
    hide Trim, BareKey;
    var line := rest + Setting(key, value);
    TrimIsPrefix(line);
    TrimIsPrefix(rest);
    var at := FirstOf(Trim(line), '=');
    if IsAssignment(line, key) {
      assert line[at] == '=';
      assert forall i :: 0 <= i < at ==> Trim(line)[i] == line[i];
      if at < |rest| {
        OpenEquals(rest, line, at);
      } else {
        SettingEquals(rest, key, value, at);
      }
    }
  }

  lemma OpenEquals(rest: string, line: string, at: nat)
    requires rest != "" && !IsSpace(rest[0]) && rest <= line && at < |rest| && rest[at] == '='
    requires forall i :: 0 <= i < at ==> line[i] != '='
    requires at < |Trim(line)| && Trim(line) <= line
    ensures FirstOf(Trim(rest), '=') == at < |Trim(rest)| && Trim(rest)[..at] == Trim(line)[..at]
  {
    TrimKeeps(rest, at);
    hide Trim;
    FirstOfIs(Trim(rest), '=', at);
    assert Trim(rest)[..at] == rest[..at] == line[..at] == Trim(line)[..at];
  }

  lemma SettingEquals(rest: string, key: string, value: bool, at: nat)
    requires BareKey(key) && rest != "" && !IsSpace(rest[0])
    requires |rest| <= at < |Trim(rest + Setting(key, value))|
             && Trim(rest + Setting(key, value)) <= rest + Setting(key, value)
    requires (rest + Setting(key, value))[at] == '='
    requires forall i :: 0 <= i < at ==> (rest + Setting(key, value))[i] != '='
    ensures Trim(Trim(rest + Setting(key, value))[..at]) != key
  {
    hide Trim, BareKey;
    KeyIsBare(key);
    var line := rest + Setting(key, value);
    assert line[|rest| + |key| + 1] == '=';
    assert forall i :: |rest| <= i < |rest| + |key| + 1 ==> line[i] == Setting(key, value)[i - |rest|];
    assert at == |rest| + |key| + 1;
    assert Trim(line)[..at] == line[..at] == (rest + key) + [' '];
    TrimDropsSpace(rest + key, ' ');
    assert (rest + key)[|rest| + |key| - 1] == key[|key| - 1];
    TrimNothing(rest + key);
  }

  /** The glued line is never turned into what one setting would have left. */
  lemma GluedLine(rest: string, key: string, a: bool, b: bool)
    requires BareKey(key) && rest != "" && !IsAssignment(rest, key) && IsAssignment(rest + Setting(key, a), key)
    ensures Replaced(rest + Setting(key, a), key, b) != rest + Setting(key, b)
  {
    hide Trim, IsAssignment, Comment;
    if !IsSpace(rest[0]) {
      GluedKey(rest, key, a);
    } else {
      var r := Replaced(rest + Setting(key, a), key, b);
      assert r[0] == key[0];
    }
  }

  lemma InsertLength(lines: seq<string>, k: nat, line: string)
    requires k <= |lines|
    ensures |Concat(lines[..k] + [line] + lines[k..])| == |Concat(lines)| + |line|
  {
    hide Concat;
    TakeDrop(lines, k);
    ConcatAppend(lines[..k], lines[k..]);
    ConcatAppend(lines[..k] + [line], lines[k..]);
    ConcatSnoc(lines[..k], line);
  }

  /** The lines after gluing: the setting became part of the open line. */
  function Glued(lines: seq<string>, key: string, value: bool): (glued: seq<string>)
    requires lines != []
    ensures |glued| == |lines| + 1
  {
    lines[..|lines| - 1] + [lines[|lines| - 1] + Setting(key, value)] + [""]
  }

  lemma GluedText(lines: seq<string>, start: nat, key: string, value: bool)
    requires BareKey(key) && SplitForm(lines) && start < |lines| && Open(lines, start, key)
    ensures Concat(SetLines(lines, start, key, value)) == Concat(lines) + Setting(key, value)
    ensures Concat(lines) + Setting(key, value) == Concat(Glued(lines, key, value))
            && SplitForm(Glued(lines, key, value))
  {
    hide Concat, BareKey, AnyHeader, IsAssignment, Setting, Replaced, SplitForm;
    assert SetLines(lines, start, key, value) == lines + [Setting(key, value)];
    ConcatSnoc(lines, Setting(key, value));
    GluedConcats(lines, Setting(key, value));
    SettingIsLine(key, value);
    GluedSplits(lines, Setting(key, value));
  }

  lemma GluedConcats(lines: seq<string>, s: string)
    requires lines != []
    ensures var n := |lines| - 1;
      Concat(lines) + s == Concat(lines[..n] + [lines[n] + s] + [""])
  {
    hide Concat;
    var init, rest := lines[..|lines| - 1], lines[|lines| - 1];
    InitLast(lines);
    ConcatSnoc(init, rest);
    ConcatAssoc(Concat(init), rest, s);
    ConcatSnoc(init, rest + s);
    ConcatSnoc(init + [rest + s], "");
    assert Concat(init + [rest + s]) + "" == Concat(init + [rest + s]);
  }

  lemma GluedSplits(lines: seq<string>, s: string)
    requires SplitForm(lines) && IsLine(s)
    ensures var n := |lines| - 1;
      SplitForm(lines[..n] + [lines[n] + s] + [""])
  {
    var n := |lines| - 1;
    var glued := lines[..n] + [lines[n] + s];
    assert IsLine(lines[n] + s);
    hide IsLine, NoBreak;
    SnocInit(glued, "");
    assert NoBreak("") by { EmptyHasNoBreak(); }
  }

  lemma EmptyHasNoBreak()
    ensures NoBreak("")
  {
  }

  lemma GluedStarts(lines: seq<string>, key: string, value: bool)
    requires lines != [] && |Starts(Glued(lines, key, value))| == |Starts(lines)|
    ensures Starts(Glued(lines, key, value)) == Starts(lines)
  {
    hide Starts, IsServerHeader, Setting;
    var init, rest := lines[..|lines| - 1], lines[|lines| - 1];
    InitLast(lines);
    StartsSnoc(init, rest);
    StartsSnoc(init, rest + Setting(key, value));
    EmptyIsNoServer();
    StartsSnoc(init + [rest + Setting(key, value)], "");
  }

  lemma EmptyIsNoServer()
    ensures !IsServerHeader("") && forall key: string :: !IsAssignment("", key)
  {
    EmptyLineIsBody();
  }

  lemma GluedHolds(lines: seq<string>, start: nat, key: string, value: bool)
    requires start < |lines| && Open(lines, start, key) && Holds(Glued(lines, key, value), start, key)
    ensures StopAt(Glued(lines, key, value), start, key) == |lines| - 1
    ensures IsAssignment(Glued(lines, key, value)[|lines| - 1], key) && !IsAssignment(lines[|lines| - 1], key)
  {
    hide AnyHeader, IsAssignment, Setting, BlockAt;
    EmptyIsNoServer();
    var glued, n := Glued(lines, key, value), |lines| - 1;
    assert glued[n + 1] == "" && forall i :: start < i < n ==> glued[i] == lines[i];
  }

  /** The second update of a glued text is never the text one update would have left. */
  lemma GluedLinesDiffer(lines: seq<string>, start: nat, key: string, a: bool, b: bool)
    requires BareKey(key) && SplitForm(lines) && start < |lines| && Open(lines, start, key)
    ensures Concat(SetLines(Glued(lines, key, a), start, key, b)) != Concat(lines) + Setting(key, b)
  {
    hide Concat, BareKey, Setting, SplitForm, Open, Holds, SetLines, Glued;
    GluedText(lines, start, key, a);
    var glued := Glued(lines, key, a);
    if Holds(glued, start, key) {
      GluedWhenHeld(lines, start, key, a, b);
    } else {
      NotHeldLength(glued, start, key, b);
      SettingIsNotEmpty(key, a);
    }
  }

  lemma GluedWhenHeld(lines: seq<string>, start: nat, key: string, a: bool, b: bool)
    requires BareKey(key) && start < |lines| && Open(lines, start, key) && Holds(Glued(lines, key, a), start, key)
    ensures Concat(SetLines(Glued(lines, key, a), start, key, b)) != Concat(lines) + Setting(key, b)
  {
    hide *;
    GluedHolds(lines, start, key, a);
    var glued, n := Glued(lines, key, a), |lines| - 1;
    assert Concat(SetLines(glued, start, key, b)) ==
      Concat(glued[..n] + [Replaced(glued[n], key, b)] + glued[n + 1..]) by {
      SetLinesHolds(glued, start, key, b);
    }
    assert Concat(glued[..n] + [Replaced(glued[n], key, b)] + glued[n + 1..]) != Concat(lines) + Setting(key, b) by {
      OpenIsNotEmpty(lines, start, key);
      GluedParts(lines, key, a);
      GluedLine(lines[n], key, a, b);
      GluedConcat(lines, glued, Replaced(glued[n], key, b), Setting(key, b));
    }
  }

  lemma GluedParts(lines: seq<string>, key: string, value: bool)
    requires lines != []
    ensures var glued, n := Glued(lines, key, value), |lines| - 1;
      glued[..n] == lines[..n] && glued[|lines|..] == [""] && glued[n] == lines[n] + Setting(key, value)
  {
    hide Setting;
  }

  lemma OpenIsNotEmpty(lines: seq<string>, start: nat, key: string)
    requires start < |lines| && Open(lines, start, key)
    ensures lines[|lines| - 1] != ""
  {
  }

  lemma NotHeldLength(lines: seq<string>, start: nat, key: string, value: bool)
    requires start < |lines| && !Holds(lines, start, key)
    ensures |Concat(SetLines(lines, start, key, value))| == |Concat(lines)| + |Setting(key, value)|
  {
    hide Concat, Setting, StopAt;
    InsertLength(lines, StopAt(lines, start, key), Setting(key, value));
  }

  lemma SettingIsNotEmpty(key: string, value: bool)
    ensures Setting(key, value) != ""
  {
  }

  lemma GluedConcat(lines: seq<string>, glued: seq<string>, line: string, setting: string)
    requires lines != [] && |glued| == |lines| + 1 && line != lines[|lines| - 1] + setting
    requires glued[..|lines| - 1] == lines[..|lines| - 1] && glued[|lines|..] == [""]
    ensures Concat(glued[..|lines| - 1] + [line] + glued[|lines|..]) != Concat(lines) + setting
  {
    hide Concat;
    var init, rest := lines[..|lines| - 1], lines[|lines| - 1];
    InitLast(lines);
    ConcatSnoc(init, rest);
    ConcatSnoc(init, line);
    ConcatSnoc(init + [line], "");
    ConcatAssoc(Concat(init), rest, setting);
    var text, other := Concat(init) + line, Concat(init) + (rest + setting);
    assert Concat(init + [line]) + "" == text;
    assert text[|Concat(init)|..] == line && other[|Concat(init)|..] == rest + setting;
  }

  /** Setting twice is setting once to the last value exactly when nothing is glued. */
  lemma SetTwice(source: string, servers: seq<string>, name: string, key: string, a: bool, b: bool)
    requires BareKey(key) && WithBoolean(source, servers, name, key, a).Ok?
    ensures (WithBoolean(WithBoolean(source, servers, name, key, a).value, servers, name, key, b)
             == WithBoolean(source, servers, name, key, b)) <==> !Glues(source, servers, name, key)
  {
    hide Lines, Starts, HasTriple, SetLines, Concat, BareKey, Open, IsServerHeader;
    if Glues(source, servers, name, key) {
      var lines, target := Lines(source), Position(servers, name);
      LinesSplit(source);
      var start := Starts(lines)[target];
      GluedText(lines, start, key, a);
      GluedText(lines, start, key, b);
      SplitFormIsLines(Glued(lines, key, a));
      if |Starts(Glued(lines, key, a))| == |servers| {
        GluedStarts(lines, key, a);
        GluedLinesDiffer(lines, start, key, a, b);
      }
    } else {
      LastSettingWins(source, servers, name, key, a, b);
    }
  }

  /** A comment swallows what is glued to it: the setting is in the text, and no reader finds it. */
  lemma CommentSwallows(lines: seq<string>, start: nat, key: string, value: bool)
    requires start < |lines| && Open(lines, start, key) && lines[|lines| - 1][0] == '#'
    ensures !Holds(Glued(lines, key, value), start, key)
  {
    hide StopAt, Setting, AnyHeader, Trim;
    var rest := lines[|lines| - 1];
    var line := rest + Setting(key, value);
    TrimIsPrefix(line);
    assert line[0] == '#' && !IsSpace('#');
    assert !IsAssignment(line, key);
    if Holds(Glued(lines, key, value), start, key) {
      GluedHolds(lines, start, key, value);
    }
  }

  lemma QuoteFree(s: string)
    requires forall i :: 0 <= i < |s| ==> s[i] != '"' && s[i] != '\''
    ensures !HasTriple(s)
  {
    if t: string :| IsQuotes(t) && Contains(s, t) {
      var i: nat :| i <= |s| && OccursAt(s, t, i);
      QuotesAt(s, t, i);
    }
  }

  lemma NoteStarts()
    ensures Starts([SERVER_HEADER, "# note"]) == [0]
  {
    hide IsServerHeader, Starts, Trim;
    ServerHeaderIsOne();
    NoteIsBody();
    var lines := [SERVER_HEADER, "# note"];
    StartsAppend([], lines);
    NoStarts([]);
    assert [] + lines == lines;
  }

  lemma NoteIsBody()
    ensures !IsServerHeader("# note")
  {
    hide Trim, TableHeader;
    FirstCharDecides("# note");
    OtherIsNoServer("# note");
  }

  lemma NoteLines()
    ensures Lines(SERVER_HEADER + "# note") == [SERVER_HEADER, "# note"]
    ensures SplitForm([SERVER_HEADER, "# note"]) && Starts([SERVER_HEADER, "# note"]) == [0]
  {
    hide Starts, Lines, IsServerHeader;
    NoteStarts();
    ServerHeaderIsOne();
    TwoLines(SERVER_HEADER, "# note");
  }

  lemma TwoLines(first: string, last: string)
    requires IsLine(first) && NoBreak(last)
    ensures SplitForm([first, last]) && Lines(first + last) == [first, last]
  {
    hide Lines, IsLine, NoBreak;
    var lines := [first, last];
    assert lines[..1] == [first] && lines == [first] + [last] && [first] == [] + [first];
    ConcatSnoc([], first);
    ConcatSnoc([first], last);
    assert "" + first == first;
    SplitFormIsLines(lines);
  }

  lemma NoteIsOpen()
    ensures Open([SERVER_HEADER, "# note"], 0, "oauth")
  {
    FirstCharDecides("# note");
    TrimNothing("# note");
    hide Trim, Body, TableHeader;
  }

  /** A text in which the second setting does not override the first: both end up behind a comment
      that closes the file without a line break. */
  lemma NoteSwallowsSettings(a: bool, b: bool)
    ensures var source, servers := SERVER_HEADER + "# note", ["a"];
      && WithBoolean(source, servers, "a", "oauth", a) == Ok(source + Setting("oauth", a))
      && Lines(source + Setting("oauth", a)) == Glued([SERVER_HEADER, "# note"], "oauth", a)
      && !Holds(Glued([SERVER_HEADER, "# note"], "oauth", a), 0, "oauth")
      && WithBoolean(source + Setting("oauth", a), servers, "a", "oauth", b) !=
         WithBoolean(source, servers, "a", "oauth", b)
  {
    hide Lines, Starts, HasTriple, SetLines, Concat, Open, Trim, IsServerHeader, BlockAt, Setting, SplitForm,
      IsAssignment;
    var source, lines := SERVER_HEADER + "# note", [SERVER_HEADER, "# note"];
    QuoteFree(source);
    NoteLines();
    NoteIsOpen();
    LinesSplit(source);
    GluedText(lines, 0, "oauth", a);
    SplitFormIsLines(Glued(lines, "oauth", a));
    CommentSwallows(lines, 0, "oauth", a);
    assert Glues(source, ["a"], "a", "oauth");
    SetTwice(source, ["a"], "a", "oauth", a, b);
  }
}
