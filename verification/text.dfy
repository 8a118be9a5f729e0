/** The string operations the editor and the mailbox rely on. */
module Text {
  import opened Ids

  /** `unicode.IsSpace`. */
  predicate IsSpace(c: char) {
    var code := c as int;
    || 9 <= code <= 13 || code == 0x20 || code == 0x85 || code == 0xA0 || code == 0x1680
    || 0x2000 <= code <= 0x200A || code == 0x2028 || code == 0x2029 || code == 0x202F || code == 0x205F
      || code == 0x3000
  }

  predicate IsBlank(s: string) {
    forall i :: 0 <= i < |s| ==> IsSpace(s[i])
  }

  function TrimLeft(s: string): string {
    if s != "" && IsSpace(s[0]) then TrimLeft(s[1..]) else s
  }

  function TrimRight(s: string): string {
    if s != "" && IsSpace(s[|s| - 1]) then TrimRight(s[..|s| - 1]) else s
  }

  function Trim(s: string): string {
    TrimRight(TrimLeft(s))
  }

  lemma {:induction false} TrimRightPrefix(s: string)
    ensures TrimRight(s) <= s
    ensures TrimRight(s) != "" ==> !IsSpace(TrimRight(s)[|TrimRight(s)| - 1])
    ensures s != "" && !IsSpace(s[0]) ==> TrimRight(s) != ""
  {
    if s != "" && IsSpace(s[|s| - 1]) {
      TrimRightPrefix(s[..|s| - 1]);
    }
  }

  /** What is trimmed starts and ends with something, and trimming again changes nothing. */
  lemma TrimTwice(s: string)
    ensures Trim(Trim(s)) == Trim(s)
  {
    TrimLeftStops(s);
    TrimRightPrefix(TrimLeft(s));
  }

  lemma {:induction false} TrimLeftStops(s: string)
    ensures TrimLeft(s) != "" ==> !IsSpace(TrimLeft(s)[0])
  {
    if s != "" && IsSpace(s[0]) {
      TrimLeftStops(s[1..]);
    }
  }

  /** A line break at the end is trimmed away first. */
  lemma {:induction false} TrimDropsSpace(s: string, c: char)
    requires IsSpace(c)
    ensures Trim(s + [c]) == Trim(s)
  {
    if s == "" {
      assert (s + [c])[1..] == "";
    } else if IsSpace(s[0]) {
      TrimDropsSpace(s[1..], c);
      assert (s + [c])[1..] == s[1..] + [c];
    } else {
      assert (s + [c])[..|s|] == s;
    }
  }

  predicate OccursAt(s: string, t: string, i: nat) {
    i + |t| <= |s| && s[i..i + |t|] == t
  }

  predicate Contains(s: string, t: string) {
    exists i :: 0 <= i <= |s| && OccursAt(s, t, i)
  }

  lemma OccurrenceHasNoBreak(s: string, t: string, i: nat)
    requires OccursAt(s, t, i) && forall k :: 0 <= k < |t| ==> t[k] != '\n'
    ensures forall k :: i <= k < i + |t| ==> s[k] != '\n'
  {
    forall k | i <= k < i + |t| ensures s[k] != '\n' {
      assert s[i..i + |t|][k - i] == s[k];
    }
  }

  /** Pieces are joined at a line break, which the pattern does not contain. */
  lemma ContainsAcrossBreak(a: string, b: string, t: string)
    requires t != "" && forall i :: 0 <= i < |t| ==> t[i] != '\n'
    requires a == "" || a[|a| - 1] == '\n'
    ensures Contains(a + b, t) <==> Contains(a, t) || Contains(b, t)
  {
    hide OccursAt;
    var s := a + b;
    if Contains(s, t) {
      var i: nat :| i <= |s| && OccursAt(s, t, i);
      OccursBeside(a, b, t, i);
    }
    ContainsStays(a, b, t);
  }

  lemma OccursBeside(a: string, b: string, t: string, i: nat)
    requires t != "" && forall i :: 0 <= i < |t| ==> t[i] != '\n'
    requires (a == "" || a[|a| - 1] == '\n') && i <= |a + b| && OccursAt(a + b, t, i)
    ensures if i <= |a| && OccursAt(a, t, i) then true else |a| <= i && OccursAt(b, t, i - |a|)
  {
    var s := a + b;
    OccurrenceHasNoBreak(s, t, i);
    assert a != "" ==> s[|a| - 1] == '\n';
    if i + |t| <= |a| {
      assert a[i..i + |t|] == s[i..i + |t|];
    } else {
      assert b[i - |a|..i - |a| + |t|] == s[i..i + |t|];
    }
  }

  lemma ContainsStays(a: string, b: string, t: string)
    ensures Contains(a, t) || Contains(b, t) ==> Contains(a + b, t)
  {
    var s := a + b;
    if Contains(a, t) {
      var i :| 0 <= i <= |a| && OccursAt(a, t, i);
      assert s[i..i + |t|] == a[i..i + |t|];
      assert OccursAt(s, t, i);
    }
    if Contains(b, t) {
      var i :| 0 <= i <= |b| && OccursAt(b, t, i);
      assert s[|a| + i..|a| + i + |t|] == b[i..i + |t|];
      assert OccursAt(s, t, |a| + i);
    }
  }

  // ---- lines ----

  /** Where `c` first stands in `s`, or the length of `s`. */
  function FirstOf(s: string, c: char): (n: nat)
    ensures n <= |s| && (n < |s| ==> s[n] == c) && forall i :: 0 <= i < n ==> s[i] != c
  {
    if s == "" || s[0] == c then 0 else 1 + FirstOf(s[1..], c)
  }

  function FirstBreak(s: string): (n: nat)
    ensures n <= |s| && (n < |s| ==> s[n] == '\n') && forall i :: 0 <= i < n ==> s[i] != '\n'
  {
    FirstOf(s, '\n')
  }

  /** `strings.SplitAfter(s, "\n")`. */
  function Lines(s: string): seq<string> {
    var n := FirstBreak(s);
    if n == |s| then [s] else [s[..n + 1]] + Lines(s[n + 1..])
  }

  /** A complete line: one break, at its end. */
  predicate IsLine(s: string) {
    s != "" && s[|s| - 1] == '\n' && forall i :: 0 <= i < |s| - 1 ==> s[i] != '\n'
  }

  predicate AreLines(lines: seq<string>) {
    forall i :: 0 <= i < |lines| ==> IsLine(lines[i])
  }

  lemma LinesCons(line: string, rest: string)
    requires IsLine(line)
    ensures Lines(line + rest) == [line] + Lines(rest)
  {
    hide FirstBreak;
    var s := line + rest;
    assert FirstBreak(s) == |line| - 1 by {
      assert s[|line| - 1] == '\n';
      assert forall i :: 0 <= i < |line| - 1 ==> s[i] == line[i];
    }
    assert s[..|line|] == line && s[|line|..] == rest;
  }

  /** Splitting after complete lines gives them back. */
  lemma {:induction false} LinesAfter(lines: seq<string>, rest: string)
    requires AreLines(lines)
    ensures Lines(Concat(lines) + rest) == lines + Lines(rest)
  {
    if lines == [] {
      assert Concat(lines) + rest == rest;
    } else {
      var init, last := lines[..|lines| - 1], lines[|lines| - 1];
      InitLast(lines);
      ConcatAssoc(Concat(init), last, rest);
      LinesAfter(init, last + rest);
      LinesCons(last, rest);
      ConcatAssoc(init, [last], Lines(rest));
    }
  }

  lemma LinesOfLines(lines: seq<string>)
    requires AreLines(lines)
    ensures Lines(Concat(lines)) == lines + [""]
  {
    LinesAfter(lines, "");
    assert Concat(lines) + "" == Concat(lines);
  }

  /** Every text is complete lines and a rest without a break; splitting finds exactly those. */
  lemma {:induction false} SplitText(s: string) returns (lines: seq<string>, rest: string)
    ensures AreLines(lines) && s == Concat(lines) + rest && Lines(s) == lines + [rest]
    ensures forall i :: 0 <= i < |rest| ==> rest[i] != '\n'
    decreases |s|
  {
    var n := FirstBreak(s);
    if n == |s| {
      lines, rest := [], s;
      assert Concat(lines) + rest == s;
    } else {
      var more;
      more, rest := SplitText(s[n + 1..]);
      SplitCons(s, n, more, rest);
      lines := [s[..n + 1]] + more;
    }
  }

  lemma LinesUnfold(s: string)
    requires FirstBreak(s) < |s|
    ensures var n := FirstBreak(s);
      Lines(s) == [s[..n + 1]] + Lines(s[n + 1..]) && IsLine(s[..n + 1])
  {
    hide FirstBreak;
  }

  lemma SplitCons(s: string, n: nat, more: seq<string>, rest: string)
    requires n < |s| && n == FirstBreak(s)
    requires AreLines(more) && s[n + 1..] == Concat(more) + rest && Lines(s[n + 1..]) == more + [rest]
    ensures AreLines([s[..n + 1]] + more) && s == Concat([s[..n + 1]] + more) + rest
    ensures Lines(s) == ([s[..n + 1]] + more) + [rest]
  {
    hide Lines, Concat, FirstBreak;
    LinesUnfold(s);
    TakeDrop(s, n + 1);
    var line := s[..n + 1];
    ConcatCons(line, more);
    ConcatAssoc(line, Concat(more), rest);
    ConcatAssoc([line], more, [rest]);
  }

  lemma {:induction false} ConcatCons(first: string, rest: seq<string>)
    ensures Concat([first] + rest) == first + Concat(rest)
  {
    if rest == [] {
      assert [first] + rest == [first] && Concat([first]) == Concat([]) + first;
    } else {
      var init, last := rest[..|rest| - 1], rest[|rest| - 1];
      ConcatCons(first, init);
      assert ([first] + rest)[..|rest|] == [first] + init;
      ConcatAssoc(first, Concat(init), last);
    }
  }

  lemma {:induction false} ConcatAppend(a: seq<string>, b: seq<string>)
    ensures Concat(a + b) == Concat(a) + Concat(b)
  {
    if b == [] {
      assert a + b == a;
    } else {
      var init, last := b[..|b| - 1], b[|b| - 1];
      ConcatAppend(a, init);
      assert (a + b)[..|a + b| - 1] == a + init;
      ConcatAssoc(Concat(a), Concat(init), last);
    }
  }

  lemma {:induction false} LinesEndInBreak(lines: seq<string>)
    requires AreLines(lines)
    ensures Concat(lines) == "" || Concat(lines)[|Concat(lines)| - 1] == '\n'
  {
    if lines != [] {
      assert IsLine(lines[|lines| - 1]);
    }
  }
}
