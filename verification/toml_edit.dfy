/** The line-preserving editor of `internal/config/config.go`: MCP server blocks are appended,
    removed and switched without touching any other text (arrays of tables, TOML v1.0.0). */
module TomlEdit {
  import opened Ids
  import opened Text

  const SERVER_HEADER := "[[mcp.servers]]\n"
  const ENV_HEADER := "[mcp.servers.env]\n"
  const DOUBLE_TRIPLE := "\"\"\""
  const SINGLE_TRIPLE := "'''"

  datatype EditError = MultilineStrings | NotConfigured | BlockNotLocated | BadCharacter

  datatype Header = Header(name: string, isArray: bool)

  // ---- table headers ----

  function IndexOf(s: string, t: string): (r: Option<nat>)
    ensures r.Some? ==> OccursAt(s, t, r.value) && forall k :: 0 <= k < r.value ==> !OccursAt(s, t, k)
    ensures r.None? ==> forall k :: 0 <= k <= |s| ==> !OccursAt(s, t, k)
  {
    if OccursAt(s, t, 0) then Some(0)
    else if s == "" then None
    else
      var rest := IndexOf(s[1..], t);
      OccursInTail(s, t);
      if rest.None? then None else Some(rest.value + 1)
  }

  lemma OccursInTail(s: string, t: string)
    requires s != ""
    ensures forall k :: 1 <= k <= |s| ==> (OccursAt(s, t, k) <==> OccursAt(s[1..], t, k - 1))
  {
    forall k | 1 <= k <= |s| ensures OccursAt(s, t, k) <==> OccursAt(s[1..], t, k - 1) {
      if k + |t| <= |s| {
        SliceOfTail(s, 1, k, k + |t|);
      }
    }
  }

  lemma FirstOccurrence(s: string, t: string, n: nat)
    requires t != "" && OccursAt(s, t, n) && forall k :: 0 <= k < n ==> s[k] != t[0]
    ensures IndexOf(s, t) == Some(n)
  {
    forall k | 0 <= k < n ensures !OccursAt(s, t, k) {
      if k + |t| <= |s| {
        assert s[k..k + |t|][0] == s[k];
      }
    }
    assert IndexOf(s, t).Some?;
  }

  /** `tomlTableHeaderName` of a trimmed line. */
  function HeaderOf(trimmed: string): Option<Header> {
    if !("[" <= trimmed) then None else
      var isArray := "[[" <= trimmed;
      var openLen := if isArray then 2 else 1;
      var closing := if isArray then "]]" else "]";
      var remainder := trimmed[openLen..];
      var at := IndexOf(remainder, closing);
      if at.None? then None else
        var name := Trim(remainder[..at.value]);
        var rest := Trim(remainder[at.value + |closing|..]);
        if name == "" || (rest != "" && !("#" <= rest)) then None else Some(Header(name, isArray))
  }

  function TableHeader(line: string): Option<Header> {
    HeaderOf(Trim(line))
  }

  predicate Bracketed(trimmed: string) {
    "[" <= trimmed && Contains(trimmed, "]")
  }

  /** `isAnyTOMLTableHeader`. */
  predicate AnyHeader(line: string) {
    Bracketed(Trim(line))
  }

  predicate IsServerHeader(line: string) {
    TableHeader(line) == Some(Header("mcp.servers", true))
  }

  predicate IsOwnedHeader(line: string) {
    TableHeader(line).Some? && "mcp.servers." <= TableHeader(line).value.name
  }

  /** A header that ends the block before it. */
  predicate EndsBlock(line: string) {
    AnyHeader(line) && !IsOwnedHeader(line)
  }

  /** A line that is no table header of any kind. */
  predicate Body(line: string) {
    !AnyHeader(line) && TableHeader(line).None?
  }

  lemma FirstCharDecides(line: string)
    requires line != "" && !IsSpace(line[0]) && line[0] != '['
    ensures Body(line)
  {
    assert TrimLeft(line) == line;
    TrimRightPrefix(line);
    assert Trim(line)[0] == line[0];
  }

  lemma EmptyLineIsBody()
    ensures Body("\n") && Body("") && !AnyHeader("")
  {
    assert "\n"[1..] == "";
    assert Trim("\n") == "" && Trim("") == "";
  }

  lemma TrimNothing(s: string)
    requires s != "" && !IsSpace(s[0]) && !IsSpace(s[|s| - 1])
    ensures Trim(s) == s
  {
  }

  lemma OtherIsNoServer(line: string)
    requires !AnyHeader(line)
    ensures !IsServerHeader(line)
  {
    hide Trim, IndexOf;
    if IsServerHeader(line) {
      HeaderCloses(Trim(line));
    }
  }

  lemma HeaderCloses(trimmed: string)
    requires HeaderOf(trimmed).Some?
    ensures Bracketed(trimmed)
  {
    hide Trim, IndexOf;
    var isArray := "[[" <= trimmed;
    var n: nat, closing := if isArray then 2 else 1, if isArray then "]]" else "]";
    ClosesAt(trimmed, n, IndexOf(trimmed[n..], closing).value, closing);
  }

  lemma ClosesAt(s: string, n: nat, at: nat, closing: string)
    requires n <= |s| && closing != "" && closing[0] == ']' && OccursAt(s[n..], closing, at)
    ensures Contains(s, "]")
  {
    assert s[n..][at..at + |closing|][0] == s[n + at];
    assert s[n + at..n + at + 1] == "]";
    assert OccursAt(s, "]", n + at);
  }

  predicate PlainName(name: string) {
    && name != "" && !IsSpace(name[0]) && !IsSpace(name[|name| - 1]) && name[0] != '['
    && forall k :: 0 <= k < |name| ==> name[k] != ']'
  }

  lemma ArrayHeader(name: string)
    requires PlainName(name)
    ensures HeaderOf("[[" + name + "]]") == Some(Header(name, true))
  {
    hide IndexOf;
    var s := "[[" + name + "]]";
    assert "[[" <= s;
    var r := s[2..];
    assert r == name + "]]";
    assert r[|name|..|name| + 2] == "]]";
    assert forall k :: 0 <= k < |name| ==> r[k] == name[k];
    FirstOccurrence(r, "]]", |name|);
    assert r[..|name|] == name && r[|name| + 2..] == "";
    TrimNothing(name);
    assert Trim("") == "";
  }

  lemma SingleHeader(name: string)
    requires PlainName(name)
    ensures HeaderOf("[" + name + "]") == Some(Header(name, false))
  {
    hide IndexOf;
    var s := "[" + name + "]";
    assert s[1] == name[0] && !("[[" <= s);
    var r := s[1..];
    assert r == name + "]";
    assert r[|name|..|name| + 1] == "]";
    assert forall k :: 0 <= k < |name| ==> r[k] == name[k];
    FirstOccurrence(r, "]", |name|);
    assert r[..|name|] == name && r[|name| + 1..] == "";
    TrimNothing(name);
    assert Trim("") == "";
  }

  lemma BracketedLine(s: string)
    requires |s| > 1 && s[0] == '[' && s[|s| - 1] == ']'
    ensures Trim(s + ['\n']) == s && Bracketed(s)
  {
    TrimDropsSpace(s, '\n');
    TrimNothing(s);
    assert s[|s| - 1..|s|] == "]" && OccursAt(s, "]", |s| - 1);
  }

  lemma ServerHeaderIsOne()
    ensures IsServerHeader(SERVER_HEADER) && EndsBlock(SERVER_HEADER) && IsLine(SERVER_HEADER)
  {
    hide HeaderOf, Trim, Bracketed;
    var name := "mcp.servers";
    ArrayHeader(name);
    var s := "[[" + name + "]]";
    BracketedLine(s);
    assert SERVER_HEADER == s + ['\n'];
  }

  lemma EnvHeaderIsOwned()
    ensures IsOwnedHeader(ENV_HEADER) && !IsServerHeader(ENV_HEADER) && IsLine(ENV_HEADER)
  {
    hide HeaderOf, Trim, Bracketed;
    var name := "mcp.servers.env";
    SingleHeader(name);
    var s := "[" + name + "]";
    BracketedLine(s);
    assert ENV_HEADER == s + ['\n'];
    assert "mcp.servers." <= name;
  }

  // ---- blocks ----

  datatype Block = Block(start: nat, end: nat)

  function Starts(lines: seq<string>): (r: seq<nat>)
    ensures forall k :: 0 <= k < |r| ==> r[k] < |lines|
  {
    if lines == [] then [] else
      var n := |lines| - 1;
      Starts(lines[..n]) + if IsServerHeader(lines[n]) then [n] else []
  }

  /** The first line from `from` on that ends a block, or the end of the text. */
  function EndFrom(lines: seq<string>, from: nat): (end: nat)
    requires from <= |lines|
    ensures from <= end <= |lines|
    ensures forall k :: from <= k < end ==> !EndsBlock(lines[k])
    ensures end < |lines| ==> EndsBlock(lines[end])
    decreases |lines| - from
  {
    if from == |lines| || EndsBlock(lines[from]) then from else EndFrom(lines, from + 1)
  }

  function BlockAt(lines: seq<string>, start: nat): Block
    requires start < |lines|
  {
    Block(start, EndFrom(lines, start + 1))
  }

  method ServerBlocks(lines: seq<string>) returns (blocks: seq<Block>)
    ensures |blocks| == |Starts(lines)|
    ensures forall k :: 0 <= k < |blocks| ==> blocks[k] == BlockAt(lines, Starts(lines)[k])
  {
    hide IsServerHeader, EndsBlock;
    var starts := BlockStarts(lines);
    blocks := [];
    for i := 0 to |starts|
      invariant |blocks| == i && forall k :: 0 <= k < i ==> blocks[k] == BlockAt(lines, starts[k])
    {
      var end := BlockEnd(lines, starts[i] + 1);
      blocks := blocks + [Block(starts[i], end)];
    }
  }

  method BlockStarts(lines: seq<string>) returns (starts: seq<nat>)
    ensures starts == Starts(lines)
  {
    hide IsServerHeader;
    starts := [];
    for i := 0 to |lines|
      invariant starts == Starts(lines[..i])
    {
      assert lines[..i + 1][..i] == lines[..i];
      if IsServerHeader(lines[i]) {
        starts := starts + [i];
      }
    }
    assert lines[..|lines|] == lines;
  }

  method BlockEnd(lines: seq<string>, from: nat) returns (end: nat)
    requires from <= |lines|
    ensures end == EndFrom(lines, from)
  {
    hide EndsBlock;
    for j := from to |lines|
      invariant forall k :: from <= k < j ==> !EndsBlock(lines[k])
    {
      if EndsBlock(lines[j]) {
        return j;
      }
    }
    end := |lines|;
  }

  lemma StartsSnoc(lines: seq<string>, line: string)
    ensures Starts(lines + [line]) == if IsServerHeader(line) then Starts(lines) + [|lines|] else Starts(lines)
  {
    hide IsServerHeader;
    SnocInit(lines, line);
  }

  lemma {:induction false} StartsAppend(a: seq<string>, b: seq<string>)
    requires b != [] && IsServerHeader(b[0]) && forall k :: 1 <= k < |b| ==> !IsServerHeader(b[k])
    ensures Starts(a + b) == Starts(a) + [|a|]
    decreases |b|
  {
    hide IsServerHeader, Starts;
    var init, last := b[..|b| - 1], b[|b| - 1];
    InitLast(b);
    ConcatAssoc(a, init, [last]);
    if init == [] {
      StartsSnoc(a, last);
      assert a + b == a + [last];
    } else {
      StartsAppend(a, init);
      StartsSnoc(a + init, last);
    }
  }

  predicate HasTriple(s: string) {
    Contains(s, DOUBLE_TRIPLE) || Contains(s, SINGLE_TRIPLE)
  }

  function Position(servers: seq<string>, name: string): (i: nat)
    ensures i <= |servers| && (i < |servers| ==> servers[i] == name) && forall k :: 0 <= k < i ==> servers[k] != name
  {
    FirstIndex((server: string) => server == name, servers)
  }

  /** The lines of the target block are cut out; everything else stays. */
  method RemoveServer(source: string, servers: seq<string>, name: string) returns (r: Result<string, EditError>)
    ensures r == Removed(source, servers, name)
  {
    if HasTriple(source) {
      return Err(MultilineStrings);
    }
    var target := FindServer(servers, name);
    if target == |servers| {
      return Err(NotConfigured);
    }
    var lines := Lines(source);
    var blocks := ServerBlocks(lines);
    if |blocks| != |servers| {
      return Err(BlockNotLocated);
    }
    var block := blocks[target];
    r := Ok(Concat(lines[..block.start] + lines[block.end..]));
  }

  method FindServer(servers: seq<string>, name: string) returns (i: nat)
    ensures i == Position(servers, name)
  {
    for k := 0 to |servers|
      invariant forall j :: 0 <= j < k ==> servers[j] != name
    {
      if servers[k] == name {
        return k;
      }
    }
    i := |servers|;
  }

  function Removed(source: string, servers: seq<string>, name: string): Result<string, EditError> {
    var lines, target := Lines(source), Position(servers, name);
    if HasTriple(source) then Err(MultilineStrings)
    else if target == |servers| then Err(NotConfigured)
    else if |Starts(lines)| != |servers| then Err(BlockNotLocated)
    else
      var block := BlockAt(lines, Starts(lines)[target]);
      Ok(Concat(lines[..block.start] + lines[block.end..]))
  }

  // ---- quoting ----

  function EscapeChar(c: char): Option<string> {
    if c == '\\' then Some("\\\\")
    else if c == '"' then Some("\\\"")
    else if c == '\t' then Some("\\t")
    else if (c as int) < 0x20 || c as int == 0x7f then None
    else Some([c])
  }

  function Escaped(value: string): Option<string> {
    if value == "" then Some("") else
      var rest, last := Escaped(value[..|value| - 1]), EscapeChar(value[|value| - 1]);
      if rest.None? || last.None? then None else Some(rest.value + last.value)
  }

  /** `formatMCPServerTOMLString`. */
  function Quoted(value: string): Option<string> {
    if Escaped(value).None? then None else Some("\"" + Escaped(value).value + "\"")
  }

  method FormatString(value: string) returns (r: Option<string>)
    ensures r == Quoted(value)
  {
    var body := "";
    for i := 0 to |value|
      invariant Escaped(value[..i]) == Some(body)
    {
      assert value[..i + 1][..i] == value[..i];
      var c := EscapeChar(value[i]);
      if c.None? {
        EscapeFails(value, i + 1);
        return None;
      }
      body := body + c.value;
    }
    assert value[..|value|] == value;
    r := Some("\"" + body + "\"");
  }

  lemma {:induction false} EscapeFails(value: string, n: nat)
    requires n <= |value| && Escaped(value[..n]).None?
    ensures Escaped(value).None?
  {
    if n == |value| {
      assert value[..n] == value;
    } else {
      assert value[..|value| - 1][..n] == value[..n];
      EscapeFails(value[..|value| - 1], n);
    }
  }

  predicate NoBreak(s: string) {
    forall i :: 0 <= i < |s| ==> s[i] != '\n'
  }

  predicate Triple(s: string, i: nat) {
    i + 2 < |s| && s[i] == '"' && s[i + 1] == '"' && s[i + 2] == '"'
  }

  ghost predicate NoTriple(s: string) {
    forall i: nat :: !Triple(s, i)
  }

  lemma NoTripleMeansNone(s: string)
    requires NoTriple(s)
    ensures !Contains(s, DOUBLE_TRIPLE)
  {
    forall i | 0 <= i <= |s| ensures !OccursAt(s, DOUBLE_TRIPLE, i) {
      TripleOccurs(s, i);
      assert !Triple(s, i);
    }
  }

  lemma TripleOccurs(s: string, i: nat)
    ensures OccursAt(s, DOUBLE_TRIPLE, i) <==> Triple(s, i)
  {
    if i + 3 <= |s| {
      assert s[i..i + 3] == [s[i], s[i + 1], s[i + 2]];
    }
  }

  lemma NoTripleJoin(a: string, b: string)
    requires NoTriple(a) && NoTriple(b)
    requires a == "" || b == "" || a[|a| - 1] != '"' || b[0] != '"'
    ensures NoTriple(a + b)
  {
    forall i: nat ensures !Triple(a + b, i) {
      if i + 2 < |a| {
        assert !Triple(a, i);
      } else if i >= |a| {
        assert !Triple(b, i - |a|);
      }
    }
  }

  lemma PlainHasNoTriple(s: string)
    requires forall i :: 0 <= i < |s| ==> s[i] != '"'
    ensures NoTriple(s)
  {
  }

  /** Inside the quotes every quote is escaped, so no line ever shows three in a row. */
  lemma {:induction false} EscapedIsSafe(value: string)
    requires Escaped(value).Some?
    ensures var e := Escaped(value).value;
      NoBreak(e) && forall i :: 0 <= i < |e| && e[i] == '"' ==> i > 0 && e[i - 1] == '\\'
  {
    if value != "" {
      EscapedIsSafe(value[..|value| - 1]);
    }
  }

  ghost predicate SafeValue(v: string) {
    NoBreak(v) && NoTriple(v)
  }

  lemma QuotedIsSafe(value: string)
    requires Quoted(value).Some?
    ensures SafeValue(Quoted(value).value) && Quoted(value).value[0] == '"'
  {
    EscapedIsSafe(value);
    var e, q := Escaped(value).value, Quoted(value).value;
    forall i: nat ensures !Triple(q, i) {
      if i + 2 < |q| {
        assert q[i + 1] == e[i] && (i > 0 ==> q[i] == e[i - 1]);
      }
    }
  }

  /** How TOML v1.0.0, section "String", reads the rest of a basic string after its opening quote: the
      value and what follows the closing quote. Escapes the editor never writes are not read. */
  function ReadBasic(s: string): Option<(string, string)> {
    if s == "" then None
    else if s[0] == '"' then Some(("", s[1..]))
    else if s[0] == '\\' then
      if |s| == 1 || s[1] !in ['\\', '"', 't'] then None
      else Prepend(if s[1] == 't' then '\t' else s[1], ReadBasic(s[2..]))
    else if ((s[0] as int) < 0x20 && s[0] != '\t') || s[0] as int == 0x7f then None
    else Prepend(s[0], ReadBasic(s[1..]))
  }

  function Prepend(c: char, r: Option<(string, string)>): Option<(string, string)> {
    if r.None? then None else Some(([c] + r.value.0, r.value.1))
  }

  lemma {:induction false} EscapedCons(c: char, value: string)
    requires Escaped([c] + value).Some?
    ensures EscapeChar(c).Some? && Escaped(value).Some?
    ensures Escaped([c] + value).value == EscapeChar(c).value + Escaped(value).value
  {
    var all := [c] + value;
    if value == "" {
      assert all[..0] == "" && Escaped("") == Some("");
    } else {
      var init, last := value[..|value| - 1], value[|value| - 1];
      assert all[..|all| - 1] == [c] + init;
      EscapedCons(c, init);
      ConcatAssoc(EscapeChar(c).value, Escaped(init).value, EscapeChar(last).value);
    }
  }

  lemma ReadOne(c: char, s: string)
    requires EscapeChar(c).Some?
    ensures ReadBasic(EscapeChar(c).value + s) == Prepend(c, ReadBasic(s))
  {
    var e := EscapeChar(c).value + s;
    assert e[|EscapeChar(c).value|..] == s;
  }

  /** Whatever is quoted reads back as itself, and the reader stops exactly at the closing quote. */
  lemma {:induction false} QuotedReadsBack(value: string, rest: string)
    requires Escaped(value).Some?
    ensures ReadBasic(Escaped(value).value + ("\"" + rest)) == Some((value, rest))
  {
    if value == "" {
      assert Escaped(value).value + ("\"" + rest) == "\"" + rest;
      assert ("\"" + rest)[1..] == rest;
    } else {
      var c, more := value[0], value[1..];
      assert value == [c] + more;
      EscapedCons(c, more);
      QuotedReadsBack(more, rest);
      ConcatAssoc(EscapeChar(c).value, Escaped(more).value, "\"" + rest);
      ReadOne(c, Escaped(more).value + ("\"" + rest));
    }
  }

  // ---- quotes in a row ----

  predicate IsQuotes(t: string) {
    t == DOUBLE_TRIPLE || t == SINGLE_TRIPLE
  }

  ghost predicate NoneContains(lines: seq<string>, t: string) {
    forall i :: 0 <= i < |lines| ==> !Contains(lines[i], t)
  }

  /** Quotes in a row stand within one line. */
  lemma {:induction false} ConcatLacks(lines: seq<string>, t: string)
    requires IsQuotes(t) && (lines != [] ==> AreLines(lines[..|lines| - 1]))
    ensures !Contains(Concat(lines), t) <==> NoneContains(lines, t)
    decreases |lines|
  {
    hide Contains;
    if lines == [] {
      NothingContains(t);
    } else {
      var init, last := lines[..|lines| - 1], lines[|lines| - 1];
      ConcatLacks(init, t);
      LinesEndInBreak(init);
      ContainsAcrossBreak(Concat(init), last, t);
      InitLast(lines);
      assert NoneContains(lines, t) <==> NoneContains(init, t) && !Contains(last, t);
    }
  }

  lemma NothingContains(t: string)
    requires t != ""
    ensures !Contains("", t)
  {
  }

  lemma QuotesAt(r: string, t: string, i: nat)
    requires IsQuotes(t) && OccursAt(r, t, i)
    ensures i + 3 <= |r| && r[i] == r[i + 1] == r[i + 2] == t[0] && t[0] in ['"', '\'']
  {
    var piece := r[i..i + 3];
    assert piece[0] == r[i] && piece[1] == r[i + 1] && piece[2] == r[i + 2];
  }

  // ---- keys and values ----

  function Bool(b: bool): string {
    if b then "true" else "false"
  }

  predicate BareKey(name: string) {
    name != "" && forall i :: 0 <= i < |name| ==>
      'a' <= name[i] <= 'z' || 'A' <= name[i] <= 'Z' || '0' <= name[i] <= '9' || name[i] == '_' || name[i] == '-'
  }
}
