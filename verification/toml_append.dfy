/** MCP server blocks written to, and cut out of, the text (`internal/config/config.go`): what an
    appended block looks like, and that removing it again gives the text back. */
module TomlAppend {
  import opened Ids
  import opened Text
  import opened TomlEdit

  // ---- the block of a server ----

  datatype Server = Server(
    name: string, http: bool, url: string, bearer: string, oauth: bool, command: string, args: seq<string>,
    workingDir: string, enabled: Option<bool>, timeout: nat, env: seq<(string, string)>)

  function Assign(key: string, value: string): string {
    key + " = " + value + "\n"
  }

  function Decimal(n: nat): (s: string)
    ensures s != "" && forall i :: 0 <= i < |s| ==> '0' <= s[i] <= '9'
  {
    var digit := [('0' as int + n % 10) as char];
    if n < 10 then digit else Decimal(n / 10) + digit
  }

  function JoinQuoted(values: seq<string>): Option<string> {
    if values == [] then Some("") else
      var rest, last := JoinQuoted(values[..|values| - 1]), Quoted(values[|values| - 1]);
      if rest.None? || last.None? then None
      else Some(if |values| == 1 then last.value else rest.value + ", " + last.value)
  }

  function EnvName(name: string): Option<string> {
    if BareKey(name) then Some(name) else Quoted(name)
  }

  function EnvLines(env: seq<(string, string)>): Option<seq<string>> {
    if env == [] then Some([]) else
      var rest, last := EnvLines(env[..|env| - 1]), env[|env| - 1];
      if rest.None? || EnvName(last.0).None? || Quoted(last.1).None? then None
      else Some(rest.value + [Assign(EnvName(last.0).value, Quoted(last.1).value)])
  }

  function Optional(present: bool, line: string): seq<string> {
    if present then [line] else []
  }

  /** `formatMCPServerTOML`, line by line; the environment is sorted by name. */
  function ServerLines(s: Server): Option<seq<string>> {
    var name := Quoted(s.name);
    if name.None? then None
    else if s.http then
      if Quoted(s.url).None? || (s.bearer != "" && Quoted(s.bearer).None?) then None
      else Some([SERVER_HEADER, Assign("name", name.value), Assign("type", "\"streamable_http\""),
                 Assign("url", Quoted(s.url).value)]
                + (if s.bearer != "" then [Assign("bearer_token_env_var", Quoted(s.bearer).value)] else [])
                + Optional(s.oauth, "oauth = true\n") + Settings(s))
    else if Quoted(s.command).None? || JoinQuoted(s.args).None? || (s.workingDir != "" && Quoted(s.workingDir).None?)
      || EnvLines(s.env).None? then None
    else Some([SERVER_HEADER] + CommandPart(s) + Settings(s) + EnvPart(s.env))
  }

  function CommandPart(s: Server): seq<string>
    requires Quoted(s.name).Some? && Quoted(s.command).Some? && JoinQuoted(s.args).Some?
    requires s.workingDir != "" ==> Quoted(s.workingDir).Some?
  {
    [Assign("name", Quoted(s.name).value), Assign("command", Quoted(s.command).value)]
    + Optional(s.args != [], Assign("args", "[" + JoinQuoted(s.args).value + "]"))
    + if s.workingDir != "" then [Assign("working_dir", Quoted(s.workingDir).value)] else []
  }

  function EnvPart(env: seq<(string, string)>): seq<string>
    requires EnvLines(env).Some?
  {
    if env == [] then [] else ["\n", ENV_HEADER] + EnvLines(env).value
  }

  function Settings(s: Server): seq<string> {
    (if s.enabled.Some? then [Assign("enabled", Bool(s.enabled.value))] else [])
      + Optional(s.timeout > 0, Assign("connect_timeout_seconds", Decimal(s.timeout)))
  }

  /** A line inside a block. */
  ghost predicate Inside(line: string) {
    IsLine(line) && !IsServerHeader(line) && !EndsBlock(line) && !Contains(line, DOUBLE_TRIPLE)
  }

  ghost predicate AllInside(lines: seq<string>) {
    forall i :: 0 <= i < |lines| ==> Inside(lines[i])
  }

  ghost predicate GoodKey(key: string) {
    && key != "" && !IsSpace(key[0]) && key[0] != '[' && SafeValue(key)
  }

  lemma AssignIsInside(key: string, value: string)
    requires GoodKey(key) && SafeValue(value)
    ensures Inside(Assign(key, value))
  {
    var line := Assign(key, value);
    FirstCharDecides(line);
    PlainHasNoTriple(" = ");
    PlainHasNoTriple("\n");
    NoTripleJoin(key, " = ");
    NoTripleJoin(key + " = ", value);
    NoTripleJoin(key + " = " + value, "\n");
    NoTripleMeansNone(line);
  }

  lemma PlainKey(key: string)
    requires BareKey(key)
    ensures GoodKey(key)
  {
    PlainHasNoTriple(key);
  }

  lemma {:induction false} JoinIsSafe(values: seq<string>)
    requires JoinQuoted(values).Some?
    ensures SafeValue(JoinQuoted(values).value)
  {
    if values != [] {
      var init, last := values[..|values| - 1], values[|values| - 1];
      JoinIsSafe(init);
      QuotedIsSafe(last);
      PlainHasNoTriple(", ");
      NoTripleJoin(JoinQuoted(init).value, ", ");
      NoTripleJoin(JoinQuoted(init).value + ", ", Quoted(last).value);
    }
  }

  lemma ListIsSafe(v: string)
    requires SafeValue(v)
    ensures SafeValue("[" + v + "]")
  {
    PlainHasNoTriple("[");
    PlainHasNoTriple("]");
    NoTripleJoin("[", v);
    NoTripleJoin("[" + v, "]");
  }

  lemma PlainValue(v: string)
    requires forall i :: 0 <= i < |v| ==> v[i] != '"' && v[i] != '\n'
    ensures SafeValue(v)
  {
    PlainHasNoTriple(v);
  }

  lemma {:induction false} EnvIsInside(env: seq<(string, string)>)
    requires EnvLines(env).Some?
    ensures AllInside(EnvLines(env).value)
  {
    if env != [] {
      var last := env[|env| - 1];
      EnvIsInside(env[..|env| - 1]);
      QuotedIsSafe(last.1);
      if BareKey(last.0) {
        PlainKey(last.0);
      } else {
        QuotedIsSafe(last.0);
      }
      AssignIsInside(EnvName(last.0).value, Quoted(last.1).value);
    }
  }

  lemma NoQuotesInside(line: string)
    requires IsLine(line) && !IsServerHeader(line) && !EndsBlock(line)
    requires forall i :: 0 <= i < |line| ==> line[i] != '"'
    ensures Inside(line)
  {
    PlainHasNoTriple(line);
    NoTripleMeansNone(line);
  }

  lemma EnvHeaderIsInside()
    ensures Inside(ENV_HEADER) && Inside("\n")
  {
    hide TableHeader, AnyHeader;
    EnvHeaderIsOwned();
    NoQuotesInside(ENV_HEADER);
    EmptyLineIsBody();
    NoQuotesInside("\n");
  }

  lemma JoinInside(a: seq<string>, b: seq<string>)
    requires AllInside(a) && AllInside(b)
    ensures AllInside(a + b)
  {
  }

  lemma SettingsInside(s: Server)
    ensures AllInside(Settings(s))
  {
    hide Inside;
    PlainKey("enabled");
    PlainKey("connect_timeout_seconds");
    if s.enabled.Some? {
      PlainValue(Bool(s.enabled.value));
      AssignIsInside("enabled", Bool(s.enabled.value));
    }
    PlainValue(Decimal(s.timeout));
    AssignIsInside("connect_timeout_seconds", Decimal(s.timeout));
  }

  lemma KeysAreGood()
    ensures GoodKey("name") && GoodKey("type") && GoodKey("url") && GoodKey("bearer_token_env_var")
    ensures GoodKey("command") && GoodKey("args") && GoodKey("working_dir")
  {
    PlainKey("name");
    PlainKey("type");
    PlainKey("url");
    PlainKey("bearer_token_env_var");
    PlainKey("command");
    PlainKey("args");
    PlainKey("working_dir");
  }

  /** Everything after the header belongs to the block, and no line shows three double quotes. */
  lemma ServerLinesInside(s: Server)
    requires ServerLines(s).Some?
    ensures ServerLines(s).value != [] && ServerLines(s).value[0] == SERVER_HEADER
    ensures AllInside(ServerLines(s).value[1..])
  {
    hide Inside, Assign, Quoted, JoinQuoted, EnvLines, Settings;
    if s.http {
      HttpInside(s);
    } else {
      StdioInside(s);
    }
  }

  lemma HttpInside(s: Server)
    requires s.http && ServerLines(s).Some?
    ensures ServerLines(s).value[0] == SERVER_HEADER && AllInside(ServerLines(s).value[1..])
  {
    hide Inside, Assign, Quoted, Settings, GoodKey, SafeValue;
    KeysAreGood();
    QuotedIsSafe(s.name);
    AssignIsInside("name", Quoted(s.name).value);
    TransportIsSafe();
    AssignIsInside("type", "\"streamable_http\"");
    QuotedIsSafe(s.url);
    AssignIsInside("url", Quoted(s.url).value);
    if s.bearer != "" {
      QuotedIsSafe(s.bearer);
      AssignIsInside("bearer_token_env_var", Quoted(s.bearer).value);
    }
    OauthIsInside();
    SettingsInside(s);
    var head := [Assign("name", Quoted(s.name).value), Assign("type", "\"streamable_http\""),
                 Assign("url", Quoted(s.url).value)];
    var bearer := if s.bearer != "" then [Assign("bearer_token_env_var", Quoted(s.bearer).value)] else [];
    var oauth := Optional(s.oauth, "oauth = true\n");
    JoinInside(head, bearer);
    JoinInside(head + bearer, oauth);
    JoinInside(head + bearer + oauth, Settings(s));
    assert ServerLines(s).value == [SERVER_HEADER] + (head + bearer + oauth + Settings(s));
  }

  lemma TransportIsSafe()
    ensures SafeValue("\"streamable_http\"")
  {
    PlainHasNoTriple("streamable_http");
    assert NoTriple("\"");
    NoTripleJoin("\"", "streamable_http");
    NoTripleJoin("\"" + "streamable_http", "\"");
    assert "\"" + "streamable_http" + "\"" == "\"streamable_http\"";
  }

  lemma OauthIsInside()
    ensures Inside("oauth = true\n")
  {
    FirstCharDecides("oauth = true\n");
    NoQuotesInside("oauth = true\n");
  }

  lemma StdioInside(s: Server)
    requires !s.http && ServerLines(s).Some?
    ensures ServerLines(s).value[0] == SERVER_HEADER && AllInside(ServerLines(s).value[1..])
  {
    hide Inside, Assign, Quoted, JoinQuoted, EnvLines, EnvPart, Settings, AllInside;
    CommandInside(s);
    SettingsInside(s);
    EnvPartInside(s.env);
    var command := CommandPart(s);
    JoinInside(command, Settings(s));
    JoinInside(command + Settings(s), EnvPart(s.env));
    assert ServerLines(s).value == [SERVER_HEADER] + (command + Settings(s) + EnvPart(s.env));
  }

  lemma CommandInside(s: Server)
    requires !s.http && ServerLines(s).Some?
    ensures AllInside(CommandPart(s))
  {
    hide Inside, Assign, Quoted, JoinQuoted, EnvLines, EnvPart, Settings, GoodKey, SafeValue;
    KeysAreGood();
    QuotedIsSafe(s.name);
    AssignIsInside("name", Quoted(s.name).value);
    QuotedIsSafe(s.command);
    AssignIsInside("command", Quoted(s.command).value);
    JoinIsSafe(s.args);
    ListIsSafe(JoinQuoted(s.args).value);
    AssignIsInside("args", "[" + JoinQuoted(s.args).value + "]");
    if s.workingDir != "" {
      QuotedIsSafe(s.workingDir);
      AssignIsInside("working_dir", Quoted(s.workingDir).value);
    }
  }

  lemma EnvPartInside(env: seq<(string, string)>)
    requires EnvLines(env).Some?
    ensures AllInside(EnvPart(env))
  {
    hide Inside, EnvLines;
    EnvHeaderIsInside();
    EnvIsInside(env);
    JoinInside(["\n", ENV_HEADER], EnvLines(env).value);
  }

  // ---- appending, and removing again ----

  /** The source with a final line break, unless it is empty. */
  function Padded(source: string): string {
    if source != "" && source[|source| - 1] != '\n' then source + "\n" else source
  }

  method FormatServer(s: Server) returns (block: Option<string>)
    ensures block == if ServerLines(s).None? then None else Some(Concat(ServerLines(s).value))
  {
    hide ServerLines;
    var lines := ServerLines(s);
    if lines.None? {
      return None;
    }
    var out := WriteLines(lines.value);
    block := Some(out);
  }

  method WriteLines(lines: seq<string>) returns (out: string)
    ensures out == Concat(lines)
  {
    out := "";
    for i := 0 to |lines|
      invariant out == Concat(lines[..i])
    {
      assert lines[..i + 1][..i] == lines[..i];
      out := out + lines[i];
    }
    assert lines[..|lines|] == lines;
  }

  method AppendServer(source: string, s: Server) returns (r: Result<string, EditError>)
    ensures r.Ok? <==> ServerLines(s).Some?
    ensures r.Ok? ==> r.value == Padded(source) + "\n" + Concat(ServerLines(s).value)
  {
    var block := FormatServer(s);
    if block.None? {
      return Err(BadCharacter);
    }
    var text := source;
    if text != "" && text[|text| - 1] != '\n' {
      text := text + "\n";
    }
    r := Ok(text + "\n" + block.value);
  }

  lemma PaddedClosed(lines: seq<string>)
    requires AreLines(lines)
    ensures Padded(Concat(lines)) == Concat(lines)
  {
    LinesEndInBreak(lines);
  }

  lemma PaddedOpen(lines: seq<string>, rest: string)
    requires AreLines(lines) && rest != "" && NoBreak(rest)
    ensures Padded(Concat(lines) + rest) == Concat(lines + [rest + "\n"]) && AreLines(lines + [rest + "\n"])
  {
    hide Concat, IsLine;
    ConcatAssoc(Concat(lines), rest, "\n");
    ConcatSnoc(lines, rest + "\n");
    OpenLineCloses(rest);
  }

  lemma OpenLineCloses(rest: string)
    requires NoBreak(rest)
    ensures IsLine(rest + "\n") && (IsServerHeader(rest + "\n") <==> IsServerHeader(rest))
  {
    hide Trim, HeaderOf;
    TrimDropsSpace(rest, '\n');
    assert rest + ['\n'] == rest + "\n";
  }

  /** The padded source is complete lines, with the same headers as the source. */
  lemma PaddedLines(source: string) returns (lines: seq<string>)
    ensures AreLines(lines) && Padded(source) == Concat(lines) && Starts(lines) == Starts(Lines(source))
  {
    hide *;
    var complete, rest := SplitText(source);
    StartsSnoc(complete, rest);
    if rest == "" {
      lines := complete;
      PaddedClosed(lines);
      EmptyLineIsBody();
      OtherIsNoServer("");
      assert Concat(complete) + "" == Concat(complete);
    } else {
      lines := complete + [rest + "\n"];
      BreakFree(rest);
      PaddedOpen(complete, rest);
      OpenLineCloses(rest);
      StartsSnoc(complete, rest + "\n");
    }
  }

  lemma BreakFree(s: string)
    requires forall i :: 0 <= i < |s| ==> s[i] != '\n'
    ensures NoBreak(s)
  {
  }

  lemma BlockHasNoTriple(s: Server)
    requires ServerLines(s).Some?
    ensures AreLines(ServerLines(s).value) && !Contains(Concat(ServerLines(s).value), DOUBLE_TRIPLE)
  {
    hide Inside, ServerLines, Starts, IsLine, Contains, Concat;
    ServerLinesInside(s);
    HeaderHasNoTriple();
    var lines := ServerLines(s).value;
    forall i | 0 <= i < |lines| ensures IsLine(lines[i]) && !Contains(lines[i], DOUBLE_TRIPLE) {
      if i > 0 {
        InsideMeans(lines[1..][i - 1]);
      }
    }
    assert AreLines(lines) && NoneContains(lines, DOUBLE_TRIPLE);
    ConcatLacks(lines, DOUBLE_TRIPLE);
  }

  lemma HeaderHasNoTriple()
    ensures IsLine(SERVER_HEADER) && !Contains(SERVER_HEADER, DOUBLE_TRIPLE)
  {
    hide IsServerHeader, EndsBlock, Contains;
    ServerHeaderIsOne();
    PlainHasNoTriple(SERVER_HEADER);
    NoTripleMeansNone(SERVER_HEADER);
  }

  lemma InsideMeans(line: string)
    requires Inside(line)
    ensures IsLine(line) && !IsServerHeader(line) && !EndsBlock(line) && !Contains(line, DOUBLE_TRIPLE)
  {
  }

  /** The lines of the updated text: the padded source, a blank line, the block, and the empty rest. */
  lemma UpdatedLines(lines: seq<string>, block: seq<string>)
    requires AreLines(lines) && AreLines(block)
    ensures Lines(Concat(lines) + "\n" + Concat(block)) == (lines + ["\n"]) + (block + [""])
  {
    hide Lines;
    ConcatSnoc(lines, "\n");
    LinesAfter(lines + ["\n"], Concat(block));
    LinesOfLines(block);
  }

  lemma TailIsInside(block: seq<string>)
    requires block != [] && AllInside(block[1..])
    ensures forall k :: 1 <= k < |block| + 1 ==> !IsServerHeader((block + [""])[k]) && !EndsBlock((block + [""])[k])
  {
    hide Inside, TableHeader, AnyHeader;
    EmptyLineIsBody();
    forall k | 1 <= k < |block| + 1 ensures !IsServerHeader((block + [""])[k]) && !EndsBlock((block + [""])[k]) {
      if k < |block| {
        InsideMeans(block[1..][k - 1]);
      }
    }
  }

  /** The appended block is the last one and reaches to the end of the text. */
  lemma LastBlock(before: seq<string>, block: seq<string>)
    requires block != [] && IsServerHeader(block[0]) && AllInside(block[1..])
    ensures Starts(before + (block + [""])) == Starts(before) + [|before|]
    ensures BlockAt(before + (block + [""]), |before|) == Block(|before|, |before| + |block| + 1)
  {
    hide Starts, Lines, IsServerHeader, EndsBlock, Inside;
    var tail, lines := block + [""], before + (block + [""]);
    TailIsInside(block);
    StartsAppend(before, tail);
    forall k | |before| + 1 <= k < |lines| ensures !EndsBlock(lines[k]) {
      assert lines[k] == tail[k - |before|];
    }
  }

  /** Removing the appended block again, with the refusal in terms of the block's text. */
  lemma RemoveBlock(source: string, servers: seq<string>, s: Server)
    requires ServerLines(s).Some? && s.name !in servers
    ensures var block := Concat(ServerLines(s).value);
      Removed(Padded(source) + "\n" + block, servers + [s.name], s.name) ==
        if HasTriple(source) || Contains(block, SINGLE_TRIPLE) then Err(MultilineStrings)
        else if |Starts(Lines(source))| != |servers| then Err(BlockNotLocated)
        else Ok(Padded(source) + "\n")
  {
    hide ServerLines, Lines, Starts, Inside, TableHeader, AnyHeader;
    var lines := PaddedLines(source);
    var block := ServerLines(s).value;
    ServerLinesInside(s);
    ServerHeaderIsOne();
    BlockHasNoTriple(s);
    TripleOfParts(source, lines, Concat(block));
    UpdatedLines(lines, block);
    LastBlock(lines + ["\n"], block);
    EmptyLineIsBody();
    StartsSnoc(lines, "\n");
    PositionOfLast(servers, s.name);
    ConcatSnoc(lines, "\n");
    var all := (lines + ["\n"]) + (block + [""]);
    assert all[..|lines| + 1] == lines + ["\n"] && all[|all|..] == [];
    assert (lines + ["\n"]) + [] == lines + ["\n"];
  }

  lemma PositionOfLast(servers: seq<string>, name: string)
    requires name !in servers
    ensures Position(servers + [name], name) == |servers|
  {
    var i := Position(servers + [name], name);
    assert (servers + [name])[|servers|] == name;
    assert forall k :: 0 <= k < |servers| ==> (servers + [name])[k] == servers[k];
  }

  lemma TripleOfParts(source: string, lines: seq<string>, block: string)
    requires AreLines(lines) && Padded(source) == Concat(lines) && !Contains(block, DOUBLE_TRIPLE)
    ensures HasTriple(Concat(lines) + "\n" + block) <==> HasTriple(source) || Contains(block, SINGLE_TRIPLE)
  {
    LinesEndInBreak(lines);
    forall t | t == DOUBLE_TRIPLE || t == SINGLE_TRIPLE
      ensures Contains(Concat(lines) + "\n" + block, t) <==> Contains(source, t) || Contains(block, t)
    {
      assert forall i :: 0 <= i < 3 ==> t[i] != '\n';
      NoTripleInBreak(t);
      ContainsAcrossBreak(Concat(lines), "\n", t);
      ContainsAcrossBreak(Concat(lines) + "\n", block, t);
      PaddingAddsNoTriple(source, t);
    }
  }

  lemma NoTripleInBreak(t: string)
    requires |t| == 3
    ensures !Contains("\n", t)
  {
  }

  lemma PaddingAddsNoTriple(source: string, t: string)
    requires |t| == 3 && forall i :: 0 <= i < 3 ==> t[i] != '\n'
    ensures Contains(Padded(source), t) <==> Contains(source, t)
  {
    var padded := Padded(source);
    if Contains(padded, t) {
      var i :| 0 <= i <= |padded| && OccursAt(padded, t, i);
      OccurrenceHasNoBreak(padded, t, i);
      assert |padded| > |source| ==> padded[|padded| - 1] == '\n';
      assert i + 3 <= |source|;
      assert source[i..i + 3] == padded[i..i + 3];
      assert OccursAt(source, t, i);
    }
    if Contains(source, t) {
      var i :| 0 <= i <= |source| && OccursAt(source, t, i);
      assert padded[i..i + 3] == source[i..i + 3];
      assert OccursAt(padded, t, i);
    }
  }

  // ---- three single quotes in a row ----

  /** The texts a server's block writes between quotes. */
  function Values(s: Server): seq<string> {
    if s.http then [s.name, s.url] + Optional(s.bearer != "", s.bearer)
    else [s.name, s.command] + s.args + Optional(s.workingDir != "", s.workingDir) + EnvTexts(s.env)
  }

  function EnvTexts(env: seq<(string, string)>): seq<string> {
    if env == [] then [] else EnvTexts(env[..|env| - 1]) + [env[|env| - 1].0, env[|env| - 1].1]
  }

  /** Some value has three single quotes in a row. */
  predicate ShowsTriple(s: Server) {
    exists i :: 0 <= i < |Values(s)| && Contains(Values(s)[i], SINGLE_TRIPLE)
  }

  /** Three equal quotes in a row do not straddle a seam without one. */
  lemma SeamSplits(a: string, b: string, t: string, i: nat)
    requires IsQuotes(t) && i <= |a + b| && OccursAt(a + b, t, i)
    requires a == "" || b == "" || a[|a| - 1] != t[0] || b[0] != t[0]
    ensures if i + 3 <= |a| then OccursAt(a, t, i) else |a| <= i && OccursAt(b, t, i - |a|)
  {
    var s := a + b;
    QuotesAt(s, t, i);
    if a != "" && b != "" {
      assert s[|a| - 1] == a[|a| - 1] && s[|a|] == b[0];
    }
    if i + 3 <= |a| {
      assert a[i..i + 3] == s[i..i + 3];
    } else {
      assert b[i - |a|..i - |a| + 3] == s[i..i + 3];
    }
  }

  /** Text pieces that do not meet in two single quotes. */
  lemma ContainsSeam(a: string, b: string)
    requires a == "" || b == "" || a[|a| - 1] != '\'' || b[0] != '\''
    ensures Contains(a + b, SINGLE_TRIPLE) <==> Contains(a, SINGLE_TRIPLE) || Contains(b, SINGLE_TRIPLE)
  {
    hide OccursAt;
    var s, t := a + b, SINGLE_TRIPLE;
    if Contains(s, t) {
      var i: nat :| i <= |s| && OccursAt(s, t, i);
      SeamSplits(a, b, t, i);
      assert i + 3 <= |a| ==> OccursAt(a, t, i);
    }
    ContainsStays(a, b, SINGLE_TRIPLE);
  }

  predicate NoSingle(s: string) {
    forall i :: 0 <= i < |s| ==> s[i] != '\''
  }

  lemma NoSingleNoTriple(s: string)
    requires NoSingle(s)
    ensures !Contains(s, SINGLE_TRIPLE)
  {
    if Contains(s, SINGLE_TRIPLE) {
      var i: nat :| i <= |s| && OccursAt(s, SINGLE_TRIPLE, i);
      QuotesAt(s, SINGLE_TRIPLE, i);
    }
  }

  /** A piece without single quotes adds nothing, on either side. */
  lemma PlainPiece(a: string, b: string)
    requires NoSingle(a) || NoSingle(b)
    ensures Contains(a + b, SINGLE_TRIPLE) <==> Contains(a, SINGLE_TRIPLE) || Contains(b, SINGLE_TRIPLE)
    ensures NoSingle(a) ==> !Contains(a, SINGLE_TRIPLE)
    ensures NoSingle(b) ==> !Contains(b, SINGLE_TRIPLE)
  {
    ContainsSeam(a, b);
    if NoSingle(a) {
      NoSingleNoTriple(a);
    }
    if NoSingle(b) {
      NoSingleNoTriple(b);
    }
  }

  /** The last `n` characters are single quotes. */
  predicate EndsInSingles(s: string, n: nat) {
    n <= |s| && forall i :: |s| - n <= i < |s| ==> s[i] == '\''
  }

  lemma OneMoreSingle(s: string)
    ensures Contains(s + ['\''], SINGLE_TRIPLE) <==> Contains(s, SINGLE_TRIPLE) || EndsInSingles(s, 2)
  {
    var t := s + ['\''];
    if Contains(t, SINGLE_TRIPLE) {
      var i: nat :| i <= |t| && OccursAt(t, SINGLE_TRIPLE, i);
      QuotesAt(t, SINGLE_TRIPLE, i);
      if i + 3 <= |s| {
        assert s[i..i + 3] == t[i..i + 3];
        assert OccursAt(s, SINGLE_TRIPLE, i);
      }
    }
    ContainsStays(s, ['\''], SINGLE_TRIPLE);
    if EndsInSingles(s, 2) {
      assert t[|s| - 2..|s| + 1] == SINGLE_TRIPLE;
      assert OccursAt(t, SINGLE_TRIPLE, |s| - 2);
    }
  }

  /** Quoting neither makes nor breaks a run of single quotes. */
  lemma {:induction false} EscapedSingles(value: string)
    requires Escaped(value).Some?
    ensures var e := Escaped(value).value;
      && (Contains(e, SINGLE_TRIPLE) <==> Contains(value, SINGLE_TRIPLE))
      && (forall n :: 0 <= n <= 2 ==> (EndsInSingles(e, n) <==> EndsInSingles(value, n)))
  {
    if value != "" {
      hide Contains;
      var init, c := value[..|value| - 1], value[|value| - 1];
      EscapedSingles(init);
      InitLast(value);
      var e, x := Escaped(init).value, EscapeChar(c).value;
      if c == '\'' {
        OneMoreSingle(e);
        OneMoreSingle(init);
        EndsSnoc(e);
        EndsSnoc(init);
      } else {
        PlainPiece(e, x);
        PlainPiece(init, [c]);
        NoSingleEnd(e, x);
        NoSingleEnd(init, [c]);
      }
    }
  }

  lemma NoSingleEnd(s: string, x: string)
    requires x != "" && NoSingle(x)
    ensures forall n :: 0 <= n <= 2 ==> (EndsInSingles(s + x, n) <==> n == 0)
  {
    assert (s + x)[|s + x| - 1] == x[|x| - 1];
  }

  lemma EndsSnoc(s: string)
    ensures EndsInSingles(s + ['\''], 0) && EndsInSingles(s + ['\''], 1)
    ensures EndsInSingles(s + ['\''], 2) <==> EndsInSingles(s, 1)
  {
    if s != "" {
      assert (s + ['\''])[|s| - 1] == s[|s| - 1];
    }
  }

  lemma QuotedSingles(value: string)
    requires Quoted(value).Some?
    ensures Contains(Quoted(value).value, SINGLE_TRIPLE) <==> Contains(value, SINGLE_TRIPLE)
    ensures var q := Quoted(value).value; |q| >= 2 && q[0] == '"' && q[|q| - 1] == '"'
  {
    hide Contains;
    EscapedSingles(value);
    PlainPiece("\"", Escaped(value).value);
    PlainPiece("\"" + Escaped(value).value, "\"");
  }

  lemma AssignSingles(key: string, value: string)
    ensures Contains(Assign(key, value), SINGLE_TRIPLE) <==>
            Contains(key, SINGLE_TRIPLE) || Contains(value, SINGLE_TRIPLE)
  {
    hide Contains;
    PlainPiece(key, " = ");
    assert key + " = " != "" && (key + " = ")[|key| + 2] == ' ';
    ContainsSeam(key + " = ", value);
    PlainPiece(key + " = " + value, "\n");
  }

  lemma {:induction false} JoinSingles(values: seq<string>)
    requires JoinQuoted(values).Some?
    ensures Contains(JoinQuoted(values).value, SINGLE_TRIPLE) <==> !NoneContains(values, SINGLE_TRIPLE)
  {
    hide Contains, Quoted;
    if values == [] {
      NoSingleNoTriple("");
    } else {
      var init, last := values[..|values| - 1], values[|values| - 1];
      JoinSingles(init);
      QuotedSingles(last);
      InitLast(values);
      NoneSnoc(init, last);
      PlainPiece(JoinQuoted(init).value, ", ");
      ContainsSeam(JoinQuoted(init).value + ", ", Quoted(last).value);
    }
  }

  lemma NoneSnoc(lines: seq<string>, last: string)
    ensures NoneContains(lines + [last], SINGLE_TRIPLE) <==>
            NoneContains(lines, SINGLE_TRIPLE) && !Contains(last, SINGLE_TRIPLE)
  {
    hide Contains;
    assert (lines + [last])[|lines|] == last;
    assert forall i :: 0 <= i < |lines| ==> (lines + [last])[i] == lines[i];
  }

  lemma NoneJoin(a: seq<string>, b: seq<string>)
    ensures NoneContains(a + b, SINGLE_TRIPLE) <==> NoneContains(a, SINGLE_TRIPLE) && NoneContains(b, SINGLE_TRIPLE)
  {
    hide Contains;
    assert forall i :: 0 <= i < |a| ==> (a + b)[i] == a[i];
    assert forall i :: 0 <= i < |b| ==> (a + b)[|a| + i] == b[i];
  }

  lemma {:induction false} EnvSingles(env: seq<(string, string)>)
    requires EnvLines(env).Some?
    ensures NoneContains(EnvLines(env).value, SINGLE_TRIPLE) <==> NoneContains(EnvTexts(env), SINGLE_TRIPLE)
  {
    hide Contains, Assign, Quoted;
    if env != [] {
      var init, last := env[..|env| - 1], env[|env| - 1];
      EnvSingles(init);
      EnvNameSingles(last.0);
      QuotedSingles(last.1);
      AssignSingles(EnvName(last.0).value, Quoted(last.1).value);
      NoneSnoc(EnvLines(init).value, Assign(EnvName(last.0).value, Quoted(last.1).value));
      NoneSnoc(EnvTexts(init), last.0);
      NoneSnoc(EnvTexts(init) + [last.0], last.1);
      assert EnvTexts(env) == EnvTexts(init) + [last.0] + [last.1];
    }
  }

  lemma EnvNameSingles(name: string)
    requires EnvName(name).Some?
    ensures Contains(EnvName(name).value, SINGLE_TRIPLE) <==> Contains(name, SINGLE_TRIPLE)
  {
    hide Contains;
    if !BareKey(name) {
      QuotedSingles(name);
    }
  }

  /** The lines of one assignment, and of none. */
  lemma OneSingles(key: string, value: string)
    requires NoSingle(key)
    ensures NoneContains([Assign(key, value)], SINGLE_TRIPLE) <==> !Contains(value, SINGLE_TRIPLE)
    ensures NoneContains([], SINGLE_TRIPLE)
  {
    hide Contains;
    NoSingleNoTriple(key);
    AssignSingles(key, value);
    NoneSnoc([], Assign(key, value));
    assert [] + [Assign(key, value)] == [Assign(key, value)];
  }

  lemma PlainLine(line: string)
    requires NoSingle(line)
    ensures NoneContains([line], SINGLE_TRIPLE)
  {
    hide Contains;
    NoSingleNoTriple(line);
  }

  lemma SettingsSingles(s: Server)
    ensures NoneContains(Settings(s), SINGLE_TRIPLE)
  {
    hide Contains, Assign;
    var enabled := if s.enabled.Some? then [Assign("enabled", Bool(s.enabled.value))] else [];
    if s.enabled.Some? {
      NoSingleNoTriple(Bool(s.enabled.value));
      OneSingles("enabled", Bool(s.enabled.value));
    }
    NoSingleNoTriple(Decimal(s.timeout));
    OneSingles("connect_timeout_seconds", Decimal(s.timeout));
    NoneJoin(enabled, Optional(s.timeout > 0, Assign("connect_timeout_seconds", Decimal(s.timeout))));
  }

  lemma HeaderSingles()
    ensures NoneContains([SERVER_HEADER], SINGLE_TRIPLE) && NoneContains(["\n", ENV_HEADER], SINGLE_TRIPLE)
    ensures NoneContains(["oauth = true\n"], SINGLE_TRIPLE) && NoneContains([], SINGLE_TRIPLE)
  {
    hide Contains;
    PlainLine(SERVER_HEADER);
    PlainLine("oauth = true\n");
    NoSingleNoTriple("\n");
    NoSingleNoTriple(ENV_HEADER);
  }

  lemma TextSingles(key: string, value: string)
    requires NoSingle(key) && Quoted(value).Some?
    ensures NoneContains([Assign(key, Quoted(value).value)], SINGLE_TRIPLE) <==> NoneContains([value], SINGLE_TRIPLE)
  {
    hide Contains, Quoted, Assign;
    QuotedSingles(value);
    OneSingles(key, Quoted(value).value);
    NoneSnoc([], value);
    assert [] + [value] == [value];
  }

  lemma ListSingles(values: seq<string>)
    requires JoinQuoted(values).Some?
    ensures NoneContains([Assign("args", "[" + JoinQuoted(values).value + "]")], SINGLE_TRIPLE) <==>
            NoneContains(values, SINGLE_TRIPLE)
  {
    hide Contains, JoinQuoted, Assign;
    var v := JoinQuoted(values).value;
    JoinSingles(values);
    PlainPiece("[", v);
    PlainPiece("[" + v, "]");
    OneSingles("args", "[" + v + "]");
  }

  lemma HttpSingles(s: Server)
    requires s.http && ServerLines(s).Some?
    ensures NoneContains(ServerLines(s).value, SINGLE_TRIPLE) <==> NoneContains(Values(s), SINGLE_TRIPLE)
  {
    hide NoneContains, Assign, Quoted, Settings;
    HeaderSingles();
    TextSingles("name", s.name);
    PlainTransport();
    TextSingles("url", s.url);
    if s.bearer != "" {
      TextSingles("bearer_token_env_var", s.bearer);
    }
    SettingsSingles(s);
    var name, kind, url := [Assign("name", Quoted(s.name).value)], [Assign("type", "\"streamable_http\"")],
      [Assign("url", Quoted(s.url).value)];
    var bearer := if s.bearer != "" then [Assign("bearer_token_env_var", Quoted(s.bearer).value)] else [];
    var oauth := Optional(s.oauth, "oauth = true\n");
    NoneJoin([SERVER_HEADER], name);
    NoneJoin([SERVER_HEADER] + name, kind);
    NoneJoin([SERVER_HEADER] + name + kind, url);
    NoneJoin([SERVER_HEADER] + name + kind + url, bearer);
    NoneJoin([SERVER_HEADER] + name + kind + url + bearer, oauth);
    NoneJoin([SERVER_HEADER] + name + kind + url + bearer + oauth, Settings(s));
    assert ServerLines(s).value == [SERVER_HEADER] + name + kind + url + bearer + oauth + Settings(s);
    NoneJoin([s.name], [s.url]);
    NoneJoin([s.name] + [s.url], Optional(s.bearer != "", s.bearer));
    assert Values(s) == [s.name] + [s.url] + Optional(s.bearer != "", s.bearer);
  }

  lemma PlainTransport()
    ensures NoneContains([Assign("type", "\"streamable_http\"")], SINGLE_TRIPLE)
  {
    hide Contains, Assign;
    NoSingleNoTriple("\"streamable_http\"");
    OneSingles("type", "\"streamable_http\"");
  }

  lemma StdioSingles(s: Server)
    requires !s.http && ServerLines(s).Some?
    ensures NoneContains(ServerLines(s).value, SINGLE_TRIPLE) <==> NoneContains(Values(s), SINGLE_TRIPLE)
  {
    hide NoneContains, Assign, Quoted, JoinQuoted, EnvLines, EnvTexts, Settings;
    HeaderSingles();
    TextSingles("name", s.name);
    TextSingles("command", s.command);
    ArgsSingles(s.args);
    if s.workingDir != "" {
      TextSingles("working_dir", s.workingDir);
    }
    SettingsSingles(s);
    EnvBlockSingles(s.env);
    var name, command := [Assign("name", Quoted(s.name).value)], [Assign("command", Quoted(s.command).value)];
    var args := Optional(s.args != [], Assign("args", "[" + JoinQuoted(s.args).value + "]"));
    var dir := if s.workingDir != "" then [Assign("working_dir", Quoted(s.workingDir).value)] else [];
    var env := if s.env == [] then [] else ["\n", ENV_HEADER] + EnvLines(s.env).value;
    NoneJoin([SERVER_HEADER], name);
    NoneJoin([SERVER_HEADER] + name, command);
    NoneJoin([SERVER_HEADER] + name + command, args);
    NoneJoin([SERVER_HEADER] + name + command + args, dir);
    NoneJoin([SERVER_HEADER] + name + command + args + dir, Settings(s));
    NoneJoin([SERVER_HEADER] + name + command + args + dir + Settings(s), env);
    assert ServerLines(s).value == [SERVER_HEADER] + name + command + args + dir + Settings(s) + env;
    StdioValues(s);
  }

  lemma StdioValues(s: Server)
    requires !s.http
    ensures NoneContains(Values(s), SINGLE_TRIPLE) <==>
            && NoneContains([s.name], SINGLE_TRIPLE) && NoneContains([s.command], SINGLE_TRIPLE)
            && NoneContains(s.args, SINGLE_TRIPLE)
            && NoneContains(Optional(s.workingDir != "", s.workingDir), SINGLE_TRIPLE)
            && NoneContains(EnvTexts(s.env), SINGLE_TRIPLE)
  {
    hide NoneContains, EnvTexts;
    var dir := Optional(s.workingDir != "", s.workingDir);
    NoneJoin([s.name], [s.command]);
    NoneJoin([s.name] + [s.command], s.args);
    NoneJoin([s.name] + [s.command] + s.args, dir);
    NoneJoin([s.name] + [s.command] + s.args + dir, EnvTexts(s.env));
    assert Values(s) == [s.name] + [s.command] + s.args + dir + EnvTexts(s.env);
  }

  lemma ArgsSingles(args: seq<string>)
    requires JoinQuoted(args).Some?
    ensures NoneContains(Optional(args != [], Assign("args", "[" + JoinQuoted(args).value + "]")), SINGLE_TRIPLE)
       <==> NoneContains(args, SINGLE_TRIPLE)
  {
    hide Contains, JoinQuoted, Assign;
    ListSingles(args);
  }

  lemma EnvBlockSingles(env: seq<(string, string)>)
    requires EnvLines(env).Some?
    ensures NoneContains(if env == [] then [] else ["\n", ENV_HEADER] + EnvLines(env).value, SINGLE_TRIPLE)
       <==> NoneContains(EnvTexts(env), SINGLE_TRIPLE)
  {
    hide Contains;
    HeaderSingles();
    EnvSingles(env);
    NoneJoin(["\n", ENV_HEADER], EnvLines(env).value);
  }

  /** A block shows three single quotes in a row exactly when one of the server's values does. */
  lemma BlockShowsValues(s: Server)
    requires ServerLines(s).Some?
    ensures Contains(Concat(ServerLines(s).value), SINGLE_TRIPLE) <==> ShowsTriple(s)
  {
    hide Contains, ServerLines, Values, IsLine;
    if s.http {
      HttpSingles(s);
    } else {
      StdioSingles(s);
    }
    BlockHasNoTriple(s);
    ConcatLacks(ServerLines(s).value, SINGLE_TRIPLE);
  }

  // ---- removing again ----

  /** Removing a server that was just appended gives back the source and newline padding. It is
      refused exactly when three quotes in a row stand in the source or three single ones in a value
      of the server, or the blocks were not the servers'. */
  lemma RemoveUndoesAppend(source: string, servers: seq<string>, s: Server)
    requires ServerLines(s).Some? && s.name !in servers
    ensures Removed(Padded(source) + "\n" + Concat(ServerLines(s).value), servers + [s.name], s.name) ==
        if HasTriple(source) || ShowsTriple(s) then Err(MultilineStrings)
        else if |Starts(Lines(source))| != |servers| then Err(BlockNotLocated)
        else Ok(Padded(source) + "\n")
  {
    hide *;
    BlockShowsValues(s);
    RemoveBlock(source, servers, s);
  }

  /** A server whose argument is three single quotes can be appended but not removed again. */
  lemma ThreeQuotesCannotBeRemoved()
    ensures var s := Server("a", false, "", "", false, "b", ["'''"], "", None, 0, []);
      && ServerLines(s).Some? && ShowsTriple(s)
      && Removed(Padded("") + "\n" + Concat(ServerLines(s).value), [] + [s.name], s.name) == Err(MultilineStrings)
  {
    var s := Server("a", false, "", "", false, "b", ["'''"], "", None, 0, []);
    QuotedPlain("a");
    QuotedPlain("b");
    QuotedPlain("'''");
    assert JoinQuoted([]) == Some("") && ["'''"][..0] == [];
    assert JoinQuoted(["'''"]).Some?;
    assert Values(s)[2] == "'''" && OccursAt("'''", SINGLE_TRIPLE, 0);
    hide *;
    RemoveUndoesAppend("", [], s);
  }

  lemma {:induction false} QuotedPlain(value: string)
    requires forall i :: 0 <= i < |value| ==> ' ' <= value[i] < (0x7f as char)
    ensures Quoted(value).Some?
  {
    EscapedPlain(value);
  }

  lemma {:induction false} EscapedPlain(value: string)
    requires forall i :: 0 <= i < |value| ==> ' ' <= value[i] < (0x7f as char)
    ensures Escaped(value).Some?
  {
    if value != "" {
      EscapedPlain(value[..|value| - 1]);
    }
  }
}
