/** What a reader of the text finds in a block that the editor has written: TOML v1.0.0, sections "Key/Value Pair",
    "Keys", "String", "Array", "Integer" and "Boolean", as far as the editor uses them. */
module TomlRead {
  import opened Ids
  import opened Text
  import opened TomlEdit
  import opened TomlAppend

  datatype Value = Text(text: string) | Flag(flag: bool) | Number(number: nat) | List(items: seq<string>)

  // ---- reading one line ----

  lemma {:induction false} ReadingShrinks(s: string)
    ensures ReadBasic(s).Some? ==> |ReadBasic(s).value.1| < |s|
    decreases |s|
  {
    if s != "" && s[0] == '\\' && |s| > 1 {
      ReadingShrinks(s[2..]);
    } else if s != "" {
      ReadingShrinks(s[1..]);
    }
  }

  /** The items of a list and its closing bracket. */
  function ReadItems(s: string): Option<seq<string>>
    decreases |s|
  {
    if s == "" || s[0] != '"' || ReadBasic(s[1..]).None? then None else
      var (item, rest) := ReadBasic(s[1..]).value;
      ReadingShrinks(s[1..]);
      if rest == "]\n" then Some([item])
      else if !(", " <= rest) || ReadItems(rest[2..]).None? then None
      else Some([item] + ReadItems(rest[2..]).value)
  }

  predicate Digits(s: string) {
    s != "" && forall i :: 0 <= i < |s| ==> '0' <= s[i] <= '9'
  }

  function ReadDecimal(s: string): nat
    requires forall i :: 0 <= i < |s| ==> '0' <= s[i] <= '9'
  {
    if s == "" then 0 else 10 * ReadDecimal(s[..|s| - 1]) + (s[|s| - 1] as nat - '0' as nat)
  }

  /** A value and the line break after it. */
  function ReadValue(s: string): Option<Value> {
    if s == "" then None
    else if s[0] == '"' then
      var r := ReadBasic(s[1..]);
      if r.Some? && r.value.1 == "\n" then Some(Text(r.value.0)) else None
    else if s[0] == '[' then
      var r := ReadItems(s[1..]);
      if r.Some? then Some(List(r.value)) else None
    else if s == "true\n" then Some(Flag(true))
    else if s == "false\n" then Some(Flag(false))
    else if s[|s| - 1] == '\n' && Digits(s[..|s| - 1]) then Some(Number(ReadDecimal(s[..|s| - 1])))
    else None
  }

  predicate BareChar(c: char) {
    BareKey([c])
  }

  /** The bare key at the start of the text. */
  function BareLength(s: string): (n: nat)
    ensures n <= |s|
  {
    if s == "" || !BareChar(s[0]) then 0 else 1 + BareLength(s[1..])
  }

  function ReadKey(s: string): Option<(string, string)> {
    if s != "" && s[0] == '"' then ReadBasic(s[1..])
    else
      var n := BareLength(s);
      if n == 0 then None else Some((s[..n], s[n..]))
  }

  function ReadLine(line: string): Option<(string, Value)> {
    var key := ReadKey(line);
    if key.None? || !(" = " <= key.value.1) || ReadValue(key.value.1[3..]).None? then None
    else Some((key.value.0, ReadValue(key.value.1[3..]).value))
  }

  function ReadTable(lines: seq<string>): Option<seq<(string, Value)>> {
    if lines == [] then Some([]) else
      var first, rest := ReadLine(lines[0]), ReadTable(lines[1..]);
      if first.None? || rest.None? then None else Some([first.value] + rest.value)
  }

  /** Everything a table assigns to a key; a valid table assigns to it at most once. */
  function Assigned(table: seq<(string, Value)>, key: string): seq<Value> {
    if table == [] then [] else
      (if table[0].0 == key then [table[0].1] else []) + Assigned(table[1..], key)
  }

  // ---- lines of the editor ----

  lemma QuotedText(value: string, rest: string)
    requires Quoted(value).Some?
    ensures var s := Quoted(value).value + rest; s != "" && s[0] == '"' && ReadBasic(s[1..]) == Some((value, rest))
  {
    var s := Quoted(value).value + rest;
    assert s[1..] == Escaped(value).value + ("\"" + rest);
    QuotedReadsBack(value, rest);
  }

  lemma TextReads(value: string)
    requires Quoted(value).Some?
    ensures ReadValue(Quoted(value).value + "\n") == Some(Text(value))
  {
    QuotedText(value, "\n");
  }

  lemma {:induction false} DecimalReads(n: nat)
    ensures ReadDecimal(Decimal(n)) == n
  {
    var s := Decimal(n);
    if n >= 10 {
      DecimalReads(n / 10);
      assert s[..|s| - 1] == Decimal(n / 10);
    }
  }

  lemma NumberReads(n: nat)
    ensures ReadValue(Decimal(n) + "\n") == Some(Number(n))
  {
    var s := Decimal(n) + "\n";
    assert s[..|s| - 1] == Decimal(n);
    assert s[0] == Decimal(n)[0];
    DecimalReads(n);
  }

  lemma FlagReads(b: bool)
    ensures ReadValue(Bool(b) + "\n") == Some(Flag(b))
  {
    assert "true" + "\n" == "true\n" && "false" + "\n" == "false\n";
  }

  lemma {:induction false} JoinCons(value: string, values: seq<string>)
    requires JoinQuoted([value] + values).Some?
    ensures Quoted(value).Some? && JoinQuoted(values).Some?
    ensures JoinQuoted([value] + values).value ==
            if values == [] then Quoted(value).value else Quoted(value).value + (", " + JoinQuoted(values).value)
  {
    var all := [value] + values;
    if values == [] {
      assert all[..0] == [];
    } else {
      var init, last := values[..|values| - 1], values[|values| - 1];
      assert all[..|all| - 1] == [value] + init && all[|all| - 1] == last;
      JoinCons(value, init);
      hide Quoted;
      if init != [] {
        JoinTail(Quoted(value).value, JoinQuoted(init).value, Quoted(last).value);
      }
    }
  }

  lemma JoinTail(first: string, middle: string, last: string)
    ensures first + (", " + middle) + ", " + last == first + (", " + (middle + ", " + last))
  {
  }

  lemma {:induction false} ItemsRead(values: seq<string>)
    requires values != [] && JoinQuoted(values).Some?
    ensures ReadItems(JoinQuoted(values).value + "]\n") == Some(values)
    decreases |values|
  {
    var value, more := values[0], values[1..];
    assert values == [value] + more;
    JoinCons(value, more);
    var q := Quoted(value).value;
    var s := JoinQuoted(values).value + "]\n";
    hide Quoted, ReadBasic, JoinQuoted;
    if more == [] {
      assert s == q + "]\n" && values == [value];
      QuotedText(value, "]\n");
    } else {
      var tail := JoinQuoted(more).value + "]\n";
      var rest := ", " + tail;
      assert s == q + rest;
      QuotedText(value, rest);
      assert rest[2..] == tail && rest[0] == ',' && ", " <= rest;
      ItemsRead(more);
    }
  }

  lemma ListReads(values: seq<string>)
    requires values != [] && JoinQuoted(values).Some?
    ensures ReadValue("[" + JoinQuoted(values).value + "]" + "\n") == Some(List(values))
  {
    var s := "[" + JoinQuoted(values).value + "]" + "\n";
    assert s[1..] == JoinQuoted(values).value + "]\n";
    ItemsRead(values);
  }

  lemma {:induction false} BareReads(key: string, rest: string)
    requires (forall i :: 0 <= i < |key| ==> BareChar(key[i])) && rest != "" && !BareChar(rest[0])
    ensures BareLength(key + rest) == |key|
  {
    hide BareChar;
    if key == "" {
      assert key + rest == rest;
    } else {
      var more := key[1..];
      assert forall i :: 0 <= i < |more| ==> more[i] == key[i + 1];
      assert (key + rest)[1..] == key[1..] + rest;
      BareReads(key[1..], rest);
    }
  }

  lemma BareLineReads(key: string, value: string, v: Value)
    requires BareKey(key) && ReadValue(value + "\n") == Some(v)
    ensures ReadLine(Assign(key, value)) == Some((key, v))
  {
    hide ReadValue;
    var line, rest := Assign(key, value), " = " + value + "\n";
    assert line == key + rest && rest[3..] == value + "\n";
    forall i | 0 <= i < |key| ensures BareChar(key[i]) {
      assert [key[i]][0] == key[i];
    }
    assert [rest[0]][0] == ' ' && !BareChar(rest[0]);
    BareReads(key, rest);
    assert line[0] == key[0] && line[..|key|] == key && line[|key|..] == rest;
  }

  lemma QuotedLineReads(key: string, value: string, v: Value)
    requires Quoted(key).Some? && ReadValue(value + "\n") == Some(v)
    ensures ReadLine(Assign(Quoted(key).value, value)) == Some((key, v))
  {
    hide ReadValue, Quoted;
    var line, rest := Assign(Quoted(key).value, value), " = " + value + "\n";
    assert line == Quoted(key).value + rest && rest[3..] == value + "\n";
    QuotedText(key, rest);
  }

  // ---- tables ----

  lemma {:induction false} TableAppend(a: seq<string>, b: seq<string>)
    requires ReadTable(a).Some? && ReadTable(b).Some?
    ensures ReadTable(a + b) == Some(ReadTable(a).value + ReadTable(b).value)
  {
    hide ReadLine;
    if a == [] {
      assert a + b == b && [] + ReadTable(b).value == ReadTable(b).value;
    } else {
      TableAppend(a[1..], b);
      assert (a + b)[1..] == a[1..] + b && (a + b)[0] == a[0];
      ConcatAssoc([ReadLine(a[0]).value], ReadTable(a[1..]).value, ReadTable(b).value);
    }
  }

  lemma {:induction false} AssignedAppend(a: seq<(string, Value)>, b: seq<(string, Value)>, key: string)
    ensures Assigned(a + b, key) == Assigned(a, key) + Assigned(b, key)
  {
    if a == [] {
      assert a + b == b;
    } else {
      AssignedAppend(a[1..], b, key);
      assert (a + b)[1..] == a[1..] + b && (a + b)[0] == a[0];
      ConcatAssoc(if a[0].0 == key then [a[0].1] else [], Assigned(a[1..], key), Assigned(b, key));
    }
  }

  /** `lines` assign exactly these values, each to its own key. */
  ghost predicate Reads(lines: seq<string>, expected: map<string, Value>) {
    var table := ReadTable(lines);
    && table.Some?
    && forall key :: Assigned(table.value, key) == if key in expected then [expected[key]] else []
  }

  lemma ReadsOne(line: string, key: string, v: Value)
    requires ReadLine(line) == Some((key, v))
    ensures Reads([line], map[key := v])
  {
    var lines, table := [line], [(key, v)];
    assert lines[1..] == [] && ReadTable(lines[1..]) == Some([]);
    assert table + [] == table && table[1..] == [];
    assert ReadTable(lines) == Some(table);
  }

  lemma ReadsNothing()
    ensures Reads([], map[])
  {
  }

  lemma ReadsMore(a: seq<string>, b: seq<string>, m: map<string, Value>, n: map<string, Value>)
    requires Reads(a, m) && Reads(b, n) && m.Keys !! n.Keys
    ensures Reads(a + b, m + n)
  {
    TableAppend(a, b);
    forall key {
      AssignedAppend(ReadTable(a).value, ReadTable(b).value, key);
    }
  }

  lemma ReadsOptional(present: bool, line: string, key: string, v: Value)
    requires ReadLine(line) == Some((key, v))
    ensures Reads(Optional(present, line), if present then map[key := v] else map[])
  {
    ReadsOne(line, key, v);
    ReadsNothing();
  }

  // ---- the block of a server ----

  function Only(present: bool, key: string, v: Value): map<string, Value> {
    if present then map[key := v] else map[]
  }

  /** What a reader gets of a server; what its transport does not use is not written. */
  function Expected(s: Server): map<string, Value> {
    (if s.http then
       map["name" := Text(s.name), "type" := Text("streamable_http"), "url" := Text(s.url)] + HttpOptions(s)
     else map["name" := Text(s.name), "command" := Text(s.command)] + StdioOptions(s))
    + CommonOptions(s)
  }

  function HttpOptions(s: Server): map<string, Value> {
    Only(s.bearer != "", "bearer_token_env_var", Text(s.bearer)) + Only(s.oauth, "oauth", Flag(true))
  }

  function StdioOptions(s: Server): map<string, Value> {
    Only(s.args != [], "args", List(s.args)) + Only(s.workingDir != "", "working_dir", Text(s.workingDir))
  }

  function CommonOptions(s: Server): map<string, Value> {
    (if s.enabled.Some? then map["enabled" := Flag(s.enabled.value)] else map[])
    + Only(s.timeout > 0, "connect_timeout_seconds", Number(s.timeout))
  }

  function EnvTable(env: seq<(string, string)>): seq<(string, Value)> {
    if env == [] then [] else [(env[0].0, Text(env[0].1))] + EnvTable(env[1..])
  }

  lemma SettingsRead(s: Server)
    ensures Reads(Settings(s), CommonOptions(s))
  {
    hide Reads, ReadLine, ReadValue, Assign;
    CommonKeysAreBare();
    var first := if s.enabled.Some? then [Assign("enabled", Bool(s.enabled.value))] else [];
    var flag := if s.enabled.Some? then map["enabled" := Flag(s.enabled.value)] else map[];
    if s.enabled.Some? {
      FlagReads(s.enabled.value);
      BareLineReads("enabled", Bool(s.enabled.value), Flag(s.enabled.value));
      ReadsOne(first[0], "enabled", Flag(s.enabled.value));
    } else {
      ReadsNothing();
    }
    NumberReads(s.timeout);
    BareLineReads("connect_timeout_seconds", Decimal(s.timeout), Number(s.timeout));
    var line := Assign("connect_timeout_seconds", Decimal(s.timeout));
    ReadsOptional(s.timeout > 0, line, "connect_timeout_seconds", Number(s.timeout));
    ReadsMore(first, Optional(s.timeout > 0, line), flag,
              Only(s.timeout > 0, "connect_timeout_seconds", Number(s.timeout)));
  }

  lemma CommonKeysAreBare()
    ensures BareKey("name") && BareKey("enabled") && BareKey("connect_timeout_seconds")
  {
  }

  lemma StdioKeysAreBare()
    ensures BareKey("command") && BareKey("args") && BareKey("working_dir")
  {
  }

  lemma HttpKeysAreBare()
    ensures BareKey("type") && BareKey("url") && BareKey("bearer_token_env_var") && BareKey("oauth")
  {
  }

  lemma TextLine(key: string, value: string)
    requires BareKey(key) && Quoted(value).Some?
    ensures Reads([Assign(key, Quoted(value).value)], map[key := Text(value)])
  {
    hide Reads, ReadLine, ReadValue, Assign;
    TextReads(value);
    BareLineReads(key, Quoted(value).value, Text(value));
    ReadsOne(Assign(key, Quoted(value).value), key, Text(value));
  }

  lemma StdioReads(s: Server)
    requires Quoted(s.name).Some? && Quoted(s.command).Some? && JoinQuoted(s.args).Some?
    requires s.workingDir != "" ==> Quoted(s.workingDir).Some?
    ensures Reads(CommandPart(s), map["name" := Text(s.name), "command" := Text(s.command)] + StdioOptions(s))
  {
    hide Reads, ReadLine, ReadValue, Assign, Quoted, JoinQuoted;
    CommonKeysAreBare();
    StdioKeysAreBare();
    TextLine("name", s.name);
    TextLine("command", s.command);
    ReadsNothing();
    var name, command := [Assign("name", Quoted(s.name).value)], [Assign("command", Quoted(s.command).value)];
    ReadsMore(name, command, map["name" := Text(s.name)], map["command" := Text(s.command)]);
    var list := "[" + JoinQuoted(s.args).value + "]";
    if s.args != [] {
      ListReads(s.args);
      BareLineReads("args", list, List(s.args));
      ReadsOne(Assign("args", list), "args", List(s.args));
    }
    var args := Optional(s.args != [], Assign("args", list));
    assert Reads(args, Only(s.args != [], "args", List(s.args)));
    var head := map["name" := Text(s.name), "command" := Text(s.command)];
    assert head == map["name" := Text(s.name)] + map["command" := Text(s.command)];
    ReadsMore(name + command, args, head, Only(s.args != [], "args", List(s.args)));
    var dir := if s.workingDir != "" then [Assign("working_dir", Quoted(s.workingDir).value)] else [];
    if s.workingDir != "" {
      TextLine("working_dir", s.workingDir);
    }
    ReadsMore(name + command + args, dir, head + Only(s.args != [], "args", List(s.args)),
              Only(s.workingDir != "", "working_dir", Text(s.workingDir)));
    assert CommandPart(s) == name + command + args + dir;
    MapAssoc(head, Only(s.args != [], "args", List(s.args)),
             Only(s.workingDir != "", "working_dir", Text(s.workingDir)));
  }

  lemma MapAssoc(a: map<string, Value>, b: map<string, Value>, c: map<string, Value>)
    ensures (a + b) + c == a + (b + c)
  {
  }

  lemma TransportReads()
    ensures Reads([Assign("type", "\"streamable_http\"")], map["type" := Text("streamable_http")])
  {
    hide Reads, ReadLine, ReadValue, Assign;
    HttpKeysAreBare();
    TransportIsQuoted("streamable_http");
    assert "\"" + "streamable_http" + "\"" == "\"streamable_http\"";
    TextLine("type", "streamable_http");
  }

  /** What needs no escape is quoted as it is. */
  lemma {:induction false} TransportIsQuoted(value: string)
    requires BareKey(value) || value == ""
    ensures Escaped(value) == Some(value)
  {
    if value != "" {
      var init, last := value[..|value| - 1], value[|value| - 1];
      assert EscapeChar(last) == Some([last]) && value == init + [last];
      assert init != "" ==> BareKey(init);
      TransportIsQuoted(init);
    }
  }

  function BearerLines(s: Server): seq<string>
    requires s.bearer != "" ==> Quoted(s.bearer).Some?
  {
    if s.bearer != "" then [Assign("bearer_token_env_var", Quoted(s.bearer).value)] else []
  }

  lemma HttpOptionsRead(s: Server)
    requires s.bearer != "" ==> Quoted(s.bearer).Some?
    ensures Reads(BearerLines(s) + Optional(s.oauth, "oauth = true\n"), HttpOptions(s))
  {
    hide Reads, ReadLine, ReadValue, Assign, Quoted;
    HttpKeysAreBare();
    ReadsNothing();
    if s.bearer != "" {
      TextLine("bearer_token_env_var", s.bearer);
    }
    OauthReads();
    ReadsOptional(s.oauth, "oauth = true\n", "oauth", Flag(true));
    ReadsMore(BearerLines(s), Optional(s.oauth, "oauth = true\n"),
              Only(s.bearer != "", "bearer_token_env_var", Text(s.bearer)), Only(s.oauth, "oauth", Flag(true)));
  }

  lemma OauthReads()
    ensures ReadLine("oauth = true\n") == Some(("oauth", Flag(true)))
  {
    hide ReadLine, ReadValue;
    HttpKeysAreBare();
    FlagReads(true);
    BareLineReads("oauth", "true", Flag(true));
    assert Assign("oauth", "true") == "oauth = true\n";
  }

  lemma HttpLines(s: Server)
    requires s.http && ServerLines(s).Some?
    ensures Quoted(s.name).Some? && Quoted(s.url).Some? && (s.bearer != "" ==> Quoted(s.bearer).Some?)
    ensures ServerLines(s).value == [SERVER_HEADER] + ([Assign("name", Quoted(s.name).value)]
      + [Assign("type", "\"streamable_http\"")] + [Assign("url", Quoted(s.url).value)]
      + (BearerLines(s) + Optional(s.oauth, "oauth = true\n")) + Settings(s))
  {
    hide Assign, Quoted, Settings, Optional, JoinQuoted, EnvLines;
  }

  lemma HttpReads(s: Server) returns (own: seq<string>)
    requires s.http && ServerLines(s).Some?
    ensures ServerLines(s).value == [SERVER_HEADER] + own && Reads(own, Expected(s))
  {
    hide Reads, Assign, Quoted, Settings, HttpOptions, CommonOptions, Optional, ServerLines, BareKey, BearerLines;
    CommonKeysAreBare();
    HttpKeysAreBare();
    HttpLines(s);
    TextLine("name", s.name);
    TextLine("url", s.url);
    TransportReads();
    var name, url := [Assign("name", Quoted(s.name).value)], [Assign("url", Quoted(s.url).value)];
    var kind, options := [Assign("type", "\"streamable_http\"")], BearerLines(s) + Optional(s.oauth, "oauth = true\n");
    ReadsMore(name, kind, map["name" := Text(s.name)], map["type" := Text("streamable_http")]);
    var head := map["name" := Text(s.name)] + map["type" := Text("streamable_http")];
    ReadsMore(name + kind, url, head, map["url" := Text(s.url)]);
    HttpOptionsRead(s);
    SettingsRead(s);
    OptionKeys(s);
    head := head + map["url" := Text(s.url)];
    assert head == map["name" := Text(s.name), "type" := Text("streamable_http"), "url" := Text(s.url)];
    ReadsMore(name + kind + url, options, head, HttpOptions(s));
    ReadsMore(name + kind + url + options, Settings(s), head + HttpOptions(s), CommonOptions(s));
    own := name + kind + url + options + Settings(s);
  }

  lemma OptionKeys(s: Server)
    ensures HttpOptions(s).Keys <= {"bearer_token_env_var", "oauth"} && StdioOptions(s).Keys <= {"args", "working_dir"}
    ensures CommonOptions(s).Keys <= {"enabled", "connect_timeout_seconds"}
  {
  }

  // ---- the environment ----

  lemma EnvLineReads(name: string, value: string)
    requires EnvName(name).Some? && Quoted(value).Some?
    ensures ReadLine(Assign(EnvName(name).value, Quoted(value).value)) == Some((name, Text(value)))
  {
    hide ReadLine, ReadValue, Assign, Quoted;
    TextReads(value);
    if BareKey(name) {
      BareLineReads(name, Quoted(value).value, Text(value));
    } else {
      QuotedLineReads(name, Quoted(value).value, Text(value));
    }
  }

  lemma {:induction false} EnvReads(env: seq<(string, string)>)
    requires EnvLines(env).Some?
    ensures ReadTable(EnvLines(env).value) == Some(EnvTable(env))
  {
    hide ReadLine, Assign, Quoted, EnvName;
    if env != [] {
      var init, last := env[..|env| - 1], env[|env| - 1];
      EnvReads(init);
      EnvLineReads(last.0, last.1);
      var line := Assign(EnvName(last.0).value, Quoted(last.1).value);
      ReadsOneTable(line, (last.0, Text(last.1)));
      TableAppend(EnvLines(init).value, [line]);
      EnvTableSnoc(init, last);
      assert env == init + [last];
    }
  }

  lemma ReadsOneTable(line: string, entry: (string, Value))
    requires ReadLine(line) == Some(entry)
    ensures ReadTable([line]) == Some([entry])
  {
    hide ReadLine;
    var lines := [line];
    assert lines[1..] == [] && ReadTable(lines[1..]) == Some([]);
    assert [entry] + [] == [entry];
  }

  lemma {:induction false} EnvTableSnoc(env: seq<(string, string)>, last: (string, string))
    ensures EnvTable(env + [last]) == EnvTable(env) + [(last.0, Text(last.1))]
  {
    if env != [] {
      EnvTableSnoc(env[1..], last);
      assert (env + [last])[1..] == env[1..] + [last];
    } else {
      assert (env + [last])[1..] == [];
    }
  }

  // ---- what was written is what is read ----

  /** The block says which server it is, and no more: its own table assigns every setting of the server once, and
      nothing else; its environment follows in a table of its own, entry by entry. */
  lemma BlockReadsBack(s: Server) returns (own: seq<string>, env: seq<string>)
    requires ServerLines(s).Some?
    ensures ServerLines(s).value == [SERVER_HEADER] + own + if env == [] then [] else ["\n", ENV_HEADER] + env
    ensures Reads(own, Expected(s)) && ReadTable(env) == Some(if s.http then [] else EnvTable(s.env))
  {
    hide Reads, Quoted, Settings, StdioOptions, CommonOptions, CommandPart, Expected, ServerLines, Assign;
    if s.http {
      own := HttpReads(s);
      env := [];
    } else {
      own, env := StdioBlockReads(s);
    }
  }

  lemma StdioLines(s: Server)
    requires !s.http && ServerLines(s).Some?
    ensures Quoted(s.name).Some? && Quoted(s.command).Some? && JoinQuoted(s.args).Some? && EnvLines(s.env).Some?
    ensures s.workingDir != "" ==> Quoted(s.workingDir).Some?
    ensures ServerLines(s).value == [SERVER_HEADER] + (CommandPart(s) + Settings(s)) + EnvPart(s.env)
    ensures EnvLines(s.env).value == [] <==> s.env == []
  {
    hide Assign, Quoted, Settings, Optional, JoinQuoted, CommandPart, EnvName;
  }

  lemma StdioBlockReads(s: Server) returns (own: seq<string>, env: seq<string>)
    requires !s.http && ServerLines(s).Some?
    ensures ServerLines(s).value == [SERVER_HEADER] + own + if env == [] then [] else ["\n", ENV_HEADER] + env
    ensures Reads(own, Expected(s)) && ReadTable(env) == Some(EnvTable(s.env))
  {
    hide Reads, Quoted, Settings, StdioOptions, CommonOptions, CommandPart, EnvLines, ReadTable, ServerLines,
      JoinQuoted, EnvTable;
    StdioLines(s);
    own, env := CommandPart(s) + Settings(s), EnvLines(s.env).value;
    StdioReads(s);
    SettingsRead(s);
    OptionKeys(s);
    ReadsMore(CommandPart(s), Settings(s),
              map["name" := Text(s.name), "command" := Text(s.command)] + StdioOptions(s), CommonOptions(s));
    EnvReads(s.env);
  }

  // ---- which servers can be written ----

  /** Tabs are the only control characters. */
  predicate Clean(value: string) {
    forall i :: 0 <= i < |value| ==> (value[i] == '\t' || value[i] as int >= 0x20) && value[i] as int != 0x7f
  }

  ghost predicate AllClean(values: seq<string>) {
    forall i :: 0 <= i < |values| ==> Clean(values[i])
  }

  lemma {:induction false} CleanIsQuotable(value: string)
    ensures Quoted(value).Some? <==> Clean(value)
  {
    if value != "" {
      var init, last := value[..|value| - 1], value[|value| - 1];
      CleanIsQuotable(init);
      assert value == init + [last];
      assert Clean(value) <==> Clean(init) && Clean([last]);
      assert [last][0] == last;
    }
  }

  lemma CleanJoin(a: seq<string>, b: seq<string>)
    ensures AllClean(a + b) <==> AllClean(a) && AllClean(b)
  {
    hide Clean;
    assert forall i :: 0 <= i < |a| ==> (a + b)[i] == a[i];
    assert forall i :: 0 <= i < |b| ==> (a + b)[|a| + i] == b[i];
    if AllClean(a + b) {
      forall i | 0 <= i < |b| ensures Clean(b[i]) {
        assert Clean((a + b)[|a| + i]);
      }
    }
  }

  lemma {:induction false} CleanList(values: seq<string>)
    ensures JoinQuoted(values).Some? <==> AllClean(values)
  {
    hide Clean, Quoted;
    if values != [] {
      var init, last := values[..|values| - 1], values[|values| - 1];
      CleanList(init);
      CleanIsQuotable(last);
      CleanJoin(init, [last]);
      InitLast(values);
    }
  }

  lemma {:induction false} CleanEnv(env: seq<(string, string)>)
    ensures EnvLines(env).Some? <==> AllClean(EnvTexts(env))
  {
    hide Clean, Quoted;
    if env != [] {
      var init, last := env[..|env| - 1], env[|env| - 1];
      CleanEnv(init);
      CleanIsQuotable(last.0);
      CleanIsQuotable(last.1);
      BareIsClean(last.0);
      CleanJoin(EnvTexts(init), [last.0, last.1]);
      assert AllClean([last.0, last.1]) <==> Clean(last.0) && Clean(last.1) by {
        assert [last.0, last.1][0] == last.0 && [last.0, last.1][1] == last.1;
      }
    }
  }

  lemma BareIsClean(name: string)
    ensures BareKey(name) ==> Clean(name)
  {
  }

  /** A server can be written if and only if no text it writes has a control character other than a tab. */
  lemma WritableIffClean(s: Server)
    ensures ServerLines(s).Some? <==> AllClean(Values(s))
  {
    hide Clean, Quoted, JoinQuoted, EnvLines, EnvTexts, Assign;
    CleanIsQuotable(s.name);
    if s.http {
      CleanIsQuotable(s.url);
      CleanIsQuotable(s.bearer);
      CleanJoin([s.name, s.url], Optional(s.bearer != "", s.bearer));
      PairIsClean(s.name, s.url);
      PairIsClean(s.bearer, "");
    } else {
      CleanIsQuotable(s.command);
      CleanIsQuotable(s.workingDir);
      CleanList(s.args);
      CleanEnv(s.env);
      var dir := Optional(s.workingDir != "", s.workingDir);
      CleanJoin([s.name, s.command], s.args);
      CleanJoin([s.name, s.command] + s.args, dir);
      CleanJoin([s.name, s.command] + s.args + dir, EnvTexts(s.env));
      PairIsClean(s.name, s.command);
      PairIsClean(s.workingDir, "");
      assert AllClean(dir) <==> s.workingDir == "" || Clean(s.workingDir);
    }
  }

  lemma PairIsClean(a: string, b: string)
    ensures AllClean([a, b]) <==> Clean(a) && Clean(b)
    ensures AllClean([a]) <==> Clean(a)
  {
    assert [a, b][0] == a && [a, b][1] == b && [a][0] == a;
  }
}
