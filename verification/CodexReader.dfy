/**
 A config.toml as Codex reads it, line by line: the settings of a table are the lines behind its header, up to
 the next header. What an upsert wrote is read back, in whatever text.
 */
module CodexReader {
  import opened Wrappers
  import opened Text
  import opened CodexBlock
  import opened CodexTheorems

  // -------- Lines and settings

  function Line(text: string): string {
    text[..Until(text, '\n')]
  }

  function Rest(text: string): string {
    if Until(text, '\n') == |text| then "" else text[Until(text, '\n') + 1..]
  }

  /** The lines behind the first one that is `line`. */
  function BehindLine(text: string, line: string): Option<string>
    decreases |text|
  {
    if text == "" then None
    else if Line(text) == line then Some(Rest(text))
    else BehindLine(Rest(text), line)
  }

  predicate Begins(text: string, s: string) {
    |s| <= |text| && text[..|s|] == s
  }

  /** What stands between the quotes of the first line that sets `key`, before the next header. */
  function Setting(text: string, key: string): Option<string>
    decreases |text|
  {
    if text == "" || Begins(text, "[") then None
    else if Begins(Line(text), key + " = \"") then
      var quoted := Line(text)[|key| + 4..];
      Some(quoted[..Until(quoted, '"')])
    else Setting(Rest(text), key)
  }

  /** The server `name`, where its table is headed first. */
  function Server(text: string, name: string): Option<(string, string)> {
    match BehindLine(text, "[mcp_servers." + name + "]")
    case None => None
    case Some(table) =>
      var url, env := Setting(table, "url"), Setting(table, "bearer_token_env_var");
      if url.Some? && env.Some? then Some((url.value, env.value)) else None
  }

  /** The server `name`, where its table is headed first behind the marker. */
  function ManagedServer(text: string, name: string): Option<(string, string)> {
    var found := Find(text, MarkerLine(name));
    if found.None? then None else Server(text[found.value..], name)
  }

  // -------- Reading what is known

  lemma FirstLine(line: string, rest: string)
    requires OneLine(line)
    ensures Line(line + "\n" + rest) == line && Rest(line + "\n" + rest) == rest
  {
    UntilIs(line + "\n" + rest, '\n', |line|);
  }

  /** A value that can stand between quotes on one line. */
  predicate Quotable(s: string) {
    OneLine(s) && Free(s, '"')
  }

  function Assign(key: string, value: string): string {
    key + " = \"" + value + "\""
  }

  lemma NotBegins(line: string, s: string)
    requires line != "" && s != "" && line[0] != s[0]
    ensures !Begins(line, s)
  {
    assert |s| <= |line| ==> line[..|s|][0] == line[0];
  }

  lemma SettingHere(key: string, value: string, rest: string)
    requires OneLine(key) && key != "" && key[0] != '[' && Quotable(value)
    ensures Setting(Assign(key, value) + "\n" + rest, key) == Some(value)
  {
    var line := Assign(key, value);
    FirstLine(line, rest);
    assert line[0] == key[0];
    NotBegins(line + "\n" + rest, "[");
    assert line[..|key| + 4] == key + " = \"" && line[|key| + 4..] == value + "\"";
    UntilIs(value + "\"", '"', |value|);
    assert (value + "\"")[..|value|] == value;
  }

  lemma SettingLater(line: string, rest: string, key: string)
    requires OneLine(line) && line != "" && line[0] != '[' && key != "" && key[0] != line[0]
    ensures Setting(line + "\n" + rest, key) == Setting(rest, key)
  {
    FirstLine(line, rest);
    NotBegins(line + "\n" + rest, "[");
    NotBegins(line, key + " = \"");
  }

  lemma AssignIsLine(key: string, value: string)
    requires OneLine(key) && key != "" && Quotable(value)
    ensures OneLine(Assign(key, value)) && Assign(key, value) != "" && Assign(key, value)[0] == key[0]
  {
  }

  lemma TwoSettings(one: string, v: string, two: string, w: string, rest: string)
    requires OneLine(one) && one != "" && one[0] != '[' && Quotable(v)
    requires OneLine(two) && two != "" && two[0] != '[' && Quotable(w) && one[0] != two[0]
    ensures var table := Assign(one, v) + "\n" + (Assign(two, w) + "\n" + rest);
      Setting(table, one) == Some(v) && Setting(table, two) == Some(w)
  {
    SettingHere(one, v, Assign(two, w) + "\n" + rest);
    AssignIsLine(one, v);
    SettingLater(Assign(one, v), Assign(two, w) + "\n" + rest, two);
    SettingHere(two, w, rest);
  }

  /** The lines that an upsert writes. */
  lemma FieldsAre(name: string, e: Entry, rest: string)
    ensures Fields(name, e) + rest ==
            "[mcp_servers." + name + "]" + "\n"
            + (Assign("url", e.url) + "\n" + (Assign("bearer_token_env_var", e.tokenEnv) + "\n" + rest))
  {
    assert "url = \"" == "url" + " = \"" && "bearer_token_env_var = \"" == "bearer_token_env_var" + " = \"";
    assert "\"\n" == "\"" + "\n" && "]\n" == "]" + "\n";
  }

  /** A block behind its own marker is read, whatever follows. */
  lemma BlockIsRead(name: string, e: Entry, rest: string)
    requires OneLine(name) && Quotable(e.url) && Quotable(e.tokenEnv)
    ensures Server(Fields(name, e) + rest, name) == Some((e.url, e.tokenEnv))
  {
    var header := "[mcp_servers." + name + "]";
    var table := Assign("url", e.url) + "\n" + (Assign("bearer_token_env_var", e.tokenEnv) + "\n" + rest);
    FieldsAre(name, e, rest);
    FirstLine(header, table);
    TwoSettings("url", e.url, "bearer_token_env_var", e.tokenEnv, rest);
  }

  lemma LinePassed(line: string, header: string, rest: string)
    requires OneLine(line)
    ensures BehindLine(line + "\n" + rest, header) == if line == header then Some(rest) else BehindLine(rest, header)
  {
    FirstLine(line, rest);
    assert line + "\n" + rest != "";
  }

  lemma SplitFirst(text: string) returns (line: string, more: string)
    requires text != "" && text[|text| - 1] == '\n'
    ensures OneLine(line) && text == line + "\n" + more && (more == "" || more[|more| - 1] == '\n')
  {
    UntilWithin(text);
    line, more := text[..Until(text, '\n')], text[Until(text, '\n') + 1..];
  }

  /** Lines that are not the header are passed over. */
  lemma {:induction false} LinesPassed(before: string, header: string, rest: string)
    requires (before == "" || before[|before| - 1] == '\n') && BehindLine(before, header).None?
    ensures BehindLine(before + rest, header) == BehindLine(rest, header)
    decreases |before|
  {
    if before == "" {
      assert before + rest == rest;
    } else {
      var line, more := SplitFirst(before);
      Regroup(line, "\n", more, rest);
      LinePassed(line, header, more);
      LinePassed(line, header, more + rest);
      LinesPassed(more, header, rest);
    }
  }

  lemma {:induction false} UntilWithin(text: string)
    requires text != "" && text[|text| - 1] == '\n'
    ensures Until(text, '\n') < |text| && OneLine(text[..Until(text, '\n')]) && text[Until(text, '\n')] == '\n'
    ensures var more := text[Until(text, '\n') + 1..]; more == "" || more[|more| - 1] == '\n'
    decreases |text|
  {
    if text[0] != '\n' {
      UntilWithin(text[1..]);
      var n := Until(text[1..], '\n');
      assert text[..n + 1] == [text[0]] + text[1..][..n];
      assert text[n + 2..] == text[1..][n + 1..];
    }
  }

  lemma Regroup(a: string, b: string, c: string, d: string)
    ensures a + b + c + d == a + b + (c + d)
    ensures a + (b + c) + d == a + b + (c + d)
  {
  }

  // -------- The theorems

  /**
   In every text the upsert of a server is read back behind its marker: the address as its address, the variable as
   its variable.
   */
  lemma UpsertIsRead(existing: Option<string>, name: string, e: Entry)
    requires OneLine(name) && Quotable(e.url) && Quotable(e.tokenEnv)
    ensures ManagedServer(Upsert(existing, name, e), name) == Some((e.url, e.tokenEnv))
  {
    if BareMarker(existing, name) {
      BareIsRead(existing.value, name, e);
    } else {
      var before, behind := Before(existing, name), Behind(existing, name);
      UpsertSplits(existing, name, e);
      assert (before + Block(name, e) + behind)[|before|..] == MarkerLine(name) + (Fields(name, e) + behind);
      MarkerPassed(name, Fields(name, e) + behind);
      BlockIsRead(name, e, behind);
    }
  }

  lemma MarkerPassed(name: string, rest: string)
    requires OneLine(name)
    ensures Server(MarkerLine(name) + rest, name) == Server(rest, name)
  {
    var header := "[mcp_servers." + name + "]";
    FirstLine(Marker(name), rest);
    assert Marker(name)[0] != header[0];
    assert MarkerLine(name) + rest == Marker(name) + "\n" + rest;
  }

  lemma BareSlice(body: string, marker: string, block: string)
    requires EndsWith(body, marker)
    ensures (body + "\n\n" + block)[|body| - |marker|..] == marker + "\n" + ("\n" + block)
  {
    assert "\n\n" == "\n" + "\n";
  }

  lemma EmptyLinePassed(name: string, rest: string)
    ensures Server("\n" + rest, name) == Server(rest, name)
  {
    FirstLine("", rest);
    assert "" + "\n" + rest == "\n" + rest;
  }

  lemma BareIsRead(body: string, name: string, e: Entry)
    requires OneLine(name) && BareMarker(Some(body), name) && Quotable(e.url) && Quotable(e.tokenEnv)
    ensures ManagedServer(Upsert(Some(body), name, e), name) == Some((e.url, e.tokenEnv))
  {
    BareMarkerIsFound(body, name, e);
    BareSlice(body, Marker(name), Block(name, e));
    MarkerPassed(name, "\n" + Block(name, e));
    EmptyLinePassed(name, Block(name, e));
    MarkerPassed(name, Fields(name, e));
    assert Fields(name, e) + "" == Fields(name, e);
    BlockIsRead(name, e, "");
  }

  lemma FrontPassed(front: string, name: string, rest: string)
    requires OneLine(name) && front != "" && front[|front| - 1] == '\n'
    requires BehindLine(front, "[mcp_servers." + name + "]").None?
    ensures Server(front + rest, name) == Server(rest, name)
  {
    LinesPassed(front, "[mcp_servers." + name + "]", rest);
  }

  lemma EndsInNewline(before: string, name: string)
    ensures var front := before + MarkerLine(name); front != "" && front[|front| - 1] == '\n'
  {
    assert MarkerLine(name)[|MarkerLine(name)| - 1] == '\n';
  }

  lemma BlockSplits(before: string, name: string, e: Entry, behind: string)
    ensures before + Block(name, e) + behind == before + MarkerLine(name) + (Fields(name, e) + behind)
  {
    Regroup(before, MarkerLine(name), Fields(name, e), behind);
  }

  /** And Codex, which looks for the header alone, reads it unless the text before had such a header of its own. */
  lemma UpsertIsServed(existing: Option<string>, name: string, e: Entry)
    requires OneLine(name) && Quotable(e.url) && Quotable(e.tokenEnv)
    requires BehindLine(Before(existing, name) + MarkerLine(name), "[mcp_servers." + name + "]").None?
    ensures Server(Upsert(existing, name, e), name) == Some((e.url, e.tokenEnv))
  {
    var before, behind := Before(existing, name), Behind(existing, name);
    assert Upsert(existing, name, e) == before + Block(name, e) + behind by { UpsertSplits(existing, name, e); }
    BlockSplits(before, name, e, behind);
    EndsInNewline(before, name);
    FrontPassed(before + MarkerLine(name), name, Fields(name, e) + behind);
    BlockIsRead(name, e, behind);
  }
}
