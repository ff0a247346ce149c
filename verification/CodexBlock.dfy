/**
 The managed blocks of a Codex config.toml, apps/desktop/src/mcp_install.rs 77-180: found, replaced and
 removed as raw text. A name, address or variable name is a single line.
 */
module CodexBlock {
  import opened Wrappers
  import opened Text

  predicate OneLine(s: string) { forall k :: 0 <= k < |s| ==> s[k] != '\n' }

  /** What the format allows in a table header without quotes. */
  predicate BareKey(name: string) {
    forall k :: 0 <= k < |name| ==>
      'a' <= name[k] <= 'z' || 'A' <= name[k] <= 'Z' || '0' <= name[k] <= '9' || name[k] == '-' || name[k] == '_'
  }

  datatype Entry = Entry(url: string, tokenEnv: string)

  predicate Valid(e: Entry) { OneLine(e.url) && OneLine(e.tokenEnv) }

  // -------- Searching text

  predicate At(text: string, pattern: string, k: nat) {
    k + |pattern| <= |text| && text[k..k + |pattern|] == pattern
  }

  function FindFrom(text: string, pattern: string, k: nat): (r: Option<nat>)
    ensures r.Some? ==> r.value >= k && At(text, pattern, r.value)
    ensures r.Some? ==> forall j :: k <= j < r.value ==> !At(text, pattern, j)
    ensures r.None? ==> forall j :: k <= j ==> !At(text, pattern, j)
    decreases |text| - k
  {
    if k + |pattern| > |text| then None
    else if At(text, pattern, k) then Some(k)
    else FindFrom(text, pattern, k + 1)
  }

  /** The first place where `pattern` occurs. */
  function Find(text: string, pattern: string): (r: Option<nat>)
    ensures r.Some? ==> At(text, pattern, r.value) && forall j :: 0 <= j < r.value ==> !At(text, pattern, j)
    ensures r.None? ==> forall j: nat :: !At(text, pattern, j)
  {
    FindFrom(text, pattern, 0)
  }

  predicate EndsWith(text: string, s: string) {
    |s| <= |text| && text[|text| - |s|..] == s
  }

  // -------- Blocks

  function Marker(name: string): string { "# portuni-managed: mcp_servers." + name }

  function MarkerLine(name: string): string { Marker(name) + "\n" }

  function Fields(name: string, e: Entry): string {
    "[mcp_servers." + name + "]\n" + ("url = \"" + e.url + "\"\n") + ("bearer_token_env_var = \"" + e.tokenEnv + "\"\n")
  }

  function Block(name: string, e: Entry): string { MarkerLine(name) + Fields(name, e) }

  /** The text behind the first blank line from `start` on, or the end. */
  function EndOf(body: string, start: nat): nat
    requires start <= |body|
  {
    var blank := Find(body[start..], "\n\n");
    if blank.Some? then start + blank.value + 2 else |body|
  }

  function Upsert(existing: Option<string>, name: string, e: Entry): string {
    if existing.None? || Blank(existing.value) then Block(name, e)
    else
      var body := existing.value;
      var found := Find(body, MarkerLine(name));
      if found.Some? then
        var end := EndOf(body, found.value);
        body[..found.value] + Block(name, e) + (if end < |body| then "\n" + body[end..] else "")
      else Ended(body) + "\n" + Block(name, e)
  }

  function Ended(body: string): string {
    if EndsWith(body, "\n") then body else body + "\n"
  }

  function TrimEnd(s: string): string {
    if s != "" && s[|s| - 1] == '\n' then TrimEnd(s[..|s| - 1]) else s
  }

  function TrimStart(s: string): string {
    if s != "" && s[0] == '\n' then TrimStart(s[1..]) else s
  }

  function Remove(existing: string, name: string): string {
    var found := Find(existing, MarkerLine(name));
    if found.None? then existing
    else
      var before := TrimEnd(existing[..found.value]);
      (if before == "" then "" else before + "\n") + TrimStart(existing[EndOf(existing, found.value)..])
  }

  // -------- Where things are found

  lemma FoundAt(text: string, pattern: string, k: nat)
    requires At(text, pattern, k) && forall j :: 0 <= j < k ==> !At(text, pattern, j)
    ensures Find(text, pattern) == Some(k)
  {
  }

  /** No two newlines next to each other. */
  predicate Dense(s: string) {
    forall k :: 0 <= k < |s| - 1 ==> s[k] != '\n' || s[k + 1] != '\n'
  }

  lemma DenseLines(line: string, rest: string)
    requires OneLine(line) && line != "" && Dense(rest) && (rest != "" ==> rest[0] != '\n')
    ensures Dense(line + "\n" + rest)
  {
  }

  lemma BlockIsDense(name: string, e: Entry)
    requires OneLine(name) && Valid(e)
    ensures Dense(Block(name, e)) && EndsWith(Block(name, e), "\n") && Block(name, e)[0] == '#'
  {
    var header, url := "[mcp_servers." + name + "]", "url = \"" + e.url + "\"";
    var env := "bearer_token_env_var = \"" + e.tokenEnv + "\"";
    DenseLines(env, "");
    DenseLines(url, env + "\n" + "");
    DenseLines(header, url + "\n" + (env + "\n" + ""));
    DenseLines(Marker(name), header + "\n" + (url + "\n" + (env + "\n" + "")));
    assert Block(name, e) == Marker(name) + "\n" + (header + "\n" + (url + "\n" + (env + "\n" + "")));
  }

  /** What may follow a block: nothing, or a blank line. */
  predicate Separated(rest: string) { rest == "" || rest[0] == '\n' }

  /** A block ends where it ends: at the blank line behind it, or with the text. */
  lemma BlockEnds(before: string, name: string, e: Entry, rest: string)
    requires OneLine(name) && Valid(e) && Separated(rest)
    ensures var block := Block(name, e);
      EndOf(before + block + rest, |before|) == |before| + |block| + if rest == "" then 0 else 1
  {
    var block := Block(name, e);
    BlockIsDense(name, e);
    var text := block + rest;
    assert (before + block + rest)[|before|..] == text;
    forall j | 0 <= j < |block| - 1 ensures !At(text, "\n\n", j) {
      assert text[j] == block[j] && text[j + 1] == block[j + 1];
      assert text[j..j + 2] == [text[j], text[j + 1]] && "\n\n" == ['\n', '\n'];
    }
    assert block[|block| - 1..] == "\n";
    if rest != "" {
      assert text[|block| - 1..|block| + 1] == "\n\n";
      FoundAt(text, "\n\n", |block| - 1);
    } else {
      forall j: nat ensures !At(text, "\n\n", j) {
        if j >= |block| - 1 { assert j + 2 > |text|; }
      }
    }
  }

  lemma AtChar(text: string, pattern: string, k: nat, i: nat)
    requires At(text, pattern, k) && i < |pattern|
    ensures text[k + i] == pattern[i]
  {
    assert text[k..k + |pattern|][i] == text[k + i];
  }

  lemma AtSame(a: string, b: string, n: nat, pattern: string, k: nat)
    requires n <= |a| && n <= |b| && a[..n] == b[..n] && k + |pattern| <= n
    ensures At(a, pattern, k) <==> At(b, pattern, k)
  {
    assert a[k..k + |pattern|] == a[..n][k..k + |pattern|];
    assert b[k..k + |pattern|] == b[..n][k..k + |pattern|];
  }

  lemma Starts(before: string, line: string, rest: string, after: string)
    ensures At(before + (line + rest) + after, line, |before|)
  {
    var text := before + (line + rest) + after;
    assert text[|before|..|before| + |line|] == line;
  }

  lemma SameBefore(body: string, start: nat, line: string, rest: string, after: string)
    requires At(body, line, start)
    ensures start + |line| <= |body[..start] + (line + rest) + after|
    ensures (body[..start] + (line + rest) + after)[..start + |line|] == body[..start + |line|]
  {
    assert body[..start + |line|] == body[..start] + body[start..start + |line|];
  }

  /** What replaces a block is found where the block was. */
  lemma ReplacedIsFound(body: string, start: nat, line: string, rest: string, after: string)
    requires Find(body, line) == Some(start)
    ensures Find(body[..start] + (line + rest) + after, line) == Some(start)
  {
    var text := body[..start] + (line + rest) + after;
    Starts(body[..start], line, rest, after);
    SameBefore(body, start, line, rest, after);
    forall j | 0 <= j < start ensures !At(text, line, j) {
      AtSame(text, body, start + |line|, line, j);
    }
    FoundAt(text, line, start);
  }

  /** A match that begins in `body`, before the newlines put behind it, lies in `body` or ends in its marker. */
  lemma NoMatchAcross(body: string, newlines: string, marker: string, block: string, j: nat)
    requires OneLine(marker) && marker != "" && marker[0] == '#'
    requires newlines != "" && forall k :: 0 <= k < |newlines| ==> newlines[k] == '\n'
    requires j < |body + newlines| && At(body + newlines + block, marker + "\n", j)
    ensures At(body, marker + "\n", j) || EndsWith(body, marker)
  {
    var line, text := marker + "\n", body + newlines + block;
    AtChar(text, line, j, 0);
    assert text[..|body|] == body;
    assert forall i :: |body| <= i < |body + newlines| ==> text[i] == '\n';
    if j + |line| <= |body| {
      AtSame(text, body, |body|, line, j);
    } else if j < |body| {
      assert text[|body|] == '\n';
      AtChar(text, line, j, |body| - j);
      assert |body| - j == |marker|;
      assert body[j..] == text[j..j + |line|][..|marker|] == marker;
    }
  }

  /** A block put behind a text is found there, unless the text ended in the bare marker. */
  lemma AppendedIsFound(body: string, newlines: string, marker: string, rest: string)
    requires OneLine(marker) && marker != "" && marker[0] == '#'
    requires Find(body, marker + "\n").None? && !EndsWith(body, marker)
    requires newlines == "\n" || newlines == "\n\n"
    ensures Find(body + newlines + (marker + "\n" + rest), marker + "\n") == Some(|body + newlines|)
  {
    var line := marker + "\n";
    var text := body + newlines + (line + rest);
    Starts(body + newlines, line, rest, "");
    assert text + "" == text;
    forall j | 0 <= j < |body + newlines| ensures !At(text, line, j) {
      if At(text, line, j) {
        NoMatchAcross(body, newlines, marker, line + rest, j);
      }
    }
    FoundAt(text, line, |body + newlines|);
  }
}
