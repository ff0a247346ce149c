/**
 The code of apps/desktop/src/mcp_install.rs that edits: text built up piece by piece for Codex, an
 array edited in place for Vibe.
 */
module McpInstall {
  import opened Wrappers
  import opened Text
  import opened CodexBlock

  method UpsertCodexConfig(existing: Option<string>, name: string, e: Entry) returns (out: string)
    ensures out == Upsert(existing, name, e)
  {
    var block := Block(name, e);
    if existing.None? || Blank(existing.value) {
      return block;
    }
    var body := existing.value;
    var found := Find(body, MarkerLine(name));
    if found.Some? {
      var start := found.value;
      var blank := Find(body[start..], "\n\n");
      var end := if blank.Some? then start + blank.value + 2 else |body|;
      out := body[..start];
      out := out + block;
      EndsOnce(body[..start], name, e);
      NewlineBetween(out, body[end..]);
      if end < |body| {
        if !EndsWith(out, "\n\n") {
          out := out + (if EndsWith(out, "\n") then "\n" else "\n\n");
        }
        out := out + body[end..];
      }
      return;
    }
    out := body;
    if !EndsWith(out, "\n") {
      out := out + "\n";
    }
    out := out + "\n";
    out := out + block;
  }

  /** A block ends in one newline, behind a quote. */
  lemma EndsOnce(before: string, name: string, e: Entry)
    ensures EndsWith(before + Block(name, e), "\n") && !EndsWith(before + Block(name, e), "\n\n")
  {
    var out := before + Block(name, e);
    assert out[|out| - 1..][0] == '\n' && out[|out| - 2..][0] == '"';
  }

  lemma NewlineBetween(a: string, b: string)
    ensures a + "\n" + b == a + ("\n" + b)
  {
  }

  method TrimEndMatches(s: string) returns (t: string)
    ensures t == TrimEnd(s)
  {
    t := s;
    while t != "" && t[|t| - 1] == '\n'
      invariant TrimEnd(t) == TrimEnd(s)
      decreases |t|
    {
      t := t[..|t| - 1];
    }
  }

  method TrimStartMatches(s: string) returns (t: string)
    ensures t == TrimStart(s)
  {
    t := s;
    while t != "" && t[0] == '\n'
      invariant TrimStart(t) == TrimStart(s)
      decreases |t|
    {
      t := t[1..];
    }
  }

  method RemoveCodexBlock(existing: string, name: string) returns (out: string)
    ensures out == Remove(existing, name)
  {
    var found := Find(existing, MarkerLine(name));
    if found.None? {
      return existing;
    }
    var end := EndOf(existing, found.value);
    out := TrimEndMatches(existing[..found.value]);
    if out != "" {
      out := out + "\n";
    }
    var rest := TrimStartMatches(existing[end..]);
    out := out + rest;
  }

  // -------- Vibe

  /** An element of the array; one that is no table, or has no name, counts as unnamed. */
  datatype Server = Server(name: Option<string>, fields: map<string, string>)

  function Others(servers: seq<Server>, name: string): seq<Server> {
    if servers == [] then []
    else Others(servers[..|servers| - 1], name)
         + (if servers[|servers| - 1].name == Some(name) then [] else [servers[|servers| - 1]])
  }

  lemma {:induction false} OthersAdd(a: seq<Server>, b: seq<Server>, name: string)
    ensures Others(a + b, name) == Others(a, name) + Others(b, name)
  {
    if b == [] {
      assert a + b == a;
    } else {
      OthersAdd(a, b[..|b| - 1], name);
      assert (a + b)[..|a + b| - 1] == a + b[..|b| - 1];
    }
  }

  lemma OthersNext(servers: seq<Server>, i: nat, name: string)
    requires i < |servers|
    ensures Others(servers[i..], name) ==
            (if servers[i].name == Some(name) then [] else [servers[i]]) + Others(servers[i + 1..], name)
  {
    assert servers[i..] == [servers[i]] + servers[i + 1..];
    OthersAdd([servers[i]], servers[i + 1..], name);
    OneServer(servers[i], name);
  }

  lemma OneServer(s: Server, name: string)
    ensures Others([s], name) == if s.name == Some(name) then [] else [s]
  {
    assert [s][..0] == [];
  }

  lemma TakenOut(servers: seq<Server>, i: nat)
    requires i < |servers|
    ensures var rest := servers[..i] + servers[i + 1..]; rest[..i] == servers[..i] && rest[i..] == servers[i + 1..]
  {
  }

  lemma PassedOver(servers: seq<Server>, i: nat, others: seq<Server>)
    requires i < |servers|
    ensures servers[..i] + ([servers[i]] + others) == servers[..i + 1] + others
  {
  }

  /** None of that name stays, and with none of that name all stay as they are. */
  lemma {:induction false} OthersAre(servers: seq<Server>, name: string)
    ensures forall s :: s in Others(servers, name) <==> s in servers && s.name != Some(name)
    ensures Others(servers, name) == servers <==> forall s :: s in servers ==> s.name != Some(name)
  {
    if servers != [] {
      OthersAre(servers[..|servers| - 1], name);
      assert servers == servers[..|servers| - 1] + [servers[|servers| - 1]];
      if Others(servers, name) == servers {
        assert servers[|servers| - 1].name != Some(name) by {
          assert servers[|servers| - 1] in Others(servers, name);
        }
      }
    }
  }

  /** The table an upsert writes, apart from the name. */
  function VibeFields(e: Entry): map<string, string> {
    map["transport" := "streamable-http", "url" := e.url, "api_key_env" := e.tokenEnv,
        "api_key_header" := "Authorization", "api_key_format" := "Bearer {token}"]
  }

  function VibeUpsert(servers: seq<Server>, name: string, fields: map<string, string>): seq<Server> {
    Others(servers, name) + [Server(Some(name), fields)]
  }

  /** Of two upserts of a name the later one is left; a removal behind it gives the array back iff it had none. */
  lemma VibeLaws(servers: seq<Server>, name: string, first: map<string, string>, second: map<string, string>)
    ensures VibeUpsert(VibeUpsert(servers, name, first), name, second) == VibeUpsert(servers, name, second)
    ensures Others(VibeUpsert(servers, name, first), name) == Others(servers, name)
    ensures Others(VibeUpsert(servers, name, first), name) == servers
            <==> forall s :: s in servers ==> s.name != Some(name)
  {
    var kept := Others(servers, name);
    OthersAre(servers, name);
    OthersAre(kept, name);
    OthersAdd(kept, [Server(Some(name), first)], name);
    assert [Server(Some(name), first)][..0] == [];
    assert Others([Server(Some(name), first)], name) == [];
  }

  lemma {:induction false} NoneNamed(servers: seq<Server>, name: string)
    ensures Named(Others(servers, name), name) == []
  {
    if servers != [] {
      var before, last := servers[..|servers| - 1], servers[|servers| - 1];
      NoneNamed(before, name);
      if last.name != Some(name) {
        assert Others(servers, name)[..|Others(before, name)|] == Others(before, name);
      } else {
        assert Others(servers, name) == Others(before, name);
      }
    }
  }

  /** The server is there once, as the last one, with its address under `url` and its variable under `api_key_env`. */
  lemma VibeIsServed(servers: seq<Server>, name: string, e: Entry)
    ensures var after := VibeUpsert(servers, name, VibeFields(e));
      && after != [] && Named(after, name) == [after[|after| - 1]]
      && var fields := after[|after| - 1].fields;
         && "url" in fields && fields["url"] == e.url
         && "api_key_env" in fields && fields["api_key_env"] == e.tokenEnv
  {
    NoneNamed(servers, name);
    var kept := Others(servers, name);
    var after := VibeUpsert(servers, name, VibeFields(e));
    assert after[..|after| - 1] == kept;
  }

  /** The servers of another name are untouched, in their order. */
  lemma VibeKeepsOthers(servers: seq<Server>, name: string, fields: map<string, string>, other: string)
    requires other != name
    ensures Named(VibeUpsert(servers, name, fields), other) == Named(servers, other)
  {
    OthersKeep(servers, name, other);
    var kept := Others(servers, name);
    assert VibeUpsert(servers, name, fields)[..|kept|] == kept;
  }

  function Named(servers: seq<Server>, name: string): seq<Server> {
    if servers == [] then []
    else Named(servers[..|servers| - 1], name)
         + (if servers[|servers| - 1].name == Some(name) then [servers[|servers| - 1]] else [])
  }

  lemma {:induction false} OthersKeep(servers: seq<Server>, name: string, other: string)
    requires other != name
    ensures Named(Others(servers, name), other) == Named(servers, other)
  {
    if servers != [] {
      var before := servers[..|servers| - 1];
      OthersKeep(before, name, other);
      if servers[|servers| - 1].name != Some(name) {
        assert Others(servers, name)[..|Others(before, name)|] == Others(before, name);
      } else {
        assert Others(servers, name) == Others(before, name);
      }
    }
  }

  class VibeArray {
    var servers: seq<Server>

    constructor (servers: seq<Server>)
      ensures this.servers == servers
    {
      this.servers := servers;
    }

    method RemoveNamed(name: string)
      modifies this
      ensures servers == Others(old(servers), name)
    {
      var i := 0;
      while i < |servers|
        invariant i <= |servers|
        invariant servers[..i] + Others(servers[i..], name) == Others(old(servers), name)
        decreases |servers| - i
      {
        OthersNext(servers, i, name);
        if servers[i].name == Some(name) {
          TakenOut(servers, i);
          servers := servers[..i] + servers[i + 1..];
        } else {
          PassedOver(servers, i, Others(servers[i + 1..], name));
          i := i + 1;
        }
      }
      assert servers[i..] == [] && servers[..i] == servers;
    }

    method Upsert(name: string, e: Entry)
      modifies this
      ensures servers == VibeUpsert(old(servers), name, VibeFields(e))
    {
      RemoveNamed(name);
      var fields := map["transport" := "streamable-http"];
      fields := fields["url" := e.url];
      fields := fields["api_key_env" := e.tokenEnv];
      fields := fields["api_key_header" := "Authorization"];
      fields := fields["api_key_format" := "Bearer {token}"];
      servers := servers + [Server(Some(name), fields)];
    }
  }
}
