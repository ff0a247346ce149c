/** What upserts and removals of managed blocks do to each other and to the rest of the file. */
module CodexTheorems {
  import opened Wrappers
  import opened Text
  import opened CodexBlock

  // -------- An upsert splits the file in what is before, the block, and what is behind

  function Before(existing: Option<string>, name: string): string {
    if existing.None? || Blank(existing.value) then ""
    else
      var found := Find(existing.value, MarkerLine(name));
      if found.Some? then existing.value[..found.value] else Ended(existing.value) + "\n"
  }

  function Behind(existing: Option<string>, name: string): string {
    if existing.None? || Blank(existing.value) then ""
    else
      var body, found := existing.value, Find(existing.value, MarkerLine(name));
      if found.Some? && EndOf(body, found.value) < |body| then "\n" + body[EndOf(body, found.value)..] else ""
  }

  /** The text has no block, yet its last line is the marker, with no newline behind it. */
  predicate BareMarker(existing: Option<string>, name: string) {
    && existing.Some? && !Blank(existing.value)
    && Find(existing.value, MarkerLine(name)).None? && EndsWith(existing.value, Marker(name))
  }

  lemma UpsertSplits(existing: Option<string>, name: string, e: Entry)
    requires OneLine(name)
    ensures Upsert(existing, name, e) == Before(existing, name) + Block(name, e) + Behind(existing, name)
    ensures Separated(Behind(existing, name)) && |Behind(existing, name)| != 1
    ensures !Blank(Upsert(existing, name, e))
    ensures !BareMarker(existing, name) ==>
              Find(Upsert(existing, name, e), MarkerLine(name)) == Some(|Before(existing, name)|)
  {
    var before, behind := Before(existing, name), Behind(existing, name);
    assert (before + Block(name, e) + behind)[|before|] == '#' && !Space('#');
    if !BareMarker(existing, name) {
      UpsertIsFound(existing, name, e);
    }
  }

  lemma UpsertIsFound(existing: Option<string>, name: string, e: Entry)
    requires OneLine(name) && !BareMarker(existing, name)
    ensures var before := Before(existing, name);
      Find(before + Block(name, e) + Behind(existing, name), MarkerLine(name)) == Some(|before|)
  {
    var before, behind := Before(existing, name), Behind(existing, name);
    if existing.None? || Blank(existing.value) {
      Starts("", MarkerLine(name), Fields(name, e), "");
      FoundAt(before + Block(name, e) + behind, MarkerLine(name), 0);
    } else {
      var body := existing.value;
      var found := Find(body, MarkerLine(name));
      if found.Some? {
        ReplacedIsFound(body, found.value, MarkerLine(name), Fields(name, e), behind);
      } else {
        AppendIsFound(body, name, e);
      }
    }
  }

  lemma AppendIsFound(body: string, name: string, e: Entry)
    requires OneLine(name) && Find(body, MarkerLine(name)).None? && !EndsWith(body, Marker(name))
    ensures Find(Ended(body) + "\n" + Block(name, e) + "", MarkerLine(name)) == Some(|Ended(body) + "\n"|)
  {
    var newlines := if EndsWith(body, "\n") then "\n" else "\n\n";
    assert Ended(body) + "\n" == body + newlines;
    AppendedIsFound(body, newlines, Marker(name), Fields(name, e));
    assert body + newlines + Block(name, e) + "" == body + newlines + Block(name, e);
  }

  /** Replacing a block found with a blank line or the end behind it touches nothing but the block. */
  lemma ReplacesOnlyTheBlock(before: string, name: string, was: Entry, e: Entry, rest: string)
    requires OneLine(name) && Valid(was) && Separated(rest)
    requires Find(before + Block(name, was) + rest, MarkerLine(name)) == Some(|before|)
    ensures Upsert(Some(before + Block(name, was) + rest), name, e) ==
            before + Block(name, e) + if rest == "\n" then "" else rest
  {
    var body := before + Block(name, was) + rest;
    assert body[|before|] == '#' && !Space('#');
    BlockEnds(before, name, was, rest);
    assert body[..|before|] == before;
    if |rest| > 1 {
      assert "\n" + body[EndOf(body, |before|)..] == rest;
    }
  }

  /** So with a blank line between two blocks the upsert of the first leaves the second, and all else, alone. */
  lemma SeparatedBlocksStay(head: string, name: string, was: Entry, e: Entry, gap: string, other: string, its: Entry, rest: string)
    requires OneLine(name) && Valid(was) && gap != "" && Separated(gap)
    requires Find(head + Block(name, was) + (gap + Block(other, its) + rest), MarkerLine(name)) == Some(|head|)
    ensures Upsert(Some(head + Block(name, was) + (gap + Block(other, its) + rest)), name, e) ==
            head + Block(name, e) + (gap + Block(other, its) + rest)
  {
    var behind := gap + Block(other, its) + rest;
    assert behind[0] == gap[0] && |behind| > 1;
    ReplacesOnlyTheBlock(head, name, was, e, behind);
  }

  /** A second upsert of the same name overwrites the first, but for the bare marker. */
  lemma LaterWinsIff(existing: Option<string>, name: string, first: Entry, second: Entry)
    requires OneLine(name) && Valid(first) && Valid(second)
    ensures Upsert(Some(Upsert(existing, name, first)), name, second) == Upsert(existing, name, second)
            <==> !BareMarker(existing, name)
  {
    UpsertSplits(existing, name, first);
    UpsertSplits(existing, name, second);
    if BareMarker(existing, name) {
      BareMarkerRepeats(existing.value, name, first, second);
    } else {
      ReplacesOnlyTheBlock(Before(existing, name), name, first, second, Behind(existing, name));
    }
  }

  /** So an upsert done twice is done once. */
  lemma IdempotentIff(existing: Option<string>, name: string, e: Entry)
    requires OneLine(name) && Valid(e)
    ensures Upsert(Some(Upsert(existing, name, e)), name, e) == Upsert(existing, name, e)
            <==> !BareMarker(existing, name)
  {
    LaterWinsIff(existing, name, e, e);
  }

  lemma BareMarkerAppends(body: string, name: string, e: Entry)
    requires OneLine(name) && BareMarker(Some(body), name)
    ensures Upsert(Some(body), name, e) == body + "\n\n" + Block(name, e)
  {
    LastChar(body, Marker(name));
    if EndsWith(body, "\n") {
      LastChar(body, "\n");
    }
  }

  lemma LastChar(text: string, s: string)
    requires EndsWith(text, s) && s != ""
    ensures text[|text| - 1] == s[|s| - 1]
  {
    assert text[|text| - |s|..][|s| - 1] == text[|text| - 1];
  }

  lemma BareMarkerFound(head: string, name: string, rest: string)
    requires Find(head + Marker(name), MarkerLine(name)).None?
    ensures Find(head + Marker(name) + "\n" + rest, MarkerLine(name)) == Some(|head|)
  {
    var line, body := MarkerLine(name), head + Marker(name);
    var out := body + "\n" + rest;
    assert out[|head|..|head| + |line|] == line;
    assert out[..|body|] == body;
    forall j | 0 <= j < |head| ensures !At(out, line, j) {
      AtSame(out, body, |body|, line, j);
    }
    FoundAt(out, line, |head|);
  }

  lemma BareMarkerEnds(head: string, name: string, rest: string)
    requires OneLine(name)
    ensures EndOf(head + Marker(name) + "\n" + ("\n" + rest), |head|) == |head| + |Marker(name)| + 2
  {
    var marker := Marker(name);
    var after := (head + marker + "\n" + ("\n" + rest))[|head|..];
    assert OneLine(marker) && after == marker + "\n\n" + rest;
    assert after[|marker|..|marker| + 2] == "\n\n";
    forall j | 0 <= j < |marker| ensures !At(after, "\n\n", j) {
      assert after[j] == marker[j] && after[j..j + 2][0] == after[j];
    }
    FoundAt(after, "\n\n", |marker|);
  }

  /** Behind a bare marker the newline that separates the block completes the marker line. */
  lemma BareMarkerIsFound(body: string, name: string, e: Entry)
    requires OneLine(name) && BareMarker(Some(body), name)
    ensures var out := Upsert(Some(body), name, e); var start := |body| - |Marker(name)|;
      && out == body + "\n\n" + Block(name, e)
      && Find(out, MarkerLine(name)) == Some(start)
      && EndOf(out, start) == |body| + 2
  {
    BareMarkerAppends(body, name, e);
    BareMarkerCompleted(body[..|body| - |Marker(name)|], body, name, Block(name, e));
  }

  lemma BareMarkerCompleted(head: string, body: string, name: string, block: string)
    requires OneLine(name) && body == head + Marker(name) && Find(body, MarkerLine(name)).None?
    ensures Find(body + "\n\n" + block, MarkerLine(name)) == Some(|head|)
    ensures EndOf(body + "\n\n" + block, |head|) == |body| + 2
  {
    Newlines(body, block);
    BareMarkerFound(head, name, "\n" + block);
    BareMarkerEnds(head, name, block);
  }

  lemma Newlines(body: string, block: string)
    ensures body + "\n\n" + block == body + "\n" + ("\n" + block)
  {
  }

  lemma BareMarkerRepeats(body: string, name: string, first: Entry, second: Entry)
    requires OneLine(name) && BareMarker(Some(body), name)
    ensures Upsert(Some(Upsert(Some(body), name, first)), name, second) != Upsert(Some(body), name, second)
  {
    var once := Upsert(Some(body), name, first);
    var start := |body| - |Marker(name)|;
    BareMarkerIsFound(body, name, first);
    BareMarkerIsFound(body, name, second);
    UpsertSplits(Some(body), name, first);
    var twice := Upsert(Some(once), name, second);
    assert twice[|body| + 1] == Block(name, second)[|Marker(name)| + 1] == '[';
    assert Upsert(Some(body), name, second)[|body| + 1] == '\n';
  }

  // -------- Other names

  /** Every newline comes after a bracket or a quote. */
  predicate Quoted(s: string) {
    forall p :: 0 <= p < |s| && s[p] == '\n' ==> p > 0 && s[p - 1] in {']', '"'}
  }

  lemma QuotedLine(line: string, rest: string)
    requires OneLine(line) && line != "" && line[|line| - 1] in {']', '"'} && Quoted(rest)
    ensures Quoted(line + "\n" + rest)
  {
    var s := line + "\n" + rest;
    forall p | 0 <= p < |s| && s[p] == '\n' ensures p > 0 && s[p - 1] in {']', '"'} {
      NewlineOf(line, rest, p);
      assert p > |line| ==> rest[p - |line| - 1] == '\n' && s[p - 1] == (if p == |line| + 1 then '\n' else rest[p - |line| - 2]);
    }
  }

  lemma NewlineOf(line: string, rest: string, p: nat)
    requires OneLine(line) && p < |line + "\n" + rest| && (line + "\n" + rest)[p] == '\n'
    ensures p == |line| || (p > |line| && rest[p - |line| - 1] == '\n')
  {
    assert (line + "\n" + rest)[..|line|] == line;
  }

  lemma FieldsAreQuoted(name: string, e: Entry)
    requires OneLine(name) && Valid(e)
    ensures Quoted(Fields(name, e))
  {
    var header, url := "[mcp_servers." + name + "]", "url = \"" + e.url + "\"";
    var env := "bearer_token_env_var = \"" + e.tokenEnv + "\"";
    QuotedLine(env, "");
    QuotedLine(url, env + "\n" + "");
    QuotedLine(header, url + "\n" + (env + "\n" + ""));
    assert Fields(name, e) == header + "\n" + (url + "\n" + (env + "\n" + ""));
  }

  lemma NewlinesOf(name: string, e: Entry, p: nat)
    requires OneLine(name) && Valid(e) && p < |Block(name, e)| && Block(name, e)[p] == '\n'
    ensures p == |Marker(name)| || (p > |Marker(name)| && Block(name, e)[p - 1] in {']', '"'})
  {
    assert OneLine(Marker(name)) && Block(name, e) == Marker(name) + "\n" + Fields(name, e);
    NewlineOf(Marker(name), Fields(name, e), p);
    if p > |Marker(name)| {
      FieldsAreQuoted(name, e);
      assert Block(name, e)[p - 1] == Fields(name, e)[p - |Marker(name)| - 2];
    }
  }

  lemma HashOnlyFirst(name: string, i: nat)
    requires BareKey(name) && 0 < i < |MarkerLine(name)|
    ensures MarkerLine(name)[i] != '#'
  {
    var fixed := "# portuni-managed: mcp_servers.";
    assert MarkerLine(name) == fixed + name + "\n";
  }

  /** A marker found in a block is its own: names that start one another are told apart. */
  lemma MarkerTellsNames(name: string, other: string, e: Entry, k: nat)
    requires BareKey(name) && BareKey(other) && Valid(e)
    requires At(Block(other, e), MarkerLine(name), k)
    ensures k == 0 && name == other
  {
    var block, line := Block(other, e), MarkerLine(name);
    var p := k + |Marker(name)|;
    AtChar(block, line, k, |Marker(name)|);
    AtChar(block, line, k, |Marker(name)| - 1);
    AtChar(block, line, k, 0);
    NewlinesOf(other, e, p);
    assert Marker(name)[|Marker(name)| - 1] !in {']', '"'};
    assert p == |Marker(other)|;
    if k > 0 {
      assert block[k] == MarkerLine(other)[k];
      HashOnlyFirst(other, k);
    }
    assert block[..p] == Marker(other) && block[k..p] == line[..|line| - 1] == Marker(name);
    assert Marker(name)[31..] == name && Marker(other)[31..] == other;
  }

  lemma MarkerNotInto(before: string, name: string, rest: string, k: nat)
    requires BareKey(name) && rest != "" && rest[0] == '#'
    requires k < |before| && At(before + rest, MarkerLine(name), k)
    ensures k + |MarkerLine(name)| <= |before|
  {
    if |before| < k + |MarkerLine(name)| {
      AtChar(before + rest, MarkerLine(name), k, |before| - k);
      HashOnlyFirst(name, |before| - k);
    }
  }

  lemma MarkerNotOutOf(block: string, name: string, rest: string, k: nat)
    requires OneLine(name) && block != "" && block[|block| - 1] == '\n'
    requires k < |block| && At(block + rest, MarkerLine(name), k)
    ensures At(block, MarkerLine(name), k)
  {
    assert OneLine(Marker(name)) && (block + rest)[|block| - 1] == '\n';
    if |block| - 1 - k < |Marker(name)| {
      AtChar(block + rest, MarkerLine(name), k, |block| - 1 - k);
    }
    assert (block + rest)[..|block|] == block;
    AtSame(block + rest, block, |block|, MarkerLine(name), k);
  }

  /** A match next to another block lies before it or behind it. */
  lemma MatchAvoids(before: string, name: string, other: string, e: Entry, rest: string, k: nat)
    requires BareKey(name) && BareKey(other) && name != other && Valid(e)
    requires At(before + Block(other, e) + rest, MarkerLine(name), k)
    ensures k + |MarkerLine(name)| <= |before| || |before| + |Block(other, e)| <= k
  {
    var block, line := Block(other, e), MarkerLine(name);
    assert before + block + rest == before + (block + rest);
    if k < |before| {
      MarkerNotInto(before, name, block + rest, k);
    } else if k < |before| + |block| {
      AtBehind(before, block + rest, line, k);
      assert block[|block| - 1] == '\n';
      MarkerNotOutOf(block, name, rest, k - |before|);
      MarkerTellsNames(name, other, e, k - |before|);
    }
  }

  lemma AtBehind(before: string, rest: string, line: string, k: nat)
    requires k >= |before| && At(before + rest, line, k)
    ensures At(rest, line, k - |before|)
  {
    assert rest[k - |before|..k - |before| + |line|] == (before + rest)[k..k + |line|];
  }

  lemma BlankAvoids(before: string, block: string, rest: string, n: nat)
    requires Dense(block) && block != "" && block[0] == '#'
    requires At(before + block + rest, "\n\n", n)
    ensures n + 2 <= |before| || |before| + |block| <= n + 1
  {
    var text := before + block + rest;
    AtChar(text, "\n\n", n, 0);
    AtChar(text, "\n\n", n, 1);
    assert text[|before|] == '#';
    DenseInside(before, block, rest);
  }

  lemma DenseInside(before: string, block: string, rest: string)
    requires Dense(block)
    ensures var text := before + block + rest;
      forall n :: |before| <= n < |before| + |block| - 1 ==> text[n] != '\n' || text[n + 1] != '\n'
  {
    var text := before + block + rest;
    forall n | |before| <= n < |before| + |block| - 1 ensures text[n] != '\n' || text[n + 1] != '\n' {
      assert text[n] == block[n - |before|] && text[n + 1] == block[n - |before| + 1];
    }
  }

  /** Text up to the first blank line reaches over all of a block or none. */
  lemma EndAvoids(before: string, other: string, e: Entry, rest: string, k: nat)
    requires OneLine(other) && Valid(e) && k <= |before|
    ensures var end := EndOf(before + Block(other, e) + rest, k);
      end <= |before| || |before| + |Block(other, e)| <= end
  {
    var text := before + Block(other, e) + rest;
    BlockIsDense(other, e);
    var blank := Find(text[k..], "\n\n");
    if blank.Some? {
      assert text[k..][blank.value..blank.value + 2] == text[k + blank.value..k + blank.value + 2];
      BlankAvoids(before, Block(other, e), rest, k + blank.value);
    }
  }

  /** The text still begins with `before` and the block, and the block is still separated. */
  ghost predicate Stays(out: string, before: string, block: string) {
    exists rest :: Separated(rest) && out == before + block + rest
  }

  /**
   An upsert next to the block of another name. The other block stays as it is, and separated, unless the
   text from the found marker to the first blank line reaches over it: then it is gone.
   */
  lemma OtherBlockStaysIff(before: string, other: string, was: Entry, rest: string, name: string, e: Entry)
    requires BareKey(name) && BareKey(other) && name != other && Valid(was) && Separated(rest)
    ensures
      var body := before + Block(other, was) + rest;
      var found := Find(body, MarkerLine(name));
      var out := Upsert(Some(body), name, e);
      if found.None? then
        Stays(out, before, Block(other, was))
      else if found.value >= |before| then
        Stays(out, before, Block(other, was))
      else
        var end := EndOf(body, found.value);
        && (end <= |before| || |before| + |Block(other, was)| <= end)
        && out == before[..found.value] + Block(name, e) +
                  (if end <= |before| then "\n" + before[end..] + Block(other, was) + rest
                   else if end < |body| then "\n" + rest[end - |before| - |Block(other, was)|..] else "")
  {
    var body, block := before + Block(other, was) + rest, Block(other, was);
    assert body[|before|] == '#' && !Space('#');
    var found := Find(body, MarkerLine(name));
    if found.None? {
      UpsertBehind(before, block, rest, name, e);
    } else {
      FoundOutside(before, other, was, rest, name, found.value);
      if found.value >= |before| {
        UpsertInRest(before, block, rest, name, e, found.value);
      } else {
        UpsertInBefore(before, block, rest, name, e, found.value);
      }
    }
  }

  /** A marker found next to the other block is not in it, nor is the end of what is replaced. */
  lemma FoundOutside(before: string, other: string, was: Entry, rest: string, name: string, start: nat)
    requires BareKey(name) && BareKey(other) && name != other && Valid(was)
    requires Find(before + Block(other, was) + rest, MarkerLine(name)) == Some(start)
    ensures start >= |before| ==> |before| + |Block(other, was)| <= start
    ensures start < |before| ==>
              var end := EndOf(before + Block(other, was) + rest, start);
              end <= |before| || |before| + |Block(other, was)| <= end
  {
    MatchAvoids(before, name, other, was, rest, start);
    if start < |before| {
      EndAvoids(before, other, was, rest, start);
    }
  }

  lemma UpsertBehind(before: string, block: string, rest: string, name: string, e: Entry)
    requires !Blank(before + block + rest) && Find(before + block + rest, MarkerLine(name)).None?
    requires Separated(rest)
    ensures Stays(Upsert(Some(before + block + rest), name, e), before, block)
  {
    var body := before + block + rest;
    var rest' := (if EndsWith(body, "\n") then rest else rest + "\n") + "\n" + Block(name, e);
    assert Upsert(Some(body), name, e) == before + block + rest';
  }

  lemma UpsertInRest(before: string, block: string, rest: string, name: string, e: Entry, start: nat)
    requires !Blank(before + block + rest) && Find(before + block + rest, MarkerLine(name)) == Some(start)
    requires Separated(rest) && |before| + |block| <= start
    ensures Stays(Upsert(Some(before + block + rest), name, e), before, block)
  {
    var body, n := before + block + rest, |before| + |block|;
    assert start > n by {
      assert body[n..] == rest;
      MatchIsLater(body, n, rest, name, start);
    }
    var behind := UpsertFound(body, name, e, start);
    Splice(before, block, rest, start - n, behind);
  }

  lemma UpsertFound(body: string, name: string, e: Entry, start: nat) returns (behind: string)
    requires !Blank(body) && Find(body, MarkerLine(name)) == Some(start)
    ensures Upsert(Some(body), name, e) == body[..start] + behind
  {
    behind := Block(name, e) + if EndOf(body, start) < |body| then "\n" + body[EndOf(body, start)..] else "";
  }

  lemma MatchIsLater(body: string, n: nat, rest: string, name: string, start: nat)
    requires n <= start && n <= |body| && body[n..] == rest && Separated(rest) && At(body, MarkerLine(name), start)
    ensures start > n
  {
    AtChar(body, MarkerLine(name), start, 0);
    assert rest != "" ==> body[n..][0] == body[n];
  }

  lemma Splice(before: string, block: string, rest: string, k: nat, behind: string)
    requires 0 < k <= |rest| && Separated(rest)
    ensures Stays((before + block + rest)[..|before| + |block| + k] + behind, before, block)
  {
    var rest' := rest[..k] + behind;
    assert Separated(rest');
    assert (before + block + rest)[..|before| + |block| + k] == before + block + rest[..k];
    assert before + block + rest[..k] + behind == before + block + rest';
  }

  lemma UpsertInBefore(before: string, block: string, rest: string, name: string, e: Entry, start: nat)
    requires !Blank(before + block + rest) && Find(before + block + rest, MarkerLine(name)) == Some(start)
    requires start < |before| && block != ""
    requires var end := EndOf(before + block + rest, start); end <= |before| || |before| + |block| <= end
    ensures
      var body := before + block + rest;
      var end := EndOf(body, start);
      Upsert(Some(body), name, e) ==
      before[..start] + Block(name, e) +
      (if end <= |before| then "\n" + before[end..] + block + rest
       else if end < |body| then "\n" + rest[end - |before| - |block|..] else "")
  {
    var body := before + block + rest;
    assert body[..start] == before[..start];
    BehindEnd(before, block, rest, EndOf(body, start));
  }

  lemma BehindEnd(before: string, block: string, rest: string, end: nat)
    requires end <= |before| || |before| + |block| <= end <= |before + block + rest|
    ensures "\n" + (before + block + rest)[end..] ==
            if end <= |before| then "\n" + before[end..] + block + rest else "\n" + rest[end - |before| - |block|..]
  {
    var body := before + block + rest;
    if end <= |before| {
      assert body[end..] == before[end..] + block + rest;
    } else {
      assert body[end..] == rest[end - |before| - |block|..];
    }
  }
}
