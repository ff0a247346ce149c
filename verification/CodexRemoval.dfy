/** Removal of managed blocks: when it undoes an upsert, and what it does to the blocks around. */
module CodexRemoval {
  import opened Wrappers
  import opened Text
  import opened CodexBlock
  import opened CodexTheorems

  predicate Newlines(s: string) { forall k :: 0 <= k < |s| ==> s[k] == '\n' }

  lemma {:induction false} TrimEndIs(s: string)
    ensures var t := TrimEnd(s);
      |t| <= |s| && s[..|t|] == t && Newlines(s[|t|..]) && (t != "" ==> t[|t| - 1] != '\n')
  {
    if s != "" && s[|s| - 1] == '\n' {
      var init := s[..|s| - 1];
      TrimEndIs(init);
      var t := TrimEnd(init);
      assert s[..|t|] == init[..|t|];
      assert s[|t|..] == init[|t|..] + [s[|s| - 1]];
    } else {
      assert s[..|s|] == s && s[|s|..] == "";
    }
  }

  lemma TrimEndIsUnique(s: string, t: string)
    requires |t| <= |s| && s[..|t|] == t && Newlines(s[|t|..]) && (t != "" ==> t[|t| - 1] != '\n')
    ensures TrimEnd(s) == t
  {
    TrimEndIs(s);
    var u := TrimEnd(s);
    assert t != "" ==> s[..|t|][|t| - 1] == s[|t| - 1];
    assert u != "" ==> s[..|u|][|u| - 1] == s[|u| - 1];
    if |u| < |t| {
      NewlineAt(s, |u|, |t| - 1);
    } else if |t| < |u| {
      NewlineAt(s, |t|, |u| - 1);
    }
  }

  lemma NewlineAt(s: string, n: int, k: int)
    requires 0 <= n <= k < |s| && Newlines(s[n..])
    ensures s[k] == '\n'
  {
    assert s[n..][k - n] == s[k];
  }

  lemma SomethingIsLeft(s: string)
    requires !Blank(s)
    ensures TrimEnd(s) != ""
  {
    TrimEndIs(s);
    assert s[0..] == s;
  }

  lemma OneNewlineIff(t: string, n: string)
    requires t != "" && t[|t| - 1] != '\n' && Newlines(n)
    ensures OneNewlineAtEnd(t + n) <==> n == "\n"
    ensures t + n == t + "\n" <==> n == "\n"
  {
    var text := t + n;
    assert text[|t|..] == n;
    if |n| == 1 {
      assert n == "\n" && text[|text| - 1..] == "\n";
    } else if |n| > 1 {
      assert text[|text| - 2] == n[|n| - 2];
    } else {
      assert text == t;
      if EndsWith(t, "\n") {
        LastChar(t, "\n");
      }
    }
  }

  lemma {:induction false} TrimStartIs(s: string)
    ensures var t := TrimStart(s);
      |t| <= |s| && s[|s| - |t|..] == t && Newlines(s[..|s| - |t|]) && (t != "" ==> t[0] != '\n')
  {
    if s != "" && s[0] == '\n' {
      TrimStartIs(s[1..]);
      var t := TrimStart(s[1..]);
      assert s[|s| - |t|..] == s[1..][|s[1..]| - |t|..];
      assert s[..|s| - |t|] == [s[0]] + s[1..][..|s[1..]| - |t|];
    } else {
      assert s[0..] == s && s[..0] == "";
    }
  }

  /** What is left of two texts once the block between them is gone: one newline, if both are something. */
  function Joined(before: string, rest: string): string {
    (if TrimEnd(before) == "" then "" else TrimEnd(before) + "\n") + TrimStart(rest)
  }

  /** Removing a block that is found and separated joins what was around it. */
  lemma RemoveJoins(before: string, name: string, e: Entry, rest: string)
    requires OneLine(name) && Valid(e) && Separated(rest)
    requires Find(before + Block(name, e) + rest, MarkerLine(name)) == Some(|before|)
    ensures Remove(before + Block(name, e) + rest, name) == Joined(before, rest)
  {
    var text := before + Block(name, e) + rest;
    BlockEnds(before, name, e, rest);
    assert text[..|before|] == before;
    var end := EndOf(text, |before|);
    if rest != "" {
      assert text[end..] == rest[1..];
      assert TrimStart(rest) == TrimStart(rest[1..]);
    } else {
      assert text[end..] == "";
    }
  }

  predicate OneNewlineAtEnd(text: string) {
    EndsWith(text, "\n") && (|text| > 1 ==> text[|text| - 2] != '\n')
  }

  /** A text that an upsert and the removal behind it leave as it was. */
  predicate Restored(text: string, name: string) {
    text == "" || (!Blank(text) && Find(text, MarkerLine(name)).None? && OneNewlineAtEnd(text))
  }

  /** Removing what was just upserted gives the text back exactly when it is empty, or has no such block and ends in one newline. */
  lemma RemoveUndoesUpsertIff(text: string, name: string, e: Entry)
    requires OneLine(name) && Valid(e)
    ensures Remove(Upsert(Some(text), name, e), name) == text <==> Restored(text, name)
  {
    UpsertSplits(Some(text), name, e);
    if BareMarker(Some(text), name) {
      BareMarkerStays(text, name, e);
    } else {
      RemoveJoins(Before(Some(text), name), name, e, Behind(Some(text), name));
      if Blank(text) {
        assert Joined("", "") == "";
      } else if Find(text, MarkerLine(name)).Some? {
        RemovedIsShorter(text, name);
      } else {
        AppendedIsUndone(text);
      }
    }
  }

  lemma AppendedIsUndone(text: string)
    requires !Blank(text)
    ensures Joined(Ended(text) + "\n", "") == text <==> OneNewlineAtEnd(text)
  {
    TrimEndIs(text);
    var t := TrimEnd(text);
    assert text == t + text[|t|..];
    var longer := Ended(text) + "\n";
    assert longer[..|t|] == t;
    forall k | |t| <= k < |longer| ensures longer[k] == '\n' {
      assert k < |text| ==> longer[k] == text[|t|..][k - |t|];
    }
    TrimEndIsUnique(longer, t);
    SomethingIsLeft(text);
    assert Joined(longer, "") == t + "\n";
    OneNewlineIff(t, text[|t|..]);
  }

  /** With a block found the outcome lacks at least its marker. */
  lemma RemovedIsShorter(text: string, name: string)
    requires OneLine(name) && Find(text, MarkerLine(name)).Some?
    ensures |Joined(Before(Some(text), name), Behind(Some(text), name))| < |text|
  {
    var start := Find(text, MarkerLine(name)).value;
    var end := EndOf(text, start);
    assert end >= start + |MarkerLine(name)| by { EndPastMarker(text, start, name); }
    if !Blank(text) {
      TrimEndIs(text[..start]);
      var behind := Behind(Some(text), name);
      TrimStartIs(behind);
      if behind != "" {
        assert behind[1..] == text[end..] && TrimStart(behind) == TrimStart(behind[1..]);
        TrimStartIs(behind[1..]);
      }
    } else {
      assert Joined("", "") == "";
    }
  }

  lemma EndPastMarker(text: string, start: nat, name: string)
    requires OneLine(name) && At(text, MarkerLine(name), start)
    ensures EndOf(text, start) >= start + |MarkerLine(name)|
  {
    var after, line := text[start..], MarkerLine(name);
    var blank := Find(after, "\n\n");
    assert OneLine(Marker(name));
    if blank.Some? && blank.value < |Marker(name)| {
      AtChar(after, "\n\n", blank.value, 0);
      AtChar(text, line, start, blank.value);
    }
  }

  /** A bare marker is taken for the block, and the block itself stays. */
  lemma BareMarkerStays(text: string, name: string, e: Entry)
    requires OneLine(name) && Valid(e) && BareMarker(Some(text), name)
    ensures Remove(Upsert(Some(text), name, e), name) != text && !EndsWith(text, "\n")
  {
    var out, block := Upsert(Some(text), name, e), Block(name, e);
    assert text[|text| - 1] != '\n' by { MarkerEnds(text, name); }
    assert !EndsWith(text, "\n") by {
      if EndsWith(text, "\n") { LastChar(text, "\n"); }
    }
    var front := RemovedBehindMarker(text, name, e);
    assert block != "" && block[|block| - 1] == '\n' by { BlockEndsInText(name, e); }
    assert (front + block)[|front + block| - 1] == '\n';
  }

  lemma MarkerEnds(text: string, name: string)
    requires OneLine(name) && EndsWith(text, Marker(name))
    ensures text != "" && text[|text| - 1] != '\n'
  {
    LastChar(text, Marker(name));
    assert OneLine(Marker(name));
  }

  lemma RemovedBehindMarker(text: string, name: string, e: Entry) returns (front: string)
    requires OneLine(name) && Valid(e) && BareMarker(Some(text), name)
    ensures Remove(Upsert(Some(text), name, e), name) == front + Block(name, e)
  {
    var out, block := Upsert(Some(text), name, e), Block(name, e);
    BareMarkerIsFound(text, name, e);
    BlockIsDense(name, e);
    assert out[|text| + 2..] == block;
    front := RemovedEnd(out, name, |text| - |Marker(name)|, block);
  }

  lemma RemovedEnd(text: string, name: string, start: nat, rest: string) returns (front: string)
    requires Find(text, MarkerLine(name)) == Some(start) && text[EndOf(text, start)..] == rest
    requires rest != "" && rest[0] != '\n'
    ensures Remove(text, name) == front + rest
  {
    var before := TrimEnd(text[..start]);
    front := if before == "" then "" else before + "\n";
  }

  // -------- Neighbours

  /**
   The block before a removed one keeps a blank line, or the end, behind it exactly when nothing but
   newlines was behind the removed one.
   */
  lemma RemoveSeparatesIff(head: string, a: string, ea: Entry, gap: string, name: string, e: Entry, rest: string)
    requires OneLine(name) && OneLine(a) && Valid(ea) && Valid(e) && Separated(rest) && Newlines(gap)
    requires Find(head + Block(a, ea) + gap + Block(name, e) + rest, MarkerLine(name)) == Some(|head + Block(a, ea) + gap|)
    ensures Remove(head + Block(a, ea) + gap + Block(name, e) + rest, name) == head + Block(a, ea) + TrimStart(rest)
    ensures Separated(TrimStart(rest)) <==> Newlines(rest)
  {
    var block := Block(a, ea);
    var before := head + block + gap;
    RemoveJoins(before, name, e, rest);
    BlockEndsInText(a, ea);
    var t := head + block[..|block| - 1];
    assert before[..|t|] == t;
    forall k | |t| <= k < |before| ensures before[k] == '\n' {
      if k >= |head + block| { assert before[k] == gap[k - |head + block|]; }
    }
    TrimEndIsUnique(before, t);
    assert t + "\n" == head + block;
    TrimStartIs(rest);
    var s := TrimStart(rest);
    if s == "" {
      assert rest[..|rest|] == rest;
    } else {
      assert rest[|rest| - |s|] == s[0];
    }
  }

  lemma BlockEndsInText(name: string, e: Entry)
    requires OneLine(name) && Valid(e)
    ensures var block := Block(name, e);
      |block| > 1 && block[|block| - 1] == '\n' && block[|block| - 2] != '\n' && block[..|block| - 1] + "\n" == block
  {
  }

  /** A marker is found at the front of a block right away. */
  lemma FrontIsFound(name: string, e: Entry, rest: string)
    ensures Find(Block(name, e) + rest, MarkerLine(name)) == Some(0)
  {
    FrontAt(MarkerLine(name), Fields(name, e), rest);
    FoundAt(Block(name, e) + rest, MarkerLine(name), 0);
  }

  lemma FrontAt(line: string, fields: string, rest: string)
    ensures At(line + fields + rest, line, 0)
  {
    assert (line + fields + rest)[0..|line|] == line;
  }

  /** With another name's block in front, a block is found behind it. */
  lemma BehindIsFound(a: string, ea: Entry, gap: string, name: string, e: Entry, rest: string)
    requires BareKey(a) && BareKey(name) && a != name && Valid(ea) && (gap == "" || gap == "\n")
    ensures Find(Block(a, ea) + gap + Block(name, e) + rest, MarkerLine(name)) == Some(|Block(a, ea) + gap|)
  {
    var line, front := MarkerLine(name), Block(a, ea) + gap;
    var text := front + Block(name, e) + rest;
    Starts(front, line, Fields(name, e), rest);
    forall j | 0 <= j < |front| ensures !At(text, line, j) {
      if At(text, line, j) {
        assert text == Block(a, ea) + gap + (Block(name, e) + rest);
        NotInFront(Block(a, ea), gap, Block(name, e) + rest, name, a, ea, j);
      }
    }
    FoundAt(text, line, |front|);
  }

  lemma NotInFront(block: string, gap: string, after: string, name: string, a: string, ea: Entry, j: nat)
    requires BareKey(a) && BareKey(name) && a != name && Valid(ea) && (gap == "" || gap == "\n")
    requires block == Block(a, ea) && At(block + gap + after, MarkerLine(name), j)
    ensures j >= |block + gap|
  {
    var text := block + gap + after;
    assert text[j] == '#' by { AtChar(text, MarkerLine(name), j, 0); }
    assert gap != "" ==> text[|block|] == '\n';
    assert j >= |block| by {
      Regroup(block, gap, after);
      MatchAvoids("", name, a, ea, gap + after, j);
    }
  }

  lemma Regroup(a: string, b: string, c: string)
    ensures a + b + c == "" + a + (b + c)
  {
    assert "" + a == a;
  }

  /**
   Three blocks, each but the last with a blank line behind it, as upserts write them. The middle one is
   removed; then the next upsert of the first takes the third along.
   */
  lemma RemovalLetsUpsertSwallow(a: string, b: string, c: string, ea: Entry, eb: Entry, ec: Entry, next: Entry)
    requires BareKey(a) && BareKey(b) && BareKey(c) && a != b && b != c && a != c
    requires Valid(ea) && Valid(eb) && Valid(ec)
    ensures
      var file := Upsert(Some(Upsert(Some(Upsert(None, a, ea)), b, eb)), c, ec);
      var removed := Remove(file, b);
      && file == Block(a, ea) + "\n" + Block(b, eb) + "\n" + Block(c, ec)
      && removed == Block(a, ea) + Block(c, ec)
      && Upsert(Some(removed), a, next) == Block(a, next)
  {
    AppendsBehind(a, ea, b, eb);
    AppendsThird(a, ea, b, eb, c, ec);
    RemovesMiddle(a, ea, b, eb, c, ec);
    SwallowsNext(a, ea, c, ec, next);
  }

  lemma RemovesMiddle(a: string, ea: Entry, b: string, eb: Entry, c: string, ec: Entry)
    requires BareKey(a) && BareKey(b) && OneLine(c) && a != b && Valid(ea) && Valid(eb) && Valid(ec)
    ensures Remove(Block(a, ea) + "\n" + Block(b, eb) + "\n" + Block(c, ec), b) == Block(a, ea) + Block(c, ec)
  {
    var ba, bb, bc := Block(a, ea), Block(b, eb), Block(c, ec);
    BehindIsFound(a, ea, "\n", b, eb, "\n" + bc);
    FourParts(ba, bb, bc);
    TrimmedOnce(c, ec);
    RemovesBetween(a, ea, b, eb, "\n" + bc);
  }

  lemma RemovesBetween(a: string, ea: Entry, b: string, eb: Entry, rest: string)
    requires OneLine(a) && OneLine(b) && Valid(ea) && Valid(eb) && Separated(rest)
    requires Find(Block(a, ea) + "\n" + Block(b, eb) + rest, MarkerLine(b)) == Some(|Block(a, ea) + "\n"|)
    ensures Remove(Block(a, ea) + "\n" + Block(b, eb) + rest, b) == Block(a, ea) + TrimStart(rest)
  {
    assert "" + Block(a, ea) == Block(a, ea);
    RemoveSeparatesIff("", a, ea, "\n", b, eb, rest);
  }

  lemma TrimmedOnce(c: string, ec: Entry)
    requires OneLine(c) && Valid(ec)
    ensures TrimStart("\n" + Block(c, ec)) == Block(c, ec)
  {
    BlockIsDense(c, ec);
    assert ("\n" + Block(c, ec))[1..] == Block(c, ec);
    assert TrimStart(Block(c, ec)) == Block(c, ec);
  }

  lemma FourParts(a: string, b: string, c: string)
    ensures "" + a + "\n" + b + ("\n" + c) == a + "\n" + b + ("\n" + c) == a + "\n" + b + "\n" + c
    ensures "" + a + "\n" == a + "\n"
  {
    assert "" + a == a;
  }

  lemma AppendsBehind(a: string, ea: Entry, name: string, e: Entry)
    requires BareKey(a) && BareKey(name) && a != name && Valid(ea)
    ensures Upsert(Some(Upsert(None, a, ea)), name, e) == Block(a, ea) + "\n" + Block(name, e)
  {
    var text := Block(a, ea);
    BlockIsDense(a, ea);
    assert text[0] == '#' && !Space('#');
    if Find(text, MarkerLine(name)).Some? {
      NoMatchInBlock(name, a, ea, Find(text, MarkerLine(name)).value);
    }
  }

  lemma NoMatchInBlock(name: string, other: string, e: Entry, k: nat)
    requires BareKey(name) && BareKey(other) && name != other && Valid(e)
    ensures !At(Block(other, e), MarkerLine(name), k)
  {
    if At(Block(other, e), MarkerLine(name), k) {
      MarkerTellsNames(name, other, e, k);
    }
  }

  lemma AppendsThird(a: string, ea: Entry, b: string, eb: Entry, c: string, ec: Entry)
    requires BareKey(a) && BareKey(b) && BareKey(c) && a != c && b != c && Valid(ea) && Valid(eb)
    ensures var two := Block(a, ea) + "\n" + Block(b, eb);
      Upsert(Some(two), c, ec) == two + "\n" + Block(c, ec)
  {
    var two := Block(a, ea) + "\n" + Block(b, eb);
    BlockIsDense(a, ea);
    BlockIsDense(b, eb);
    assert two[0] == '#' && !Space('#');
    assert two[|two| - 1..] == "\n" by { LastChar(Block(b, eb), "\n"); }
    if Find(two, MarkerLine(c)).Some? {
      NoThird(a, ea, b, eb, c, Find(two, MarkerLine(c)).value);
    }
  }

  lemma NoThird(a: string, ea: Entry, b: string, eb: Entry, c: string, k: nat)
    requires BareKey(a) && BareKey(b) && BareKey(c) && a != c && b != c && Valid(ea) && Valid(eb)
    ensures !At(Block(a, ea) + "\n" + Block(b, eb), MarkerLine(c), k)
  {
    var ba, bb := Block(a, ea), Block(b, eb);
    var two := ba + "\n" + bb;
    if At(two, MarkerLine(c), k) {
      assert two == ba + "\n" + (bb + "") && two == (ba + "\n") + bb + "";
      NotInFront(ba, "\n", bb + "", c, a, ea, k);
      MatchAvoids(ba + "\n", c, b, eb, "", k);
    }
  }

  lemma SwallowsNext(a: string, ea: Entry, c: string, ec: Entry, next: Entry)
    requires OneLine(a) && OneLine(c) && Valid(ea) && Valid(ec)
    ensures Upsert(Some(Block(a, ea) + Block(c, ec)), a, next) == Block(a, next)
  {
    var text := Block(a, ea) + Block(c, ec);
    assert text[0] == '#' && !Space('#');
    FrontIsFound(a, ea, Block(c, ec));
    BlockIsDense(a, ea);
    BlockIsDense(c, ec);
    forall k: nat ensures !At(text, "\n\n", k) {
      if At(text, "\n\n", k) {
        AtChar(text, "\n\n", k, 0);
        AtChar(text, "\n\n", k, 1);
        BlankNotHere(Block(a, ea), Block(c, ec), k);
      }
    }
    assert text[0..] == text;
    assert Find(text, "\n\n").None?;
  }

  lemma BlankNotHere(a: string, c: string, k: nat)
    requires Dense(a) && Dense(c) && a != "" && c != "" && c[0] == '#' && k + 1 < |a + c|
    ensures (a + c)[k] != '\n' || (a + c)[k + 1] != '\n'
  {
  }
}
