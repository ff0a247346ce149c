/**
 A whole config.toml of managed blocks, each behind some other text: what an upsert makes of it.
 */
module CodexFile {
  import opened Wrappers
  import opened Text
  import opened CodexBlock
  import opened CodexTheorems

  /** A managed block and the text in front of it. */
  datatype Part = Part(gap: string, name: string, entry: Entry)

  function Front(part: Part): string {
    part.gap + Block(part.name, part.entry)
  }

  function Layout(parts: seq<Part>, tail: string): string {
    if parts == [] then tail else Front(parts[0]) + Layout(parts[1..], tail)
  }

  /** Blocks of different names, a blank line behind each but the last, and behind that one nothing or a blank line. */
  predicate WellSeparated(parts: seq<Part>, tail: string) {
    && (forall i :: 0 <= i < |parts| ==> BareKey(parts[i].name) && Valid(parts[i].entry))
    && (forall i, j :: 0 <= i < j < |parts| ==> parts[i].name != parts[j].name)
    && (forall i :: 1 <= i < |parts| ==> parts[i].gap != "" && parts[i].gap[0] == '\n')
    && Separated(tail)
  }

  /** The marker of `name` is first found there; folded. */
  ghost predicate FoundAs(text: string, name: string, r: Option<nat>) {
    forall t {:trigger Find(t, MarkerLine(name))} :: t == text ==> Find(t, MarkerLine(name)) == r
  }

  /** The marker of `name` is nowhere but in blocks. */
  ghost predicate NoStrayMarker(parts: seq<Part>, tail: string, name: string) {
    && (forall i :: 0 <= i < |parts| ==> FoundAs(parts[i].gap, name, None))
    && FoundAs(tail, name, None)
  }

  /** Where the block of `name` begins. */
  function Place(parts: seq<Part>, name: string): Option<nat> {
    if parts == [] then None
    else if parts[0].name == name then Some(|parts[0].gap|)
    else
      var p := Place(parts[1..], name);
      if p.None? then None else Some(|Front(parts[0])| + p.value)
  }

  lemma RestIsSeparated(parts: seq<Part>, tail: string, name: string)
    requires parts != [] && WellSeparated(parts, tail) && NoStrayMarker(parts, tail, name)
    ensures WellSeparated(parts[1..], tail) && NoStrayMarker(parts[1..], tail, name)
  {
    forall i | 0 <= i < |parts[1..]| ensures parts[1..][i] == parts[i + 1] {
    }
  }

  lemma AtShift(before: string, rest: string, pattern: string, k: nat)
    ensures At(before + rest, pattern, |before| + k) <==> At(rest, pattern, k)
  {
    if k + |pattern| <= |rest| {
      assert (before + rest)[|before| + k..|before| + k + |pattern|] == rest[k..k + |pattern|];
    }
  }

  lemma FoundInGap(gap: string, name: string, block: string, rest: string, j: nat)
    requires BareKey(name) && block != "" && block[0] == '#' && Find(gap, MarkerLine(name)).None?
    requires j < |gap|
    ensures !At(gap + block + rest, MarkerLine(name), j)
  {
    assert gap + block + rest == gap + (block + rest);
    if At(gap + block + rest, MarkerLine(name), j) {
      MarkerNotInto(gap, name, block + rest, j);
      assert (gap + (block + rest))[..|gap|] == gap;
      AtSame(gap + (block + rest), gap, |gap|, MarkerLine(name), j);
    }
  }

  lemma NotInOther(part: Part, name: string, rest: string, j: nat)
    requires BareKey(name) && BareKey(part.name) && name != part.name && Valid(part.entry)
    requires Find(part.gap, MarkerLine(name)).None?
    requires j < |Front(part)|
    ensures !At(Front(part) + rest, MarkerLine(name), j)
  {
    var block := Block(part.name, part.entry);
    if j < |part.gap| {
      FoundInGap(part.gap, name, block, rest, j);
    } else if At(part.gap + block + rest, MarkerLine(name), j) {
      MatchAvoids(part.gap, name, part.name, part.entry, rest, j);
    }
  }

  lemma FindShift(before: string, rest: string, line: string)
    requires forall j :: 0 <= j < |before| ==> !At(before + rest, line, j)
    ensures var found := Find(rest, line);
      Find(before + rest, line) == if found.None? then None else Some(|before| + found.value)
  {
    forall j: nat | j >= |before|
      ensures At(before + rest, line, j) <==> At(rest, line, j - |before|)
    {
      AtShift(before, rest, line, j - |before|);
    }
    var found := Find(rest, line);
    if found.Some? {
      FoundAt(before + rest, line, |before| + found.value);
    }
  }

  lemma FindBehind(part: Part, name: string, rest: string)
    requires BareKey(name) && BareKey(part.name) && name != part.name && Valid(part.entry)
    requires Find(part.gap, MarkerLine(name)).None?
    ensures var found := Find(rest, MarkerLine(name));
      Find(Front(part) + rest, MarkerLine(name)) == if found.None? then None else Some(|Front(part)| + found.value)
  {
    var before, line := Front(part), MarkerLine(name);
    forall j | 0 <= j < |before| ensures !At(before + rest, line, j) {
      NotInOther(part, name, rest, j);
    }
    FindShift(before, rest, line);
  }

  lemma FindOwn(part: Part, rest: string)
    requires BareKey(part.name) && Find(part.gap, MarkerLine(part.name)).None?
    ensures Find(Front(part) + rest, MarkerLine(part.name)) == Some(|part.gap|)
  {
    var line, block := MarkerLine(part.name), Block(part.name, part.entry);
    Starts(part.gap, line, Fields(part.name, part.entry), rest);
    forall j | 0 <= j < |part.gap| ensures !At(part.gap + block + rest, line, j) {
      FoundInGap(part.gap, part.name, block, rest, j);
    }
    FoundAt(part.gap + block + rest, line, |part.gap|);
  }

  function Later(part: Part, p: Option<nat>): Option<nat> {
    if p.None? then None else Some(|Front(part)| + p.value)
  }

  lemma FoundBehind(part: Part, name: string, rest: string, p: Option<nat>)
    requires BareKey(name) && BareKey(part.name) && Valid(part.entry) && part.name != name
    requires FoundAs(part.gap, name, None) && FoundAs(rest, name, p)
    ensures FoundAs(Front(part) + rest, name, Later(part, p))
  {
    assert Find(rest, MarkerLine(name)) == p && Find(part.gap, MarkerLine(name)).None?;
    FindBehind(part, name, rest);
  }

  lemma FoundFirst(part: Part, rest: string)
    requires BareKey(part.name) && FoundAs(part.gap, part.name, None)
    ensures FoundAs(Front(part) + rest, part.name, Some(|part.gap|))
  {
    assert Find(part.gap, MarkerLine(part.name)).None?;
    FindOwn(part, rest);
  }

  lemma {:induction false} FoundInPlace(parts: seq<Part>, tail: string, name: string)
    requires WellSeparated(parts, tail) && NoStrayMarker(parts, tail, name) && BareKey(name)
    ensures FoundAs(Layout(parts, tail), name, Place(parts, name))
    decreases |parts|
  {
    if parts != [] {
      FirstIsGood(parts, tail, name);
      if parts[0].name == name {
        FoundFirst(parts[0], Layout(parts[1..], tail));
      } else {
        assert FoundAs(Layout(parts[1..], tail), name, Place(parts[1..], name)) by {
          RestIsSeparated(parts, tail, name);
          FoundInPlace(parts[1..], tail, name);
        }
        FoundBehind(parts[0], name, Layout(parts[1..], tail), Place(parts[1..], name));
      }
    }
  }

  /** In such a file a marker is found at its block, or not at all. */
  lemma FindsOwnBlock(parts: seq<Part>, tail: string, name: string)
    requires WellSeparated(parts, tail) && NoStrayMarker(parts, tail, name) && BareKey(name)
    ensures Find(Layout(parts, tail), MarkerLine(name)) == Place(parts, name)
  {
    FoundInPlace(parts, tail, name);
  }

  lemma FirstIsGood(parts: seq<Part>, tail: string, name: string)
    requires parts != [] && WellSeparated(parts, tail) && NoStrayMarker(parts, tail, name)
    ensures BareKey(parts[0].name) && Valid(parts[0].entry) && FoundAs(parts[0].gap, name, None)
  {
  }

  /** The text in front of block `i`. */
  function Ahead(parts: seq<Part>, i: nat): string
    requires i < |parts|
  {
    if i == 0 then parts[0].gap
    else Front(parts[0]) + Ahead(parts[1..], i - 1)
  }

  lemma Joined(first: string, a: string, b: string, c: string)
    ensures first + (a + b + c) == first + a + b + c
  {
  }

  lemma LayoutStep(parts: seq<Part>, tail: string, i: nat, block: string, rest: string)
    requires 0 < i < |parts| && Layout(parts[1..], tail) == Ahead(parts[1..], i - 1) + block + rest
    ensures Layout(parts, tail) == Ahead(parts, i) + block + rest
  {
    Joined(Front(parts[0]), Ahead(parts[1..], i - 1), block, rest);
  }

  lemma {:induction false} LayoutSplits(parts: seq<Part>, tail: string, i: nat)
    requires i < |parts|
    ensures Layout(parts, tail) == Ahead(parts, i) + Block(parts[i].name, parts[i].entry) + Layout(parts[i + 1..], tail)
  {
    if i > 0 {
      assert parts[1..][i..] == parts[i + 1..] && parts[1..][i - 1] == parts[i];
      LayoutSplits(parts[1..], tail, i - 1);
      LayoutStep(parts, tail, i, Block(parts[i].name, parts[i].entry), Layout(parts[i + 1..], tail));
    }
  }

  lemma {:induction false} AheadKept(parts: seq<Part>, i: nat, part: Part)
    requires i < |parts| && part.gap == parts[i].gap
    ensures Ahead(parts[i := part], i) == Ahead(parts, i)
  {
    if i > 0 {
      assert parts[i := part][1..] == parts[1..][i - 1 := part];
      AheadKept(parts[1..], i - 1, part);
    }
  }

  lemma {:induction false} PlaceIs(parts: seq<Part>, tail: string, i: nat)
    requires i < |parts| && WellSeparated(parts, tail)
    ensures Place(parts, parts[i].name) == Some(|Ahead(parts, i)|)
  {
    if i > 0 {
      assert parts[1..][i - 1] == parts[i];
      assert WellSeparated(parts[1..], tail) by {
        forall k | 0 <= k < |parts[1..]| ensures parts[1..][k] == parts[k + 1] {
        }
      }
      PlaceIs(parts[1..], tail, i - 1);
    }
  }

  lemma {:induction false} PlaceNone(parts: seq<Part>, name: string)
    requires forall i :: 0 <= i < |parts| ==> parts[i].name != name
    ensures Place(parts, name) == None
  {
    if parts != [] {
      forall i | 0 <= i < |parts[1..]| ensures parts[1..][i].name != name {
        assert parts[1..][i] == parts[i + 1];
      }
      PlaceNone(parts[1..], name);
    }
  }

  lemma {:induction false} Behind(parts: seq<Part>, tail: string, i: nat)
    requires i < |parts| && WellSeparated(parts, tail)
    ensures Separated(Layout(parts[i + 1..], tail))
    ensures Layout(parts[i + 1..], tail) == "\n" <==> i == |parts| - 1 && tail == "\n"
  {
    if i < |parts| - 1 {
      var rest := parts[i + 1..];
      assert rest[0] == parts[i + 1];
      assert Layout(rest, tail)[0] == parts[i + 1].gap[0];
      assert |Layout(rest, tail)| > 1;
    } else {
      assert parts[i + 1..] == [];
    }
  }

  /** The file with the entry of block `i` replaced. */
  function Replaced(parts: seq<Part>, i: nat, e: Entry): seq<Part>
    requires i < |parts|
  {
    parts[i := parts[i].(entry := e)]
  }

  function TailAfter(parts: seq<Part>, i: nat, tail: string): string {
    if i == |parts| - 1 && tail == "\n" then "" else tail
  }

  lemma ReplacedSplits(parts: seq<Part>, tail: string, i: nat, e: Entry)
    requires WellSeparated(parts, tail) && i < |parts|
    ensures var rest := Layout(parts[i + 1..], tail);
      Layout(Replaced(parts, i, e), TailAfter(parts, i, tail)) ==
        Ahead(parts, i) + Block(parts[i].name, e) + (if rest == "\n" then "" else rest)
  {
    var parts', tail' := Replaced(parts, i, e), TailAfter(parts, i, tail);
    LayoutSplits(parts', tail', i);
    AheadKept(parts, i, parts[i].(entry := e));
    assert parts'[i + 1..] == parts[i + 1..];
    Behind(parts, tail, i);
    assert i == |parts| - 1 ==> parts[i + 1..] == [];
  }

  lemma ReplacedIsSeparated(parts: seq<Part>, tail: string, i: nat, e: Entry)
    requires WellSeparated(parts, tail) && i < |parts| && Valid(e)
    ensures WellSeparated(Replaced(parts, i, e), TailAfter(parts, i, tail))
  {
    var parts' := Replaced(parts, i, e);
    assert forall k :: 0 <= k < |parts| ==> parts'[k].name == parts[k].name && parts'[k].gap == parts[k].gap;
  }

  /**
   An upsert of a name that has a block: that block is replaced, every other block and all text between
   stay, and the file is as well separated as before. Only a lone newline behind the last block goes with it.
   */
  lemma UpsertReplacesItsBlock(parts: seq<Part>, tail: string, i: nat, e: Entry)
    requires WellSeparated(parts, tail) && i < |parts| && NoStrayMarker(parts, tail, parts[i].name) && Valid(e)
    ensures Upsert(Some(Layout(parts, tail)), parts[i].name, e) ==
            Layout(Replaced(parts, i, e), TailAfter(parts, i, tail))
    ensures WellSeparated(Replaced(parts, i, e), TailAfter(parts, i, tail))
  {
    var part, rest := parts[i], Layout(parts[i + 1..], tail);
    LayoutSplits(parts, tail, i);
    assert Find(Layout(parts, tail), MarkerLine(part.name)) == Some(|Ahead(parts, i)|) by {
      FindsOwnBlock(parts, tail, part.name);
      PlaceIs(parts, tail, i);
    }
    assert Separated(rest) by { Behind(parts, tail, i); }
    ReplacesOnlyTheBlock(Ahead(parts, i), part.name, part.entry, e, rest);
    ReplacedSplits(parts, tail, i, e);
    ReplacedIsSeparated(parts, tail, i, e);
  }

  /** What an append puts between the last block and its own. */
  function AppendGap(body: string, tail: string): string {
    (if EndsWith(body, "\n") then tail else tail + "\n") + "\n"
  }

  lemma {:induction false} LayoutAppends(parts: seq<Part>, tail: string, more: string)
    ensures Layout(parts, tail) + more == Layout(parts, tail + more)
  {
    if parts != [] {
      var first := Front(parts[0]);
      LayoutAppends(parts[1..], tail, more);
      assert first + Layout(parts[1..], tail) + more == first + (Layout(parts[1..], tail) + more);
    }
  }

  lemma {:induction false} LayoutMore(parts: seq<Part>, part: Part)
    ensures Layout(parts + [part], "") == Layout(parts, part.gap + Block(part.name, part.entry))
  {
    if parts == [] {
      assert [part][1..] == [] && [] + [part] == [part];
      assert part.gap + Block(part.name, part.entry) + "" == part.gap + Block(part.name, part.entry);
    } else {
      assert (parts + [part])[1..] == parts[1..] + [part];
      LayoutMore(parts[1..], part);
    }
  }

  lemma BlockEndsText(before: string, name: string, e: Entry)
    requires OneLine(name) && Valid(e)
    ensures EndsWith(before + Block(name, e), "\n")
  {
    BlockIsDense(name, e);
    var block := Block(name, e);
    assert (before + block)[|before + block| - 1..] == block[|block| - 1..];
  }

  lemma LayoutEnds(parts: seq<Part>)
    requires parts != [] && WellSeparated(parts, "")
    ensures EndsWith(Layout(parts, ""), "\n")
  {
    var i := |parts| - 1;
    var before, last := Ahead(parts, i), parts[i];
    LayoutSplits(parts, "", i);
    assert BareKey(last.name) && Valid(last.entry);
    BlockEndsText(before, last.name, last.entry);
    assert parts[i + 1..] == [];
    assert Layout(parts, "") == before + Block(last.name, last.entry) + "";
    assert before + Block(last.name, last.entry) + "" == before + Block(last.name, last.entry);
  }

  lemma AppendSplits(body: string, name: string, e: Entry)
    requires !Blank(body) && Find(body, MarkerLine(name)).None?
    ensures Upsert(Some(body), name, e) == body + ((if EndsWith(body, "\n") then "\n" else "\n\n") + Block(name, e))
  {
    assert body + "\n" + "\n" == body + "\n\n";
  }

  lemma AddedIsSeparated(parts: seq<Part>, tail: string, name: string, e: Entry)
    requires parts != [] && WellSeparated(parts, tail) && BareKey(name) && Valid(e)
    requires forall i :: 0 <= i < |parts| ==> parts[i].name != name
    ensures WellSeparated(parts + [Part(AppendGap(Layout(parts, tail), tail), name, e)], "")
  {
    if tail == "" {
      LayoutEnds(parts);
    }
    var added := Part(AppendGap(Layout(parts, tail), tail), name, e);
    assert added.gap != "" && added.gap[0] == '\n';
    assert forall i :: 0 <= i < |parts| ==> (parts + [added])[i] == parts[i];
  }

  lemma GapJoins(body: string, tail: string, block: string)
    ensures tail + ((if EndsWith(body, "\n") then "\n" else "\n\n") + block) == AppendGap(body, tail) + block
  {
    assert tail + "\n" + "\n" == tail + "\n\n";
  }

  /** An upsert of a new name puts its block behind all others, which stay, separated like the rest. */
  lemma UpsertAddsItsBlock(parts: seq<Part>, tail: string, name: string, e: Entry)
    requires parts != [] && WellSeparated(parts, tail) && NoStrayMarker(parts, tail, name) && BareKey(name) && Valid(e)
    requires forall i :: 0 <= i < |parts| ==> parts[i].name != name
    ensures
      var parts' := parts + [Part(AppendGap(Layout(parts, tail), tail), name, e)];
      Upsert(Some(Layout(parts, tail)), name, e) == Layout(parts', "") && WellSeparated(parts', "")
  {
    var body := Layout(parts, tail);
    var more := (if EndsWith(body, "\n") then "\n" else "\n\n") + Block(name, e);
    assert Upsert(Some(body), name, e) == body + more by {
      FindsOwnBlock(parts, tail, name);
      PlaceNone(parts, name);
      NotBlank(parts, tail);
      AppendSplits(body, name, e);
    }
    LayoutAppends(parts, tail, more);
    GapJoins(body, tail, Block(name, e));
    LayoutMore(parts, Part(AppendGap(body, tail), name, e));
    AddedIsSeparated(parts, tail, name, e);
  }

  lemma NotBlank(parts: seq<Part>, tail: string)
    requires parts != []
    ensures !Blank(Layout(parts, tail))
  {
    assert Layout(parts, tail)[|parts[0].gap|] == '#' && !Space('#');
  }
}
