/**
 The login callback of apps/desktop/src/auth.rs, 299-357: percent-encoding per RFC 3986 (sections 2.1
 and 2.3), its decoder, and the parser of the request line that carries `code` and `state`.
 */
module Callback {
  import opened Wrappers
  import opened Text

  type Byte = b: int | 0 <= b < 256

  predicate Ascii(s: string) { forall k :: 0 <= k < |s| ==> s[k] < '\U{80}' }

  /** The bytes of a character in UTF-8. */
  function CharBytes(c: char): seq<Byte> {
    var n := c as int;
    if n < 0x80 then [n]
    else if n < 0x800 then [0xC0 + n / 64, 0x80 + n % 64]
    else if n < 0x1_0000 then [0xE0 + n / 4096, 0x80 + n / 64 % 64, 0x80 + n % 64]
    else [0xF0 + n / 262144 % 8, 0x80 + n / 4096 % 64, 0x80 + n / 64 % 64, 0x80 + n % 64]
  }

  function Utf8(s: string): seq<Byte> {
    if s == "" then [] else CharBytes(s[0]) + Utf8(s[1..])
  }

  /** Every byte as the character of that number. */
  function Latin1(bytes: seq<Byte>): string {
    if bytes == [] then "" else [bytes[0] as char] + Latin1(bytes[1..])
  }

  predicate Unreserved(c: char) {
    'A' <= c <= 'Z' || 'a' <= c <= 'z' || '0' <= c <= '9' || c in {'-', '_', '.', '~'}
  }

  function HexDigit(d: int): char
    requires 0 <= d < 16
  {
    if d < 10 then '0' + d as char else 'A' + (d - 10) as char
  }

  function EncodeByte(b: Byte): string {
    if Unreserved(b as char) then [b as char] else ['%', HexDigit(b / 16), HexDigit(b % 16)]
  }

  function Encode(bytes: seq<Byte>): string {
    if bytes == [] then "" else EncodeByte(bytes[0]) + Encode(bytes[1..])
  }

  function PercentEncoded(s: string): string { Encode(Utf8(s)) }

  function HexValue(b: Byte): Option<int> {
    if 48 <= b <= 57 then Some(b - 48)
    else if 65 <= b <= 70 then Some(b - 55)
    else if 97 <= b <= 102 then Some(b - 87)
    else None
  }

  /** `from_str_radix` on two bytes: two digits, or a plus sign and one. */
  function HexPair(a: Byte, b: Byte): Option<Byte> {
    var low := HexValue(b);
    if low.None? then None
    else if a == 43 then Some(low.value)
    else if HexValue(a).Some? then Some(16 * HexValue(a).value + low.value)
    else None
  }

  function Decode(bytes: seq<Byte>): string {
    if bytes == [] then ""
    else if bytes[0] == 43 then [' '] + Decode(bytes[1..])
    else if bytes[0] == 37 && |bytes| > 2 && HexPair(bytes[1], bytes[2]).Some? then
      [HexPair(bytes[1], bytes[2]).value as char] + Decode(bytes[3..])
    else [bytes[0] as char] + Decode(bytes[1..])
  }

  function UrlDecoded(s: string): string { Decode(Utf8(s)) }

  // -------- Encoding and decoding

  lemma {:induction false} Utf8OfAscii(s: string)
    requires Ascii(s)
    ensures |Utf8(s)| == |s| && Latin1(Utf8(s)) == s
    ensures forall k :: 0 <= k < |s| ==> Utf8(s)[k] == s[k] as int
  {
    if s != "" {
      Utf8OfAscii(s[1..]);
    }
  }

  lemma {:induction false} Utf8Concat(a: string, b: string)
    ensures Utf8(a + b) == Utf8(a) + Utf8(b)
  {
    if a == "" {
      assert a + b == b;
    } else {
      Utf8Concat(a[1..], b);
      assert (a + b)[1..] == a[1..] + b && (a + b)[0] == a[0];
      Assoc(CharBytes(a[0]), Utf8(a[1..]), Utf8(b));
    }
  }

  lemma Assoc<T>(a: seq<T>, b: seq<T>, c: seq<T>)
    ensures a + b + c == a + (b + c)
  {
  }

  /** An encoded text holds unreserved characters, percent signs and upper-case digits only: no separator. */
  lemma {:induction false} EncodedIsPlain(bytes: seq<Byte>)
    ensures forall k :: 0 <= k < |Encode(bytes)| ==> Unreserved(Encode(bytes)[k]) || Encode(bytes)[k] == '%'
  {
    if bytes != [] {
      EncodedIsPlain(bytes[1..]);
      assert forall k :: 0 <= k < |EncodeByte(bytes[0])| ==>
          Unreserved(EncodeByte(bytes[0])[k]) || EncodeByte(bytes[0])[k] == '%';
    }
  }

  lemma DecodeOne(b: Byte, rest: seq<Byte>)
    ensures Decode(Utf8(EncodeByte(b)) + rest) == [b as char] + Decode(rest)
  {
    var encoded := EncodeByte(b);
    Utf8OfAscii(encoded);
    var bytes := Utf8(encoded) + rest;
    if Unreserved(b as char) {
      assert bytes == [b] + rest;
    } else {
      assert bytes[0] == 37 && bytes[1] == HexDigit(b / 16) as int && bytes[2] == HexDigit(b % 16) as int;
      assert HexPair(bytes[1], bytes[2]) == Some(b);
      assert bytes[3..] == rest;
    }
  }

  /** Decoding undoes encoding for every sequence of bytes; each comes back as the character of its number. */
  lemma {:induction false} DecodeUndoesEncode(bytes: seq<Byte>)
    ensures UrlDecoded(Encode(bytes)) == Latin1(bytes)
  {
    if bytes != [] {
      DecodeUndoesEncode(bytes[1..]);
      Utf8Concat(EncodeByte(bytes[0]), Encode(bytes[1..]));
      DecodeOne(bytes[0], Utf8(Encode(bytes[1..])));
    }
  }

  lemma {:induction false} Latin1Length(bytes: seq<Byte>)
    ensures |Latin1(bytes)| == |bytes|
  {
    if bytes != [] {
      Latin1Length(bytes[1..]);
    }
  }

  lemma {:induction false} Utf8Grows(s: string)
    ensures |Utf8(s)| >= |s|
    ensures |Utf8(s)| == |s| ==> Ascii(s)
  {
    if s != "" {
      Utf8Grows(s[1..]);
      assert s == [s[0]] + s[1..];
    }
  }

  /** A text survives the two exactly when it is ASCII. */
  lemma TextSurvivesIff(s: string)
    ensures UrlDecoded(PercentEncoded(s)) == s <==> Ascii(s)
  {
    DecodeUndoesEncode(Utf8(s));
    if Ascii(s) {
      Utf8OfAscii(s);
    } else {
      Latin1Length(Utf8(s));
      Utf8Grows(s);
    }
  }

  // -------- The request line

  function FirstSpace(s: string): nat
    ensures FirstSpace(s) <= |s|
  {
    if s == "" || Space(s[0]) then 0 else 1 + FirstSpace(s[1..])
  }

  function SkipSpaces(s: string): string {
    if s != "" && Space(s[0]) then SkipSpaces(s[1..]) else s
  }

  /** The second of the words that white space splits the line into. */
  function SecondWord(line: string): Option<string> {
    var first := SkipSpaces(line);
    var second := SkipSpaces(first[FirstSpace(first)..]);
    if second == "" then None else Some(second[..FirstSpace(second)])
  }

  predicate HasPrefix(s: string, prefix: string) {
    |prefix| <= |s| && s[..|prefix|] == prefix
  }

  /** The value of the last part that begins with `prefix`. */
  function Param(parts: seq<string>, prefix: string): Option<string> {
    if parts == [] then None
    else if HasPrefix(parts[|parts| - 1], prefix) then Some(UrlDecoded(parts[|parts| - 1][|prefix|..]))
    else Param(parts[..|parts| - 1], prefix)
  }

  function ParseQuery(parts: seq<string>): Option<(string, string)> {
    var code, state := Param(parts, "code="), Param(parts, "state=");
    if code.Some? && state.Some? then Some((code.value, state.value)) else None
  }

  function Parse(line: string): Option<(string, string)> {
    var path := SecondWord(line);
    if path.None? then None
    else
      var mark := Until(path.value, '?');
      if mark == |path.value| then None else ParseQuery(Split(path.value[mark + 1..], '&'))
  }

  // -------- What comes through

  /** A parameter of the request: a plain key and any ASCII text. */
  datatype Pair = Pair(key: string, value: string)

  predicate PlainKey(key: string) { forall k :: 0 <= k < |key| ==> Unreserved(key[k]) }

  predicate Sendable(pair: Pair) { PlainKey(pair.key) && Ascii(pair.value) }

  lemma PlainKeys()
    ensures PlainKey("code") && PlainKey("state")
  {
  }

  function Rendered(pair: Pair): string { pair.key + "=" + PercentEncoded(pair.value) }

  function Query(pairs: seq<Pair>): string
    requires pairs != []
  {
    if |pairs| == 1 then Rendered(pairs[0]) else Rendered(pairs[0]) + "&" + Query(pairs[1..])
  }

  /** The value given last for a key. */
  function LastValue(pairs: seq<Pair>, key: string): Option<string> {
    if pairs == [] then None
    else if pairs[|pairs| - 1].key == key then Some(pairs[|pairs| - 1].value)
    else LastValue(pairs[..|pairs| - 1], key)
  }

  lemma {:induction false} FirstSpaceIs(s: string, n: nat)
    requires n <= |s| && (forall k :: 0 <= k < n ==> !Space(s[k])) && (n < |s| ==> Space(s[n]))
    ensures FirstSpace(s) == n
  {
    if n > 0 {
      FirstSpaceIs(s[1..], n - 1);
    }
  }

  predicate Word(s: string) { s != "" && forall k :: 0 <= k < |s| ==> !Space(s[k]) }

  lemma SecondWordIs(verb: string, path: string, rest: string)
    requires Word(verb) && Word(path)
    ensures SecondWord(verb + " " + path + " " + rest) == Some(path)
  {
    var line := verb + " " + path + " " + rest;
    assert !Space(line[0]) && SkipSpaces(line) == line;
    FirstSpaceIs(line, |verb|);
    var tail := line[|verb|..];
    var second := path + " " + rest;
    assert tail == " " + second && tail[1..] == second && second[0] == path[0];
    assert SkipSpaces(tail) == second;
    FirstSpaceIs(second, |path|);
    assert second[..|path|] == path;
  }

  lemma RenderedIsPlain(pair: Pair)
    requires Sendable(pair)
    ensures Word(Rendered(pair)) && Free(Rendered(pair), '&') && Free(Rendered(pair), '?')
  {
    EncodedIsPlain(Utf8(pair.value));
  }

  lemma SplitFirst(first: string, rest: string)
    requires Free(first, '&')
    ensures Split(first + "&" + rest, '&') == [first] + Split(rest, '&')
  {
    var joined := first + "&" + rest;
    UntilIs(joined, '&', |first|);
    assert joined[..|first|] == first && joined[|first| + 1..] == rest;
  }

  lemma {:induction false} SplitJoined(pairs: seq<Pair>)
    requires pairs != [] && forall k :: 0 <= k < |pairs| ==> Sendable(pairs[k])
    ensures Split(Query(pairs), '&') == Renders(pairs)
  {
    var first := Rendered(pairs[0]);
    RenderedIsPlain(pairs[0]);
    if |pairs| == 1 {
      UntilIs(first, '&', |first|);
      assert Renders(pairs[1..]) == [];
    } else {
      SplitJoined(pairs[1..]);
      SplitFirst(first, Query(pairs[1..]));
    }
  }

  lemma {:induction false} QueryIsWord(pairs: seq<Pair>)
    requires pairs != [] && forall k :: 0 <= k < |pairs| ==> Sendable(pairs[k])
    ensures Word(Query(pairs))
  {
    RenderedIsPlain(pairs[0]);
    if |pairs| > 1 {
      QueryIsWord(pairs[1..]);
      WordsJoin(Rendered(pairs[0]), "&", Query(pairs[1..]));
    }
  }

  lemma WordsJoin(a: string, mark: string, b: string)
    requires Word(a) && Word(mark) && Word(b)
    ensures Word(a + mark + b)
  {
  }

  function Renders(pairs: seq<Pair>): seq<string> {
    if pairs == [] then [] else [Rendered(pairs[0])] + Renders(pairs[1..])
  }

  lemma {:induction false} RendersLast(pairs: seq<Pair>)
    requires pairs != []
    ensures Renders(pairs) == Renders(pairs[..|pairs| - 1]) + [Rendered(pairs[|pairs| - 1])]
  {
    if |pairs| == 1 {
      assert pairs[1..] == [] && pairs[..0] == [];
    } else {
      RendersLast(pairs[1..]);
      assert pairs[1..][..|pairs| - 2] == pairs[..|pairs| - 1][1..];
    }
  }

  /** A part begins with `key=` exactly when that is its key: keys that start one another are told apart. */
  lemma PrefixTellsKeys(pair: Pair, key: string)
    requires Sendable(pair) && PlainKey(key)
    ensures HasPrefix(Rendered(pair), key + "=") <==> pair.key == key
    ensures pair.key == key ==> Rendered(pair)[|key + "="|..] == PercentEncoded(pair.value)
  {
    var s := Rendered(pair);
    assert s[..|pair.key|] == pair.key;
    UntilIs(s, '=', |pair.key|);
    if HasPrefix(s, key + "=") {
      assert s[|key|] == s[..|key| + 1][|key|] == (key + "=")[|key|] == '=';
      assert s[..|key|] == s[..|key| + 1][..|key|] == (key + "=")[..|key|] == key;
      UntilIs(s, '=', |key|);
    }
    if pair.key == key {
      assert s == key + "=" + PercentEncoded(pair.value);
    }
  }

  lemma {:induction false} ParamIsLast(pairs: seq<Pair>, key: string)
    requires forall k :: 0 <= k < |pairs| ==> Sendable(pairs[k])
    requires PlainKey(key)
    ensures Param(Renders(pairs), key + "=") == LastValue(pairs, key)
  {
    if pairs != [] {
      var last := pairs[|pairs| - 1];
      RendersLast(pairs);
      PrefixTellsKeys(last, key);
      TextSurvivesIff(last.value);
      ParamIsLast(pairs[..|pairs| - 1], key);
      assert Renders(pairs)[..|Renders(pairs)| - 1] == Renders(pairs[..|pairs| - 1]);
    }
  }

  /**
   Whatever a request sends, in any order and with any other parameters, the parser gives back the code
   and the state given last, and nothing if one of them is missing.
   */
  lemma CallbackComesThrough(path: string, pairs: seq<Pair>, version: string)
    requires pairs != [] && forall k :: 0 <= k < |pairs| ==> Sendable(pairs[k])
    requires Word(path) && Free(path, '?')
    ensures var code, state := LastValue(pairs, "code"), LastValue(pairs, "state");
      Parse("GET " + path + "?" + Query(pairs) + " " + version) ==
      if code.Some? && state.Some? then Some((code.value, state.value)) else None
  {
    QueryIsWord(pairs);
    ParseIs(path, Query(pairs), version);
    QueryComesThrough(pairs);
  }

  lemma ParamOf(pairs: seq<Pair>, key: string, prefix: string)
    requires (forall k :: 0 <= k < |pairs| ==> Sendable(pairs[k])) && PlainKey(key) && prefix == key + "="
    ensures Param(Renders(pairs), prefix) == LastValue(pairs, key)
  {
    ParamIsLast(pairs, key);
  }

  lemma QueryComesThrough(pairs: seq<Pair>)
    requires pairs != [] && forall k :: 0 <= k < |pairs| ==> Sendable(pairs[k])
    ensures var code, state := LastValue(pairs, "code"), LastValue(pairs, "state");
      ParseQuery(Split(Query(pairs), '&')) ==
      if code.Some? && state.Some? then Some((code.value, state.value)) else None
  {
    SplitJoined(pairs);
    CodeComes(pairs);
    StateComes(pairs);
  }

  lemma CodeComes(pairs: seq<Pair>)
    requires forall k :: 0 <= k < |pairs| ==> Sendable(pairs[k])
    ensures Param(Renders(pairs), "code=") == LastValue(pairs, "code")
  {
    PlainKeys();
    Prefixes();
    ParamOf(pairs, "code", "code=");
  }

  lemma StateComes(pairs: seq<Pair>)
    requires forall k :: 0 <= k < |pairs| ==> Sendable(pairs[k])
    ensures Param(Renders(pairs), "state=") == LastValue(pairs, "state")
  {
    PlainKeys();
    Prefixes();
    ParamOf(pairs, "state", "state=");
  }

  lemma Prefixes()
    ensures "code" + "=" == "code=" && "state" + "=" == "state="
  {
  }

  lemma ParseIs(path: string, query: string, version: string)
    requires Word(path) && Free(path, '?') && Word(query)
    ensures Parse("GET " + path + "?" + query + " " + version) == ParseQuery(Split(query, '&'))
  {
    var target := path + "?" + query;
    WordsJoin(path, "?", query);
    SecondWordIs("GET", target, version);
    LineIs(path, query, version);
    UntilIs(target, '?', |path|);
    assert target[|path| + 1..] == query;
  }

  lemma LineIs(path: string, query: string, version: string)
    ensures "GET" + " " + (path + "?" + query) + " " + version == "GET " + path + "?" + query + " " + version
  {
    assert "GET" + " " == "GET ";
    assert "GET " + (path + "?" + query) == "GET " + path + "?" + query;
  }

  // -------- The code

  method PercentEncode(s: string) returns (out: string)
    ensures out == PercentEncoded(s)
  {
    var bytes := Utf8(s);
    out := "";
    for i := 0 to |bytes|
      invariant out + Encode(bytes[i..]) == Encode(bytes)
    {
      EncodeStep(out, bytes, i);
      if Unreserved(bytes[i] as char) {
        out := out + [bytes[i] as char];
      } else {
        ghost var before := out;
        out := out + ['%'];
        out := out + [HexDigit(bytes[i] / 16)];
        out := out + [HexDigit(bytes[i] % 16)];
        assert out == before + EncodeByte(bytes[i]);
      }
    }
  }

  lemma EncodeStep(out: string, bytes: seq<Byte>, i: nat)
    requires i < |bytes|
    ensures out + Encode(bytes[i..]) == out + EncodeByte(bytes[i]) + Encode(bytes[i + 1..])
  {
    assert bytes[i..][1..] == bytes[i + 1..];
    Assoc(out, EncodeByte(bytes[i]), Encode(bytes[i + 1..]));
  }

  /** How far the decoder gets in one turn, and what it puts out. */
  function Turn(bytes: seq<Byte>): (int, char)
    requires bytes != []
  {
    if bytes[0] == 43 then (1, ' ')
    else if bytes[0] == 37 && |bytes| > 2 && HexPair(bytes[1], bytes[2]).Some? then
      (3, HexPair(bytes[1], bytes[2]).value as char)
    else (1, bytes[0] as char)
  }

  lemma DecodeStep(out: string, bytes: seq<Byte>, i: nat)
    requires i < |bytes|
    ensures var (n, c) := Turn(bytes[i..]);
      i + n <= |bytes| && out + Decode(bytes[i..]) == out + [c] + Decode(bytes[i + n..])
  {
    var rest := bytes[i..];
    var (n, c) := Turn(rest);
    assert rest[n..] == bytes[i + n..];
    Assoc(out, [c], Decode(bytes[i + n..]));
  }

  method UrlDecode(s: string) returns (out: string)
    ensures out == UrlDecoded(s)
  {
    var bytes := Utf8(s);
    out := "";
    var i := 0;
    while i < |bytes|
      invariant 0 <= i <= |bytes|
      invariant out + Decode(bytes[i..]) == Decode(bytes)
    {
      DecodeStep(out, bytes, i);
      if bytes[i] == 43 {
        out := out + [' '];
        i := i + 1;
      } else if bytes[i] == 37 && i + 2 < |bytes| {
        var h := HexPair(bytes[i + 1], bytes[i + 2]);
        if h.Some? {
          out := out + [h.value as char];
          i := i + 3;
          continue;
        }
        out := out + ['%'];
        i := i + 1;
      } else {
        out := out + [bytes[i] as char];
        i := i + 1;
      }
    }
  }

  method ParseCallback(line: string) returns (r: Option<(string, string)>)
    ensures r == Parse(line)
  {
    var path := SecondWord(line);
    if path.None? {
      return None;
    }
    var mark := Until(path.value, '?');
    if mark == |path.value| {
      return None;
    }
    var parts := Split(path.value[mark + 1..], '&');
    var code: Option<string>, state: Option<string> := None, None;
    for i := 0 to |parts|
      invariant code == Param(parts[..i], "code=") && state == Param(parts[..i], "state=")
    {
      assert parts[..i + 1][..i] == parts[..i];
      var kv := parts[i];
      if HasPrefix(kv, "code=") {
        assert !HasPrefix(kv, "state=") by { assert kv[..5][0] == 'c'; }
        var v := UrlDecode(kv[5..]);
        code := Some(v);
      } else if HasPrefix(kv, "state=") {
        var v := UrlDecode(kv[6..]);
        state := Some(v);
      }
    }
    assert parts[..|parts|] == parts;
    return if code.Some? && state.Some? then Some((code.value, state.value)) else None;
  }
}
