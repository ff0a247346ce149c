/**
 What the decoder of the login callback, apps/desktop/src/auth.rs 335-357, makes of texts that were not written
 by the encoder beside it: a browser may escape any byte, in digits of either case, and write a space as a plus.
 */
module CallbackSpelling {
  import opened Wrappers
  import opened Text
  import opened Callback

  const UPPER := "0123456789ABCDEF"
  const LOWER := "0123456789abcdef"

  /** How one byte is written: as the character it is, escaped, with either case for each digit, or as a plus. */
  datatype Spelling = Plainly | Escaped(highUpper: bool, lowUpper: bool) | AsPlus

  predicate Fits(b: Byte, how: Spelling) {
    match how
    case Plainly => b < 0x80 && b as char != '%' && b as char != '+'
    case Escaped(_, _) => true
    case AsPlus => b as char == ' '
  }

  function Digit(d: int, upper: bool): char
    requires 0 <= d < 16
  {
    if upper then UPPER[d] else LOWER[d]
  }

  function Spelled(b: Byte, how: Spelling): string {
    match how
    case Plainly => [b as char]
    case Escaped(high, low) => ['%', Digit(b / 16, high), Digit(b % 16, low)]
    case AsPlus => "+"
  }

  function Written(bytes: seq<Byte>, hows: seq<Spelling>): string
    requires |bytes| == |hows|
  {
    if bytes == [] then "" else Spelled(bytes[0], hows[0]) + Written(bytes[1..], hows[1..])
  }

  lemma DigitIs(d: int, upper: bool)
    requires 0 <= d < 16
    ensures (Digit(d, upper) as int) < 0x80 && HexValue(Digit(d, upper) as int) == Some(d)
    ensures Digit(d, upper) != '+'
  {
    var c := Digit(d, upper);
    assert c == if d < 10 then '0' + d as char else if upper then 'A' + (d - 10) as char else 'a' + (d - 10) as char;
  }

  lemma SpelledDecodes(b: Byte, how: Spelling, rest: seq<Byte>)
    requires Fits(b, how)
    ensures Decode(Utf8(Spelled(b, how)) + rest) == [b as char] + Decode(rest)
  {
    var written := Spelled(b, how);
    match how
    case Plainly =>
      Utf8OfAscii(written);
      assert Utf8(written) + rest == [b] + rest;
    case AsPlus =>
      Utf8OfAscii(written);
      assert Utf8(written) + rest == [43] + rest;
    case Escaped(high, low) =>
      EscapedDecodes(b, high, low, rest);
  }

  lemma EscapedDecodes(b: Byte, high: bool, low: bool, rest: seq<Byte>)
    ensures Decode(Utf8(Spelled(b, Escaped(high, low))) + rest) == [b as char] + Decode(rest)
  {
    var written := Spelled(b, Escaped(high, low));
    DigitIs(b / 16, high);
    DigitIs(b % 16, low);
    Utf8OfAscii(written);
    var bytes := Utf8(written) + rest;
    assert bytes[0] == 37 && bytes[1] == Digit(b / 16, high) as int && bytes[2] == Digit(b % 16, low) as int;
    assert HexPair(bytes[1], bytes[2]) == Some(b) && bytes[3..] == rest;
  }

  /** However each byte is written, the decoder gives it back as the character of its number. */
  lemma {:induction false} AnySpellingDecodes(bytes: seq<Byte>, hows: seq<Spelling>)
    requires |bytes| == |hows| && forall i :: 0 <= i < |bytes| ==> Fits(bytes[i], hows[i])
    ensures UrlDecoded(Written(bytes, hows)) == Latin1(bytes)
  {
    if bytes != [] {
      AnySpellingDecodes(bytes[1..], hows[1..]);
      Utf8Concat(Spelled(bytes[0], hows[0]), Written(bytes[1..], hows[1..]));
      SpelledDecodes(bytes[0], hows[0], Utf8(Written(bytes[1..], hows[1..])));
    }
  }

  /** What two characters behind a percent sign can be an escape: two digits, or, in this decoder, a plus and a digit. */
  predicate Escape(high: char, low: char) {
    (high in UPPER || high in LOWER || high == '+') && (low in UPPER || low in LOWER)
  }

  predicate IsDigit(c: char) {
    '0' <= c <= '9' || 'A' <= c <= 'F' || 'a' <= c <= 'f'
  }

  lemma DigitsAre(c: char)
    ensures c in UPPER || c in LOWER <==> IsDigit(c)
  {
    if '0' <= c <= '9' {
      assert UPPER[c as int - 48] == c;
    } else if 'A' <= c <= 'F' {
      assert UPPER[c as int - 55] == c;
    } else if 'a' <= c <= 'f' {
      assert LOWER[c as int - 87] == c;
    }
  }

  /** The first byte of a character: the character itself if it is ASCII, else one that is no digit and no plus. */
  lemma FirstByte(c: char, rest: string)
    ensures var bytes := Utf8([c] + rest);
      bytes != [] && (if c < '\U{80}' then bytes == [c as int] + Utf8(rest) else bytes[0] >= 0xC0)
  {
    assert ([c] + rest)[1..] == rest;
  }

  /** A percent sign that begins no escape is kept, and the text behind it is decoded as it is. */
  lemma StrayPercentStays(text: string)
    requires text != "" && text[0] == '%' && (|text| > 2 ==> !Escape(text[1], text[2]))
    ensures UrlDecoded(text) == "%" + UrlDecoded(text[1..])
  {
    var rest := text[1..];
    assert text == ['%'] + rest;
    FirstByte('%', rest);
    assert Utf8(text)[1..] == Utf8(rest);
    if rest != "" {
      assert rest == [rest[0]] + rest[1..];
      FirstByte(rest[0], rest[1..]);
      DigitsAre(rest[0]);
      if |rest| > 1 {
        assert rest[1..] == [rest[1]] + rest[2..];
        FirstByte(rest[1], rest[2..]);
        DigitsAre(rest[1]);
      }
    }
  }

  /** A plus stands for the zero in front of a digit: the reading of numbers takes it for a sign. */
  lemma PlusBeforeDigit(d: Byte, upper: bool, rest: string)
    requires d < 16
    ensures UrlDecoded("%+" + [Digit(d, upper)] + rest) == [d as char] + UrlDecoded(rest)
  {
    DigitIs(d, upper);
    var escape := "%+" + [Digit(d, upper)];
    Utf8OfAscii(escape);
    Utf8Concat(escape, rest);
    var bytes := Utf8(escape) + Utf8(rest);
    assert bytes[0] == 37 && bytes[1] == 43 && bytes[2] == Digit(d, upper) as int && bytes[3..] == Utf8(rest);
  }
}
