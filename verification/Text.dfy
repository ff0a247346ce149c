/** Characters and words. */
module Text {

  /** Unicode white space. */
  predicate Space(c: char) {
    || '\t' <= c <= '\r' || c == ' ' || c == '\U{85}' || c == '\U{A0}' || c == '\U{1680}'
    || '\U{2000}' <= c <= '\U{200A}' || c == '\U{2028}' || c == '\U{2029}' || c == '\U{202F}'
    || c == '\U{205F}' || c == '\U{3000}'
  }

  predicate Blank(text: string) { forall k :: 0 <= k < |text| ==> Space(text[k]) }

  predicate Free(s: string, c: char) { forall k :: 0 <= k < |s| ==> s[k] != c }

  /** The number of characters before the first `c`, all of them if there is none. */
  function Until(s: string, c: char): nat
    ensures Until(s, c) <= |s|
  {
    if s == "" || s[0] == c then 0 else 1 + Until(s[1..], c)
  }

  function Split(s: string, c: char): seq<string>
    decreases |s|
  {
    var n := Until(s, c);
    if n == |s| then [s] else [s[..n]] + Split(s[n + 1..], c)
  }

  lemma {:induction false} UntilIs(s: string, c: char, n: nat)
    requires n <= |s| && (forall k :: 0 <= k < n ==> s[k] != c) && (n < |s| ==> s[n] == c)
    ensures Until(s, c) == n
  {
    if n > 0 {
      UntilIs(s[1..], c, n - 1);
    }
  }
}
