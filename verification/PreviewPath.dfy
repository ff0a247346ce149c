/**
 Which file a preview request may name: `lexical_normalize` and `resolve_preview_request` of
 apps/desktop/src/lib.rs, 1425-1443 and 1947-2049. A path is its components; percent-decoding is any
 function on text.
 */
module PreviewPath {
  import opened Wrappers
  import opened Text

  /** A path of a Unix system: from the root or not, and its components, "." and ".." among them. */
  datatype Path = Path(absolute: bool, parts: seq<string>)

  datatype Target = Document(path: Path) | Asset(path: Path, mime: string)

  datatype Refusal = NoFolder | NotAbsolute | FolderOutOfScope | LeavesFolder | NotPreviewable

  function NonEmpty(parts: seq<string>): seq<string> {
    if parts == [] then []
    else (if parts[0] == "" then [] else [parts[0]]) + NonEmpty(parts[1..])
  }

  predicate StartsWithSlash(s: string) { s != "" && s[0] == '/' }

  function FromText(s: string): Path {
    Path(StartsWithSlash(s), NonEmpty(Split(s, '/')))
  }

  /** `join`: an absolute text replaces the path. */
  function Join(base: Path, rest: string): Path {
    if StartsWithSlash(rest) then FromText(rest) else Path(base.absolute, base.parts + FromText(rest).parts)
  }

  predicate IsPrefix(a: seq<string>, b: seq<string>) { |a| <= |b| && b[..|a|] == a }

  /** `starts_with`, by whole components. */
  predicate Within(path: Path, root: Path) {
    path.absolute == root.absolute && IsPrefix(root.parts, path.parts)
  }

  /** The components left when `parts` are walked from `stack`; nothing is above the start. */
  function Walk(stack: seq<string>, parts: seq<string>): seq<string>
    decreases |parts|
  {
    if parts == [] then stack
    else if parts[0] == ".." then Walk(if stack == [] then [] else stack[..|stack| - 1], parts[1..])
    else if parts[0] == "." then Walk(stack, parts[1..])
    else Walk(stack + [parts[0]], parts[1..])
  }

  function Normalize(path: Path): Path {
    Path(path.absolute, Walk([], path.parts))
  }

  predicate Plain(parts: seq<string>) {
    forall k :: 0 <= k < |parts| ==> parts[k] != "." && parts[k] != ".."
  }

  /** A path that normalization leaves as it is. */
  predicate Canonical(path: Path) { Normalize(path) == path }

  function LastDot(s: string): int
    ensures -1 <= LastDot(s) < |s|
  {
    if s == "" then -1 else if s[|s| - 1] == '.' then |s| - 1 else LastDot(s[..|s| - 1])
  }

  function Lower(s: string): string {
    if s == "" then "" else [if 'A' <= s[0] <= 'Z' then 'a' + (s[0] - 'A') else s[0]] + Lower(s[1..])
  }

  /** The extension of the last component in lower case; a leading dot begins no extension. */
  function Extension(path: Path): Option<string> {
    if path.parts == [] then None
    else
      var name := path.parts[|path.parts| - 1];
      if LastDot(name) <= 0 then None else Some(Lower(name[LastDot(name) + 1..]))
  }

  const Mimes: map<string, string> := map[
    "css" := "text/css; charset=utf-8", "woff2" := "font/woff2", "woff" := "font/woff", "ttf" := "font/ttf",
    "otf" := "font/otf", "png" := "image/png", "jpg" := "image/jpeg", "jpeg" := "image/jpeg", "gif" := "image/gif",
    "svg" := "image/svg+xml", "webp" := "image/webp", "avif" := "image/avif", "ico" := "image/x-icon"]

  predicate IsDocument(path: Path) {
    Extension(path).Some? && Extension(path).value in {"html", "htm", "showtime"}
  }

  function MimeOf(path: Path): Option<string> {
    if Extension(path).Some? && Extension(path).value in Mimes then Some(Mimes[Extension(path).value]) else None
  }

  // -------- What normalization does

  lemma {:induction false} WalkIsPlain(stack: seq<string>, parts: seq<string>)
    requires Plain(stack)
    ensures Plain(Walk(stack, parts))
    decreases |parts|
  {
    if parts != [] {
      if parts[0] == ".." {
        WalkIsPlain(if stack == [] then [] else stack[..|stack| - 1], parts[1..]);
      } else if parts[0] == "." {
        WalkIsPlain(stack, parts[1..]);
      } else {
        WalkIsPlain(stack + [parts[0]], parts[1..]);
      }
    }
  }

  lemma {:induction false} WalkPlain(stack: seq<string>, parts: seq<string>)
    requires Plain(parts)
    ensures Walk(stack, parts) == stack + parts
    decreases |parts|
  {
    if parts != [] {
      WalkPlain(stack + [parts[0]], parts[1..]);
      assert stack + [parts[0]] + parts[1..] == stack + parts;
    }
  }

  lemma {:induction false} WalkOn(stack: seq<string>, a: seq<string>, b: seq<string>)
    ensures Walk(stack, a + b) == Walk(Walk(stack, a), b)
    decreases |a|
  {
    if a == [] {
      assert a + b == b;
    } else {
      assert (a + b)[1..] == a[1..] + b;
      if a[0] == ".." {
        WalkOn(if stack == [] then [] else stack[..|stack| - 1], a[1..], b);
      } else if a[0] == "." {
        WalkOn(stack, a[1..], b);
      } else {
        WalkOn(stack + [a[0]], a[1..], b);
      }
    }
  }

  /** A path is canonical exactly when it has no dots for components; normalizing makes every path so. */
  lemma CanonicalIff(path: Path)
    ensures Canonical(path) <==> Plain(path.parts)
    ensures Canonical(Normalize(path))
  {
    WalkIsPlain([], path.parts);
    WalkPlain([], Walk([], path.parts));
    if Plain(path.parts) {
      WalkPlain([], path.parts);
    }
  }

  /** It makes no difference whether the folder is normalized before a relative text is joined to it. */
  lemma NormalizeBeforeJoin(base: Path, rest: string)
    ensures Normalize(Join(Normalize(base), rest)) == Normalize(Join(base, rest))
  {
    if !StartsWithSlash(rest) {
      var parts := FromText(rest).parts;
      CanonicalIff(base);
      CanonicalIff(Normalize(base));
      WalkOn([], base.parts, parts);
      WalkOn([], Normalize(base).parts, parts);
    }
  }

  // -------- Requests

  type Decoder = string -> string

  function Stripped(uri: string): string {
    if StartsWithSlash(uri) then uri[1..] else uri
  }

  predicate HasFolder(uri: string) { Until(Stripped(uri), '/') < |Stripped(uri)| }

  /** The decoded folder, as it was sent. */
  function SentFolder(uri: string, decode: Decoder): string { decode(Stripped(uri)[..Until(Stripped(uri), '/')]) }

  /** The decoded reference below it. */
  function SentRest(uri: string, decode: Decoder): string
    requires HasFolder(uri)
  {
    decode(Stripped(uri)[Until(Stripped(uri), '/') + 1..])
  }

  function Candidate(uri: string, decode: Decoder): Path
    requires HasFolder(uri)
  {
    Normalize(Join(FromText(SentFolder(uri, decode)), SentRest(uri, decode)))
  }

  function Folder(uri: string, decode: Decoder): Path {
    Normalize(FromText(SentFolder(uri, decode)))
  }

  /** The request is in order: folder at or below the root, file strictly below the folder, of a known kind. */
  ghost predicate Permitted(root: Path, uri: string, decode: Decoder) {
    && HasFolder(uri)
    && StartsWithSlash(SentFolder(uri, decode))
    && Within(Folder(uri, decode), root)
    && Within(Candidate(uri, decode), Folder(uri, decode)) && Candidate(uri, decode) != Folder(uri, decode)
    && (IsDocument(Candidate(uri, decode)) || MimeOf(Candidate(uri, decode)).Some?)
  }

  /** A file that a request may get: named without dots, strictly below a folder at or below the root. */
  ghost predicate Safe(root: Path, path: Path) {
    && Canonical(path) && path.absolute
    && exists folder :: Canonical(folder) && Within(folder, root) && Within(path, folder) && |folder.parts| < |path.parts|
  }

  method LexicalNormalize(path: Path) returns (normalized: Path)
    ensures normalized == Normalize(path)
  {
    var stack: seq<string> := [];
    for i := 0 to |path.parts|
      invariant Walk(stack, path.parts[i..]) == Walk([], path.parts)
    {
      assert path.parts[i..][1..] == path.parts[i + 1..];
      if path.parts[i] == ".." {
        if stack != [] {
          stack := stack[..|stack| - 1];
        }
      } else if path.parts[i] != "." {
        stack := stack + [path.parts[i]];
      }
    }
    normalized := Path(path.absolute, stack);
  }

  /** The folder and the file are both named without dots, and normalizing the folder first changes nothing. */
  lemma NamedAlike(folder: Path, rest: string)
    ensures Normalize(Join(Normalize(folder), rest)) == Normalize(Join(folder, rest))
    ensures Canonical(Normalize(folder)) && Canonical(Normalize(Join(folder, rest)))
  {
    NormalizeBeforeJoin(folder, rest);
    CanonicalIff(folder);
    CanonicalIff(Join(folder, rest));
  }

  /** Accepts exactly the permitted requests, and then yields the file they name. */
  method ResolvePreviewRequest(root: Path, uri: string, decode: Decoder) returns (r: Result<Target, Refusal>)
    ensures r.Ok? <==> Permitted(root, uri, decode)
    ensures r.Ok? ==> r.value.path == Candidate(uri, decode) && Safe(root, r.value.path)
    ensures r.Ok? && IsDocument(r.value.path) ==> r.value.Document?
    ensures r.Ok? && !IsDocument(r.value.path) ==> r.value.Asset? && MimeOf(r.value.path) == Some(r.value.mime)
    ensures r == Err(NoFolder) <==> !HasFolder(uri)
    ensures r == Err(LeavesFolder) ==> !Within(Candidate(uri, decode), Folder(uri, decode)) || Candidate(uri, decode) == Folder(uri, decode)
  {
    var raw := Stripped(uri);
    var slash := Until(raw, '/');
    if slash == |raw| {
      return Err(NoFolder);
    }
    var sent := decode(raw[..slash]);
    if !StartsWithSlash(sent) {
      return Err(NotAbsolute);
    }
    var base := LexicalNormalize(FromText(sent));
    if !Within(base, root) {
      return Err(FolderOutOfScope);
    }
    var rest := decode(raw[slash + 1..]);
    var candidate := LexicalNormalize(Join(base, rest));
    NamedAlike(FromText(sent), rest);
    if candidate == base || !Within(candidate, base) {
      return Err(LeavesFolder);
    }
    ProperPrefix(base.parts, candidate.parts);
    if IsDocument(candidate) {
      return Ok(Document(candidate));
    }
    var mime := MimeOf(candidate);
    return if mime.Some? then Ok(Asset(candidate, mime.value)) else Err(NotPreviewable);
  }

  /** A reference without dots is served whenever its kind is: it names what it says below the folder. */
  lemma PlainReferenceStays(folder: Path, rest: string)
    requires Canonical(folder) && !StartsWithSlash(rest) && Plain(FromText(rest).parts) && FromText(rest).parts != []
    ensures Normalize(Join(folder, rest)) == Path(folder.absolute, folder.parts + FromText(rest).parts)
    ensures Within(Normalize(Join(folder, rest)), folder) && Normalize(Join(folder, rest)) != folder
  {
    CanonicalIff(folder);
    WalkPlain([], folder.parts + FromText(rest).parts);
  }

  /** An absolute reference names itself, whatever the folder: it is below it exactly if its own parts begin with it. */
  lemma AbsoluteReferenceIff(folder: Path, rest: string)
    requires Canonical(folder) && StartsWithSlash(rest)
    ensures var named := Normalize(Join(folder, rest));
      && named == Normalize(FromText(rest)) && named.absolute
      && (Within(named, folder) <==> folder.absolute && IsPrefix(folder.parts, Walk([], NonEmpty(Split(rest, '/')))))
  {
  }

  /** What a client sends for a folder and a reference is read as these: the first slash that was not escaped parts them. */
  lemma RequestIsRead(folder: string, rest: string, encode: string -> string, decode: Decoder)
    requires decode(encode(folder)) == folder && decode(encode(rest)) == rest && Free(encode(folder), '/')
    ensures var uri := "/" + encode(folder) + "/" + encode(rest);
      && HasFolder(uri) && SentFolder(uri, decode) == folder && SentRest(uri, decode) == rest
  {
    var uri := "/" + encode(folder) + "/" + encode(rest);
    var raw := encode(folder) + "/" + encode(rest);
    assert uri == "/" + raw && uri[1..] == raw;
    UntilIs(raw, '/', |encode(folder)|);
    assert raw[..|encode(folder)|] == encode(folder) && raw[|encode(folder)| + 1..] == encode(rest);
  }

  lemma {:induction false} LastDotIs(stem: string, extension: string)
    requires Free(extension, '.')
    ensures LastDot(stem + "." + extension) == |stem|
  {
    var s := stem + "." + extension;
    if extension != "" {
      var shorter := extension[..|extension| - 1];
      assert s[..|s| - 1] == stem + "." + shorter;
      LastDotIs(stem, shorter);
    }
  }

  lemma {:induction false} LowerIs(s: string)
    ensures |Lower(s)| == |s|
    ensures forall i :: 0 <= i < |s| ==> Lower(s)[i] == if 'A' <= s[i] <= 'Z' then s[i] + ' ' else s[i]
  {
    if s != "" {
      LowerIs(s[1..]);
      assert 'A' <= s[0] <= 'Z' ==> 'a' + (s[0] - 'A') == s[0] + ' ';
    }
  }

  /** The kind of a file is told from what follows the last dot of its name, in either case, if something precedes it. */
  lemma KindIgnoresCase(folder: Path, stem: string, extension: string)
    requires stem != "" && Free(extension, '.')
    ensures var path := Path(folder.absolute, folder.parts + [stem + "." + extension]);
      && Extension(path).Some? && |Extension(path).value| == |extension|
      && forall i :: 0 <= i < |extension| ==>
           Extension(path).value[i] == if 'A' <= extension[i] <= 'Z' then extension[i] + ' ' else extension[i]
  {
    var name := stem + "." + extension;
    LastDotIs(stem, extension);
    assert name[|stem| + 1..] == extension;
    LowerIs(extension);
  }

  lemma ProperPrefix(a: seq<string>, b: seq<string>)
    requires IsPrefix(a, b) && a != b
    ensures |a| < |b|
  {
    assert b[..|b|] == b;
  }
}
