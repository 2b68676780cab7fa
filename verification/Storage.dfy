/**
 Attachment storage: file names are sanitised, files are checked, and uploads go to a bucket that
 overwrites an existing object. The bucket's answers are parameters: what an upload, a signing or
 a removal comes back with.
 */
module Storage {
  import opened Outcomes

  // ---- File names ----

  predicate Allowed(c: char) {
    'a' <= c <= 'z' || 'A' <= c <= 'Z' || '0' <= c <= '9' || c == '.' || c == '_' || c == '-'
  }

  /** Every other character becomes an underscore. */
  function ReplaceOthers(name: string): (r: string)
    ensures |r| == |name| && forall i :: 0 <= i < |r| ==> r[i] == if Allowed(name[i]) then name[i] else '_'
  {
    if name == "" then ""
    else [if Allowed(name[0]) then name[0] else '_'] + ReplaceOthers(name[1..])
  }

  /** Each run of dots becomes one. */
  function CollapseDots(name: string): string {
    if |name| < 2 then name
    else if name[0] == '.' && name[1] == '.' then CollapseDots(name[1..])
    else [name[0]] + CollapseDots(name[1..])
  }

  function Sanitize(name: string): string {
    var clean := CollapseDots(ReplaceOthers(name));
    if clean == "" then "attachment" else clean
  }

  predicate AllAllowed(name: string) {
    forall i :: 0 <= i < |name| ==> Allowed(name[i])
  }

  predicate NoDoubleDot(name: string) {
    forall i :: 0 <= i < |name| - 1 ==> !(name[i] == '.' && name[i + 1] == '.')
  }

  /** The safe names: not empty, only allowed characters, no two dots in a row. */
  predicate Safe(name: string) {
    name != "" && AllAllowed(name) && NoDoubleDot(name)
  }

  lemma {:induction false} CollapseIsSafe(name: string)
    requires AllAllowed(name)
    ensures AllAllowed(CollapseDots(name)) && NoDoubleDot(CollapseDots(name))
    ensures name != "" ==> CollapseDots(name) != "" && CollapseDots(name)[0] == name[0]
  {
    if |name| >= 2 {
      CollapseIsSafe(name[1..]);
    }
  }

  lemma {:induction false} CollapseKeeps(name: string)
    ensures |CollapseDots(name)| <= |name|
    ensures CollapseDots(name) == name <==> NoDoubleDot(name)
  {
    if |name| >= 2 {
      CollapseKeeps(name[1..]);
      var rest := name[1..];
      assert name == [name[0]] + rest;
      if !(name[0] == '.' && name[1] == '.') {
        assert NoDoubleDot(name) <==> NoDoubleDot(rest) by {
          if NoDoubleDot(rest) {
            forall i | 0 <= i < |name| - 1 ensures !(name[i] == '.' && name[i + 1] == '.') {
              if i > 0 {
                assert name[i] == rest[i - 1] && name[i + 1] == rest[i];
              }
            }
          }
          if NoDoubleDot(name) {
            forall i | 0 <= i < |rest| - 1 ensures !(rest[i] == '.' && rest[i + 1] == '.') {
              assert rest[i] == name[i + 1] && rest[i + 1] == name[i + 2];
            }
          }
        }
      }
    }
  }

  lemma ReplaceKeeps(name: string)
    ensures ReplaceOthers(name) == name <==> AllAllowed(name)
  {
  }

  /** Every result is a safe name, and exactly the safe names are left alone. */
  lemma SanitizeExact(name: string)
    ensures Safe(Sanitize(name))
    ensures Sanitize(name) == name <==> Safe(name)
  {
    var replaced := ReplaceOthers(name);
    assert AllAllowed(replaced) by {
      assert Allowed('_');
    }
    CollapseIsSafe(replaced);
    assert Safe("attachment");
    if Safe(name) {
      ReplaceKeeps(name);
      CollapseKeeps(name);
    }
  }

  lemma SanitizeIdempotent(name: string)
    ensures Sanitize(Sanitize(name)) == Sanitize(name)
  {
    SanitizeExact(name);
    SanitizeExact(Sanitize(name));
  }

  // ---- What becomes of a name ----

  /** The characters that are no dots. */
  function NoDots(s: string): string {
    if s == "" then "" else (if s[0] == '.' then "" else [s[0]]) + NoDots(s[1..])
  }

  /** For each place before, between and after those characters, whether there is a dot. */
  function Gaps(s: string): (g: seq<bool>)
    ensures |g| == |NoDots(s)| + 1
  {
    if s == "" then [false]
    else if s[0] == '.' then Gaps(s[1..])[0 := true]
    else [false] + Gaps(s[1..])
  }

  /** Letters, digits, underscores and hyphens stay; any other character is an underscore. */
  predicate CleanOf(clean: string, raw: string) {
    && |clean| == |raw|
    && forall i :: 0 <= i < |raw| ==>
         var c := raw[i];
         clean[i] == if 'a' <= c <= 'z' || 'A' <= c <= 'Z' || '0' <= c <= '9' || c == '_' || c == '-' then c else '_'
  }

  lemma CleanGrows(clean: string, raw: string, c: char, d: char)
    requires CleanOf(clean, raw) && c == if Allowed(d) then d else '_'
    ensures d != '.' ==> c != '.' && CleanOf([c] + clean, [d] + raw)
    ensures d == '.' ==> c == '.'
  {
  }

  lemma ShapeOf(c: char, s: string)
    ensures NoDots([c] + s) == (if c == '.' then "" else [c]) + NoDots(s)
    ensures Gaps([c] + s) == if c == '.' then Gaps(s)[0 := true] else [false] + Gaps(s)
  {
    assert ([c] + s)[1..] == s;
  }

  lemma {:induction false} ReplaceShape(name: string)
    ensures CleanOf(NoDots(ReplaceOthers(name)), NoDots(name))
    ensures Gaps(ReplaceOthers(name)) == Gaps(name)
  {
    if name != "" {
      var c := if Allowed(name[0]) then name[0] else '_';
      ReplaceShape(name[1..]);
      ShapeOf(c, ReplaceOthers(name[1..]));
      CleanGrows(NoDots(ReplaceOthers(name[1..])), NoDots(name[1..]), c, name[0]);
    }
  }

  lemma {:induction false} CollapseShape(name: string)
    ensures NoDots(CollapseDots(name)) == NoDots(name)
    ensures Gaps(CollapseDots(name)) == Gaps(name)
  {
    if |name| >= 2 {
      CollapseShape(name[1..]);
      if !(name[0] == '.' && name[1] == '.') {
        assert CollapseDots(name)[1..] == CollapseDots(name[1..]);
      }
    }
  }

  /**
   A name keeps its characters, cleaned, and has one dot in each place where it had some; the empty name
   is called attachment.
   */
  lemma SanitizeShape(name: string)
    ensures name == "" ==> Sanitize(name) == "attachment"
    ensures name != "" ==>
      && CleanOf(NoDots(Sanitize(name)), NoDots(name))
      && Gaps(Sanitize(name)) == Gaps(name)
      && NoDoubleDot(Sanitize(name))
  {
    var replaced := ReplaceOthers(name);
    ReplaceShape(name);
    CollapseShape(replaced);
    assert AllAllowed(replaced) by {
      assert Allowed('_');
    }
    CollapseIsSafe(replaced);
  }

  lemma ShapeOfEmpty(s: string)
    requires NoDoubleDot(s)
    ensures s == "" <==> NoDots(s) == "" && !Gaps(s)[0]
  {
  }

  lemma ShapeOfFirst(s: string)
    requires s != ""
    ensures s[0] == '.' <==> Gaps(s)[0]
  {
  }

  lemma NoDoubleDotRest(s: string)
    requires s != "" && NoDoubleDot(s)
    ensures NoDoubleDot(s[1..]) && (s[0] == '.' ==> !Gaps(s[1..])[0])
  {
    if |s| > 1 {
      ShapeOfFirst(s[1..]);
      assert s[1] == s[1..][0];
      assert !(s[0] == '.' && s[0 + 1] == '.');
    }
    forall i | 0 <= i < |s[1..]| - 1 ensures !(s[1..][i] == '.' && s[1..][i + 1] == '.') {
      assert !(s[i + 1] == '.' && s[i + 1 + 1] == '.');
    }
  }

  lemma TextRest(s: string)
    requires s != "" && s[0] != '.'
    ensures NoDots(s) != "" && s[0] == NoDots(s)[0] && NoDots(s[1..]) == NoDots(s)[1..] && Gaps(s[1..]) == Gaps(s)[1..]
  {
  }

  lemma DotRest(s: string)
    requires s != "" && s[0] == '.' && !Gaps(s[1..])[0]
    ensures NoDots(s[1..]) == NoDots(s) && Gaps(s[1..]) == Gaps(s)[0 := false]
  {
    assert Gaps(s[1..])[0 := true][0 := false] == Gaps(s[1..]);
  }

  lemma RestShapes(a: string, b: string)
    requires a != "" && b != "" && NoDots(a) == NoDots(b) && Gaps(a) == Gaps(b)
    requires (a[0] == '.' ==> !Gaps(a[1..])[0]) && (b[0] == '.' ==> !Gaps(b[1..])[0])
    ensures a[0] == b[0] && NoDots(a[1..]) == NoDots(b[1..]) && Gaps(a[1..]) == Gaps(b[1..])
  {
    ShapeOfFirst(a);
    ShapeOfFirst(b);
    if a[0] != '.' {
      TextRest(a);
      TextRest(b);
    } else {
      DotRest(a);
      DotRest(b);
    }
  }

  lemma {:induction false} ShapeDetermines(a: string, b: string)
    requires NoDots(a) == NoDots(b) && Gaps(a) == Gaps(b) && NoDoubleDot(a) && NoDoubleDot(b)
    ensures a == b
  {
    if a == "" || b == "" {
      ShapeOfEmpty(a);
      ShapeOfEmpty(b);
    } else {
      ShapeOfFirst(a);
      ShapeOfFirst(b);
      NoDoubleDotRest(a);
      NoDoubleDotRest(b);
      RestShapes(a, b);
      ShapeDetermines(a[1..], b[1..]);
      assert a == [a[0]] + a[1..] && b == [b[0]] + b[1..];
    }
  }

  /** And that fixes the result: nothing else has the cleaned characters and one dot where there were some. */
  lemma SanitizeDetermined(name: string, other: string)
    requires name != "" && CleanOf(NoDots(other), NoDots(name)) && Gaps(other) == Gaps(name) && NoDoubleDot(other)
    ensures other == Sanitize(name)
  {
    SanitizeShape(name);
    assert NoDots(other) == NoDots(Sanitize(name));
    ShapeDetermines(other, Sanitize(name));
  }

  // ---- Files ----

  const MAX_FILE_SIZE_BYTES: int := 10 * 1024 * 1024

  const ALLOWED_MIME_TYPES: set<string> := {
    "application/pdf", "image/png", "image/jpeg", "image/webp", "text/plain",
    "application/vnd.openxmlformats-officedocument.wordprocessingml.document"
  }

  datatype File = File(originalName: string, buffer: Option<string>, size: int, mimeType: string)

  datatype Error = EmptyFile | TooLarge | TypeNotPermitted | NotConfigured | InsertFailed(message: string)

  function FileError(file: File): Option<Error> {
    if file.buffer.None? then Some(EmptyFile)
    else if file.size > MAX_FILE_SIZE_BYTES then Some(TooLarge)
    else if file.mimeType !in ALLOWED_MIME_TYPES then Some(TypeNotPermitted)
    else None
  }

  predicate PermittedType(mimeType: string) {
    || mimeType == "application/pdf" || mimeType == "image/png" || mimeType == "image/jpeg" || mimeType == "image/webp"
    || mimeType == "text/plain"
    || mimeType == "application/vnd.openxmlformats-officedocument.wordprocessingml.document"
  }

  /** A file with content, of at most ten megabytes and of one of six types. */
  predicate Acceptable(file: File) {
    file.buffer.Some? && file.size <= 10 * 1024 * 1024 && PermittedType(file.mimeType)
  }

  /** A file is refused exactly when it is not acceptable, and for the first reason that applies. */
  lemma FileErrorExact(file: File)
    ensures FileError(file) == None <==> Acceptable(file)
    ensures FileError(file) == Some(EmptyFile) <==> file.buffer.None?
    ensures FileError(file) == Some(TooLarge) <==> file.buffer.Some? && file.size > 10 * 1024 * 1024
    ensures FileError(file) == Some(TypeNotPermitted) <==>
              file.buffer.Some? && file.size <= 10 * 1024 * 1024 && !PermittedType(file.mimeType)
  {
  }

  // ---- The bucket ----

  /** How an upload and the signing after it end; a failed upload may or may not have stored the object. */
  datatype UploadOutcome =
    | Signed(url: string)
    | SigningFailed
    | UploadFailed(stored: bool)

  type Bucket = map<string, string>

  predicate Stores(outcome: UploadOutcome) {
    !outcome.UploadFailed? || outcome.stored
  }

  /** The URL handed out; a failure of either call falls back to the content itself. */
  function UrlFor(outcome: UploadOutcome, mimeType: string, content: string, base64: string -> string): string {
    if outcome.Signed? then outcome.url else "data:" + mimeType + ";base64," + base64(content)
  }
}
