/** Report creation: upload every attachment, insert the report, and undo the uploads if either fails. */
module Reports {
  import opened Outcomes
  import opened Storage
  import Decimal

  datatype Attachment = Attachment(id: string, name: string, url: string, size: int)

  datatype Report = Report(employee: string, attachments: seq<Attachment>)

  /** What the outside world answers for one file: two clock readings, the upload, a later removal. */
  datatype Answer = Answer(pathAt: nat, stampAt: nat, upload: UploadOutcome, removable: bool)

  datatype Upload = Upload(path: string, content: string, outcome: UploadOutcome, removable: bool)

  function PathFor(employee: string, at: nat, name: string): string {
    "reports/" + employee + "/" + Decimal.ToString(at) + "-" + Sanitize(name)
  }

  /** Why a file cannot be uploaded: it is refused, or there is no storage to upload to. */
  function Obstacle(file: File, configured: bool): Option<Error> {
    var e := FileError(file);
    if e.Some? then e else if !configured then Some(NotConfigured) else None
  }

  /** How many files are uploaded before the first that cannot be. */
  function Reached(files: seq<File>, configured: bool): (k: nat)
    ensures k <= |files|
    ensures forall i :: 0 <= i < k ==> Obstacle(files[i], configured).None?
    ensures k < |files| ==> Obstacle(files[k], configured).Some?
  {
    if files == [] || Obstacle(files[0], configured).Some? then 0 else 1 + Reached(files[1..], configured)
  }

  lemma {:induction false} ReachedIs(files: seq<File>, configured: bool, k: nat)
    requires k <= |files| && forall i :: 0 <= i < k ==> Obstacle(files[i], configured).None?
    requires k < |files| ==> Obstacle(files[k], configured).Some?
    ensures Reached(files, configured) == k
  {
  }

  /** All files are reached exactly when all are acceptable and there is storage for them. */
  lemma {:induction false} ReachedExactly(files: seq<File>, configured: bool)
    ensures Reached(files, configured) == |files|
       <==> (forall i :: 0 <= i < |files| ==> Acceptable(files[i])) && (files != [] ==> configured)
  {
    forall i | 0 <= i < |files| ensures Obstacle(files[i], configured) == None <==> Acceptable(files[i]) && configured {
      FileErrorExact(files[i]);
    }
    if files != [] && Reached(files, configured) == |files| {
      assert Obstacle(files[0], configured).None?;
    }
  }

  function UploadFor(employee: string, file: File, answer: Answer): Upload
    requires file.buffer.Some?
  {
    Upload(PathFor(employee, answer.pathAt, file.originalName), file.buffer.value, answer.upload, answer.removable)
  }

  /** The uploads of the first k files. */
  function UploadsOf(employee: string, files: seq<File>, answers: seq<Answer>, k: nat): (r: seq<Upload>)
    requires k <= |files| == |answers|
    requires forall i :: 0 <= i < k ==> files[i].buffer.Some?
    ensures |r| == k
  {
    seq(k, i requires 0 <= i < k => UploadFor(employee, files[i], answers[i]))
  }

  function AttachmentFor(file: File, answer: Answer, base64: string -> string): Attachment
    requires file.buffer.Some?
  {
    Attachment(Decimal.ToString(answer.stampAt), Sanitize(file.originalName),
               UrlFor(answer.upload, file.mimeType, file.buffer.value, base64), file.size)
  }

  /** The attachment of this file: stamped, its name cleaned, and its URL the signed one or the content itself. */
  predicate IsAttachment(a: Attachment, file: File, answer: Answer, base64: string -> string)
    requires file.buffer.Some?
  {
    && a.id == Decimal.ToString(answer.stampAt) && a.name == Sanitize(file.originalName) && a.size == file.size
    && a.url == if answer.upload.Signed? then answer.upload.url
                else "data:" + file.mimeType + ";base64," + base64(file.buffer.value)
  }

  /** The attachments of the first k files. */
  function AttachmentsOf(files: seq<File>, answers: seq<Answer>, k: nat, base64: string -> string): (r: seq<Attachment>)
    requires k <= |files| == |answers|
    requires forall i :: 0 <= i < k ==> files[i].buffer.Some?
    ensures |r| == k && forall i :: 0 <= i < k ==> r[i] == AttachmentFor(files[i], answers[i], base64)
  {
    seq(k, i requires 0 <= i < k => AttachmentFor(files[i], answers[i], base64))
  }

  function Put(bucket: Bucket, u: Upload): Bucket {
    if Stores(u.outcome) then bucket[u.path := u.content] else bucket
  }

  /** The bucket after uploads in order, each overwriting what was there. */
  function Uploaded(bucket: Bucket, uploads: seq<Upload>): Bucket {
    if uploads == [] then bucket
    else Put(Uploaded(bucket, uploads[..|uploads| - 1]), uploads[|uploads| - 1])
  }

  /** What the upload loop has done when it reaches file k. */
  ghost predicate Progress(was: Bucket, employee: string, files: seq<File>, answers: seq<Answer>, base64: string -> string,
                           configured: bool, k: nat, bucket: Bucket, uploads: seq<Upload>, attachments: seq<Attachment>)
    requires |answers| == |files|
  {
    && k <= |files|
    && (forall i :: 0 <= i < k ==> Obstacle(files[i], configured).None?)
    && uploads == UploadsOf(employee, files, answers, k)
    && bucket == Uploaded(was, uploads)
    && attachments == AttachmentsOf(files, answers, k, base64)
  }

  lemma UploadsGrow(employee: string, files: seq<File>, answers: seq<Answer>, k: nat)
    requires k < |files| == |answers| && forall i :: 0 <= i <= k ==> files[i].buffer.Some?
    ensures UploadsOf(employee, files, answers, k + 1)
         == UploadsOf(employee, files, answers, k) + [UploadFor(employee, files[k], answers[k])]
  {
  }

  lemma AttachmentsGrow(files: seq<File>, answers: seq<Answer>, k: nat, base64: string -> string)
    requires k < |files| == |answers| && forall i :: 0 <= i <= k ==> files[i].buffer.Some?
    ensures AttachmentsOf(files, answers, k + 1, base64)
         == AttachmentsOf(files, answers, k, base64) + [AttachmentFor(files[k], answers[k], base64)]
  {
  }

  lemma UploadedGrows(was: Bucket, uploads: seq<Upload>, u: Upload)
    ensures Uploaded(was, uploads + [u]) == Put(Uploaded(was, uploads), u)
  {
    assert (uploads + [u])[..|uploads|] == uploads;
  }

  /** A turn of the loop past file k. */
  lemma TurnAdds(was: Bucket, employee: string, files: seq<File>, answers: seq<Answer>, base64: string -> string,
                 configured: bool, k: nat, bucket: Bucket, uploads: seq<Upload>, attachments: seq<Attachment>)
    requires |answers| == |files| && k < |files| && Obstacle(files[k], configured).None?
    requires Progress(was, employee, files, answers, base64, configured, k, bucket, uploads, attachments)
    ensures var u := UploadFor(employee, files[k], answers[k]);
            Progress(was, employee, files, answers, base64, configured, k + 1, Put(bucket, u), uploads + [u],
                     attachments + [AttachmentFor(files[k], answers[k], base64)])
  {
    UploadsGrow(employee, files, answers, k);
    AttachmentsGrow(files, answers, k, base64);
    UploadedGrows(was, uploads, UploadFor(employee, files[k], answers[k]));
  }

  // ---- What an upload leaves in the bucket ----

  /** The last upload that stored something at this path. */
  function LastStored(uploads: seq<Upload>, path: string): (r: Option<nat>)
    ensures r.Some? ==> r.value < |uploads| && Stores(uploads[r.value].outcome) && uploads[r.value].path == path
    ensures forall j :: 0 <= j < |uploads| && (r.Some? ==> r.value < j) && Stores(uploads[j].outcome) ==>
              uploads[j].path != path
  {
    if uploads == [] then None
    else
      var u := uploads[|uploads| - 1];
      if Stores(u.outcome) && u.path == path then Some(|uploads| - 1)
      else LastStored(uploads[..|uploads| - 1], path)
  }

  predicate Same(a: Bucket, b: Bucket, path: string) {
    (path in a <==> path in b) && (path in a && path in b ==> a[path] == b[path])
  }

  lemma {:induction false} UploadedHolds(bucket: Bucket, uploads: seq<Upload>, path: string)
    ensures var last, after := LastStored(uploads, path), Uploaded(bucket, uploads);
            && (last.Some? ==> path in after && after[path] == uploads[last.value].content)
            && (last.None? ==> Same(after, bucket, path))
  {
    if uploads != [] {
      UploadedHolds(bucket, uploads[..|uploads| - 1], path);
    }
  }

  /** What was uploaded is found at its path exactly when the last upload stored there has the same content. */
  ghost predicate StandsExactly(bucket: Bucket, uploads: seq<Upload>, i: nat)
    requires i < |uploads|
  {
    var path, last := uploads[i].path, LastStored(uploads, uploads[i].path);
    && path in bucket
    && last.Some? && i <= last.value
    && (bucket[path] == uploads[i].content <==> uploads[last.value].content == uploads[i].content)
  }

  lemma ContentStands(bucket: Bucket, uploads: seq<Upload>, i: nat)
    requires i < |uploads| && Stores(uploads[i].outcome)
    ensures StandsExactly(Uploaded(bucket, uploads), uploads, i)
  {
    UploadedHolds(bucket, uploads, uploads[i].path);
  }

  lemma {:induction false} DigitsEnd(a: string, b: string, x: string, y: string)
    requires Decimal.AllDigits(a) && Decimal.AllDigits(b) && a + "-" + x == b + "-" + y
    ensures a == b && x == y
  {
    var s := a + "-" + x;
    assert s[|a|] == '-' && s[|b|] == '-';
    assert forall i :: 0 <= i < |a| ==> s[i] == a[i];
    assert forall i :: 0 <= i < |b| ==> s[i] == b[i];
    assert |a| == |b|;
    assert a == s[..|a|] && b == s[..|b|];
    assert x == s[|a| + 1..] && y == s[|b| + 1..];
  }

  /** Two files of one report share a path exactly when they are stamped alike and their clean names agree. */
  lemma PathsAgreeExactly(employee: string, at: nat, name: string, at': nat, name': string)
    ensures PathFor(employee, at, name) == PathFor(employee, at', name') <==> at == at' && Sanitize(name) == Sanitize(name')
  {
    var front := "reports/" + employee + "/";
    var a, b := Decimal.ToString(at) + "-" + Sanitize(name), Decimal.ToString(at') + "-" + Sanitize(name');
    assert PathFor(employee, at, name) == front + a && PathFor(employee, at', name') == front + b;
    assert (front + a)[|front|..] == a && (front + b)[|front|..] == b;
    if a == b {
      DigitsEnd(Decimal.ToString(at), Decimal.ToString(at'), Sanitize(name), Sanitize(name'));
      Decimal.ToStringValue(at);
      Decimal.ToStringValue(at');
    }
  }

  /** Files stamped apart, or named apart, all stand. */
  lemma DistinctFilesStand(bucket: Bucket, employee: string, files: seq<File>, answers: seq<Answer>, k: nat, i: nat)
    requires i < k <= |files| == |answers| && forall j :: 0 <= j < k ==> files[j].buffer.Some?
    requires Stores(answers[i].upload)
    requires forall j :: i < j < k ==>
      answers[j].pathAt != answers[i].pathAt || Sanitize(files[j].originalName) != Sanitize(files[i].originalName)
    ensures var uploads := UploadsOf(employee, files, answers, k);
            var after := Uploaded(bucket, uploads);
            uploads[i].path in after && after[uploads[i].path] == files[i].buffer.value
  {
    var uploads := UploadsOf(employee, files, answers, k);
    ContentStands(bucket, uploads, i);
    var last := LastStored(uploads, uploads[i].path).value;
    PathsAgreeExactly(employee, answers[i].pathAt, files[i].originalName, answers[last].pathAt, files[last].originalName);
  }

  /** Two files of one name stamped in one millisecond: the second takes the path of the first. */
  lemma SharedNameLoses(bucket: Bucket, employee: string, first: File, second: File, a: Answer, b: Answer)
    requires first.buffer.Some? && second.buffer.Some? && first.originalName == second.originalName
    requires a.pathAt == b.pathAt && Stores(a.upload) && Stores(b.upload)
    ensures var uploads := UploadsOf(employee, [first, second], [a, b], 2);
            var after := Uploaded(bucket, uploads);
            uploads[0].path in after && after[uploads[0].path] == second.buffer.value
  {
    UploadedHolds(bucket, UploadsOf(employee, [first, second], [a, b], 2), PathFor(employee, a.pathAt, first.originalName));
  }

  /**
   Of two different contents at one path the first is lost, but a third upload there that repeats the
   first brings it back: what counts is the last one, not whether a different one came later.
   */
  lemma SharedPathLoses(bucket: Bucket, path: string)
    ensures var first, second := Upload(path, "a", SigningFailed, true), Upload(path, "b", SigningFailed, true);
            && Uploaded(bucket, [first, second])[path] == "b"
            && Uploaded(bucket, [first, second, first])[path] == "a"
  {
    var first, second := Upload(path, "a", SigningFailed, true), Upload(path, "b", SigningFailed, true);
    UploadedHolds(bucket, [first, second], path);
    UploadedHolds(bucket, [first, second, first], path);
  }

  /** The bucket after the compensating deletes, some of which may fail. */
  function Removed(bucket: Bucket, uploads: seq<Upload>): Bucket {
    if uploads == [] then bucket
    else
      var u := uploads[|uploads| - 1];
      var before := Removed(bucket, uploads[..|uploads| - 1]);
      if u.removable then before - {u.path} else before
  }

  predicate Touches(uploads: seq<Upload>, path: string) {
    exists i :: 0 <= i < |uploads| && uploads[i].path == path
  }

  lemma TouchesFront(uploads: seq<Upload>, path: string)
    requires uploads != [] && !Touches(uploads, path)
    ensures !Touches(uploads[..|uploads| - 1], path) && uploads[|uploads| - 1].path != path
  {
  }

  lemma {:induction false} OtherPathsAreKept(bucket: Bucket, uploads: seq<Upload>, path: string)
    requires !Touches(uploads, path)
    ensures Same(Uploaded(bucket, uploads), bucket, path)
    ensures Same(Removed(bucket, uploads), bucket, path)
  {
    if uploads != [] {
      TouchesFront(uploads, path);
      OtherPathsAreKept(bucket, uploads[..|uploads| - 1], path);
    }
  }

  lemma {:induction false} RemovedPathsAreGone(bucket: Bucket, uploads: seq<Upload>, i: nat)
    requires i < |uploads| && uploads[i].removable
    ensures uploads[i].path !in Removed(bucket, uploads)
  {
    if i < |uploads| - 1 {
      RemovedPathsAreGone(bucket, uploads[..|uploads| - 1], i);
    }
  }

  /**
   Rolling back changes nothing outside the uploaded paths, whichever deletes fail. If none fails,
   the bucket is as it was exactly when no uploaded path existed before: an overwritten object is
   deleted, not restored.
   */
  lemma RollbackExact(bucket: Bucket, uploads: seq<Upload>)
    ensures forall p :: !Touches(uploads, p) ==> Same(Removed(Uploaded(bucket, uploads), uploads), bucket, p)
    ensures (forall i :: 0 <= i < |uploads| ==> uploads[i].removable) ==>
      (Removed(Uploaded(bucket, uploads), uploads) == bucket
       <==> forall i :: 0 <= i < |uploads| ==> uploads[i].path !in bucket)
  {
    var after := Removed(Uploaded(bucket, uploads), uploads);
    forall p | !Touches(uploads, p) ensures Same(after, bucket, p) {
      OtherPathsAreKept(bucket, uploads, p);
      OtherPathsAreKept(Uploaded(bucket, uploads), uploads, p);
    }
    if forall i :: 0 <= i < |uploads| ==> uploads[i].removable {
      forall i | 0 <= i < |uploads| ensures uploads[i].path !in after {
        RemovedPathsAreGone(Uploaded(bucket, uploads), uploads, i);
      }
      if forall i :: 0 <= i < |uploads| ==> uploads[i].path !in bucket {
        forall p ensures Same(after, bucket, p) {
          if Touches(uploads, p) {
            var i :| 0 <= i < |uploads| && uploads[i].path == p;
          }
        }
        assert forall p :: p in after ==> Same(after, bucket, p);
        assert forall p :: p in bucket ==> Same(after, bucket, p);
        assert after == bucket;
      }
    }
  }

  /** An object that an upload overwrote is gone after the rollback: its old content is not restored. */
  lemma OverwrittenIsLost(path: string, was: string, content: string)
    ensures var bucket, uploads := map[path := was], [Upload(path, content, SigningFailed, true)];
            path in bucket && path !in Removed(Uploaded(bucket, uploads), uploads)
  {
    var uploads := [Upload(path, content, SigningFailed, true)];
    RemovedPathsAreGone(Uploaded(map[path := was], uploads), uploads, 0);
  }

  // ---- What a creation leaves ----

  /** The upload of this file: under the employee, stamped, its name cleaned, with its content. */
  predicate IsUpload(u: Upload, employee: string, file: File, answer: Answer) {
    && u.path == "reports/" + employee + "/" + Decimal.ToString(answer.pathAt) + "-" + Sanitize(file.originalName)
    && file.buffer == Some(u.content) && u.outcome == answer.upload && u.removable == answer.removable
  }

  /** A failed signing leaves the object stored; a failed upload may. */
  predicate Lasts(outcome: UploadOutcome) {
    outcome.Signed? || outcome.SigningFailed? || outcome.stored
  }

  /** Every file has its attachment, and every upload its path and content; each stored content stands unless overtaken. */
  ghost predicate AllKept(was: Bucket, bucket: Bucket, employee: string, files: seq<File>, answers: seq<Answer>,
                          base64: string -> string, attachments: seq<Attachment>)
    requires |answers| == |files|
  {
    && |attachments| == |files|
    && (forall i :: 0 <= i < |files| ==>
          files[i].buffer.Some? && IsAttachment(attachments[i], files[i], answers[i], base64))
    && var uploads := UploadsOf(employee, files, answers, |files|);
       && (forall i :: 0 <= i < |files| ==> IsUpload(uploads[i], employee, files[i], answers[i]))
       && (forall i :: 0 <= i < |files| && Lasts(answers[i].upload) ==> StandsExactly(bucket, uploads, i))
       && (forall p :: !Touches(uploads, p) ==> Same(bucket, was, p))
  }

  /** Some working removal is of this path. */
  predicate TakesAway(uploads: seq<Upload>, path: string) {
    exists i :: 0 <= i < |uploads| && uploads[i].path == path && uploads[i].removable
  }

  lemma FrontTakesAway(uploads: seq<Upload>, path: string)
    requires uploads != [] && TakesAway(uploads[..|uploads| - 1], path)
    ensures TakesAway(uploads, path)
  {
    var front := uploads[..|uploads| - 1];
    var i :| 0 <= i < |front| && front[i].path == path && front[i].removable;
    assert uploads[i] == front[i];
  }

  lemma {:induction false} UnremovedStays(bucket: Bucket, uploads: seq<Upload>, path: string)
    requires !TakesAway(uploads, path)
    ensures Same(Removed(bucket, uploads), bucket, path)
  {
    if uploads != [] {
      var front, last := uploads[..|uploads| - 1], uploads[|uploads| - 1];
      if !TakesAway(front, path) {
        UnremovedStays(bucket, front, path);
        assert last.path != path || !last.removable;
      } else {
        FrontTakesAway(uploads, path);
      }
    }
  }

  /**
   Nothing but uploaded paths has changed. Each path whose removal worked is gone, whatever other
   removals did, and each other one is as the uploads left it; with working removals the bucket is as
   before exactly when no uploaded path existed before.
   */
  ghost predicate TakenBack(was: Bucket, bucket: Bucket, uploads: seq<Upload>) {
    && (forall p :: !Touches(uploads, p) ==> Same(bucket, was, p))
    && (forall i :: 0 <= i < |uploads| && uploads[i].removable ==> uploads[i].path !in bucket)
    && (forall p :: !TakesAway(uploads, p) ==> Same(bucket, Uploaded(was, uploads), p))
    && ((forall i :: 0 <= i < |uploads| ==> uploads[i].removable) ==>
         (bucket == was <==> forall i :: 0 <= i < |uploads| ==> uploads[i].path !in was))
  }

  lemma SuccessKeeps(was: Bucket, employee: string, files: seq<File>, answers: seq<Answer>, base64: string -> string)
    requires |answers| == |files| && forall i :: 0 <= i < |files| ==> files[i].buffer.Some?
    ensures AllKept(was, Uploaded(was, UploadsOf(employee, files, answers, |files|)), employee, files, answers, base64,
                    AttachmentsOf(files, answers, |files|, base64))
  {
    var uploads := UploadsOf(employee, files, answers, |files|);
    forall i | 0 <= i < |files| && Lasts(answers[i].upload) ensures StandsExactly(Uploaded(was, uploads), uploads, i) {
      ContentStands(was, uploads, i);
    }
    forall p | !Touches(uploads, p) ensures Same(Uploaded(was, uploads), was, p) {
      OtherPathsAreKept(was, uploads, p);
    }
  }

  lemma FailureTakesBack(was: Bucket, uploads: seq<Upload>)
    ensures TakenBack(was, Removed(Uploaded(was, uploads), uploads), uploads)
  {
    var after := Uploaded(was, uploads);
    RollbackExact(was, uploads);
    forall i | 0 <= i < |uploads| && uploads[i].removable ensures uploads[i].path !in Removed(after, uploads) {
      RemovedPathsAreGone(after, uploads, i);
    }
    forall p | !TakesAway(uploads, p) ensures Same(Removed(after, uploads), after, p) {
      UnremovedStays(after, uploads, p);
    }
  }

  class ReportsController {
    const configured: bool
    var bucket: Bucket
    var reports: seq<Report>

    constructor (configured: bool, bucket: Bucket)
      ensures this.configured == configured && this.bucket == bucket && reports == []
    {
      this.configured, this.bucket, this.reports := configured, bucket, [];
    }

    method UploadFile(path: string, content: string, mimeType: string, outcome: UploadOutcome, base64: string -> string)
      returns (result: Result<string, Error>)
      modifies this`bucket
      ensures !configured ==> result == Failure(NotConfigured) && bucket == old(bucket)
      ensures configured && outcome.Signed? ==> result == Success(outcome.url)
      ensures configured && !outcome.Signed? ==> result == Success("data:" + mimeType + ";base64," + base64(content))
      ensures configured && (outcome.Signed? || outcome.SigningFailed? || outcome.stored) ==>
        bucket == old(bucket)[path := content]
      ensures configured && outcome == UploadFailed(false) ==> bucket == old(bucket)
    {
      if !configured {
        return Failure(NotConfigured);
      }
      if Stores(outcome) {
        bucket := bucket[path := content];
      }
      result := Success(UrlFor(outcome, mimeType, content, base64));
    }

    method DeleteFile(path: string, removable: bool) returns (deleted: bool)
      modifies this`bucket
      ensures deleted == (configured && removable)
      ensures bucket == if deleted then old(bucket) - {path} else old(bucket)
    {
      deleted := configured && removable;
      if deleted {
        bucket := bucket - {path};
      }
    }

    /** The compensating deletes, one for each uploaded path in order. */
    method Undo(uploads: seq<Upload>)
      requires uploads != [] ==> configured
      modifies this`bucket
      ensures bucket == Removed(old(bucket), uploads)
    {
      for i := 0 to |uploads|
        invariant bucket == Removed(old(bucket), uploads[..i])
      {
        assert uploads[..i + 1][..i] == uploads[..i];
        var _ := DeleteFile(uploads[i].path, uploads[i].removable);
      }
      assert uploads[..|uploads|] == uploads;
    }

    /** One turn of the upload loop. */
    method Attach(employee: string, file: File, answer: Answer, base64: string -> string)
      returns (result: Result<(Upload, Attachment), Error>)
      modifies this`bucket
      ensures var obstacle := Obstacle(file, configured);
              && (obstacle.Some? ==> result == Failure(obstacle.value) && bucket == old(bucket))
              && (obstacle.None? ==>
                   && result == Success((UploadFor(employee, file, answer), AttachmentFor(file, answer, base64)))
                   && bucket == Put(old(bucket), UploadFor(employee, file, answer)))
    {
      var invalid := FileError(file);
      if invalid.Some? {
        return Failure(invalid.value);
      }
      var name := Sanitize(file.originalName);
      var path := "reports/" + employee + "/" + Decimal.ToString(answer.pathAt) + "-" + name;
      var url := UploadFile(path, file.buffer.value, file.mimeType, answer.upload, base64);
      if url.Failure? {
        return Failure(url.error);
      }
      result := Success((Upload(path, file.buffer.value, answer.upload, answer.removable),
                         Attachment(Decimal.ToString(answer.stampAt), name, url.value, file.size)));
    }

    method AttachAll(employee: string, files: seq<File>, answers: seq<Answer>, base64: string -> string)
      returns (uploads: seq<Upload>, attachments: seq<Attachment>, failure: Option<Error>)
      requires |answers| == |files|
      modifies this`bucket
      ensures var k := Reached(files, configured);
              && uploads == UploadsOf(employee, files, answers, k)
              && bucket == Uploaded(old(bucket), uploads)
              && failure == (if k < |files| then Obstacle(files[k], configured) else None)
              && attachments == AttachmentsOf(files, answers, k, base64)
    {
      uploads, attachments, failure := [], [], None;
      ghost var was := bucket;
      for k := 0 to |files|
        invariant Progress(was, employee, files, answers, base64, configured, k, bucket, uploads, attachments)
        invariant failure.None?
      {
        ghost var before := bucket;
        var attached := Attach(employee, files[k], answers[k], base64);
        if attached.Failure? {
          ReachedIs(files, configured, k);
          return uploads, attachments, Some(attached.error);
        }
        TurnAdds(was, employee, files, answers, base64, configured, k, before, uploads, attachments);
        uploads := uploads + [attached.value.0];
        attachments := attachments + [attached.value.1];
      }
      ReachedIs(files, configured, |files|);
    }

    /**
     Creation succeeds exactly when every file is acceptable, there is storage for them, and the database
     inserts. On success the attachments are the files, one to one in order, and each stored file is found
     at its path unless a later one took it. On failure the first obstacle, or else the database's
     refusal, is what the caller sees, and every upload made so far has been taken back.
     */
    method Create(employee: string, files: seq<File>, answers: seq<Answer>, insertError: Option<string>,
                  base64: string -> string)
      returns (result: Result<seq<Attachment>, Error>)
      requires |answers| == |files|
      modifies this
      ensures result.Success? <==>
        (forall i :: 0 <= i < |files| ==> Acceptable(files[i])) && (files != [] ==> configured) && insertError.None?
      ensures result.Success? ==>
        && bucket == Uploaded(old(bucket), UploadsOf(employee, files, answers, |files|))
        && AllKept(old(bucket), bucket, employee, files, answers, base64, result.value)
        && reports == old(reports) + [Report(employee, result.value)]
      ensures result.Failure? ==>
        var k := Reached(files, configured);
        var uploads := UploadsOf(employee, files, answers, k);
        && result.error == (if k < |files| then Obstacle(files[k], configured).value else InsertFailed(insertError.value))
        && bucket == Removed(Uploaded(old(bucket), uploads), uploads)
        && TakenBack(old(bucket), bucket, uploads)
        && reports == old(reports)
    {
      ghost var was := bucket;
      ReachedExactly(files, configured);
      var uploads, attachments, failure := AttachAll(employee, files, answers, base64);
      if failure.None? && insertError.Some? {
        failure := Some(InsertFailed(insertError.value));
      }
      if failure.Some? {
        Undo(uploads);
        FailureTakesBack(was, uploads);
        return Failure(failure.value);
      }
      SuccessKeeps(was, employee, files, answers, base64);
      reports := reports + [Report(employee, attachments)];
      result := Success(attachments);
    }
  }
}
