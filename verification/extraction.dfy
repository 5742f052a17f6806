/** The client of the form-extraction backend: the multipart forms it sends,
    the file names it gives uploaded page images and PDFs, and the loop that
    polls a job until it finishes. The network is not modelled: the server's
    answers are parameters. */
module Extraction {
  import opened Shared

  // ---------------------------------------------------------------------------
  // Results returned by the backend
  // ---------------------------------------------------------------------------

  datatype JobState = Pending | Processing | Completed | Failed

  /** A job status report; absent optional fields are None. */
  datatype JobStatus = JobStatus(
    jobId: string,
    status: JobState,
    progress: Option<int>,
    totalPages: Option<int>,
    percentage: Option<int>,
    currentStage: Option<string>,
    message: Option<string>)

  /** The value read for one form field. */
  datatype FieldValue = FieldValue(
    value: Option<string>,
    isChecked: Option<bool>,
    circledOptions: Option<seq<string>>,
    confidence: real)

  /** The extraction of one page; `fieldValues` is in the object's entry order. */
  datatype PageResult = PageResult(
    pageNumber: int,
    fieldValues: seq<(string, FieldValue)>,
    overallConfidence: real,
    itemsNeedingReview: int,
    reviewReasons: seq<string>)

  datatype ExtractionResult = ExtractionResult(
    formId: string,
    formName: string,
    extractionTimestamp: string,
    patientName: Option<string>,
    patientDob: Option<string>,
    formDate: Option<string>,
    overallConfidence: real,
    totalItemsNeedingReview: int,
    allReviewReasons: seq<string>,
    pages: seq<PageResult>)

  /** Where an uploaded page image came from. */
  datatype PageMetadata = PageMetadata(originalPageNumber: nat, documentId: string, documentName: string)

  /** The answer to one HTTP request: the parsed body, or an error response
      whose JSON body may carry a `detail` message. */
  datatype Response<T> = Answer(body: T) | HttpError(detail: Option<string>)

  /** `error.detail || fallback`: an absent or empty detail gives the fallback. */
  function ErrorText(detail: Option<string>, fallback: string): (t: string)
    ensures detail.Some? && detail.value != "" ==> t == detail.value
    ensures detail.None? || detail.value == "" ==> t == fallback
  {
    if detail.Some? && detail.value != "" then detail.value else fallback
  }

  const AnalysisFailed: string := "Analysis failed"
  const SaveFailed: string := "Failed to save annotated PDFs"
  const StatusFailed: string := "Failed to get job status"
  const JobTimedOut: string := "Job timed out"
  const DefaultMaxAttempts: int := 300

  // ---------------------------------------------------------------------------
  // Multipart forms
  // ---------------------------------------------------------------------------

  /** A file object: its contents, its name and its MIME type. */
  datatype File<B> = File(content: B, name: string, mimeType: string)

  /** A value appended to a form: text, a file, or the JSON text of the page
      metadata list. */
  datatype FormValue<B> = Text(text: string) | Attachment(file: File<B>) | MetadataJson(metadata: seq<PageMetadata>)

  /** A multipart form: its entries in the order they were appended. */
  type Form<B> = seq<(string, FormValue<B>)>

  /** The entry for an optional text option, present only when the option is a
      non-empty string. */
  function TextOption<B>(key: string, option: Option<string>): (f: Form<B>)
    ensures |f| <= 1
    ensures f != [] <==> option.Some? && option.value != ""
    ensures f != [] ==> f[0] == (key, Text(option.value))
  {
    if option.Some? && option.value != "" then [(key, Text(option.value))] else []
  }

  /** The entry for an optional page number, present only when the number is
      truthy, i.e. present and not zero. */
  function PageOption<B>(key: string, option: Option<int>): (f: Form<B>)
    ensures |f| <= 1
    ensures f != [] <==> option.Some? && option.value != 0
    ensures f != [] ==> f[0] == (key, Text(IntToString(option.value)))
  {
    if option.Some? && option.value != 0 then [(key, Text(IntToString(option.value)))] else []
  }

  /** The form `analyzeDocument` posts: the file, then each option that is
      truthy, in a fixed order. */
  function AnalyzeForm<B>(file: File<B>, name: Option<string>, schemaPath: Option<string>,
                          startPage: Option<int>, endPage: Option<int>): (f: Form<B>)
    ensures f != [] && f[0] == ("file", Attachment(file))
    ensures |f| == 1 + |TextOption<B>("name", name)| + |TextOption<B>("schema_path", schemaPath)|
                  + |PageOption<B>("start_page", startPage)| + |PageOption<B>("end_page", endPage)|
  {
    [("file", Attachment(file))]
      + TextOption("name", name) + TextOption("schema_path", schemaPath)
      + PageOption("start_page", startPage) + PageOption("end_page", endPage)
  }

  /** Page numbers of zero are left out of the form like absent ones; every
      entry after the file is an option that was given. */
  lemma AnalyzeFormOptions<B>(file: File<B>, name: Option<string>, schemaPath: Option<string>,
                              startPage: Option<int>, endPage: Option<int>)
    ensures var f := AnalyzeForm(file, name, schemaPath, startPage, endPage);
      && f[0] == ("file", Attachment(file))
      && (("start_page" in Keys(f)) <==> startPage.Some? && startPage.value != 0)
      && (("end_page" in Keys(f)) <==> endPage.Some? && endPage.value != 0)
      && (("name" in Keys(f)) <==> name.Some? && name.value != "")
      && (("schema_path" in Keys(f)) <==> schemaPath.Some? && schemaPath.value != "")
      && |f| == 1 + |TextOption<B>("name", name)| + |TextOption<B>("schema_path", schemaPath)|
                  + |PageOption<B>("start_page", startPage)| + |PageOption<B>("end_page", endPage)|
  {
    var n, s, p, q := name.Some? && name.value != "", schemaPath.Some? && schemaPath.value != "",
      startPage.Some? && startPage.value != 0, endPage.Some? && endPage.value != 0;
    AnalyzeFormKeys(file, name, schemaPath, startPage, endPage);
    OptionKeysMembership(n, s, p, q);
  }

  /** The key list is `["file"]` followed by the key of each truthy option. */
  function OptionKeys(n: bool, s: bool, p: bool, q: bool): seq<string> {
    ["file"] + (if n then ["name"] else []) + (if s then ["schema_path"] else [])
      + (if p then ["start_page"] else []) + (if q then ["end_page"] else [])
  }

  lemma AnalyzeFormKeys<B>(file: File<B>, name: Option<string>, schemaPath: Option<string>,
                           startPage: Option<int>, endPage: Option<int>)
    ensures Keys(AnalyzeForm(file, name, schemaPath, startPage, endPage))
         == OptionKeys(name.Some? && name.value != "", schemaPath.Some? && schemaPath.value != "",
                       startPage.Some? && startPage.value != 0, endPage.Some? && endPage.value != 0)
  {
    var a, b, c, d, e := [("file", Attachment(file))], TextOption<B>("name", name), TextOption<B>("schema_path", schemaPath),
      PageOption<B>("start_page", startPage), PageOption<B>("end_page", endPage);
    KeysConcat(a, b);
    KeysConcat(a + b, c);
    KeysConcat(a + b + c, d);
    KeysConcat(a + b + c + d, e);
  }

  lemma OptionKeysMembership(n: bool, s: bool, p: bool, q: bool)
    ensures ("name" in OptionKeys(n, s, p, q)) <==> n
    ensures ("schema_path" in OptionKeys(n, s, p, q)) <==> s
    ensures ("start_page" in OptionKeys(n, s, p, q)) <==> p
    ensures ("end_page" in OptionKeys(n, s, p, q)) <==> q
  {
  }

  // ---------------------------------------------------------------------------
  // Upload file names
  // ---------------------------------------------------------------------------

  /** The text with every run of whitespace replaced by one `_`, continuing a
      run when `inRun` says the text before it ended in whitespace. */
  function CollapseRuns(s: string, inRun: bool): (r: string)
    ensures forall i :: 0 <= i < |r| ==> !IsJsWhitespace(r[i])
    ensures |r| <= |s|
  {
    if s == [] then []
    else if IsJsWhitespace(s[0]) then (if inRun then [] else "_") + CollapseRuns(s[1..], true)
    else [s[0]] + CollapseRuns(s[1..], false)
  }

  /** `s.replace(/\s+/g, '_')`. */
  function Underscored(s: string): (r: string) {
    CollapseRuns(s, false)
  }

  predicate NoWhitespace(s: string) {
    forall i :: 0 <= i < |s| ==> !IsJsWhitespace(s[i])
  }

  /** Whether a text that is followed by more text leaves a whitespace run open. */
  function EndsInRun(s: string, inRun: bool): bool {
    if s == [] then inRun else IsJsWhitespace(s[|s| - 1])
  }

  lemma {:induction false} CollapseAppend(a: string, b: string, inRun: bool)
    ensures CollapseRuns(a + b, inRun) == CollapseRuns(a, inRun) + CollapseRuns(b, EndsInRun(a, inRun))
    decreases |a|
  {
    if a == [] {
      assert a + b == b;
    } else {
      var head := if !IsJsWhitespace(a[0]) then [a[0]] else if inRun then [] else "_";
      var tail := CollapseRuns(a[1..] + b, IsJsWhitespace(a[0]));
      assert (a + b)[0] == a[0];
      assert (a + b)[1..] == a[1..] + b;
      assert CollapseRuns(a + b, inRun) == head + tail;
      CollapseAppend(a[1..], b, IsJsWhitespace(a[0]));
      assert EndsInRun(a[1..], IsJsWhitespace(a[0])) == EndsInRun(a, inRun);
      assert CollapseRuns(a, inRun) == head + CollapseRuns(a[1..], IsJsWhitespace(a[0]));
      AppendAssoc(head, CollapseRuns(a[1..], IsJsWhitespace(a[0])), CollapseRuns(b, EndsInRun(a, inRun)));
    }
  }

  lemma AppendAssoc(x: string, y: string, z: string)
    ensures x + (y + z) == (x + y) + z
  {
  }

  /** Text without whitespace passes through unchanged. */
  lemma {:induction false} CollapsePlain(s: string, inRun: bool)
    requires NoWhitespace(s)
    ensures CollapseRuns(s, inRun) == s
    decreases |s|
  {
    if s != [] {
      CollapsePlain(s[1..], false);
    }
  }

  /** A run of whitespace between two other parts becomes exactly one `_`. */
  lemma UnderscoredRun(x: string, run: string, y: string)
    requires x == [] || !IsJsWhitespace(x[|x| - 1])
    requires run != [] && forall i :: 0 <= i < |run| ==> IsJsWhitespace(run[i])
    requires y == [] || !IsJsWhitespace(y[0])
    ensures Underscored(x + run + y) == Underscored(x) + "_" + Underscored(y)
  {
    CollapseAppend(x + run, y, false);
    CollapseAppend(x, run, false);
    AllRun(run);
    assert CollapseRuns(y, true) == CollapseRuns(y, false) by {
      if y != [] {
        assert CollapseRuns(y, true) == [y[0]] + CollapseRuns(y[1..], false);
      }
    }
  }

  lemma {:induction false} AllRun(run: string)
    requires run != [] && forall i :: 0 <= i < |run| ==> IsJsWhitespace(run[i])
    ensures CollapseRuns(run, false) == "_" && EndsInRun(run, false)
    decreases |run|
  {
    if |run| > 1 {
      AllRunContinued(run[1..]);
    }
  }

  lemma {:induction false} AllRunContinued(run: string)
    requires forall i :: 0 <= i < |run| ==> IsJsWhitespace(run[i])
    ensures CollapseRuns(run, true) == []
    decreases |run|
  {
    if run != [] {
      AllRunContinued(run[1..]);
    }
  }

  /** Replacing twice is replacing once. */
  lemma UnderscoredIdempotent(s: string)
    ensures Underscored(Underscored(s)) == Underscored(s)
  {
    CollapsePlain(Underscored(s), false);
  }

  /** The file name of the page image at `index`: from its metadata when there
      is an entry at that index, from its position otherwise. */
  function ImageFilename(metadata: Option<seq<PageMetadata>>, index: nat): (name: string)
    ensures metadata.Some? && index < |metadata.value| ==>
      name == Underscored(metadata.value[index].documentName) + "_page_" + NatToString(metadata.value[index].originalPageNumber) + ".png"
    ensures !(metadata.Some? && index < |metadata.value|) ==> name == "page_" + NatToString(index + 1) + ".png"
  {
    if metadata.Some? && index < |metadata.value| then
      var m := metadata.value[index];
      Underscored(m.documentName) + "_page_" + NatToString(m.originalPageNumber) + ".png"
    else "page_" + NatToString(index + 1) + ".png"
  }

  /** Names built by adding a middle part between a common prefix and suffix
      differ when the middle parts do. */
  lemma FramedInjective(prefix: string, a: string, b: string, suffix: string)
    requires prefix + a + suffix == prefix + b + suffix
    ensures a == b
  {
    var s := prefix + a + suffix;
    assert a == s[|prefix|..|prefix| + |a|];
    assert b == (prefix + b + suffix)[|prefix|..|prefix| + |b|];
  }

  /** Images without metadata get distinct names. */
  lemma PositionalNamesDistinct(i: nat, j: nat)
    requires i != j
    ensures ImageFilename(None, i) != ImageFilename(None, j)
  {
    if ImageFilename(None, i) == ImageFilename(None, j) {
      FramedInjective("page_", NatToString(i + 1), NatToString(j + 1), ".png");
      NatToStringInjective(i + 1, j + 1);
    }
  }

  /** Two pages of documents whose names give the same prefix get distinct
      names when their page numbers differ. */
  lemma PageNamesDistinct(m: seq<PageMetadata>, i: nat, j: nat)
    requires i < |m| && j < |m|
    requires Underscored(m[i].documentName) == Underscored(m[j].documentName)
    requires m[i].originalPageNumber != m[j].originalPageNumber
    ensures ImageFilename(Some(m), i) != ImageFilename(Some(m), j)
  {
    var p := Underscored(m[i].documentName) + "_page_";
    if ImageFilename(Some(m), i) == ImageFilename(Some(m), j) {
      FramedInjective(p, NatToString(m[i].originalPageNumber), NatToString(m[j].originalPageNumber), ".png");
      NatToStringInjective(m[i].originalPageNumber, m[j].originalPageNumber);
    }
  }

  /** The entries `analyzeDocumentImages` appends for its blobs: one PNG file
      per blob, in blob order. */
  function ImageFiles<B>(blobs: seq<B>, metadata: Option<seq<PageMetadata>>): (f: Form<B>)
    ensures |f| == |blobs|
    ensures forall i :: 0 <= i < |blobs| ==>
      f[i] == ("files", Attachment(File(blobs[i], ImageFilename(metadata, i), "image/png")))
  {
    seq(|blobs|, i requires 0 <= i < |blobs| => ("files", Attachment(File(blobs[i], ImageFilename(metadata, i), "image/png"))))
  }

  /** The form `analyzeDocumentImages` posts: the files, then the name and
      schema path when non-empty, then the metadata list whenever it is given
      (an empty list included). */
  method AnalyzeImagesForm<B>(blobs: seq<B>, name: Option<string>, schemaPath: Option<string>,
                              metadata: Option<seq<PageMetadata>>) returns (form: Form<B>)
    ensures form == ImageFiles(blobs, metadata) + TextOption("name", name) + TextOption("schema_path", schemaPath)
      + (if metadata.Some? then [("page_metadata", MetadataJson(metadata.value))] else [])
  {
    form := [];
    var index := 0;
    while index < |blobs|
      invariant 0 <= index <= |blobs|
      invariant form == ImageFiles(blobs[..index], metadata)
    {
      var filename := ImageFilename(metadata, index);
      form := form + [("files", Attachment(File(blobs[index], filename, "image/png")))];
      index := index + 1;
    }
    assert blobs[..index] == blobs;
    if name.Some? && name.value != "" {
      form := form + [("name", Text(name.value))];
    }
    if schemaPath.Some? && schemaPath.value != "" {
      form := form + [("schema_path", Text(schemaPath.value))];
    }
    if metadata.Some? {
      form := form + [("page_metadata", MetadataJson(metadata.value))];
    }
  }

  /** The file name of a saved annotated PDF. */
  function PdfFilename(documentName: string): (name: string)
    ensures NoWhitespace(name)
  {
    var r := Underscored(documentName) + "_annotated.pdf";
    assert NoWhitespace("_annotated.pdf");
    r
  }

  /** The form `saveAnnotatedPdfs` posts: one PDF file per document, in order,
      then the job id when it is a non-empty string. */
  method SaveAnnotatedPdfsForm<B>(pdfs: seq<(string, B)>, jobId: Option<string>) returns (form: Form<B>)
    ensures |form| == |pdfs| + (if jobId.Some? && jobId.value != "" then 1 else 0)
    ensures forall i :: 0 <= i < |pdfs| ==>
      form[i] == ("files", Attachment(File(pdfs[i].1, PdfFilename(pdfs[i].0), "application/pdf")))
    ensures jobId.Some? && jobId.value != "" ==> form[|pdfs|] == ("job_id", Text(jobId.value))
  {
    form := [];
    var index := 0;
    while index < |pdfs|
      invariant 0 <= index <= |pdfs| && |form| == index
      invariant forall i :: 0 <= i < index ==>
        form[i] == ("files", Attachment(File(pdfs[i].1, PdfFilename(pdfs[i].0), "application/pdf")))
    {
      form := form + [("files", Attachment(File(pdfs[index].1, PdfFilename(pdfs[index].0), "application/pdf")))];
      index := index + 1;
    }
    if jobId.Some? && jobId.value != "" {
      form := form + [("job_id", Text(jobId.value))];
    }
  }

  // ---------------------------------------------------------------------------
  // Polling a job
  // ---------------------------------------------------------------------------

  predicate IsTerminal(s: JobState) {
    s == Completed || s == Failed
  }

  /** How polling ended: with a terminal status, by running out of attempts,
      or with an error response to a status request. */
  datatype PollOutcome = Finished(status: JobStatus) | TimedOut | RequestFailed(message: string)

  /** A polling run: how it ended, the statuses handed to the progress
      callback in order, and the number of status requests issued. */
  datatype PollRun = PollRun(outcome: PollOutcome, reported: seq<JobStatus>, requests: nat)

  /** The message of the error polling throws, if it ends without a status. */
  function PollError(o: PollOutcome): (m: Option<string>)
    ensures m.Some? <==> !o.Finished?
    ensures o.TimedOut? ==> m == Some(JobTimedOut)
  {
    match o
    case Finished(_) => None
    case TimedOut => Some(JobTimedOut)
    case RequestFailed(msg) => Some(msg)
  }

  /** `server(k)` is the answer to the k-th status request (counting from 0).
      Polling from attempt `attempts` on. */
  function PollFrom(server: nat -> Response<JobStatus>, maxAttempts: int, attempts: nat): PollRun
    decreases if attempts < maxAttempts then maxAttempts - attempts else 0
  {
    if attempts >= maxAttempts then PollRun(TimedOut, [], 0)
    else match server(attempts)
      case HttpError(detail) => PollRun(RequestFailed(ErrorText(detail, StatusFailed)), [], 1)
      case Answer(s) =>
        if IsTerminal(s.status) then PollRun(Finished(s), [s], 1)
        else
          var rest := PollFrom(server, maxAttempts, attempts + 1);
          PollRun(rest.outcome, [s] + rest.reported, rest.requests + 1)
  }

  /** Requests `from` up to `to` were all answered with a non-terminal status. */
  ghost predicate AllPending(server: nat -> Response<JobStatus>, from: nat, to: int) {
    forall k: nat :: from <= k < to ==> server(k).Answer? && !IsTerminal(server(k).body.status)
  }

  /** What polling from `attempts` does: it issues at most the remaining
      number of requests; each status it receives is reported once, in order;
      it stops at the first terminal status or error response, and times out
      exactly when every remaining request is answered with a non-terminal
      status. */
  lemma PollFromSpec(server: nat -> Response<JobStatus>, maxAttempts: int, attempts: nat)
    ensures var run := PollFrom(server, maxAttempts, attempts);
      && run.requests <= Max(0, maxAttempts - attempts)
      && |run.reported| == (if run.outcome.RequestFailed? then run.requests - 1 else run.requests)
      && (forall i :: 0 <= i < |run.reported| ==> server(attempts + i) == Answer(run.reported[i]))
      && AllPending(server, attempts, attempts + run.requests - 1)
      && (run.outcome.TimedOut? <==> AllPending(server, attempts, maxAttempts))
      && (run.outcome.TimedOut? ==> run.requests == Max(0, maxAttempts - attempts))
      && (run.outcome.Finished? ==>
            && run.requests >= 1
            && server(attempts + run.requests - 1) == Answer(run.outcome.status)
            && IsTerminal(run.outcome.status.status))
      && (run.outcome.RequestFailed? ==>
            && run.requests >= 1
            && server(attempts + run.requests - 1).HttpError?
            && run.outcome.message == ErrorText(server(attempts + run.requests - 1).detail, StatusFailed))
  {
    PollFromReported(server, maxAttempts, attempts);
    PollFromOutcome(server, maxAttempts, attempts);
  }

  /** The requests a run issues and the statuses it reports. */
  lemma {:induction false} PollFromReported(server: nat -> Response<JobStatus>, maxAttempts: int, attempts: nat)
    ensures var run := PollFrom(server, maxAttempts, attempts);
      && run.requests <= Max(0, maxAttempts - attempts)
      && |run.reported| == (if run.outcome.RequestFailed? then run.requests - 1 else run.requests)
      && (forall i :: 0 <= i < |run.reported| ==> server(attempts + i) == Answer(run.reported[i]))
      && AllPending(server, attempts, attempts + run.requests - 1)
    decreases if attempts < maxAttempts then maxAttempts - attempts else 0
  {
    var run := PollFrom(server, maxAttempts, attempts);
    if attempts < maxAttempts && server(attempts).Answer? && !IsTerminal(server(attempts).body.status) {
      PollFromReported(server, maxAttempts, attempts + 1);
      var rest := PollFrom(server, maxAttempts, attempts + 1);
      assert run == PollRun(rest.outcome, [server(attempts).body] + rest.reported, rest.requests + 1);
      forall i | 0 <= i < |run.reported| ensures server(attempts + i) == Answer(run.reported[i]) {
        if i > 0 {
          assert run.reported[i] == rest.reported[i - 1];
        }
      }
      PendingCons(server, attempts, attempts + run.requests - 1);
    }
  }

  /** How a run ends: by timing out exactly when every remaining answer is
      pending, otherwise on its last request. */
  lemma {:induction false} PollFromOutcome(server: nat -> Response<JobStatus>, maxAttempts: int, attempts: nat)
    ensures var run := PollFrom(server, maxAttempts, attempts);
      && (run.outcome.TimedOut? <==> AllPending(server, attempts, maxAttempts))
      && (run.outcome.TimedOut? ==> run.requests == Max(0, maxAttempts - attempts))
      && (run.outcome.Finished? ==>
            && run.requests >= 1
            && server(attempts + run.requests - 1) == Answer(run.outcome.status)
            && IsTerminal(run.outcome.status.status))
      && (run.outcome.RequestFailed? ==>
            && run.requests >= 1
            && server(attempts + run.requests - 1).HttpError?
            && run.outcome.message == ErrorText(server(attempts + run.requests - 1).detail, StatusFailed))
    decreases if attempts < maxAttempts then maxAttempts - attempts else 0
  {
    var run := PollFrom(server, maxAttempts, attempts);
    if attempts < maxAttempts && server(attempts).Answer? && !IsTerminal(server(attempts).body.status) {
      PollFromOutcome(server, maxAttempts, attempts + 1);
      var rest := PollFrom(server, maxAttempts, attempts + 1);
      assert run == PollRun(rest.outcome, [server(attempts).body] + rest.reported, rest.requests + 1);
      PendingCons(server, attempts, maxAttempts);
    } else if attempts < maxAttempts {
      assert !AllPending(server, attempts, maxAttempts) by {
        assert !(server(attempts).Answer? && !IsTerminal(server(attempts).body.status));
      }
    }
  }

  /** A run that finishes does so on a terminal status. */
  lemma FinishedIsTerminal(server: nat -> Response<JobStatus>, maxAttempts: int, attempts: nat)
    ensures PollFrom(server, maxAttempts, attempts).outcome.Finished? ==>
      IsTerminal(PollFrom(server, maxAttempts, attempts).outcome.status.status)
  {
    PollFromOutcome(server, maxAttempts, attempts);
  }

  /** A pending answer at `from` extends a pending stretch after it. */
  lemma PendingCons(server: nat -> Response<JobStatus>, from: nat, to: int)
    requires server(from).Answer? && !IsTerminal(server(from).body.status)
    ensures AllPending(server, from, to) <==> AllPending(server, from + 1, to)
  {
  }

  /** With no attempts allowed, polling times out without a single request. */
  lemma NoAttempts(server: nat -> Response<JobStatus>, maxAttempts: int)
    requires maxAttempts <= 0
    ensures PollFrom(server, maxAttempts, 0) == PollRun(TimedOut, [], 0)
  {
  }

  /** A run seen from the start when `reported` were the statuses received
      before it. */
  function Preceded(reported: seq<JobStatus>, run: PollRun): (r: PollRun)
    ensures r.outcome == run.outcome && r.requests == |reported| + run.requests
    ensures |r.reported| == |reported| + |run.reported| && r.reported[..|reported|] == reported
  {
    PollRun(run.outcome, reported + run.reported, |reported| + run.requests)
  }

  /** A non-terminal status moves from the rest of the run to what was
      received before it. */
  lemma PendingStep(server: nat -> Response<JobStatus>, maxAttempts: int, attempts: nat,
                    reported: seq<JobStatus>, status: JobStatus)
    requires attempts < maxAttempts && server(attempts) == Answer(status) && !IsTerminal(status.status)
    ensures Preceded(reported, PollFrom(server, maxAttempts, attempts))
         == Preceded(reported + [status], PollFrom(server, maxAttempts, attempts + 1))
  {
    var rest := PollFrom(server, maxAttempts, attempts + 1);
    assert PollFrom(server, maxAttempts, attempts) == PollRun(rest.outcome, [status] + rest.reported, rest.requests + 1);
    assert reported + ([status] + rest.reported) == (reported + [status]) + rest.reported;
  }

  /** pollJobStatus: asks for the job's status until it is completed or failed,
      at most `maxAttempts` times, passing every status received to the
      progress callback (`run.reported`). The pause between requests is not
      modelled. */
  method PollJobStatus(server: nat -> Response<JobStatus>, maxAttempts: int) returns (run: PollRun)
    ensures run == PollFrom(server, maxAttempts, 0)
  {
    var attempts: nat := 0;
    var reported: seq<JobStatus> := [];
    while attempts < maxAttempts
      invariant |reported| == attempts
      invariant PollFrom(server, maxAttempts, 0) == Preceded(reported, PollFrom(server, maxAttempts, attempts))
      decreases maxAttempts - attempts
    {
      var response := server(attempts);
      if response.HttpError? {
        assert reported + [] == reported;
        return PollRun(RequestFailed(ErrorText(response.detail, StatusFailed)), reported, attempts + 1);
      }
      var status := response.body;
      if IsTerminal(status.status) {
        return PollRun(Finished(status), reported + [status], attempts + 1);
      }
      PendingStep(server, maxAttempts, attempts, reported, status);
      reported := reported + [status];
      attempts := attempts + 1;
    }
    assert reported + [] == reported;
    run := PollRun(TimedOut, reported, attempts);
  }
}
