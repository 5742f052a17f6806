/** The home page: two configured forms are annotated, the annotated pages are
    flattened into one upload, the analysis job is polled with a progress
    display, and the page ends in a results view or an error view. */
module AnalysisFlow {
  import opened Shared
  import opened MultiDocumentAnnotator
  import opened Extraction

  /** The two forms shown for annotation, in this order. */
  const Documents: seq<DocumentConfig> := [
    DocumentConfig("orofacial", "Orofacial Pain Examination", "/orofacial-exam.pdf"),
    DocumentConfig("consents", "Consents", "/consents.pdf")
  ]

  datatype AppState = Annotating | Analyzing | Results | Error

  datatype Progress = Progress(current: int, total: int, percentage: int, stage: string)

  /** A log that starts with `log` followed by `added`, and a later log that
      keeps all of it. */
  lemma ExtendedLog(log: seq<Progress>, added: seq<Progress>, mid: seq<Progress>, final: seq<Progress>)
    requires mid == log + added && |final| >= |mid| && final[..|mid|] == mid
    ensures |final| >= |log| + |added| && final[..|log|] == log
    ensures final[|log|..|log| + |added|] == added
  {
    assert final[..|log|] == mid[..|log|];
    assert final[|log|..|log| + |added|] == mid[|log|..];
  }

  /** The most recent display in a log of progress displays, if any. */
  function Latest(log: seq<Progress>): Option<Progress> {
    if log == [] then None else Some(log[|log| - 1])
  }

  const NoPagesMessage: string := "No pages have been annotated. Please draw on at least one page before analyzing."
  const UploadName: string := "Patient Forms - Combined"
  const ResultsFailed: string := "Failed to get results"
  const PreparingStage: string := "Preparing documents..."
  const UploadingStage: string := "Uploading to AI engine..."
  const AnalyzingStage: string := "Analyzing..."
  const RetrievingStage: string := "Retrieving results..."

  // ---------------------------------------------------------------------------
  // Flattening the exported pages
  // ---------------------------------------------------------------------------

  /** The pages of every document of the export, in map order and, within a
      document, in list order. */
  function AllPages(m: ExportMap): seq<AnnotatedPage> {
    if m == [] then [] else AllPages(m[..|m| - 1]) + m[|m| - 1].1
  }

  lemma {:induction false} AllPagesConcat(a: ExportMap, b: ExportMap)
    ensures AllPages(a + b) == AllPages(a) + AllPages(b)
    decreases |b|
  {
    if b == [] {
      assert a + b == a;
    } else {
      var c := a + b;
      assert c[..|c| - 1] == a + b[..|b| - 1];
      AllPagesConcat(a, b[..|b| - 1]);
    }
  }

  /** The number of pages over all documents of the export. */
  function PageTotal(m: ExportMap): nat {
    if m == [] then 0 else PageTotal(m[..|m| - 1]) + |m[|m| - 1].1|
  }

  lemma {:induction false} AllPagesCount(m: ExportMap)
    ensures |AllPages(m)| == PageTotal(m)
    decreases |m|
  {
    if m != [] {
      AllPagesCount(m[..|m| - 1]);
    }
  }

  /** The metadata sent with an uploaded page. */
  function MetadataOf(p: AnnotatedPage): (md: PageMetadata)
    ensures md.originalPageNumber == p.pageNumber && md.documentId == p.documentId && md.documentName == p.documentName
  {
    PageMetadata(p.pageNumber, p.documentId, p.documentName)
  }

  /** The loop that flattens the export map into the upload's blob list and its
      index-aligned metadata list, counting the pages. */
  method Flatten(documentPages: ExportMap) returns (allBlobs: seq<PageImage>, pageMetadata: seq<PageMetadata>, totalPages: nat)
    ensures totalPages == |AllPages(documentPages)| == PageTotal(documentPages)
    ensures allBlobs == BlobsOf(AllPages(documentPages)) && pageMetadata == MetadataList(AllPages(documentPages))
  {
    allBlobs, pageMetadata, totalPages := [], [], 0;
    var d := 0;
    while d < |documentPages|
      invariant 0 <= d <= |documentPages|
      invariant totalPages == |allBlobs| == |pageMetadata| == |AllPages(documentPages[..d])|
      invariant forall i :: 0 <= i < totalPages ==>
        allBlobs[i] == AllPages(documentPages[..d])[i].blob && pageMetadata[i] == MetadataOf(AllPages(documentPages[..d])[i])
    {
      var pages: seq<AnnotatedPage> := documentPages[d].1;
      ghost var before: seq<AnnotatedPage> := AllPages(documentPages[..d]);
      var j := 0;
      while j < |pages|
        invariant 0 <= j <= |pages|
        invariant totalPages == |allBlobs| == |pageMetadata| == |before| + j
        invariant forall i :: 0 <= i < totalPages ==>
          allBlobs[i] == (before + pages)[i].blob && pageMetadata[i] == MetadataOf((before + pages)[i])
      {
        allBlobs := allBlobs + [pages[j].blob];
        pageMetadata := pageMetadata + [MetadataOf(pages[j])];
        totalPages := totalPages + 1;
        j := j + 1;
      }
      assert documentPages[..d + 1][..d] == documentPages[..d];
      assert AllPages(documentPages[..d + 1]) == before + pages;
      d := d + 1;
    }
    assert documentPages[..d] == documentPages;
    AllPagesCount(documentPages);
    assert allBlobs == BlobsOf(AllPages(documentPages));
    assert pageMetadata == MetadataList(AllPages(documentPages));
  }

  // ---------------------------------------------------------------------------
  // Progress display
  // ---------------------------------------------------------------------------

  /** `Math.round(progress / total * 100)` for a positive total, rounding the
      exact percentage with halves going up, as `Math.round` does. The source
      rounds a double instead, which can fall just below an exact half. */
  function RoundedPercent(progress: int, total: int): (r: int)
    requires total > 0
    ensures 2 * total * r <= 200 * progress + total < 2 * total * (r + 1)
  {
    (200 * progress + total) / (2 * total)
  }

  lemma {:induction false} ScaleMonotone(c: int, a: int, b: int)
    requires c > 0 && a <= b
    ensures c * a <= c * b
    decreases b - a
  {
    if a < b {
      ScaleMonotone(c, a, b - 1);
      assert c * b == c * (b - 1) + c;
    }
  }

  lemma LeDiv(b: real, a: real, t: real)
    requires t > 0.0 && b * t <= a
    ensures b <= a / t
  {
  }

  lemma DivLt(a: real, b: real, t: real)
    requires t > 0.0 && a < b * t
    ensures a / t < b
  {
  }

  /** The rounding is the integer nearest to the exact percentage, halves
      going up. */
  lemma RoundedPercentNearest(progress: int, total: int)
    requires total > 0
    ensures (RoundedPercent(progress, total) as real) - 0.5 <= (100 * progress) as real / total as real
    ensures (100 * progress) as real / total as real < (RoundedPercent(progress, total) as real) + 0.5
  {
    var r := RoundedPercent(progress, total);
    var t := total as real;
    var a := (100 * progress) as real;
    var lo, hi := 2 * total * r, 2 * total * (r + 1);
    assert lo as real == 2.0 * (r as real) * t;
    assert hi as real == 2.0 * ((r + 1) as real) * t;
    assert (200 * progress + total) as real == 2.0 * a + t;
    LeDiv((r as real) - 0.5, a, t);
    DivLt(a, (r as real) + 0.5, t);
  }

  /** Without overshoot the rounded percentage lies in 0..100, is 0 at the
      start and 100 at the end, and does not drop as the progress grows. */
  lemma RoundedPercentRange(progress: int, total: int)
    requires total > 0 && 0 <= progress <= total
    ensures 0 <= RoundedPercent(progress, total) <= 100
    ensures progress == 0 ==> RoundedPercent(progress, total) == 0
    ensures progress == total ==> RoundedPercent(progress, total) == 100
    ensures progress < total ==> RoundedPercent(progress, total) <= RoundedPercent(progress + 1, total)
  {
    var r := RoundedPercent(progress, total);
    ScaleMonotone(2 * total, 0, 1);
    if r < 0 {
      ScaleMonotone(2 * total, r + 1, 0);
    }
    if r > 100 {
      ScaleMonotone(2 * total, 101, r);
    }
    if progress == 0 && r > 0 {
      ScaleMonotone(2 * total, 1, r);
    }
    if progress == total && r < 100 {
      ScaleMonotone(2 * total, r + 1, 100);
    }
    if progress < total {
      var r' := RoundedPercent(progress + 1, total);
      if r' < r {
        ScaleMonotone(2 * total, r' + 1, r);
      }
    }
  }

  /** `x || fallback` for a number: zero and absence give the fallback. */
  function OrElse(x: Option<int>, fallback: int): (r: int)
    ensures x.Some? && x.value != 0 ==> r == x.value
    ensures x.None? || x.value == 0 ==> r == fallback
  {
    if x.Some? && x.value != 0 then x.value else fallback
  }

  /** The progress display for a status received while polling; `pages` is
      the number of pages uploaded. */
  function ProgressFor(status: JobStatus, pages: nat): (p: Progress)
    ensures p.current == OrElse(status.progress, 0)
    ensures p.total == OrElse(status.totalPages, pages)
    ensures status.percentage.Some? && status.percentage.value != 0 ==> p.percentage == status.percentage.value
    ensures (status.percentage.None? || status.percentage.value == 0) && p.total > 0 ==>
      p.percentage == RoundedPercent(p.current, p.total)
    ensures (status.percentage.None? || status.percentage.value == 0) && p.total <= 0 ==> p.percentage == 0
    ensures p.stage == if status.currentStage.Some? && status.currentStage.value != "" then status.currentStage.value else AnalyzingStage
  {
    var progress := OrElse(status.progress, 0);
    var total := OrElse(status.totalPages, pages);
    var percentage := OrElse(status.percentage, if total > 0 then RoundedPercent(progress, total) else 0);
    var stage := if status.currentStage.Some? && status.currentStage.value != "" then status.currentStage.value else AnalyzingStage;
    Progress(progress, total, percentage, stage)
  }

  /** With only a progress count, the display shows the share of uploaded
      pages done, within 0..100. */
  lemma ProgressForCount(status: JobStatus, pages: nat)
    requires status.percentage.None? && status.totalPages.None? && pages > 0
    requires status.progress.Some? && 0 <= status.progress.value <= pages
    ensures 0 <= ProgressFor(status, pages).percentage <= 100
    ensures ProgressFor(status, pages).total == pages
  {
    RoundedPercentRange(OrElse(status.progress, 0), pages);
  }

  /** The message of a job that ended as failed. */
  function FailureMessage(status: JobStatus): (m: string)
    ensures m == ErrorText(status.message, AnalysisFailed)
    ensures m != ""
  {
    if status.message.Some? && status.message.value != "" then status.message.value else AnalysisFailed
  }

  // ---------------------------------------------------------------------------
  // The upload
  // ---------------------------------------------------------------------------

  function BlobsOf(pages: seq<AnnotatedPage>): (bs: seq<PageImage>)
    ensures |bs| == |pages| && forall i :: 0 <= i < |pages| ==> bs[i] == pages[i].blob
  {
    seq(|pages|, i requires 0 <= i < |pages| => pages[i].blob)
  }

  function MetadataList(pages: seq<AnnotatedPage>): (ms: seq<PageMetadata>)
    ensures |ms| == |pages| && forall i :: 0 <= i < |pages| ==> ms[i] == MetadataOf(pages[i])
  {
    seq(|pages|, i requires 0 <= i < |pages| => MetadataOf(pages[i]))
  }

  /** The form uploaded for the flattened pages. */
  function UploadForm(pages: seq<AnnotatedPage>): Form<PageImage> {
    ImageFiles(BlobsOf(pages), Some(MetadataList(pages)))
      + TextOption("name", Some(UploadName)) + TextOption("schema_path", None)
      + [("page_metadata", MetadataJson(MetadataList(pages)))]
  }

  /** The upload holds one PNG per page, in page order, named after its
      document and original page number, followed by the upload's name and
      the metadata list. */
  lemma UploadFormShape(pages: seq<AnnotatedPage>)
    ensures var f := UploadForm(pages);
      && |f| == |pages| + 2
      && (forall i :: 0 <= i < |pages| ==>
            f[i] == ("files", Attachment(File(pages[i].blob,
                      Underscored(pages[i].documentName) + "_page_" + NatToString(pages[i].pageNumber) + ".png",
                      "image/png"))))
      && f[|pages|] == ("name", Text(UploadName))
      && f[|pages| + 1] == ("page_metadata", MetadataJson(MetadataList(pages)))
  {
    var f := UploadForm(pages);
    assert TextOption<PageImage>("name", Some(UploadName)) == [("name", Text(UploadName))];
    assert f == ImageFiles(BlobsOf(pages), Some(MetadataList(pages))) + [("name", Text(UploadName))]
      + [("page_metadata", MetadataJson(MetadataList(pages)))];
  }

  function ProgressList(statuses: seq<JobStatus>, pages: nat): (ps: seq<Progress>)
    ensures |ps| == |statuses| && forall i :: 0 <= i < |statuses| ==> ps[i] == ProgressFor(statuses[i], pages)
  {
    seq(|statuses|, i requires 0 <= i < |statuses| => ProgressFor(statuses[i], pages))
  }

  // ---------------------------------------------------------------------------
  // The page's state machine
  // ---------------------------------------------------------------------------

  class Home {
    var appState: AppState
    var analysisProgress: Option<Progress>
    var results: Option<ExtractionResult>
    var error: Option<string>

    constructor ()
      ensures appState == Annotating && analysisProgress == None && results == None && error == None
    {
      appState := Annotating;
      analysisProgress := None;
      results := None;
      error := None;
    }

    /** Sets the progress display and records it in the log of displays. */
    method ShowProgress(p: Progress, log: seq<Progress>) returns (log': seq<Progress>)
      modifies this
      ensures analysisProgress == Some(p) && log' == log + [p]
      ensures appState == old(appState) && results == old(results) && error == old(error)
    {
      analysisProgress := Some(p);
      log' := log + [p];
    }

    /** The progress callback, called once for each status received. */
    method ReportStatuses(statuses: seq<JobStatus>, pages: nat, log: seq<Progress>) returns (log': seq<Progress>)
      modifies this
      ensures log' == log + ProgressList(statuses, pages)
      ensures statuses != [] ==> analysisProgress == Some(ProgressFor(statuses[|statuses| - 1], pages))
      ensures statuses == [] ==> analysisProgress == old(analysisProgress)
      ensures old(analysisProgress) == Latest(log) ==> analysisProgress == Latest(log')
      ensures appState == old(appState) && results == old(results) && error == old(error)
    {
      log' := log;
      var k := 0;
      while k < |statuses|
        invariant 0 <= k <= |statuses|
        invariant log' == log + ProgressList(statuses[..k], pages)
        invariant k > 0 ==> analysisProgress == Some(ProgressFor(statuses[k - 1], pages))
        invariant k == 0 ==> analysisProgress == old(analysisProgress)
        invariant old(analysisProgress) == Latest(log) ==> analysisProgress == Latest(log')
        invariant appState == old(appState) && results == old(results) && error == old(error)
      {
        log' := ShowProgress(ProgressFor(statuses[k], pages), log');
        assert ProgressList(statuses[..k + 1], pages) == ProgressList(statuses[..k], pages) + [ProgressFor(statuses[k], pages)];
        k := k + 1;
      }
      assert statuses[..k] == statuses;
    }

    /** handleSaveAndAnalyze, called with the export of the annotator. The
        backend is given by its answers: `upload` to the image upload (a job
        id), `server` to the status requests and `fetched` to the results
        request. `sent` is the form uploaded, if any; `run` is the polling run,
        if polling started; `log` lists every progress display in order. */
    method HandleSaveAndAnalyze(documentPages: ExportMap, upload: Response<string>,
                                server: nat -> Response<JobStatus>, fetched: Response<ExtractionResult>)
      returns (sent: Option<Form<PageImage>>, run: Option<PollRun>, log: seq<Progress>)
      modifies this
      // no annotated page: an error, and nothing is sent
      ensures AllPages(documentPages) == [] ==>
        && appState == Error && error == Some(NoPagesMessage)
        && sent == None && run == None && log == []
        && analysisProgress == old(analysisProgress) && results == old(results)
      ensures AllPages(documentPages) != [] ==>
        && sent == Some(UploadForm(AllPages(documentPages)))
        && |log| >= 2
        && log[0] == Progress(0, |AllPages(documentPages)|, 0, PreparingStage)
        && log[1] == Progress(0, |AllPages(documentPages)|, 0, UploadingStage)
        && analysisProgress == Latest(log)
      // the upload fails
      ensures AllPages(documentPages) != [] && upload.HttpError? ==>
        && run == None && |log| == 2
        && appState == Error && error == Some(ErrorText(upload.detail, AnalysisFailed)) && results == old(results)
      // the job is polled and every status received is displayed
      ensures AllPages(documentPages) != [] && upload.Answer? ==>
        && run == Some(PollFrom(server, DefaultMaxAttempts, 0))
        && |log| >= 2 + |run.value.reported|
        && log[2..2 + |run.value.reported|] == ProgressList(run.value.reported, |AllPages(documentPages)|)
      ensures run.Some? && !run.value.outcome.Finished? ==>
        appState == Error && error == PollError(run.value.outcome) && results == old(results)
      ensures run.Some? && run.value.outcome.Finished? && run.value.outcome.status.status == Failed ==>
        appState == Error && error == Some(FailureMessage(run.value.outcome.status)) && results == old(results)
      ensures run.Some? && run.value.outcome.Finished? && run.value.outcome.status.status == Completed && fetched.HttpError? ==>
        appState == Error && error == Some(ErrorText(fetched.detail, ResultsFailed)) && results == old(results)
      // success
      ensures appState == Results <==>
        run.Some? && run.value.outcome.Finished? && run.value.outcome.status.status == Completed && fetched.Answer?
      ensures appState == Results ==>
        && results == Some(fetched.body) && error == None
        && Latest(log) == Some(Progress(|AllPages(documentPages)|, |AllPages(documentPages)|, 100, RetrievingStage))
      ensures appState == Results || appState == Error
    {
      appState := Analyzing;
      error := None;
      sent, run, log := None, None, [];

      var allBlobs, pageMetadata, totalPages := Flatten(documentPages);
      ghost var pages := AllPages(documentPages);
      if totalPages == 0 {
        error := Some(NoPagesMessage);
        appState := Error;
        return;
      }

      var form := AnalyzeImagesForm(allBlobs, Some(UploadName), None, Some(pageMetadata));
      sent := Some(form);
      run, log := UploadAndFollow(upload, server, fetched, totalPages);
    }

    /** The part of handleSaveAndAnalyze from the first progress display on,
        for `pages` pages: show the preparing and uploading steps, upload, and
        follow the job if the upload was accepted. */
    method UploadAndFollow(upload: Response<string>, server: nat -> Response<JobStatus>,
                           fetched: Response<ExtractionResult>, pages: nat)
      returns (run: Option<PollRun>, log: seq<Progress>)
      requires appState == Analyzing && error == None
      modifies this
      ensures |log| >= 2 && log[0] == Progress(0, pages, 0, PreparingStage) && log[1] == Progress(0, pages, 0, UploadingStage)
      ensures analysisProgress == Latest(log)
      ensures upload.HttpError? ==>
        && run == None && |log| == 2
        && appState == Error && error == Some(ErrorText(upload.detail, AnalysisFailed)) && results == old(results)
      ensures upload.Answer? ==>
        && run == Some(PollFrom(server, DefaultMaxAttempts, 0))
        && |log| >= 2 + |run.value.reported|
        && log[2..2 + |run.value.reported|] == ProgressList(run.value.reported, pages)
      ensures run.Some? && !run.value.outcome.Finished? ==>
        appState == Error && error == PollError(run.value.outcome) && results == old(results)
      ensures run.Some? && run.value.outcome.Finished? && run.value.outcome.status.status == Failed ==>
        appState == Error && error == Some(FailureMessage(run.value.outcome.status)) && results == old(results)
      ensures run.Some? && run.value.outcome.Finished? && run.value.outcome.status.status == Completed && fetched.HttpError? ==>
        appState == Error && error == Some(ErrorText(fetched.detail, ResultsFailed)) && results == old(results)
      ensures appState == Results <==>
        run.Some? && run.value.outcome.Finished? && run.value.outcome.status.status == Completed && fetched.Answer?
      ensures appState == Results ==>
        && results == Some(fetched.body) && error == None
        && Latest(log) == Some(Progress(pages, pages, 100, RetrievingStage))
      ensures appState == Results || appState == Error
    {
      log := ShowProgress(Progress(0, pages, 0, PreparingStage), []);
      log := ShowProgress(Progress(0, pages, 0, UploadingStage), log);
      if upload.HttpError? {
        error := Some(ErrorText(upload.detail, AnalysisFailed));
        appState := Error;
        return None, log;
      }
      var polled, log' := FollowJob(server, fetched, pages, log);
      assert log'[0] == log[0] && log'[1] == log[1] by {
        assert log'[..|log|] == log && |log| == 2;
        assert log'[0] == log'[..|log|][0] && log'[1] == log'[..|log|][1];
      }
      run, log := Some(polled), log';
    }

    /** The part of handleSaveAndAnalyze after a successful upload of `pages`
        pages: poll the job, display each status, and end in the results view
        or the error view. */
    method FollowJob(server: nat -> Response<JobStatus>, fetched: Response<ExtractionResult>, pages: nat, log: seq<Progress>)
      returns (run: PollRun, log': seq<Progress>)
      requires analysisProgress == Latest(log)
      requires appState == Analyzing && error == None
      modifies this
      ensures run == PollFrom(server, DefaultMaxAttempts, 0)
      ensures |log'| >= |log| + |run.reported| && log'[..|log|] == log
      ensures log'[|log|..|log| + |run.reported|] == ProgressList(run.reported, pages)
      ensures analysisProgress == Latest(log')
      ensures !run.outcome.Finished? ==>
        appState == Error && error == PollError(run.outcome) && results == old(results)
      ensures run.outcome.Finished? && run.outcome.status.status == Failed ==>
        appState == Error && error == Some(FailureMessage(run.outcome.status)) && results == old(results)
      ensures run.outcome.Finished? && run.outcome.status.status == Completed && fetched.HttpError? ==>
        appState == Error && error == Some(ErrorText(fetched.detail, ResultsFailed)) && results == old(results)
      ensures appState == Results <==> run.outcome.Finished? && run.outcome.status.status == Completed && fetched.Answer?
      ensures appState == Results ==>
        results == Some(fetched.body) && error == None && Latest(log') == Some(Progress(pages, pages, 100, RetrievingStage))
      ensures appState == Results || appState == Error
    {
      run := PollJobStatus(server, DefaultMaxAttempts);
      var reported := ReportStatuses(run.reported, pages, log);
      FinishedIsTerminal(server, DefaultMaxAttempts, 0);
      log' := Conclude(run.outcome, fetched, pages, reported);
      ExtendedLog(log, ProgressList(run.reported, pages), reported, log');
    }

    /** How the page ends once polling has stopped with `outcome`: the error
        view for a timeout, a request error or a failed job; otherwise the
        retrieving step is shown and the results are fetched. */
    method Conclude(outcome: PollOutcome, fetched: Response<ExtractionResult>, pages: nat, log: seq<Progress>)
      returns (log': seq<Progress>)
      requires analysisProgress == Latest(log)
      requires appState == Analyzing && error == None
      requires outcome.Finished? ==> IsTerminal(outcome.status.status)
      modifies this
      ensures |log'| >= |log| && log'[..|log|] == log
      ensures analysisProgress == Latest(log')
      ensures !outcome.Finished? ==>
        appState == Error && error == PollError(outcome) && results == old(results)
      ensures outcome.Finished? && outcome.status.status == Failed ==>
        appState == Error && error == Some(FailureMessage(outcome.status)) && results == old(results)
      ensures outcome.Finished? && outcome.status.status == Completed && fetched.HttpError? ==>
        appState == Error && error == Some(ErrorText(fetched.detail, ResultsFailed)) && results == old(results)
      ensures appState == Results <==> outcome.Finished? && outcome.status.status == Completed && fetched.Answer?
      ensures appState == Results ==>
        results == Some(fetched.body) && error == None && Latest(log') == Some(Progress(pages, pages, 100, RetrievingStage))
      ensures appState == Results || appState == Error
    {
      log' := log;
      match outcome
      case TimedOut =>
        error := Some(JobTimedOut);
        appState := Error;
      case RequestFailed(message) =>
        error := Some(message);
        appState := Error;
      case Finished(status) =>
        if status.status == Failed {
          error := Some(FailureMessage(status));
          appState := Error;
        } else {
          log' := ShowProgress(Progress(pages, pages, 100, RetrievingStage), log');
          assert log'[..|log|] == log;
          if fetched.HttpError? {
            error := Some(ErrorText(fetched.detail, ResultsFailed));
            appState := Error;
          } else {
            results := Some(fetched.body);
            appState := Results;
          }
        }
    }

    /** handleStartOver: back to annotating with no results, error or progress. */
    method HandleStartOver()
      modifies this
      ensures appState == Annotating && results == None && error == None && analysisProgress == None
    {
      appState := Annotating;
      results := None;
      error := None;
      analysisProgress := None;
    }
  }
}
