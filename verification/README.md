# Digital-Ink frontend — a verified model

This project models the client side of a patient-intake and form-annotation
application in Dafny. Clinic staff annotate configured PDF forms page by page
with a pen, an eraser or a selection tool. The annotated pages are flattened
into PNG uploads for an AI extraction backend. The backend's analysis job is
polled, with a progress display. The extraction is turned into a findings
report. Patients fill in a four-step intake wizard whose sections are checked
by validation schemas before they are stored.

The model is split along the application's own files:

- `canvas.dfy` — the drawing surface laid over a page: its brush, free-drawing
  mode, strokes, clearing and JSON snapshots.
- `multi_document_annotator.dfy` — the multi-document annotator. A class holds
  the per-document, per-page state map and the tool settings. Pure functions
  specify loading, page navigation, clearing, the per-page annotation test, the
  export of annotated pages and the page counters.
- `pdf_annotator.dfy` — the single-document annotator. Its per-page surfaces
  are an array, as the component keeps them.
- `extraction.dfy` — the backend client: the multipart forms, upload file
  names, and the polling loop.
- `analysis_flow.dfy` — the home page's state machine: flattening the export,
  uploading, the progress display, polling, and the results or error view.
- `report.dfy` — the structure of the generated findings report: confidence
  colours and labels, field rows, review sections, summary rows.
- `intake_store.dfy` — the intake wizard's store: section merges, step
  navigation and reset.
- `validation.dfy` — the demographics, insurance and medical-history schemas,
  as lists of issues in the order the schema library reports them.
- `demographics_form.dfy` and `medical_history_form.dfy` — the two form steps:
  reading the submitted elements, turning issues into per-field messages, name
  capitalisation, condition toggling, pain-level parsing, and saving into the
  store.
- `document_upload.dfy` — the drop zone's file checks.
- `shared.dfy` — JavaScript notions the rest relies on: `\s` whitespace, UTF-16
  length, `String(n)` for numbers, and an insertion-ordered `Map`.

Network answers, the PDF renderer's outcome, a page's 2D-context availability,
the date check and the e-mail check are parameters of the operations that use
them.

## Model

| member | source | states |
|---|---|---|
| Canvas.ToolBrush | components/pdf/MultiDocumentAnnotator.tsx:199-209 | The tool-settings effect gives the eraser white and width 20, and gives the other tools the chosen colour and width; free drawing is on for every tool except select |
| Canvas.MultiDocumentRenderBrush | components/pdf/MultiDocumentAnnotator.tsx:160-168 | A freshly rendered surface draws freely only with the pen; its brush equals the tool-settings brush exactly when the tool is not the eraser |
| Canvas.SingleDocumentRenderBrush | components/pdf/PDFAnnotator.tsx:105-113 | The single-document renderer ignores the eraser's colour and width and turns free drawing on only for the pen |
| Canvas.Serialize | components/pdf/MultiDocumentAnnotator.tsx:111 | A snapshot loaded back into a new surface restores exactly the objects serialised |
| Canvas.Cleared | components/pdf/MultiDocumentAnnotator.tsx:246-253 | Clearing removes every object and keeps the brush |
| Canvas.Stroked | components/pdf/MultiDocumentAnnotator.tsx:160-164 | A stroke adds one object only while free drawing is on |
| MultiDocumentAnnotator.Ids | components/pdf/MultiDocumentAnnotator.tsx:64-80 | The ids list has the configured documents' ids, in order |
| MultiDocumentAnnotator.DistinctIdsPairwise | components/pdf/MultiDocumentAnnotator.tsx:64-80 | Ids differing from every earlier id is the same as ids being pairwise distinct |
| MultiDocumentAnnotator.LoadAllFailure | components/pdf/MultiDocumentAnnotator.tsx:57-92 | Loading fails, with no state stored, exactly when some document fails to load |
| MultiDocumentAnnotator.LoadAllShape | components/pdf/MultiDocumentAnnotator.tsx:64-80 | After a load every state is well formed, the keys are exactly the configured ids, and every state is page 1 with blank pages |
| MultiDocumentAnnotator.LoadAllOrder | components/pdf/MultiDocumentAnnotator.tsx:64-80 | With distinct ids, the state map's insertion order is the configured order |
| MultiDocumentAnnotator.LoadAllCounts | components/pdf/MultiDocumentAnnotator.tsx:66-78 | With distinct ids, each document's state holds the page count it loaded with, on page 1, with one blank entry per page |
| MultiDocumentAnnotator.Clamp | components/pdf/MultiDocumentAnnotator.tsx:226 | A target page is clamped into 1..pageCount; an in-range page is kept, and a page count of 0 gives 1 |
| MultiDocumentAnnotator.Step | components/pdf/MultiDocumentAnnotator.tsx:212-253 | An action changes only the active document's state; nothing happens when the active document has not loaded |
| MultiDocumentAnnotator.ApplyWellFormed | components/pdf/MultiDocumentAnnotator.tsx:98-253 | Every action keeps a document well formed and keeps its page count |
| MultiDocumentAnnotator.StepValid | components/pdf/MultiDocumentAnnotator.tsx:98-253 | Every action keeps every state well formed and keeps the map's keys and their order |
| MultiDocumentAnnotator.GoToPageEffect | components/pdf/MultiDocumentAnnotator.tsx:212-243 | goToPage saves the left page's surface into its snapshot, clamps the new page and changes no other page |
| MultiDocumentAnnotator.ClearEffect | components/pdf/MultiDocumentAnnotator.tsx:246-253 | Clear leaves the current page without annotations, keeps its stored snapshot, touches no other page, and does nothing without a live surface |
| MultiDocumentAnnotator.SelectPagesExact | components/pdf/MultiDocumentAnnotator.tsx:298-366 | A document exports exactly its annotated pages whose 2D context exists, in ascending page order, tagged with its id and name |
| MultiDocumentAnnotator.ApplyKeepsExport | components/pdf/MultiDocumentAnnotator.tsx:212-243 | Saving, navigating, rendering and re-applying the brush do not change which pages carry ink or what is composited on them |
| MultiDocumentAnnotator.StepKeepsExport | components/pdf/MultiDocumentAnnotator.tsx:278-292 | Flushing the current surface before the export does not change the export |
| MultiDocumentAnnotator.ExportKeys | components/pdf/MultiDocumentAnnotator.tsx:296-370 | A document is a key of the export exactly when it is configured, has loaded and exports at least one page |
| MultiDocumentAnnotator.ExportingDocs | components/pdf/MultiDocumentAnnotator.tsx:298-370 | The exporting documents are exactly the configured documents that export something |
| MultiDocumentAnnotator.ExportValues | components/pdf/MultiDocumentAnnotator.tsx:304-370 | With distinct ids, each document's export entry is exactly its selected pages, present only when non-empty |
| MultiDocumentAnnotator.ExportAbsent | components/pdf/MultiDocumentAnnotator.tsx:296-300 | An id that is not configured is never exported |
| MultiDocumentAnnotator.ExportOrder | components/pdf/MultiDocumentAnnotator.tsx:298-370 | With distinct ids, the export's insertion order is the configured order of the exporting documents |
| MultiDocumentAnnotator.DrawnPageSurvivesNavigation | components/pdf/MultiDocumentAnnotator.tsx:212-370 | A stroke drawn on a page, followed by navigating away and rendering, is still exported with the stroke composited |
| MultiDocumentAnnotator.StrokedPageSelected | components/pdf/MultiDocumentAnnotator.tsx:256-366 | The page a stroke lands on is among its document's exported pages, with the stroke counted |
| MultiDocumentAnnotator.ClearedPageNotExported | components/pdf/MultiDocumentAnnotator.tsx:246-275 | After Clear the current page is not exported, and the other exported pages still are |
| MultiDocumentAnnotator.FindIndex | components/pdf/MultiDocumentAnnotator.tsx:379 | findIndex is -1 exactly for an id that is not configured; otherwise it gives the first document with that id |
| MultiDocumentAnnotator.TotalPagesByDocuments | components/pdf/MultiDocumentAnnotator.tsx:377 | When the loaded documents are the configured ones in order, totalPages is the sum of their page counts |
| MultiDocumentAnnotator.GlobalPageBounds | components/pdf/MultiDocumentAnnotator.tsx:377-380 | The overall page is the earlier documents' pages plus the current page, between 1 and totalPages |
| MultiDocumentAnnotator.UnknownActiveSumsAllButLast | components/pdf/MultiDocumentAnnotator.tsx:378-380 | An active id that is not configured makes slice(0, -1) count every document but the last |
| MultiDocumentAnnotator.StepKeepsTotal | components/pdf/MultiDocumentAnnotator.tsx:377 | No action changes totalPages |
| MultiDocumentAnnotator.Annotator.constructor | components/pdf/MultiDocumentAnnotator.tsx:46-54 | The first document is active, no states are loaded yet, and the pen is black with width 2 |
| MultiDocumentAnnotator.LoadStates | components/pdf/MultiDocumentAnnotator.tsx:65-80 | The load loop yields exactly the specified load: a fresh state per document in configured order, or nothing at the first failure |
| MultiDocumentAnnotator.Annotator.Load | components/pdf/MultiDocumentAnnotator.tsx:57-92 | A successful load stores the fresh states; a failure stores nothing and shows "Failed to load documents"; loading ends either way |
| MultiDocumentAnnotator.Annotator.SetActiveDocument | components/pdf/MultiDocumentAnnotator.tsx:522 | Choosing a tab makes it active and applies the tool settings to its current surface |
| MultiDocumentAnnotator.Annotator.SetTool | components/pdf/MultiDocumentAnnotator.tsx:199-209 | A new tool is applied to the current surface's brush |
| MultiDocumentAnnotator.Annotator.SetBrushColor | components/pdf/MultiDocumentAnnotator.tsx:199-209 | A new colour is applied to the current surface's brush |
| MultiDocumentAnnotator.Annotator.SetBrushWidth | components/pdf/MultiDocumentAnnotator.tsx:199-209 | A new width is applied to the current surface's brush |
| MultiDocumentAnnotator.MoveTo | components/pdf/MultiDocumentAnnotator.tsx:215-243 | goToPage's update of one document is exactly the GoTo step: the left page's surface saved into its snapshot, the target page clamped |
| MultiDocumentAnnotator.Annotator.GoToPage | components/pdf/MultiDocumentAnnotator.tsx:212-243 | goToPage is the GoTo step on the active document, and bumps renderKey when that document has loaded |
| MultiDocumentAnnotator.Annotator.RenderCurrentPage | components/pdf/MultiDocumentAnnotator.tsx:98-197 | The page renderer is the Render step on the active document. Before the document loads, or without a container, the display is kept; a failed run leaves the emptied container showing nothing; a painted page is the one shown |
| MultiDocumentAnnotator.Annotator.ClearPage | components/pdf/MultiDocumentAnnotator.tsx:246-253 | handleClear is the Clear step on the active document |
| MultiDocumentAnnotator.Annotator.Draw | components/pdf/MultiDocumentAnnotator.tsx:120-164 | A stroke lands on the page whose surface the container shows, and with nothing shown (after a failed render) nothing changes |
| MultiDocumentAnnotator.StrokeAfterFailedRender | components/pdf/MultiDocumentAnnotator.tsx:120-143 | Draw on page 1, go to page 2 and back, and let page 1's render fail: a further stroke leaves the export as it was, page 1 with the first stroke only |
| MultiDocumentAnnotator.CollectDocument | components/pdf/MultiDocumentAnnotator.tsx:298-370 | One turn of the document loop goes on exactly when the document has not loaded or none of its fetched pages rejects, and then adds its selected pages under its id if there are any |
| MultiDocumentAnnotator.CollectExport | components/pdf/MultiDocumentAnnotator.tsx:296-371 | The loop finishes exactly when no annotated page of a loaded document rejects, and then builds exactly the export specification: each loaded document with an exported page, keyed by id |
| MultiDocumentAnnotator.CollectPages | components/pdf/MultiDocumentAnnotator.tsx:302-366 | The page loop finishes exactly when none of the annotated pages it fetches rejects, and then holds exactly the document's selected pages, in page order |
| MultiDocumentAnnotator.Annotator.SaveAndAnalyze | components/pdf/MultiDocumentAnnotator.tsx:278-373 | The current surface is flushed either way; the callback is invoked exactly when no fetched page rejects, and the export it gets is the export specification of the flushed states, which equals that of the states before the flush |
| PdfAnnotator.ExportAllExact | components/pdf/PDFAnnotator.tsx:136-187 | The export holds exactly one image per page whose context exists, in page order, each with its surface's objects |
| PdfAnnotator.ExportAllEveryPage | components/pdf/PDFAnnotator.tsx:141-184 | With every context available, image i is page i+1 with its surface's objects, drawn on or not |
| PdfAnnotator.WithToolBrush | components/pdf/PDFAnnotator.tsx:126-133 | The tool settings change only the current page's surface, and only its brush |
| PdfAnnotator.PrevPage | components/pdf/PDFAnnotator.tsx:331 | The previous button never goes below page 1 |
| PdfAnnotator.NextPage | components/pdf/PDFAnnotator.tsx:343 | The next button never goes past the page count |
| PdfAnnotator.NavigationInRange | components/pdf/PDFAnnotator.tsx:331-343 | From a page in range, both buttons stay in range and move at most one page |
| PdfAnnotator.SingleDocumentAnnotator.constructor | components/pdf/PDFAnnotator.tsx:15-23 | No PDF, page 1, nothing rendered, loading, a black pen of width 2 |
| PdfAnnotator.SingleDocumentAnnotator.Load | components/pdf/PDFAnnotator.tsx:26-51 | A loaded PDF sets the page count and an empty surface slot per page; a failure shows "Failed to load PDF" |
| PdfAnnotator.SingleDocumentAnnotator.Render | components/pdf/PDFAnnotator.tsx:54-123 | A page already rendered, or one pdf.js cannot produce, changes nothing, and the container keeps showing what it showed; a container emptied without a canvas shows nothing; a painted page gets a surface with the render brush, is recorded as rendered and is the one shown |
| PdfAnnotator.SingleDocumentAnnotator.ApplyToolSettings | components/pdf/PDFAnnotator.tsx:126-133 | The current surface's brush takes the tool settings |
| PdfAnnotator.SingleDocumentAnnotator.SetTool | components/pdf/PDFAnnotator.tsx:238-256 | A tool button applies the tool to the current surface |
| PdfAnnotator.SingleDocumentAnnotator.SetBrushColor | components/pdf/PDFAnnotator.tsx:126-133 | A new colour is applied to the current surface |
| PdfAnnotator.SingleDocumentAnnotator.SetBrushWidth | components/pdf/PDFAnnotator.tsx:126-133 | A new width is applied to the current surface |
| PdfAnnotator.SingleDocumentAnnotator.Prev | components/pdf/PDFAnnotator.tsx:331 | Moves to the previous page, and the settings apply to that page's surface |
| PdfAnnotator.SingleDocumentAnnotator.Next | components/pdf/PDFAnnotator.tsx:343 | Moves to the next page, and the settings apply to that page's surface |
| PdfAnnotator.SingleDocumentAnnotator.ClearPage | components/pdf/PDFAnnotator.tsx:190-195 | The current page's surface is emptied, and nothing else changes |
| PdfAnnotator.SingleDocumentAnnotator.Draw | components/pdf/PDFAnnotator.tsx:99-113 | A stroke lands only on the surface the single page container shows, which is the page rendered last and not always the current page, and only while free drawing is on |
| PdfAnnotator.SingleDocumentAnnotator.SaveAndAnalyze | components/pdf/PDFAnnotator.tsx:136-187 | The callback is invoked exactly when a PDF is loaded and no page's fetch or render rejects, and then the blobs are the export of every page; otherwise nothing is handed on |
| PdfAnnotator.StrokeAfterReturning | components/pdf/PDFAnnotator.tsx:54-119 | Render page 1, go to page 2, come back to page 1 and draw: the current page is 1, yet the export shows the stroke on page 2's image and page 1's stays blank |
| Extraction.ErrorText | lib/api/extraction.ts:154-157 | An error's detail is used when present and non-empty, otherwise the fallback message |
| Extraction.TextOption | lib/api/extraction.ts:136-141 | A text option is appended exactly when it is a non-empty string |
| Extraction.PageOption | lib/api/extraction.ts:142-147 | A page option is appended exactly when it is present and non-zero |
| Extraction.AnalyzeFormOptions | lib/api/extraction.ts:133-147 | analyzeDocument's form starts with the file and holds each option exactly when it is truthy |
| Extraction.CollapseRuns | lib/api/extraction.ts:186 | The replaced name holds no whitespace and is no longer than the original |
| Extraction.UnderscoredRun | lib/api/extraction.ts:186 | A whole run of whitespace between two parts becomes a single underscore |
| Extraction.UnderscoredIdempotent | lib/api/extraction.ts:186 | Replacing whitespace twice is the same as replacing it once |
| Extraction.ImageFilename | lib/api/extraction.ts:184-187 | The name comes from the document name and original page number when metadata exists at that index, else from the position |
| Extraction.PositionalNamesDistinct | lib/api/extraction.ts:187 | Positional image names are pairwise distinct |
| Extraction.PageNamesDistinct | lib/api/extraction.ts:186 | Pages of the same document with different page numbers get different names |
| Extraction.ImageFiles | lib/api/extraction.ts:183-190 | There is one PNG file per blob, in blob order, with its computed name |
| Extraction.AnalyzeImagesForm | lib/api/extraction.ts:180-201 | The form is the files, then the non-empty name and schema path, then the metadata whenever it is given |
| Extraction.PdfFilename | lib/api/extraction.ts:227 | A saved PDF's name contains no whitespace |
| Extraction.SaveAnnotatedPdfsForm | lib/api/extraction.ts:224-234 | There is one PDF per document, in order, followed by the job id when it is non-empty |
| Extraction.PollError | lib/api/extraction.ts:252-290 | Polling throws exactly when it does not finish; a timeout throws "Job timed out" |
| Extraction.PollFromSpec | lib/api/extraction.ts:266-290 | Polling issues at most the allowed requests, reports each status once and in order, stops at the first terminal status or error, and times out exactly when every answer is pending |
| Extraction.NoAttempts | lib/api/extraction.ts:274 | With no attempts allowed, polling times out without a request |
| Extraction.PollJobStatus | lib/api/extraction.ts:266-290 | The polling loop computes the polling specification |
| AnalysisFlow.MetadataOf | app/page.tsx:66-72 | Each page's metadata carries its original page number, document id and name |
| AnalysisFlow.Flatten | app/page.tsx:62-76 | The flattened blobs and metadata are index-aligned with the export's pages, in order, and the count is their number |
| AnalysisFlow.RoundedPercent | app/page.tsx:100 | The rounded percentage brackets the exact progress/total*100 with halves rounded up (the page rounds a double; see "## Left out") |
| AnalysisFlow.RoundedPercentNearest | app/page.tsx:100 | The rounding is the nearest integer to the exact percentage, not to the page's double (see "## Left out") |
| AnalysisFlow.RoundedPercentRange | app/page.tsx:100 | Without overshoot the percentage lies in 0..100, is 0 at the start and 100 at the end, and never drops |
| AnalysisFlow.OrElse | app/page.tsx:98-99 | A zero or absent number gives the fallback |
| AnalysisFlow.ProgressFor | app/page.tsx:97-108 | The progress shown for a status, falling back to the uploaded page count and the computed percentage |
| AnalysisFlow.ProgressForCount | app/page.tsx:98-100 | With only a progress count, the shown percentage is within 0..100 of the uploaded pages |
| AnalysisFlow.FailureMessage | app/page.tsx:112-115 | A failed job shows its message, or "Analysis failed", never an empty text |
| AnalysisFlow.BlobsOf | app/page.tsx:62-76 | The blobs of the pages, in order |
| AnalysisFlow.MetadataList | app/page.tsx:62-76 | The metadata of the pages, in order |
| AnalysisFlow.UploadFormShape | app/page.tsx:91-96 | The upload is one PNG per page, named after its document and page, then the fixed name and the metadata |
| AnalysisFlow.ProgressList | app/page.tsx:97-108 | One progress display per reported status, in order |
| AnalysisFlow.Home.constructor | app/page.tsx:44-52 | Starts annotating, with no progress, results or error |
| AnalysisFlow.Home.ShowProgress | app/page.tsx:85-88 | Sets and logs one progress display |
| AnalysisFlow.Home.ReportStatuses | app/page.tsx:97-108 | The progress callback shows each status in order; the last status is shown |
| AnalysisFlow.Home.HandleSaveAndAnalyze | app/page.tsx:56-127 | No pages: an error and no upload. Otherwise the flattened upload is sent, progress is shown, and the page ends in results exactly when the job completes and its results arrive, with each failure's message otherwise |
| AnalysisFlow.Home.UploadAndFollow | app/page.tsx:85-127 | Shows the preparing and uploading steps; a refused upload ends in the error view with its message, an accepted one polls the job and ends in the results view exactly when the job completes and its results arrive |
| AnalysisFlow.Home.FollowJob | app/page.tsx:110-126 | Polls, shows every status, and ends in the error view for a timeout, a request error, a failed job or a results error, else in the results view |
| AnalysisFlow.Home.Conclude | app/page.tsx:112-126 | Once polling stops: a timeout, a request error or a failed job ends in the error view with its message; a completed job shows the retrieving step and ends in the results view exactly when the results arrive |
| AnalysisFlow.Home.HandleStartOver | app/page.tsx:163-168 | Back to annotating, with no results, error or progress |
| Report.ConfidenceColor | app/api/generate-report/route.ts:73-77 | Green from 0.85, yellow from 0.7, red below, each as an if-and-only-if |
| Report.ConfidenceLabel | app/api/generate-report/route.ts:80-84 | High, Medium and Low on the same thresholds, each as an if-and-only-if |
| Report.LabelAgreesWithColor | app/api/generate-report/route.ts:73-84 | Label and colour name the same bucket, and the bucket is monotone in the confidence |
| Report.ReviewCountColor | app/api/generate-report/route.ts:424 | The review count is yellow exactly when positive, else green |
| Report.OrNotDetected | app/api/generate-report/route.ts:246 | A missing or empty patient detail shows "Not detected", never an empty text |
| Report.FormatValue | app/api/generate-report/route.ts:474-482 | Non-empty circled options come first, then the checkbox as YES/NO, then the value or "(empty)" |
| Report.FormatValuePriority | app/api/generate-report/route.ts:474-482 | A single circled option wins over everything; an empty option list falls through to the checkbox |
| Report.FieldRows | app/api/generate-report/route.ts:452-566 | One row per field in entry order, with its id, shown value, label and colour |
| Report.PageFields | app/api/generate-report/route.ts:452-566 | A page section is a heading, then either the no-fields note or the field table |
| Report.TotalFieldsAreListed | app/api/generate-report/route.ts:395-396 | "Total Fields Extracted" equals the number of field rows the report lists |
| Report.ReviewSection | app/api/generate-report/route.ts:569-592 | The review section is present exactly when there are reasons, with one numbered item per reason in order |
| Report.PageReviewItems | app/api/generate-report/route.ts:667-690 | A page's review part is present exactly when it has reasons, with one bullet per reason in order |
| Report.PageReviewCountColor | app/api/generate-report/route.ts:627 | A page's review count is yellow exactly when positive, else grey |
| Report.PatientDetails | app/api/generate-report/route.ts:246-288 | Three detail rows, none of them empty |
| Report.Statistics | app/api/generate-report/route.ts:364-424 | Three rows under their labels: "Total Pages Analyzed" with the page count, "Total Fields Extracted" with the field total, and "Items Requiring Review" with the review count, coloured yellow when positive and green otherwise |
| IntakeStore.Merge | hooks/useIntakeForm.ts:99-113 | A patch's keys take its values, other keys keep theirs, and no key is lost or invented |
| IntakeStore.MergeIdempotent | hooks/useIntakeForm.ts:99-113 | Merging a patch twice is merging it once; an empty patch changes nothing |
| IntakeStore.MergeSequence | hooks/useIntakeForm.ts:99-113 | Two merges in a row are one merge of the second patch over the first |
| IntakeStore.NextStepOf | hooks/useIntakeForm.ts:116-119 | The next step is one more, capped at 4 |
| IntakeStore.PrevStepOf | hooks/useIntakeForm.ts:121-124 | The previous step is one less, floored at 1 |
| IntakeStore.StepNavigation | hooks/useIntakeForm.ts:116-124 | Steps stay within 1..4, and next and previous undo each other strictly inside the range |
| IntakeStore.OutOfRangeSteps | hooks/useIntakeForm.ts:116-126 | A step set out of range comes back only from one side |
| IntakeStore.IntakeForm.constructor | hooks/useIntakeForm.ts:36-87 | The store starts in its initial state |
| IntakeStore.IntakeForm.SetDemographics | hooks/useIntakeForm.ts:99-103 | Merges into demographics only |
| IntakeStore.IntakeForm.SetInsurance | hooks/useIntakeForm.ts:104-108 | Merges into insurance only |
| IntakeStore.IntakeForm.SetMedicalHistory | hooks/useIntakeForm.ts:109-113 | Merges into the medical history only |
| IntakeStore.IntakeForm.SetSignature | hooks/useIntakeForm.ts:114 | Sets the signature only |
| IntakeStore.IntakeForm.NextStep | hooks/useIntakeForm.ts:116-119 | Advances the step, keeping it in range |
| IntakeStore.IntakeForm.PrevStep | hooks/useIntakeForm.ts:121-124 | Goes back a step, keeping it in range |
| IntakeStore.IntakeForm.SetStep | hooks/useIntakeForm.ts:126 | Stores the step as given, without clamping |
| IntakeStore.IntakeForm.SetSessionId | hooks/useIntakeForm.ts:139 | Sets the session id only |
| IntakeStore.IntakeForm.SetPatientId | hooks/useIntakeForm.ts:140 | Sets the patient id only |
| IntakeStore.IntakeForm.Reset | hooks/useIntakeForm.ts:128-137 | Restores the initial state from any state |
| Validation.AsciiLength | lib/validation.ts:9-18 | Text of pattern characters is as long in UTF-16 as in characters |
| Validation.ZipPatternImpliesLength | lib/validation.ts:106-109 | A text that matches the ZIP pattern passes the ZIP length rule |
| Validation.MinLength | lib/validation.ts:42 | A minimum-length rule fails exactly when the text is too short, with one issue on the field |
| Validation.MaxLength | lib/validation.ts:43 | A maximum-length rule fails exactly when the text is too long, with one issue on the field |
| Validation.Rule | lib/validation.ts:44 | A pattern or refinement rule fails exactly when it does not hold, with one issue on the field |
| Validation.OrEmpty | lib/validation.ts:56-57 | An optional-or-empty field accepts the empty text and otherwise its rules |
| Validation.NameLength | lib/validation.ts:18 | A text matching the name pattern has its UTF-16 length equal to its character count |
| Validation.PhoneLength | lib/validation.ts:9 | A text matching the phone pattern has its UTF-16 length equal to its character count |
| Validation.RequiredName | lib/validation.ts:40-50 | A required name is accepted exactly when it has 1 to 100 name characters |
| Validation.OptionalName | lib/validation.ts:52-57 | The middle name is accepted exactly when it is empty or has at most 100 name characters |
| Validation.RequiredPhone | lib/validation.ts:80-83 | A phone is accepted exactly when it has at least 10 phone characters |
| Validation.PhoneLengthCountsPunctuation | lib/validation.ts:82 | "(555) 12-3" passes although it has only six digits |
| Validation.Bounded | lib/validation.ts:91-94 | A bounded text is accepted exactly when its length is within the bounds |
| Validation.OptionalMax | lib/validation.ts:139-143 | An optional text with a maximum is accepted exactly when it is empty or short enough |
| Validation.RequiredDate | lib/validation.ts:59-64 | A date is accepted exactly when it is non-empty and passes the date check |
| Validation.GenderIssues | lib/validation.ts:66 | The gender is accepted exactly when it is absent or one of the four options |
| Validation.NameIssues | lib/validation.ts:40-57 | The three name fields pass exactly when each of their rules holds |
| Validation.PersonIssues | lib/validation.ts:59-78 | Birth date, gender, SSN and e-mail pass exactly when each of their rules holds |
| Validation.PhoneIssues | lib/validation.ts:80-89 | The primary and secondary phone fields pass exactly when each of their rules holds |
| Validation.ZipIssues | lib/validation.ts:106-109 | The ZIP field passes exactly when it matches the ZIP pattern |
| Validation.AddressIssues | lib/validation.ts:91-109 | The address fields pass exactly when each of their rules holds |
| Validation.EmergencyContactIssues | lib/validation.ts:111-124 | The emergency contact fields pass exactly when each of their rules holds |
| Validation.DemographicsAccepted | lib/validation.ts:39-125 | The demographics schema accepts exactly the data meeting every field rule |
| Validation.InsuranceRefinement | lib/validation.ts:173-184 | Without insurance the cross-field rule holds; otherwise it needs a truthy carrier and subscriber, and its issue is filed under carrierName |
| Validation.InsuranceRules | lib/validation.ts:130-184 | No insurance silences the cross-field rule; an empty carrier name still fails its own rule; with insurance, a missing carrier or subscriber gives the cross-field issue last |
| Validation.PainLevelIssues | lib/validation.ts:208-211 | The pain level is accepted exactly when it is in 0..10 |
| Validation.SymptomIssues | lib/validation.ts:190-211 | The complaint, onset date, description and pain level pass exactly when each of their rules holds |
| Validation.HistoryIssues | lib/validation.ts:213-237 | The history fields pass exactly when each of their length rules holds |
| Validation.InjuryIssues | lib/validation.ts:239-272 | The injury and employment fields pass exactly when each of their rules holds |
| Validation.AttorneyIssues | lib/validation.ts:274-296 | The attorney fields pass exactly when each of their rules holds |
| Validation.MedicalHistoryAccepted | lib/validation.ts:189-297 | The medical-history schema accepts exactly the data meeting every field rule |
| DemographicsForm.ErrorsFrom | components/forms/DemographicsForm.tsx:113-122 | The fields with messages are exactly the fields of the issues |
| DemographicsForm.LastIssueWins | components/forms/DemographicsForm.tsx:116-120 | Each field shows the message of its last issue |
| DemographicsForm.ErrorsOnlyForIssues | components/forms/DemographicsForm.tsx:113-122 | No issues give no errors; a field has a message exactly when it has an issue |
| DemographicsForm.CollectFieldErrors | components/forms/DemographicsForm.tsx:114-121 | The forEach loop builds the error map of the issues |
| DemographicsForm.LowerAll | components/forms/DemographicsForm.tsx:131 | Lower-casing keeps the length |
| DemographicsForm.Split | components/forms/DemographicsForm.tsx:130 | Splitting gives at least one piece |
| DemographicsForm.JoinSplit | components/forms/DemographicsForm.tsx:130-132 | Joining the split pieces gives back the text |
| DemographicsForm.CapitalizeAll | components/forms/DemographicsForm.tsx:131 | Every word is capitalised, and the word count is kept |
| DemographicsForm.CapitalizeFrom | components/forms/DemographicsForm.tsx:129-132 | The character-wise rule keeps the length |
| DemographicsForm.RecasedIsCharacterwise | components/forms/DemographicsForm.tsx:129-132 | Split, recase and join equal the character-wise rule |
| DemographicsForm.CapitalizeCharacterwise | components/forms/DemographicsForm.tsx:127-134 | The handler upper-cases exactly the first character and each one after a space, and lower-cases the rest |
| DemographicsForm.CharacterwiseShape | components/forms/DemographicsForm.tsx:129-132 | The character-wise rule keeps spaces in place and is idempotent |
| DemographicsForm.CapitalizeProperties | components/forms/DemographicsForm.tsx:127-134 | Capitalising keeps the length and the spaces, and a second run changes nothing |
| DemographicsForm.Submitted | components/forms/DemographicsForm.tsx:89-106 | Each field is its element's text or ""; gender is undefined exactly when its text is empty |
| DemographicsForm.AsSection | components/forms/DemographicsForm.tsx:110 | The saved section has every demographics key, and an unselected gender is stored as undefined |
| DemographicsForm.SavedReplacesAll | components/forms/DemographicsForm.tsx:110 | Saving over a section with only demographics keys gives exactly the submitted data |
| DemographicsForm.Form.constructor | components/forms/DemographicsForm.tsx:82-84 | No errors are shown at first |
| DemographicsForm.Form.HandleSubmit | components/forms/DemographicsForm.tsx:86-124 | Advances exactly when the schema accepts; then it saves and clears the errors; otherwise it shows each field's last message and leaves the store alone |
| MedicalHistoryForm.Without | components/forms/MedicalHistoryForm.tsx:78 | The filtered list lacks the condition and is no longer |
| MedicalHistoryForm.WithoutKeepsOthers | components/forms/MedicalHistoryForm.tsx:78 | Filtering keeps every other condition as often as before, and an absent condition changes nothing |
| MedicalHistoryForm.Toggle | components/forms/MedicalHistoryForm.tsx:75-81 | After toggling, the condition is selected exactly when it was not |
| MedicalHistoryForm.ToggleProperties | components/forms/MedicalHistoryForm.tsx:75-81 | An unselected condition is appended; a selected one is filtered out; other conditions keep their counts; toggling twice restores |
| MedicalHistoryForm.InitialConditions | components/forms/MedicalHistoryForm.tsx:28-30 | The stored conditions are shown at first, or none |
| MedicalHistoryForm.PainLevelOf | components/forms/MedicalHistoryForm.tsx:39 | A missing or empty pain level reads as 0 |
| MedicalHistoryForm.SliderRoundTrip | components/forms/MedicalHistoryForm.tsx:39 | Every level the slider writes is read back unchanged |
| MedicalHistoryForm.Submitted | components/forms/MedicalHistoryForm.tsx:35-55 | The submitted conditions are the current selection, and the pain level is the parsed slider text |
| MedicalHistoryForm.AsSection | components/forms/MedicalHistoryForm.tsx:59 | The saved section has every medical-history key, with the pain level and conditions |
| MedicalHistoryForm.SavedSelectionReturns | components/forms/MedicalHistoryForm.tsx:28-30 | A saved selection is shown again when the step is reopened |
| MedicalHistoryForm.Form.constructor | components/forms/MedicalHistoryForm.tsx:25-30 | No errors, and the stored selection |
| MedicalHistoryForm.Form.ToggleCondition | components/forms/MedicalHistoryForm.tsx:75-81 | The selection is toggled and nothing else changes |
| MedicalHistoryForm.Form.HandleSubmit | components/forms/MedicalHistoryForm.tsx:32-73 | Advances exactly when the schema accepts; then it saves and clears the errors; otherwise it shows each field's last message and leaves the store alone |
| DocumentUpload.FileError | components/document/DocumentUpload.tsx:19-36 | A file is rejected exactly when its type is not allowed or it is over the limit; the type is checked first |
| DocumentUpload.DefaultLimit | components/document/DocumentUpload.tsx:14-32 | With the default 50 MB, 52428800 bytes pass and one byte more gives "File size must be less than 50MB" |
| DocumentUpload.DropZone.constructor | components/document/DocumentUpload.tsx:11-17 | Not dragging, no error |
| DocumentUpload.DropZone.ValidateFile | components/document/DocumentUpload.tsx:19-36 | The shown error becomes the file's error, and the result is true exactly when there is none |
| DocumentUpload.DropZone.HandleFile | components/document/DocumentUpload.tsx:39-43 | The file is handed on exactly when it is accepted |
| DocumentUpload.DropZone.HandleDrop | components/document/DocumentUpload.tsx:45-53 | A drop ends the drag and handles the first file; an empty drop changes nothing else |
| DocumentUpload.DropZone.HandleDragOver | components/document/DocumentUpload.tsx:55-58 | Dragging starts, and the error is kept |
| DocumentUpload.DropZone.HandleDragLeave | components/document/DocumentUpload.tsx:60-63 | Dragging ends, and the error is kept |
| DocumentUpload.DropZone.HandleInputChange | components/document/DocumentUpload.tsx:65-70 | Browsing handles the first chosen file, if any |
| Shared.Utf16Length | lib/validation.ts:42 | A string's JavaScript length is between its character count and twice it, and equals the count below U+10000 |
| Shared.NatToStringRoundTrip | components/document/DocumentUpload.tsx:32 | Reading back a number's decimal text gives the number |
| Shared.Put | components/pdf/MultiDocumentAnnotator.tsx:369 | After Map.set the key holds the new value |
| Shared.PutKeys | components/pdf/MultiDocumentAnnotator.tsx:369 | Map.set keeps an existing key's position and appends a new key last |

## Left out

- The PDF renderer, the drawing library and the browser canvas are not modelled. A surface is reduced to its object count and brush. A page image is reduced to its document, page number and composited object count.
- Effect scheduling and asynchronous interleaving are left out. Each React effect and handler runs to completion as one method call. Stale closures are not modelled; for example, the drop handler's callback has an empty dependency list and would capture the first size limit.
- Per-document load isolation is left out. A single failing document fails the whole multi-document load, as the shared try block does. Rendering errors are an outcome parameter, and so are the pages whose fetch or render rejects during an export.
- HTTP requests are parameters. The pause between polls, `getResults`' request itself and the other fetch wrappers are not modelled.
- Report downloading (`handleDownloadReport`) is not modelled.
- The report's DOCX styling and layout constants are left out. Percentages from `toFixed` and locale-formatted dates are also left out. So are the annotation-group and free-form annotation sections; only the blocks listed under "## Model" are modelled.
- Confidences are exact reals, not IEEE doubles.
- AnalysisFlow.RoundedPercent: rounds the exact percentage, halves up, not the double `progress / total * 100` that app/page.tsx:100 hands to `Math.round`. Where the exact value is a half the double can land just below it, and the model's result is then 1 higher: for 23 of 40 the page shows 57 and the model gives 58 (likewise 29, 57 and 113 of 200).
- AnalysisFlow.RoundedPercentNearest: the bracket it proves is around the exact percentage, not around the double computed at app/page.tsx:100, so at exact halves it can differ from the page's value by 1 as described for RoundedPercent.
- The date check (`validateDate`) reads the clock, and the e-mail check is the schema library's own pattern. Both are boolean parameters.
- Case mapping in name capitalisation is ASCII-only. Unicode case mapping is not modelled.
- PainLevelOf: parses only optionally signed decimal numerals. Other `Number()` syntaxes (hex, exponents, surrounding whitespace, fractions) read as 0 instead of their numeric value. The slider only writes integers.
- Issues without a path are not modelled. Every rule in these schemas, the refinement included, files its issue under a field.
- Required fields are always strings in the model. The forms always submit strings, so the schema library's "required" errors for `undefined` values cannot arise there.
- The insurance form component is not part of this model; only its schema is.
- Draft persistence of the store to browser storage is left out.
- Shared.Put: only the entry order and values are stated, not the identity of the JavaScript Map object.
