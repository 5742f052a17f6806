/** The multi-document annotator: per-document, per-page drawing state, page
    navigation with save-on-leave, and the export that hands over only the
    annotated pages, grouped by document. */
module MultiDocumentAnnotator {
  import opened Shared
  import opened Canvas

  /** A configured source document. */
  datatype DocumentConfig = DocumentConfig(id: string, name: string, pdfUrl: string)

  datatype Viewport = Viewport(width: int, height: int)

  /** One page: the live surface (if the page has been drawn on screen), the
      last stored snapshot, and the rendered size. */
  datatype PageData = PageData(fabricCanvas: Option<Surface>, canvasJson: Snapshot, viewport: Option<Viewport>)

  /** One loaded document: its page count, the 1-based current page, and one
      PageData per page. */
  datatype DocumentState = DocumentState(pageCount: nat, currentPage: int, pageData: seq<PageData>)

  /** The PNG the export produces for a page: the rendered page of that
      document with `overlayObjects` drawn objects composited on top. */
  datatype PageImage = PageImage(documentId: string, pageNumber: nat, overlayObjects: nat)

  datatype AnnotatedPage = AnnotatedPage(pageNumber: nat, documentId: string, documentName: string, blob: PageImage)

  /** How one run of the page renderer ends: the page container is missing
      (nothing happens), the page or its 2D context cannot be obtained (after
      the current surface was saved), or the page was drawn at `viewport`. */
  datatype RenderOutcome = NoContainer | RenderFailed | Rendered(viewport: Viewport)

  /** The changes made to the active document's state. */
  datatype Action =
    | Flush
    | GoTo(page: int)
    | Render(outcome: RenderOutcome, tool: Tool, color: string, width: int)
    | Clear
    | ApplyBrush(tool: Tool, color: string, width: int)
    | Stroke(page: int)

  /** `documentStates`: document id to state, in insertion order. */
  type States = seq<(string, DocumentState)>

  /** The export handed to `onSaveAndAnalyze`: document id to annotated pages. */
  type ExportMap = seq<(string, seq<AnnotatedPage>)>

  /** A (document id, page number) pair. */
  type PageRef = (string, nat)

  const BlankPage: PageData := PageData(None, Empty, None)

  const LoadFailedMessage: string := "Failed to load documents"

  predicate WellFormed(ds: DocumentState) {
    && |ds.pageData| == ds.pageCount
    && 1 <= ds.currentPage
    && (ds.pageCount >= 1 ==> ds.currentPage <= ds.pageCount)
  }

  predicate ValidStates(m: States) {
    DistinctKeys(m) && forall i :: 0 <= i < |m| ==> WellFormed(m[i].1)
  }

  function Ids(docs: seq<DocumentConfig>): (ids: seq<string>)
    ensures |ids| == |docs| && forall j :: 0 <= j < |docs| ==> ids[j] == docs[j].id
  {
    seq(|docs|, j requires 0 <= j < |docs| => docs[j].id)
  }

  /** Every document's id differs from the ids configured before it. */
  predicate DistinctIds(docs: seq<DocumentConfig>)
    decreases |docs|
  {
    docs == [] ||
      (DistinctIds(docs[..|docs| - 1]) && docs[|docs| - 1].id !in Ids(docs[..|docs| - 1]))
  }

  /** The same, pairwise. */
  lemma {:induction false} DistinctIdsPairwise(docs: seq<DocumentConfig>)
    ensures DistinctIds(docs) <==> forall i, j :: 0 <= i < j < |docs| ==> docs[i].id != docs[j].id
    decreases |docs|
  {
    if docs != [] {
      var n := |docs| - 1;
      var prefix := docs[..n];
      DistinctIdsPairwise(prefix);
      if DistinctIds(docs) {
        forall i, j | 0 <= i < j < |docs| ensures docs[i].id != docs[j].id {
          assert prefix[i] == docs[i];
          if j < n { assert prefix[j] == docs[j]; } else { assert Ids(prefix)[i] == docs[i].id; }
        }
      }
      if forall i, j :: 0 <= i < j < |docs| ==> docs[i].id != docs[j].id {
        forall i, j | 0 <= i < j < n ensures prefix[i].id != prefix[j].id {
          assert prefix[i] == docs[i] && prefix[j] == docs[j];
        }
        forall i | 0 <= i < n ensures Ids(prefix)[i] != docs[n].id {
          assert prefix[i] == docs[i];
        }
      }
    }
  }

  // ---------------------------------------------------------------------------
  // Loading
  // ---------------------------------------------------------------------------

  /** The state of a document that has just loaded with `numPages` pages. */
  function FreshState(numPages: nat): DocumentState {
    DocumentState(numPages, 1, seq(numPages, _ => BlankPage))
  }

  /** The map the load loop builds, given each document's page count or its
      load failure; one failure aborts the whole load. */
  function LoadAll(docs: seq<DocumentConfig>, pageCounts: seq<Option<nat>>): Option<States>
    requires |pageCounts| == |docs|
    decreases |docs|
  {
    if docs == [] then Some([])
    else
      var n := |docs| - 1;
      match LoadAll(docs[..n], pageCounts[..n])
      case None => None
      case Some(m) =>
        match pageCounts[n]
        case None => None
        case Some(count) => Some(Put(m, docs[n].id, FreshState(count)))
  }

  /** The load loop: one fresh state per document, in configured order,
      stopping at the first document that fails to load. */
  method LoadStates(docs: seq<DocumentConfig>, pageCounts: seq<Option<nat>>) returns (r: Option<States>)
    requires |pageCounts| == |docs|
    ensures r == LoadAll(docs, pageCounts)
  {
    var newStates: States := [];
    var i := 0;
    while i < |docs|
      invariant 0 <= i <= |docs|
      invariant LoadAll(docs[..i], pageCounts[..i]) == Some(newStates)
    {
      if pageCounts[i].None? {
        LoadAllFailure(docs, pageCounts);
        return None;
      }
      newStates := Put(newStates, docs[i].id, FreshState(pageCounts[i].value));
      assert docs[..i + 1][..i] == docs[..i] && pageCounts[..i + 1][..i] == pageCounts[..i];
      i := i + 1;
    }
    assert docs[..i] == docs && pageCounts[..i] == pageCounts;
    r := Some(newStates);
  }

  /** The load fails exactly when some document fails to load. */
  lemma {:induction false} LoadAllFailure(docs: seq<DocumentConfig>, pageCounts: seq<Option<nat>>)
    requires |pageCounts| == |docs|
    ensures LoadAll(docs, pageCounts).None? <==> exists j :: 0 <= j < |docs| && pageCounts[j].None?
    decreases |docs|
  {
    if docs != [] {
      var n := |docs| - 1;
      LoadAllFailure(docs[..n], pageCounts[..n]);
      if LoadAll(docs[..n], pageCounts[..n]).None? {
        var j :| 0 <= j < n && pageCounts[..n][j].None?;
        assert pageCounts[j].None?;
      } else if pageCounts[n].Some? {
        forall j | 0 <= j < |docs| ensures pageCounts[j].Some? {
          if j < n { assert pageCounts[..n][j] == pageCounts[j]; }
        }
      }
    }
  }

  /** A document state exactly as loading creates it. */
  predicate IsFresh(ds: DocumentState) {
    ds == FreshState(ds.pageCount)
  }

  /** After a successful load the configured documents are exactly the keys,
      and every entry is on page 1 with one blank page record per page. */
  lemma {:induction false} LoadAllShape(docs: seq<DocumentConfig>, pageCounts: seq<Option<nat>>)
    requires |pageCounts| == |docs|
    requires LoadAll(docs, pageCounts).Some?
    ensures ValidStates(LoadAll(docs, pageCounts).value)
    ensures forall id :: Get(LoadAll(docs, pageCounts).value, id).Some? <==> id in Ids(docs)
    ensures forall e :: e in LoadAll(docs, pageCounts).value ==>
      e.1.currentPage == 1 && |e.1.pageData| == e.1.pageCount &&
      forall p :: 0 <= p < e.1.pageCount ==> e.1.pageData[p] == BlankPage
  {
    LoadAllEntries(docs, pageCounts);
    LoadAllKeys(docs, pageCounts);
    var m := LoadAll(docs, pageCounts).value;
    forall i | 0 <= i < |m| ensures WellFormed(m[i].1) {
      assert m[i] in m;
    }
  }

  lemma {:induction false} LoadAllEntries(docs: seq<DocumentConfig>, pageCounts: seq<Option<nat>>)
    requires |pageCounts| == |docs|
    requires LoadAll(docs, pageCounts).Some?
    ensures DistinctKeys(LoadAll(docs, pageCounts).value)
    ensures forall e :: e in LoadAll(docs, pageCounts).value ==> IsFresh(e.1)
    decreases |docs|
  {
    if docs != [] {
      var n := |docs| - 1;
      LoadAllEntries(docs[..n], pageCounts[..n]);
      var m := LoadAll(docs[..n], pageCounts[..n]).value;
      PutDistinct(m, docs[n].id, FreshState(pageCounts[n].value));
      PutEntries(m, docs[n].id, FreshState(pageCounts[n].value));
    }
  }

  lemma {:induction false} LoadAllKeys(docs: seq<DocumentConfig>, pageCounts: seq<Option<nat>>)
    requires |pageCounts| == |docs|
    requires LoadAll(docs, pageCounts).Some?
    ensures forall id :: Get(LoadAll(docs, pageCounts).value, id).Some? <==> id in Ids(docs)
    decreases |docs|
  {
    if docs != [] {
      var n := |docs| - 1;
      LoadAllKeys(docs[..n], pageCounts[..n]);
      GetPut(LoadAll(docs[..n], pageCounts[..n]).value, docs[n].id, FreshState(pageCounts[n].value));
      IdsOfLast(docs);
    }
  }

  /** With distinct ids, the entries follow the configured order. */
  lemma {:induction false} LoadAllOrder(docs: seq<DocumentConfig>, pageCounts: seq<Option<nat>>)
    requires |pageCounts| == |docs| && DistinctIds(docs)
    requires LoadAll(docs, pageCounts).Some?
    ensures Keys(LoadAll(docs, pageCounts).value) == Ids(docs)
    decreases |docs|
  {
    if docs == [] {
      assert LoadAll(docs, pageCounts) == Some([]);
      assert Keys<string, DocumentState>([]) == [] == Ids(docs);
    }
    if docs != [] {
      var n := |docs| - 1;
      var prefix, counts := docs[..n], pageCounts[..n];
      LoadAllOrder(prefix, counts);
      var m := LoadAll(prefix, counts).value;
      var id := docs[n].id;
      IdsOfLast(docs);
      GetIffKeys(m, id);
      AppendedKeys(LoadAll(docs, pageCounts).value, m, id, FreshState(pageCounts[n].value), Ids(docs));
    }
  }

  lemma IdsOfLast(docs: seq<DocumentConfig>)
    requires docs != []
    ensures Ids(docs) == Ids(docs[..|docs| - 1]) + [docs[|docs| - 1].id]
  {
  }

  /** With distinct ids, each document's entry holds the page count it loaded
      with. */
  lemma {:induction false} LoadAllCounts(docs: seq<DocumentConfig>, pageCounts: seq<Option<nat>>)
    requires |pageCounts| == |docs| && DistinctIds(docs)
    requires LoadAll(docs, pageCounts).Some?
    ensures forall j :: 0 <= j < |docs| ==>
      pageCounts[j].Some? && Get(LoadAll(docs, pageCounts).value, docs[j].id) == Some(FreshState(pageCounts[j].value))
    decreases |docs|
  {
    if docs != [] {
      var n := |docs| - 1;
      var prefix, counts := docs[..n], pageCounts[..n];
      LoadAllCounts(prefix, counts);
      var v := FreshState(pageCounts[n].value);
      var r := Put(LoadAll(prefix, counts).value, docs[n].id, v);
      PutKeepsCounts(LoadAll(prefix, counts).value, docs[n].id, v, prefix, counts);
      ExtendCounts(r, prefix, counts, docs[n], pageCounts[n]);
      SplitLast(docs);
      SplitLast(pageCounts);
    }
  }

  lemma ExtendCounts(m: States, docs: seq<DocumentConfig>, counts: seq<Option<nat>>, last: DocumentConfig, count: Option<nat>)
    requires |counts| == |docs|
    requires forall j :: 0 <= j < |docs| ==> counts[j].Some? && Get(m, docs[j].id) == Some(FreshState(counts[j].value))
    requires count.Some? && Get(m, last.id) == Some(FreshState(count.value))
    ensures forall j :: 0 <= j < |docs| + 1 ==>
      (counts + [count])[j].Some? && Get(m, (docs + [last])[j].id) == Some(FreshState((counts + [count])[j].value))
  {
  }

  /** Adding a document leaves the entries of the other documents alone. */
  lemma PutKeepsCounts(m: States, id: string, v: DocumentState, docs: seq<DocumentConfig>, counts: seq<Option<nat>>)
    requires |counts| == |docs|
    requires forall j :: 0 <= j < |docs| ==> counts[j].Some? && Get(m, docs[j].id) == Some(FreshState(counts[j].value))
    requires id !in Ids(docs)
    ensures forall j :: 0 <= j < |docs| ==>
      counts[j].Some? && Get(Put(m, id, v), docs[j].id) == Some(FreshState(counts[j].value))
  {
    GetPut(m, id, v);
    forall j | 0 <= j < |docs| ensures docs[j].id != id {
      assert Ids(docs)[j] == docs[j].id;
    }
  }



  // ---------------------------------------------------------------------------
  // Page state transitions
  // ---------------------------------------------------------------------------

  /** `pageData[page - 1]` for a 1-based page number: absent outside the array. */
  function PageAt(ds: DocumentState, page: int): Option<PageData> {
    if 1 <= page <= |ds.pageData| then Some(ds.pageData[page - 1]) else None
  }

  function WithPage(ds: DocumentState, page: int, pd: PageData): DocumentState
    requires 1 <= page <= |ds.pageData|
  {
    ds.(pageData := ds.pageData[page - 1 := pd])
  }

  /** `Math.max(1, Math.min(pageNum, pageCount))`. */
  function Clamp(n: int, pageCount: nat): (r: int)
    ensures 1 <= r && (pageCount >= 1 ==> r <= pageCount)
    ensures 1 <= n <= pageCount ==> r == n
    ensures n > pageCount >= 1 ==> r == pageCount
    ensures n < 1 ==> r == 1
    ensures pageCount == 0 ==> r == 1
  {
    Max(1, Min(n, pageCount))
  }

  /** Saving the current page: its live surface, if any, is serialised into
      its snapshot. */
  function FlushCurrent(ds: DocumentState): DocumentState {
    match PageAt(ds, ds.currentPage)
    case Some(p) =>
      if p.fabricCanvas.Some? then WithPage(ds, ds.currentPage, p.(canvasJson := Serialize(p.fabricCanvas.value)))
      else ds
    case None => ds
  }

  /** The current page's live surface changed by `f`-like edits. */
  function WithCurrentSurface(ds: DocumentState, s: Surface): DocumentState
    requires PageAt(ds, ds.currentPage).Some?
  {
    WithPage(ds, ds.currentPage, ds.pageData[ds.currentPage - 1].(fabricCanvas := Some(s)))
  }

  /** The effect of one action on the active document's state. */
  function Apply(ds: DocumentState, a: Action): DocumentState {
    match a
    case Flush => FlushCurrent(ds)
    case GoTo(n) => FlushCurrent(ds).(currentPage := Clamp(n, ds.pageCount))
    case Render(outcome, tool, color, width) =>
      (match outcome
       case NoContainer => ds
       case RenderFailed => FlushCurrent(ds)
       case Rendered(vp) =>
         var f := FlushCurrent(ds);
         // pdf.js refuses page numbers outside 1..numPages before anything is drawn
         if PageAt(f, f.currentPage).Some? then
           var saved := f.pageData[f.currentPage - 1].canvasJson;
           var surface := Surface(RestoredObjects(saved), MultiDocumentRenderBrush(tool, color, width));
           WithPage(f, f.currentPage, PageData(Some(surface), saved, Some(vp)))
         else f)
    case Clear =>
      (match PageAt(ds, ds.currentPage)
       case Some(p) => if p.fabricCanvas.Some? then WithCurrentSurface(ds, Cleared(p.fabricCanvas.value)) else ds
       case None => ds)
    case ApplyBrush(tool, color, width) =>
      (match PageAt(ds, ds.currentPage)
       case Some(p) =>
         if p.fabricCanvas.Some? then WithCurrentSurface(ds, p.fabricCanvas.value.(brush := ToolBrush(tool, color, width)))
         else ds
       case None => ds)
    case Stroke(page) =>
      (match PageAt(ds, page)
       case Some(p) =>
         if p.fabricCanvas.Some? then WithPage(ds, page, p.(fabricCanvas := Some(Stroked(p.fabricCanvas.value))))
         else ds
       case None => ds)
  }

  /** An action on the active document; nothing happens when it has not loaded. */
  function Step(m: States, active: string, a: Action): (r: States)
    ensures forall id :: id != active ==> Get(r, id) == Get(m, id)
    ensures Get(m, active).None? ==> r == m
    ensures Get(m, active).Some? ==> Get(r, active) == Some(Apply(Get(m, active).value, a))
  {
    match Get(m, active)
    case None => m
    case Some(ds) => GetPut(m, active, Apply(ds, a)); Put(m, active, Apply(ds, a))
  }

  /** Every action keeps a document's page count, its page array and the
      current page within range. */
  lemma ApplyWellFormed(ds: DocumentState, a: Action)
    requires WellFormed(ds)
    ensures WellFormed(Apply(ds, a)) && Apply(ds, a).pageCount == ds.pageCount
  {
  }

  lemma StepValid(m: States, active: string, a: Action)
    requires ValidStates(m)
    ensures ValidStates(Step(m, active, a)) && Keys(Step(m, active, a)) == Keys(m)
  {
    if Get(m, active).Some? {
      var ds := Get(m, active).value;
      var k :| 0 <= k < |m| && m[k].0 == active;
      assert ds == m[k].1;
      ApplyWellFormed(ds, a);
      var r := Put(m, active, Apply(ds, a));
      PutDistinct(m, active, Apply(ds, a));
      PutKeys(m, active, Apply(ds, a));
      forall i | 0 <= i < |r| ensures WellFormed(r[i].1) {
        PutEntryAt(m, active, Apply(ds, a), i);
        if r[i] != (active, Apply(ds, a)) {
          EntryWellFormed(m, r[i]);
        }
      }
    }
  }

  lemma PutEntryAt(m: States, k: string, v: DocumentState, i: nat)
    requires i < |Put(m, k, v)|
    ensures Put(m, k, v)[i] == (k, v) || Put(m, k, v)[i] in m
  {
    PutEntries(m, k, v);
    assert Put(m, k, v)[i] in Put(m, k, v);
  }

  lemma EntryWellFormed(m: States, e: (string, DocumentState))
    requires ValidStates(m) && e in m
    ensures WellFormed(e.1)
  {
    var j :| 0 <= j < |m| && m[j] == e;
  }

  /** goToPage: the current page is clamped into range, the page being left has
      its live surface saved into its snapshot, and no other page changes. */
  lemma GoToPageEffect(ds: DocumentState, n: int)
    requires WellFormed(ds)
    ensures var r := Apply(ds, GoTo(n));
      && r.currentPage == Max(1, Min(n, ds.pageCount))
      && (ds.pageCount >= 1 ==> 1 <= r.currentPage <= ds.pageCount)
      && r.pageCount == ds.pageCount && |r.pageData| == |ds.pageData|
      && (forall p :: 0 <= p < |ds.pageData| && p != ds.currentPage - 1 ==> r.pageData[p] == ds.pageData[p])
      && (forall p :: 0 <= p < |ds.pageData| ==> r.pageData[p].fabricCanvas == ds.pageData[p].fabricCanvas)
      && (PageAt(ds, ds.currentPage).Some? && ds.pageData[ds.currentPage - 1].fabricCanvas.Some? ==>
            r.pageData[ds.currentPage - 1].canvasJson == Serialize(ds.pageData[ds.currentPage - 1].fabricCanvas.value))
  {
  }

  /** Clear empties the current page's live surface and touches nothing else;
      without a live surface it does nothing. Its stored snapshot is kept. */
  lemma ClearEffect(ds: DocumentState)
    requires WellFormed(ds)
    ensures var r := Apply(ds, Clear);
      && (forall p :: 0 <= p < |ds.pageData| && p != ds.currentPage - 1 ==> r.pageData[p] == ds.pageData[p])
      && r.currentPage == ds.currentPage && |r.pageData| == |ds.pageData|
      && (PageAt(ds, ds.currentPage).Some? && ds.pageData[ds.currentPage - 1].fabricCanvas.Some? ==>
            !PageHasAnnotations(PageAt(r, r.currentPage)) &&
            r.pageData[ds.currentPage - 1].canvasJson == ds.pageData[ds.currentPage - 1].canvasJson)
      && (PageAt(ds, ds.currentPage).None? || ds.pageData[ds.currentPage - 1].fabricCanvas.None? ==> r == ds)
  {
  }

  // ---------------------------------------------------------------------------
  // Annotation test and export
  // ---------------------------------------------------------------------------

  /** A page carries ink: the live surface decides when there is one, else a
      parseable snapshot with at least one object. */
  predicate PageHasAnnotations(p: Option<PageData>) {
    match p
    case None => false
    case Some(pd) =>
      match pd.fabricCanvas
      case Some(s) => s.objects > 0
      case None => pd.canvasJson.Json? && pd.canvasJson.objectCount > 0
  }

  /** The objects composited onto the exported page: those of the live
      surface, or of a scratch surface loaded from the snapshot. */
  function OverlayObjects(p: PageData): nat {
    match p.fabricCanvas
    case Some(s) => s.objects
    case None => RestoredObjects(p.canvasJson)
  }

  predicate Emitted(doc: DocumentConfig, ds: DocumentState, page: int, noContext: set<PageRef>) {
    PageHasAnnotations(PageAt(ds, page)) && (page < 0 || (doc.id, page as nat) !in noContext)
  }

  function AnnotatedPageOf(doc: DocumentConfig, ds: DocumentState, page: nat): AnnotatedPage
    requires PageAt(ds, page).Some?
  {
    AnnotatedPage(page, doc.id, doc.name, PageImage(doc.id, page, OverlayObjects(ds.pageData[page - 1])))
  }

  /** The annotated pages among pages 1..upTo of one document, as the inner
      export loop collects them. */
  function SelectPages(doc: DocumentConfig, ds: DocumentState, noContext: set<PageRef>, upTo: nat): seq<AnnotatedPage>
    decreases upTo
  {
    if upTo == 0 then []
    else
      var page := if Emitted(doc, ds, upTo, noContext) then [AnnotatedPageOf(doc, ds, upTo)] else [];
      SelectPages(doc, ds, noContext, upTo - 1) + page
  }

  /** The export map the outer loop builds over the configured documents. */
  function ExportSpec(docs: seq<DocumentConfig>, m: States, noContext: set<PageRef>): ExportMap
    decreases |docs|
  {
    if docs == [] then []
    else
      var n := |docs| - 1;
      var acc := ExportSpec(docs[..n], m, noContext);
      match Get(m, docs[n].id)
      case None => acc
      case Some(ds) =>
        var pages := SelectPages(docs[n], ds, noContext, ds.pageCount);
        if |pages| > 0 then Put(acc, docs[n].id, pages) else acc
  }

  /** One of pages 1..upTo is emitted as `q`. */
  ghost predicate EmittedUpTo(doc: DocumentConfig, ds: DocumentState, noContext: set<PageRef>, upTo: nat, q: AnnotatedPage) {
    exists p: nat :: 1 <= p <= upTo && Emitted(doc, ds, p, noContext) && q == AnnotatedPageOf(doc, ds, p)
  }

  lemma EmittedUpToStep(doc: DocumentConfig, ds: DocumentState, noContext: set<PageRef>, upTo: nat, q: AnnotatedPage)
    requires upTo > 0
    ensures EmittedUpTo(doc, ds, noContext, upTo, q) <==>
      EmittedUpTo(doc, ds, noContext, upTo - 1, q) ||
      (Emitted(doc, ds, upTo, noContext) && q == AnnotatedPageOf(doc, ds, upTo))
  {
    if EmittedUpTo(doc, ds, noContext, upTo, q) {
      var p: nat :| 1 <= p <= upTo && Emitted(doc, ds, p, noContext) && q == AnnotatedPageOf(doc, ds, p);
      if p < upTo {
        assert EmittedUpTo(doc, ds, noContext, upTo - 1, q);
      }
    }
  }

  /** The pages a document exports are exactly its annotated pages (whose 2D
      context can be created), in ascending page order, each tagged with its
      page number and the document's id and name. */
  lemma {:induction false} SelectPagesExact(doc: DocumentConfig, ds: DocumentState, noContext: set<PageRef>, upTo: nat)
    ensures var sel := SelectPages(doc, ds, noContext, upTo);
      && (forall q :: q in sel <==> EmittedUpTo(doc, ds, noContext, upTo, q))
      && (forall i, j :: 0 <= i < j < |sel| ==> sel[i].pageNumber < sel[j].pageNumber)
      && (forall q :: q in sel ==>
            1 <= q.pageNumber <= upTo && q.documentId == doc.id && q.documentName == doc.name
            && PageHasAnnotations(PageAt(ds, q.pageNumber)))
    decreases upTo
  {
    if upTo > 0 {
      SelectPagesExact(doc, ds, noContext, upTo - 1);
      var prev := SelectPages(doc, ds, noContext, upTo - 1);
      var page := if Emitted(doc, ds, upTo, noContext) then [AnnotatedPageOf(doc, ds, upTo)] else [];
      var sel := SelectPages(doc, ds, noContext, upTo);
      assert sel == prev + page;
      forall q ensures q in sel <==> EmittedUpTo(doc, ds, noContext, upTo, q) {
        EmittedUpToStep(doc, ds, noContext, upTo, q);
      }
      forall i, j | 0 <= i < j < |sel| ensures sel[i].pageNumber < sel[j].pageNumber {
        if j >= |prev| {
          assert prev[i] in prev;
        }
      }
    }
  }

  /** A page whose annotation status and overlay are the same in two states
      exports the same way. */
  predicate SameExport(ds1: DocumentState, ds2: DocumentState) {
    && ds1.pageCount == ds2.pageCount
    && forall p :: 1 <= p <= ds1.pageCount ==>
         PageHasAnnotations(PageAt(ds1, p)) == PageHasAnnotations(PageAt(ds2, p))
         && (PageHasAnnotations(PageAt(ds1, p)) ==>
               OverlayObjects(ds1.pageData[p - 1]) == OverlayObjects(ds2.pageData[p - 1]))
  }

  lemma {:induction false} SelectPagesSame(doc: DocumentConfig, ds1: DocumentState, ds2: DocumentState, noContext: set<PageRef>, upTo: nat)
    requires SameExport(ds1, ds2) && upTo <= ds1.pageCount
    ensures SelectPages(doc, ds1, noContext, upTo) == SelectPages(doc, ds2, noContext, upTo)
    decreases upTo
  {
    if upTo > 0 {
      SelectPagesSame(doc, ds1, ds2, noContext, upTo - 1);
    }
  }

  /** Saving, navigating, rendering and re-applying the brush never change which
      pages carry ink nor what is drawn on them. */
  lemma ApplyKeepsExport(ds: DocumentState, a: Action)
    requires WellFormed(ds)
    requires a.Flush? || a.GoTo? || a.Render? || a.ApplyBrush?
    ensures SameExport(ds, Apply(ds, a))
  {
    var r := Apply(ds, a);
    forall p | 1 <= p <= ds.pageCount
      ensures PageHasAnnotations(PageAt(ds, p)) == PageHasAnnotations(PageAt(r, p))
      ensures PageHasAnnotations(PageAt(ds, p)) ==> OverlayObjects(ds.pageData[p - 1]) == OverlayObjects(r.pageData[p - 1])
    {
      if p != ds.currentPage {
        assert r.pageData[p - 1] == ds.pageData[p - 1];
      }
    }
  }

  lemma {:induction false} ExportSame(docs: seq<DocumentConfig>, m1: States, m2: States, noContext: set<PageRef>)
    requires forall id :: Get(m1, id).Some? <==> Get(m2, id).Some?
    requires forall id :: Get(m1, id).Some? ==> SameExport(Get(m1, id).value, Get(m2, id).value)
    requires forall id :: Get(m1, id).Some? ==> |Get(m1, id).value.pageData| == Get(m1, id).value.pageCount
    ensures ExportSpec(docs, m1, noContext) == ExportSpec(docs, m2, noContext)
    decreases |docs|
  {
    if docs != [] {
      var n := |docs| - 1;
      ExportSame(docs[..n], m1, m2, noContext);
      if Get(m1, docs[n].id).Some? {
        var ds1 := Get(m1, docs[n].id).value;
        SelectPagesSame(docs[n], ds1, Get(m2, docs[n].id).value, noContext, ds1.pageCount);
      }
    }
  }

  /** The export reads the same pages whether or not the current surface was
      saved first, and after any navigation or re-render. */
  lemma StepKeepsExport(docs: seq<DocumentConfig>, m: States, active: string, a: Action, noContext: set<PageRef>)
    requires ValidStates(m)
    requires a.Flush? || a.GoTo? || a.Render? || a.ApplyBrush?
    ensures ExportSpec(docs, Step(m, active, a), noContext) == ExportSpec(docs, m, noContext)
  {
    var r := Step(m, active, a);
    forall id | Get(m, id).Some?
      ensures SameExport(Get(m, id).value, Get(r, id).value)
      ensures |Get(m, id).value.pageData| == Get(m, id).value.pageCount
    {
      var k :| 0 <= k < |m| && m[k].0 == id;
      if id == active {
        ApplyKeepsExport(Get(m, id).value, a);
      }
    }
    ExportSame(docs, m, r, noContext);
  }

  /** A document has loaded and has at least one page to export. */
  predicate Exports(doc: DocumentConfig, m: States, noContext: set<PageRef>) {
    Get(m, doc.id).Some? &&
      |SelectPages(doc, Get(m, doc.id).value, noContext, Get(m, doc.id).value.pageCount)| > 0
  }

  /** Some configured document with this id has loaded and exports a page. */
  ghost predicate ExportedId(docs: seq<DocumentConfig>, m: States, noContext: set<PageRef>, id: string) {
    exists j :: 0 <= j < |docs| && docs[j].id == id && Exports(docs[j], m, noContext)
  }

  lemma ExportedIdLast(docs: seq<DocumentConfig>, m: States, noContext: set<PageRef>, id: string)
    requires docs != []
    ensures ExportedId(docs, m, noContext, id) <==>
      ExportedId(docs[..|docs| - 1], m, noContext, id) || (docs[|docs| - 1].id == id && Exports(docs[|docs| - 1], m, noContext))
  {
    var n := |docs| - 1;
    var prefix := docs[..n];
    if ExportedId(docs, m, noContext, id) {
      var j :| 0 <= j < |docs| && docs[j].id == id && Exports(docs[j], m, noContext);
      if j < n {
        assert prefix[j] == docs[j];
      }
    }
    if ExportedId(prefix, m, noContext, id) {
      var j :| 0 <= j < n && prefix[j].id == id && Exports(prefix[j], m, noContext);
      assert docs[j] == prefix[j];
    }
  }

  /** A document is a key of the export exactly when it is configured, has
      loaded, and has at least one exported page. */
  lemma {:induction false} ExportKeys(docs: seq<DocumentConfig>, m: States, noContext: set<PageRef>)
    ensures DistinctKeys(ExportSpec(docs, m, noContext))
    ensures forall id :: Get(ExportSpec(docs, m, noContext), id).Some? <==> ExportedId(docs, m, noContext, id)
    decreases |docs|
  {
    if docs != [] {
      var n := |docs| - 1;
      var prefix := docs[..n];
      ExportKeys(prefix, m, noContext);
      var acc := ExportSpec(prefix, m, noContext);
      var e := ExportSpec(docs, m, noContext);
      if Exports(docs[n], m, noContext) {
        var ds := Get(m, docs[n].id).value;
        PutDistinct(acc, docs[n].id, SelectPages(docs[n], ds, noContext, ds.pageCount));
        GetPut(acc, docs[n].id, SelectPages(docs[n], ds, noContext, ds.pageCount));
      }
      forall id ensures Get(e, id).Some? <==> ExportedId(docs, m, noContext, id) {
        ExportedIdLast(docs, m, noContext, id);
      }
    }
  }

  /** The configured documents that export something, in configured order. */
  function ExportingDocs(docs: seq<DocumentConfig>, m: States, noContext: set<PageRef>): (r: seq<DocumentConfig>)
    ensures forall d :: d in r <==> d in docs && Exports(d, m, noContext)
    decreases |docs|
  {
    if docs == [] then []
    else
      var n := |docs| - 1;
      var prefix := ExportingDocs(docs[..n], m, noContext);
      assert docs == docs[..n] + [docs[n]];
      if Exports(docs[n], m, noContext) then prefix + [docs[n]] else prefix
  }

  /** With distinct ids, each configured document's entry in the export is
      exactly its selected pages, and it has one only if it exports anything. */
  lemma {:induction false} ExportValues(docs: seq<DocumentConfig>, m: States, noContext: set<PageRef>)
    requires DistinctIds(docs)
    ensures forall j :: 0 <= j < |docs| ==>
      Get(ExportSpec(docs, m, noContext), docs[j].id) ==
        if Exports(docs[j], m, noContext)
        then Some(SelectPages(docs[j], Get(m, docs[j].id).value, noContext, Get(m, docs[j].id).value.pageCount))
        else None
    decreases |docs|
  {
    if docs != [] {
      var n := |docs| - 1;
      var prefix := docs[..n];
      ExportValues(prefix, m, noContext);
      ExportAbsent(prefix, m, noContext, docs[n].id);
      ExportLast(docs, m, noContext);
      forall j | 0 <= j < |docs|
        ensures Get(ExportSpec(docs, m, noContext), docs[j].id) ==
          if Exports(docs[j], m, noContext)
          then Some(SelectPages(docs[j], Get(m, docs[j].id).value, noContext, Get(m, docs[j].id).value.pageCount))
          else None
      {
        if j < n {
          assert prefix[j] == docs[j];
          assert Ids(prefix)[j] == docs[j].id;
          assert Get(ExportSpec(docs, m, noContext), docs[j].id) == Get(ExportSpec(prefix, m, noContext), prefix[j].id);
        } else {
          assert docs[j] == docs[n];
        }
      }
    }
  }

  /** The last document sets its own entry, if it exports anything, and no
      other. */
  lemma ExportLast(docs: seq<DocumentConfig>, m: States, noContext: set<PageRef>)
    requires docs != []
    requires Get(ExportSpec(docs[..|docs| - 1], m, noContext), docs[|docs| - 1].id).None?
    ensures var last := docs[|docs| - 1];
      Get(ExportSpec(docs, m, noContext), last.id) ==
        if Exports(last, m, noContext)
        then Some(SelectPages(last, Get(m, last.id).value, noContext, Get(m, last.id).value.pageCount))
        else None
    ensures forall id :: id != docs[|docs| - 1].id ==>
      Get(ExportSpec(docs, m, noContext), id) == Get(ExportSpec(docs[..|docs| - 1], m, noContext), id)
  {
    var n := |docs| - 1;
    var acc := ExportSpec(docs[..n], m, noContext);
    if Exports(docs[n], m, noContext) {
      var ds := Get(m, docs[n].id).value;
      GetPut(acc, docs[n].id, SelectPages(docs[n], ds, noContext, ds.pageCount));
    }
  }

  /** An id that is not configured has no entry in the export. */
  lemma {:induction false} ExportAbsent(docs: seq<DocumentConfig>, m: States, noContext: set<PageRef>, id: string)
    requires id !in Ids(docs)
    ensures Get(ExportSpec(docs, m, noContext), id).None?
    decreases |docs|
  {
    if docs != [] {
      var n := |docs| - 1;
      assert Ids(docs) == Ids(docs[..n]) + [docs[n].id];
      ExportAbsent(docs[..n], m, noContext, id);
      if Exports(docs[n], m, noContext) {
        var ds := Get(m, docs[n].id).value;
        GetPut(ExportSpec(docs[..n], m, noContext), docs[n].id, SelectPages(docs[n], ds, noContext, ds.pageCount));
      }
    }
  }

  /** The export over one more configured document. */
  lemma ExportSpecStep(docs: seq<DocumentConfig>, m: States, noContext: set<PageRef>, d: nat)
    requires d < |docs|
    ensures var acc := ExportSpec(docs[..d], m, noContext);
      ExportSpec(docs[..d + 1], m, noContext) == AddDocument(acc, docs[d], m, noContext)
  {
    assert docs[..d + 1][..d] == docs[..d];
  }

  /** goToPage's work on one document: the current page's surface is
      serialized into its saved drawing, then the target page is clamped to
      the document's pages. */
  method MoveTo(ds: DocumentState, pageNum: int) returns (r: DocumentState)
    ensures r == Apply(ds, GoTo(pageNum))
  {
    r := ds;
    var index := r.currentPage - 1;
    if 0 <= index < |r.pageData| && r.pageData[index].fabricCanvas.Some? {
      var page := r.pageData[index];
      r := r.(pageData := r.pageData[index := page.(canvasJson := Serialize(page.fabricCanvas.value))]);
    }
    assert r == FlushCurrent(ds);
    r := r.(currentPage := Max(1, Min(pageNum, r.pageCount)));
  }

  /** No page the export loop fetches from this document (an annotated page
      within its count) is listed in `rejects`, the pages where fetching or
      rendering the page rejects. */
  predicate PagesFetchedOk(doc: DocumentConfig, ds: DocumentState, rejects: set<PageRef>) {
    forall p: nat :: 1 <= p <= ds.pageCount && PageHasAnnotations(PageAt(ds, p)) ==> (doc.id, p) !in rejects
  }

  /** No loaded configured document has a fetched page that rejects. */
  predicate FetchesOk(docs: seq<DocumentConfig>, m: States, rejects: set<PageRef>) {
    forall j :: 0 <= j < |docs| && Get(m, docs[j].id).Some? ==> PagesFetchedOk(docs[j], Get(m, docs[j].id).value, rejects)
  }

  /** The fetches of one more document. */
  lemma FetchesOkStep(docs: seq<DocumentConfig>, m: States, rejects: set<PageRef>, d: nat)
    requires d < |docs|
    ensures FetchesOk(docs[..d + 1], m, rejects) <==>
      FetchesOk(docs[..d], m, rejects) && (Get(m, docs[d].id).None? || PagesFetchedOk(docs[d], Get(m, docs[d].id).value, rejects))
  {
    var prefix := docs[..d + 1];
    assert forall j :: 0 <= j <= d ==> prefix[j] == docs[j];
    assert forall j :: 0 <= j < d ==> docs[..d][j] == docs[j];
  }

  /** One loaded document with a fetched page that rejects spoils them all. */
  lemma NotFetchesOk(docs: seq<DocumentConfig>, m: States, rejects: set<PageRef>, d: nat)
    requires d < |docs| && Get(m, docs[d].id).Some?
    requires !PagesFetchedOk(docs[d], Get(m, docs[d].id).value, rejects)
    ensures !FetchesOk(docs, m, rejects)
  {
  }

  /** The inner export loop: one document's annotated pages, in page order.
      A fetched page in `rejects` ends the loop with `ok` false. */
  method CollectPages(doc: DocumentConfig, ds: DocumentState, noContext: set<PageRef>, rejects: set<PageRef>)
    returns (ok: bool, annotated: seq<AnnotatedPage>)
    ensures ok <==> PagesFetchedOk(doc, ds, rejects)
    ensures ok ==> annotated == SelectPages(doc, ds, noContext, ds.pageCount)
  {
    annotated := [];
    var i := 1;
    while i <= ds.pageCount
      invariant 1 <= i <= ds.pageCount + 1
      invariant annotated == SelectPages(doc, ds, noContext, i - 1)
      invariant forall p: nat :: 1 <= p < i && PageHasAnnotations(PageAt(ds, p)) ==> (doc.id, p) !in rejects
    {
      if PageHasAnnotations(PageAt(ds, i)) {
        if (doc.id, i) in rejects {
          return false, [];
        }
        if (doc.id, i) !in noContext {
          annotated := annotated + [AnnotatedPageOf(doc, ds, i)];
        }
      }
      i := i + 1;
    }
    ok := true;
  }

  /** The export over one more document: its selected pages are added under
      its id when it has loaded and has any. */
  function AddDocument(acc: ExportMap, doc: DocumentConfig, m: States, noContext: set<PageRef>): ExportMap {
    match Get(m, doc.id)
    case None => acc
    case Some(ds) =>
      if |SelectPages(doc, ds, noContext, ds.pageCount)| > 0
      then Put(acc, doc.id, SelectPages(doc, ds, noContext, ds.pageCount))
      else acc
  }

  /** One turn of the outer export loop: `ok` is false when the document has
      loaded and one of its fetched pages rejects. */
  method CollectDocument(acc: ExportMap, doc: DocumentConfig, m: States, noContext: set<PageRef>, rejects: set<PageRef>)
    returns (ok: bool, exported: ExportMap)
    ensures ok <==> Get(m, doc.id).None? || PagesFetchedOk(doc, Get(m, doc.id).value, rejects)
    ensures ok ==> exported == AddDocument(acc, doc, m, noContext)
  {
    exported := acc;
    ok := true;
    var state := Get(m, doc.id);
    if state.Some? {
      var annotated;
      ok, annotated := CollectPages(doc, state.value, noContext, rejects);
      if ok && |annotated| > 0 {
        exported := Put(exported, doc.id, annotated);
      }
    }
  }

  /** The outer export loop: walks the configured documents in order and
      keeps, for each loaded one, its annotated pages if there are any. A
      fetched page that rejects ends the walk, and nothing is handed on. */
  method CollectExport(docs: seq<DocumentConfig>, m: States, noContext: set<PageRef>, rejects: set<PageRef>)
    returns (invoked: bool, exported: ExportMap)
    ensures invoked <==> FetchesOk(docs, m, rejects)
    ensures invoked ==> exported == ExportSpec(docs, m, noContext)
    ensures !invoked ==> exported == []
  {
    exported := [];
    var d := 0;
    while d < |docs|
      invariant 0 <= d <= |docs|
      invariant exported == ExportSpec(docs[..d], m, noContext)
      invariant FetchesOk(docs[..d], m, rejects)
    {
      ExportSpecStep(docs, m, noContext, d);
      FetchesOkStep(docs, m, rejects, d);
      var ok;
      ok, exported := CollectDocument(exported, docs[d], m, noContext, rejects);
      if !ok {
        NotFetchesOk(docs, m, rejects, d);
        return false, [];
      }
      d := d + 1;
    }
    assert docs[..d] == docs;
    invoked := true;
  }

  /** With distinct ids, the export's entries follow the configured order of
      the documents that export something. */
  lemma {:induction false} ExportOrder(docs: seq<DocumentConfig>, m: States, noContext: set<PageRef>)
    requires DistinctIds(docs)
    ensures Keys(ExportSpec(docs, m, noContext)) == Ids(ExportingDocs(docs, m, noContext))
    decreases |docs|
  {
    if docs == [] {
      assert Keys<string, seq<AnnotatedPage>>([]) == [] == Ids([]);
    } else {
      var n := |docs| - 1;
      var prefix := docs[..n];
      ExportOrder(prefix, m, noContext);
      var acc := ExportSpec(prefix, m, noContext);
      var kept := ExportingDocs(prefix, m, noContext);
      if Exports(docs[n], m, noContext) {
        var ds := Get(m, docs[n].id).value;
        var pages := SelectPages(docs[n], ds, noContext, ds.pageCount);
        ExportAbsent(prefix, m, noContext, docs[n].id);
        assert Ids(kept + [docs[n]]) == Ids(kept) + [docs[n].id];
        AppendedKeys(ExportSpec(docs, m, noContext), acc, docs[n].id, pages, Ids(kept + [docs[n]]));
      }
    }
  }

  /** The current page has a live surface in drawing mode, and its 2D context
      can be created at export time. */
  predicate Drawable(doc: DocumentConfig, ds: DocumentState, noContext: set<PageRef>) {
    && PageAt(ds, ds.currentPage).Some?
    && ds.pageData[ds.currentPage - 1].fabricCanvas.Some?
    && ds.pageData[ds.currentPage - 1].fabricCanvas.value.brush.drawingMode
    && (doc.id, ds.currentPage as nat) !in noContext
  }

  /** The number of objects on the current page's live surface, 0 without one. */
  function LiveObjects(ds: DocumentState): nat {
    match PageAt(ds, ds.currentPage)
    case Some(p) => if p.fabricCanvas.Some? then p.fabricCanvas.value.objects else 0
    case None => 0
  }

  /** A page drawn on and then left for another page is still exported, with
      the stroke composited: leaving a page saves it, and the export reads the
      saved pages of every document. */
  lemma {:induction false} DrawnPageSurvivesNavigation(
    docs: seq<DocumentConfig>, m: States, j: nat, target: int, outcome: RenderOutcome,
    tool: Tool, color: string, width: int, noContext: set<PageRef>)
    requires ValidStates(m) && DistinctIds(docs) && j < |docs|
    requires Get(m, docs[j].id).Some?
    requires Drawable(docs[j], Get(m, docs[j].id).value, noContext)
    ensures var ds := Get(m, docs[j].id).value;
      var active := docs[j].id;
      var after := Step(Step(Step(m, active, Stroke(ds.currentPage)), active, GoTo(target)), active, Render(outcome, tool, color, width));
      var e := ExportSpec(docs, after, noContext);
      && Get(e, active).Some?
      && exists pg :: pg in Get(e, active).value && pg.pageNumber == ds.currentPage
           && pg.blob.overlayObjects == LiveObjects(ds) + 1
  {
    var active := docs[j].id;
    var stroke := Stroke(Get(m, active).value.currentPage);
    var m1 := Step(m, active, stroke);
    var after := Step(Step(m1, active, GoTo(target)), active, Render(outcome, tool, color, width));
    assert ExportSpec(docs, after, noContext) == ExportSpec(docs, m1, noContext) by {
      var m2 := Step(m1, active, GoTo(target));
      StepValid(m, active, stroke);
      StepValid(m1, active, GoTo(target));
      StepKeepsExport(docs, m1, active, GoTo(target), noContext);
      StepKeepsExport(docs, m2, active, Render(outcome, tool, color, width), noContext);
    }
    var pg := StrokedPageExported(docs, m, j, noContext);
  }

  /** Right after the stroke, the page it lands on is exported with it. */
  lemma StrokedPageExported(docs: seq<DocumentConfig>, m: States, j: nat, noContext: set<PageRef>) returns (pg: AnnotatedPage)
    requires ValidStates(m) && DistinctIds(docs) && j < |docs|
    requires Get(m, docs[j].id).Some?
    requires Drawable(docs[j], Get(m, docs[j].id).value, noContext)
    ensures var ds := Get(m, docs[j].id).value;
      var e := ExportSpec(docs, Step(m, docs[j].id, Stroke(ds.currentPage)), noContext);
      && Get(e, docs[j].id).Some? && pg in Get(e, docs[j].id).value
      && pg.pageNumber == ds.currentPage
      && pg.blob.overlayObjects == LiveObjects(ds) + 1
  {
    var active := docs[j].id;
    var ds := Get(m, active).value;
    var m1 := Step(m, active, Stroke(ds.currentPage));
    assert WellFormed(ds) by {
      var k :| 0 <= k < |m| && m[k].0 == active;
      assert ds == m[k].1;
    }
    ApplyWellFormed(ds, Stroke(ds.currentPage));
    pg := StrokedPageSelected(docs[j], ds, noContext);
    var sel := SelectPages(docs[j], Apply(ds, Stroke(ds.currentPage)), noContext, ds.pageCount);
    assert Exports(docs[j], m1, noContext);
    ExportValues(docs, m1, noContext);
    assert Get(ExportSpec(docs, m1, noContext), active) == Some(sel);
  }

  /** The page a stroke lands on is among the pages its document exports. */
  lemma StrokedPageSelected(doc: DocumentConfig, ds: DocumentState, noContext: set<PageRef>) returns (pg: AnnotatedPage)
    requires Drawable(doc, ds, noContext) && |ds.pageData| == ds.pageCount
    ensures pg in SelectPages(doc, Apply(ds, Stroke(ds.currentPage)), noContext, ds.pageCount)
    ensures pg.pageNumber == ds.currentPage
    ensures pg.blob.overlayObjects == LiveObjects(ds) + 1
  {
    var ds1 := Apply(ds, Stroke(ds.currentPage));
    var p: nat := ds.currentPage;
    assert Emitted(doc, ds1, p, noContext);
    SelectPagesExact(doc, ds1, noContext, ds.pageCount);
    pg := AnnotatedPageOf(doc, ds1, p);
  }

  /** After Clear, the current page is no longer exported; the other pages of
      the document export exactly as before. */
  lemma ClearedPageNotExported(doc: DocumentConfig, ds: DocumentState, noContext: set<PageRef>)
    requires WellFormed(ds)
    requires PageAt(ds, ds.currentPage).Some? && ds.pageData[ds.currentPage - 1].fabricCanvas.Some?
    ensures forall pg :: pg in SelectPages(doc, Apply(ds, Clear), noContext, ds.pageCount) ==>
      pg.pageNumber != ds.currentPage
    ensures forall pg :: pg in SelectPages(doc, ds, noContext, ds.pageCount) && pg.pageNumber != ds.currentPage ==>
      pg in SelectPages(doc, Apply(ds, Clear), noContext, ds.pageCount)
  {
    var r := Apply(ds, Clear);
    ClearEffect(ds);
    SelectPagesExact(doc, r, noContext, ds.pageCount);
    SelectPagesExact(doc, ds, noContext, ds.pageCount);
    forall pg | pg in SelectPages(doc, ds, noContext, ds.pageCount) && pg.pageNumber != ds.currentPage
      ensures pg in SelectPages(doc, r, noContext, ds.pageCount)
    {
      assert EmittedUpTo(doc, ds, noContext, ds.pageCount, pg);
      var p: nat :| 1 <= p <= ds.pageCount && Emitted(doc, ds, p, noContext) && pg == AnnotatedPageOf(doc, ds, p);
      assert r.pageData[p - 1] == ds.pageData[p - 1];
      assert Emitted(doc, r, p, noContext) && AnnotatedPageOf(doc, r, p) == pg;
      assert EmittedUpTo(doc, r, noContext, ds.pageCount, pg);
    }
  }

  // ---------------------------------------------------------------------------
  // Page counters
  // ---------------------------------------------------------------------------

  /** `totalPages`: the sum of the page counts of all loaded documents. */
  function TotalPages(m: States): nat {
    if m == [] then 0 else m[0].1.pageCount + TotalPages(m[1..])
  }

  /** `documentStates.get(id)?.pageCount || 0`. */
  function PageCountOf(m: States, id: string): nat {
    match Get(m, id)
    case Some(ds) => ds.pageCount
    case None => 0
  }

  function SumPageCounts(docs: seq<DocumentConfig>, m: States): nat {
    if docs == [] then 0 else PageCountOf(m, docs[0].id) + SumPageCounts(docs[1..], m)
  }

  /** `documents.findIndex(d => d.id === id)`: -1 when absent. */
  function FindIndex(docs: seq<DocumentConfig>, id: string): (k: int)
    ensures -1 <= k < |docs|
    ensures k == -1 <==> id !in Ids(docs)
    ensures k >= 0 ==> docs[k].id == id && id !in Ids(docs[..k])
  {
    if docs == [] then -1
    else if docs[0].id == id then 0
    else
      var k := FindIndex(docs[1..], id);
      FindIndexPastHead(docs, id, k);
      if k == -1 then -1 else k + 1
  }

  /** A search that skips the first document finds what the whole search finds. */
  lemma FindIndexPastHead(docs: seq<DocumentConfig>, id: string, k: int)
    requires docs != [] && docs[0].id != id && -1 <= k < |docs| - 1
    requires k == -1 <==> id !in Ids(docs[1..])
    requires k >= 0 ==> docs[1..][k].id == id && id !in Ids(docs[1..][..k])
    ensures k == -1 <==> id !in Ids(docs)
    ensures k >= 0 ==> docs[k + 1].id == id && id !in Ids(docs[..k + 1])
  {
    IdsOfHead(docs);
    if k >= 0 {
      IdsOfPrefix(docs, k);
    }
  }

  lemma IdsOfPrefix(docs: seq<DocumentConfig>, k: nat)
    requires k < |docs| - 1
    ensures Ids(docs[..k + 1]) == [docs[0].id] + Ids(docs[1..][..k])
  {
    IdsOfHead(docs[..k + 1]);
    assert docs[..k + 1][1..] == docs[1..][..k];
  }

  lemma IdsOfHead(docs: seq<DocumentConfig>)
    requires docs != []
    ensures Ids(docs) == [docs[0].id] + Ids(docs[1..])
  {
    var l := [docs[0].id] + Ids(docs[1..]);
    forall j | 0 <= j < |docs| ensures Ids(docs)[j] == l[j] {
      if j > 0 {
        assert l[j] == Ids(docs[1..])[j - 1] && docs[1..][j - 1] == docs[j];
      }
    }
  }

  /** `docs.slice(0, end)`: a negative end counts from the back. */
  function SliceTo(docs: seq<DocumentConfig>, end: int): seq<DocumentConfig> {
    if end < 0 then docs[..Max(|docs| + end, 0)] else docs[..Min(end, |docs|)]
  }

  /** `currentGlobalPage`: pages of the documents configured before the active
      one, plus the active document's current page. */
  function CurrentGlobalPage(docs: seq<DocumentConfig>, m: States, active: string): int {
    SumPageCounts(SliceTo(docs, FindIndex(docs, active)), m) +
      (match Get(m, active) case Some(ds) => ds.currentPage case None => 0)
  }

  lemma {:induction false} SumPageCountsSplit(a: seq<DocumentConfig>, b: seq<DocumentConfig>, m: States)
    ensures SumPageCounts(a + b, m) == SumPageCounts(a, m) + SumPageCounts(b, m)
    decreases |a|
  {
    if a != [] {
      assert (a + b)[0] == a[0] && (a + b)[1..] == a[1..] + b;
      SumPageCountsSplit(a[1..], b, m);
    } else {
      assert a + b == b;
    }
  }

  /** When the loaded documents are exactly the configured ones, in order,
      `totalPages` is the sum over the configured documents. */
  lemma {:induction false} TotalPagesByDocuments(docs: seq<DocumentConfig>, m: States)
    requires DistinctKeys(m) && Keys(m) == Ids(docs)
    ensures TotalPages(m) == SumPageCounts(docs, m)
  {
    forall s | 0 <= s <= |docs| ensures TotalPages(m[s..]) == SumPageCounts(docs[s..], m) {
      SuffixSums(docs, m, s);
    }
    assert m[0..] == m && docs[0..] == docs;
  }

  lemma {:induction false} SuffixSums(docs: seq<DocumentConfig>, m: States, s: nat)
    requires DistinctKeys(m) && Keys(m) == Ids(docs) && s <= |docs|
    ensures TotalPages(m[s..]) == SumPageCounts(docs[s..], m)
    decreases |docs| - s
  {
    if s < |docs| {
      SuffixSums(docs, m, s + 1);
      assert m[s..][1..] == m[s + 1..] && docs[s..][1..] == docs[s + 1..];
      assert m[s].0 == Keys(m)[s] == docs[s].id;
      assert Get(m, docs[s].id) == Some(m[s].1);
    }
  }

  /** With every configured document loaded on a page in range, the overall
      page shown lies between 1 and `totalPages`, just after the pages of the
      documents before the active one. */
  lemma {:induction false} GlobalPageBounds(docs: seq<DocumentConfig>, m: States, k: nat)
    requires ValidStates(m) && Keys(m) == Ids(docs) && k < |docs|
    requires Get(m, docs[k].id).value.pageCount >= 1
    ensures CurrentGlobalPage(docs, m, docs[k].id) ==
      SumPageCounts(docs[..FindIndex(docs, docs[k].id)], m) + Get(m, docs[k].id).value.currentPage
    ensures 1 <= CurrentGlobalPage(docs, m, docs[k].id) <= TotalPages(m)
  {
    var id := docs[k].id;
    assert id in Ids(docs);
    var f := FindIndex(docs, id);
    assert m[f].0 == Keys(m)[f] == id;
    var ds := Get(m, id).value;
    assert Get(m, id) == Some(m[f].1);
    assert WellFormed(m[f].1);
    TotalPagesByDocuments(docs, m);
    SumPageCountsAround(docs, m, f);
  }

  /** The sum split around one document. */
  lemma SumPageCountsAround(docs: seq<DocumentConfig>, m: States, f: nat)
    requires f < |docs|
    ensures SumPageCounts(docs, m) == SumPageCounts(docs[..f], m) + SumPageCounts([docs[f]], m) + SumPageCounts(docs[f + 1..], m)
  {
    assert docs == docs[..f] + [docs[f]] + docs[f + 1..];
    SumPageCountsSplit(docs[..f] + [docs[f]], docs[f + 1..], m);
    SumPageCountsSplit(docs[..f], [docs[f]], m);
  }

  /** When the active id is not among the configured documents, `findIndex`
      gives -1 and the counter sums every configured document but the last. */
  lemma UnknownActiveSumsAllButLast(docs: seq<DocumentConfig>, m: States, active: string)
    requires active !in Ids(docs) && Get(m, active).None?
    ensures |docs| > 0 ==> CurrentGlobalPage(docs, m, active) == SumPageCounts(docs[..|docs| - 1], m)
    ensures |docs| == 0 ==> CurrentGlobalPage(docs, m, active) == 0
  {
  }

  /** Actions never change a document's page count, so `totalPages` stays put. */
  lemma {:induction false} StepKeepsTotal(m: States, active: string, a: Action)
    requires ValidStates(m)
    ensures TotalPages(Step(m, active, a)) == TotalPages(m)
    decreases |m|
  {
    if m != [] && Get(m, active).Some? {
      var ds := Get(m, active).value;
      ApplyWellFormed(m[0].1, a);
      if m[0].0 != active {
        assert DistinctKeys(m[1..]);
        assert ValidStates(m[1..]) by {
          forall i | 0 <= i < |m[1..]| ensures WellFormed(m[1..][i].1) { assert m[1..][i] == m[i + 1]; }
        }
        StepKeepsTotal(m[1..], active, a);
      }
    }
  }

  // ---------------------------------------------------------------------------
  // The component
  // ---------------------------------------------------------------------------

  class Annotator {
    const documents: seq<DocumentConfig>
    var activeDocId: string
    var documentStates: States
    var isLoading: bool
    var error: Option<string>
    var brushColor: string
    var brushWidth: int
    var tool: Tool
    var renderKey: nat
    /** The page whose live surface the one page container shows, if any: the
        page the renderer last painted. The renderer empties the container
        before fetching the page, so a failed run leaves nothing shown, and the
        user's strokes land on the shown surface only. */
    var shown: Option<PageRef>

    ghost predicate Valid()
      reads this
    {
      ValidStates(documentStates)
    }

    constructor (documents: seq<DocumentConfig>)
      ensures Valid() && this.documents == documents
      ensures activeDocId == (if |documents| > 0 then documents[0].id else "")
      ensures documentStates == [] && isLoading && error == None
      ensures brushColor == DefaultColor && brushWidth == DefaultWidth && tool == Pen && renderKey == 0
      ensures shown == None
    {
      this.documents := documents;
      activeDocId := if |documents| > 0 then documents[0].id else "";
      documentStates := [];
      isLoading := true;
      error := None;
      brushColor := DefaultColor;
      brushWidth := DefaultWidth;
      tool := Pen;
      renderKey := 0;
      shown := None;
    }

    /** Loads every configured document in order; `pageCounts[j]` is the page
        count of document j, or None when it fails to load. */
    method Load(pageCounts: seq<Option<nat>>)
      requires Valid() && |pageCounts| == |documents|
      modifies this
      ensures Valid() && !isLoading
      ensures LoadAll(documents, pageCounts).Some? ==>
        documentStates == LoadAll(documents, pageCounts).value && error == old(error)
      ensures LoadAll(documents, pageCounts).None? ==>
        documentStates == old(documentStates) && error == Some(LoadFailedMessage)
      ensures activeDocId == old(activeDocId) && tool == old(tool) && renderKey == old(renderKey)
      ensures shown == old(shown)
      ensures brushColor == old(brushColor) && brushWidth == old(brushWidth)
    {
      isLoading := true;
      var loaded := LoadStates(documents, pageCounts);
      if loaded.None? {
        error := Some(LoadFailedMessage);
        isLoading := false;
        return;
      }
      LoadAllShape(documents, pageCounts);
      documentStates := loaded.value;
      isLoading := false;
    }

    /** A document tab is chosen; the tool settings are applied to its current
        page's surface. */
    method SetActiveDocument(id: string)
      requires Valid()
      modifies this
      ensures Valid() && activeDocId == id
      ensures documentStates == Step(old(documentStates), id, ApplyBrush(tool, brushColor, brushWidth))
      ensures tool == old(tool) && brushColor == old(brushColor) && brushWidth == old(brushWidth)
      ensures renderKey == old(renderKey) && error == old(error) && isLoading == old(isLoading)
      ensures shown == old(shown)
    {
      activeDocId := id;
      StepValid(documentStates, activeDocId, ApplyBrush(tool, brushColor, brushWidth));
      documentStates := Step(documentStates, activeDocId, ApplyBrush(tool, brushColor, brushWidth));
    }

    /** Choosing a tool; the brush settings are applied to the current surface. */
    method SetTool(t: Tool)
      requires Valid()
      modifies this
      ensures Valid() && tool == t
      ensures documentStates == Step(old(documentStates), activeDocId, ApplyBrush(t, brushColor, brushWidth))
      ensures activeDocId == old(activeDocId) && brushColor == old(brushColor) && brushWidth == old(brushWidth)
      ensures renderKey == old(renderKey) && error == old(error) && isLoading == old(isLoading)
      ensures shown == old(shown)
    {
      tool := t;
      StepValid(documentStates, activeDocId, ApplyBrush(tool, brushColor, brushWidth));
      documentStates := Step(documentStates, activeDocId, ApplyBrush(tool, brushColor, brushWidth));
    }

    method SetBrushColor(c: string)
      requires Valid()
      modifies this
      ensures Valid() && brushColor == c
      ensures documentStates == Step(old(documentStates), activeDocId, ApplyBrush(tool, c, brushWidth))
      ensures activeDocId == old(activeDocId) && tool == old(tool) && brushWidth == old(brushWidth)
      ensures renderKey == old(renderKey) && error == old(error) && isLoading == old(isLoading)
      ensures shown == old(shown)
    {
      brushColor := c;
      StepValid(documentStates, activeDocId, ApplyBrush(tool, brushColor, brushWidth));
      documentStates := Step(documentStates, activeDocId, ApplyBrush(tool, brushColor, brushWidth));
    }

    method SetBrushWidth(w: int)
      requires Valid()
      modifies this
      ensures Valid() && brushWidth == w
      ensures documentStates == Step(old(documentStates), activeDocId, ApplyBrush(tool, brushColor, w))
      ensures activeDocId == old(activeDocId) && tool == old(tool) && brushColor == old(brushColor)
      ensures renderKey == old(renderKey) && error == old(error) && isLoading == old(isLoading)
      ensures shown == old(shown)
    {
      brushWidth := w;
      StepValid(documentStates, activeDocId, ApplyBrush(tool, brushColor, brushWidth));
      documentStates := Step(documentStates, activeDocId, ApplyBrush(tool, brushColor, brushWidth));
    }

    /** goToPage: saves the current page's surface, clamps the target page and
        forces a re-render, even when the page does not change. */
    method GoToPage(pageNum: int)
      requires Valid()
      modifies this
      ensures Valid()
      ensures documentStates == Step(old(documentStates), activeDocId, GoTo(pageNum))
      ensures renderKey == if Get(old(documentStates), activeDocId).Some? then old(renderKey) + 1 else old(renderKey)
      ensures activeDocId == old(activeDocId) && tool == old(tool)
      ensures shown == old(shown)
      ensures brushColor == old(brushColor) && brushWidth == old(brushWidth)
      ensures error == old(error) && isLoading == old(isLoading)
    {
      var current := Get(documentStates, activeDocId);
      if current.None? {
        return;
      }
      var ds := MoveTo(current.value, pageNum);
      StepValid(documentStates, activeDocId, GoTo(pageNum));
      documentStates := Put(documentStates, activeDocId, ds);
      renderKey := renderKey + 1;
    }

    /** The page renderer for the active document's current page. It does
        nothing before the document has loaded or without a container; a
        failed run leaves the emptied container showing nothing, and a painted
        page is the one shown. */
    method RenderCurrentPage(outcome: RenderOutcome)
      requires Valid()
      modifies this
      ensures Valid()
      ensures documentStates == Step(old(documentStates), activeDocId, Render(outcome, tool, brushColor, brushWidth))
      ensures Get(old(documentStates), activeDocId).None? || outcome.NoContainer? ==> shown == old(shown)
      ensures Get(old(documentStates), activeDocId).Some? && outcome.RenderFailed? ==> shown == None
      ensures Get(old(documentStates), activeDocId).Some? && outcome.Rendered? ==>
        var ds := Get(old(documentStates), activeDocId).value;
        shown == if PageAt(ds, ds.currentPage).Some? then Some((activeDocId, ds.currentPage as nat)) else None
      ensures activeDocId == old(activeDocId) && tool == old(tool) && renderKey == old(renderKey)
      ensures brushColor == old(brushColor) && brushWidth == old(brushWidth)
      ensures error == old(error) && isLoading == old(isLoading)
    {
      var current := Get(documentStates, activeDocId);
      if current.Some? && !outcome.NoContainer? {
        var ds := current.value;
        // pdf.js refuses a page number outside 1..numPages, after the container was emptied
        shown := if outcome.Rendered? && PageAt(ds, ds.currentPage).Some? then Some((activeDocId, ds.currentPage as nat)) else None;
      }
      StepValid(documentStates, activeDocId, Render(outcome, tool, brushColor, brushWidth));
      documentStates := Step(documentStates, activeDocId, Render(outcome, tool, brushColor, brushWidth));
    }

    /** handleClear: empties the current page's live surface, if any. */
    method ClearPage()
      requires Valid()
      modifies this
      ensures Valid()
      ensures documentStates == Step(old(documentStates), activeDocId, Clear)
      ensures activeDocId == old(activeDocId) && tool == old(tool) && renderKey == old(renderKey)
      ensures shown == old(shown)
      ensures brushColor == old(brushColor) && brushWidth == old(brushWidth)
      ensures error == old(error) && isLoading == old(isLoading)
    {
      StepValid(documentStates, activeDocId, Clear);
      documentStates := Step(documentStates, activeDocId, Clear);
    }

    /** The user draws one stroke on the surface the container shows; with
        nothing shown there is nothing to draw on. */
    method Draw()
      requires Valid()
      modifies this
      ensures Valid()
      ensures shown.None? ==> documentStates == old(documentStates)
      ensures shown.Some? ==> documentStates == Step(old(documentStates), shown.value.0, Stroke(shown.value.1))
      ensures activeDocId == old(activeDocId) && tool == old(tool) && renderKey == old(renderKey)
      ensures shown == old(shown)
      ensures brushColor == old(brushColor) && brushWidth == old(brushWidth)
      ensures error == old(error) && isLoading == old(isLoading)
    {
      if shown.Some? {
        StepValid(documentStates, shown.value.0, Stroke(shown.value.1));
        documentStates := Step(documentStates, shown.value.0, Stroke(shown.value.1));
      }
    }

    /** handleSaveAndAnalyze: saves the current surface, then walks the
        configured documents and their pages in order and collects the
        annotated pages; `noContext` lists the pages whose 2D context cannot be
        created, and `rejects` those where fetching or rendering the page
        rejects, which ends the handler before `onSaveAndAnalyze` is called.
        `invoked` says whether it is called, and `exported` is what it
        receives. The flush happens either way. */
    method SaveAndAnalyze(noContext: set<PageRef>, rejects: set<PageRef>) returns (invoked: bool, exported: ExportMap)
      requires Valid()
      modifies this
      ensures Valid()
      ensures documentStates == Step(old(documentStates), activeDocId, Flush)
      ensures invoked <==> FetchesOk(documents, documentStates, rejects)
      ensures invoked ==> exported == ExportSpec(documents, documentStates, noContext)
      ensures invoked ==> exported == ExportSpec(documents, old(documentStates), noContext)
      ensures !invoked ==> exported == []
      ensures activeDocId == old(activeDocId) && tool == old(tool) && renderKey == old(renderKey)
      ensures shown == old(shown)
      ensures brushColor == old(brushColor) && brushWidth == old(brushWidth)
      ensures error == old(error) && isLoading == old(isLoading)
    {
      StepValid(documentStates, activeDocId, Flush);
      StepKeepsExport(documents, documentStates, activeDocId, Flush, noContext);
      documentStates := Step(documentStates, activeDocId, Flush);
      invoked, exported := CollectExport(documents, documentStates, noContext, rejects);
    }
  }

  /** With a single loaded document, an action on it is its Apply. */
  lemma StepSingle(id: string, ds: DocumentState, act: Action)
    ensures Step([(id, ds)], id, act) == [(id, Apply(ds, act))]
  {
    assert Get([(id, ds)], id) == Some(ds);
  }

  /** The export of a single two-page document "a" whose first page holds a
      live surface with one object and whose second page a live empty one. */
  lemma OneStrokeExport(s1: Surface, s2: Surface, j1: Snapshot, j2: Snapshot, vp: Option<Viewport>)
    requires s1.objects == 1 && s2.objects == 0
    ensures var ds := DocumentState(2, 1, [PageData(Some(s1), j1, vp), PageData(Some(s2), j2, vp)]);
      ExportSpec([DocumentConfig("a", "A", "a.pdf")], [("a", ds)], {}) == [("a", [AnnotatedPage(1, "a", "A", PageImage("a", 1, 1))])]
  {
    var doc := DocumentConfig("a", "A", "a.pdf");
    var ds := DocumentState(2, 1, [PageData(Some(s1), j1, vp), PageData(Some(s2), j2, vp)]);
    assert SelectPages(doc, ds, {}, 0) == [];
    assert SelectPages(doc, ds, {}, 1) == [AnnotatedPage(1, "a", "A", PageImage("a", 1, 1))];
    assert SelectPages(doc, ds, {}, 2) == SelectPages(doc, ds, {}, 1);
    assert [doc][..0] == [];
  }

  const ScenarioDoc: DocumentConfig := DocumentConfig("a", "A", "a.pdf")
  const ScenarioViewport: Viewport := Viewport(1, 1)
  const ScenarioBrush: Brush := MultiDocumentRenderBrush(Pen, DefaultColor, DefaultWidth)

  /** A fresh annotator on the two-page document "a", with page 1 painted and
      drawn on once. */
  method DrawnFirstPage() returns (a: Annotator)
    ensures fresh(a) && a.Valid() && a.documents == [ScenarioDoc] && a.activeDocId == "a"
    ensures a.tool == Pen && a.brushColor == DefaultColor && a.brushWidth == DefaultWidth
    ensures a.shown == Some(("a", 1))
    ensures a.documentStates == [("a", DocumentState(2, 1, [PageData(Some(Surface(1, ScenarioBrush)), Empty, Some(ScenarioViewport)), BlankPage]))]
  {
    var doc := ScenarioDoc;
    a := new Annotator([doc]);
    assert [doc][..0] == [] && [Some(2)][..0] == [];
    assert LoadAll([doc], [Some(2)]) == Some([("a", FreshState(2))]);
    a.Load([Some(2)]);
    var vp := ScenarioViewport;
    assert FreshState(2).pageData == [BlankPage, BlankPage];
    StepSingle("a", FreshState(2), Render(Rendered(vp), Pen, DefaultColor, DefaultWidth));
    a.RenderCurrentPage(Rendered(vp));
    var p1 := PageData(Some(Surface(0, ScenarioBrush)), Empty, Some(vp));
    assert [BlankPage, BlankPage][0 := p1] == [p1, BlankPage];
    assert a.documentStates == [("a", DocumentState(2, 1, [p1, BlankPage]))];
    StepSingle("a", a.documentStates[0].1, Stroke(1));
    a.Draw();
    assert [p1, BlankPage][0 := p1.(fabricCanvas := Some(Surface(1, ScenarioBrush)))] ==
      [p1.(fabricCanvas := Some(Surface(1, ScenarioBrush))), BlankPage];
  }

  /** From there: to page 2, which is painted. */
  method ToSecondPage(a: Annotator)
    requires a.Valid() && a.activeDocId == "a"
    requires a.tool == Pen && a.brushColor == DefaultColor && a.brushWidth == DefaultWidth
    requires a.documentStates == [("a", DocumentState(2, 1, [PageData(Some(Surface(1, ScenarioBrush)), Empty, Some(ScenarioViewport)), BlankPage]))]
    modifies a
    ensures a.Valid() && a.activeDocId == "a"
    ensures a.tool == Pen && a.brushColor == DefaultColor && a.brushWidth == DefaultWidth
    ensures a.documentStates == [("a", DocumentState(2, 2, [
      PageData(Some(Surface(1, ScenarioBrush)), Json(1), Some(ScenarioViewport)),
      PageData(Some(Surface(0, ScenarioBrush)), Empty, Some(ScenarioViewport))]))]
  {
    var vp := ScenarioViewport;
    var p1 := PageData(Some(Surface(1, ScenarioBrush)), Empty, Some(vp));
    StepSingle("a", a.documentStates[0].1, GoTo(2));
    a.GoToPage(2);
    assert [p1, BlankPage][0 := p1.(canvasJson := Json(1))] == [p1.(canvasJson := Json(1)), BlankPage];
    p1 := p1.(canvasJson := Json(1));
    assert a.documentStates == [("a", DocumentState(2, 2, [p1, BlankPage]))];
    StepSingle("a", a.documentStates[0].1, Render(Rendered(vp), Pen, DefaultColor, DefaultWidth));
    a.RenderCurrentPage(Rendered(vp));
    var p2 := PageData(Some(Surface(0, ScenarioBrush)), Empty, Some(vp));
    assert [p1, BlankPage][1 := p2] == [p1, p2];
  }

  /** Then back to page 1, whose render fails. */
  method BackWithFailedRender(a: Annotator)
    requires a.Valid() && a.activeDocId == "a"
    requires a.tool == Pen && a.brushColor == DefaultColor && a.brushWidth == DefaultWidth
    requires a.documentStates == [("a", DocumentState(2, 2, [
      PageData(Some(Surface(1, ScenarioBrush)), Json(1), Some(ScenarioViewport)),
      PageData(Some(Surface(0, ScenarioBrush)), Empty, Some(ScenarioViewport))]))]
    modifies a
    ensures a.Valid() && a.shown == None
    ensures a.documentStates == [("a", DocumentState(2, 1, [
      PageData(Some(Surface(1, ScenarioBrush)), Json(1), Some(ScenarioViewport)),
      PageData(Some(Surface(0, ScenarioBrush)), Json(0), Some(ScenarioViewport))]))]
  {
    var vp := ScenarioViewport;
    var p1 := PageData(Some(Surface(1, ScenarioBrush)), Json(1), Some(vp));
    var p2 := PageData(Some(Surface(0, ScenarioBrush)), Empty, Some(vp));
    StepSingle("a", a.documentStates[0].1, GoTo(1));
    a.GoToPage(1);
    assert [p1, p2][1 := p2.(canvasJson := Json(0))] == [p1, p2.(canvasJson := Json(0))];
    p2 := p2.(canvasJson := Json(0));
    assert a.documentStates == [("a", DocumentState(2, 1, [p1, p2]))];
    StepSingle("a", a.documentStates[0].1, Render(RenderFailed, Pen, DefaultColor, DefaultWidth));
    a.RenderCurrentPage(RenderFailed);
    assert [p1, p2][0 := p1.(canvasJson := Json(1))] == [p1, p2];
  }

  /** After a failed render the container shows nothing, so drawing changes
      nothing. One document of two pages: page 1 is painted and drawn on, the
      user goes to page 2 (painted) and back to page 1, whose render fails,
      and draws again. The export before and after that last stroke is the
      same: page 1 with the first stroke only. */
  method StrokeAfterFailedRender() returns (before: ExportMap, after: ExportMap)
    ensures before == after
    ensures before == [("a", [AnnotatedPage(1, "a", "A", PageImage("a", 1, 1))])]
  {
    var a := DrawnFirstPage();
    ToSecondPage(a);
    BackWithFailedRender(a);
    OneStrokeExport(Surface(1, ScenarioBrush), Surface(0, ScenarioBrush), Json(1), Json(0), Some(ScenarioViewport));
    before := ExportSpec(a.documents, a.documentStates, {});
    a.Draw();
    after := ExportSpec(a.documents, a.documentStates, {});
  }
}
