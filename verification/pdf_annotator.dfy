/** The single-document annotator: one PDF, one drawing surface per page kept
    in a slot array, each page drawn at most once, and an export that hands
    over an image of every page. */
module PdfAnnotator {
  import opened Shared
  import opened Canvas

  /** The image the export produces for one page: the rendered page with the
      `overlayObjects` objects of its surface composited on top. */
  datatype PageBlob = PageBlob(pageNumber: nat, overlayObjects: nat)

  const LoadFailedMessage: string := "Failed to load PDF"

  /** The objects drawn on a slot's surface; an empty slot contributes none. */
  function SlotObjects(slot: Option<Surface>): nat {
    match slot
    case Some(s) => s.objects
    case None => 0
  }

  /** The images the export loop pushes for pages 1..upTo: every page, drawn on
      or not, except those whose 2D context cannot be created. */
  function ExportAll(slots: seq<Option<Surface>>, noContext: set<int>, upTo: nat): seq<PageBlob>
    requires upTo <= |slots|
  {
    if upTo == 0 then []
    else
      var page := if upTo in noContext then [] else [PageBlob(upTo, SlotObjects(slots[upTo - 1]))];
      ExportAll(slots, noContext, upTo - 1) + page
  }

  /** The export holds exactly one image per page outside `noContext`, in
      ascending page order, each carrying what was drawn on that page. */
  lemma {:induction false} ExportAllExact(slots: seq<Option<Surface>>, noContext: set<int>, upTo: nat)
    requires upTo <= |slots|
    ensures var out := ExportAll(slots, noContext, upTo);
      && (forall b :: b in out <==>
            1 <= b.pageNumber <= upTo && b.pageNumber !in noContext
            && b.overlayObjects == SlotObjects(slots[b.pageNumber - 1]))
      && (forall i, j :: 0 <= i < j < |out| ==> out[i].pageNumber < out[j].pageNumber)
    decreases upTo
  {
    if upTo > 0 {
      ExportAllExact(slots, noContext, upTo - 1);
      var prev := ExportAll(slots, noContext, upTo - 1);
      var page := if upTo in noContext then [] else [PageBlob(upTo, SlotObjects(slots[upTo - 1]))];
      var out := prev + page;
      assert ExportAll(slots, noContext, upTo) == out;
      assert forall b :: b in out <==> b in prev || b in page;
      forall i, j | 0 <= i < j < |out| ensures out[i].pageNumber < out[j].pageNumber {
        if j < |prev| {
          assert out[i] == prev[i] && out[j] == prev[j];
        } else {
          assert out[i] == prev[i] && prev[i] in prev && out[j] == page[0];
        }
      }
    }
  }

  /** Without unavailable contexts the export has one image per page, image i
      being page i + 1. */
  lemma {:induction false} ExportAllEveryPage(slots: seq<Option<Surface>>, upTo: nat)
    requires upTo <= |slots|
    ensures |ExportAll(slots, {}, upTo)| == upTo
    ensures forall i :: 0 <= i < upTo ==> ExportAll(slots, {}, upTo)[i] == PageBlob(i + 1, SlotObjects(slots[i]))
    decreases upTo
  {
    if upTo > 0 {
      ExportAllEveryPage(slots, upTo - 1);
    }
  }

  /** The slots with the tool settings applied to the surface of `page`, if it
      has one; other slots are untouched. */
  function WithToolBrush(slots: seq<Option<Surface>>, page: int, tool: Tool, color: string, width: int): (r: seq<Option<Surface>>)
    ensures |r| == |slots|
    ensures forall i :: 0 <= i < |slots| && i != page - 1 ==> r[i] == slots[i]
    ensures 1 <= page <= |slots| && slots[page - 1].Some? ==>
      r[page - 1] == Some(slots[page - 1].value.(brush := ToolBrush(tool, color, width)))
  {
    if 1 <= page <= |slots| && slots[page - 1].Some? then
      slots[page - 1 := Some(slots[page - 1].value.(brush := ToolBrush(tool, color, width)))]
    else slots
  }

  /** `Math.max(1, currentPage - 1)`. */
  function PrevPage(current: int): (p: int)
    ensures p >= 1
    ensures current > 1 ==> p == current - 1
    ensures current <= 1 ==> p == 1
  {
    Max(1, current - 1)
  }

  /** `Math.min(pageCount, currentPage + 1)`. */
  function NextPage(current: int, pageCount: nat): (p: int)
    ensures p <= pageCount
    ensures current < pageCount ==> p == current + 1
    ensures current >= pageCount ==> p == pageCount
  {
    Min(pageCount, current + 1)
  }

  /** From a page in range, the previous and next buttons stay in range. */
  lemma NavigationInRange(current: int, pageCount: nat)
    requires 1 <= current <= pageCount
    ensures 1 <= PrevPage(current) <= pageCount
    ensures 1 <= NextPage(current, pageCount) <= pageCount
    ensures PrevPage(current) <= current <= NextPage(current, pageCount)
  {
  }

  /** How one attempt of the page renderer ends once it has started: pdf.js
      cannot produce the page and nothing on screen changes; the page
      container was emptied but no canvas was attached, because no 2D context
      was available or the page render rejected; or the page was painted with
      a fresh annotation surface on top. */
  datatype RenderOutcome = PageUnavailable | ContainerEmptied | Painted

  class SingleDocumentAnnotator {
    var pdfLoaded: bool
    var pageCount: nat
    var currentPage: int
    var canvasRefs: array<Option<Surface>>
    var renderedPages: set<int>
    var isLoading: bool
    var error: Option<string>
    var brushColor: string
    var brushWidth: int
    var tool: Tool
    /** The page whose canvases the one page container holds, if any. The
        container is shared by all pages, and the renderer skips a page already
        rendered, so after returning to such a page the container still shows
        the page rendered last, and that surface takes the user's strokes. */
    var displayed: Option<int>

    ghost predicate Valid()
      reads this
    {
      && canvasRefs.Length == pageCount
      && (displayed.Some? ==> displayed.value in renderedPages)
    }

    /** Every page recorded as rendered is in range and has a surface. */
    ghost predicate RenderedHaveSurfaces()
      reads this, canvasRefs
    {
      forall p :: p in renderedPages ==> 1 <= p <= canvasRefs.Length && canvasRefs[p - 1].Some?
    }

    constructor ()
      ensures Valid() && RenderedHaveSurfaces()
      ensures !pdfLoaded && pageCount == 0 && currentPage == 1 && renderedPages == {} && displayed == None
      ensures isLoading && error == None
      ensures brushColor == DefaultColor && brushWidth == DefaultWidth && tool == Pen
    {
      pdfLoaded := false;
      pageCount := 0;
      currentPage := 1;
      canvasRefs := new Option<Surface>[0];
      renderedPages := {};
      isLoading := true;
      error := None;
      brushColor := DefaultColor;
      brushWidth := DefaultWidth;
      tool := Pen;
      displayed := None;
    }

    /** Loads the PDF: `numPages` is its page count, or None when loading
        fails. On success there is one empty slot per page. */
    method Load(numPages: Option<nat>)
      requires Valid()
      modifies this
      ensures Valid() && !isLoading
      ensures numPages.Some? ==>
        && pdfLoaded && pageCount == numPages.value && fresh(canvasRefs)
        && (forall i :: 0 <= i < canvasRefs.Length ==> canvasRefs[i].None?)
        && error == old(error)
      ensures numPages.None? ==>
        && error == Some(LoadFailedMessage)
        && pdfLoaded == old(pdfLoaded) && pageCount == old(pageCount) && canvasRefs == old(canvasRefs)
      ensures old(renderedPages) == {} ==> RenderedHaveSurfaces()
      ensures currentPage == old(currentPage) && renderedPages == old(renderedPages) && displayed == old(displayed)
      ensures tool == old(tool) && brushColor == old(brushColor) && brushWidth == old(brushWidth)
    {
      isLoading := true;
      if numPages.None? {
        error := Some(LoadFailedMessage);
        isLoading := false;
        return;
      }
      pdfLoaded := true;
      pageCount := numPages.value;
      canvasRefs := new Option<Surface>[numPages.value](_ => None);
      isLoading := false;
    }

    /** The page renderer for the current page: skipped before the PDF has
        loaded and for a page already rendered, so the container keeps what it
        showed. Otherwise `outcome` says how far it got. A page outside the
        document is one pdf.js cannot produce. A painted page gets a new
        surface, empty and with the renderer's brush, and is the one shown. */
    method Render(outcome: RenderOutcome)
      requires Valid()
      modifies this, canvasRefs
      ensures Valid() && canvasRefs == old(canvasRefs)
      ensures renderedPages >= old(renderedPages)
      ensures old(RenderedHaveSurfaces()) ==> RenderedHaveSurfaces()
      ensures !pdfLoaded || currentPage in old(renderedPages) || outcome == PageUnavailable || !(1 <= currentPage <= pageCount) ==>
        canvasRefs[..] == old(canvasRefs[..]) && renderedPages == old(renderedPages) && displayed == old(displayed)
      ensures pdfLoaded && currentPage !in old(renderedPages) && outcome == ContainerEmptied && 1 <= currentPage <= pageCount ==>
        canvasRefs[..] == old(canvasRefs[..]) && renderedPages == old(renderedPages) && displayed == None
      ensures pdfLoaded && currentPage !in old(renderedPages) && outcome == Painted && 1 <= currentPage <= pageCount ==>
        && canvasRefs[..] == old(canvasRefs[..])[currentPage - 1 := Some(Surface(0, SingleDocumentRenderBrush(tool, brushColor, brushWidth)))]
        && renderedPages == old(renderedPages) + {currentPage}
        && displayed == Some(currentPage)
      ensures pdfLoaded == old(pdfLoaded) && pageCount == old(pageCount) && currentPage == old(currentPage)
      ensures tool == old(tool) && brushColor == old(brushColor) && brushWidth == old(brushWidth)
      ensures isLoading == old(isLoading) && error == old(error)
    {
      if !pdfLoaded || currentPage in renderedPages {
        return;
      }
      // pdf.js refuses a page number outside 1..numPages
      if outcome == PageUnavailable || !(1 <= currentPage <= pageCount) {
        return;
      }
      if outcome == ContainerEmptied {
        displayed := None;
        return;
      }
      canvasRefs[currentPage - 1] := Some(Surface(0, SingleDocumentRenderBrush(tool, brushColor, brushWidth)));
      renderedPages := renderedPages + {currentPage};
      displayed := Some(currentPage);
    }

    /** The tool-settings effect: the current page's surface, if any, gets the
        tool's brush. */
    method ApplyToolSettings()
      requires Valid()
      modifies canvasRefs
      ensures canvasRefs[..] == WithToolBrush(old(canvasRefs[..]), currentPage, tool, brushColor, brushWidth)
    {
      if 1 <= currentPage <= canvasRefs.Length && canvasRefs[currentPage - 1].Some? {
        var s := canvasRefs[currentPage - 1].value;
        canvasRefs[currentPage - 1] := Some(s.(brush := ToolBrush(tool, brushColor, brushWidth)));
      }
    }

    method SetTool(t: Tool)
      requires Valid()
      modifies this, canvasRefs
      ensures Valid() && tool == t && canvasRefs == old(canvasRefs)
      ensures canvasRefs[..] == WithToolBrush(old(canvasRefs[..]), currentPage, t, brushColor, brushWidth)
      ensures old(RenderedHaveSurfaces()) ==> RenderedHaveSurfaces()
      ensures currentPage == old(currentPage) && renderedPages == old(renderedPages) && pageCount == old(pageCount)
      ensures displayed == old(displayed)
      ensures brushColor == old(brushColor) && brushWidth == old(brushWidth) && pdfLoaded == old(pdfLoaded)
    {
      tool := t;
      ApplyToolSettings();
    }

    method SetBrushColor(c: string)
      requires Valid()
      modifies this, canvasRefs
      ensures Valid() && brushColor == c && canvasRefs == old(canvasRefs)
      ensures canvasRefs[..] == WithToolBrush(old(canvasRefs[..]), currentPage, tool, c, brushWidth)
      ensures old(RenderedHaveSurfaces()) ==> RenderedHaveSurfaces()
      ensures currentPage == old(currentPage) && renderedPages == old(renderedPages) && pageCount == old(pageCount)
      ensures displayed == old(displayed)
      ensures tool == old(tool) && brushWidth == old(brushWidth) && pdfLoaded == old(pdfLoaded)
    {
      brushColor := c;
      ApplyToolSettings();
    }

    method SetBrushWidth(w: int)
      requires Valid()
      modifies this, canvasRefs
      ensures Valid() && brushWidth == w && canvasRefs == old(canvasRefs)
      ensures canvasRefs[..] == WithToolBrush(old(canvasRefs[..]), currentPage, tool, brushColor, w)
      ensures old(RenderedHaveSurfaces()) ==> RenderedHaveSurfaces()
      ensures currentPage == old(currentPage) && renderedPages == old(renderedPages) && pageCount == old(pageCount)
      ensures displayed == old(displayed)
      ensures tool == old(tool) && brushColor == old(brushColor) && pdfLoaded == old(pdfLoaded)
    {
      brushWidth := w;
      ApplyToolSettings();
    }

    /** The previous-page button; the tool settings then apply to the new
        current page's surface. */
    method Prev()
      requires Valid()
      modifies this, canvasRefs
      ensures Valid() && canvasRefs == old(canvasRefs)
      ensures currentPage == PrevPage(old(currentPage))
      ensures canvasRefs[..] == WithToolBrush(old(canvasRefs[..]), currentPage, tool, brushColor, brushWidth)
      ensures old(RenderedHaveSurfaces()) ==> RenderedHaveSurfaces()
      ensures renderedPages == old(renderedPages) && pageCount == old(pageCount) && pdfLoaded == old(pdfLoaded)
      ensures displayed == old(displayed)
      ensures tool == old(tool) && brushColor == old(brushColor) && brushWidth == old(brushWidth)
    {
      currentPage := Max(1, currentPage - 1);
      ApplyToolSettings();
    }

    /** The next-page button; the tool settings then apply to the new current
        page's surface. */
    method Next()
      requires Valid()
      modifies this, canvasRefs
      ensures Valid() && canvasRefs == old(canvasRefs)
      ensures currentPage == NextPage(old(currentPage), pageCount)
      ensures canvasRefs[..] == WithToolBrush(old(canvasRefs[..]), currentPage, tool, brushColor, brushWidth)
      ensures old(RenderedHaveSurfaces()) ==> RenderedHaveSurfaces()
      ensures renderedPages == old(renderedPages) && pageCount == old(pageCount) && pdfLoaded == old(pdfLoaded)
      ensures displayed == old(displayed)
      ensures tool == old(tool) && brushColor == old(brushColor) && brushWidth == old(brushWidth)
    {
      currentPage := Min(pageCount, currentPage + 1);
      ApplyToolSettings();
    }

    /** handleClear: empties the current page's surface; without one it does
        nothing. No other page changes. */
    method ClearPage()
      requires Valid()
      modifies canvasRefs
      ensures forall i :: 0 <= i < canvasRefs.Length && i != currentPage - 1 ==> canvasRefs[i] == old(canvasRefs[i])
      ensures 1 <= currentPage <= canvasRefs.Length ==>
        canvasRefs[currentPage - 1] == match old(canvasRefs[currentPage - 1])
          case Some(s) => Some(Cleared(s))
          case None => None
    {
      if 1 <= currentPage <= canvasRefs.Length && canvasRefs[currentPage - 1].Some? {
        canvasRefs[currentPage - 1] := Some(Cleared(canvasRefs[currentPage - 1].value));
      }
    }

    /** The user draws one stroke on the surface the page container shows,
        which is the current page's only when that page was the last one
        rendered. Every other surface keeps its objects. */
    method Draw()
      requires Valid()
      modifies canvasRefs
      ensures forall i :: 0 <= i < canvasRefs.Length && displayed != Some(i + 1) ==> canvasRefs[i] == old(canvasRefs[i])
      ensures displayed.Some? && 1 <= displayed.value <= canvasRefs.Length ==>
        canvasRefs[displayed.value - 1] == match old(canvasRefs[displayed.value - 1])
          case Some(s) => Some(Stroked(s))
          case None => None
    {
      if displayed.Some? && 1 <= displayed.value <= canvasRefs.Length && canvasRefs[displayed.value - 1].Some? {
        var shown := displayed.value - 1;
        canvasRefs[shown] := Some(Stroked(canvasRefs[shown].value));
      }
    }

    /** handleSaveAndAnalyze: without a loaded PDF nothing happens. Otherwise
        every page in order is exported, except those listed in `noContext`,
        whose 2D context cannot be created. A page in `rejects` is one where
        fetching or rendering the page rejects; that ends the handler, and the
        callback is not invoked. */
    method SaveAndAnalyze(noContext: set<int>, rejects: set<int>) returns (invoked: bool, blobs: seq<PageBlob>)
      requires Valid()
      ensures invoked <==> pdfLoaded && forall p :: p in rejects ==> !(1 <= p <= pageCount)
      ensures invoked ==> blobs == ExportAll(canvasRefs[..], noContext, pageCount)
      ensures !invoked ==> blobs == []
    {
      if !pdfLoaded {
        return false, [];
      }
      blobs := [];
      var i := 1;
      while i <= pageCount
        invariant 1 <= i <= pageCount + 1
        invariant blobs == ExportAll(canvasRefs[..], noContext, i - 1)
        invariant forall p :: p in rejects ==> !(1 <= p < i)
      {
        if i in rejects {
          return false, [];
        }
        if i in noContext {
          i := i + 1;
          continue;
        }
        var overlay := 0;
        var surface := canvasRefs[i - 1];
        if surface.Some? {
          overlay := surface.value.objects;
        }
        blobs := blobs + [PageBlob(i, overlay)];
        i := i + 1;
      }
      invoked := true;
    }
  }

  /** Returning to a page already rendered leaves the container showing the
      page rendered last. With three pages: page 1 is rendered, the next
      button renders page 2, the previous button returns to page 1, and the
      user draws. The stroke lands on page 2's surface, so the export shows it
      on page 2's image while page 1's stays blank. */
  method StrokeAfterReturning() returns (current: int, blobs: seq<PageBlob>)
    ensures current == 1
    ensures blobs == [PageBlob(1, 0), PageBlob(2, 1), PageBlob(3, 0)]
  {
    var a := new SingleDocumentAnnotator();
    a.Load(Some(3));
    a.Render(Painted);
    a.Next();
    a.Render(Painted);
    a.Prev();
    a.Render(Painted);
    a.Draw();
    current := a.currentPage;
    var invoked;
    invoked, blobs := a.SaveAndAnalyze({}, {});
    ExportAllEveryPage(a.canvasRefs[..], 3);
  }
}
