/** The drawing surface laid over a rendered PDF page, reduced to what the
    annotators decide on: how many objects are drawn on it and which brush it
    carries. A page's JSON snapshot is reduced to the number of objects it
    lists, or to the fact that it cannot be parsed. */
module Canvas {

  datatype Tool = Pen | Eraser | Select

  /** The free-drawing brush of a surface and whether free drawing is on. */
  datatype Brush = Brush(color: string, width: int, drawingMode: bool)

  /** A live drawing surface. */
  datatype Surface = Surface(objects: nat, brush: Brush)

  /** A page's stored snapshot: none (null or the empty string), a parseable
      JSON document listing `objectCount` objects, or text that does not parse. */
  datatype Snapshot = Empty | Json(objectCount: nat) | Malformed

  const DefaultColor: string := "#000000"
  const DefaultWidth: int := 2

  /** The eraser paints over the page in white with a wide stroke. */
  const EraserColor: string := "#FFFFFF"
  const EraserWidth: int := 20

  /** The brush the tool-settings effect gives the current page's surface
      whenever the tool, the colour or the width changes. */
  function ToolBrush(tool: Tool, color: string, width: int): (b: Brush)
    ensures tool == Eraser ==> b.color == EraserColor && b.width == EraserWidth
    ensures tool != Eraser ==> b.color == color && b.width == width
    ensures b.drawingMode <==> tool != Select
  {
    match tool
    case Eraser => Brush(EraserColor, EraserWidth, true)
    case Pen => Brush(color, width, true)
    case Select => Brush(color, width, false)
  }

  /** The brush of a surface freshly created by the multi-document page
      renderer: the eraser rule for colour and width, but free drawing only
      for the pen. */
  function MultiDocumentRenderBrush(tool: Tool, color: string, width: int): (b: Brush)
    ensures b.drawingMode <==> tool == Pen
    ensures b == ToolBrush(tool, color, width) <==> tool != Eraser
  {
    if tool == Eraser then Brush(EraserColor, EraserWidth, false)
    else Brush(color, width, tool == Pen)
  }

  /** The brush of a surface freshly created by the single-document page
      renderer: the chosen colour and width whatever the tool, free drawing
      only for the pen. */
  function SingleDocumentRenderBrush(tool: Tool, color: string, width: int): (b: Brush)
    ensures b.drawingMode <==> tool == Pen
    ensures tool == Pen ==> b == ToolBrush(tool, color, width)
    ensures tool == Eraser ==> b.color == color && b.width == width
  {
    Brush(color, width, tool == Pen)
  }

  /** `JSON.stringify(canvas.toJSON())`. */
  function Serialize(s: Surface): (j: Snapshot)
    ensures RestoredObjects(j) == s.objects
  {
    Json(s.objects)
  }

  /** The number of objects a new surface holds after loading a snapshot: an
      unparseable snapshot leaves it empty. */
  function RestoredObjects(j: Snapshot): nat {
    match j
    case Json(n) => n
    case _ => 0
  }

  /** `canvas.clear()`. */
  function Cleared(s: Surface): (c: Surface)
    ensures c.objects == 0 && c.brush == s.brush
  {
    s.(objects := 0)
  }

  /** One free-hand stroke of the user: added only while free drawing is on. */
  function Stroked(s: Surface): (c: Surface)
    ensures c.brush == s.brush
    ensures c.objects == if s.brush.drawingMode then s.objects + 1 else s.objects
  {
    if s.brush.drawingMode then s.(objects := s.objects + 1) else s
  }
}
