/** The exported drawing, as structured records rather than text: one group
    per placed panel holding its rectangle and two labels, turned about the
    panel's centre when the panel is rotated, inside a view box the size of
    the canvas. */
module Svg {
  import opened Pieces
  import opened Layout

  /** Fill of the shell panels. */
  const CascaronFill: string := "#cfe8ff"
  /** Fill of the frame panels. */
  const CorralFill: string := "#ffe5c2"

  datatype Option<T> = None | Some(value: T)

  /** The transform `rotate(90 cx cy)`: a quarter turn about (cx, cy). */
  datatype Rotation = Rotate90(cx: real, cy: real)

  datatype Rect = Rect(x: real, y: real, width: real, height: real, fill: string)

  /** What a label shows: plain text, or a size written as
      "{width} x {height} mm" (the digits of a number are not modelled). */
  datatype TextContent = Caption(text: string) | SizeInMm(width: real, height: real)

  /** A label anchored (centred horizontally) at (x, y). */
  datatype Text = Text(x: real, y: real, content: TextContent)

  /** One `<g>` element: an optional transform, the panel's rectangle, its
      name label and its size label. */
  datatype Element = Element(transform: Option<Rotation>, rect: Rect, caption: Text, sizeText: Text)

  datatype ViewBox = ViewBox(minX: real, minY: real, width: real, height: real)

  datatype Document = Document(viewBox: ViewBox, elements: seq<Element>)

  /** The fill colour of a group. */
  function FillOf(g: Group): string
  {
    match g
    case Cascaron => CascaronFill
    case Corral => CorralFill
  }

  /** The drawing of one placed panel: its rectangle at its nominal size,
      centred on the panel's centre, turned about that centre when the
      panel is rotated, with its name label 4 units above the centre and
      its size label 10 units below. */
  function PieceElement(q: Placed): (e: Element)
    ensures e.rect.x + e.rect.width / 2.0 == q.cx && e.rect.y + e.rect.height / 2.0 == q.cy
    ensures e.rect.width == q.piece.width && e.rect.height == q.piece.height
    ensures e.transform.Some? <==> q.piece.rotate
    ensures e.transform.Some? ==> e.transform.value == Rotate90(q.cx, q.cy)
    ensures e.rect.fill == CascaronFill <==> q.piece.group == Cascaron
    ensures e.rect.fill == CorralFill <==> q.piece.group == Corral
    ensures e.caption == Text(q.cx, q.cy - 4.0, Caption(q.piece.id + " " + q.piece.name))
    ensures e.sizeText == Text(q.cx, q.cy + 10.0, SizeInMm(q.piece.width, q.piece.height))
  {
    var p := q.piece;
    var rectX := q.cx - p.width / 2.0;
    var rectY := q.cy - p.height / 2.0;
    var transform := if p.rotate then Some(Rotate90(q.cx, q.cy)) else None;
    Element(transform,
            Rect(rectX, rectY, p.width, p.height, FillOf(p.group)),
            Text(q.cx, q.cy - 4.0, Caption(p.id + " " + p.name)),
            Text(q.cx, q.cy + 10.0, SizeInMm(p.width, p.height)))
  }

  /** The drawing of all placed panels, in order, in a view box
      `0 0 totalWidth totalHeight`. */
  function BuildPiecesSvg(pieces: seq<Placed>, totalWidth: real, totalHeight: real): (doc: Document)
    ensures doc.viewBox == ViewBox(0.0, 0.0, totalWidth, totalHeight)
    ensures |doc.elements| == |pieces|
    ensures forall i :: 0 <= i < |pieces| ==> doc.elements[i] == PieceElement(pieces[i])
  {
    Document(ViewBox(0.0, 0.0, totalWidth, totalHeight),
             seq(|pieces|, i requires 0 <= i < |pieces| => PieceElement(pieces[i])))
  }

  /** Where the quarter turn `rotate(90 cx cy)` sends the point (x, y):
      with y growing downwards it turns clockwise on screen. */
  function RotatePoint(r: Rotation, x: real, y: real): (real, real)
  {
    (r.cx - (y - r.cy), r.cy + (x - r.cx))
  }

  /** The area an element's rectangle covers on the canvas once its
      transform is applied. A quarter turn sends opposite corners of the
      rectangle to opposite corners of its image. */
  function Footprint(e: Element): Box
  {
    var r := e.rect;
    match e.transform
    case None => Box(r.x, r.y, r.x + r.width, r.y + r.height)
    case Some(rot) =>
      var (x0, y0) := RotatePoint(rot, r.x, r.y);
      var (x1, y1) := RotatePoint(rot, r.x + r.width, r.y + r.height);
      Box(Min(x0, x1), Min(y0, y1), Max(x0, x1), Max(y0, y1))
  }

  /** Reading the drawing back gives the layout's geometry: the rectangle,
      after its transform, covers exactly the panel's bounding box in the
      layout, so a turned panel's drawn extent is its swapped footprint. */
  lemma ElementFootprint(q: Placed)
    requires Footprinted(q) && NonNegative(q.piece)
    ensures Footprint(PieceElement(q)) == BoxOf(q)
  {
  }

  /** The drawing of a layout without overlap shows no two rectangles
      covering the same area, and each lies inside the view box with the
      layout's margins. */
  lemma DrawingMatchesLayout(a: Arrangement)
    requires forall i :: 0 <= i < |a.placed| ==> Footprinted(a.placed[i]) && NonNegative(a.placed[i].piece)
    requires Disjoint(a.placed) && InsideCanvas(a)
    ensures var doc := BuildPiecesSvg(a.placed, a.totalWidth, a.totalHeight);
      && (forall i, j :: 0 <= i < j < |doc.elements| ==>
            !Overlap(Footprint(doc.elements[i]), Footprint(doc.elements[j])))
      && (forall i :: 0 <= i < |doc.elements| ==>
            && doc.viewBox.minX + MarginX <= Footprint(doc.elements[i]).left
            && doc.viewBox.minY + MarginY <= Footprint(doc.elements[i]).top
            && Footprint(doc.elements[i]).right + 2.0 * MarginX <= doc.viewBox.width
            && Footprint(doc.elements[i]).bottom + MarginY <= doc.viewBox.height)
  {
  }
}
