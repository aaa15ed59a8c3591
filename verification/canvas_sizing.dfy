/** `resizeCanvasToContainer` (components.js): fits a diagram canvas to the
    content width of its parent element. The document's canvases are a map
    from element id to canvas. */
module CanvasSizing {
  import opened JsArith
  import opened Wrappers
  import opened Geometry

  /** The parent element's layout as getComputedStyle and clientWidth /
      clientHeight report it (paddings already parsed to numbers). */
  datatype Container = Container(
    clientWidth: real, clientHeight: real,
    paddingLeft: real, paddingRight: real, paddingTop: real, paddingBottom: real)

  datatype Canvas = Canvas(size: Size, parent: Option<Container>)

  const TriangleCanvasId: string := "triangleCanvas"
  const UnitCircleCanvasId: string := "unitCircleCanvas"

  /** The triangle canvas is at most 400 pixels wide, with a 400:300 aspect. */
  const TriangleMaxWidth: real := 400.0
  /** The unit-circle canvas is a square of side at most 350 pixels. */
  const CircleMaxSide: real := 350.0

  /** The parent's content width: its client width minus its horizontal
      padding. (The source also computes the content height, and never
      uses it.) */
  function AvailableWidth(c: Container): real {
    c.clientWidth - (c.paddingLeft + c.paddingRight)
  }

  /** The new size for one canvas, given the width available to it. */
  function FittedSize(canvasId: string, available: real, current: Size): (s: Size)
    ensures canvasId == TriangleCanvasId ==>
              s.width <= TriangleMaxWidth && s.width <= available
              && (s.width == TriangleMaxWidth || s.width == available)
              && s.height * 4.0 == s.width * 3.0
    ensures canvasId == UnitCircleCanvasId ==>
              s.width == s.height && s.width <= CircleMaxSide && s.width <= available
              && (s.width == CircleMaxSide || s.width == available)
    ensures canvasId != TriangleCanvasId && canvasId != UnitCircleCanvasId ==> s == current
  {
    if canvasId == TriangleCanvasId then
      var aspectRatio := 400.0 / 300.0;
      var width := Min(available, TriangleMaxWidth);
      Size(width, width / aspectRatio)
    else if canvasId == UnitCircleCanvasId then
      var side := Min(available, CircleMaxSide);
      Size(side, side)
    else
      current
  }

  /** `resizeCanvasToContainer(canvasId)`: a missing canvas, a canvas
      without a parent, or an id other than the two diagram canvases leaves
      the document as it was; otherwise only that canvas's size changes. */
  function ResizeCanvasToContainer(canvases: map<string, Canvas>, canvasId: string): (r: map<string, Canvas>)
    ensures r.Keys == canvases.Keys
    ensures forall id :: id in canvases && id != canvasId ==> r[id] == canvases[id]
    ensures canvasId !in canvases || canvases[canvasId].parent.None? ==> r == canvases
    ensures canvasId in canvases ==> r[canvasId].parent == canvases[canvasId].parent
    ensures canvasId in canvases && canvases[canvasId].parent.Some? ==>
              r[canvasId].size
                == FittedSize(canvasId, AvailableWidth(canvases[canvasId].parent.value), canvases[canvasId].size)
  {
    if canvasId !in canvases then canvases
    else
      var canvas := canvases[canvasId];
      match canvas.parent
      case None => canvases
      case Some(container) =>
        canvases[canvasId := canvas.(size := FittedSize(canvasId, AvailableWidth(container), canvas.size))]
  }

  /** Resizing again against the same layout changes nothing. */
  lemma ResizeIdempotent(canvases: map<string, Canvas>, canvasId: string)
    ensures ResizeCanvasToContainer(ResizeCanvasToContainer(canvases, canvasId), canvasId)
              == ResizeCanvasToContainer(canvases, canvasId)
  {
  }

  /** Only the parent's width and horizontal padding matter: two parents that
      differ in client height or vertical padding give the same canvas. */
  lemma ResizeIgnoresVerticalLayout(canvases: map<string, Canvas>, canvasId: string, c1: Container, c2: Container)
    requires canvasId in canvases
    requires c1.clientWidth == c2.clientWidth
    requires c1.paddingLeft == c2.paddingLeft && c1.paddingRight == c2.paddingRight
    ensures ResizeCanvasToContainer(canvases[canvasId := canvases[canvasId].(parent := Some(c1))], canvasId)[canvasId].size
         == ResizeCanvasToContainer(canvases[canvasId := canvases[canvasId].(parent := Some(c2))], canvasId)[canvasId].size
  {
  }

  /** On a wide container the triangle canvas becomes 400 x 300, and the
      unit circle drawn on a fitted canvas of side at least 40 has radius
      half the side minus 20 (at most 155). */
  lemma FittedCanvasesAndDiagrams(available: real, current: Size, angleDeg: real, dir: Direction, half: Direction)
    ensures available >= 400.0 ==> FittedSize(TriangleCanvasId, available, current) == Size(400.0, 300.0)
    ensures var side := FittedSize(UnitCircleCanvasId, available, current);
            var s := CircleGeometry(side, angleDeg, dir, half);
            s.radius == side.width / 2.0 - 20.0 && s.radius <= 155.0
            && (side.width >= 40.0 ==> s.radius >= 0.0)
  {
  }
}
