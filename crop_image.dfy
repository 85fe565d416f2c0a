/** The crop screen (src/components/crop-image-konva/index.tsx): a selection rectangle on a
    600×400 stage that can be dragged, resized from its four corner handles, and finally
    exported as the region to rasterise.  The rectangle and the handles are Konva nodes
    that the handlers reposition in place; the crop area is component state. */
module CropImage {
  import opened Wrappers
  import opened KonvaImageEditor
  import opened RealMath

  const MIN_SIZE: real := 50.0
  const STAGE_WIDTH: real := 600.0
  const STAGE_HEIGHT: real := 400.0

  /** The crop rectangle in stage pixels. */
  datatype CropArea = CropArea(x: real, y: real, width: real, height: real)

  datatype Point = Point(x: real, y: real)

  /** The four resize handles, named "top-left", "top-right", "bottom-left", "bottom-right". */
  datatype Corner = TopLeft | TopRight | BottomLeft | BottomRight

  /** `Math.max(lo, Math.min(v, hi))`: the nearest point of `[lo, hi]` to `v` when the
      interval is not empty, and `lo` otherwise. */
  function Clamp(v: real, lo: real, hi: real): (r: real)
    ensures lo <= r
    ensures lo <= hi ==> r <= hi
    ensures lo <= v <= hi ==> r == v
    ensures lo <= hi && v < lo ==> r == lo
    ensures lo <= hi && hi < v ==> r == hi
  {
    Max(lo, Min(v, hi))
  }

  /** The rectangle lies in the stage and is at least MIN_SIZE wide and high.  The initial
      area satisfies it and every handler preserves it. */
  predicate InStage(a: CropArea)
  {
    && 0.0 <= a.x && 0.0 <= a.y
    && MIN_SIZE <= a.width && MIN_SIZE <= a.height
    && a.x + a.width <= STAGE_WIDTH && a.y + a.height <= STAGE_HEIGHT
  }

  /** The Konva node name of each handle. */
  function HandleName(c: Corner): string
  {
    match c
    case TopLeft => "top-left"
    case TopRight => "top-right"
    case BottomLeft => "bottom-left"
    case BottomRight => "bottom-right"
  }

  /** The handle a node name designates, if any: the handlers switch on the name. */
  function ParseHandle(name: string): (c: Option<Corner>)
    ensures c.Some? ==> HandleName(c.value) == name
    ensures c.None? ==> forall k: Corner :: HandleName(k) != name
  {
    if name == "top-left" then Some(TopLeft)
    else if name == "top-right" then Some(TopRight)
    else if name == "bottom-left" then Some(BottomLeft)
    else if name == "bottom-right" then Some(BottomRight)
    else None
  }

  predicate IsLeft(c: Corner) { c == TopLeft || c == BottomLeft }

  predicate IsTop(c: Corner) { c == TopLeft || c == TopRight }

  function Opposite(c: Corner): Corner
  {
    match c
    case TopLeft => BottomRight
    case TopRight => BottomLeft
    case BottomLeft => TopRight
    case BottomRight => TopLeft
  }

  /** Where the corner `c` of `a` is drawn (the position each handle is rendered at). */
  function CornerPoint(a: CropArea, c: Corner): Point
  {
    Point(if IsLeft(c) then a.x else a.x + a.width, if IsTop(c) then a.y else a.y + a.height)
  }

  /** The rectangle whose corner `c` is at `p` and whose opposite corner is at `anchor`. */
  function FromCorners(c: Corner, p: Point, anchor: Point): (r: CropArea)
    ensures CornerPoint(r, c) == p && CornerPoint(r, Opposite(c)) == anchor
  {
    CropArea(
      if IsLeft(c) then p.x else anchor.x,
      if IsTop(c) then p.y else anchor.y,
      if IsLeft(c) then anchor.x - p.x else p.x - anchor.x,
      if IsTop(c) then anchor.y - p.y else p.y - anchor.y)
  }

  /** The interval the dragged corner's x may take: a left corner stays in the stage and
      MIN_SIZE left of the fixed right edge; a right corner stays MIN_SIZE right of the
      fixed left edge and in the stage. */
  function XLow(a: CropArea, c: Corner): real { if IsLeft(c) then 0.0 else a.x + MIN_SIZE }

  function XHigh(a: CropArea, c: Corner): real
  {
    if IsLeft(c) then a.x + a.width - MIN_SIZE else STAGE_WIDTH
  }

  /** The same interval for y, with top and bottom in place of left and right. */
  function YLow(a: CropArea, c: Corner): real { if IsTop(c) then 0.0 else a.y + MIN_SIZE }

  function YHigh(a: CropArea, c: Corner): real
  {
    if IsTop(c) then a.y + a.height - MIN_SIZE else STAGE_HEIGHT
  }

  predicate InReach(a: CropArea, c: Corner, p: Point)
  {
    XLow(a, c) <= p.x <= XHigh(a, c) && YLow(a, c) <= p.y <= YHigh(a, c)
  }

  /** Resizing from corner `c` dragged to `p`: the opposite corner stays where it was and
      the dragged corner goes to `p` clamped into its reach. */
  function ResizeCorner(a: CropArea, c: Corner, p: Point): (r: CropArea)
    ensures CornerPoint(r, Opposite(c)) == CornerPoint(a, Opposite(c))
    ensures InReach(a, c, p) ==> CornerPoint(r, c) == p
    ensures IsLeft(c) ==> 0.0 <= r.x
    ensures IsTop(c) ==> 0.0 <= r.y
    ensures a.x + a.width >= MIN_SIZE ==> r.width >= MIN_SIZE
    ensures a.y + a.height >= MIN_SIZE ==> r.height >= MIN_SIZE
    ensures InStage(a) ==> InStage(r)
  {
    var dragged := Point(Clamp(p.x, XLow(a, c), XHigh(a, c)), Clamp(p.y, YLow(a, c), YHigh(a, c)));
    FromCorners(c, dragged, CornerPoint(a, Opposite(c)))
  }

  /** The bottom-right handle: the top-left corner stays, and the new width and height are
      the pointer's offsets from it, floored at MIN_SIZE and capped at the stage edge. */
  lemma ResizeBottomRight(a: CropArea, p: Point)
    ensures ResizeCorner(a, BottomRight, p) == a.(
      width := Max(MIN_SIZE, Min(p.x - a.x, STAGE_WIDTH - a.x)),
      height := Max(MIN_SIZE, Min(p.y - a.y, STAGE_HEIGHT - a.y)))
  {
  }

  /** The bottom-left handle: the right edge and the top stay; x follows the pointer within
      `[0, right edge - MIN_SIZE]` and the height is computed as for bottom-right. */
  lemma ResizeBottomLeft(a: CropArea, p: Point)
    ensures var newX := Max(0.0, Min(p.x, a.x + a.width - MIN_SIZE));
      ResizeCorner(a, BottomLeft, p) == a.(
        x := newX,
        width := a.x + a.width - newX,
        height := Max(MIN_SIZE, Min(p.y - a.y, STAGE_HEIGHT - a.y)))
  {
  }

  /** The top-right handle: the left edge and the bottom stay; y follows the pointer within
      `[0, bottom edge - MIN_SIZE]` and the width is computed as for bottom-right. */
  lemma ResizeTopRight(a: CropArea, p: Point)
    ensures var newY := Max(0.0, Min(p.y, a.y + a.height - MIN_SIZE));
      ResizeCorner(a, TopRight, p) == a.(
        y := newY,
        width := Max(MIN_SIZE, Min(p.x - a.x, STAGE_WIDTH - a.x)),
        height := a.y + a.height - newY)
  {
  }

  /** The top-left handle: the bottom-right corner stays; x and y follow the pointer, each
      at least 0 and MIN_SIZE short of the fixed edge. */
  lemma ResizeTopLeft(a: CropArea, p: Point)
    ensures var newX, newY := Max(0.0, Min(p.x, a.x + a.width - MIN_SIZE)),
                              Max(0.0, Min(p.y, a.y + a.height - MIN_SIZE));
      ResizeCorner(a, TopLeft, p) == CropArea(newX, newY, a.x + a.width - newX, a.y + a.height - newY)
  {
  }

  /** The crop area after a handle named `name` is dragged to `p`; a name that is not one
      of the four handles matches no case of the switch and leaves the area as it was. */
  function Resized(a: CropArea, name: string, p: Point): (r: CropArea)
    ensures ParseHandle(name).None? ==> r == a
    ensures ParseHandle(name).Some? ==>
      CornerPoint(r, Opposite(ParseHandle(name).value)) == CornerPoint(a, Opposite(ParseHandle(name).value))
    ensures InStage(a) ==> InStage(r)
  {
    match ParseHandle(name)
    case None => a
    case Some(c) => ResizeCorner(a, c, p)
  }

  /** Dragging the whole rectangle to `p`: the top-left corner is clamped so that the
      rectangle stays in the stage, and the size is kept. */
  function DragMoved(a: CropArea, p: Point): (r: CropArea)
    ensures r.width == a.width && r.height == a.height
    ensures a.width <= STAGE_WIDTH ==> 0.0 <= r.x <= STAGE_WIDTH - a.width
    ensures a.height <= STAGE_HEIGHT ==> 0.0 <= r.y <= STAGE_HEIGHT - a.height
    ensures 0.0 <= p.x <= STAGE_WIDTH - a.width ==> r.x == p.x
    ensures 0.0 <= p.y <= STAGE_HEIGHT - a.height ==> r.y == p.y
    ensures InStage(a) ==> InStage(r)
  {
    CropArea(Clamp(p.x, 0.0, STAGE_WIDTH - a.width), Clamp(p.y, 0.0, STAGE_HEIGHT - a.height),
             a.width, a.height)
  }

  /** The arguments of `stage.toDataURL` when the crop is confirmed. */
  datatype ExportRequest = ExportRequest(
    x: real, y: real, width: real, height: real, pixelRatio: real, mimeType: string)

  function ExportRequestFor(a: CropArea): (q: ExportRequest)
    ensures q.pixelRatio == 1.0 && q.mimeType == "image/png"
    ensures CropArea(q.x, q.y, q.width, q.height) == a
  {
    ExportRequest(a.x, a.y, a.width, a.height, 1.0, "image/png")
  }

  /** The first switch of `handleResizeHandleDrag`: a copy of the area whose fields are
      reassigned one by one for the named handle. */
  method ResizedCropArea(cropArea: CropArea, handleType: string, pos: Point) returns (newCropArea: CropArea)
    ensures newCropArea == Resized(cropArea, handleType, pos)
  {
    newCropArea := cropArea;
    if handleType == "bottom-right" {
      ResizeBottomRight(cropArea, pos);
      newCropArea := newCropArea.(width := Max(MIN_SIZE, Min(pos.x - cropArea.x, STAGE_WIDTH - cropArea.x)));
      newCropArea := newCropArea.(height := Max(MIN_SIZE, Min(pos.y - cropArea.y, STAGE_HEIGHT - cropArea.y)));
    } else if handleType == "bottom-left" {
      ResizeBottomLeft(cropArea, pos);
      var newX := Max(0.0, Min(pos.x, cropArea.x + cropArea.width - MIN_SIZE));
      newCropArea := newCropArea.(x := newX);
      newCropArea := newCropArea.(width := cropArea.x + cropArea.width - newX);
      newCropArea := newCropArea.(height := Max(MIN_SIZE, Min(pos.y - cropArea.y, STAGE_HEIGHT - cropArea.y)));
    } else if handleType == "top-right" {
      ResizeTopRight(cropArea, pos);
      var newY := Max(0.0, Min(pos.y, cropArea.y + cropArea.height - MIN_SIZE));
      newCropArea := newCropArea.(y := newY);
      newCropArea := newCropArea.(width := Max(MIN_SIZE, Min(pos.x - cropArea.x, STAGE_WIDTH - cropArea.x)));
      newCropArea := newCropArea.(height := cropArea.y + cropArea.height - newY);
    } else if handleType == "top-left" {
      ResizeTopLeft(cropArea, pos);
      var newXPos := Max(0.0, Min(pos.x, cropArea.x + cropArea.width - MIN_SIZE));
      var newYPos := Max(0.0, Min(pos.y, cropArea.y + cropArea.height - MIN_SIZE));
      newCropArea := newCropArea.(x := newXPos);
      newCropArea := newCropArea.(y := newYPos);
      newCropArea := newCropArea.(width := cropArea.x + cropArea.width - newXPos);
      newCropArea := newCropArea.(height := cropArea.y + cropArea.height - newYPos);
    }
  }

  /** A Konva node that the handlers reposition: the crop rectangle or a resize handle. */
  class KonvaNode {
    const name: string
    var x: real
    var y: real

    constructor (name: string, x: real, y: real)
      ensures this.name == name && this.x == x && this.y == y
    {
      this.name := name;
      this.x := x;
      this.y := y;
    }
  }

  /** The second switch of `handleResizeHandleDrag`: moves the handle onto its corner of
      the new area; a node with another name is left where it is. */
  method SnapHandle(handle: KonvaNode, newCropArea: CropArea)
    modifies handle`x, handle`y
    ensures ParseHandle(handle.name).Some? ==>
      Point(handle.x, handle.y) == CornerPoint(newCropArea, ParseHandle(handle.name).value)
    ensures ParseHandle(handle.name).None? ==> handle.x == old(handle.x) && handle.y == old(handle.y)
  {
    var handleType := handle.name;
    if handleType == "bottom-right" {
      handle.x, handle.y := newCropArea.x + newCropArea.width, newCropArea.y + newCropArea.height;
    } else if handleType == "bottom-left" {
      handle.x, handle.y := newCropArea.x, newCropArea.y + newCropArea.height;
    } else if handleType == "top-right" {
      handle.x, handle.y := newCropArea.x + newCropArea.width, newCropArea.y;
    } else if handleType == "top-left" {
      handle.x, handle.y := newCropArea.x, newCropArea.y;
    }
  }

  /** The crop component: its `cropArea` state and the handlers that change it. */
  class CropImageKonva {
    var cropArea: CropArea

    constructor ()
      ensures cropArea == CropArea(200.0, 100.0, 200.0, 200.0)
      ensures InStage(cropArea)
    {
      cropArea := CropArea(200.0, 100.0, 200.0, 200.0);
    }

    /** `handleRectDragMove`: clamps the dragged rectangle node into the stage, moves the
        node there and stores the new top-left corner. */
    method HandleRectDragMove(rect: KonvaNode)
      modifies this`cropArea, rect`x, rect`y
      ensures cropArea == DragMoved(old(cropArea), Point(old(rect.x), old(rect.y)))
      ensures rect.x == cropArea.x && rect.y == cropArea.y
      ensures InStage(old(cropArea)) ==> InStage(cropArea)
    {
      var newX := Max(0.0, Min(rect.x, STAGE_WIDTH - cropArea.width));
      var newY := Max(0.0, Min(rect.y, STAGE_HEIGHT - cropArea.height));
      rect.x := newX;
      rect.y := newY;
      cropArea := cropArea.(x := newX, y := newY);
    }

    /** `handleResizeHandleDrag`: recomputes the area for the dragged handle, keeping the
        opposite corner fixed, then snaps the handle onto its corner of the new area. */
    method HandleResizeHandleDrag(handle: KonvaNode)
      modifies this`cropArea, handle`x, handle`y
      ensures cropArea == Resized(old(cropArea), handle.name, Point(old(handle.x), old(handle.y)))
      ensures ParseHandle(handle.name).Some? ==>
        Point(handle.x, handle.y) == CornerPoint(cropArea, ParseHandle(handle.name).value)
      ensures ParseHandle(handle.name).None? ==> handle.x == old(handle.x) && handle.y == old(handle.y)
      ensures InStage(old(cropArea)) ==> InStage(cropArea)
    {
      var handleType := handle.name;
      var pos := Point(handle.x, handle.y);
      var newCropArea := ResizedCropArea(cropArea, handleType, pos);
      cropArea := newCropArea;
      SnapHandle(handle, newCropArea);
    }

    /** `cropImage`: without a mounted stage or a loaded image nothing happens; otherwise
        the region under the crop area is rasterised (by `toDataURL`, a foreign call) and
        its URL is stored in the editor state. */
    method CropImage(editor: EditorState, stageMounted: bool, imageLoaded: bool,
                     toDataURL: ExportRequest -> string)
      returns (r: EditorState)
      ensures !stageMounted || !imageLoaded ==> r == editor
      ensures stageMounted && imageLoaded ==>
        r == SetCroppedImgURL(editor, Some(toDataURL(ExportRequestFor(cropArea))))
    {
      if !stageMounted || !imageLoaded {
        return editor;
      }
      var dataURL := toDataURL(ExportRequestFor(cropArea));
      r := SetCroppedImgURL(editor, Some(dataURL));
    }
  }
}
