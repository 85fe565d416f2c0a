/** The per-shape renderers (src/components/markup-image/shapes/render-rectangle.tsx,
    render-arrow.tsx, render-circle.tsx and render-scalloped-rectangle.tsx).  Each keeps
    an `isDraggable` state and a transformer, both set by an effect that runs whenever
    the selection changes, and commits the drop position of a drag to the store. */
module ShapeRenderers {
  import opened Wrappers
  import opened KonvaImageEditor

  datatype Renderer = RectangleRenderer | ArrowRenderer | CircleRenderer | ScallopedRenderer

  /** The rectangle and scalloped renderers run their effect only for a shape with a
      (truthy) id; the arrow and circle renderers have no such guard. */
  predicate GuardsId(r: Renderer)
  {
    r == RectangleRenderer || r == ScallopedRenderer
  }

  /** What the selection effect does: `None` when its body does not run (a ref is not
      mounted yet, or the id guard fails), `Some(b)` when it makes the shape draggable
      and attaches it to the transformer exactly when `b`. */
  function SelectionEffect(r: Renderer, shapeId: Option<string>, selectedShapeId: Option<string>,
                           refsMounted: bool): (out: Option<bool>)
    ensures out.Some? <==> refsMounted && (GuardsId(r) ==> HasId(shapeId))
    ensures out.Some? ==> (out.value <==> selectedShapeId == shapeId)
  {
    if refsMounted && (GuardsId(r) ==> HasId(shapeId)) then Some(selectedShapeId == shapeId)
    else None
  }

  /** A rectangle or cloud without an id never changes its draggable state. */
  lemma GuardedRendererIgnoresIdlessShape(r: Renderer, selectedShapeId: Option<string>, refsMounted: bool)
    requires GuardsId(r)
    ensures SelectionEffect(r, None, selectedShapeId, refsMounted) == None
    ensures SelectionEffect(r, Some(""), selectedShapeId, refsMounted) == None
  {
  }

  /** Without the guard, an arrow or circle without an id counts as selected whenever
      nothing is selected (`undefined === undefined`). */
  lemma UnguardedIdlessShapeSelectedWhenNothingSelected(r: Renderer)
    requires !GuardsId(r)
    ensures SelectionEffect(r, None, None, true) == Some(true)
  {
  }

  /** The update `handleDragEnd` commits: keyed by the shape's id, the shape with `x` and
      `y` replaced by the drop position and every other attribute kept; no update at all
      for a shape without a (truthy) id. */
  function DragEndUpdate(shape: ShapeConfig, x: real, y: real): (u: Option<(string, ShapeConfig)>)
    ensures u.Some? <==> HasId(shape.id)
    ensures u.Some? ==> Some(u.value.0) == shape.id
    ensures u.Some? ==> u.value.1.x == x && u.value.1.y == y
    ensures u.Some? ==> u.value.1.(x := shape.x, y := shape.y) == shape
  {
    if HasId(shape.id) then Some((shape.id.value, shape.(x := x, y := y))) else None
  }

  /** The store after a drag of `shape` ends at `(x, y)`. */
  function DragEnd(editor: EditorState, shape: ShapeConfig, x: real, y: real): (r: EditorState)
    ensures !HasId(shape.id) ==> r == editor
    ensures HasId(shape.id) ==> r == UpdateShape(editor, shape.id.value, shape.(x := x, y := y))
  {
    match DragEndUpdate(shape, x, y)
    case None => editor
    case Some((id, moved)) => UpdateShape(editor, id, moved)
  }

  /** A drag end keeps the ids of all entries (the moved shape keeps its own id), so the
      ids stay unique. */
  lemma DragEndKeepsIdsUnique(editor: EditorState, shape: ShapeConfig, x: real, y: real)
    requires IdsUnique(editor.shapes)
    ensures IdsUnique(DragEnd(editor, shape, x, y).shapes)
  {
    if HasId(shape.id) {
      UpdateShapeKeepsIds(editor, shape.id.value, shape.(x := x, y := y));
    }
  }

  /** One mounted renderer: its shape prop, its `isDraggable` state and the nodes of its
      transformer. */
  class ShapeView {
    const renderer: Renderer
    const shape: ShapeConfig
    var isDraggable: bool
    var transformerNodes: seq<ShapeView>

    /** The `draggable` prop defaults to false, and a fresh transformer has no nodes. */
    constructor (renderer: Renderer, shape: ShapeConfig)
      ensures this.renderer == renderer && this.shape == shape
      ensures !isDraggable && transformerNodes == []
    {
      this.renderer := renderer;
      this.shape := shape;
      isDraggable := false;
      transformerNodes := [];
    }

    /** The selection effect: a selected shape is attached to its transformer and made
        draggable; any other is detached and made non-draggable. */
    method RunSelectionEffect(selectedShapeId: Option<string>, refsMounted: bool)
      modifies this`isDraggable, this`transformerNodes
      ensures SelectionEffect(renderer, shape.id, selectedShapeId, refsMounted).None? ==>
        isDraggable == old(isDraggable) && transformerNodes == old(transformerNodes)
      ensures SelectionEffect(renderer, shape.id, selectedShapeId, refsMounted).Some? ==>
        && isDraggable == (selectedShapeId == shape.id)
        && transformerNodes == if isDraggable then [this] else []
    {
      if refsMounted && (!GuardsId(renderer) || HasId(shape.id)) {
        if selectedShapeId == shape.id {
          transformerNodes := [this];
          isDraggable := true;
        } else {
          transformerNodes := [];
          isDraggable := false;
        }
      }
    }

    /** `handleDragEnd`: commits the drop position to the store when the shape has an id. */
    method HandleDragEnd(editor: EditorState, x: real, y: real) returns (r: EditorState)
      ensures r == DragEnd(editor, shape, x, y)
    {
      var updatedShape := shape.(x := x, y := y);
      r := editor;
      if HasId(shape.id) {
        r := UpdateShape(editor, shape.id.value, updatedShape);
      }
    }
  }
}
