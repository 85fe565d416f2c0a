/** The shape layer (src/components/markup-image/render-shape.tsx): the shape list is split
    by type into rectangles, arrows and clouds, and the groups are rendered one after the
    other, each entry by the renderer for its type. */
module RenderShape {
  import opened Wrappers
  import opened KonvaImageEditor
  import opened ShapeRenderers

  /** `shapes.filter((shape) => shape.type === kind)`. */
  function OfKind(shapes: seq<ShapeEntry>, kind: ShapeKind): (r: seq<ShapeEntry>)
    ensures |r| <= |shapes|
    ensures forall e :: e in r <==> e in shapes && e.kind == kind
  {
    if shapes == [] then []
    else if shapes[0].kind == kind then [shapes[0]] + OfKind(shapes[1..], kind)
    else OfKind(shapes[1..], kind)
  }

  /** The rendering order: every rectangle, then every arrow, then every cloud. */
  function RenderOrder(shapes: seq<ShapeEntry>): seq<ShapeEntry>
  {
    OfKind(shapes, Rectangle) + OfKind(shapes, Arrow) + OfKind(shapes, Cloud)
  }

  /** The component each group is rendered with; the circle renderer is used by none. */
  function RendererFor(kind: ShapeKind): Renderer
  {
    match kind
    case Rectangle => RectangleRenderer
    case Arrow => ArrowRenderer
    case Cloud => ScallopedRenderer
  }

  /** The position of a type's group in the rendering order. */
  function GroupRank(kind: ShapeKind): nat
  {
    match kind
    case Rectangle => 0
    case Arrow => 1
    case Cloud => 2
  }

  /** A group keeps list order: filtering distributes over concatenation. */
  lemma {:induction false} OfKindAppend(a: seq<ShapeEntry>, b: seq<ShapeEntry>, kind: ShapeKind)
    ensures OfKind(a + b, kind) == OfKind(a, kind) + OfKind(b, kind)
  {
    if a == [] {
      assert a + b == b;
    } else {
      assert (a + b)[1..] == a[1..] + b;
      OfKindAppend(a[1..], b, kind);
    }
  }

  /** Every shape is rendered exactly once: the three groups together are a permutation
      of the list, since the type enum has exactly these three values. */
  lemma {:induction false} RenderOrderIsPermutation(shapes: seq<ShapeEntry>)
    ensures multiset(RenderOrder(shapes)) == multiset(shapes)
  {
    if shapes != [] {
      var e, t := shapes[0], shapes[1..];
      RenderOrderIsPermutation(t);
      assert shapes == [e] + t;
      assert multiset(shapes) == multiset{e} + multiset(t);
      match e.kind
      case Rectangle =>
        assert OfKind(shapes, Rectangle) == [e] + OfKind(t, Rectangle);
      case Arrow =>
        assert OfKind(shapes, Arrow) == [e] + OfKind(t, Arrow);
      case Cloud =>
        assert OfKind(shapes, Cloud) == [e] + OfKind(t, Cloud);
    }
  }

  /** Render order depends on type, not on insertion: every rectangle precedes every
      arrow, and every arrow precedes every cloud. */
  lemma RenderOrderGrouped(shapes: seq<ShapeEntry>)
    ensures var r := RenderOrder(shapes);
      forall i, j :: 0 <= i < j < |r| ==> GroupRank(r[i].kind) <= GroupRank(r[j].kind)
  {
    var rects, arrows, clouds := OfKind(shapes, Rectangle), OfKind(shapes, Arrow), OfKind(shapes, Cloud);
    var r := RenderOrder(shapes);
    forall i | 0 <= i < |r|
      ensures GroupRank(r[i].kind) == if i < |rects| then 0 else if i < |rects| + |arrows| then 1 else 2
    {
      if i < |rects| {
        assert r[i] == rects[i] && rects[i] in rects;
      } else if i < |rects| + |arrows| {
        assert r[i] == arrows[i - |rects|] && arrows[i - |rects|] in arrows;
      } else {
        assert r[i] == clouds[i - |rects| - |arrows|] && clouds[i - |rects| - |arrows|] in clouds;
      }
    }
  }

  /** A shape is interactive (draggable and attached to its transformer) after its
      renderer's selection effect has run. */
  predicate Interactive(e: ShapeEntry, selectedShapeId: Option<string>)
  {
    SelectionEffect(RendererFor(e.kind), e.shape.id, selectedShapeId, true) == Some(true)
  }

  /** With unique ids, at most one rendered shape receives interactive handles. */
  lemma AtMostOneInteractive(shapes: seq<ShapeEntry>, selectedShapeId: Option<string>)
    requires IdsUnique(shapes)
    ensures forall i, j ::
      (0 <= i < |shapes| && 0 <= j < |shapes| &&
       Interactive(shapes[i], selectedShapeId) && Interactive(shapes[j], selectedShapeId)) ==> i == j
  {
    forall i, j | 0 <= i < |shapes| && 0 <= j < |shapes| &&
      Interactive(shapes[i], selectedShapeId) && Interactive(shapes[j], selectedShapeId)
      ensures i == j
    {
      assert shapes[i].shape.id == selectedShapeId == shapes[j].shape.id;
    }
  }
}
