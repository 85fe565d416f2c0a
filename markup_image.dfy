/** The markup screen (src/components/markup-image/index.tsx): toolbar actions that create
    shapes with fixed defaults, the stage-click selection rule, deleting the selected shape
    and the delete-key guard.  The handlers work by calling the store's setters in
    sequence, so the screen is a class whose `editor` field is the store value the setters
    replace. */
module Markup {
  import opened Wrappers
  import opened KonvaImageEditor
  import opened ShapeRenderers
  import opened ScallopedRectangle
  import opened RenderShape

  /** The key that deletes the selected shape. */
  const DELETE_KEY: string := "Backspace"

  /** The stroke settings the screen starts with. */
  const DEFAULT_STROKE_WIDTH: real := 4.0
  const DEFAULT_STROKE_COLOR: string := "#000000"

  // ---------------------------------------------------------------------------
  // Timestamp-derived ids

  /** The decimal digit character for `d`. */
  function Digit(d: nat): (c: char)
    requires d < 10
    ensures '0' <= c <= '9'
    ensures c as int - '0' as int == d
  {
    ('0' as int + d) as char
  }

  predicate AllDigits(s: string)
  {
    forall i :: 0 <= i < |s| ==> '0' <= s[i] <= '9'
  }

  /** How a template literal renders a non-negative integer such as `Date.now()`: its
      decimal digits, most significant first, without leading zeros. */
  function DecimalString(n: nat): (s: string)
    ensures 1 <= |s| && AllDigits(s)
    ensures |s| == 1 <==> n < 10
    ensures |s| > 1 ==> s[0] != '0'
    decreases n
  {
    if n < 10 then [Digit(n)] else DecimalString(n / 10) + [Digit(n % 10)]
  }

  /** The number a string of decimal digits denotes. */
  function DigitsValue(s: string): nat
    requires AllDigits(s)
  {
    if s == [] then 0
    else DigitsValue(s[..|s| - 1]) * 10 + (s[|s| - 1] as int - '0' as int)
  }

  /** Reading the rendered digits back gives the number. */
  lemma {:induction false} DecimalStringRoundTrip(n: nat)
    ensures DigitsValue(DecimalString(n)) == n
    decreases n
  {
    if n >= 10 {
      var s := DecimalString(n);
      assert s[..|s| - 1] == DecimalString(n / 10);
      DecimalStringRoundTrip(n / 10);
    }
  }

  /** The id prefix of each shape type. */
  function IdPrefix(k: ShapeKind): string
  {
    match k
    case Arrow => "arrow-"
    case Rectangle => "rectangle-"
    case Cloud => "cloud-"
  }

  /** The id a new shape of type `k` gets at time `now`: `${prefix}${Date.now()}`. */
  function ShapeId(k: ShapeKind, now: nat): (id: string)
    ensures |id| > |IdPrefix(k)| && id[..|IdPrefix(k)|] == IdPrefix(k)
    ensures id[|IdPrefix(k)|..] == DecimalString(now)
  {
    IdPrefix(k) + DecimalString(now)
  }

  /** The timestamp after prefix `k`, when `id` is that prefix followed by digits. */
  function StampAfter(id: string, k: ShapeKind): Option<nat>
  {
    var p := IdPrefix(k);
    if |p| < |id| && id[..|p|] == p && AllDigits(id[|p|..]) then Some(DigitsValue(id[|p|..]))
    else None
  }

  /** Recovers the type and the creation time from an id made by `ShapeId`. */
  function ParseShapeId(id: string): Option<(ShapeKind, nat)>
  {
    match StampAfter(id, Arrow)
    case Some(t) => Some((Arrow, t))
    case None =>
      match StampAfter(id, Rectangle)
      case Some(t) => Some((Rectangle, t))
      case None =>
        match StampAfter(id, Cloud)
        case Some(t) => Some((Cloud, t))
        case None => None
  }

  /** The digits after an id's own prefix are its timestamp. */
  lemma StampAfterOwnPrefix(k: ShapeKind, now: nat)
    ensures StampAfter(ShapeId(k, now), k) == Some(now)
  {
    DecimalStringRoundTrip(now);
  }

  /** An id does not start with the prefix of another type: the prefixes differ in their
      first letter. */
  lemma StampAfterOtherPrefix(k: ShapeKind, other: ShapeKind, now: nat)
    requires k != other
    ensures StampAfter(ShapeId(k, now), other) == None
  {
    var id, p := ShapeId(k, now), IdPrefix(other);
    assert id[0] == IdPrefix(k)[0] != p[0];
    if |p| < |id| {
      assert id[..|p|][0] != p[0];
    }
  }

  /** An id carries the type and the timestamp it was made from. */
  lemma ShapeIdRoundTrip(k: ShapeKind, now: nat)
    ensures ParseShapeId(ShapeId(k, now)) == Some((k, now))
  {
    StampAfterOwnPrefix(k, now);
    match k
    case Arrow =>
    case Rectangle =>
      StampAfterOtherPrefix(k, Arrow, now);
    case Cloud =>
      StampAfterOtherPrefix(k, Arrow, now);
      StampAfterOtherPrefix(k, Rectangle, now);
  }

  /** Shapes of different types, or created at different times, get different ids. */
  lemma ShapeIdInjective(k1: ShapeKind, t1: nat, k2: ShapeKind, t2: nat)
    requires k1 != k2 || t1 != t2
    ensures ShapeId(k1, t1) != ShapeId(k2, t2)
  {
    ShapeIdRoundTrip(k1, t1);
    ShapeIdRoundTrip(k2, t2);
  }

  /** Every entry carries an id made by `ShapeId` at a time before `now`. */
  predicate StampedBefore(shapes: seq<ShapeEntry>, now: nat)
  {
    forall e :: e in shapes ==>
      e.shape.id.Some? && ParseShapeId(e.shape.id.value).Some? && ParseShapeId(e.shape.id.value).value.1 < now
  }

  // ---------------------------------------------------------------------------
  // Creating shapes

  /** `handleAddArrow`'s shape: at (200, 250), pointing 100 right and 100 down, with
      20-pixel pointer, filled and stroked in the current colour. */
  function NewArrow(strokeColor: string, strokeWidth: real, now: nat): (e: ShapeEntry)
    ensures e.kind == Arrow && e.shape.id == Some(ShapeId(Arrow, now))
    ensures e.shape.x == 200.0 && e.shape.y == 250.0
    ensures e.shape.points == Some([0.0, 0.0, 100.0, 100.0])
    ensures e.shape.pointerLength == Some(20.0) && e.shape.pointerWidth == Some(20.0)
    ensures e.shape.fill == e.shape.stroke == Some(strokeColor)
    ensures e.shape.strokeWidth == Some(strokeWidth)
  {
    ShapeEntry(Arrow, ShapeConfig(Some(ShapeId(Arrow, now)), 200.0, 250.0, None, None,
      Some([0.0, 0.0, 100.0, 100.0]), Some(20.0), Some(20.0),
      Some(strokeColor), Some(strokeColor), Some(strokeWidth), None))
  }

  /** `handleAddRectangle`'s shape: a transparent 100×100 square at (100, 100) stroked in
      the current colour and width. */
  function NewRectangle(strokeColor: string, strokeWidth: real, now: nat): (e: ShapeEntry)
    ensures e.kind == Rectangle && e.shape.id == Some(ShapeId(Rectangle, now))
    ensures e.shape.x == 100.0 && e.shape.y == 100.0
    ensures e.shape.width == Some(100.0) && e.shape.height == Some(100.0)
    ensures e.shape.fill == Some("transparent")
    ensures e.shape.stroke == Some(strokeColor) && e.shape.strokeWidth == Some(strokeWidth)
  {
    ShapeEntry(Rectangle, ShapeConfig(Some(ShapeId(Rectangle, now)), 100.0, 100.0,
      Some(100.0), Some(100.0), None, None, None,
      Some("transparent"), Some(strokeColor), Some(strokeWidth), None))
  }

  /** `handleAddCloud`'s shape: a transparent 100×100 cloud at (10, 10) with 20 scallops
      per side. */
  function NewCloud(strokeColor: string, strokeWidth: real, now: nat): (e: ShapeEntry)
    ensures e.kind == Cloud && e.shape.id == Some(ShapeId(Cloud, now))
    ensures e.shape.x == 10.0 && e.shape.y == 10.0
    ensures e.shape.width == Some(100.0) && e.shape.height == Some(100.0)
    ensures e.shape.scallops == Some(20)
    ensures e.shape.fill == Some("transparent")
    ensures e.shape.stroke == Some(strokeColor) && e.shape.strokeWidth == Some(strokeWidth)
  {
    ShapeEntry(Cloud, ShapeConfig(Some(ShapeId(Cloud, now)), 10.0, 10.0,
      Some(100.0), Some(100.0), None, None, None,
      Some("transparent"), Some(strokeColor), Some(strokeWidth), Some(20)))
  }

  /** The shape a toolbar button creates. */
  function NewShape(k: ShapeKind, strokeColor: string, strokeWidth: real, now: nat): (e: ShapeEntry)
    ensures e.kind == k && e.shape.id == Some(ShapeId(k, now))
  {
    match k
    case Arrow => NewArrow(strokeColor, strokeWidth, now)
    case Rectangle => NewRectangle(strokeColor, strokeWidth, now)
    case Cloud => NewCloud(strokeColor, strokeWidth, now)
  }

  /** A shape created later than every existing one gets a fresh id, so creating shapes at
      increasing times keeps the ids unique and every id stamped before the next time. */
  lemma NewShapeKeepsIdsUnique(st: EditorState, k: ShapeKind, strokeColor: string, strokeWidth: real, now: nat)
    requires IdsUnique(st.shapes) && StampedBefore(st.shapes, now)
    ensures var r := AddShape(st, NewShape(k, strokeColor, strokeWidth, now)).shapes;
      IdsUnique(r) && StampedBefore(r, now + 1)
  {
    var e := NewShape(k, strokeColor, strokeWidth, now);
    ShapeIdRoundTrip(k, now);
    assert forall x :: x in st.shapes ==> x.shape.id != e.shape.id;
    AddShapeKeepsIdsUnique(st, e);
    var r := AddShape(st, e).shapes;
    forall x | x in r
      ensures x.shape.id.Some? && ParseShapeId(x.shape.id.value).Some?
      ensures ParseShapeId(x.shape.id.value).value.1 < now + 1
    {
      var i :| 0 <= i < |r| && r[i] == x;
      if i < |st.shapes| {
        assert x == st.shapes[i] && st.shapes[i] in st.shapes;
      }
    }
  }

  /** The outline of a new cloud: 20 scallops per side make 80 arcs of radius 1.25. */
  lemma NewCloudOutline(strokeColor: string, strokeWidth: real, now: nat)
    ensures var s := NewCloud(strokeColor, strokeWidth, now).shape;
      var p := ScallopPath(Dimension(s.width), Dimension(s.height), ScallopsPerSide(s.scallops));
      && ArcCount(p) == 80
      && forall a :: a in p && a.Arc? ==> a.radius == 1.25
  {
    ScallopArcCount(100.0, 100.0, 20);
    ScallopArcs(100.0, 100.0, 20);
  }

  // ---------------------------------------------------------------------------
  // Selection by click

  /** The Konva node a click lands on: the stage itself or a node with its class name,
      `name` attribute and `id()` (the empty string when the node has no id). */
  datatype ClickTarget = ClickTarget(isStage: bool, className: string, name: string, id: string)

  /** A Rect, an Arrow or a node named "ScallopedRectangle". */
  predicate IsShapeTarget(t: ClickTarget)
  {
    t.className == "Rect" || t.className == "Arrow" || t.name == "ScallopedRectangle"
  }

  /** The selection a click leaves: the clicked node's id when it is a Rect, an Arrow or a
      cloud, and nothing for any other target (the stage, the image, a circle). */
  function ClickSelection(t: ClickTarget): (sel: Option<string>)
    ensures sel.Some? <==> IsShapeTarget(t)
    ensures sel.Some? ==> sel.value == t.id
  {
    if IsShapeTarget(t) then Some(t.id) else None
  }

  /** The node a renderer draws for an entry: a Rect, an Arrow, or a custom Shape named
      "ScallopedRectangle" for a cloud. */
  function NodeOf(e: ShapeEntry): (t: ClickTarget)
    ensures IsShapeTarget(t) && !t.isStage
    ensures t.id == if e.shape.id.Some? then e.shape.id.value else ""
  {
    var id := if e.shape.id.Some? then e.shape.id.value else "";
    match e.kind
    case Rectangle => ClickTarget(false, "Rect", "", id)
    case Arrow => ClickTarget(false, "Arrow", "", id)
    case Cloud => ClickTarget(false, "Shape", "ScallopedRectangle", id)
  }

  /** Clicking the empty stage clears the selection. */
  lemma StageClickClearsSelection(t: ClickTarget)
    requires t.isStage && t.className == "Stage" && t.name == ""
    ensures ClickSelection(t) == None
  {
  }

  /** Clicking a drawn shape with an id makes exactly that shape interactive when the ids
      are unique: it alone becomes draggable and attached to its transformer. */
  lemma ClickSelectsExactlyThatShape(shapes: seq<ShapeEntry>, k: int)
    requires IdsUnique(shapes) && 0 <= k < |shapes| && HasId(shapes[k].shape.id)
    ensures forall i :: 0 <= i < |shapes| ==>
      (Interactive(shapes[i], ClickSelection(NodeOf(shapes[k]))) <==> i == k)
  {
    var sel := ClickSelection(NodeOf(shapes[k]));
    assert sel == shapes[k].shape.id;
    forall i | 0 <= i < |shapes|
      ensures Interactive(shapes[i], sel) <==> i == k
    {
      if i != k {
        assert shapes[i].shape.id != shapes[k].shape.id;
      }
    }
  }

  /** A transformer's resize and rotate anchors are Rect nodes without an id, so clicking
      one selects the empty id: the shape being transformed loses its handles, and only
      an id-less arrow could become interactive. */
  lemma AnchorClickDeselects(anchorName: string, e: ShapeEntry)
    ensures ClickSelection(ClickTarget(false, "Rect", anchorName, "")) == Some("")
    ensures Interactive(e, ClickSelection(ClickTarget(false, "Rect", anchorName, ""))) <==>
      e.kind == Arrow && e.shape.id == Some("")
  {
  }

  // ---------------------------------------------------------------------------
  // Deleting the selected shape

  /** `handleDeleteShape`: with a (truthy) selection, the selected shape is removed and the
      selection cleared; otherwise nothing changes. */
  function DeleteSelected(st: EditorState): (r: EditorState)
    ensures !HasId(st.selectedShapeId) ==> r == st
    ensures HasId(st.selectedShapeId) ==>
      && r.selectedShapeId == None
      && r.shapes == WithoutId(st.shapes, st.selectedShapeId.value)
      && (forall e :: e in r.shapes <==> e in st.shapes && e.shape.id != st.selectedShapeId)
    ensures r.croppedImgURL == st.croppedImgURL
  {
    if HasId(st.selectedShapeId) then
      SetSelectedShapeId(RemoveShape(st, st.selectedShapeId.value), None)
    else st
  }

  /** Adding a shape, clicking it and deleting it restores the shape list and leaves
      nothing selected. */
  lemma AddSelectDeleteRestores(st: EditorState, e: ShapeEntry)
    requires HasId(e.shape.id)
    requires forall x :: x in st.shapes ==> x.shape.id != e.shape.id
    ensures var r := DeleteSelected(SetSelectedShapeId(AddShape(st, e), ClickSelection(NodeOf(e))));
      r.shapes == st.shapes && r.selectedShapeId == None && r.croppedImgURL == st.croppedImgURL
  {
    AddThenRemove(st, e, e.shape.id.value);
  }

  /** A keydown event: the key and its target's tag name and editability. */
  datatype KeyEvent = KeyEvent(key: string, tagName: string, isContentEditable: bool)

  /** The keydown listener deletes only on Backspace, and never while typing in an input,
      a textarea or an editable element. */
  predicate IsDeleteKeyPress(ev: KeyEvent)
  {
    var isInput := ev.tagName == "INPUT" || ev.tagName == "TEXTAREA" || ev.isContentEditable;
    !isInput && ev.key == DELETE_KEY
  }

  /** The store after a keydown event. */
  function KeyDown(st: EditorState, ev: KeyEvent): (r: EditorState)
    ensures IsDeleteKeyPress(ev) ==> r == DeleteSelected(st)
    ensures ev.key != DELETE_KEY ==> r == st
    ensures ev.tagName == "INPUT" || ev.tagName == "TEXTAREA" || ev.isContentEditable ==> r == st
  {
    if IsDeleteKeyPress(ev) then DeleteSelected(st) else st
  }

  // ---------------------------------------------------------------------------
  // The screen

  /** The markup screen: the store value it reads and writes through the context, and its
      own stroke settings. */
  class MarkupImage {
    var editor: EditorState
    var strokeWidth: real
    var strokeColor: string

    /** The screen mounts on the current store with a 4-pixel black stroke. */
    constructor (editor: EditorState)
      ensures this.editor == editor
      ensures strokeWidth == DEFAULT_STROKE_WIDTH && strokeColor == DEFAULT_STROKE_COLOR
    {
      this.editor := editor;
      strokeWidth := DEFAULT_STROKE_WIDTH;
      strokeColor := DEFAULT_STROKE_COLOR;
    }

    /** The stroke-width input. */
    method SetStrokeWidth(w: real)
      modifies this`strokeWidth
      ensures strokeWidth == w
    {
      strokeWidth := w;
    }

    /** The colour input. */
    method SetStrokeColor(c: string)
      modifies this`strokeColor
      ensures strokeColor == c
    {
      strokeColor := c;
    }

    /** The arrow button, pressed at time `now`. */
    method HandleAddArrow(now: nat)
      modifies this`editor
      ensures editor == AddShape(old(editor), NewShape(Arrow, strokeColor, strokeWidth, now))
    {
      var newArrow := NewArrow(strokeColor, strokeWidth, now);
      editor := AddShape(editor, newArrow);
    }

    /** The rectangle button, pressed at time `now`. */
    method HandleAddRectangle(now: nat)
      modifies this`editor
      ensures editor == AddShape(old(editor), NewShape(Rectangle, strokeColor, strokeWidth, now))
    {
      var newRectangle := NewRectangle(strokeColor, strokeWidth, now);
      editor := AddShape(editor, newRectangle);
    }

    /** The cloud button, pressed at time `now`. */
    method HandleAddCloud(now: nat)
      modifies this`editor
      ensures editor == AddShape(old(editor), NewShape(Cloud, strokeColor, strokeWidth, now))
    {
      var newCloudRectangle := NewCloud(strokeColor, strokeWidth, now);
      editor := AddShape(editor, newCloudRectangle);
    }

    /** A click on the stage: the empty stage clears the selection, then any target other
        than a shape clears it, and a shape becomes the selection. */
    method HandleStageClick(target: ClickTarget)
      modifies this`editor
      ensures editor == SetSelectedShapeId(old(editor), ClickSelection(target))
    {
      if target.isStage {
        editor := SetSelectedShapeId(editor, None);
      }
      if target.className != "Rect" && target.className != "Arrow" && target.name != "ScallopedRectangle" {
        editor := SetSelectedShapeId(editor, None);
        return;
      }
      var clickedId := target.id;
      editor := SetSelectedShapeId(editor, Some(clickedId));
    }

    /** The delete action. */
    method HandleDeleteShape()
      modifies this`editor
      ensures editor == DeleteSelected(old(editor))
    {
      var selectedShapeId := editor.selectedShapeId;
      if selectedShapeId.Some? && selectedShapeId.value != "" {
        editor := RemoveShape(editor, selectedShapeId.value);
        editor := SetSelectedShapeId(editor, None);
      }
    }

    /** The window keydown listener. */
    method HandleKeyDown(event: KeyEvent)
      modifies this`editor
      ensures editor == KeyDown(old(editor), event)
    {
      var isInput := event.tagName == "INPUT" || event.tagName == "TEXTAREA" || event.isContentEditable;
      if !isInput && event.key == DELETE_KEY {
        HandleDeleteShape();
      }
    }

    /** The "Back to Crop Image screen" button clears the cropped image URL. */
    method BackToCrop()
      modifies this`editor
      ensures editor == SetCroppedImgURL(old(editor), None)
    {
      editor := SetCroppedImgURL(editor, None);
    }
  }
}
