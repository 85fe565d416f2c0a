/** The cloud shape (src/components/markup-image/shapes/render-scalloped-rectangle.tsx):
    a rectangle whose border is drawn as a row of outward half-circles on each edge.
    Its `sceneFunc` issues canvas commands in sequence; here each command becomes a
    record appended to the path, and angles are integer multiples of π/2. */
module ScallopedRectangle {
  import opened Wrappers
  import opened KonvaImageEditor
  import opened RealMath

  /** A command issued on the canvas context.  `Arc` angles are in units of π/2; the
      canvas y axis points down, so with `anticlockwise` false an arc sweeps from
      `startAngle` towards increasing angles. */
  datatype PathCommand =
    | BeginPath
    | MoveTo(x: real, y: real)
    | Arc(cx: real, cy: real, radius: real, startAngle: int, endAngle: int, anticlockwise: bool)
    | ClosePath
    | FillStrokeShape

  datatype Edge = Top | Right | Bottom | Left

  /** How often each loop of `sceneFunc` runs: `for (i = 0; i < n; i++)` and
      `for (i = n - 1; i >= 0; i--)` both run max(n, 0) times. */
  function Count(n: int): nat
  {
    if n > 0 then n else 0
  }

  /** `shapeInfo.width || 0`: an absent dimension counts as 0. */
  function Dimension(d: Option<real>): real
  {
    match d
    case Some(v) => v
    case None => 0.0
  }

  /** `shapeInfo.scallops`: an absent count makes every loop guard false, as 0 does. */
  function ScallopsPerSide(s: Option<int>): int
  {
    match s
    case Some(n) => n
    case None => 0
  }

  /** The scallop radius `min(width, height) / (4 · scallops)`. */
  function Radius(w: real, h: real, n: int): real
    requires n > 0
  {
    Min(w, h) / (n as real * 4.0)
  }

  /** The centre of the i-th of n equal segments of `[0, len]`. */
  function SegmentCentre(len: real, n: int, i: int): real
    requires n > 0
  {
    var step := len / n as real;
    i as real * step + step / 2.0
  }

  /** The k-th arc drawn along edge `e`, with k counted in drawing order: the top and
      right edges are walked with ascending segment index, the bottom and left edges with
      descending index, so the path runs clockwise round the rectangle. */
  function EdgeArc(e: Edge, w: real, h: real, n: int, k: int): PathCommand
    requires 0 <= k < n
  {
    var r := Radius(w, h, n);
    match e
    case Top => Arc(SegmentCentre(w, n, k), 0.0, r, 2, 0, false)
    case Right => Arc(w, SegmentCentre(h, n, k), r, 3, 1, false)
    case Bottom => Arc(SegmentCentre(w, n, n - 1 - k), h, r, 0, 2, false)
    case Left => Arc(0.0, SegmentCentre(h, n, n - 1 - k), r, 1, 3, false)
  }

  /** All the arcs of one edge, in drawing order. */
  function EdgeArcs(e: Edge, w: real, h: real, n: int): (arcs: seq<PathCommand>)
    ensures |arcs| == Count(n)
  {
    seq(Count(n), k requires 0 <= k < Count(n) => EdgeArc(e, w, h, n, k))
  }

  /** The whole path of a w×h cloud with n scallops per side. */
  function ScallopPath(w: real, h: real, n: int): seq<PathCommand>
  {
    [BeginPath, MoveTo(0.0, 0.0)]
      + EdgeArcs(Top, w, h, n) + EdgeArcs(Right, w, h, n)
      + EdgeArcs(Bottom, w, h, n) + EdgeArcs(Left, w, h, n)
      + [ClosePath, FillStrokeShape]
  }

  /** The top-edge loop of `sceneFunc`: for i ascending, a half-circle centred on the
      top edge sweeping from π to 0. */
  method DrawTopEdge(path0: seq<PathCommand>, width: real, height: real, n: int, radius: real)
    returns (path: seq<PathCommand>)
    requires n > 0 ==> radius == Radius(width, height, n)
    ensures path == path0 + EdgeArcs(Top, width, height, n)
  {
    path := path0;
    ghost var top := EdgeArcs(Top, width, height, n);
    var topStepSize := if n > 0 then width / n as real else 0.0;
    var i := 0;
    while i < n
      invariant 0 <= i <= Count(n)
      invariant path == path0 + top[..i]
    {
      var centerX := i as real * topStepSize + topStepSize / 2.0;
      assert top[i] == Arc(centerX, 0.0, radius, 2, 0, false);
      path := path + [Arc(centerX, 0.0, radius, 2, 0, false)];
      assert top[..i + 1] == top[..i] + [top[i]];
      i := i + 1;
    }
    assert top[..i] == top;
  }

  /** The right-edge loop: for i ascending, a half-circle centred on the right edge
      sweeping from 1.5π to 0.5π. */
  method DrawRightEdge(path0: seq<PathCommand>, width: real, height: real, n: int, radius: real)
    returns (path: seq<PathCommand>)
    requires n > 0 ==> radius == Radius(width, height, n)
    ensures path == path0 + EdgeArcs(Right, width, height, n)
  {
    path := path0;
    ghost var right := EdgeArcs(Right, width, height, n);
    var rightStepSize := if n > 0 then height / n as real else 0.0;
    var i := 0;
    while i < n
      invariant 0 <= i <= Count(n)
      invariant path == path0 + right[..i]
    {
      var centerY := i as real * rightStepSize + rightStepSize / 2.0;
      assert right[i] == Arc(width, centerY, radius, 3, 1, false);
      path := path + [Arc(width, centerY, radius, 3, 1, false)];
      assert right[..i + 1] == right[..i] + [right[i]];
      i := i + 1;
    }
    assert right[..i] == right;
  }

  /** The bottom-edge loop: for i descending, a half-circle centred on the bottom edge
      sweeping from 0 to π. */
  method DrawBottomEdge(path0: seq<PathCommand>, width: real, height: real, n: int, radius: real)
    returns (path: seq<PathCommand>)
    requires n > 0 ==> radius == Radius(width, height, n)
    ensures path == path0 + EdgeArcs(Bottom, width, height, n)
  {
    path := path0;
    ghost var bottom := EdgeArcs(Bottom, width, height, n);
    var bottomStepSize := if n > 0 then width / n as real else 0.0;
    var i := n - 1;
    while i >= 0
      invariant n > 0 ==> -1 <= i < n
      invariant n <= 0 ==> i == n - 1
      invariant path == path0 + bottom[..if n > 0 then n - 1 - i else 0]
    {
      var centerX := i as real * bottomStepSize + bottomStepSize / 2.0;
      assert bottom[n - 1 - i] == Arc(centerX, height, radius, 0, 2, false);
      path := path + [Arc(centerX, height, radius, 0, 2, false)];
      assert bottom[..n - i] == bottom[..n - 1 - i] + [bottom[n - 1 - i]];
      i := i - 1;
    }
    assert bottom[..if n > 0 then n - 1 - i else 0] == bottom;
  }

  /** The left-edge loop: for i descending, a half-circle centred on the left edge
      sweeping from 0.5π to 1.5π. */
  method DrawLeftEdge(path0: seq<PathCommand>, width: real, height: real, n: int, radius: real)
    returns (path: seq<PathCommand>)
    requires n > 0 ==> radius == Radius(width, height, n)
    ensures path == path0 + EdgeArcs(Left, width, height, n)
  {
    path := path0;
    ghost var left := EdgeArcs(Left, width, height, n);
    var leftStepSize := if n > 0 then height / n as real else 0.0;
    var i := n - 1;
    while i >= 0
      invariant n > 0 ==> -1 <= i < n
      invariant n <= 0 ==> i == n - 1
      invariant path == path0 + left[..if n > 0 then n - 1 - i else 0]
    {
      var centerY := i as real * leftStepSize + leftStepSize / 2.0;
      assert left[n - 1 - i] == Arc(0.0, centerY, radius, 1, 3, false);
      path := path + [Arc(0.0, centerY, radius, 1, 3, false)];
      assert left[..n - i] == left[..n - 1 - i] + [left[n - 1 - i]];
      i := i - 1;
    }
    assert left[..if n > 0 then n - 1 - i else 0] == left;
  }

  /** `sceneFunc`: begins a path at the origin, draws the four edges clockwise (one loop
      per edge, above), then closes, fills and strokes it. */
  method SceneFunc(shapeInfo: ShapeConfig) returns (path: seq<PathCommand>)
    ensures path == ScallopPath(Dimension(shapeInfo.width), Dimension(shapeInfo.height),
                                ScallopsPerSide(shapeInfo.scallops))
  {
    var scallopsPerSide := ScallopsPerSide(shapeInfo.scallops);
    var width := Dimension(shapeInfo.width);
    var height := Dimension(shapeInfo.height);
    var radius := if scallopsPerSide > 0
      then Min(width, height) / (scallopsPerSide as real * 4.0) else 0.0;

    path := [BeginPath];
    path := path + [MoveTo(0.0, 0.0)];
    path := DrawTopEdge(path, width, height, scallopsPerSide, radius);
    path := DrawRightEdge(path, width, height, scallopsPerSide, radius);
    path := DrawBottomEdge(path, width, height, scallopsPerSide, radius);
    path := DrawLeftEdge(path, width, height, scallopsPerSide, radius);
    path := path + [ClosePath];
    path := path + [FillStrokeShape];
  }

  // ---------------------------------------------------------------------------
  // Properties of the path

  /** The number of arc commands in a path. */
  function ArcCount(p: seq<PathCommand>): nat
  {
    if p == [] then 0 else (if p[0].Arc? then 1 else 0) + ArcCount(p[1..])
  }

  lemma {:induction false} ArcCountAppend(a: seq<PathCommand>, b: seq<PathCommand>)
    ensures ArcCount(a + b) == ArcCount(a) + ArcCount(b)
  {
    if a == [] {
      assert a + b == b;
    } else {
      assert (a + b)[1..] == a[1..] + b;
      ArcCountAppend(a[1..], b);
    }
  }

  lemma {:induction false} ArcCountAllArcs(p: seq<PathCommand>)
    requires forall i :: 0 <= i < |p| ==> p[i].Arc?
    ensures ArcCount(p) == |p|
  {
    if p != [] {
      ArcCountAllArcs(p[1..]);
    }
  }

  /** The path is: begin, move to the origin, the top, right, bottom and left arcs in
      drawing order, close, fill and stroke. */
  lemma ScallopPathLayout(w: real, h: real, n: int)
    ensures var p, c := ScallopPath(w, h, n), Count(n);
      && |p| == 4 * c + 4
      && p[0] == BeginPath && p[1] == MoveTo(0.0, 0.0)
      && p[4 * c + 2] == ClosePath && p[4 * c + 3] == FillStrokeShape
    ensures var p, c := ScallopPath(w, h, n), Count(n);
      forall k :: 0 <= k < c ==> p[2 + k] == EdgeArc(Top, w, h, n, k)
    ensures var p, c := ScallopPath(w, h, n), Count(n);
      forall k :: 0 <= k < c ==> p[2 + c + k] == EdgeArc(Right, w, h, n, k)
    ensures var p, c := ScallopPath(w, h, n), Count(n);
      forall k :: 0 <= k < c ==> p[2 + 2 * c + k] == EdgeArc(Bottom, w, h, n, k)
    ensures var p, c := ScallopPath(w, h, n), Count(n);
      forall k :: 0 <= k < c ==> p[2 + 3 * c + k] == EdgeArc(Left, w, h, n, k)
  {
    var c := Count(n);
    var top, right := EdgeArcs(Top, w, h, n), EdgeArcs(Right, w, h, n);
    var bottom, left := EdgeArcs(Bottom, w, h, n), EdgeArcs(Left, w, h, n);
    var p1 := [BeginPath, MoveTo(0.0, 0.0)] + top;
    var p2 := p1 + right;
    var p3 := p2 + bottom;
    var p4 := p3 + left;
    var p := ScallopPath(w, h, n);
    assert p == p4 + [ClosePath, FillStrokeShape];
    assert |p1| == 2 + c && |p2| == 2 + 2 * c && |p3| == 2 + 3 * c && |p4| == 2 + 4 * c;
    assert p4[..|p3|] == p3 && p4[..|p2|] == p2 && p4[..|p1|] == p1 by {
      assert p3[..|p2|] == p2 && p2[..|p1|] == p1;
    }
    PieceAt(p, p4, [BeginPath, MoveTo(0.0, 0.0)], top, 2);
    PieceAt(p, p4, p1, right, 2 + c);
    PieceAt(p, p4, p2, bottom, 2 + 2 * c);
    PieceAt(p, p4, p3, left, 2 + 3 * c);
    forall k | 0 <= k < c ensures p[2 + k] == EdgeArc(Top, w, h, n, k) {
      assert p[2 + k] == top[k];
    }
    forall k | 0 <= k < c ensures p[2 + c + k] == EdgeArc(Right, w, h, n, k) {
      assert p[2 + c + k] == right[k];
    }
    forall k | 0 <= k < c ensures p[2 + 2 * c + k] == EdgeArc(Bottom, w, h, n, k) {
      assert p[2 + 2 * c + k] == bottom[k];
    }
    forall k | 0 <= k < c ensures p[2 + 3 * c + k] == EdgeArc(Left, w, h, n, k) {
      assert p[2 + 3 * c + k] == left[k];
    }
  }

  /** When `p` extends `q` and `q` starts with `pre + piece`, the k-th command of the
      piece sits at position `|pre| + k` of `p`. */
  lemma PieceAt(p: seq<PathCommand>, q: seq<PathCommand>, pre: seq<PathCommand>, piece: seq<PathCommand>,
                at: int)
    requires |q| <= |p| && p[..|q|] == q
    requires |pre| + |piece| <= |q| && q[..|pre| + |piece|] == pre + piece
    requires at == |pre|
    ensures forall k :: 0 <= k < |piece| ==> p[at + k] == piece[k]
  {
    forall k | 0 <= k < |piece| ensures p[at + k] == piece[k] {
      assert p[at + k] == q[at + k] == (pre + piece)[at + k];
    }
  }

  /** A path of n scallops per side has exactly 4·n arcs (none when n ≤ 0). */
  lemma ScallopArcCount(w: real, h: real, n: int)
    ensures ArcCount(ScallopPath(w, h, n)) == 4 * Count(n)
  {
    var top, right := EdgeArcs(Top, w, h, n), EdgeArcs(Right, w, h, n);
    var bottom, left := EdgeArcs(Bottom, w, h, n), EdgeArcs(Left, w, h, n);
    var head, tail := [BeginPath, MoveTo(0.0, 0.0)], [ClosePath, FillStrokeShape];
    var p1 := head + top;
    var p2 := p1 + right;
    var p3 := p2 + bottom;
    var p4 := p3 + left;
    assert ArcCount(head) == 0 by {
      assert head[1..] == [MoveTo(0.0, 0.0)] && head[1..][1..] == [];
    }
    assert ArcCount(tail) == 0 by {
      assert tail[1..] == [FillStrokeShape] && tail[1..][1..] == [];
    }
    ArcCountAllArcs(top);
    ArcCountAllArcs(right);
    ArcCountAllArcs(bottom);
    ArcCountAllArcs(left);
    ArcCountAppend(head, top);
    ArcCountAppend(p1, right);
    ArcCountAppend(p2, bottom);
    ArcCountAppend(p3, left);
    ArcCountAppend(p4, tail);
  }

  /** The centre of each of n segments of `[0, len]` lies in `[0, len]`. */
  lemma SegmentCentreBounds(len: real, n: int, j: int)
    requires n > 0 && 0 <= j < n && 0.0 <= len
    ensures 0.0 <= SegmentCentre(len, n, j) <= len
  {
    var step := len / n as real;
    assert step * n as real == len;
    assert 0.0 <= step;
    var before, after := j as real, (n - 1 - j) as real;
    MulNonNegative(before, step);
    MulNonNegative(after, step);
    assert before * step + after * step + step == len by {
      assert before + after + 1.0 == n as real;
    }
    assert SegmentCentre(len, n, j) == before * step + step / 2.0;
  }

  /** The arc sweeps half a turn clockwise (`anticlockwise` false, end = start + π). */
  predicate SweepsHalfTurnClockwise(a: PathCommand)
    requires a.Arc?
  {
    !a.anticlockwise && (a.endAngle - a.startAngle) % 4 == 2
  }

  /** The direction of the middle of a clockwise half-turn arc, in units of π/2. */
  function BulgeDirection(a: PathCommand): int
    requires a.Arc?
  {
    (a.startAngle + 1) % 4
  }

  /** The arc's middle points away from the side of the w×h rectangle its centre lies on:
      up (3) from the top edge, right (0) from the right edge, down (1) from the bottom
      edge, left (2) from the left edge. */
  predicate BulgesOutward(a: PathCommand, w: real, h: real)
    requires a.Arc?
  {
    match BulgeDirection(a)
    case 0 => a.cx == w
    case 1 => a.cy == h
    case 2 => a.cx == 0.0
    case _ => a.cy == 0.0
  }

  predicate CentreInside(a: PathCommand, w: real, h: real)
    requires a.Arc?
  {
    0.0 <= a.cx <= w && 0.0 <= a.cy <= h
  }

  lemma EdgeArcGeometry(e: Edge, w: real, h: real, n: int, k: int)
    requires 0 <= k < n
    ensures var a := EdgeArc(e, w, h, n, k);
      && a.Arc? && a.radius == Radius(w, h, n)
      && SweepsHalfTurnClockwise(a) && BulgesOutward(a, w, h)
      && (0.0 <= w && 0.0 <= h ==> CentreInside(a, w, h))
  {
    if 0.0 <= w && 0.0 <= h {
      SegmentCentreBounds(w, n, k);
      SegmentCentreBounds(h, n, k);
      SegmentCentreBounds(w, n, n - 1 - k);
      SegmentCentreBounds(h, n, n - 1 - k);
    }
  }

  /** What every arc of an n-scallop outline of a w×h rectangle satisfies: radius
      `min(w, h) / (4·n)`, half a turn clockwise, bulging outward, and for a rectangle of
      non-negative size a centre in `[0, w] × [0, h]`. */
  predicate ScallopArc(a: PathCommand, w: real, h: real, n: int)
  {
    && a.Arc? && n > 0 && a.radius == Radius(w, h, n)
    && SweepsHalfTurnClockwise(a) && BulgesOutward(a, w, h)
    && (0.0 <= w && 0.0 <= h ==> CentreInside(a, w, h))
  }

  /** Every arc one edge contributes is a scallop of the outline. */
  lemma EdgeArcsGeometry(e: Edge, w: real, h: real, n: int)
    ensures forall a :: a in EdgeArcs(e, w, h, n) ==> ScallopArc(a, w, h, n)
  {
    var arcs := EdgeArcs(e, w, h, n);
    forall a | a in arcs ensures ScallopArc(a, w, h, n) {
      var k :| 0 <= k < |arcs| && arcs[k] == a;
      EdgeArcGeometry(e, w, h, n, k);
    }
  }

  /** Every arc of the path has radius `min(w, h) / (4·n)`, sweeps half a turn clockwise
      and bulges outward; for a rectangle of non-negative size every centre lies in
      `[0, w] × [0, h]`. */
  lemma ScallopArcs(w: real, h: real, n: int)
    ensures forall a :: a in ScallopPath(w, h, n) && a.Arc? ==> ScallopArc(a, w, h, n)
  {
    EdgeArcsGeometry(Top, w, h, n);
    EdgeArcsGeometry(Right, w, h, n);
    EdgeArcsGeometry(Bottom, w, h, n);
    EdgeArcsGeometry(Left, w, h, n);
  }
}
