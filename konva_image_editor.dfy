/** The editor state shared by the crop and markup screens (the React context of
    src/contexts/konva-image-editor.tsx): the cropped image URL, the ordered list of
    typed shapes and the id of the selected shape.  Every operation of the provider is
    a functional updater of the previous state, so the store is a record updated by
    pure functions. */
module KonvaImageEditor {
  import opened Wrappers

  /** The three values of the `IEKonvaShapeType` enum ("rectangle", "arrow", "cloud"). */
  datatype ShapeKind = Rectangle | Arrow | Cloud

  /** A Konva shape configuration (`Konva.RectConfig | Konva.ArrowConfig`, plus the
      `scallops` count of a cloud).  Konva configurations are loose records, so every
      attribute that some shape leaves out is optional. */
  datatype ShapeConfig = ShapeConfig(
    id: Option<string>,
    x: real,
    y: real,
    width: Option<real>,
    height: Option<real>,
    points: Option<seq<real>>,
    pointerLength: Option<real>,
    pointerWidth: Option<real>,
    fill: Option<string>,
    stroke: Option<string>,
    strokeWidth: Option<real>,
    scallops: Option<int>)

  /** `IEKonvaShapeWithType`: one entry of the shape list. */
  datatype ShapeEntry = ShapeEntry(kind: ShapeKind, shape: ShapeConfig)

  /** The value of the context. */
  datatype EditorState = EditorState(
    croppedImgURL: Option<string>,
    shapes: seq<ShapeEntry>,
    selectedShapeId: Option<string>)

  /** JavaScript truthiness of an optional id: present and not the empty string. */
  predicate HasId(id: Option<string>)
  {
    id.Some? && id.value != ""
  }

  /** No two entries carry the same id (created shapes get timestamp-derived ids). */
  predicate IdsUnique(shapes: seq<ShapeEntry>)
  {
    forall i, j :: 0 <= i < j < |shapes| ==> shapes[i].shape.id != shapes[j].shape.id
  }

  /** The state the provider starts with: nothing selected, no cropped image, no shapes. */
  function InitialState(): (st: EditorState)
    ensures st.selectedShapeId.None? && st.croppedImgURL.None? && |st.shapes| == 0
  {
    EditorState(None, [], None)
  }

  /** `setSelectedShapeId`: replaces the selection and nothing else. */
  function SetSelectedShapeId(st: EditorState, id: Option<string>): (r: EditorState)
    ensures r.selectedShapeId == id
    ensures r.shapes == st.shapes && r.croppedImgURL == st.croppedImgURL
  {
    st.(selectedShapeId := id)
  }

  /** `setCroppedImgURL`: replaces the cropped image URL and nothing else. */
  function SetCroppedImgURL(st: EditorState, url: Option<string>): (r: EditorState)
    ensures r.croppedImgURL == url
    ensures r.shapes == st.shapes && r.selectedShapeId == st.selectedShapeId
  {
    st.(croppedImgURL := url)
  }

  /** `addShape`: the new entry goes to the end; every earlier entry keeps its place. */
  function AddShape(st: EditorState, e: ShapeEntry): (r: EditorState)
    ensures |r.shapes| == |st.shapes| + 1
    ensures r.shapes[..|st.shapes|] == st.shapes && r.shapes[|st.shapes|] == e
    ensures r.selectedShapeId == st.selectedShapeId && r.croppedImgURL == st.croppedImgURL
  {
    st.(shapes := st.shapes + [e])
  }

  /** The `map` of `updateShape`: every entry whose shape id is `id` gets payload `s`
      and keeps its type; every other entry is left as it was. */
  function ReplaceById(shapes: seq<ShapeEntry>, id: string, s: ShapeConfig): (r: seq<ShapeEntry>)
    ensures |r| == |shapes|
    ensures forall i :: 0 <= i < |r| ==> r[i].kind == shapes[i].kind
    ensures forall i :: 0 <= i < |r| && shapes[i].shape.id == Some(id) ==> r[i].shape == s
    ensures forall i :: 0 <= i < |r| && shapes[i].shape.id != Some(id) ==> r[i] == shapes[i]
  {
    if shapes == [] then []
    else
      var head := if shapes[0].shape.id == Some(id) then shapes[0].(shape := s) else shapes[0];
      [head] + ReplaceById(shapes[1..], id, s)
  }

  /** `updateShape`: replaces the payload of the entries with that id; the selection and
      the cropped image are untouched. */
  function UpdateShape(st: EditorState, id: string, s: ShapeConfig): (r: EditorState)
    ensures r.shapes == ReplaceById(st.shapes, id, s)
    ensures r.selectedShapeId == st.selectedShapeId && r.croppedImgURL == st.croppedImgURL
  {
    st.(shapes := ReplaceById(st.shapes, id, s))
  }

  /** The `filter` of `removeShape`: the entries whose shape id differs from `id`. */
  function WithoutId(shapes: seq<ShapeEntry>, id: string): (r: seq<ShapeEntry>)
    ensures |r| <= |shapes|
    ensures forall e :: e in r <==> e in shapes && e.shape.id != Some(id)
  {
    if shapes == [] then []
    else if shapes[0].shape.id != Some(id) then [shapes[0]] + WithoutId(shapes[1..], id)
    else WithoutId(shapes[1..], id)
  }

  /** `removeShape`: drops the entries with that id; the selection and the cropped image
      are untouched (the caller clears the selection itself). */
  function RemoveShape(st: EditorState, id: string): (r: EditorState)
    ensures r.shapes == WithoutId(st.shapes, id)
    ensures forall e :: e in r.shapes ==> e.shape.id != Some(id)
    ensures r.selectedShapeId == st.selectedShapeId && r.croppedImgURL == st.croppedImgURL
  {
    st.(shapes := WithoutId(st.shapes, id))
  }

  /** `resetShapes`: the list becomes empty and nothing else changes. */
  function ResetShapes(st: EditorState): (r: EditorState)
    ensures |r.shapes| == 0
    ensures r.selectedShapeId == st.selectedShapeId && r.croppedImgURL == st.croppedImgURL
  {
    st.(shapes := [])
  }

  /** `useKonvaImageEditor`: reading the context outside a provider throws. */
  function UseKonvaImageEditor(context: Option<EditorState>): (r: Result<EditorState, string>)
    ensures r.Success? <==> context.Some?
    ensures r.Success? ==> r.value == context.value
    ensures r.Failure? ==> r.error == "useKonvaImageEditor must be used within a KonvaImageEditorProvider"
  {
    match context
    case None => Failure("useKonvaImageEditor must be used within a KonvaImageEditorProvider")
    case Some(c) => Success(c)
  }

  // ---------------------------------------------------------------------------
  // Properties of the list operations

  /** Filtering distributes over concatenation: `removeShape` keeps the survivors in
      their original order. */
  lemma {:induction false} WithoutIdAppend(a: seq<ShapeEntry>, b: seq<ShapeEntry>, id: string)
    ensures WithoutId(a + b, id) == WithoutId(a, id) + WithoutId(b, id)
  {
    if a == [] {
      assert a + b == b;
    } else {
      assert (a + b)[1..] == a[1..] + b;
      WithoutIdAppend(a[1..], b, id);
    }
  }

  /** Removing an id that no entry carries leaves the list as it was. */
  lemma {:induction false} WithoutIdAbsent(shapes: seq<ShapeEntry>, id: string)
    requires forall e :: e in shapes ==> e.shape.id != Some(id)
    ensures WithoutId(shapes, id) == shapes
  {
    if shapes != [] {
      assert shapes[0] in shapes;
      assert forall e :: e in shapes[1..] ==> e in shapes;
      WithoutIdAbsent(shapes[1..], id);
      assert shapes == [shapes[0]] + shapes[1..];
    }
  }

  /** The number of entries whose shape id is `id`. */
  function CountId(shapes: seq<ShapeEntry>, id: string): (n: nat)
    ensures n <= |shapes|
  {
    if shapes == [] then 0
    else (if shapes[0].shape.id == Some(id) then 1 else 0) + CountId(shapes[1..], id)
  }

  /** Removing an id leaves exactly the other entries: their number is the original
      length minus the number of entries with that id. */
  lemma {:induction false} WithoutIdLength(shapes: seq<ShapeEntry>, id: string)
    ensures |WithoutId(shapes, id)| == |shapes| - CountId(shapes, id)
  {
    if shapes != [] {
      WithoutIdLength(shapes[1..], id);
    }
  }

  /** `updateShape` with an id that no entry carries leaves the list as it was. */
  lemma ReplaceByIdAbsent(shapes: seq<ShapeEntry>, id: string, s: ShapeConfig)
    requires forall e :: e in shapes ==> e.shape.id != Some(id)
    ensures ReplaceById(shapes, id, s) == shapes
  {
    var r := ReplaceById(shapes, id, s);
    forall i | 0 <= i < |shapes| ensures r[i] == shapes[i] {
      assert shapes[i] in shapes;
    }
  }

  /** `addShape(e)` then `removeShape(id of e)` restores the state when no entry carried
      that id before. */
  lemma AddThenRemove(st: EditorState, e: ShapeEntry, id: string)
    requires e.shape.id == Some(id)
    requires forall x :: x in st.shapes ==> x.shape.id != Some(id)
    ensures RemoveShape(AddShape(st, e), id) == st
  {
    WithoutIdAppend(st.shapes, [e], id);
    WithoutIdAbsent(st.shapes, id);
    assert WithoutId([e], id) == [];
  }

  /** Adding an entry whose id is fresh keeps the ids unique. */
  lemma AddShapeKeepsIdsUnique(st: EditorState, e: ShapeEntry)
    requires IdsUnique(st.shapes)
    requires forall x :: x in st.shapes ==> x.shape.id != e.shape.id
    ensures IdsUnique(AddShape(st, e).shapes)
  {
    var r := AddShape(st, e).shapes;
    forall i, j | 0 <= i < j < |r| ensures r[i].shape.id != r[j].shape.id {
      if j == |st.shapes| {
        assert r[i] == st.shapes[i] && st.shapes[i] in st.shapes;
      } else {
        assert r[i] == st.shapes[i] && r[j] == st.shapes[j];
      }
    }
  }

  /** An update that keeps the id of the shape (as every drag end does) keeps the ids of
      all entries, hence their uniqueness. */
  lemma UpdateShapeKeepsIds(st: EditorState, id: string, s: ShapeConfig)
    requires s.id == Some(id)
    ensures forall i :: 0 <= i < |st.shapes| ==>
      UpdateShape(st, id, s).shapes[i].shape.id == st.shapes[i].shape.id
    ensures IdsUnique(st.shapes) ==> IdsUnique(UpdateShape(st, id, s).shapes)
  {
  }

  /** Dropping the first entry keeps the ids unique. */
  lemma IdsUniqueTail(shapes: seq<ShapeEntry>)
    requires IdsUnique(shapes) && shapes != []
    ensures IdsUnique(shapes[1..])
  {
    var t := shapes[1..];
    forall i, j | 0 <= i < j < |t| ensures t[i].shape.id != t[j].shape.id {
      assert t[i] == shapes[i + 1] && t[j] == shapes[j + 1];
    }
  }

  /** Putting in front an entry whose id no other entry carries keeps the ids unique. */
  lemma IdsUniqueCons(x: ShapeEntry, t: seq<ShapeEntry>)
    requires IdsUnique(t)
    requires forall e :: e in t ==> e.shape.id != x.shape.id
    ensures IdsUnique([x] + t)
  {
    var r := [x] + t;
    forall i, j | 0 <= i < j < |r| ensures r[i].shape.id != r[j].shape.id {
      if i == 0 {
        assert r[j] == t[j - 1] && t[j - 1] in t;
      } else {
        assert r[i] == t[i - 1] && r[j] == t[j - 1];
      }
    }
  }

  /** Removing entries keeps the ids unique. */
  lemma {:induction false} WithoutIdKeepsIdsUnique(shapes: seq<ShapeEntry>, id: string)
    requires IdsUnique(shapes)
    ensures IdsUnique(WithoutId(shapes, id))
  {
    if shapes != [] {
      var t := shapes[1..];
      IdsUniqueTail(shapes);
      WithoutIdKeepsIdsUnique(t, id);
      if shapes[0].shape.id != Some(id) {
        var rt := WithoutId(t, id);
        forall e | e in rt ensures e.shape.id != shapes[0].shape.id {
          var k :| 0 <= k < |t| && t[k] == e;
          assert shapes[k + 1] == e;
        }
        IdsUniqueCons(shapes[0], rt);
      }
    }
  }
}
