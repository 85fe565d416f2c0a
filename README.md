# Konva image editor: a verified model of its core

The application is a small React image editor built on Konva. The user first crops an
image with a selection rectangle on a 600×400 stage. The rectangle can be dragged and
resized from four corner handles. The user then marks the cropped image up with arrows,
rectangles and "clouds", which are rectangles with a scalloped border. The editor keeps
its state in a React context: the cropped image URL, the ordered list of typed shapes
and the id of the selected shape.

The model has one module per core source area:

- `Wrappers`: `Option` and `Result`.
- `RealMath`: `Math.max` and `Math.min` on the reals that stand for JavaScript numbers.
- `KonvaImageEditor` (src/contexts/konva-image-editor.tsx): the shared store. The
  `EditorState` record is updated by pure functions, one per provider operation. Lemmas
  cover list order, absent ids, add-then-remove and uniqueness of ids.
- `CropImage` (src/components/crop-image-konva/index.tsx): the crop controller. The
  `CropImageKonva` class holds the `cropArea` state. Its drag and resize handlers move
  Konva nodes (`KonvaNode`) in place. Each handler is proved equal to a declarative
  specification: the dragged corner goes to the pointer, clamped into its reach, and the
  opposite corner stays fixed. The stage invariant `InStage` is preserved.
- `ScallopedRectangle` (src/components/markup-image/shapes/render-scalloped-rectangle.tsx):
  `sceneFunc` as a method that appends canvas commands to a path, with its four loops.
  It is proved equal to `ScallopPath`, which has 4·n arcs of radius `min(w, h)/(4n)`.
  Each arc sweeps half a turn clockwise, bulges outward and has its centre on the
  rectangle.
- `ShapeRenderers` (the four files under src/components/markup-image/shapes/): the
  selection effect ("selected ⇔ draggable and attached to the transformer") and the
  drag-end update, on a `ShapeView` class.
- `RenderShape` (src/components/markup-image/render-shape.tsx): the partition of the
  list by type. The render order is a permutation of the list, grouped by type.
- `Markup` (src/components/markup-image/index.tsx): toolbar actions, click selection,
  delete and the delete-key guard. The `MarkupImage` class's handlers call the store
  setters in sequence, as the component does.

Angles are integers in units of π/2, so π is symbolic. Coordinates are unbounded reals.
`Date.now()` is a parameter `now`. Canvas drawing calls become `PathCommand` records.

## Model

| member | source | states |
|---|---|---|
| KonvaImageEditor.InitialState | src/contexts/konva-image-editor.tsx:41-43 | the store starts with no selection, no cropped image and no shapes |
| KonvaImageEditor.SetSelectedShapeId | src/contexts/konva-image-editor.tsx:41 | `setSelectedShapeId` replaces the selection and leaves the shapes and the URL untouched |
| KonvaImageEditor.SetCroppedImgURL | src/contexts/konva-image-editor.tsx:42 | `setCroppedImgURL` replaces the URL and leaves the shapes and the selection untouched |
| KonvaImageEditor.AddShape | src/contexts/konva-image-editor.tsx:49-51 | the list grows by one, the old list is its prefix and the new entry is last; nothing else changes |
| KonvaImageEditor.ReplaceById | src/contexts/konva-image-editor.tsx:53-57 | same length, every entry keeps its type, entries with the id get the new payload, all others are unchanged |
| KonvaImageEditor.UpdateShape | src/contexts/konva-image-editor.tsx:52-58 | the list is mapped by `ReplaceById`; the selection and the URL are untouched |
| KonvaImageEditor.WithoutId | src/contexts/konva-image-editor.tsx:60-62 | an entry survives iff it was in the list and its id differs; the list never grows |
| KonvaImageEditor.RemoveShape | src/contexts/konva-image-editor.tsx:59-63 | no remaining entry has the id; the selection and the URL are untouched |
| KonvaImageEditor.ResetShapes | src/contexts/konva-image-editor.tsx:64-66 | the list becomes empty and nothing else changes |
| KonvaImageEditor.UseKonvaImageEditor | src/contexts/konva-image-editor.tsx:79-87 | outside a provider the hook fails with the source's message; inside one it returns the context |
| KonvaImageEditor.CountId | src/contexts/konva-image-editor.tsx:60-62 | the number of entries carrying an id is at most the list length |
| KonvaImageEditor.WithoutIdAppend | src/contexts/konva-image-editor.tsx:60-62 | removal distributes over concatenation, so the survivors keep their original order |
| KonvaImageEditor.WithoutIdAbsent | src/contexts/konva-image-editor.tsx:59-63 | removing an id no entry carries leaves the list as it was |
| KonvaImageEditor.WithoutIdLength | src/contexts/konva-image-editor.tsx:59-63 | exactly the entries with the id are removed: the new length is the old length minus their number |
| KonvaImageEditor.ReplaceByIdAbsent | src/contexts/konva-image-editor.tsx:52-58 | updating an id no entry carries leaves the list as it was |
| KonvaImageEditor.AddThenRemove | src/contexts/konva-image-editor.tsx:49-51 | `addShape(e)` then `removeShape(e's id)` restores the state when that id was absent |
| KonvaImageEditor.AddShapeKeepsIdsUnique | src/contexts/konva-image-editor.tsx:49-51 | adding an entry with a fresh id keeps the ids unique |
| KonvaImageEditor.UpdateShapeKeepsIds | src/contexts/konva-image-editor.tsx:52-58 | an update whose payload keeps the id keeps every entry's id, hence their uniqueness |
| KonvaImageEditor.WithoutIdKeepsIdsUnique | src/contexts/konva-image-editor.tsx:59-63 | removing entries keeps the ids unique |
| CropImage.Clamp | src/components/crop-image-konva/index.tsx:98-105 | `max(lo, min(v, hi))` is at least `lo`; when the interval is not empty it is the nearest point of `[lo, hi]` to `v` |
| CropImage.ParseHandle | src/components/crop-image-konva/index.tsx:124-186 | a node name designates the corner whose handle has that name, and no corner when no handle does |
| CropImage.FromCorners | src/components/crop-image-konva/index.tsx:124-186 | the rectangle built from a corner and its opposite corner has those two corners |
| CropImage.ResizeCorner | src/components/crop-image-konva/index.tsx:124-186 | the opposite corner stays fixed; a pointer within reach is followed exactly; x, y ≥ 0 on the left and top; width and height ≥ MIN_SIZE; `InStage` is preserved |
| CropImage.ResizeBottomRight | src/components/crop-image-konva/index.tsx:125-134 | for the bottom-right handle the declarative resize is the source's formula: x and y kept, `width = max(MIN_SIZE, min(pos.x - x, STAGE_WIDTH - x))`, and the same for the height |
| CropImage.ResizeBottomLeft | src/components/crop-image-konva/index.tsx:135-151 | for the bottom-left handle: `newX = max(0, min(pos.x, x + width - MIN_SIZE))`, the right edge kept, the height as for bottom-right |
| CropImage.ResizeTopRight | src/components/crop-image-konva/index.tsx:152-168 | for the top-right handle: `newY = max(0, min(pos.y, y + height - MIN_SIZE))`, the bottom edge kept, the width as for bottom-right |
| CropImage.ResizeTopLeft | src/components/crop-image-konva/index.tsx:169-185 | for the top-left handle: x and y clamped as above, the bottom-right corner kept |
| CropImage.Resized | src/components/crop-image-konva/index.tsx:122-188 | a name that is no handle leaves the area unchanged (the switch has no default); otherwise the opposite corner is fixed; `InStage` is preserved |
| CropImage.DragMoved | src/components/crop-image-konva/index.tsx:98-110 | the size is kept; x lies in `[0, STAGE_WIDTH - width]` and y in `[0, STAGE_HEIGHT - height]`; a position in range is followed exactly; `InStage` is preserved |
| CropImage.ExportRequestFor | src/components/crop-image-konva/index.tsx:67-74 | the export region is exactly the crop area, at pixel ratio 1, as PNG |
| CropImage.ResizedCropArea | src/components/crop-image-konva/index.tsx:121-186 | the source's field-by-field reassignment in the first switch computes `Resized` |
| CropImage.SnapHandle | src/components/crop-image-konva/index.tsx:190-213 | the handle lands on its own corner of the new area; a node with another name does not move |
| CropImage.KonvaNode.constructor | src/components/crop-image-konva/index.tsx:118-119 | a node has a name and a position |
| CropImage.CropImageKonva.constructor | src/components/crop-image-konva/index.tsx:11-16 | the initial area is 200×200 at (200, 100) and lies in the stage |
| CropImage.CropImageKonva.HandleRectDragMove | src/components/crop-image-konva/index.tsx:95-113 | the new area is `DragMoved` of the old one at the node's position, and the node is moved to the clamped corner |
| CropImage.CropImageKonva.HandleResizeHandleDrag | src/components/crop-image-konva/index.tsx:116-216 | the new area is `Resized`; the dragged handle sits exactly on its corner; an unknown node keeps its place; `InStage` is preserved |
| CropImage.CropImageKonva.CropImage | src/components/crop-image-konva/index.tsx:34-92 | without a stage or an image nothing changes; otherwise the URL of the exported crop region is stored |
| ScallopedRectangle.EdgeArcs | src/components/markup-image/shapes/render-scalloped-rectangle.tsx:53-86 | each edge contributes one arc per scallop, and none for a count ≤ 0 |
| ScallopedRectangle.DrawTopEdge | src/components/markup-image/shapes/render-scalloped-rectangle.tsx:53-58 | the ascending loop appends the top arcs: centres `i·step + step/2` at y = 0, sweeping π→0 |
| ScallopedRectangle.DrawRightEdge | src/components/markup-image/shapes/render-scalloped-rectangle.tsx:61-72 | the ascending loop appends the right arcs at x = width, sweeping 1.5π→0.5π |
| ScallopedRectangle.DrawBottomEdge | src/components/markup-image/shapes/render-scalloped-rectangle.tsx:75-79 | the descending loop appends the bottom arcs at y = height, right to left, sweeping 0→π |
| ScallopedRectangle.DrawLeftEdge | src/components/markup-image/shapes/render-scalloped-rectangle.tsx:82-86 | the descending loop appends the left arcs at x = 0, bottom to top, sweeping 0.5π→1.5π |
| ScallopedRectangle.SceneFunc | src/components/markup-image/shapes/render-scalloped-rectangle.tsx:44-90 | the emitted path is exactly `ScallopPath` of the shape's width, height and scallop count |
| ScallopedRectangle.ArcCountAppend | src/components/markup-image/shapes/render-scalloped-rectangle.tsx:50-89 | arcs of a concatenated path add up |
| ScallopedRectangle.ArcCountAllArcs | src/components/markup-image/shapes/render-scalloped-rectangle.tsx:55-86 | a path made only of arcs has as many arcs as commands |
| ScallopedRectangle.ScallopPathLayout | src/components/markup-image/shapes/render-scalloped-rectangle.tsx:50-89 | the path is begin, move to the origin, then the top, right, bottom and left arcs in drawing order, then close, fill and stroke |
| ScallopedRectangle.ScallopArcCount | src/components/markup-image/shapes/render-scalloped-rectangle.tsx:55-86 | the path has exactly 4·scallops arcs |
| ScallopedRectangle.SegmentCentreBounds | src/components/markup-image/shapes/render-scalloped-rectangle.tsx:53-56 | every segment centre of `[0, len]` lies in `[0, len]` |
| ScallopedRectangle.EdgeArcGeometry | src/components/markup-image/shapes/render-scalloped-rectangle.tsx:45-86 | each arc has radius `min(w, h)/(4n)`, sweeps half a turn clockwise, bulges away from the rectangle and has its centre on it |
| ScallopedRectangle.EdgeArcsGeometry | src/components/markup-image/shapes/render-scalloped-rectangle.tsx:53-86 | every arc of an edge is such a scallop |
| ScallopedRectangle.ScallopArcs | src/components/markup-image/shapes/render-scalloped-rectangle.tsx:45-86 | every arc of the whole path is such a scallop, with its centre in `[0, w] × [0, h]` |
| ShapeRenderers.SelectionEffect | src/components/markup-image/shapes/render-rectangle.tsx:23-34 | the effect runs iff the refs are mounted and, for rectangles and clouds, the shape has an id; when it runs, draggable iff the shape's id is the selection |
| ShapeRenderers.GuardedRendererIgnoresIdlessShape | src/components/markup-image/shapes/render-scalloped-rectangle.tsx:29 | a rectangle or cloud without an id never changes its draggable state |
| ShapeRenderers.UnguardedIdlessShapeSelectedWhenNothingSelected | src/components/markup-image/shapes/render-arrow.tsx:24-25 | an arrow or circle without an id counts as selected when nothing is selected |
| ShapeRenderers.DragEndUpdate | src/components/markup-image/shapes/render-circle.tsx:35-45 | an update is issued iff the shape has an id; it is keyed by that id and is the old shape with only x and y replaced |
| ShapeRenderers.DragEnd | src/components/markup-image/shapes/render-arrow.tsx:35-45 | without an id the store is unchanged; otherwise it is `updateShape(id, shape with x, y replaced)` |
| ShapeRenderers.DragEndKeepsIdsUnique | src/components/markup-image/shapes/render-rectangle.tsx:36-46 | a drag end keeps the ids unique |
| ShapeRenderers.ShapeView.constructor | src/components/markup-image/shapes/render-rectangle.tsx:16-21 | a shape starts non-draggable with no transformer nodes |
| ShapeRenderers.ShapeView.RunSelectionEffect | src/components/markup-image/shapes/render-scalloped-rectangle.tsx:28-42 | when the effect runs, the shape is draggable and the transformer's only node iff it is selected; otherwise nothing changes |
| ShapeRenderers.ShapeView.HandleDragEnd | src/components/markup-image/shapes/render-scalloped-rectangle.tsx:92-102 | the handler commits exactly `DragEnd` |
| RenderShape.OfKind | src/components/markup-image/render-shape.tsx:15-26 | a group holds exactly the entries of its type |
| RenderShape.OfKindAppend | src/components/markup-image/render-shape.tsx:15-26 | a group keeps list order: the filter distributes over concatenation |
| RenderShape.RenderOrderIsPermutation | src/components/markup-image/render-shape.tsx:30-45 | the three groups together are a permutation of the list, so every shape is rendered exactly once |
| RenderShape.RenderOrderGrouped | src/components/markup-image/render-shape.tsx:31-44 | all rectangles come before all arrows, which come before all clouds |
| RenderShape.AtMostOneInteractive | src/components/markup-image/render-shape.tsx:30-45 | with unique ids, at most one rendered shape is draggable and attached to a transformer |
| Markup.Digit | src/components/markup-image/index.tsx:55 | a digit character denotes its value |
| Markup.DecimalString | src/components/markup-image/index.tsx:55 | a rendered timestamp is a non-empty string of digits without a leading zero |
| Markup.DecimalStringRoundTrip | src/components/markup-image/index.tsx:55 | reading the rendered digits back gives the timestamp |
| Markup.ShapeId | src/components/markup-image/index.tsx:55 | an id is the type's prefix followed by the rendered timestamp |
| Markup.StampAfterOwnPrefix | src/components/markup-image/index.tsx:55 | the digits after an id's own prefix are its timestamp |
| Markup.StampAfterOtherPrefix | src/components/markup-image/index.tsx:55-83 | an id does not start with another type's prefix |
| Markup.ShapeIdRoundTrip | src/components/markup-image/index.tsx:55-83 | parsing an id recovers its type and timestamp |
| Markup.ShapeIdInjective | src/components/markup-image/index.tsx:55-83 | different types or different timestamps give different ids |
| Markup.NewArrow | src/components/markup-image/index.tsx:46-56 | a new arrow is at (200, 250) with points `[0, 0, 100, 100]`, pointer 20×20, fill and stroke in the current colour, the current stroke width and an `arrow-` id |
| Markup.NewRectangle | src/components/markup-image/index.tsx:61-70 | a new rectangle is 100×100 at (100, 100) with a transparent fill, the current stroke and a `rectangle-` id |
| Markup.NewCloud | src/components/markup-image/index.tsx:75-85 | a new cloud is 100×100 at (10, 10) with 20 scallops, a transparent fill, the current stroke and a `cloud-` id |
| Markup.NewShape | src/components/markup-image/index.tsx:45-87 | the created shape has the button's type and the id made from the timestamp |
| Markup.NewShapeKeepsIdsUnique | src/components/markup-image/index.tsx:45-87 | creating shapes at increasing times keeps the ids unique |
| Markup.NewCloudOutline | src/components/markup-image/index.tsx:84 | a new cloud's outline has 80 arcs of radius 1.25 |
| Markup.ClickSelection | src/components/markup-image/index.tsx:96-106 | a click selects the target's id iff it is a Rect, an Arrow or a ScallopedRectangle, and clears the selection otherwise |
| Markup.NodeOf | src/components/markup-image/shapes/render-scalloped-rectangle.tsx:106-113 | every drawn shape node is a click target for selection and carries its shape's id |
| Markup.AnchorClickDeselects | src/components/markup-image/index.tsx:96-106 | a transformer anchor is an id-less Rect, so clicking it selects the empty id and takes the handles off every shape except an id-less arrow |
| Markup.StageClickClearsSelection | src/components/markup-image/index.tsx:91-93 | clicking the empty stage clears the selection |
| Markup.ClickSelectsExactlyThatShape | src/components/markup-image/index.tsx:105-106 | with unique ids, clicking a shape with an id makes it, and only it, draggable and transformable |
| Markup.DeleteSelected | src/components/markup-image/index.tsx:109-116 | with a selection, exactly the entries carrying the selected id are removed, the others keep their order, and the selection is cleared; without one nothing changes |
| Markup.AddSelectDeleteRestores | src/components/markup-image/index.tsx:45-116 | adding a shape, clicking it and deleting it restores the list and leaves nothing selected |
| Markup.KeyDown | src/components/markup-image/index.tsx:120-130 | Backspace outside an input, a textarea or an editable element deletes the selection; any other key, or typing in such a field, changes nothing |
| Markup.MarkupImage.constructor | src/components/markup-image/index.tsx:25-26 | the stroke starts 4 wide and black |
| Markup.MarkupImage.SetStrokeWidth | src/components/markup-image/index.tsx:209-211 | the width input sets the stroke width |
| Markup.MarkupImage.SetStrokeColor | src/components/markup-image/index.tsx:222 | the colour input sets the stroke colour |
| Markup.MarkupImage.HandleAddArrow | src/components/markup-image/index.tsx:45-58 | the store gains a new arrow with the current stroke at the end |
| Markup.MarkupImage.HandleAddRectangle | src/components/markup-image/index.tsx:60-72 | the store gains a new rectangle with the current stroke at the end |
| Markup.MarkupImage.HandleAddCloud | src/components/markup-image/index.tsx:74-87 | the store gains a new cloud with the current stroke at the end |
| Markup.MarkupImage.HandleStageClick | src/components/markup-image/index.tsx:89-107 | the two setter calls in sequence leave the selection at `ClickSelection` of the target |
| Markup.MarkupImage.HandleDeleteShape | src/components/markup-image/index.tsx:109-116 | the removal and the clearing in sequence give `DeleteSelected` |
| Markup.MarkupImage.HandleKeyDown | src/components/markup-image/index.tsx:120-130 | the listener gives `KeyDown` |
| Markup.MarkupImage.BackToCrop | src/components/markup-image/index.tsx:141 | the back button clears the cropped image URL |

## Left out

- Image loading through `window.Image` and the network is browser I/O, so it is not modelled.
- Rasterisation is left out. `stage.toDataURL` is a parameter `toDataURL`; the model fixes only the region, pixel ratio and format it is asked for; the size of the raster it returns is not modelled. Hiding and showing the crop rectangle and the handles around it are not modelled.
- Resizing the stage to the image and all styling and JSX are presentation only.
- Registering and removing the keydown listener is not modelled. Only the handler and its guard are.
- `Date.now()` is a parameter. Two shapes created within the same millisecond get the same id. The uniqueness lemmas therefore assume strictly increasing times.
- React scheduling is not modelled. Each setter is applied at once to the latest state.
- Effect dependency lists are not modelled. The arrow and circle effects do not list `shape.id`.
- `key={index}` reconciliation is not modelled.
- The `isDragging` and `isResizing` flags are never read, so they are not modelled.
- The unused `newWidth`, `newHeight`, `newW` and `newH` temporaries are not modelled.
- `console.log` output is not modelled.
- The transformer's own resize and rotate gestures are not modelled. The source never commits them to the store; only the node membership of the transformer is modelled.
- ScallopedRectangle.SceneFunc: an absent width or height counts as 0 everywhere. The source uses `|| 0` for the steps and the radius, but passes the raw `width`/`height` to the right and bottom arcs. Clouds are always created with both set.
- ScallopedRectangle.SceneFunc: a scallop count ≤ 0 yields no arcs. The source then divides by zero for the step and the radius (Infinity or NaN), but those values are never used. A fractional count is not modelled; the count is an integer.
- ScallopedRectangle.SceneFunc: the four loops of `sceneFunc` are the four `Draw*Edge` methods, called in order on the growing path.
- CropImage.CropImageKonva.HandleResizeHandleDrag: the handler's two `switch` statements are the methods `ResizedCropArea` and `SnapHandle`, called in order.
- IEEE floating point, including NaN from a non-numeric stroke-width input, is not modelled. Numbers are exact reals.
- src/App.tsx switches between the two screens and src/main.tsx bootstraps the app; neither is modelled.
