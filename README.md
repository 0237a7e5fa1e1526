# Polygon object detection: a verified model of the editor's state logic

The application is a browser tool for annotating images for object detection.
The user draws polygons, rectangles and brush strokes on a fabric.js canvas,
labels them with named colour classes and exports the annotations in the COCO
format. This project models the sequential state logic under the user
interface in Dafny:

- the class registry of the two hooks `useClassManagement` and `useDrawHandlers`;
- the polygon click handler, undo and clear, over the two refs that hold a polygon under construction;
- the rectangle drag builder and its id counter;
- the clipboard shortcuts (delete, copy, cut, paste, duplicate);
- the COCO export mapping;
- zoom clamping in the handler and in the zoom control;
- the upload dialog and its URL pattern;
- the tool enums and the draw-tool hook.

The fabric canvas is modelled abstractly (`Fabric.Canvas`). It is an ordered
list of objects with reference identity, plus the active object, the background
colour, the zoom, the viewport transform and the size. Its invariant is that no
object is on it twice. `remove` takes out the first occurrence of its argument.
Under that invariant this is the same as filtering the argument out (`Except`),
and that is how the handlers' contracts are phrased.

React state that the handlers write through callbacks lives in
`Editor.EditorState`:

- `setCanvasToggle` writes the mode;
- `updateUndoState` writes `canUndo`;
- `setZoomLevel` writes the percentage.

`pointsRef` and `polygonRef` live in `Editor.PolygonDraft`. Its shape
(`Shaped`):

- every pending point is a marker circle;
- a preview outline exists exactly when two or more points are pending.

Its full invariant (`Valid`) adds that the preview runs through the markers'
current positions in click order. The markers and the preview are selectable,
so a user may drag them in select mode; the handlers therefore require only
the shape, and each of them that rebuilds or drops the preview establishes the
full invariant again.

fabric discards the active object when that object is removed from the canvas
(`Fabric.AfterRemoval`); every removal in the model says so.

The class registry is specified on values in `ClassRegistry`:

- `AddOutcomeOf`, `AddClass`, `DeleteClass` and `Lookup` are the operations;
- `Consistent` is the invariant (unique names, pairwise distinct colours, and the colour set equals the set of class colours).

Both hooks' handlers are proved to compute exactly these functions and to keep
`Consistent`.

Numbers are Dafny `real`s (exact). Strings are `seq<char>`. A `FileList`
becomes the sequence of data URLs its `FileReader`s produce. `getRandomColor`
becomes a parameter `nextColor`. The module-level `objectIdCounter` becomes an
`IdCounter` object shared by every rectangle setup.

## Model

| member | source | states |
|---|---|---|
| ClassRegistry.EmptyIsConsistent | src/hooks/useClassManagement.tsx:7-8 | The initial empty map and empty colour set satisfy the registry invariant. |
| ClassRegistry.AddEffect | src/hooks/useClassManagement.tsx:23-63 | For `ClassRegistry.AddOutcomeOf` and `ClassRegistry.AddClass`: add is ignored iff the name or colour is empty. It is rejected as a duplicate name iff the name is already a key. It is rejected as a duplicate colour iff the name is new and the colour is in use, so the name is checked first. Every rejection leaves the registry as it was. A success maps name to {name, colour}, keeps every other entry and adds the colour to the set. |
| ClassRegistry.AddKeepsConsistent | src/hooks/useClassManagement.tsx:23-63 | Add keeps names unique, colours pairwise distinct and the colour set equal to the set of class colours. |
| ClassRegistry.DeleteKeepsConsistent | src/hooks/useClassManagement.tsx:65-89 | Delete (`ClassRegistry.DeleteClass`) keeps the same invariant. |
| ClassRegistry.DeleteFreesColor | src/hooks/useClassManagement.tsx:65-89 | After deleting a present class, its name is gone, the other classes are untouched and its colour is no longer in use. A new class with that colour can then be added. |
| ClassRegistry.AddThenDelete | src/hooks/useClassManagement.tsx:58-88 | Deleting a class right after adding it restores the registry. |
| ClassRegistry.LookupConsistent | src/hooks/useClassManagement.tsx:15-21 | A lookup (`ClassRegistry.Lookup`) is null iff the name is absent. Under the invariant, a found class carries that name and a colour in the set. |
| UseClassManagement.ClassManagement.constructor | src/hooks/useClassManagement.tsx:7-11 | Initially there are no classes, no colours, no selection and an empty name. The colour input holds the supplied random colour. |
| UseClassManagement.ClassManagement.FindClassByName | src/hooks/useClassManagement.tsx:15-17 | The result is null iff the name is not a key; otherwise it is the stored class. Under the invariant that class has the name and a colour in use. |
| UseClassManagement.ClassManagement.HandleClassSelected | src/hooks/useClassManagement.tsx:19-21 | The selection becomes the class stored under the name, or null. |
| UseClassManagement.ClassManagement.HandleAddClass | src/hooks/useClassManagement.tsx:23-63 | The toast and the new registry are those of `AddOutcomeOf`/`AddClass`, and the invariant is kept. A success clears the name input and draws a new colour. A rejection leaves both inputs alone. |
| UseClassManagement.ClassManagement.HandleDeleteClass | src/hooks/useClassManagement.tsx:65-89 | The new registry is `DeleteClass` and the invariant is kept. The selection becomes null even for an absent name. The toast is shown iff the name was present. |
| UseClassManagement.ClassManagement.SetNewClassName | src/hooks/useClassManagement.tsx:100 | Sets the name input. |
| UseClassManagement.ClassManagement.SetNewClassColor | src/hooks/useClassManagement.tsx:101 | Sets the colour input. |
| DrawHandlers.DrawHandlersHook.constructor | src/utils/drawHandlers.ts:7-13 | Brush size 10, toggle 'draw', an empty registry, no selection, an empty name. |
| DrawHandlers.DrawHandlersHook.HandleBrushSizeChange | src/utils/drawHandlers.ts:17-19 | The brush size becomes the first element of the argument, or undefined for an empty array. |
| DrawHandlers.DrawHandlersHook.FindClassByName | src/utils/drawHandlers.ts:21-23 | As in `useClassManagement`: null iff absent, otherwise the stored class with that name. |
| DrawHandlers.DrawHandlersHook.HandleClassSelected | src/utils/drawHandlers.ts:25-27 | The selection becomes the stored class or null. |
| DrawHandlers.DrawHandlersHook.HandleAddClass | src/utils/drawHandlers.ts:29-55 | Agrees with `AddOutcomeOf`/`AddClass` (empty input, then name, then colour) and keeps the invariant. Only a success resets the inputs. |
| DrawHandlers.DrawHandlersHook.HandleDeleteClass | src/utils/drawHandlers.ts:57-76 | Agrees with `DeleteClass` and keeps the invariant, which frees the colour. The selection always becomes null. |
| DrawHandlers.DrawHandlersHook.SetNewClassName | src/utils/drawHandlers.ts:90 | Sets the name input. |
| DrawHandlers.DrawHandlersHook.SetNewClassColor | src/utils/drawHandlers.ts:91 | Sets the colour input. |
| DrawHandlers.DrawHandlersHook.SetToggle | src/utils/drawHandlers.ts:92 | Sets the toggle string. |
| ToolToggles.ToggleValuesDistinct | src/types/enums/ToolToggleEnum.ts:1-7 | The five modes have pairwise distinct string values, and the list of modes names each of them exactly once. |
| ToolToggles.ExactlyOneGetter | src/types/enums/ToolToggleEnum.ts:9-31 | For every mode exactly one of the five getters is true. `isDraw` holds iff the value is 'draw', and `isSelect` iff it is 'select'. |
| ToolToggles.OnlyDrawIsDraw | src/types/enums/ToolToggleEnum.ts:12-14 | `isDraw` holds iff the mode is DRAW; every other mode has exactly one other true getter. |
| DrawTools.FromValue | src/hooks/useDrawTools.ts:15 | The membership test `Object.values(DrawToolsEnum).includes(value)`: a found member has exactly that value, and no member has the value when nothing is found. |
| DrawTools.FromValueOfValue | src/types/enums/DrawToolsEnum.ts:1-5 | Each member's own value is recognised as that member. |
| DrawTools.RectangleIsNotATool | src/types/enums/DrawToolsEnum.ts:1-5 | No member has the value 'rectangle', so the membership test rejects it. |
| DrawTools.ExactlyOneToolGetter | src/types/enums/DrawToolsEnum.ts:7-21 | For every tool exactly one of `isBrush`, `isPolygon`, `isEraser` holds; `isPolygon` holds iff the value is 'polygon'. |
| UseDrawTools.NextToolSpec | src/hooks/useDrawTools.ts:14-18 | For the tool update `UseDrawTools.NextTool`, only 'brush', 'polygon' and 'eraser' change the tool, and 'rectangle' leaves it unchanged. Each member's value sets exactly that member, and repeating a change is idempotent. |
| UseDrawTools.DrawToolsHook.constructor | src/hooks/useDrawTools.ts:6-8 | Brush size 10, tool BRUSH, mode DRAW. |
| UseDrawTools.DrawToolsHook.HandleBrushSizeChange | src/hooks/useDrawTools.ts:10-12 | The size becomes the first element of the argument, or undefined for an empty array. |
| UseDrawTools.DrawToolsHook.HandleDrawToolChange | src/hooks/useDrawTools.ts:14-18 | A non-member string leaves the tool unchanged. A member string sets the tool to the member with exactly that value. |
| UseDrawTools.DrawToolsHook.SetToggle | src/hooks/useDrawTools.ts:8 | Sets the mode. |
| Editor.PolygonDraft.constructor | src/utils/polygonBuilder.ts:14-18 | `pointsRef` (marker circles) and `polygonRef` (preview or null) start as an empty list and null, which satisfies the draft invariant. |
| Editor.NewPreview | src/utils/polygonBuilder.ts:95-107 | The new preview is a fresh transparent blue 2px outline through the positions of the given points, in order. |
| Fabric.AfterRemoval | src/utils/undoActionHandler.ts:46 | After objects are removed, the selection is what it was unless the single active object was among them, in which case nothing is active. |
| Fabric.RemovalKeepsActiveOnCanvas | src/utils/undoActionHandler.ts:46 | A single active object that is on the canvas is still on it after any removal, or nothing is active: no handler leaves a removed object selected. |
| Fabric.Canvas.Add | src/utils/polygonBuilder.ts:40 | `canvas.add(o)` of an object not yet on the canvas appends it last and keeps the canvas free of duplicates. |
| Fabric.Canvas.Remove | src/utils/undoActionHandler.ts:21 | `canvas.remove(o)` takes out the first occurrence of o, which under the invariant is the same as filtering o out. An active o is discarded. |
| Fabric.Canvas.Clear | src/utils/clearCanvasHandler.ts:11 | `canvas.clear()` leaves no objects, no selection and an empty background colour. |
| Fabric.Canvas.RemoveAll | src/utils/polygonBuilder.ts:65 | `canvas.remove(...points)` filters every given object out of the canvas, keeps the order of the rest and keeps the canvas free of duplicates. The active object is discarded if it was among them. |
| UndoAction.UpdateUndoState | src/utils/undoActionHandler.ts:53-61 | With a canvas, canUndo becomes true exactly when the canvas holds an object. Without one it is unchanged. |
| UndoAction.PopPoint | src/utils/undoActionHandler.ts:20-21 | The point list loses exactly its last element, which is returned, and that marker alone leaves the canvas (and is discarded if active). The other pending points stay markers. |
| UndoAction.UndoPolygonPoint | src/utils/undoActionHandler.ts:19-42 | Exactly the last pending point is popped and its marker leaves the canvas. An existing preview is replaced by a fresh one through the remaining points if more than one remains, and dropped otherwise. If the marker or the old preview was the active object, nothing is active afterwards. The full draft invariant holds afterwards. |
| UndoAction.HandleUndo | src/utils/undoActionHandler.ts:5-51 | Nothing changes without a canvas or on an empty one. With the polygon tool in draw mode (`UndoAction.UndoesPolygonPoint`, line 17), pending points are popped as above and nothing is removed when none are pending. In any other mode or tool, only the last canvas object is removed and the rest keep their order; if it was the active object, nothing is active afterwards. Whatever the branch, canUndo is then refreshed, and the background, zoom, transform and size are untouched. |
| PolygonBuilder.ReplayKeepsClicks | src/utils/polygonBuilder.ts:75-88 | A run of clicks none of which closes the polygon leaves the pending vertices as the earlier ones followed by the clicks, in click order. |
| PolygonBuilder.CommittedPolygon | src/utils/polygonBuilder.ts:44-56 | When a click closes the polygon, the vertices committed are exactly the earlier clicks in order, there are at least 3, and the closing click is within distance 10 (squared distance < 100) of the first (`PolygonBuilder.ClosesPolygon`, lines 44-49). It is not a vertex, and nothing remains pending. |
| PolygonBuilder.UndoAfterClick | src/utils/undoActionHandler.ts:20 | Popping the last pending vertex undoes a click that did not close the polygon. |
| PolygonBuilder.StartPolygon | src/utils/polygonBuilder.ts:27-41 | With no point pending, a fresh 5px red marker at the click becomes the only pending point and the last canvas object, with no preview. |
| PolygonBuilder.PushMarker | src/utils/polygonBuilder.ts:76-88 | A fresh 3px blue marker at the click is appended to the canvas and to the pending points, and earlier points are unchanged. |
| Editor.RefreshPreview | src/utils/polygonBuilder.ts:91-109 | The old preview, if any, leaves the canvas, and a fresh preview through all pending points is added (the undo handler rebuilds it the same way). An active old preview is discarded. The full draft invariant then holds. |
| PolygonBuilder.AppendPoint | src/utils/polygonBuilder.ts:74-111 | The click is appended to the pending points, earlier points are unchanged, and the preview is rebuilt from all of them. The canvas loses the old preview and gains the marker and the new preview; an active old preview is discarded. |
| PolygonBuilder.ClosePolygon | src/utils/polygonBuilder.ts:49-73 | The committed polygon has the pending positions as vertices, the stroke colour at alpha 0.3 as fill and a 2px stroke of that colour. Every marker and the preview leave the canvas and the polygon is added. If the active object was a marker or the preview, nothing is active afterwards. The points are emptied, the preview becomes null and the mode becomes SELECT. |
| PolygonBuilder.MouseDown | src/utils/polygonBuilder.ts:22-114 | The first click places a 5px red start marker and no preview. A click within distance 10 of the first point with more than 2 points pending closes the polygon as above. Any other click appends a point. The pending positions follow `PolygonBuilder.AfterClick` (emptied by a closing click, otherwise extended by the click). The full draft invariant holds afterwards, a removed active object is discarded, and canUndo is refreshed after every branch. |
| ClearCanvas.HandleClear | src/utils/clearCanvasHandler.ts:3-17 | Without a canvas nothing changes. Otherwise the canvas holds no objects and no selection, the background is 'transparent', canUndo becomes false, the point list is emptied and the preview becomes null. The zoom, the transform and the size are untouched. |
| RectangleBuilder.ParseNatToString | src/utils/rectangleBuilder.ts:41 | The decimal form of the counter reads back as the counter value. |
| RectangleBuilder.NatToString | src/utils/rectangleBuilder.ts:41 | The decimal form of a number is non-empty and all digits, with at least two digits from 10 on. |
| RectangleBuilder.RectangleIdInjective | src/utils/rectangleBuilder.ts:41 | `rectangle-${m}` (`RectangleBuilder.RectangleId`) equals `rectangle-${n}` iff m = n. |
| RectangleBuilder.IdCounter.constructor | src/utils/rectangleBuilder.ts:4 | The counter starts at 0 with no id issued. |
| RectangleBuilder.IdCounter.Take | src/utils/rectangleBuilder.ts:4 | The id is `rectangle-N` for the current counter, which then goes up by one. The id differs from every id issued before, and is recorded as issued. |
| RectangleBuilder.DragBox | src/utils/rectangleBuilder.ts:60-68 | The box spans exactly from the start point to the pointer on each axis: left = min, left + width = max, likewise top and height, and the sizes are non-negative. |
| RectangleBuilder.DragBoxSymmetric | src/utils/rectangleBuilder.ts:60-68 | The box does not depend on the drag direction, and a drag that has not moved is 0×0 at the start point. |
| RectangleBuilder.RectangleDrawing.constructor | src/utils/rectangleBuilder.ts:6-18 | A setup starts not drawing, at (0, 0), with no live rectangle. |
| RectangleBuilder.RectangleDrawing.MouseDown | src/utils/rectangleBuilder.ts:20-54 | Drawing turns on and the start point is recorded. A fresh 0×0 rectangle at the pointer is added to the canvas. It carries the fill (translucent stroke colour when filling, else transparent), the stroke, the stroke width, the class colour name, category 'rectangle' and a new id `rectangle-N`. |
| RectangleBuilder.RectangleDrawing.MouseMove | src/utils/rectangleBuilder.ts:56-71 | With no drag live nothing changes. Otherwise the live rectangle's box becomes `DragBox` of the start point and the pointer. |
| RectangleBuilder.RectangleDrawing.MouseUp | src/utils/rectangleBuilder.ts:73-79 | Drawing turns off and the live reference is dropped; the canvas is untouched. canUndo is refreshed and the mode becomes SELECT. |
| KeyboardShortcuts.Clipboard.constructor | src/utils/keyboardShortcutHandlers.ts:4 | The clipboard starts empty. |
| KeyboardShortcuts.Shift | src/utils/keyboardShortcutHandlers.ts:46-50 | Moving a clip keeps its shape (one object or a group) and its length, and moves every box by d on both axes. |
| KeyboardShortcuts.ShiftAdd | src/utils/keyboardShortcutHandlers.ts:46-61 | Moving by a and then by b is moving by a + b, and moving by 0 changes nothing. |
| KeyboardShortcuts.ClipAfterPastes | src/utils/keyboardShortcutHandlers.ts:42-65 | After k pastes the clipboard, and with it the k-th pasted copy, lies at +10k from the copied position. |
| KeyboardShortcuts.ClipOf | src/utils/keyboardShortcutHandlers.ts:31-39 | A clone exists iff an object is active. It holds the values of the active object or of every selection member, in order, and is a single object iff the active object is not a selection. |
| KeyboardShortcuts.ImageSources | src/utils/keyboardShortcutHandlers.ts:14-20 | Every reported source belongs to an image member, and every image member's source is reported. |
| KeyboardShortcuts.Materialize | src/utils/keyboardShortcutHandlers.ts:53-55 | Fresh objects with the given values are appended to the canvas in order, which stays free of duplicates. |
| KeyboardShortcuts.Place | src/utils/keyboardShortcutHandlers.ts:51-59 | A copy of the clip is appended to the canvas: one fresh object, or one per group member. The result is what becomes active. |
| KeyboardShortcuts.RemoveMembers | src/utils/keyboardShortcutHandlers.ts:13-22 | Every member of the selection leaves the canvas and nothing else does, and the selection itself stays; the sources reported are exactly `ImageSources` of the members, in order. |
| KeyboardShortcuts.DeleteObject | src/utils/keyboardShortcutHandlers.ts:6-29 | Without a canvas, or with nothing active, nothing changes. Otherwise the active object, or every member of the active selection, leaves the canvas and nothing is active. For a selection, exactly the image members' sources are reported, in order; a single image is not reported. |
| KeyboardShortcuts.CopyObject | src/utils/keyboardShortcutHandlers.ts:31-40 | With an active object the clipboard becomes its clone; otherwise it is unchanged. The canvas is never modified. |
| KeyboardShortcuts.PasteObject | src/utils/keyboardShortcutHandlers.ts:42-65 | With an empty clipboard or no canvas nothing changes. Otherwise the clipboard advances by +10,+10. Fresh copies of it at the new position are appended to the canvas and become active, so each paste lands where the clipboard now points. |
| KeyboardShortcuts.CutObject | src/utils/keyboardShortcutHandlers.ts:67-77 | The clipboard becomes the clone of the active object, which is then deleted exactly as by `deleteObject`. |
| KeyboardShortcuts.DuplicateObject | src/utils/keyboardShortcutHandlers.ts:79-104 | With an active object, a +10,+10 copy of it is appended and becomes active. The clipboard is not involved. |
| CocoExport.Annotations | src/utils/exportHandlers.ts:53-64 | There is one annotation per object, in canvas order. Each has id index + 1, bbox [left, top, width, height] of the object's bounding rectangle and area width × height. Image id and category id are 1, iscrowd is 0 and the segmentation is empty. |
| CocoExport.Coco | src/utils/exportHandlers.ts:25-72 | The export has exactly one image (id 1, with the canvas width and height), one category (id 1, name 'shape') and one license (the image's), plus the annotations above. |
| CocoExport.AnnotationIds | src/utils/exportHandlers.ts:62 | The annotation ids are pairwise distinct and lie in 1..n, so they are exactly 1..n. |
| CocoExport.AnnotationsKeepBoxes | src/utils/exportHandlers.ts:54-60 | Each object's bounding rectangle can be read back from its annotation's bbox, and the area is the product of that box's sides. |
| CocoExport.HandleExportCoco | src/utils/exportHandlers.ts:15-72 | Nothing is produced without a canvas. Otherwise the result is the export of the canvas's objects, in order, and of its size. |
| ZoomHandler.ClampZoom | src/utils/zoomHandler.ts:13 | The zoom lies in [0.01, 20]. It equals the request when the request is in range and the nearer bound otherwise. |
| ZoomHandler.ClampZoomProperties | src/utils/zoomHandler.ts:13-17 | Clamping is idempotent and monotone, and the reported percentage (zoom × 100) lies in [1, 2000]. |
| ZoomHandler.ScaleTransform | src/utils/zoomHandler.ts:15 | The transform is a pure scale [z, 0, 0, z, 0, 0] with no translation. |
| ZoomHandler.HandleZoom | src/utils/zoomHandler.ts:4-18 | Without a canvas or a level nothing changes. Otherwise the zoom becomes the clamped level and the transform the pure scale by it. The reported level is zoom × 100, and objects, selection, background and size are untouched. |
| ZoomHandler.HandleResetZoom | src/utils/zoomHandler.ts:34-46 | With a canvas the zoom becomes 1 and the transform the identity, and 100 is reported. Nothing else changes. |
| ZoomControl.AdjustedPercent | src/components/zoom-control.tsx:17 | The percentage lies in [1, 2000]. It equals level + delta in range and the nearer bound otherwise. |
| ZoomControl.AdjustedPercentProperties | src/components/zoom-control.tsx:16-31 | The value handed to `handleZoom` is already in [0.01, 20], so the second clamp is a no-op. Zoom-in at 2000 and zoom-out at 1 stay put. Below 1990 a zoom-out undoes a zoom-in. |
| ZoomControl.AdjustZoom | src/components/zoom-control.tsx:16-20 | `ZoomControl.ZoomAdjusted`: the stored percentage becomes the clamped level + delta. With a canvas the zoom becomes that percentage / 100, with the matching pure-scale transform, and the objects, selection, background and size are untouched. |
| ZoomControl.ZoomIn | src/components/zoom-control.tsx:29 | `ZoomAdjusted` with delta +10: the percentage, the zoom and the transform as for `AdjustZoom`, and nothing else on the canvas changes. |
| ZoomControl.ZoomOut | src/components/zoom-control.tsx:26 | `ZoomAdjusted` with delta −10: the percentage, the zoom and the transform as for `AdjustZoom`, and nothing else on the canvas changes. |
| FileUpload.DispatchFor | src/pages/draw/components/file-upload-modal-button.tsx:66-70 | The URL goes to the background handler iff the upload type is 'background', and to the add-object handler otherwise. |
| FileUpload.Dispatches | src/pages/draw/components/file-upload-modal-button.tsx:61-74 | There is one dispatch per file, in order, each routed by the upload type. |
| FileUpload.ValidatorSound | src/pages/draw/components/file-upload-modal-button.tsx:76-78 | Every string the left-to-right validator accepts matches the anchored pattern. |
| FileUpload.ValidatorComplete | src/pages/draw/components/file-upload-modal-button.tsx:76-78 | Every string the anchored pattern matches is accepted by the validator. |
| FileUpload.ValidatorMatchesPattern | src/pages/draw/components/file-upload-modal-button.tsx:76-78 | The validator (`FileUpload.IsValidImageUrl`) agrees with the pattern read as a language (`FileUpload.MatchesUrlPattern`): it accepts exactly the strings of the form (`http://` or `https://` or `data:image/` + letters + `;base64,`) followed by one or more characters of `[A-Za-z0-9_+&@#/%?=~|!:,.;-]`. |
| FileUpload.FileUploadForm.constructor | src/pages/draw/components/file-upload-modal-button.tsx:38-43 | No files, upload type 'object', an empty URL and no import type. The two import types are mutually exclusive. |
| FileUpload.FileUploadForm.HandleFileChange | src/pages/draw/components/file-upload-modal-button.tsx:45-51 | A non-empty file choice becomes the files, sets the import type to 'file' and clears the URL. An empty or missing choice changes nothing. |
| FileUpload.FileUploadForm.HandleUrlChange | src/pages/draw/components/file-upload-modal-button.tsx:53-57 | The URL is stored, the import type becomes 'url' and the files are dropped. |
| FileUpload.FileUploadForm.SetUploadType | src/pages/draw/components/file-upload-modal-button.tsx:122-123 | Sets the upload type and keeps the exclusivity invariant. |
| FileUpload.FileUploadForm.HandleDialogClose | src/pages/draw/components/file-upload-modal-button.tsx:95-100 | Resets to no files, an empty URL, no import type and upload type 'object'. |
| FileUpload.FileUploadForm.HandleUpload | src/pages/draw/components/file-upload-modal-button.tsx:59-93 | A file import dispatches every file once, in order. A URL import dispatches the URL once if it matches the pattern; otherwise it shows the toast, dispatches nothing and `handleUpload` itself leaves the form as it was. Anything else, including an empty URL, dispatches nothing. Every upload that is not stopped ends with the dialog reset. |

## Left out

- The `mouse:wheel` zoom listener that `handleZoom` installs is not modelled. It uses a floating-point power and the library's `zoomToPoint`.
- Floating-point arithmetic is not modelled: all coordinates, sizes and zoom levels are exact reals. `ZoomControl.AdjustZoom` therefore reports the clamped percentage exactly, where the browser's `newZoom / 100 * 100` may differ in the last bit.
- `Math.sqrt` in the polygon close test is replaced by the equivalent comparison of the squared distance with 100.
- `Color.fromHex(c).setAlpha(0.3).toRgba()` is represented as the opaque fill `Translucent(c)`.
- `getRandomColor` is not part of this model. The colour it would draw is a parameter (`nextColor`, `initialColor`).
- The asynchronous `clone().then(...)` calls and the `FileReader` callbacks are modelled as completing at once, in order. No interleaving with other events is modelled.
- `getBoundingRect()` is taken to be the box the object stores. Origin, stroke width and transformation adjustments made by the library are not modelled. A polygon's box is the bounding box of its vertices (`Fabric.Bounds`).
- Clones are modelled as their values (kind and box). The `evented` flag, `setCoords` and an `ActiveSelection`'s group-relative coordinates are not modelled; group members are kept in canvas coordinates.
- `handleRemoveImageFromExports` and the image loaders (`imageHandlers.ts`, `backgroundImageHandler.ts`, `objectImageHandler.ts`) are not part of this model. `KeyboardShortcuts.DeleteObject` returns the sources it would report, and `FileUpload.FileUploadForm.HandleUpload` returns the handler calls it would make.
- The SVG and PNG exports, the JSON/Blob serialisation and `saveAs` are file I/O and are not modelled. So are the COCO `info` block and `date_captured`, which come from the clock.
- Rendering (`renderAll`, `requestRenderAll`), toasts' text and layout, and all purely presentational components are not modelled.
- `DrawCanvas.tsx` (canvas creation, resize listeners, brush setup) is not part of this model, nor is the component that creates the two polygon refs.
- `canvas.clear()` is modelled as emptying the object list, dropping the selection and resetting the background colour. Its other resets (overlay, event listeners) are not modelled.
- FileUpload.FileUploadForm.HandleUpload: models `handleUpload` alone. The Upload button sits inside `DialogClose` (file-upload-modal-button.tsx:158-160), so the same click also closes the dialog and `onOpenChange` (line 103) resets it through `handleDialogClose`, even after the invalid-URL toast. That composition belongs to the dialog component and is not modelled.
- RectangleBuilder.IdCounter.Take: the counter is an unbounded natural. `objectIdCounter` is a JavaScript number, whose `++` stops increasing at 2^53, after which ids would repeat; that limit is not modelled.
- User interaction with objects already on the canvas (dragging, resizing, selecting by pointer) is not modelled as an operation. Its one effect the handlers must tolerate, a dragged marker leaving the preview stale, is covered by the handlers requiring only `Editor.PolygonDraft.Shaped`.
- Fabric.AfterRemoval: removing a member of an active selection leaves the selection as it was. The library's own bookkeeping of `ActiveSelection` members is not part of this model. `deleteObject` discards the selection right after removing its members; an undo that removes one member keeps the selection in the model.
- `PolygonBuilder.MouseDown`, `UndoAction.HandleUndo`, `RectangleBuilder.RectangleDrawing.MouseDown` and the clipboard handlers require the canvas not to hold the same object twice. Every fabric `add` of a new object keeps this.
