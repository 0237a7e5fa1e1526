/** `handleClear`: empties the canvas and forgets any polygon under construction. */
module ClearCanvas {

  import opened Fabric
  import opened Editor
  import opened UndoAction

  method HandleClear(canvas: Canvas?, ui: EditorState, draft: PolygonDraft)
    modifies canvas, ui`canUndo, draft
    ensures canvas == null ==>
              ui.canUndo == old(ui.canUndo) && draft.points == old(draft.points) && draft.preview == old(draft.preview)
    ensures canvas != null ==>
              && canvas.Valid()
              && canvas.objects == [] && canvas.active == NoActive && canvas.backgroundColor == "transparent"
              && canvas.zoom == old(canvas.zoom) && canvas.viewportTransform == old(canvas.viewportTransform)
              && canvas.width == old(canvas.width) && canvas.height == old(canvas.height)
              && !ui.canUndo
              && draft.points == [] && draft.preview == null && draft.Valid()
  {
    if canvas == null {
      return;
    }
    canvas.Clear();
    canvas.backgroundColor := "transparent";
    UpdateUndoState(canvas, ui);
    draft.points := [];
    draft.preview := null;
  }
}
