/** `handleUndo` and `updateUndoState`. */
module UndoAction {

  import opened Fabric
  import opened ToolToggles
  import opened DrawTools
  import opened Editor

  /** `setCanUndo(canvas._objects.length > 0)`, skipped without a canvas. */
  method UpdateUndoState(canvas: Canvas?, ui: EditorState)
    modifies ui`canUndo
    ensures canvas != null ==> ui.canUndo == (|canvas.objects| > 0)
    ensures canvas == null ==> ui.canUndo == old(ui.canUndo)
  {
    if canvas == null {
      return;
    }
    ui.canUndo := |canvas.objects| > 0;
  }

  /** Whether undo works on the pending polygon points rather than on the canvas objects. */
  predicate UndoesPolygonPoint(mode: ToolToggle, drawTool: DrawTool)
  {
    mode.IsDraw() && drawTool.IsPolygon()
  }

  /**
   * The effect of popping the last pending point: the point list loses its
   * last element and the marker leaves the canvas; an existing preview is
   * replaced by a fresh one through the remaining points when more than one
   * remains, and dropped otherwise. Whichever of them was the active object
   * is discarded.
   */
  twostate predicate PoppedPoint(canvas: Canvas, draft: PolygonDraft)
    reads canvas, draft
  {
    var n := |old(draft.points)|;
    && n > 0
    && var last := old(draft.points)[n - 1];
    && draft.points == old(draft.points)[..n - 1]
    && canvas.active == AfterRemoval(old(canvas.active), {last} + PreviewSet(old(draft.preview)))
    && (old(draft.preview) == null ==>
          draft.preview == null && canvas.objects == Except(old(canvas.objects), {last}))
    && (old(draft.preview) != null && n - 1 <= 1 ==>
          && draft.preview == null
          && canvas.objects == Except(old(canvas.objects), {last} + PreviewSet(old(draft.preview))))
    && (old(draft.preview) != null && n - 1 > 1 ==>
          && draft.preview != null && fresh(draft.preview)
          && canvas.objects
             == Except(old(canvas.objects), {last} + PreviewSet(old(draft.preview))) + [draft.preview])
  }

  /** Pops the last pending point and takes its marker off the canvas. */
  method PopPoint(canvas: Canvas, draft: PolygonDraft) returns (last: FabricObject)
    requires canvas.Valid() && AllMarkers(draft.points) && |draft.points| > 0
    modifies canvas`objects, canvas`active, draft`points
    ensures canvas.Valid() && AllMarkers(draft.points)
    ensures last == old(draft.points)[|old(draft.points)| - 1]
    ensures draft.points == old(draft.points)[..|old(draft.points)| - 1]
    ensures canvas.objects == Except(old(canvas.objects), {last})
    ensures canvas.active == AfterRemoval(old(canvas.active), {last})
  {
    last := draft.points[|draft.points| - 1];
    draft.points := draft.points[..|draft.points| - 1];
    canvas.Remove(last);
  }

  /** The polygon branch of `handleUndo` when points are pending. */
  method UndoPolygonPoint(canvas: Canvas, draft: PolygonDraft)
    requires canvas.Valid() && draft.Shaped() && |draft.points| > 0
    modifies canvas`objects, canvas`active, draft
    ensures canvas.Valid() && draft.Valid()
    ensures PoppedPoint(canvas, draft)
  {
    ghost var objects := canvas.objects;
    ghost var active := canvas.active;
    var lastPoint := PopPoint(canvas, draft);
    if draft.preview != null {
      var oldPreview: FabricObject := draft.preview;
      ExceptTwice(objects, {lastPoint}, {oldPreview});
      AfterRemovalTwice(active, {lastPoint}, {oldPreview});
      if |draft.points| > 1 {
        RefreshPreview(canvas, draft);
      } else {
        canvas.Remove(oldPreview);
        draft.preview := null;
      }
    } else {
      assert {lastPoint} + PreviewSet(draft.preview) == {lastPoint};
    }
  }

  /**
   * Undo. With the polygon tool in draw mode it pops the last pending point,
   * if any; in every other mode and tool it removes the last canvas object.
   * Nothing happens without a canvas or on an empty canvas; otherwise the
   * undo flag is refreshed.
   */
  method HandleUndo(canvas: Canvas?, mode: ToolToggle, drawTool: DrawTool, ui: EditorState, draft: PolygonDraft)
    requires canvas != null ==> canvas.Valid()
    requires draft.Shaped()
    modifies canvas, ui`canUndo, draft
    ensures draft.Shaped() && (old(draft.Valid()) ==> draft.Valid())
    ensures canvas != null ==> canvas.Valid() && SettingsUnchanged(canvas)
    ensures canvas == null || |old(canvas.objects)| == 0 ==>
              && (canvas != null ==> canvas.objects == old(canvas.objects) && canvas.active == old(canvas.active))
              && ui.canUndo == old(ui.canUndo)
              && draft.points == old(draft.points) && draft.preview == old(draft.preview)
    ensures canvas != null && |old(canvas.objects)| > 0 ==>
              && ui.canUndo == (|canvas.objects| > 0)
              && (!UndoesPolygonPoint(mode, drawTool) ==>
                    && canvas.objects == old(canvas.objects)[..|old(canvas.objects)| - 1]
                    && canvas.active == AfterRemoval(old(canvas.active), {old(canvas.objects)[|old(canvas.objects)| - 1]})
                    && draft.points == old(draft.points) && draft.preview == old(draft.preview))
              && (UndoesPolygonPoint(mode, drawTool) && |old(draft.points)| == 0 ==>
                    && canvas.objects == old(canvas.objects) && canvas.active == old(canvas.active)
                    && draft.points == old(draft.points) && draft.preview == old(draft.preview))
              && (UndoesPolygonPoint(mode, drawTool) && |old(draft.points)| > 0 ==>
                    draft.Valid() && PoppedPoint(canvas, draft))
  {
    if canvas == null {
      return;
    }
    var objects := canvas.objects;
    if |objects| > 0 {
      if mode.IsDraw() && drawTool.IsPolygon() {
        if |draft.points| > 0 {
          UndoPolygonPoint(canvas, draft);
        }
      } else {
        WithoutLast(objects);
        canvas.Remove(objects[|objects| - 1]);
      }
      UpdateUndoState(canvas, ui);
    }
  }
}
