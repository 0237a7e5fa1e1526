/** The zoom control: buttons that move the percentage by ±10 within [1, 2000]. */
module ZoomControl {

  import opened Wrappers
  import opened Fabric
  import opened Editor
  import opened ZoomHandler

  const MinPercent: real := 1.0
  const MaxPercent: real := 2000.0
  const ZoomStep: real := 10.0

  /** `Math.min(Math.max(zoomLevel + delta, 1), 2000)`. */
  function AdjustedPercent(level: real, delta: real): (r: real)
    ensures MinPercent <= r <= MaxPercent
    ensures MinPercent <= level + delta <= MaxPercent ==> r == level + delta
    ensures level + delta < MinPercent ==> r == MinPercent
    ensures level + delta > MaxPercent ==> r == MaxPercent
  {
    Min(Max(level + delta, MinPercent), MaxPercent)
  }

  /**
   * The level handed on to `handleZoom` is already within its range, so the
   * second clamp changes nothing; the extremes are fixed points of the buttons;
   * and away from the top a zoom-in is undone by a zoom-out.
   */
  lemma AdjustedPercentProperties(level: real, delta: real)
    ensures ClampZoom(AdjustedPercent(level, delta) / 100.0) == AdjustedPercent(level, delta) / 100.0
    ensures AdjustedPercent(MaxPercent, ZoomStep) == MaxPercent
    ensures AdjustedPercent(MinPercent, -ZoomStep) == MinPercent
    ensures MinPercent <= level <= MaxPercent - ZoomStep ==>
              AdjustedPercent(AdjustedPercent(level, ZoomStep), -ZoomStep) == level
  {
  }

  /**
   * The effect of `adjustZoom(delta)`: the stored percentage moves by `delta`
   * within [1, 2000]; the canvas, if any, zooms to it with a pure scale
   * transform, and its objects, selection, background and size stay as they were.
   */
  twostate predicate ZoomAdjusted(canvas: Canvas?, ui: EditorState, delta: real)
    reads canvas, ui
  {
    && ui.zoomLevel == AdjustedPercent(old(ui.zoomLevel), delta)
    && (canvas != null ==>
          && canvas.zoom == ui.zoomLevel / 100.0
          && canvas.viewportTransform == ScaleTransform(canvas.zoom)
          && canvas.objects == old(canvas.objects) && canvas.active == old(canvas.active)
          && canvas.backgroundColor == old(canvas.backgroundColor)
          && canvas.width == old(canvas.width) && canvas.height == old(canvas.height))
  }

  /** `adjustZoom(delta)`: the new percentage is stored, and the canvas zooms to it. */
  method AdjustZoom(canvas: Canvas?, ui: EditorState, delta: real)
    modifies canvas, ui`zoomLevel
    ensures ZoomAdjusted(canvas, ui, delta)
  {
    var newZoom := AdjustedPercent(ui.zoomLevel, delta);
    ui.zoomLevel := newZoom;
    HandleZoom(canvas, ui, Some(newZoom / 100.0));
  }

  /** The zoom-in button. */
  method ZoomIn(canvas: Canvas?, ui: EditorState)
    modifies canvas, ui`zoomLevel
    ensures ZoomAdjusted(canvas, ui, ZoomStep)
  {
    AdjustZoom(canvas, ui, ZoomStep);
  }

  /** The zoom-out button. */
  method ZoomOut(canvas: Canvas?, ui: EditorState)
    modifies canvas, ui`zoomLevel
    ensures ZoomAdjusted(canvas, ui, -ZoomStep)
  {
    AdjustZoom(canvas, ui, -ZoomStep);
  }
}
