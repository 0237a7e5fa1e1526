/** `handleZoom` with an explicit level, and `handleResetZoom`. */
module ZoomHandler {

  import opened Wrappers
  import opened Fabric
  import opened Editor

  const MinZoom: real := 0.01
  const MaxZoom: real := 20.0

  /** `Math.min(Math.max(zoom, 0.01), 20)`. */
  function ClampZoom(zoom: real): (r: real)
    ensures MinZoom <= r <= MaxZoom
    ensures MinZoom <= zoom <= MaxZoom ==> r == zoom
    ensures zoom < MinZoom ==> r == MinZoom
    ensures zoom > MaxZoom ==> r == MaxZoom
  {
    Min(Max(zoom, MinZoom), MaxZoom)
  }

  /** Clamping twice is clamping once, clamping keeps order, and the reported percentage lies in [1, 2000]. */
  lemma ClampZoomProperties(z: real, w: real)
    ensures ClampZoom(ClampZoom(z)) == ClampZoom(z)
    ensures z <= w ==> ClampZoom(z) <= ClampZoom(w)
    ensures 1.0 <= ClampZoom(z) * 100.0 <= 2000.0
  {
  }

  /** The viewport transform of a pure scale by `z`, with no translation. */
  function ScaleTransform(z: real): (t: seq<real>)
    ensures |t| == 6 && t[0] == t[3] == z && t[1] == t[2] == t[4] == t[5] == 0.0
  {
    [z, 0.0, 0.0, z, 0.0, 0.0]
  }

  /**
   * `handleZoom(fabricRef, setZoomLevel, zoomLevel)`. With a level, the canvas
   * zooms to the clamped level around the origin and reports it as a
   * percentage; without one nothing that is modelled changes.
   */
  method HandleZoom(canvas: Canvas?, ui: EditorState, zoomLevel: Option<real>)
    modifies canvas, ui`zoomLevel
    ensures canvas == null || zoomLevel.None? ==>
              ui.zoomLevel == old(ui.zoomLevel) && (canvas != null ==> unchanged(canvas))
    ensures canvas != null && zoomLevel.Some? ==>
              && canvas.zoom == ClampZoom(zoomLevel.value)
              && canvas.viewportTransform == ScaleTransform(canvas.zoom)
              && ui.zoomLevel == canvas.zoom * 100.0
              && canvas.objects == old(canvas.objects) && canvas.active == old(canvas.active)
              && canvas.backgroundColor == old(canvas.backgroundColor)
              && canvas.width == old(canvas.width) && canvas.height == old(canvas.height)
  {
    if canvas == null || zoomLevel.None? {
      return;
    }
    var zoom := ClampZoom(zoomLevel.value);
    canvas.zoom := zoom;
    canvas.viewportTransform := ScaleTransform(zoom);
    ui.zoomLevel := zoom * 100.0;
  }

  /** `handleResetZoom`: zoom 1, the identity transform, and 100 reported. */
  method HandleResetZoom(canvas: Canvas?, ui: EditorState)
    modifies canvas, ui`zoomLevel
    ensures canvas == null ==> ui.zoomLevel == old(ui.zoomLevel)
    ensures canvas != null ==>
              && canvas.zoom == 1.0 && canvas.viewportTransform == Identity == ScaleTransform(1.0)
              && ui.zoomLevel == 100.0
              && canvas.objects == old(canvas.objects) && canvas.active == old(canvas.active)
              && canvas.backgroundColor == old(canvas.backgroundColor)
              && canvas.width == old(canvas.width) && canvas.height == old(canvas.height)
  {
    if canvas == null {
      return;
    }
    canvas.zoom := 1.0;
    canvas.viewportTransform := Identity;
    ui.zoomLevel := 100.0;
  }
}
