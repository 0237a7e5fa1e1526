/**
 * State the draw page shares with the canvas handlers: the React state the
 * handlers' callbacks write, and the two refs that hold a polygon under
 * construction.
 */
module Editor {

  import opened Fabric
  import opened ToolToggles

  /**
   * The page state behind the callbacks: `setCanvasToggle` writes `toggle`,
   * `updateUndoState` writes `canUndo`, `setZoomLevel` writes `zoomLevel`.
   */
  class EditorState {
    var toggle: ToolToggleEnum
    var canUndo: bool
    var zoomLevel: real

    constructor (toggle: ToolToggleEnum, zoomLevel: real)
      ensures this.toggle == toggle && !canUndo && this.zoomLevel == zoomLevel
    {
      this.toggle := toggle;
      canUndo := false;
      this.zoomLevel := zoomLevel;
    }
  }

  /** Every pending point is a marker circle. */
  ghost predicate AllMarkers(points: seq<FabricObject>)
  {
    forall i :: 0 <= i < |points| ==> points[i].kind.Marker?
  }

  /** The blue outline shown while a polygon is being drawn. */
  function PreviewKind(vertices: seq<Point>): Kind
  {
    PolygonShape(vertices, Transparent, "blue", 2.0)
  }

  /**
   * `pointsRef` (the marker circles placed so far, in click order) and
   * `polygonRef` (the preview outline through them, or null). The handlers
   * rely only on `Shaped`: a preview exists exactly when at least two points
   * are pending, all of them markers. `Valid` adds that the preview runs
   * through the markers' current positions in order; every handler that
   * rebuilds or drops the preview re-establishes it, while a user dragging a
   * marker in select mode leaves the preview stale until the next click.
   */
  class PolygonDraft {
    var points: seq<FabricObject>
    var preview: FabricObject?

    ghost predicate Shaped()
      reads this
    {
      && (preview != null <==> |points| >= 2)
      && AllMarkers(points)
    }

    ghost predicate Valid()
      reads this, points
    {
      && Shaped()
      && (preview != null ==> preview.kind == PreviewKind(Positions(points)))
    }

    constructor ()
      ensures Valid() && points == [] && preview == null
    {
      points, preview := [], null;
    }
  }

  /** `new Polygon(points.map(p => ({x: p.left, y: p.top})), {fill: 'transparent', stroke: 'blue', strokeWidth: 2})`. */
  method NewPreview(points: seq<FabricObject>) returns (p: FabricObject)
    requires |points| > 0
    ensures fresh(p)
    ensures p.kind == PreviewKind(Positions(points))
    ensures p.BoundingRect() == Bounds(Positions(points))
  {
    var vs := Positions(points);
    p := new FabricObject(PreviewKind(vs), Bounds(vs));
  }

  /** Takes the old preview, if any, off the canvas and adds a new one through all pending points. */
  method RefreshPreview(canvas: Canvas, draft: PolygonDraft)
    requires canvas.Valid() && AllMarkers(draft.points) && |draft.points| >= 2
    modifies canvas`objects, canvas`active, draft`preview
    ensures canvas.Valid() && draft.Valid()
    ensures draft.preview != null && fresh(draft.preview)
    ensures canvas.objects == Except(old(canvas.objects), PreviewSet(old(draft.preview))) + [draft.preview]
    ensures canvas.active == AfterRemoval(old(canvas.active), PreviewSet(old(draft.preview)))
  {
    if draft.preview != null {
      var preview: FabricObject := draft.preview;
      canvas.Remove(preview);
    } else {
      ExceptNothing(canvas.objects, {});
    }
    var p := NewPreview(draft.points);
    draft.preview := p;
    canvas.Add(p);
  }
}
