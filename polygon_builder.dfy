/**
 * The `mouse:down` handler that `setupPolygonDrawing` installs: the first click
 * places a start marker, a click near the first point with more than two
 * points pending commits the polygon, and any other click appends a point and
 * rebuilds the preview.
 */
module PolygonBuilder {

  import opened Fabric
  import opened ToolToggles
  import opened Editor
  import opened UndoAction

  function SquaredDistance(a: Point, b: Point): real
  {
    (b.x - a.x) * (b.x - a.x) + (b.y - a.y) * (b.y - a.y)
  }

  /**
   * The close test: more than two points pending and the click within distance
   * 10 of the first one. `Math.sqrt(d) < 10` is stated as `d < 100`, which is
   * the same for the non-negative `d`.
   */
  predicate ClosesPolygon(pending: seq<Point>, click: Point)
  {
    |pending| > 2 && SquaredDistance(pending[0], click) < 100.0
  }

  /** The pending vertices after a click: cleared when it closes the polygon, extended by the click otherwise. */
  function AfterClick(pending: seq<Point>, click: Point): seq<Point>
  {
    if |pending| > 0 && ClosesPolygon(pending, click) then [] else pending + [click]
  }

  /** The pending vertices after a run of clicks. */
  function Replay(pending: seq<Point>, clicks: seq<Point>): seq<Point>
    decreases |clicks|
  {
    if clicks == [] then pending else Replay(AfterClick(pending, clicks[0]), clicks[1..])
  }

  /** No click of the run closes the polygon. */
  predicate NeverCloses(pending: seq<Point>, clicks: seq<Point>)
    decreases |clicks|
  {
    clicks == [] || (!ClosesPolygon(pending, clicks[0]) && NeverCloses(pending + [clicks[0]], clicks[1..]))
  }

  /** Clicks that do not close the polygon are kept in click order. */
  lemma {:induction false} ReplayKeepsClicks(pending: seq<Point>, clicks: seq<Point>)
    requires NeverCloses(pending, clicks)
    ensures Replay(pending, clicks) == pending + clicks
    decreases |clicks|
  {
    if clicks != [] {
      ReplayKeepsClicks(pending + [clicks[0]], clicks[1..]);
      assert pending + [clicks[0]] + clicks[1..] == pending + clicks;
    }
  }

  /**
   * A committed polygon is exactly the clicks made since drawing started,
   * without the closing click, and has at least three vertices.
   */
  lemma CommittedPolygon(clicks: seq<Point>, closing: Point)
    requires NeverCloses([], clicks) && ClosesPolygon(Replay([], clicks), closing)
    ensures Replay([], clicks) == clicks
    ensures |clicks| >= 3 && SquaredDistance(clicks[0], closing) < 100.0
    ensures AfterClick(Replay([], clicks), closing) == []
  {
    ReplayKeepsClicks([], clicks);
  }

  /** Undoing a click that did not close the polygon restores the pending vertices. */
  lemma UndoAfterClick(pending: seq<Point>, click: Point)
    requires !ClosesPolygon(pending, click)
    ensures var after := AfterClick(pending, click); after[..|after| - 1] == pending
  {
  }

  /** The polygon a closing click commits: the stroke colour at alpha 0.3 inside, the colour itself as a 2px outline. */
  function CommittedKind(vertices: seq<Point>, strokeColor: string): Kind
  {
    PolygonShape(vertices, Translucent(strokeColor), strokeColor, 2.0)
  }

  /** Commits the pending polygon: markers and preview leave the canvas, the polygon joins it, the tool switches to SELECT. */
  method ClosePolygon(canvas: Canvas, draft: PolygonDraft, ui: EditorState, strokeColor: string)
    requires canvas.Valid() && draft.Shaped() && |draft.points| > 0
    modifies canvas`objects, canvas`active, draft, ui`toggle
    ensures canvas.Valid() && draft.Valid()
    ensures draft.points == [] && draft.preview == null && ui.toggle == SELECT
    ensures canvas.active == AfterRemoval(old(canvas.active), Elems(old(draft.points)) + PreviewSet(old(draft.preview)))
    ensures |canvas.objects| > 0
    ensures var polygon := canvas.objects[|canvas.objects| - 1];
            && fresh(polygon)
            && polygon.kind == CommittedKind(old(Positions(draft.points)), strokeColor)
            && canvas.objects
               == Except(old(canvas.objects), Elems(old(draft.points)) + PreviewSet(old(draft.preview))) + [polygon]
  {
    var vertices := Positions(draft.points);
    ghost var objects := canvas.objects;
    ghost var active := canvas.active;
    canvas.RemoveAll(draft.points);
    if draft.preview != null {
      var preview: FabricObject := draft.preview;
      ExceptTwice(objects, Elems(draft.points), {preview});
      AfterRemovalTwice(active, Elems(draft.points), {preview});
      canvas.Remove(preview);
    } else {
      assert Elems(draft.points) + PreviewSet(draft.preview) == Elems(draft.points);
    }
    var polygon := new FabricObject(CommittedKind(vertices, strokeColor), Bounds(vertices));
    canvas.Add(polygon);
    ui.toggle := SELECT;
    draft.points := [];
    draft.preview := null;
  }

  /** Adds a 3px blue marker at the click to the canvas and to the pending points. */
  method PushMarker(canvas: Canvas, draft: PolygonDraft, x: real, y: real) returns (marker: FabricObject)
    requires canvas.Valid() && AllMarkers(draft.points)
    modifies canvas`objects, draft`points
    ensures canvas.Valid() && AllMarkers(draft.points)
    ensures fresh(marker) && marker.kind == Marker(3.0, "blue")
    ensures draft.points == old(draft.points) + [marker]
    ensures Positions(draft.points) == old(Positions(draft.points)) + [Point(x, y)]
    ensures canvas.objects == old(canvas.objects) + [marker]
  {
    ghost var before := Positions(draft.points);
    marker := new FabricObject(Marker(3.0, "blue"), Box(x, y, 6.0, 6.0));
    canvas.Add(marker);
    draft.points := draft.points + [marker];
    assert Positions(draft.points) == before + [Point(x, y)];
  }

  /** Appends a pending point at the click and replaces the preview with one through all pending points. */
  method AppendPoint(canvas: Canvas, draft: PolygonDraft, x: real, y: real)
    requires canvas.Valid() && draft.Shaped() && |draft.points| > 0
    modifies canvas`objects, canvas`active, draft
    ensures canvas.Valid() && draft.Valid()
    ensures canvas.active == AfterRemoval(old(canvas.active), PreviewSet(old(draft.preview)))
    ensures |draft.points| > 0 && draft.points == old(draft.points) + [draft.points[|draft.points| - 1]]
    ensures Positions(draft.points) == old(Positions(draft.points)) + [Point(x, y)]
    ensures var marker := draft.points[|draft.points| - 1];
            && fresh(marker) && marker.kind == Marker(3.0, "blue")
            && draft.preview != null && fresh(draft.preview)
            && canvas.objects == Except(old(canvas.objects), PreviewSet(old(draft.preview))) + [marker, draft.preview]
  {
    ghost var objects := canvas.objects;
    ghost var oldPreview := PreviewSet(draft.preview);
    var marker := PushMarker(canvas, draft, x, y);
    ExceptAppend(objects, marker, oldPreview);
    ghost var points := draft.points;
    ghost var positions := Positions(points);
    RefreshPreview(canvas, draft);
    assert draft.points == points && Positions(points) == positions;
    assert canvas.objects == Except(objects, oldPreview) + [marker] + [draft.preview];
    assert Except(objects, oldPreview) + [marker] + [draft.preview]
        == Except(objects, oldPreview) + [marker, draft.preview];
  }

  /** Places the 5px red start marker of a new polygon at the click. */
  method StartPolygon(canvas: Canvas, draft: PolygonDraft, x: real, y: real)
    requires canvas.Valid() && draft.Shaped() && |draft.points| == 0
    modifies canvas`objects, draft`points
    ensures canvas.Valid() && draft.Valid()
    ensures |draft.points| == 1 && fresh(draft.points[0])
    ensures draft.points[0].kind == Marker(5.0, "red")
    ensures Positions(draft.points) == [Point(x, y)]
    ensures canvas.objects == old(canvas.objects) + [draft.points[0]]
  {
    var firstPoint := new FabricObject(Marker(5.0, "red"), Box(x, y, 10.0, 10.0));
    canvas.Add(firstPoint);
    draft.points := [firstPoint];
    assert Positions(draft.points) == [Point(x, y)];
  }

  /**
   * The `mouse:down` handler at pointer (x, y), drawing in `strokeColor`.
   * Whichever branch is taken, the undo flag is refreshed afterwards.
   */
  method MouseDown(canvas: Canvas, draft: PolygonDraft, ui: EditorState, strokeColor: string, x: real, y: real)
    requires canvas.Valid() && draft.Shaped()
    modifies canvas`objects, canvas`active, draft, ui`toggle, ui`canUndo
    ensures canvas.Valid() && draft.Valid()
    ensures ui.canUndo == (|canvas.objects| > 0)
    ensures Positions(draft.points) == AfterClick(old(Positions(draft.points)), Point(x, y))
    ensures |old(draft.points)| == 0 ==>
              && |draft.points| == 1 && fresh(draft.points[0])
              && draft.points[0].kind == Marker(5.0, "red")
              && draft.preview == null
              && canvas.objects == old(canvas.objects) + [draft.points[0]]
              && canvas.active == old(canvas.active)
              && ui.toggle == old(ui.toggle)
    ensures |old(draft.points)| > 0 && ClosesPolygon(old(Positions(draft.points)), Point(x, y)) ==>
              && draft.points == [] && draft.preview == null && ui.toggle == SELECT
              && canvas.active
                 == AfterRemoval(old(canvas.active), Elems(old(draft.points)) + PreviewSet(old(draft.preview)))
              && |canvas.objects| > 0
              && var polygon := canvas.objects[|canvas.objects| - 1];
                 && fresh(polygon)
                 && polygon.kind == CommittedKind(old(Positions(draft.points)), strokeColor)
                 && canvas.objects
                    == Except(old(canvas.objects), Elems(old(draft.points)) + PreviewSet(old(draft.preview))) + [polygon]
    ensures |old(draft.points)| > 0 && !ClosesPolygon(old(Positions(draft.points)), Point(x, y)) ==>
              && ui.toggle == old(ui.toggle)
              && canvas.active == AfterRemoval(old(canvas.active), PreviewSet(old(draft.preview)))
              && draft.points == old(draft.points) + [draft.points[|draft.points| - 1]]
              && var marker := draft.points[|draft.points| - 1];
                 && fresh(marker) && marker.kind == Marker(3.0, "blue")
                 && draft.preview != null && fresh(draft.preview)
                 && canvas.objects == Except(old(canvas.objects), PreviewSet(old(draft.preview))) + [marker, draft.preview]
  {
    var click := Point(x, y);
    if |draft.points| == 0 {
      StartPolygon(canvas, draft, x, y);
    } else {
      var pending := Positions(draft.points);
      if SquaredDistance(pending[0], click) < 100.0 && |draft.points| > 2 {
        ClosePolygon(canvas, draft, ui, strokeColor);
      } else {
        AppendPoint(canvas, draft, x, y);
      }
    }
    UpdateUndoState(canvas, ui);
  }
}
