/**
 * The keyboard shortcuts: delete, copy, cut, paste and duplicate, over the
 * canvas's active object and the module-level clipboard.
 */
module KeyboardShortcuts {

  import opened Wrappers
  import opened Fabric

  /**
   * What the clipboard holds: the clone of one object, or the clone of an
   * `ActiveSelection` with its members. Boxes are in canvas coordinates, so
   * moving the selection moves every member.
   */
  datatype Clip = One(item: Snapshot) | Group(items: seq<Snapshot>)

  /** The object values a clip holds, in order. */
  function Items(c: Clip): seq<Snapshot>
  {
    match c
    case One(s) => [s]
    case Group(ss) => ss
  }

  /** The objects an active object stands for: none, itself, or the members of the selection. */
  function Members(a: Active): seq<FabricObject>
  {
    match a
    case NoActive => []
    case Single(o) => [o]
    case Selection(ms) => ms
  }

  function ShiftSnap(s: Snapshot, d: real): Snapshot
  {
    Snapshot(s.kind, Box(s.box.left + d, s.box.top + d, s.box.width, s.box.height))
  }

  /** `set({left: left + d, top: top + d})` on a clip: every box moves by d in both directions. */
  function Shift(c: Clip, d: real): (r: Clip)
    ensures r.One? <==> c.One?
    ensures |Items(r)| == |Items(c)|
    ensures forall i :: 0 <= i < |Items(c)| ==> Items(r)[i] == ShiftSnap(Items(c)[i], d)
  {
    match c
    case One(s) => One(ShiftSnap(s, d))
    case Group(ss) => Group(seq(|ss|, i requires 0 <= i < |ss| => ShiftSnap(ss[i], d)))
  }

  /** Shifting twice is shifting by the sum; shifting by nothing changes nothing. */
  lemma ShiftAdd(c: Clip, a: real, b: real)
    ensures Shift(Shift(c, a), b) == Shift(c, a + b)
    ensures Shift(c, 0.0) == c
  {
    if c.Group? {
      assert Items(Shift(Shift(c, a), b)) == Items(Shift(c, a + b));
      assert Items(Shift(c, 0.0)) == Items(c);
    }
  }

  /** The clipboard after `k` pastes: each paste advances it by 10 in both directions. */
  function ClipAfter(c: Clip, k: nat): Clip
  {
    if k == 0 then c else Shift(ClipAfter(c, k - 1), 10.0)
  }

  /** The `k`-th paste lands at +10k from the copied position (its copy is placed where the clipboard now points). */
  lemma {:induction false} ClipAfterPastes(c: Clip, k: nat)
    ensures ClipAfter(c, k) == Shift(c, 10.0 * k as real)
  {
    if k == 0 {
      ShiftAdd(c, 0.0, 0.0);
    } else {
      ClipAfterPastes(c, k - 1);
      ShiftAdd(c, 10.0 * (k - 1) as real, 10.0);
    }
  }

  /** `clone()` of the active object: none without one, otherwise the values of its members in order. */
  function ClipOf(a: Active): (r: Option<Clip>)
    reads Elems(Members(a))
    ensures r.Some? <==> !a.NoActive?
    ensures r.Some? ==> Items(r.value) == Snaps(Members(a)) && (r.value.One? <==> a.Single?)
  {
    match a
    case NoActive => None
    case Single(o) => Some(One(o.Snap()))
    case Selection(ms) => Some(Group(Snaps(ms)))
  }

  /** The sources of the image objects among `ms`, in order. */
  function ImageSources(ms: seq<FabricObject>): (r: seq<string>)
    ensures |r| <= |ms|
    ensures forall s <- r :: exists o <- ms :: o.kind == ImageObject(s)
    ensures forall o <- ms :: o.kind.ImageObject? ==> o.kind.src in r
  {
    if ms == [] then []
    else
      var init, last := ms[..|ms| - 1], ms[|ms| - 1];
      assert forall o <- init :: o in ms;
      assert forall o <- ms :: o in init || o == last;
      ImageSources(init) + (if last.kind.ImageObject? then [last.kind.src] else [])
  }

  /** The module-level `_clipboard`. */
  class Clipboard {
    var content: Option<Clip>

    constructor ()
      ensures content == None
    {
      content := None;
    }
  }

  /** Adds fresh objects with the given values to the canvas, in order. */
  method Materialize(canvas: Canvas, items: seq<Snapshot>) returns (objs: seq<FabricObject>)
    requires canvas.Valid()
    modifies canvas`objects
    ensures canvas.Valid()
    ensures canvas.objects == old(canvas.objects) + objs
    ensures Snaps(objs) == items
    ensures forall o <- objs :: fresh(o)
  {
    objs := [];
    var i := 0;
    while i < |items|
      invariant 0 <= i <= |items|
      invariant canvas.Valid()
      invariant canvas.objects == old(canvas.objects) + objs
      invariant |objs| == i && forall j :: 0 <= j < i ==> objs[j].Snap() == items[j]
      invariant forall o <- objs :: fresh(o)
    {
      var o := new FabricObject(items[i].kind, items[i].box);
      canvas.Add(o);
      objs := objs + [o];
      i := i + 1;
    }
  }

  /** Adds a copy of `clip` to the canvas: one object, or every member of a selection. Returns what to make active. */
  method Place(canvas: Canvas, clip: Clip) returns (placed: Active)
    requires canvas.Valid()
    modifies canvas`objects
    ensures canvas.Valid()
    ensures canvas.objects == old(canvas.objects) + Members(placed)
    ensures Snaps(Members(placed)) == Items(clip)
    ensures forall o <- Members(placed) :: fresh(o)
    ensures (placed.Single? <==> clip.One?) && !placed.NoActive?
  {
    match clip
    case One(s) =>
      var o := new FabricObject(s.kind, s.box);
      canvas.Add(o);
      placed := Single(o);
    case Group(items) =>
      var objs := Materialize(canvas, items);
      placed := Selection(objs);
  }

  /** Removes every member of a selection from the canvas, collecting the image members' sources in order. */
  method RemoveMembers(canvas: Canvas, ms: seq<FabricObject>) returns (images: seq<string>)
    requires canvas.Valid()
    modifies canvas`objects, canvas`active
    ensures canvas.Valid()
    ensures canvas.objects == Except(old(canvas.objects), Elems(ms))
    ensures canvas.active == AfterRemoval(old(canvas.active), Elems(ms))
    ensures images == ImageSources(ms)
  {
    images := [];
    ghost var before := canvas.objects;
    ExceptEmpty(before, ms);
    var i := 0;
    while i < |ms|
      invariant 0 <= i <= |ms|
      invariant canvas.Valid()
      invariant canvas.objects == Except(before, Elems(ms[..i]))
      invariant canvas.active == AfterRemoval(old(canvas.active), Elems(ms[..i]))
      invariant images == ImageSources(ms[..i])
    {
      AfterRemovalTwice(old(canvas.active), Elems(ms[..i]), {ms[i]});
      if ms[i].kind.ImageObject? {
        images := images + [ms[i].kind.src];
      }
      assert ms[..i + 1][..i] == ms[..i];
      ExceptStep(before, ms, i);
      canvas.Remove(ms[i]);
      i := i + 1;
    }
    assert ms[..i] == ms;
  }

  /**
   * `deleteObject`: removes the active object, or every member of an active
   * selection, then clears the selection. Returns the sources of the removed
   * selection members that are images (what is passed to
   * `handleRemoveImageFromExports`); a single image is not reported.
   */
  method DeleteObject(canvas: Canvas?) returns (removedImages: seq<string>)
    requires canvas != null ==> canvas.Valid()
    modifies canvas
    ensures canvas == null ==> removedImages == []
    ensures canvas != null ==>
              && canvas.Valid() && SettingsUnchanged(canvas) && canvas.active == NoActive
              && canvas.objects == Except(old(canvas.objects), Elems(Members(old(canvas.active))))
              && removedImages == (if old(canvas.active).Selection? then ImageSources(old(canvas.active).members) else [])
  {
    removedImages := [];
    if canvas == null {
      return;
    }
    match canvas.active
    case NoActive =>
      assert Elems(Members(canvas.active)) == {};
      ExceptNothing(canvas.objects, {});
    case Single(o) =>
      assert Elems(Members(canvas.active)) == {o};
      canvas.Remove(o);
      canvas.DiscardActiveObject();
    case Selection(ms) =>
      removedImages := RemoveMembers(canvas, ms);
      canvas.DiscardActiveObject();
  }

  /** `copyObject`: with an active object, the clipboard becomes its clone; the canvas is untouched. */
  method CopyObject(canvas: Canvas?, clipboard: Clipboard)
    modifies clipboard
    ensures canvas == null || canvas.active.NoActive? ==> clipboard.content == old(clipboard.content)
    ensures canvas != null && !canvas.active.NoActive? ==> clipboard.content == ClipOf(canvas.active)
  {
    if canvas == null || canvas.active.NoActive? {
      return;
    }
    clipboard.content := ClipOf(canvas.active);
  }

  /**
   * `pasteObject`: a copy of the clipboard moved by +10,+10 is added and made
   * active, and the clipboard itself advances by +10,+10, so that the copy sits
   * exactly where the clipboard now points.
   */
  method PasteObject(canvas: Canvas?, clipboard: Clipboard)
    requires canvas != null ==> canvas.Valid()
    modifies canvas, clipboard
    ensures canvas != null ==> canvas.Valid() && SettingsUnchanged(canvas)
    ensures canvas == null || old(clipboard.content).None? ==>
              && clipboard.content == old(clipboard.content)
              && (canvas != null ==> canvas.objects == old(canvas.objects) && canvas.active == old(canvas.active))
    ensures canvas != null && old(clipboard.content).Some? ==>
              && clipboard.content == Some(Shift(old(clipboard.content).value, 10.0))
              && canvas.objects == old(canvas.objects) + Members(canvas.active)
              && Snaps(Members(canvas.active)) == Items(clipboard.content.value)
              && (forall o <- Members(canvas.active) :: fresh(o))
              && (canvas.active.Single? <==> clipboard.content.value.One?) && !canvas.active.NoActive?
  {
    if clipboard.content.None? || canvas == null {
      return;
    }
    var clip := Shift(clipboard.content.value, 10.0);
    canvas.DiscardActiveObject();
    var placed := Place(canvas, clip);
    clipboard.content := Some(clip);
    canvas.SetActiveObject(placed);
  }

  /** `cutObject`: copy, then delete. */
  method CutObject(canvas: Canvas?, clipboard: Clipboard) returns (removedImages: seq<string>)
    requires canvas != null ==> canvas.Valid()
    modifies canvas, clipboard
    ensures canvas == null ==> clipboard.content == old(clipboard.content) && removedImages == []
    ensures canvas != null ==>
              && clipboard.content == (if old(canvas.active).NoActive? then old(clipboard.content) else old(ClipOf(canvas.active)))
              && canvas.Valid() && SettingsUnchanged(canvas) && canvas.active == NoActive
              && canvas.objects == Except(old(canvas.objects), Elems(Members(old(canvas.active))))
              && removedImages == (if old(canvas.active).Selection? then ImageSources(old(canvas.active).members) else [])
  {
    removedImages := [];
    if canvas == null || canvas.active.NoActive? {
      if canvas != null {
        assert Elems(Members(canvas.active)) == {};
        ExceptNothing(canvas.objects, {});
      }
      return;
    }
    CopyObject(canvas, clipboard);
    removedImages := DeleteObject(canvas);
  }

  /** `duplicateObject`: a +10,+10 copy of the active object is added and made active; the clipboard is not involved. */
  method DuplicateObject(canvas: Canvas?)
    requires canvas != null ==> canvas.Valid()
    modifies canvas
    ensures canvas != null ==> canvas.Valid() && SettingsUnchanged(canvas)
    ensures canvas != null && old(canvas.active).NoActive? ==>
              canvas.objects == old(canvas.objects) && canvas.active == NoActive
    ensures canvas != null && !old(canvas.active).NoActive? ==>
              && canvas.objects == old(canvas.objects) + Members(canvas.active)
              && Snaps(Members(canvas.active)) == Items(Shift(old(ClipOf(canvas.active)).value, 10.0))
              && (forall o <- Members(canvas.active) :: fresh(o))
              && (canvas.active.Single? <==> old(canvas.active).Single?)
  {
    if canvas == null || canvas.active.NoActive? {
      return;
    }
    var clip := Shift(ClipOf(canvas.active).value, 10.0);
    canvas.DiscardActiveObject();
    var placed := Place(canvas, clip);
    canvas.SetActiveObject(placed);
  }
}
