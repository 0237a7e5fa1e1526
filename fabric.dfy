/**
 * An abstract model of the parts of the fabric.js canvas that the editor's
 * handlers rely on: an ordered collection of objects with reference identity,
 * the active object, the background colour, the zoom and the viewport
 * transform. Rendering, hit-testing and serialisation are not modelled.
 */
module Fabric {

  import opened Wrappers

  datatype Point = Point(x: real, y: real)

  /** An axis-aligned box: `left`, `top`, `width`, `height`. */
  datatype Box = Box(left: real, top: real, width: real, height: real)

  /** A fill: `'transparent'`, or a colour at alpha 0.3 (`Color.fromHex(c).setAlpha(0.3).toRgba()`). */
  datatype Fill = Transparent | Translucent(color: string)

  /** What a canvas object is, with the properties the handlers set on it. */
  datatype Kind =
    | Marker(radius: real, color: string)
    | PolygonShape(vertices: seq<Point>, fill: Fill, stroke: string, strokeWidth: real)
    | RectShape(fill: Fill, stroke: string, strokeWidth: real,
                classColorName: string, objectCategory: string, objectId: string)
    | ImageObject(src: string)
    | BrushPath

  /** The value of an object: what a `clone()` copies. */
  datatype Snapshot = Snapshot(kind: Kind, box: Box)

  /** The currently selected object(s): none, one object, or an `ActiveSelection`. */
  datatype Active = NoActive | Single(obj: FabricObject) | Selection(members: seq<FabricObject>)

  function Min(a: real, b: real): real { if a <= b then a else b }
  function Max(a: real, b: real): real { if a <= b then b else a }

  /** The bounding box fabric computes for a polygon from its vertices. */
  function Bounds(pts: seq<Point>): (b: Box)
    requires |pts| > 0
    ensures b.width >= 0.0 && b.height >= 0.0
  {
    if |pts| == 1 then Box(pts[0].x, pts[0].y, 0.0, 0.0)
    else
      var b := Bounds(pts[1..]);
      var p := pts[0];
      var l, r := Min(p.x, b.left), Max(p.x, b.left + b.width);
      var t, u := Min(p.y, b.top), Max(p.y, b.top + b.height);
      Box(l, t, r - l, u - t)
  }

  /** The bounding box holds every vertex, and each of its four sides touches one. */
  lemma {:induction false} BoundsTight(pts: seq<Point>)
    requires |pts| > 0
    ensures var b := Bounds(pts);
            && (forall p <- pts :: b.left <= p.x <= b.left + b.width && b.top <= p.y <= b.top + b.height)
            && (exists p <- pts :: p.x == b.left)
            && (exists p <- pts :: p.x == b.left + b.width)
            && (exists p <- pts :: p.y == b.top)
            && (exists p <- pts :: p.y == b.top + b.height)
  {
    if |pts| > 1 {
      BoundsTight(pts[1..]);
      assert forall q <- pts[1..] :: q in pts;
    }
  }

  /** A fabric object. Its kind is fixed at construction; its box can be changed with `set`. */
  class FabricObject {
    const kind: Kind
    var left: real
    var top: real
    var width: real
    var height: real

    constructor (kind: Kind, box: Box)
      ensures this.kind == kind && BoundingRect() == box
    {
      this.kind := kind;
      left, top, width, height := box.left, box.top, box.width, box.height;
    }

    /** `getBoundingRect()`, taken as the box the object stores. */
    function BoundingRect(): Box
      reads this
    {
      Box(left, top, width, height)
    }

    function Position(): Point
      reads this
    {
      Point(left, top)
    }

    function Snap(): Snapshot
      reads this
    {
      Snapshot(kind, BoundingRect())
    }
  }

  /** The `{x: left, y: top}` list that the handlers build from marker circles. */
  function Positions(objs: seq<FabricObject>): (ps: seq<Point>)
    reads objs
    ensures |ps| == |objs|
    ensures forall i :: 0 <= i < |objs| ==> ps[i] == objs[i].Position()
  {
    seq(|objs|, i requires 0 <= i < |objs| reads objs => objs[i].Position())
  }

  function Snaps(objs: seq<FabricObject>): (ss: seq<Snapshot>)
    reads objs
    ensures |ss| == |objs|
    ensures forall i :: 0 <= i < |objs| ==> ss[i] == objs[i].Snap()
  {
    seq(|objs|, i requires 0 <= i < |objs| reads objs => objs[i].Snap())
  }

  function BoundingRects(objs: seq<FabricObject>): (bs: seq<Box>)
    reads objs
    ensures |bs| == |objs|
    ensures forall i :: 0 <= i < |objs| ==> bs[i] == objs[i].BoundingRect()
  {
    seq(|objs|, i requires 0 <= i < |objs| reads objs => objs[i].BoundingRect())
  }

  // ---------------------------------------------------------------------------
  // The object list: fabric's `remove` finds an object with `indexOf` and
  // splices it out, so it removes the first occurrence and ignores absent ones.

  predicate Distinct<T(==)>(s: seq<T>)
  {
    forall i, j :: 0 <= i < j < |s| ==> s[i] != s[j]
  }

  function Elems<T>(s: seq<T>): set<T>
  {
    set x | x in s
  }

  /** `s` with the first occurrence of `x` removed. */
  function Without<T(==)>(s: seq<T>, x: T): (r: seq<T>)
    ensures x !in s ==> r == s
    ensures x in s ==> |r| == |s| - 1
  {
    if s == [] then []
    else if s[0] == x then s[1..]
    else [s[0]] + Without(s[1..], x)
  }

  /** `s` with every element of `drop` filtered out, order kept. */
  function Except<T(==)>(s: seq<T>, drop: set<T>): (r: seq<T>)
    ensures |r| <= |s|
  {
    if s == [] then []
    else (if s[0] in drop then [] else [s[0]]) + Except(s[1..], drop)
  }

  /** `Except` keeps exactly the elements outside `drop`. */
  lemma {:induction false} ExceptMembers<T>(s: seq<T>, drop: set<T>)
    ensures forall y <- Except(s, drop) :: y in s && y !in drop
    ensures forall y <- s :: y !in drop ==> y in Except(s, drop)
  {
    if s != [] {
      ExceptMembers(s[1..], drop);
    }
  }

  lemma {:induction false} ExceptNothing<T>(s: seq<T>, drop: set<T>)
    requires forall y <- s :: y !in drop
    ensures Except(s, drop) == s
  {
    if s != [] {
      ExceptNothing(s[1..], drop);
    }
  }

  /** On a list without repeats, removing the first occurrence removes every occurrence. */
  lemma {:induction false} WithoutIsExcept<T>(s: seq<T>, x: T)
    requires Distinct(s)
    ensures Without(s, x) == Except(s, {x})
  {
    if s != [] {
      if s[0] == x {
        assert forall y <- s[1..] :: y !in {x};
        ExceptNothing(s[1..], {x});
      } else {
        WithoutIsExcept(s[1..], x);
      }
    }
  }

  lemma {:induction false} ExceptTwice<T>(s: seq<T>, a: set<T>, b: set<T>)
    ensures Except(Except(s, a), b) == Except(s, a + b)
  {
    if s != [] {
      var e1 := Except(s[1..], a);
      ExceptTwice(s[1..], a, b);
      if s[0] in a {
        assert Except(s, a) == e1;
      } else {
        var e := Except(s, a);
        assert e == [s[0]] + e1;
        assert e[0] == s[0] && e[1..] == e1;
      }
    }
  }

  lemma {:induction false} ExceptDistinct<T>(s: seq<T>, drop: set<T>)
    requires Distinct(s)
    ensures Distinct(Except(s, drop))
  {
    if s != [] {
      ExceptDistinct(s[1..], drop);
      ExceptMembers(s[1..], drop);
      var rest := Except(s[1..], drop);
      if s[0] !in drop {
        assert s[0] !in s[1..];
        assert forall j :: 0 <= j < |rest| ==> ([s[0]] + rest)[j + 1] == rest[j];
      }
    }
  }

  lemma {:induction false} ExceptAppend<T>(s: seq<T>, x: T, drop: set<T>)
    requires x !in drop
    ensures Except(s + [x], drop) == Except(s, drop) + [x]
  {
    if s == [] {
      assert [x][1..] == [];
      assert Except([x], drop) == [x] + Except([], drop);
    } else {
      var head := if s[0] in drop then [] else [s[0]];
      assert (s + [x])[0] == s[0] && (s + [x])[1..] == s[1..] + [x];
      assert Except(s + [x], drop) == head + Except(s[1..] + [x], drop);
      ExceptAppend(s[1..], x, drop);
      assert Except(s, drop) == head + Except(s[1..], drop);
    }
  }

  /** Removing the last object of a list without repeats drops exactly the last position. */
  lemma {:induction false} WithoutLast<T>(s: seq<T>)
    requires Distinct(s) && |s| > 0
    ensures Without(s, s[|s| - 1]) == s[..|s| - 1]
  {
    if |s| > 1 {
      assert s[1..][..|s| - 2] == s[1..|s| - 1];
      WithoutLast(s[1..]);
      assert s[..|s| - 1] == [s[0]] + s[1..|s| - 1];
    }
  }

  lemma AppendDistinct<T>(s: seq<T>, x: T)
    requires Distinct(s) && x !in s
    ensures Distinct(s + [x])
  {
  }

  lemma ExceptEmpty<T>(s: seq<T>, os: seq<T>)
    ensures Except(s, Elems(os[..0])) == s
  {
    assert Elems(os[..0]) == {};
    ExceptNothing(s, {});
  }

  lemma ExceptStep<T>(s: seq<T>, os: seq<T>, i: nat)
    requires i < |os|
    ensures Except(Except(s, Elems(os[..i])), {os[i]}) == Except(s, Elems(os[..i + 1]))
  {
    assert os[..i + 1] == os[..i] + [os[i]];
    assert Elems(os[..i + 1]) == Elems(os[..i]) + {os[i]};
    ExceptTwice(s, Elems(os[..i]), {os[i]});
  }

  function PreviewSet(p: FabricObject?): set<FabricObject>
  {
    if p == null then {} else {p}
  }

  /** The background, the zoom, the viewport transform and the size of `c` are as they were. */
  twostate predicate SettingsUnchanged(c: Canvas)
    reads c
  {
    && c.backgroundColor == old(c.backgroundColor)
    && c.zoom == old(c.zoom)
    && c.viewportTransform == old(c.viewportTransform)
    && c.width == old(c.width)
    && c.height == old(c.height)
  }

  /**
   * The selection once the objects in `gone` have left the canvas: removing
   * the active object discards it, and any other selection stays.
   */
  function AfterRemoval(a: Active, gone: set<FabricObject>): (r: Active)
    ensures r == a || r == NoActive
    ensures r == a <==> !(a.Single? && a.obj in gone)
  {
    if a.Single? && a.obj in gone then NoActive else a
  }

  /** If the single active object is on the canvas, it still is after any removal, or nothing is active. */
  lemma {:induction false} RemovalKeepsActiveOnCanvas(objects: seq<FabricObject>, a: Active, gone: set<FabricObject>)
    requires a.Single? ==> a.obj in objects
    ensures AfterRemoval(a, gone).Single? ==> AfterRemoval(a, gone).obj in Except(objects, gone)
  {
    ExceptMembers(objects, gone);
  }

  lemma AfterRemovalTwice(a: Active, s: set<FabricObject>, t: set<FabricObject>)
    ensures AfterRemoval(AfterRemoval(a, s), t) == AfterRemoval(a, s + t)
  {
  }

  const Identity: seq<real> := [1.0, 0.0, 0.0, 1.0, 0.0, 0.0]

  /** A fabric canvas. `Valid` says no object is on it twice, which every `add` of a fresh object keeps. */
  class Canvas {
    var objects: seq<FabricObject>
    var active: Active
    var backgroundColor: string
    var zoom: real
    var viewportTransform: seq<real>
    var width: real
    var height: real

    ghost predicate Valid()
      reads this
    {
      Distinct(objects)
    }

    /** `new Canvas(el, {backgroundColor: 'transparent'})` sized to its container. */
    constructor (width: real, height: real)
      ensures Valid()
      ensures objects == [] && active == NoActive && backgroundColor == "transparent"
      ensures zoom == 1.0 && viewportTransform == Identity
      ensures this.width == width && this.height == height
    {
      objects := [];
      active := NoActive;
      backgroundColor := "transparent";
      zoom := 1.0;
      viewportTransform := Identity;
      this.width := width;
      this.height := height;
    }

    method Add(o: FabricObject)
      requires Valid() && o !in objects
      modifies this`objects
      ensures Valid()
      ensures objects == old(objects) + [o]
    {
      objects := objects + [o];
    }

    /** `remove(o)`: the first occurrence leaves the list, and an active `o` is discarded. */
    method Remove(o: FabricObject)
      requires Valid()
      modifies this`objects, this`active
      ensures Valid()
      ensures objects == Without(old(objects), o) == Except(old(objects), {o})
      ensures active == AfterRemoval(old(active), {o})
    {
      WithoutIsExcept(objects, o);
      ExceptDistinct(objects, {o});
      objects := Without(objects, o);
      if active == Single(o) {
        active := NoActive;
      }
    }

    /** `remove(...os)`: each argument in turn. */
    method RemoveAll(os: seq<FabricObject>)
      requires Valid()
      modifies this`objects, this`active
      ensures Valid()
      ensures objects == Except(old(objects), Elems(os))
      ensures active == AfterRemoval(old(active), Elems(os))
    {
      ghost var before := objects;
      ExceptEmpty(before, os);
      var i := 0;
      while i < |os|
        invariant 0 <= i <= |os|
        invariant Valid()
        invariant objects == Except(before, Elems(os[..i]))
        invariant active == AfterRemoval(old(active), Elems(os[..i]))
      {
        ExceptStep(before, os, i);
        AfterRemovalTwice(old(active), Elems(os[..i]), {os[i]});
        Remove(os[i]);
        i := i + 1;
      }
      assert os[..i] == os;
    }

    /** `clear()`: every object is removed, the selection and the background colour are reset. */
    method Clear()
      modifies this`objects, this`active, this`backgroundColor
      ensures Valid()
      ensures objects == [] && active == NoActive && backgroundColor == ""
    {
      objects := [];
      active := NoActive;
      backgroundColor := "";
    }

    method SetActiveObject(a: Active)
      modifies this`active
      ensures active == a
    {
      active := a;
    }

    method DiscardActiveObject()
      modifies this`active
      ensures active == NoActive
    {
      active := NoActive;
    }
  }
}
