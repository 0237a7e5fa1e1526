/**
 * `setupRectangleDrawing`: a press starts a rectangle at the pointer, a drag
 * stretches it between the press point and the pointer, and a release ends the
 * drag. Every rectangle gets an id `rectangle-N` from a counter shared by all
 * setups.
 */
module RectangleBuilder {

  import opened Fabric
  import opened ToolToggles
  import opened Editor
  import opened UndoAction

  /** The decimal digit for `d`. */
  function Digit(d: nat): char
    requires d < 10
  {
    "0123456789"[d]
  }

  /** The value of a decimal digit character. */
  function DigitValue(c: char): nat
  {
    if '0' <= c <= '9' then (c as int - '0' as int) as nat else 0
  }

  /** `${n}`: the decimal form of `n`, without leading zeros. */
  function NatToString(n: nat): (s: string)
    ensures |s| > 0 && (forall c <- s :: '0' <= c <= '9')
    ensures n >= 10 ==> |s| >= 2
    decreases n
  {
    if n < 10 then [Digit(n)] else NatToString(n / 10) + [Digit(n % 10)]
  }

  /** Reads a string of decimal digits back as a number. */
  function ParseNat(s: string): nat
    decreases |s|
  {
    if s == [] then 0 else ParseNat(s[..|s| - 1]) * 10 + DigitValue(s[|s| - 1])
  }

  /** The decimal form reads back as the number it was made from. */
  lemma {:induction false} ParseNatToString(n: nat)
    ensures ParseNat(NatToString(n)) == n
    decreases n
  {
    var s := NatToString(n);
    if n < 10 {
      assert s[..0] == [];
    } else {
      ParseNatToString(n / 10);
      assert s[..|s| - 1] == NatToString(n / 10);
    }
  }

  const IdPrefix: string := "rectangle-"

  /** The id the `n`-th rectangle receives: `rectangle-${n}`. */
  function RectangleId(n: nat): string
  {
    IdPrefix + NatToString(n)
  }

  /** Different counter values give different ids. */
  lemma RectangleIdInjective(m: nat, n: nat)
    ensures RectangleId(m) == RectangleId(n) <==> m == n
  {
    if RectangleId(m) == RectangleId(n) {
      assert RectangleId(m)[|IdPrefix|..] == NatToString(m);
      assert RectangleId(n)[|IdPrefix|..] == NatToString(n);
      ParseNatToString(m);
      ParseNatToString(n);
    }
  }

  /**
   * The module-wide `objectIdCounter`. `issued` records every id handed out so
   * far; they are exactly the ids below the counter.
   */
  class IdCounter {
    var next: nat
    ghost var issued: set<string>

    ghost predicate Valid()
      reads this
    {
      issued == set k | 0 <= k < next :: RectangleId(k)
    }

    constructor ()
      ensures Valid() && next == 0 && issued == {}
    {
      next := 0;
      issued := {};
    }

    /** `rectangle-${objectIdCounter++}`: the id is new, and is remembered as issued. */
    method Take() returns (id: string)
      requires Valid()
      modifies this
      ensures Valid()
      ensures id == RectangleId(old(next)) && next == old(next) + 1
      ensures id !in old(issued) && issued == old(issued) + {id}
    {
      id := RectangleId(next);
      if id in issued {
        var k :| 0 <= k < next && RectangleId(k) == id;
        RectangleIdInjective(k, next);
        assert false;
      }
      issued := issued + {id};
      next := next + 1;
    }
  }

  function Abs(r: real): real
  {
    if r < 0.0 then -r else r
  }

  /**
   * The box of a drag from (startX, startY) to the pointer (px, py): the
   * `mouse:move` update `width: |px - startX|`, `left: px - startX > 0 ? startX : px`,
   * and the same for the vertical axis.
   */
  function DragBox(startX: real, startY: real, px: real, py: real): (b: Box)
    ensures b.left == Min(startX, px) && b.left + b.width == Max(startX, px)
    ensures b.top == Min(startY, py) && b.top + b.height == Max(startY, py)
    ensures b.width >= 0.0 && b.height >= 0.0
  {
    var width := px - startX;
    var height := py - startY;
    Box(if width > 0.0 then startX else px, if height > 0.0 then startY else py, Abs(width), Abs(height))
  }

  /** The box does not depend on the direction of the drag, and a drag that has not moved is 0×0 at the start point. */
  lemma DragBoxSymmetric(startX: real, startY: real, px: real, py: real)
    ensures DragBox(startX, startY, px, py) == DragBox(px, py, startX, startY)
    ensures DragBox(startX, startY, startX, startY) == Box(startX, startY, 0.0, 0.0)
  {
  }

  /** The rectangle's fill: the stroke colour at alpha 0.3 when filling, transparent otherwise. */
  function RectFill(fillPolygon: bool, strokeColor: string): Fill
  {
    if fillPolygon then Translucent(strokeColor) else Transparent
  }

  /** What a new rectangle records: its fill and stroke, class colour, category `rectangle` and id. */
  function RectKind(fillPolygon: bool, strokeColor: string, strokeWidth: real, classColorName: string, id: string): Kind
  {
    RectShape(RectFill(fillPolygon, strokeColor), strokeColor, strokeWidth, classColorName, "rectangle", id)
  }

  /** The three handlers and the closure variables they share. */
  class RectangleDrawing {
    const canvas: Canvas
    const counter: IdCounter
    const ui: EditorState
    const strokeColor: string
    const strokeWidth: real
    const classColorName: string
    const fillPolygon: bool
    var isDrawing: bool
    var startX: real
    var startY: real
    var rect: FabricObject?

    /** `setupRectangleDrawing(canvas, strokeColor, strokeWidth, ...)`: nothing is being drawn yet. */
    constructor (canvas: Canvas, counter: IdCounter, ui: EditorState, strokeColor: string, strokeWidth: real,
                 classColorName: string, fillPolygon: bool)
      ensures this.canvas == canvas && this.counter == counter && this.ui == ui
      ensures this.strokeColor == strokeColor && this.strokeWidth == strokeWidth
      ensures this.classColorName == classColorName && this.fillPolygon == fillPolygon
      ensures !isDrawing && startX == 0.0 && startY == 0.0 && rect == null
    {
      this.canvas, this.counter, this.ui := canvas, counter, ui;
      this.strokeColor, this.strokeWidth := strokeColor, strokeWidth;
      this.classColorName, this.fillPolygon := classColorName, fillPolygon;
      isDrawing, startX, startY, rect := false, 0.0, 0.0, null;
    }

    /** `mouse:down` at (x, y): a 0×0 rectangle with the next id is added at the pointer and becomes the live one. */
    method MouseDown(x: real, y: real)
      requires canvas.Valid() && counter.Valid()
      modifies this`isDrawing, this`startX, this`startY, this`rect, canvas`objects, counter
      ensures canvas.Valid() && counter.Valid()
      ensures isDrawing && startX == x && startY == y
      ensures rect != null && fresh(rect)
      ensures rect.kind == RectKind(fillPolygon, strokeColor, strokeWidth, classColorName, RectangleId(old(counter.next)))
      ensures rect.kind.objectId !in old(counter.issued) && counter.next == old(counter.next) + 1
      ensures rect.BoundingRect() == Box(x, y, 0.0, 0.0)
      ensures canvas.objects == old(canvas.objects) + [rect]
    {
      isDrawing := true;
      startX := x;
      startY := y;
      var id := counter.Take();
      var r := new FabricObject(RectKind(fillPolygon, strokeColor, strokeWidth, classColorName, id), Box(x, y, 0.0, 0.0));
      rect := r;
      canvas.Add(r);
    }

    /** `mouse:move` to (px, py): while a drag is live, the rectangle spans the start point and the pointer. */
    method MouseMove(px: real, py: real)
      modifies rect
      ensures !old(isDrawing) || old(rect) == null ==> rect == null || unchanged(rect)
      ensures old(isDrawing) && old(rect) != null ==> rect.BoundingRect() == DragBox(startX, startY, px, py)
    {
      if !isDrawing || rect == null {
        return;
      }
      var b := DragBox(startX, startY, px, py);
      rect.left, rect.top, rect.width, rect.height := b.left, b.top, b.width, b.height;
    }

    /** `mouse:up`: the drag ends, the rectangle stays on the canvas, the undo flag is refreshed and the tool switches to SELECT. */
    method MouseUp()
      modifies this`isDrawing, this`rect, ui`canUndo, ui`toggle
      ensures !isDrawing && rect == null
      ensures ui.canUndo == (|canvas.objects| > 0) && ui.toggle == SELECT
    {
      isDrawing := false;
      rect := null;
      UpdateUndoState(canvas, ui);
      ui.toggle := SELECT;
    }
  }
}
