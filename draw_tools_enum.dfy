/** The drawing tools (`DrawToolsEnum`) and the `DrawTool` wrapper with its getters. */
module DrawTools {

  import opened Wrappers

  datatype DrawToolsEnum = BRUSH | POLYGON | ERASER
  {
    function Value(): string
    {
      match this
      case BRUSH => "brush"
      case POLYGON => "polygon"
      case ERASER => "eraser"
    }
  }

  /**
   * `Object.values(DrawToolsEnum).includes(value)`: the member whose string is
   * `value`, if there is one.
   */
  function FromValue(value: string): (r: Option<DrawToolsEnum>)
    ensures r.Some? ==> r.value.Value() == value
    ensures r.None? ==> forall t: DrawToolsEnum :: t.Value() != value
  {
    if value == "brush" then Some(BRUSH)
    else if value == "polygon" then Some(POLYGON)
    else if value == "eraser" then Some(ERASER)
    else None
  }

  /** Each member is recognised from its own string, so the strings are distinct. */
  lemma FromValueOfValue(t: DrawToolsEnum)
    ensures FromValue(t.Value()) == Some(t)
  {
  }

  /** The enum has no 'rectangle' member, though the toolbar offers that value. */
  lemma RectangleIsNotATool()
    ensures FromValue("rectangle") == None
    ensures forall t: DrawToolsEnum :: t.Value() != "rectangle"
  {
  }

  datatype DrawTool = DrawTool(tool: DrawToolsEnum)
  {
    predicate IsBrush() { tool == BRUSH }
    predicate IsPolygon() { tool == POLYGON }
    predicate IsEraser() { tool == ERASER }

    function TrueGetters(): nat
    {
      (if IsBrush() then 1 else 0) + (if IsPolygon() then 1 else 0) + (if IsEraser() then 1 else 0)
    }
  }

  /** For every tool exactly one getter holds. */
  lemma ExactlyOneToolGetter(t: DrawTool)
    ensures t.TrueGetters() == 1
    ensures t.IsPolygon() <==> t.tool.Value() == "polygon"
  {
    FromValueOfValue(t.tool);
  }
}
