/** The `useDrawTools` hook: brush size, drawing tool and mode, with a guarded tool setter. */
module UseDrawTools {

  import opened Wrappers
  import opened DrawTools
  import opened ToolToggles

  /** The tool after `handleDrawToolChange(value)`: the named member, or the current tool for any other string. */
  function NextTool(current: DrawToolsEnum, value: string): DrawToolsEnum
  {
    match FromValue(value)
    case Some(t) => t
    case None => current
  }

  /** Only the three member strings change the tool; each sets exactly its member, and repeating it changes nothing. */
  lemma NextToolSpec(current: DrawToolsEnum, value: string)
    ensures NextTool(current, value) != current ==> value in {"brush", "polygon", "eraser"}
    ensures value == "rectangle" ==> NextTool(current, value) == current
    ensures forall t: DrawToolsEnum :: NextTool(current, t.Value()) == t
    ensures NextTool(NextTool(current, value), value) == NextTool(current, value)
  {
    forall t: DrawToolsEnum
      ensures NextTool(current, t.Value()) == t
    {
      FromValueOfValue(t);
    }
  }

  class DrawToolsHook {
    var brushSize: Option<real>
    var drawTool: DrawToolsEnum
    var toggle: ToolToggleEnum

    constructor ()
      ensures brushSize == Some(10.0) && drawTool == BRUSH && toggle == DRAW
    {
      brushSize, drawTool, toggle := Some(10.0), BRUSH, DRAW;
    }

    /** The slider reports its thumb values; the first one is the new size (`undefined` for an empty array). */
    method HandleBrushSizeChange(value: seq<real>)
      modifies this`brushSize
      ensures |value| > 0 ==> brushSize == Some(value[0])
      ensures |value| == 0 ==> brushSize == None
    {
      brushSize := Element(value, 0);
    }

    method HandleDrawToolChange(value: string)
      modifies this`drawTool
      ensures drawTool == NextTool(old(drawTool), value)
      ensures FromValue(value).None? ==> drawTool == old(drawTool)
      ensures FromValue(value).Some? ==> drawTool.Value() == value
    {
      var t := FromValue(value);
      if t.Some? {
        drawTool := t.value;
      }
    }

    method SetToggle(value: ToolToggleEnum)
      modifies this`toggle
      ensures toggle == value
    {
      toggle := value;
    }
  }
}
