/** The canvas interaction modes (`ToolToggleEnum`) and the `ToolToggle` wrapper with its getters. */
module ToolToggles {

  datatype ToolToggleEnum = DRAW | PAN | ROTATION | SELECT | IMPORT
  {
    /** The string each member stands for. */
    function Value(): string
    {
      match this
      case DRAW => "draw"
      case PAN => "pan"
      case ROTATION => "rotation"
      case SELECT => "select"
      case IMPORT => "import"
    }
  }

  const AllToggles: seq<ToolToggleEnum> := [DRAW, PAN, ROTATION, SELECT, IMPORT]

  /** The five members carry five different strings, and the list above names each member once. */
  lemma ToggleValuesDistinct()
    ensures forall a: ToolToggleEnum, b: ToolToggleEnum :: a.Value() == b.Value() ==> a == b
    ensures forall t: ToolToggleEnum :: t in AllToggles
    ensures |AllToggles| == 5 && forall i, j :: 0 <= i < j < 5 ==> AllToggles[i] != AllToggles[j]
  {
    forall a: ToolToggleEnum, b: ToolToggleEnum | a.Value() == b.Value()
      ensures a == b
    {
      assert a.Value()[0] == b.Value()[0];
      if a.Value()[0] == 'p' {
        assert a.Value()[1] == b.Value()[1];
      }
    }
    forall t: ToolToggleEnum
      ensures t in AllToggles
    {
      var i := match t case DRAW => 0 case PAN => 1 case ROTATION => 2 case SELECT => 3 case IMPORT => 4;
      assert AllToggles[i] == t;
    }
  }

  /** `new ToolToggle(tool)`: one getter per mode. */
  datatype ToolToggle = ToolToggle(tool: ToolToggleEnum)
  {
    predicate IsDraw() { tool == DRAW }
    predicate IsPan() { tool == PAN }
    predicate IsRotation() { tool == ROTATION }
    predicate IsSelect() { tool == SELECT }
    predicate IsImport() { tool == IMPORT }

    /** How many of the five getters answer true. */
    function TrueGetters(): nat
    {
      (if IsDraw() then 1 else 0) + (if IsPan() then 1 else 0) + (if IsRotation() then 1 else 0)
      + (if IsSelect() then 1 else 0) + (if IsImport() then 1 else 0)
    }
  }

  /** For every mode exactly one getter holds, and it is the one named after the mode. */
  lemma ExactlyOneGetter(t: ToolToggle)
    ensures t.TrueGetters() == 1
    ensures t.IsDraw() <==> t.tool.Value() == "draw"
    ensures t.IsSelect() <==> t.tool.Value() == "select"
  {
    ToggleValuesDistinct();
  }

  /** `isDraw` is false for every mode but DRAW. */
  lemma OnlyDrawIsDraw(m: ToolToggleEnum)
    ensures ToolToggle(m).IsDraw() <==> m == DRAW
    ensures m != DRAW ==> !ToolToggle(m).IsDraw() && ToolToggle(m).TrueGetters() == 1
  {
  }
}
