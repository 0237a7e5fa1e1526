/**
 * The `useDrawHandlers` hook: the same class registry as `useClassManagement`,
 * plus the brush size and a string-valued mode toggle.
 */
module DrawHandlers {

  import opened Wrappers
  import opened ClassRegistry

  class DrawHandlersHook {
    var brushSize: Option<real>
    var classes: map<string, DrawClass>
    var colorSet: set<string>
    var selectedClass: Option<DrawClass>
    var newClassName: string
    var newClassColor: string
    var toggle: string

    function State(): Registry
      reads this
    {
      Registry(classes, colorSet)
    }

    ghost predicate Valid()
      reads this
    {
      Consistent(State())
    }

    /** The initial state; `initialColor` is the `getRandomColor()` result the hook starts with. */
    constructor (initialColor: string)
      ensures Valid()
      ensures brushSize == Some(10.0) && toggle == "draw"
      ensures classes == map[] && colorSet == {} && selectedClass == None
      ensures newClassName == "" && newClassColor == initialColor
    {
      brushSize := Some(10.0);
      classes, colorSet := map[], {};
      selectedClass := None;
      newClassName, newClassColor := "", initialColor;
      toggle := "draw";
    }

    /** The slider reports its thumb values; the first one is the new size (`undefined` for an empty array). */
    method HandleBrushSizeChange(value: seq<real>)
      modifies this`brushSize
      ensures |value| > 0 ==> brushSize == Some(value[0])
      ensures |value| == 0 ==> brushSize == None
    {
      brushSize := Element(value, 0);
    }

    function FindClassByName(name: string): (r: Option<DrawClass>)
      reads this
      ensures r.None? <==> name !in classes
      ensures r.Some? ==> r.value == classes[name]
      ensures Valid() && r.Some? ==> r.value.name == name && r.value.color in colorSet
    {
      Lookup(State(), name)
    }

    method HandleClassSelected(name: string)
      modifies this`selectedClass
      ensures selectedClass == FindClassByName(name)
    {
      selectedClass := Lookup(State(), name);
    }

    method HandleAddClass(nextColor: string) returns (toast: AddOutcome)
      requires Valid()
      modifies this`classes, this`colorSet, this`newClassName, this`newClassColor
      ensures Valid()
      ensures toast == AddOutcomeOf(old(State()), old(newClassName), old(newClassColor))
      ensures State() == AddClass(old(State()), old(newClassName), old(newClassColor))
      ensures toast == Added ==> newClassName == "" && newClassColor == nextColor
      ensures toast != Added ==> newClassName == old(newClassName) && newClassColor == old(newClassColor)
    {
      AddKeepsConsistent(State(), newClassName, newClassColor);
      toast := AddOutcomeOf(State(), newClassName, newClassColor);
      if toast != Added {
        return;
      }
      classes := classes[newClassName := DrawClass(newClassName, newClassColor)];
      colorSet := colorSet + {newClassColor};
      newClassName := "";
      newClassColor := nextColor;
    }

    method HandleDeleteClass(name: string) returns (deletedToast: bool)
      requires Valid()
      modifies this`classes, this`colorSet, this`selectedClass
      ensures Valid()
      ensures State() == DeleteClass(old(State()), name)
      ensures selectedClass == None
      ensures deletedToast <==> name in old(classes)
    {
      DeleteKeepsConsistent(State(), name);
      deletedToast := name in classes;
      if deletedToast {
        colorSet := colorSet - {classes[name].color};
      }
      classes := classes - {name};
      selectedClass := None;
    }

    method SetNewClassName(name: string)
      modifies this`newClassName
      ensures newClassName == name
    {
      newClassName := name;
    }

    method SetNewClassColor(color: string)
      modifies this`newClassColor
      ensures newClassColor == color
    {
      newClassColor := color;
    }

    method SetToggle(value: string)
      modifies this`toggle
      ensures toggle == value
    {
      toggle := value;
    }
  }
}
