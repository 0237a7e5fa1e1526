/** The `useClassManagement` hook: the class registry with a selection and the new-class inputs. */
module UseClassManagement {

  import opened Wrappers
  import opened ClassRegistry

  class ClassManagement {
    var classes: map<string, DrawClass>
    var colorSet: set<string>
    var selectedClass: Option<DrawClass>
    var newClassName: string
    var newClassColor: string

    function State(): Registry
      reads this
    {
      Registry(classes, colorSet)
    }

    ghost predicate Valid()
      reads this
    {
      Consistent(State())
    }

    /** The initial state; `initialColor` is the `getRandomColor()` result the hook starts with. */
    constructor (initialColor: string)
      ensures Valid()
      ensures classes == map[] && colorSet == {} && selectedClass == None
      ensures newClassName == "" && newClassColor == initialColor
    {
      classes, colorSet := map[], {};
      selectedClass := None;
      newClassName, newClassColor := "", initialColor;
    }

    function FindClassByName(name: string): (r: Option<DrawClass>)
      reads this
      ensures r.None? <==> name !in classes
      ensures r.Some? ==> r.value == classes[name]
      ensures Valid() && r.Some? ==> r.value.name == name && r.value.color in colorSet
    {
      Lookup(State(), name)
    }

    method HandleClassSelected(name: string)
      modifies this`selectedClass
      ensures selectedClass == FindClassByName(name)
    {
      selectedClass := Lookup(State(), name);
    }

    /**
     * Adds the class named by the inputs, or rejects it. `nextColor` is the
     * `getRandomColor()` result the colour input is reset to; `toast` says
     * which toast the attempt raised.
     */
    method HandleAddClass(nextColor: string) returns (toast: AddOutcome)
      requires Valid()
      modifies this`classes, this`colorSet, this`newClassName, this`newClassColor
      ensures Valid()
      ensures toast == AddOutcomeOf(old(State()), old(newClassName), old(newClassColor))
      ensures State() == AddClass(old(State()), old(newClassName), old(newClassColor))
      ensures toast == Added ==> newClassName == "" && newClassColor == nextColor
      ensures toast != Added ==> newClassName == old(newClassName) && newClassColor == old(newClassColor)
    {
      AddKeepsConsistent(State(), newClassName, newClassColor);
      toast := AddOutcomeOf(State(), newClassName, newClassColor);
      if toast != Added {
        return;
      }
      var newClass := DrawClass(newClassName, newClassColor);
      classes := classes[newClassName := newClass];
      colorSet := colorSet + {newClassColor};
      newClassName := "";
      newClassColor := nextColor;
    }

    /** Deletes a class and frees its colour; `deletedToast` says whether the 'Class Deleted' toast was shown. */
    method HandleDeleteClass(name: string) returns (deletedToast: bool)
      requires Valid()
      modifies this`classes, this`colorSet, this`selectedClass
      ensures Valid()
      ensures State() == DeleteClass(old(State()), name)
      ensures selectedClass == None
      ensures deletedToast <==> name in old(classes)
    {
      DeleteKeepsConsistent(State(), name);
      deletedToast := name in classes;
      if deletedToast {
        colorSet := colorSet - {classes[name].color};
      }
      classes := classes - {name};
      selectedClass := None;
    }

    method SetNewClassName(name: string)
      modifies this`newClassName
      ensures newClassName == name
    {
      newClassName := name;
    }

    method SetNewClassColor(color: string)
      modifies this`newClassColor
      ensures newClassColor == color
    {
      newClassColor := color;
    }
  }
}
