/**
 * The class registry that `useClassManagement` and `useDrawHandlers` both keep:
 * a map from class name to class, and the set of colours in use. This module
 * states the registry's operations on values and what they preserve; the two
 * hooks' state-changing handlers are proved against these functions.
 */
module ClassRegistry {

  import opened Wrappers

  /** A user-defined label with its colour. */
  datatype DrawClass = DrawClass(name: string, color: string)

  /** The two state fields `classes` and `colorSet` taken together. */
  datatype Registry = Registry(classes: map<string, DrawClass>, colorSet: set<string>)

  /** Which toast, if any, `handleAddClass` raises: none for empty input, one per rejection, none on success. */
  datatype AddOutcome = Ignored | DuplicateName | DuplicateColor | Added

  const EmptyRegistry := Registry(map[], {})

  function ColorsOf(classes: map<string, DrawClass>): set<string>
  {
    set n | n in classes :: classes[n].color
  }

  /**
   * The registry invariant: every class is stored under its own, non-empty
   * name and has a non-empty colour, no two classes share a colour, and
   * `colorSet` is exactly the set of class colours.
   */
  ghost predicate Consistent(r: Registry)
  {
    && (forall n :: n in r.classes ==> n != "" && r.classes[n].color != "")
    && (forall n :: n in r.classes ==> r.classes[n].name == n)
    && (forall a, b :: a in r.classes && b in r.classes && a != b ==> r.classes[a].color != r.classes[b].color)
    && r.colorSet == ColorsOf(r.classes)
  }

  lemma EmptyIsConsistent()
    ensures Consistent(EmptyRegistry)
  {
  }

  /** The checks of `handleAddClass`, in the order it makes them. */
  function AddOutcomeOf(r: Registry, name: string, color: string): AddOutcome
  {
    if name == "" || color == "" then Ignored
    else if name in r.classes then DuplicateName
    else if color in r.colorSet then DuplicateColor
    else Added
  }

  /** The registry after `handleAddClass` with `newClassName` = name and `newClassColor` = color. */
  function AddClass(r: Registry, name: string, color: string): Registry
  {
    if AddOutcomeOf(r, name, color) == Added
    then Registry(r.classes[name := DrawClass(name, color)], r.colorSet + {color})
    else r
  }

  /** The registry after `handleDeleteClass(name)`; an absent name leaves it as it was. */
  function DeleteClass(r: Registry, name: string): Registry
  {
    if name in r.classes
    then Registry(r.classes - {name}, r.colorSet - {r.classes[name].color})
    else Registry(r.classes - {name}, r.colorSet)
  }

  /** `classes.get(name) || null`. */
  function Lookup(r: Registry, name: string): Option<DrawClass>
  {
    if name in r.classes then Some(r.classes[name]) else None
  }

  /** What an add does, case by case: each rejection leaves the registry alone, a success inserts one class. */
  lemma AddEffect(r: Registry, name: string, color: string)
    ensures AddOutcomeOf(r, name, color) == Ignored <==> name == "" || color == ""
    ensures AddOutcomeOf(r, name, color) == DuplicateName <==> name != "" && color != "" && name in r.classes
    ensures (AddOutcomeOf(r, name, color) == DuplicateColor) == (name != "" && color != "" && name !in r.classes && color in r.colorSet)
    ensures AddOutcomeOf(r, name, color) != Added ==> AddClass(r, name, color) == r
    ensures AddOutcomeOf(r, name, color) == Added ==>
              var r' := AddClass(r, name, color);
              && r'.classes.Keys == r.classes.Keys + {name}
              && r'.classes[name] == DrawClass(name, color)
              && (forall n :: n in r.classes ==> r'.classes[n] == r.classes[n])
              && r'.colorSet == r.colorSet + {color}
  {
  }

  /** A successful add keeps the invariant. */
  lemma AddKeepsConsistent(r: Registry, name: string, color: string)
    requires Consistent(r)
    ensures Consistent(AddClass(r, name, color))
  {
    if AddOutcomeOf(r, name, color) == Added {
      var r' := AddClass(r, name, color);
      forall a, b | a in r'.classes && b in r'.classes && a != b
        ensures r'.classes[a].color != r'.classes[b].color
      {
        if a == name {
          assert r.classes[b].color in ColorsOf(r.classes);
        } else if b == name {
          assert r.classes[a].color in ColorsOf(r.classes);
        }
      }
      assert ColorsOf(r'.classes) == ColorsOf(r.classes) + {color} by {
        forall c | c in ColorsOf(r'.classes) ensures c in ColorsOf(r.classes) + {color} {
          var n :| n in r'.classes && r'.classes[n].color == c;
          if n != name { assert r.classes[n].color in ColorsOf(r.classes); }
        }
        forall c | c in ColorsOf(r.classes) + {color} ensures c in ColorsOf(r'.classes) {
          if c == color {
            assert r'.classes[name].color == c;
          } else {
            var n :| n in r.classes && r.classes[n].color == c;
            assert r'.classes[n].color == c;
          }
        }
      }
    }
  }

  /** A delete keeps the invariant. */
  lemma DeleteKeepsConsistent(r: Registry, name: string)
    requires Consistent(r)
    ensures Consistent(DeleteClass(r, name))
  {
    var r' := DeleteClass(r, name);
    if name in r.classes {
      var gone := r.classes[name].color;
      assert ColorsOf(r'.classes) == ColorsOf(r.classes) - {gone} by {
        forall c | c in ColorsOf(r'.classes) ensures c in ColorsOf(r.classes) - {gone} {
          var n :| n in r'.classes && r'.classes[n].color == c;
          assert r.classes[n].color in ColorsOf(r.classes);
        }
        forall c | c in ColorsOf(r.classes) - {gone} ensures c in ColorsOf(r'.classes) {
          var n :| n in r.classes && r.classes[n].color == c;
          assert r'.classes[n].color == c;
        }
      }
    } else {
      assert r'.classes == r.classes;
    }
  }

  /**
   * Delete frees the class's colour: afterwards the colour is not in use, the
   * other classes are untouched, and adding a new class with that colour succeeds.
   */
  lemma DeleteFreesColor(r: Registry, name: string, newName: string)
    requires Consistent(r) && name in r.classes
    requires newName != "" && newName !in r.classes - {name}
    ensures var r' := DeleteClass(r, name);
            && name !in r'.classes
            && (forall n :: n in r'.classes ==> n in r.classes && r'.classes[n] == r.classes[n])
            && r.classes[name].color !in r'.colorSet
            && AddOutcomeOf(r', newName, r.classes[name].color) == Added
  {
    DeleteKeepsConsistent(r, name);
  }

  /** Delete undoes a successful add. */
  lemma AddThenDelete(r: Registry, name: string, color: string)
    requires Consistent(r) && AddOutcomeOf(r, name, color) == Added
    ensures DeleteClass(AddClass(r, name, color), name) == r
  {
    var r' := AddClass(r, name, color);
    assert r'.classes - {name} == r.classes;
    assert r'.colorSet - {color} == r.colorSet;
  }

  /** A lookup finds a class stored under that very name, with a colour in use. */
  lemma LookupConsistent(r: Registry, name: string)
    requires Consistent(r)
    ensures Lookup(r, name).None? <==> name !in r.classes
    ensures Lookup(r, name).Some? ==>
              Lookup(r, name).value.name == name && Lookup(r, name).value.color in r.colorSet
  {
    if name in r.classes {
      assert r.classes[name].color in ColorsOf(r.classes);
    }
  }
}
