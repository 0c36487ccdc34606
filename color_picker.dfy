/** The bounded colour picker: a duplicate-free list of selected colours,
    capped by `maxColors`, and the colour last picked. Every change of the
    list is pushed to the owner's `onColorSelect` callback; each method
    returns the list it hands to that callback, or None when it does not
    call it. */
module ColorSelection {
  import opened Catalog
  import opened Lists

  const DefaultInitialColor := "#ffffff"
  const DefaultMaxColors := 5

  /** Why an add did or did not change the selection. */
  datatype AddOutcome = Added | AlreadySelected | AtCapacity

  /** The guards of `addColor`, in source order: membership before capacity. */
  function CheckAdd(selected: seq<string>, maxColors: nat, c: string): (o: AddOutcome)
    ensures o == AlreadySelected <==> c in selected
    ensures o == AtCapacity <==> c !in selected && |selected| >= maxColors
    ensures o == Added <==> c !in selected && |selected| < maxColors
  {
    if c in selected then AlreadySelected
    else if |selected| >= maxColors then AtCapacity
    else Added
  }

  /** The selection invariant: no colour twice and at most the cap. */
  predicate Bounded(selected: seq<string>, maxColors: nat) {
    NoDuplicates(selected) && |selected| <= maxColors
  }

  /** A successful add keeps the selection bounded. */
  lemma AddKeepsBounded(selected: seq<string>, maxColors: nat, c: string)
    requires Bounded(selected, maxColors) && CheckAdd(selected, maxColors, c) == Added
    ensures Bounded(selected + [c], maxColors)
  {
    AppendNoDuplicates(selected, c);
  }

  /** A removal keeps the selection bounded. */
  lemma RemoveKeepsBounded(selected: seq<string>, maxColors: nat, c: string)
    requires Bounded(selected, maxColors)
    ensures Bounded(Without(selected, c), maxColors)
  {
    WithoutNoDuplicates(selected, c);
  }

  /** Adding a fresh colour below capacity and then removing it restores the
      selection exactly. */
  lemma AddThenRemove(selected: seq<string>, maxColors: nat, c: string)
    requires CheckAdd(selected, maxColors, c) == Added
    ensures Without(selected + [c], c) == selected
  {
    WithoutAppended(selected, c);
  }

  /** Removing a selected colour drops that one entry and keeps the rest in
      order; removing an unselected one leaves the list as it was. */
  lemma RemoveKeepsOrder(selected: seq<string>, maxColors: nat, c: string)
    requires Bounded(selected, maxColors)
    ensures c !in selected ==> Without(selected, c) == selected
    ensures forall i :: 0 <= i < |selected| && selected[i] == c ==>
              Without(selected, c) == selected[..i] + selected[i + 1..]
  {
    if c !in selected {
      WithoutAbsent(selected, c);
    }
    forall i | 0 <= i < |selected| && selected[i] == c
      ensures Without(selected, c) == selected[..i] + selected[i + 1..]
    {
      WithoutAt(selected, i, c);
    }
  }

  class ColorPicker {
    const maxColors: nat
    var selectedColors: seq<string>
    var currentColor: string

    ghost predicate Valid()
      reads this
    {
      Bounded(selectedColors, maxColors)
    }

    /** Mounting with the given props; a prop left undefined takes its default
        (`#ffffff` and 5). */
    constructor (initialColor: Option<string>, maxColorsProp: Option<nat>)
      ensures Valid()
      ensures selectedColors == []
      ensures currentColor == (if initialColor.Some? then initialColor.value else DefaultInitialColor)
      ensures maxColors == (if maxColorsProp.Some? then maxColorsProp.value else DefaultMaxColors)
    {
      maxColors := if maxColorsProp.Some? then maxColorsProp.value else DefaultMaxColors;
      selectedColors := [];
      currentColor := if initialColor.Some? then initialColor.value else DefaultInitialColor;
    }

    /** `addColor`: an already-selected colour, or a full selection, changes
        nothing and does not call back; otherwise the colour is appended, made
        current, and the new list is reported. */
    method AddColor(c: string) returns (outcome: AddOutcome, reported: Option<seq<string>>)
      requires Valid()
      modifies this
      ensures Valid()
      ensures outcome == CheckAdd(old(selectedColors), maxColors, c)
      ensures outcome != Added ==>
                selectedColors == old(selectedColors) && currentColor == old(currentColor) && reported == None
      ensures outcome == Added ==>
                selectedColors == old(selectedColors) + [c] && currentColor == c &&
                reported == Some(selectedColors)
    {
      outcome := CheckAdd(selectedColors, maxColors, c);
      if outcome != Added {
        reported := None;
        return;
      }
      AddKeepsBounded(selectedColors, maxColors, c);
      var newColors := selectedColors + [c];
      selectedColors := newColors;
      currentColor := c;
      reported := Some(newColors);
    }

    /** The colour input of the picker's input mode sets the current colour
        and nothing else. */
    method PickColor(c: string)
      modifies this
      ensures currentColor == c && selectedColors == old(selectedColors)
    {
      currentColor := c;
    }

    /** `removeColor`: the colour is filtered out, the current colour is kept,
        and the new list is always reported. */
    method RemoveColor(c: string) returns (reported: seq<string>)
      requires Valid()
      modifies this
      ensures Valid()
      ensures selectedColors == Without(old(selectedColors), c)
      ensures currentColor == old(currentColor)
      ensures reported == selectedColors
    {
      RemoveKeepsBounded(selectedColors, maxColors, c);
      var newColors := Without(selectedColors, c);
      selectedColors := newColors;
      reported := newColors;
    }
  }

  /** On a default picker, five distinct colours fit and a sixth is refused
      without a callback. */
  method CapacityExample() returns (last: AddOutcome, reported: Option<seq<string>>)
    ensures last == AtCapacity && reported == None
  {
    var picker := new ColorPicker(None, None);
    var o, r;
    o, r := picker.AddColor("#FF6B6B");
    o, r := picker.AddColor("#4ECDC4");
    o, r := picker.AddColor("#45B7D1");
    o, r := picker.AddColor("#FDCB6E");
    o, r := picker.AddColor("#6C5CE7");
    last, reported := picker.AddColor("#00B894");
  }
}
