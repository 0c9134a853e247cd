/** The Plate Method checklist dialog (`src/pages/PlateMethodModal.tsx`):
    three habit switches, a save button whose label tells whether the meal
    is perfect, and the two ways out of the dialog. */
module PlateMethod {

  /** `PlateCheck`: which of the three habits the meal followed. */
  datatype PlateCheck = PlateCheck(halfVeggies: bool, drankWater: bool, noSeconds: bool)

  /** The three switches of the dialog. */
  datatype Item = HalfVeggies | DrankWater | NoSeconds

  /** The checklist the dialog opens with and returns to after a save. */
  const Unchecked := PlateCheck(false, false, false)

  const PerfectLabel := "LOG PERFECT MEAL"
  const PlainLabel := "SAVE LOG"

  /** The flag behind one switch. */
  function Flag(c: PlateCheck, item: Item): bool
  {
    match item
    case HalfVeggies => c.halfVeggies
    case DrankWater => c.drankWater
    case NoSeconds => c.noSeconds
  }

  /** The `onValueChange` of one switch: `{ ...p, [item]: v }`. */
  function Switch(c: PlateCheck, item: Item, v: bool): (r: PlateCheck)
    ensures Flag(r, item) == v
    ensures forall other :: other != item ==> Flag(r, other) == Flag(c, other)
  {
    match item
    case HalfVeggies => c.(halfVeggies := v)
    case DrankWater => c.(drankWater := v)
    case NoSeconds => c.(noSeconds := v)
  }

  /** `allChecked`: every switch is on. */
  function AllChecked(c: PlateCheck): (b: bool)
    ensures b <==> forall item :: Flag(c, item)
  {
    assert Flag(c, HalfVeggies) == c.halfVeggies;
    assert Flag(c, DrankWater) == c.drankWater;
    assert Flag(c, NoSeconds) == c.noSeconds;
    c.halfVeggies && c.drankWater && c.noSeconds
  }

  /** The label of the save button. */
  function SaveLabel(c: PlateCheck): (caption: string)
    ensures caption == PerfectLabel <==> AllChecked(c)
    ensures caption == PerfectLabel || caption == PlainLabel
  {
    if AllChecked(c) then PerfectLabel else PlainLabel
  }

  /** A checklist with a switch turned off is not perfect, and its button
      reads SAVE LOG. */
  lemma {:induction false} SwitchOffIsNotPerfect(c: PlateCheck, item: Item)
    ensures !AllChecked(Switch(c, item, false))
    ensures SaveLabel(Switch(c, item, false)) == PlainLabel
  {
    var r := Switch(c, item, false);
    assert !Flag(r, item);
  }

  /** Turning every switch on, in any order, makes the meal perfect. */
  lemma {:induction false} AllSwitchesOnIsPerfect(c: PlateCheck, a: Item, b: Item, d: Item)
    requires a != b && b != d && a != d
    ensures AllChecked(Switch(Switch(Switch(c, a, true), b, true), d, true))
  {
    var r := Switch(Switch(Switch(c, a, true), b, true), d, true);
    forall item ensures Flag(r, item) {
      if item != a && item != b { assert item == d; }
    }
  }

  /** What the dialog hands to its parent, in order. */
  datatype Call = Saved(checks: PlateCheck) | Dismissed

  /** The dialog's own state: the switches, and the calls it made to
      `onSave` and `onDismiss`. */
  class PlateModal {
    var checks: PlateCheck
    var calls: seq<Call>

    constructor ()
      ensures checks == Unchecked && calls == []
    {
      checks := Unchecked;
      calls := [];
    }

    /** Flipping one switch to `v`. */
    method SetItem(item: Item, v: bool)
      modifies this
      ensures checks == Switch(old(checks), item, v)
      ensures calls == old(calls)
    {
      match item
      case HalfVeggies => checks := checks.(halfVeggies := v);
      case DrankWater => checks := checks.(drankWater := v);
      case NoSeconds => checks := checks.(noSeconds := v);
    }

    /** `handleSave`: hand the current checks to `onSave`, clear every
        switch, then dismiss. */
    method Save()
      modifies this
      ensures calls == old(calls) + [Saved(old(checks)), Dismissed]
      ensures checks == Unchecked
      ensures !AllChecked(checks)
    {
      calls := calls + [Saved(checks)];
      checks := PlateCheck(false, false, false);
      calls := calls + [Dismissed];
    }

    /** The CANCEL button: dismiss, keeping the switches as they are. */
    method Cancel()
      modifies this
      ensures calls == old(calls) + [Dismissed]
      ensures checks == old(checks)
    {
      calls := calls + [Dismissed];
    }
  }
}
