/**
 * The before/after comparison slider: one position, a percentage, moved by the
 * keyboard and by dragging. Where a pointer lands is given as the raw percentage
 * it corresponds to; only what the slider does with that value is modelled.
 */
module BeforeAfter {
  import opened Wrappers

  /** `clamp(v)` with its default bounds 0 and 100. */
  function Clamp(v: real): (r: real)
    ensures 0.0 <= r <= 100.0
    ensures 0.0 <= v <= 100.0 ==> r == v
    ensures v < 0.0 ==> r == 0.0
    ensures v > 100.0 ==> r == 100.0
  {
    if v > 100.0 then 100.0 else if v < 0.0 then 0.0 else v
  }

  /** Clamping twice is clamping once. */
  lemma ClampIdempotent(v: real)
    ensures Clamp(Clamp(v)) == Clamp(v)
  {
  }

  /** Clamping keeps the order of values. */
  lemma ClampMonotone(u: real, v: real)
    requires u <= v
    ensures Clamp(u) <= Clamp(v)
  {
  }

  const DefaultInitial: real := 50.0
  const KeyStep: real := 2.0

  class Slider {
    /** The divider's position, in percent of the width. */
    var pos: real
    /** A drag is in progress (set when the handle is pressed, cleared on release). */
    var dragging: bool

    ghost predicate Valid()
      reads this
    {
      0.0 <= pos <= 100.0
    }

    /** The component mounts with `clamp(initial)`, 50 when no initial value is given. */
    constructor (initial: Option<real>)
      ensures Valid()
      ensures pos == Clamp(initial.GetOr(DefaultInitial)) && !dragging
    {
      pos := Clamp(initial.GetOr(DefaultInitial));
      dragging := false;
    }

    /** `onKeyDown`: arrows move by two, Home and End jump to the ends, other keys do nothing. */
    method KeyDown(key: string)
      requires Valid()
      modifies this
      ensures Valid() && dragging == old(dragging)
      ensures pos == if key == "ArrowLeft" then Clamp(old(pos) - KeyStep)
                     else if key == "ArrowRight" then Clamp(old(pos) + KeyStep)
                     else if key == "Home" then 0.0
                     else if key == "End" then 100.0
                     else old(pos)
    {
      if key == "ArrowLeft" { pos := Clamp(pos - KeyStep); }
      if key == "ArrowRight" { pos := Clamp(pos + KeyStep); }
      if key == "Home" { pos := 0.0; }
      if key == "End" { pos := 100.0; }
    }

    /** `startDrag`: with the container mounted, starts a drag and moves to the pointer. */
    method StartDrag(mounted: bool, pointerPercent: real)
      requires Valid()
      modifies this
      ensures Valid()
      ensures mounted ==> dragging && pos == Clamp(pointerPercent)
      ensures !mounted ==> pos == old(pos) && dragging == old(dragging)
    {
      if !mounted {
        return;
      }
      dragging := true;
      pos := Clamp(pointerPercent);
    }

    /** `onMove`: follows the pointer only while dragging a mounted slider. */
    method PointerMove(mounted: bool, pointerPercent: real)
      requires Valid()
      modifies this
      ensures Valid() && dragging == old(dragging)
      ensures pos == if old(dragging) && mounted then Clamp(pointerPercent) else old(pos)
    {
      if !dragging || !mounted {
        return;
      }
      pos := Clamp(pointerPercent);
    }

    /** `onUp`: ends the drag and leaves the position where it is. */
    method PointerUp()
      requires Valid()
      modifies this
      ensures Valid() && !dragging && pos == old(pos)
    {
      dragging := false;
    }
  }
}
