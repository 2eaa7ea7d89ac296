/**
 * The calm-down screen itself (the `Emergency` component of components/Emergency.tsx): which
 * mini flow is shown, and the celebration overlay that every flow's completion callback raises
 * and that a 3000 ms timeout takes down again, returning to the menu.
 */
module EmergencyScreen {

  datatype Mode = Menu | Breathe | Game | Ask

  /** The delay of the timeout that ends a celebration. */
  const CelebrationMs: nat := 3000

  class Emergency {
    var mode: Mode
    var showCelebration: bool
    /** The delays of the celebration timeouts scheduled by `handleFinish` and not yet fired, oldest first. */
    var pendingHides: seq<nat>

    /**
     * Every pending hide is a 3000 ms one, and the overlay is never up without a pending timeout
     * that will take it down.
     */
    predicate Valid()
      reads this
    {
      && (forall i :: 0 <= i < |pendingHides| ==> pendingHides[i] == CelebrationMs)
      && (showCelebration ==> |pendingHides| > 0)
    }

    constructor ()
      ensures mode == Menu && !showCelebration && pendingHides == []
      ensures Valid()
    {
      mode := Menu;
      showCelebration := false;
      pendingHides := [];
    }

    /** A menu button (to a flow) or a flow's back button (to the menu). */
    method SetMode(m: Mode)
      modifies this
      ensures mode == m
      ensures showCelebration == old(showCelebration) && pendingHides == old(pendingHides)
      ensures old(Valid()) ==> Valid()
    {
      mode := m;
    }

    /** `handleFinish`: show the celebration and schedule one more 3000 ms timeout to end it. */
    method HandleFinish()
      modifies this
      ensures showCelebration && pendingHides == old(pendingHides) + [CelebrationMs]
      ensures mode == old(mode)
      ensures old(Valid()) ==> Valid()
    {
      showCelebration := true;
      pendingHides := pendingHides + [CelebrationMs];
    }

    /** The oldest celebration timeout fires: hide the overlay and return to the menu. */
    method CelebrationTimeout()
      modifies this
      ensures old(pendingHides) != [] ==>
        mode == Menu && !showCelebration && pendingHides == old(pendingHides)[1..]
      ensures old(pendingHides) == [] ==>
        mode == old(mode) && showCelebration == old(showCelebration) && pendingHides == []
      ensures old(Valid()) ==> Valid()
    {
      if pendingHides != [] {
        showCelebration := false;
        mode := Menu;
        pendingHides := pendingHides[1..];
      }
    }
  }
}
