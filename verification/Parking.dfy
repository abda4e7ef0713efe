/** The waker slot shared by the interrupt latch and the serial receiver: a flag and a cell that a
    task fills with interrupts masked and an interrupt handler empties by swapping the flag. */
module Parking {
  /** Wakers are numbered in the order in which `clone` made them; `woken` and `dropped` are history. */
  datatype WakerSlot = WakerSlot(hasWaker: bool, waker: nat, made: nat, woken: seq<nat>, dropped: seq<nat>) {

    /** Every waker made so far is parked, or was woken, or was dropped: one of them, and once. */
    ghost predicate Accounted() {
      forall w: nat ::
        multiset(woken)[w] + multiset(dropped)[w] + (if hasWaker && waker == w then 1 else 0)
        == (if w < made then 1 else 0)
    }

    /** The handler's side: swap the flag and wake what was there. */
    function Wake(): WakerSlot {
      if hasWaker then this.(hasWaker := false, woken := woken + [waker]) else this
    }

    /** The task's side: drop a waker still parked, write a clone, set the flag. */
    function Park(): WakerSlot {
      this.(hasWaker := true, waker := made, made := made + 1,
            dropped := if hasWaker then dropped + [waker] else dropped)
    }

    /** The task's side after a successful recheck: clear the flag and drop the waker. */
    function Unpark(): WakerSlot {
      this.(hasWaker := false, dropped := dropped + [waker])
    }
  }

  const EMPTY_SLOT := WakerSlot(false, 0, 0, [], [])

  lemma WakeKeepsAccounted(s: WakerSlot)
    requires s.Accounted()
    ensures s.Wake().Accounted() && !s.Wake().hasWaker && s.Wake().made == s.made
    ensures s.hasWaker ==> s.waker in s.Wake().woken
    ensures forall w | w in s.woken :: w in s.Wake().woken
  {}

  lemma ParkKeepsAccounted(s: WakerSlot)
    requires s.Accounted()
    ensures s.Park().Accounted() && s.Park().hasWaker && s.Park().waker == s.made
  {
    assert multiset(s.woken)[s.made] + multiset(s.dropped)[s.made] == 0;
  }

  lemma UnparkKeepsAccounted(s: WakerSlot)
    requires s.Accounted() && s.hasWaker
    ensures s.Unpark().Accounted()
  {}
}
