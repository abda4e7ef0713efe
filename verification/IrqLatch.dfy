/** `IrqLatch`: one interrupt source, one waiting task.  Interrupts may land at every point of
    `poll` at which they are enabled; each gap parameter says how many land there. */
module IrqLatch {
  import opened Parking

  datatype State = State(pending: bool, slot: WakerSlot, mie: bool)

  // ---- the specification ----

  /** `notify` in the interrupt handler. */
  function NotifySpec(s: State): State {
    s.(pending := true, slot := s.slot.Wake())
  }

  /** `n` interrupts, if they are enabled. */
  function Interrupts(s: State, n: nat): State {
    if n == 0 || !s.mie then s else NotifySpec(Interrupts(s, n - 1))
  }

  /** `poll`, with `gap` interrupts between the fast path and the masked region. */
  function PollSpec(s: State, gap: nat): (r: (State, bool)) {
    if s.pending then (s.(pending := false), true)
    else
      var s1 := Interrupts(s, gap);
      var s2 := s1.(slot := s1.slot.Park());
      if s2.pending then (s2.(pending := false, slot := s2.slot.Unpark(), mie := true), true)
      else (s2.(mie := true), false)
  }

  // ---- runs ----

  /** What may happen to a latch: the source interrupts, the waiter polls, the waiter's hart masks or
      unmasks interrupts between polls. */
  datatype Op = Irq | Poll(gap: nat) | SetMie(mie: bool)

  function Apply(s: State, op: Op): State {
    match op
    case Irq => Interrupts(s, 1)
    case Poll(gap) => PollSpec(s, gap).0
    case SetMie(b) => s.(mie := b)
  }

  function Run(s: State, ops: seq<Op>): State {
    if ops == [] then s else Apply(Run(s, ops[..|ops| - 1]), ops[|ops| - 1])
  }

  /** No event is stranded: a pending interrupt means that nobody is parked waiting for one. */
  ghost predicate Served(s: State) {
    s.slot.Accounted() && (s.pending ==> !s.slot.hasWaker)
  }

  lemma {:induction false} InterruptsServe(s: State, n: nat)
    requires Served(s)
    ensures Served(Interrupts(s, n)) && Interrupts(s, n).mie == s.mie
    ensures Interrupts(s, n).slot.made == s.slot.made
    ensures s.mie && n > 0 ==> Interrupts(s, n).pending
    ensures s.pending ==> Interrupts(s, n).pending
    ensures !s.mie || n == 0 ==> Interrupts(s, n) == s
    ensures forall w | w in s.slot.woken :: w in Interrupts(s, n).slot.woken
    ensures s.slot.hasWaker && Interrupts(s, n) != s ==> s.slot.waker in Interrupts(s, n).slot.woken
    ensures s.slot.hasWaker && Interrupts(s, n) == s ==> Interrupts(s, n).slot == s.slot
  {
    if n > 0 && s.mie {
      InterruptsServe(s, n - 1);
      WakeKeepsAccounted(Interrupts(s, n - 1).slot);
    }
  }

  lemma PollServes(s: State, gap: nat)
    requires Served(s)
    ensures var (s', ready) := PollSpec(s, gap);
            && Served(s') && !s'.pending
            && (ready <==> s.pending || (gap > 0 && s.mie))
            && (s.pending ==> s' == s.(pending := false))
            && (!s.pending ==> s'.slot.made == s.slot.made + 1 && s'.slot.hasWaker == !ready)
            && (!ready ==> s'.slot.hasWaker && s'.slot.waker == s.slot.made && s'.mie)
            && (s'.mie == s.mie <==> s.mie || s.pending)
  {
    var s1 := Interrupts(s, gap);
    InterruptsServe(s, gap);
    ParkKeepsAccounted(s1.slot);
    UnparkKeepsAccounted(s1.slot.Park());
  }

  /** Over every run no event is stranded, and every waker made is parked, woken or dropped, once. */
  lemma {:induction false} RunServes(s: State, ops: seq<Op>)
    requires Served(s)
    ensures Served(Run(s, ops))
  {
    if ops != [] {
      var s1 := Run(s, ops[..|ops| - 1]);
      RunServes(s, ops[..|ops| - 1]);
      match ops[|ops| - 1]
      case Irq => InterruptsServe(s1, 1);
      case Poll(gap) => PollServes(s1, gap);
      case SetMie(_) =>
    }
  }

  /** An interrupt has landed that no Ready has answered since. */
  predicate Awaited(s: State, ops: seq<Op>) {
    if ops == [] then s.pending
    else
      var before, op := ops[..|ops| - 1], ops[|ops| - 1];
      var s1 := Run(s, before);
      match op
      case Irq => Awaited(s, before) || s1.mie
      case Poll(gap) => !PollSpec(s1, gap).1 && (Awaited(s, before) || (gap > 0 && s1.mie))
      case SetMie(_) => Awaited(s, before)
  }

  /** No interrupt is lost and none is answered twice: over every run, what has landed since the last Ready
      is pending, and a poll answers Ready exactly when something has, before it or while it runs. */
  lemma {:induction false} ReadyAnswersInterrupts(s: State, ops: seq<Op>, gap: nat)
    requires Served(s)
    ensures Run(s, ops).pending <==> Awaited(s, ops)
    ensures PollSpec(Run(s, ops), gap).1 <==> Awaited(s, ops) || (gap > 0 && Run(s, ops).mie)
  {
    RunServes(s, ops);
    PollServes(Run(s, ops), gap);
    if ops != [] {
      var before := ops[..|ops| - 1];
      var s1 := Run(s, before);
      ReadyAnswersInterrupts(s, before, gap);
      RunServes(s, before);
      match ops[|ops| - 1]
      case Irq => InterruptsServe(s1, 1);
      case Poll(gap1) => PollServes(s1, gap1);
      case SetMie(_) =>
    }
  }

  predicate NoPoll(ops: seq<Op>) {
    forall i | 0 <= i < |ops| :: !ops[i].Poll?
  }

  /** Once `poll` has returned Pending, and until the next poll, the waker it left is woken if and
      only if an interrupt has arrived, and the interrupt is kept for the next poll. */
  lemma {:induction false} PendingIsAnswered(s: State, gap: nat, ops: seq<Op>)
    requires Served(s) && !PollSpec(s, gap).1 && NoPoll(ops)
    ensures var w, s' := s.slot.made, Run(PollSpec(s, gap).0, ops);
            && (s'.pending <==> w in s'.slot.woken)
            && (!s'.pending ==> s'.slot.hasWaker && s'.slot.waker == w)
  {
    var s0, w := PollSpec(s, gap).0, s.slot.made;
    PollServes(s, gap);
    RunServes(s0, ops);
    if ops == [] {
      assert multiset(s0.slot.woken)[w] == 0;
    } else {
      var last := |ops| - 1;
      PendingIsAnswered(s, gap, ops[..last]);
      RunServes(s0, ops[..last]);
      if ops[last].Irq? { InterruptsServe(Run(s0, ops[..last]), 1); }
    }
  }

  // ---- the latch ----

  class Latch {
    var pending: bool
    var hasWaker: bool
    var waker: nat
    var mie: bool
    ghost var made: nat
    ghost var woken: seq<nat>
    ghost var dropped: seq<nat>

    ghost function View(): State
      reads this
    {
      State(pending, WakerSlot(hasWaker, waker, made, woken, dropped), mie)
    }

    constructor ()
      ensures View() == State(false, EMPTY_SLOT, true) && Served(View())
    {
      pending, hasWaker, waker, mie := false, false, 0, true;
      made, woken, dropped := 0, [], [];
    }

    /** `notify` */
    method Notify()
      modifies this
      ensures View() == NotifySpec(old(View()))
    {
      pending := true;
      var had := hasWaker;
      hasWaker := false;
      if had { woken := woken + [waker]; }
    }

    /** Interrupts landing at a point where they may. */
    method Land(n: nat)
      modifies this
      ensures View() == Interrupts(old(View()), n)
    {
      for i := 0 to n
        invariant View() == Interrupts(old(View()), i)
      {
        if mie { Notify(); }
      }
    }

    /** `poll`; `clone` is the waker that the context yields. */
    method Poll(clone: nat, gap: nat) returns (ready: bool)
      requires clone == made
      modifies this
      ensures (View(), ready) == PollSpec(old(View()), gap)
    {
      var was := pending;
      pending := false;
      if was { return true; }
      Land(gap);
      assert made == clone by { LandMakesNone(old(View()), gap); }
      mie := false;
      if hasWaker { dropped := dropped + [waker]; }
      waker, made := clone, made + 1;
      hasWaker := true;
      was := pending;
      pending := false;
      if was {
        hasWaker := false;
        dropped := dropped + [waker];
        mie := true;
        return true;
      }
      mie := true;
      return false;
    }
  }

  lemma {:induction false} LandMakesNone(s: State, n: nat)
    ensures Interrupts(s, n).slot.made == s.slot.made
  {
    if n > 0 { LandMakesNone(s, n - 1); }
  }
}
