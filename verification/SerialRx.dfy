/** The interrupt-driven receiver of the ns16550a driver: a ring of 256 slots between one interrupt
    handler and one task, and the waker slot through which the handler wakes the task. */
module SerialRx {
  import opened Wrappers
  import opened Parking

  type Byte = x: int | 0 <= x < 256
  const SIZE := 256

  // ---- the ring ----

  /** An index is a 16-bit counter, incremented with wrap-around and masked. */
  function Next(i: nat): (n: nat)
    ensures n < SIZE && (i < SIZE ==> n == if i == SIZE - 1 then 0 else i + 1)
  {
    (i + 1) % 0x1_0000 % SIZE
  }

  /** The bytes in slots `tail` up to but not including `head`, around the end of the buffer. */
  function Ring<T>(buf: seq<T>, tail: nat, head: nat): (q: seq<T>)
    requires |buf| == SIZE && tail < SIZE && head < SIZE
    ensures |q| < SIZE
  {
    if tail <= head then buf[tail..head] else buf[tail..] + buf[..head]
  }

  /** The FIFO that the ring refines: 255 bytes, the excess dropped. */
  function Offer<T>(q: seq<T>, x: T): seq<T> {
    if |q| == SIZE - 1 then q else q + [x]
  }

  function OfferAll<T>(q: seq<T>, xs: seq<T>): (q': seq<T>)
    requires |q| < SIZE
    ensures |q'| < SIZE && q <= q'
  {
    if xs == [] then q else Offer(OfferAll(q, xs[..|xs| - 1]), xs[|xs| - 1])
  }

  /** Until the FIFO is full nothing is dropped; from then on everything is. */
  lemma {:induction false} OfferAllDropsOnlyWhenFull<T>(q: seq<T>, xs: seq<T>)
    requires |q| < SIZE
    ensures var room := SIZE - 1 - |q|;
            OfferAll(q, xs) == q + if |xs| <= room then xs else xs[..room]
  {
    if xs != [] { OfferAllDropsOnlyWhenFull(q, xs[..|xs| - 1]); }
  }

  /** The full test is exact, and a store at `head` appends. */
  lemma RingPush<T>(buf: seq<T>, tail: nat, head: nat, x: T)
    requires |buf| == SIZE && tail < SIZE && head < SIZE
    ensures Next(head) == tail <==> |Ring(buf, tail, head)| == SIZE - 1
    ensures Next(head) != tail ==> Ring(buf[head := x], tail, Next(head)) == Ring(buf, tail, head) + [x]
  {}

  /** The empty test is exact, and the slot at `tail` holds the oldest byte. */
  lemma RingPop<T>(buf: seq<T>, tail: nat, head: nat)
    requires |buf| == SIZE && tail < SIZE && head < SIZE
    ensures head == tail <==> Ring(buf, tail, head) == []
    ensures head != tail ==> Ring(buf, tail, head) == [buf[tail]] + Ring(buf, Next(tail), head)
  {
    hide Next, Ring;
    if tail < head {
      StraightPop(buf, tail, head);
    } else if head < tail {
      WrappedPop(buf, tail, head);
    } else {
      EmptyRing(buf, tail);
    }
  }

  lemma StraightPop<T>(buf: seq<T>, tail: nat, head: nat)
    requires |buf| == SIZE && tail < head < SIZE
    ensures Ring(buf, tail, head) == [buf[tail]] + Ring(buf, Next(tail), head)
  {
    hide Next;
    assert Ring(buf, Next(tail), head) == buf[tail + 1..head];
  }

  lemma WrappedPop<T>(buf: seq<T>, tail: nat, head: nat)
    requires |buf| == SIZE && head < tail < SIZE
    ensures Ring(buf, tail, head) == [buf[tail]] + Ring(buf, Next(tail), head)
  {
    hide Next;
    assert Ring(buf, Next(tail), head) == buf[tail + 1..] + buf[..head];
  }

  lemma EmptyRing<T>(buf: seq<T>, at: nat)
    requires |buf| == SIZE && at < SIZE
    ensures Ring(buf, at, at) == []
  {}

  // ---- the specification ----

  /** The FIFO behind the ring, the waker slot, MIE, and two logs: every byte the ring took in and
      every byte handed to the task. */
  datatype State = State(fifo: seq<Byte>, slot: WakerSlot, mie: bool, accepted: seq<Byte>, delivered: seq<Byte>)

  /** `rx_handler` with `bytes` waiting in the UART. */
  function HandlerSpec(s: State, bytes: seq<Byte>): State
    requires |s.fifo| < SIZE
  {
    var fifo' := OfferAll(s.fifo, bytes);
    s.(fifo := fifo', slot := s.slot.Wake(), accepted := s.accepted + fifo'[|s.fifo|..])
  }

  /** Interrupts, one after another, if they are enabled. */
  function Interrupts(s: State, bursts: seq<seq<Byte>>): (s': State)
    requires |s.fifo| < SIZE
    ensures |s'.fifo| < SIZE && s.fifo <= s'.fifo
  {
    if bursts == [] || !s.mie then s
    else HandlerSpec(Interrupts(s, bursts[..|bursts| - 1]), bursts[|bursts| - 1])
  }

  function Take(s: State): State
    requires s.fifo != []
  {
    s.(fifo := s.fifo[1..], delivered := s.delivered + [s.fifo[0]])
  }

  /** `rx_pop`: interrupts land between its loads of `tail` and `head` (`g0`), between the load of
      `head` and the next access (`g1`), and between reading the byte and storing `tail` (`g2`). */
  function PopSpec(s: State, g0: seq<seq<Byte>>, g1: seq<seq<Byte>>, g2: seq<seq<Byte>>): (r: (State, Option<Byte>))
    requires |s.fifo| < SIZE
    ensures |r.0.fifo| < SIZE
  {
    var s1 := Interrupts(s, g0);
    var s2 := Interrupts(s1, g1);
    if s1.fifo != [] then (Take(Interrupts(s2, g2)), Some(s1.fifo[0])) else (s2, None)
  }

  /** `rx_register_waker`: `rx_pop` again once the waker is parked and interrupts are masked. */
  function PollSpec(s: State, g0: seq<seq<Byte>>, g1: seq<seq<Byte>>, g2: seq<seq<Byte>>): (r: (State, Option<Byte>))
    requires |s.fifo| < SIZE
    ensures |r.0.fifo| < SIZE
  {
    var (s1, fast) := PopSpec(s, g0, g1, g2);
    if fast.Some? then (s1, fast)
    else
      var s2 := s1.(slot := s1.slot.Park());
      if s2.fifo != [] then (Take(s2.(slot := s2.slot.Unpark(), mie := true)), Some(s2.fifo[0]))
      else (s2.(mie := true), None)
  }

  // ---- runs ----

  datatype Op =
    | Irq(bytes: seq<Byte>)
    | Poll(g0: seq<seq<Byte>>, g1: seq<seq<Byte>>, g2: seq<seq<Byte>>)
    | SetMie(mie: bool)

  function Apply(s: State, op: Op): (s': State)
    requires |s.fifo| < SIZE
    ensures |s'.fifo| < SIZE
  {
    match op
    case Irq(bytes) => Interrupts(s, [bytes])
    case Poll(g0, g1, g2) => PollSpec(s, g0, g1, g2).0
    case SetMie(b) => s.(mie := b)
  }

  function Run(s: State, ops: seq<Op>): (s': State)
    requires |s.fifo| < SIZE
    ensures |s'.fifo| < SIZE
  {
    if ops == [] then s else Apply(Run(s, ops[..|ops| - 1]), ops[|ops| - 1])
  }

  /** No byte is stranded, none is lost or reordered once accepted, and the wakers are accounted for. */
  ghost predicate Served(s: State) {
    && |s.fifo| < SIZE
    && s.slot.Accounted()
    && (s.fifo != [] ==> !s.slot.hasWaker)
    && s.accepted == s.delivered + s.fifo
  }

  /** The handler takes the burst, in order, as far as there is room, and wakes whoever is parked. */
  lemma HandlerServes(s: State, bytes: seq<Byte>)
    requires Served(s)
    ensures var s' := HandlerSpec(s, bytes);
            && Served(s') && s'.mie == s.mie && s'.delivered == s.delivered && s'.slot.made == s.slot.made
            && (forall w | w in s.slot.woken :: w in s'.slot.woken)
            && (s.slot.hasWaker ==> s.slot.waker in s'.slot.woken)
            && !s'.slot.hasWaker && (s'.slot == s.slot <== !s.slot.hasWaker)
            && (bytes != [] ==> s'.fifo != [])
            && (var taken := if |bytes| <= SIZE - 1 - |s.fifo| then bytes else bytes[..SIZE - 1 - |s.fifo|];
                s'.fifo == s.fifo + taken && s'.accepted == s.accepted + taken)
  {
    hide OfferAll, WakerSlot.Accounted;
    WakeKeepsAccounted(s.slot);
    OfferAllDropsOnlyWhenFull(s.fifo, bytes);
    var q := OfferAll(s.fifo, bytes);
    var rest := q[|s.fifo|..];
    assert q == s.fifo + rest;
    assert (s.delivered + s.fifo) + rest == s.delivered + (s.fifo + rest);
  }

  lemma {:induction false} InterruptsServe(s: State, bursts: seq<seq<Byte>>)
    requires Served(s)
    ensures var s' := Interrupts(s, bursts);
            && Served(s') && s'.mie == s.mie && s'.delivered == s.delivered && s'.slot.made == s.slot.made
            && (forall w | w in s.slot.woken :: w in s'.slot.woken)
            && (s.slot.hasWaker ==> s'.slot == s.slot || s.slot.waker in s'.slot.woken)
            && (s.mie && bursts != [] && bursts[|bursts| - 1] != [] ==> s'.fifo != [])
  {
    hide HandlerSpec;
    if bursts != [] && s.mie {
      InterruptsServe(s, bursts[..|bursts| - 1]);
      HandlerServes(Interrupts(s, bursts[..|bursts| - 1]), bursts[|bursts| - 1]);
    }
  }

  lemma TakeServes(s: State)
    requires Served(s.(fifo := [], accepted := s.delivered)) && |s.fifo| < SIZE && s.accepted == s.delivered + s.fifo
    requires s.fifo != [] && !s.slot.hasWaker
    ensures Served(Take(s))
  {
    assert s.fifo == [s.fifo[0]] + s.fifo[1..];
  }

  /** `rx_register_waker` returns the oldest byte not yet delivered, or parks its waker on an empty
      ring with interrupts enabled. */
  lemma PollServes(s: State, g0: seq<seq<Byte>>, g1: seq<seq<Byte>>, g2: seq<seq<Byte>>)
    requires Served(s)
    ensures var (s', r) := PollSpec(s, g0, g1, g2);
            && Served(s')
            && (r.Some? ==> s'.delivered == s.delivered + [r.value])
            && (s.fifo != [] ==> r == Some(s.fifo[0]))
            && (r == None ==> s'.fifo == [] && s'.slot.hasWaker && s'.slot.waker == s.slot.made && s'.mie)
            && (s'.mie == s.mie <==> s.mie || s.fifo != [])
  {
    var s1 := Interrupts(s, g0);
    var s2 := Interrupts(s1, g1);
    InterruptsServe(s, g0);
    InterruptsServe(s1, g1);
    InterruptsServe(s2, g2);
    if s1.fifo != [] {
      TakeServes(Interrupts(s2, g2));
    } else {
      ParkKeepsAccounted(s2.slot);
      UnparkKeepsAccounted(s2.slot.Park());
      if s2.fifo != [] { TakeServes(s2.(slot := s2.slot.Park().Unpark(), mie := true)); }
    }
  }

  /** Over every run, at every point where interrupts are enabled or between calls: a nonempty ring
      means that nobody is parked, and what was accepted is what was delivered followed by what the
      ring holds. */
  lemma {:induction false} RunServes(s: State, ops: seq<Op>)
    requires Served(s)
    ensures Served(Run(s, ops))
  {
    if ops != [] {
      var s1 := Run(s, ops[..|ops| - 1]);
      RunServes(s, ops[..|ops| - 1]);
      match ops[|ops| - 1]
      case Irq(bytes) => InterruptsServe(s1, [bytes]);
      case Poll(g0, g1, g2) => PollServes(s1, g0, g1, g2);
      case SetMie(_) =>
    }
  }

  predicate NoPoll(ops: seq<Op>) {
    forall i | 0 <= i < |ops| :: !ops[i].Poll?
  }

  /** Once the task has been told Pending, and until it polls again, its waker is parked on an empty
      ring or has been woken. */
  lemma {:induction false} PendingIsAnswered(s: State, g0: seq<seq<Byte>>, g1: seq<seq<Byte>>, g2: seq<seq<Byte>>, ops: seq<Op>)
    requires Served(s) && PollSpec(s, g0, g1, g2).1 == None && NoPoll(ops)
    ensures var w, s' := s.slot.made, Run(PollSpec(s, g0, g1, g2).0, ops);
            || (s'.fifo == [] && s'.slot.hasWaker && s'.slot.waker == w)
            || w in s'.slot.woken
  {
    var s0 := PollSpec(s, g0, g1, g2).0;
    PollServes(s, g0, g1, g2);
    if ops != [] {
      var last := |ops| - 1;
      PendingIsAnswered(s, g0, g1, g2, ops[..last]);
      RunServes(s0, ops[..last]);
      RunServes(s0, ops);
      if ops[last].Irq? { InterruptsServe(Run(s0, ops[..last]), [ops[last].bytes]); }
    }
  }

  // ---- the receiver ----

  class Receiver {
    var head: nat
    var tail: nat
    const buf: array<Byte>
    var hasWaker: bool
    var waker: nat
    var uart: seq<Byte> // the hardware FIFO that `read` drains
    var mie: bool
    ghost var made: nat
    ghost var woken: seq<nat>
    ghost var dropped: seq<nat>
    ghost var accepted: seq<Byte>
    ghost var delivered: seq<Byte>

    ghost predicate Valid()
      reads this, buf
    {
      buf.Length == SIZE && head < SIZE && tail < SIZE && uart == []
    }

    ghost function View(): State
      requires Valid()
      reads this, buf
    {
      State(Ring(buf[..], tail, head), WakerSlot(hasWaker, waker, made, woken, dropped), mie, accepted, delivered)
    }

    constructor ()
      ensures Valid() && fresh(buf) && View() == State([], EMPTY_SLOT, true, [], []) && Served(View())
    {
      head, tail, uart := 0, 0, [];
      buf := new Byte[SIZE](_ => 0);
      hasWaker, waker, mie := false, 0, true;
      made, woken, dropped, accepted, delivered := 0, [], [], [], [];
    }

    /** `rx_push` */
    method Push(x: Byte)
      requires buf.Length == SIZE && head < SIZE && tail < SIZE
      modifies this`head, this`accepted, buf
      ensures head < SIZE && Ring(buf[..], tail, head) == Offer(old(Ring(buf[..], tail, head)), x)
      ensures accepted == old(accepted) + Ring(buf[..], tail, head)[|old(Ring(buf[..], tail, head))|..]
    {
      RingPush(buf[..], tail, head, x);
      var next := Next(head);
      if next == tail { return; }
      buf[head] := x;
      head := next;
      accepted := accepted + [x];
    }

    /** `rx_wake` */
    method WakeWaiter()
      modifies this`hasWaker, this`woken
      ensures WakerSlot(hasWaker, waker, made, woken, dropped)
              == old(WakerSlot(hasWaker, waker, made, woken, dropped)).Wake()
    {
      var had := hasWaker;
      hasWaker := false;
      if had { woken := woken + [waker]; }
    }

    /** `rx_handler`, taken with `bytes` waiting in the UART. */
    method Handle(bytes: seq<Byte>)
      requires Valid()
      modifies this`head, this`accepted, this`uart, this`hasWaker, this`woken, buf
      ensures Valid() && View() == HandlerSpec(old(View()), bytes)
    {
      hide Ring;
      uart := bytes;
      ghost var q := Ring(buf[..], tail, head);
      ghost var n := 0;
      while uart != []
        invariant 0 <= n <= |bytes| && uart == bytes[n..] && head < SIZE && tail == old(tail)
        invariant |q| < SIZE && Ring(buf[..], tail, head) == OfferAll(q, bytes[..n])
        invariant accepted == old(accepted) + OfferAll(q, bytes[..n])[|q|..]
        invariant hasWaker == old(hasWaker) && woken == old(woken)
        decreases |uart|
      {
        var x := uart[0];
        uart := uart[1..];
        Push(x);
        assert bytes[..n + 1][..n] == bytes[..n];
        n := n + 1;
      }
      assert bytes[..n] == bytes;
      WakeWaiter();
    }

    /** Interrupts landing at a point where they may. */
    method Land(bursts: seq<seq<Byte>>)
      requires Valid()
      modifies this`head, this`accepted, this`uart, this`hasWaker, this`woken, buf
      ensures Valid() && View() == Interrupts(old(View()), bursts)
    {
      for i := 0 to |bursts|
        invariant Valid() && View() == Interrupts(old(View()), bursts[..i])
      {
        assert bursts[..i + 1][..i] == bursts[..i];
        if mie { Handle(bursts[i]); }
      }
      assert bursts[..|bursts|] == bursts;
    }

    /** `rx_pop` */
    method Pop(g0: seq<seq<Byte>>, g1: seq<seq<Byte>>, g2: seq<seq<Byte>>) returns (r: Option<Byte>)
      requires Valid()
      modifies this`head, this`tail, this`accepted, this`delivered, this`uart, this`hasWaker, this`woken, buf
      ensures Valid() && (View(), r) == PopSpec(old(View()), g0, g1, g2)
    {
      hide Ring, Interrupts, Next;
      var t := tail;
      Land(g0);
      var h := head;
      RingPop(buf[..], t, h);
      Land(g1);
      if h == t { return None; }
      var x := buf[t];
      RingPop(buf[..], t, head);
      Land(g2);
      RingPop(buf[..], t, head);
      tail := Next(t);
      delivered := delivered + [x];
      return Some(x);
    }

    /** `rx_register_waker`; `clone` is the waker that the context yields. */
    method Poll(clone: nat, g0: seq<seq<Byte>>, g1: seq<seq<Byte>>, g2: seq<seq<Byte>>) returns (r: Option<Byte>)
      requires Valid() && clone == made
      modifies this, buf
      ensures Valid() && (View(), r) == PollSpec(old(View()), g0, g1, g2)
    {
      hide Ring, PopSpec;
      r := Pop(g0, g1, g2);
      if r.Some? { return; }
      mie := false;
      if hasWaker { dropped := dropped + [waker]; }
      waker, made := clone, made + 1;
      hasWaker := true;
      ghost var s := View();
      MaskedPop(s);
      r := Pop([], [], []);
      if r.Some? {
        hasWaker := false;
        dropped := dropped + [waker];
      }
      mie := true;
    }
  }

  lemma MaskedPop(s: State)
    requires |s.fifo| < SIZE
    ensures PopSpec(s, [], [], []) == if s.fifo == [] then (s, None) else (Take(s), Some(s.fifo[0]))
  {}
}
