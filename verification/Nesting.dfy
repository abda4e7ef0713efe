/** Invariants that hold in every run, whatever the application and the interrupts do: the shape
    of the control stack, the priority stack, the bitmap, and the pend handshake. */
module Nesting {
  import opened Wrappers
  import opened Kernel
  import opened Machine

  // ---- the control stack and MIE ----

  /** May an interrupt land while the innermost frame is this one? */
  predicate Unmasked(pc: SoftPc) {
    pc.Running? || pc.DisableIrq?
  }

  /** MIE as the control stack determines it; a called function inherits its caller's. */
  predicate MieOf(fs: Frames) {
    match fs
    case Empty => false
    case Over(Main, _) => false
    case Over(Idle, _) => true
    case Over(Handler, _) => false
    case Over(Soft(pc), _) => Unmasked(pc)
    case Over(_, below) => MieOf(below)
  }

  /** Is `u`'s future being polled here? */
  predicate PollsTask(f: Frame, u: TaskId) {
    f.Soft? && f.soft.Running? && f.soft.run == Hold(u, Polling)
  }

  /** Traps interrupt only unmasked code, and kernel functions are called only by user code. */
  predicate Shaped(fs: Frames) {
    match fs
    case Empty => false
    case Over(Main, below) => below.Empty?
    case Over(Idle, below) => below.Empty?
    case Over(Handler, below) => Shaped(below) && MieOf(below)
    case Over(Soft(_), below) => Shaped(below) && MieOf(below)
    case Over(Join(_, u, _), below) => Shaped(below) && PollsTask(below.top, u)
    case Over(_, below) => Shaped(below) && RunsUserCode(below.top)
  }

  ghost predicate Control(m: Machine) {
    && m.k.WellFormed()
    && FramesOk(m.fs, |m.k.queues|, |m.k.slots|)
    && Shaped(m.fs)
    && m.mie == MieOf(m.fs)
  }

  lemma StepKeepsControl(m: Machine, a: Action, m': Machine)
    requires Control(m) && Step(m, a) == Some(m')
    ensures Control(m') && |m'.k.queues| == |m.k.queues| && |m'.k.slots| == |m.k.slots|
  {}

  /** A frame that runs no kernel operation and holds no task leaves the slots alone, but for the flag
      that a dequeue clears. */
  lemma OthersKeepSlots(k: Kernel, f: Frame)
    requires k.WellFormed() && FrameOk(f, |k.queues|, |k.slots|)
    requires !f.Wake? && !f.Spawn? && !f.Join? && !(f.Soft? && f.soft.Running? && f.soft.run.Hold?)
    ensures var k' := TopStep(k, f).0;
            k'.SameSize(k) && forall t | 0 <= t < |k.slots| :: k'.slots[t] == k.slots[t].(queued := k'.slots[t].queued)
  {
    hide WakeStep, SpawnStep, JoinStep, HoldStep, Highest;
  }

  // ---- the priority stack ----

  /** The run tokens alive on the control stack, oldest first. */
  function Tokens(fs: Frames): seq<Prio> {
    if fs.Empty? then []
    else match RunToken(fs.top)
      case None => Tokens(fs.below)
      case Some(p) => Tokens(fs.below) + [p]
  }

  /** Strictly increasing in priority, that is, strictly decreasing as numbers below `n`. */
  ghost predicate Nested(stack: seq<Prio>, n: nat) {
    && (forall i | 0 <= i < |stack| :: stack[i] < n)
    && (forall i, j | 0 <= i < j < |stack| :: stack[j] < stack[i])
  }

  ghost predicate Stacked(m: Machine) {
    m.k.prioStack == Tokens(m.fs) && Nested(m.k.prioStack, |m.k.queues|)
  }

  /** Pigeonhole: a strictly nested stack has room for every level it can still grow by. */
  lemma {:induction false} NestedFits(stack: seq<Prio>, n: nat)
    requires Nested(stack, n)
    ensures |stack| <= n
    ensures stack != [] ==> stack[|stack| - 1] <= n - |stack|
  {
    if |stack| > 0 {
      var rest := stack[..|stack| - 1];
      NestedFits(rest, n);
      assert 0 <= stack[|stack| - 1] < n;
      if rest != [] { assert rest[|rest| - 1] == stack[|stack| - 2]; }
    }
  }

  /** A step leaves the priority stack and the frame's run token alone. */
  ghost predicate KeepsTokens(k: Kernel, f: Frame, r: (Kernel, Next)) {
    && r.0.prioStack == k.prioStack
    && (r.1.Goto? ==> RunToken(r.1.f) == RunToken(f))
    && (r.1.Leave? ==> RunToken(f) == None)
  }

  lemma WakeKeepsTokens(k: Kernel, t: TaskId, pc: WakePc)
    requires k.WellFormed() && FrameOk(Wake(t, pc), |k.queues|, |k.slots|)
    ensures KeepsTokens(k, Wake(t, pc), WakeStep(k, t, pc))
  {}

  lemma SpawnKeepsTokens(k: Kernel, t: TaskId, p: Prio, pc: SpawnPc)
    requires k.WellFormed() && FrameOk(Spawn(t, p, pc), |k.queues|, |k.slots|)
    ensures KeepsTokens(k, Spawn(t, p, pc), SpawnStep(k, t, p, pc))
  {}

  lemma RunKeepsTokens(k: Kernel, p: Prio, pc: RunPc)
    requires k.WellFormed() && FrameOk(Soft(Running(p, pc)), |k.queues|, |k.slots|)
    ensures KeepsTokens(k, Soft(Running(p, pc)), RunStep(k, p, pc))
  {}

  /** Only `try_preempt` and `complete_executor` touch the priority stack or a run token. */
  lemma StepKeepsTokens(k: Kernel, f: Frame)
    requires k.WellFormed() && FrameOk(f, |k.queues|, |k.slots|)
    requires f != Soft(TryPreempt) && !(f.Soft? && f.soft.Complete?)
    ensures KeepsTokens(k, f, TopStep(k, f))
  {
    match f
    case Wake(t, pc) => WakeKeepsTokens(k, t, pc);
    case Spawn(t, p, pc) => SpawnKeepsTokens(k, t, p, pc);
    case Soft(Running(p, pc)) => RunKeepsTokens(k, p, pc);
    case _ =>
  }

  lemma StepKeepsStacked(m: Machine, a: Action, m': Machine)
    requires Control(m) && Stacked(m) && Step(m, a) == Some(m')
    ensures Stacked(m')
  {
    match a
    case Tick => TickKeepsStacked(m, m');
    case MaskedWake(t) => assert m'.fs == m.fs && m'.k.prioStack == m.k.prioStack;
    case _ => assert m'.k == m.k;
  }

  /** `try_preempt` pushes what it grants; `complete_executor` pops its own. */
  lemma GrantKeepsStacked(m: Machine, m': Machine)
    requires Control(m) && Stacked(m) && Step(m, Tick) == Some(m') && m.fs.top == Soft(TryPreempt)
    ensures Stacked(m')
  {
    hide WakeStep, SpawnStep, RunStep, JoinStep, CompleteSection;
    assert Tokens(m.fs) == Tokens(m.fs.below);
  }

  lemma CompleteKeepsStacked(m: Machine, m': Machine)
    requires Control(m) && Stacked(m) && Step(m, Tick) == Some(m')
    requires m.fs.top.Soft? && m.fs.top.soft.Complete?
    ensures Stacked(m')
  {
    hide WakeStep, SpawnStep, RunStep, JoinStep, PreemptSection, Nested;
    var p := m.fs.top.soft.p;
    assert Tokens(m.fs) == Tokens(m.fs.below) + [p] && Tokens(m'.fs) == Tokens(m.fs.below);
    DroppingLast(Tokens(m.fs.below), p, |m.k.queues|);
  }

  lemma DroppingLast(stack: seq<Prio>, p: Prio, n: nat)
    requires Nested(stack + [p], n)
    ensures (stack + [p])[..|stack + [p]| - 1] == stack && Nested(stack, n)
  {
    assert forall i | 0 <= i < |stack| :: (stack + [p])[i] == stack[i];
  }

  lemma TickKeepsStacked(m: Machine, m': Machine)
    requires Control(m) && Stacked(m) && Step(m, Tick) == Some(m')
    ensures Stacked(m')
  {
    hide WakeStep, SpawnStep, HoldStep, JoinStep, RunStep, SoftStep, DrainedSection;
    var f := m.fs.top;
    if f == Soft(TryPreempt) {
      GrantKeepsStacked(m, m');
    } else if f.Soft? && f.soft.Complete? {
      CompleteKeepsStacked(m, m');
    } else {
      StepKeepsTokens(m.k, f);
      assert m'.k == TopStep(m.k, f).0;
      assert Tokens(m'.fs) == Tokens(m.fs);
    }
  }

  // ---- the bitmap against the queues ----

  /** Does priority `p` own a run activation that has not yet cleared its bit and left its loop? */
  predicate Draining(fs: Frames, p: Prio) {
    fs.Over? && (ActiveAt(fs.top, p) || Draining(fs.below, p))
  }

  predicate ActiveAt(f: Frame, p: Prio) {
    f.Soft? && (f.soft.EnableIrq? || f.soft.Running?) && f.soft.p == p
  }

  /** A nonempty queue has its bit set; a bit set over an empty queue belongs to a priority whose
      `run` has yet to take the clear-and-break branch. */
  ghost predicate Bitmapped(m: Machine) {
    && (forall p | 0 <= p < |m.k.queues| && m.k.queues[p] != [] :: p in m.k.ready)
    && (forall p | p in m.k.ready && p < |m.k.queues| && m.k.queues[p] == [] :: Draining(m.fs, p))
  }

  /** The step touches queues and bitmap at most by one `EnqueueSection`. */
  ghost predicate MayEnqueue(k: Kernel, k': Kernel) {
    && k'.prioStack == k.prioStack
    && ((k'.queues == k.queues && k'.ready == k.ready)
        || (exists p: nat, t :: p < |k.queues| && k'.queues == k.queues[p := k.queues[p] + [t]] && k'.ready == k.ready + {p}))
  }

  lemma WakeMayEnqueue(k: Kernel, t: TaskId, pc: WakePc)
    requires k.WellFormed() && FrameOk(Wake(t, pc), |k.queues|, |k.slots|)
    ensures MayEnqueue(k, WakeStep(k, t, pc).0)
  {}

  lemma SpawnMayEnqueue(k: Kernel, t: TaskId, p: Prio, pc: SpawnPc)
    requires k.WellFormed() && FrameOk(Spawn(t, p, pc), |k.queues|, |k.slots|)
    ensures MayEnqueue(k, SpawnStep(k, t, p, pc).0)
  {}

  lemma MaskedWakeMayEnqueue(k: Kernel, t: TaskId)
    requires k.WellFormed() && t < |k.slots|
    ensures MayEnqueue(k, WakeSection(k, t))
  {}

  lemma HoldMayEnqueue(k: Kernel, p: Prio, t: TaskId, pc: HoldPc)
    requires k.WellFormed() && FrameOk(Soft(Running(p, Hold(t, pc))), |k.queues|, |k.slots|)
    ensures MayEnqueue(k, HoldStep(k, p, t, pc).0)
    ensures var next := HoldStep(k, p, t, pc).1; next.Stuck? || (next.Goto? && ActiveAt(next.f, p))
  {
    if pc == Despawn && k.slots[t].joinWaker.Some? {
      var s := k.slots[t];
      MaskedWakeMayEnqueue(k.Put(t, s.(spawned := false, joinWaker := None)), s.joinWaker.value);
    }
  }

  lemma EnqueueKeepsBitmapped(m: Machine, m': Machine)
    requires m.k.WellFormed() && m'.k.WellFormed()
    requires Bitmapped(m) && MayEnqueue(m.k, m'.k)
    requires forall p :: Draining(m.fs, p) ==> Draining(m'.fs, p)
    ensures Bitmapped(m')
  {}

  lemma StepKeepsBitmapped(m: Machine, a: Action, m': Machine)
    requires Control(m) && Bitmapped(m) && Step(m, a) == Some(m')
    ensures Bitmapped(m')
  {
    match a
    case Tick => TickKeepsBitmapped(m, m');
    case MaskedWake(t) =>
      MaskedWakeMayEnqueue(m.k, t);
      EnqueueKeepsBitmapped(m, m');
    case _ => assert m'.k == m.k;
  }

  lemma TickKeepsBitmapped(m: Machine, m': Machine)
    requires Control(m) && Bitmapped(m) && Step(m, Tick) == Some(m')
    ensures Bitmapped(m')
  {
    hide WakeStep, SpawnStep, HoldStep, MayEnqueue;
    var k, f := m.k, m.fs.top;
    match f
    case Wake(t, pc) =>
      WakeMayEnqueue(k, t, pc);
      EnqueueKeepsBitmapped(m, m');
    case Spawn(t, p, pc) =>
      SpawnMayEnqueue(k, t, p, pc);
      EnqueueKeepsBitmapped(m, m');
    case Soft(Running(p, Hold(t, pc))) =>
      HoldMayEnqueue(k, p, t, pc);
      EnqueueKeepsBitmapped(m, m');
    case Soft(Running(p, Dequeue)) => DequeueKeepsBitmapped(m, m', p);
    case _ =>
  }

  lemma DequeueKeepsBitmapped(m: Machine, m': Machine, p: Prio)
    requires Control(m) && Bitmapped(m) && m.fs.top == Soft(Running(p, Dequeue))
    requires Step(m, Tick) == Some(m')
    ensures Bitmapped(m')
  {}

  // ---- no lost preemption ----

  /** Above the innermost run token, some activation is between its enqueue section and the end of its
      pend decision, with the marker not yet stored.  What frames below the token owe does not count. */
  predicate Owing(fs: Frames) {
    fs.Over? && (OwesPend(fs.top) || (RunToken(fs.top) == None && Owing(fs.below)))
  }

  predicate OwesPend(f: Frame) {
    (f.Wake? && f.wake == StoreMarker) || (f.Spawn? && f.spawn == Decide)
  }

  /** Above the innermost run token, some activation is inside `pend`, between the marker store and the
      interrupt it sends. */
  predicate Sending(fs: Frames) {
    fs.Over? && ((fs.top.Wake? && fs.top.wake == SendIpi) || (RunToken(fs.top) == None && Sending(fs.below)))
  }

  /** The scheduler is bound to look at the bitmap again. */
  predicate Attended(m: Machine) {
    || (m.k.marker && (m.k.msip || Sending(m.fs)))
    || Owing(m.fs)
    || (m.fs.Over? && m.fs.top == Soft(TryPreempt))
  }

  ghost predicate Covered(m: Machine) {
    SomethingOutranks(m.k) ==> Attended(m)
  }

  lemma StepKeepsCovered(m: Machine, a: Action, m': Machine)
    requires Control(m) && Stacked(m) && Covered(m) && Step(m, a) == Some(m')
    ensures Covered(m')
  {
    var k, f := m.k, m.fs.top;
    match a
    case Tick =>
      match f {
        case Wake(t, pc) => WakeKeepsCovered(m, m', t, pc);
        case Spawn(t, p, pc) => SpawnKeepsCovered(m, m', t, p, pc);
        case Soft(Running(p, Hold(t, pc))) => HoldKeepsCovered(m, m', p, t, pc);
        case Soft(TryPreempt) => PreemptKeepsCovered(m, m');
        case _ =>
      }
    case MaskedWake(t) => MaskedWakePends(k, t);
    case _ => assert m'.k == k;
  }

  lemma WakeKeepsCovered(m: Machine, m': Machine, t: TaskId, pc: WakePc)
    requires Control(m) && Covered(m) && m.fs.top == Wake(t, pc) && Step(m, Tick) == Some(m')
    ensures Covered(m')
  {}

  lemma SpawnKeepsCovered(m: Machine, m': Machine, t: TaskId, p: Prio, pc: SpawnPc)
    requires Control(m) && Covered(m) && m.fs.top == Spawn(t, p, pc) && Step(m, Tick) == Some(m')
    ensures Covered(m')
  {}

  lemma MaskedWakePends(k: Kernel, t: TaskId)
    requires k.WellFormed() && t < |k.slots|
    ensures var k' := WakeSection(k, t);
            (k'.marker && k'.msip)
            || (k'.ready == k.ready && k'.prioStack == k.prioStack && k'.marker == k.marker && k'.msip == k.msip)
  {}

  lemma HoldKeepsCovered(m: Machine, m': Machine, p: Prio, t: TaskId, pc: HoldPc)
    requires Control(m) && Covered(m) && m.fs.top == Soft(Running(p, Hold(t, pc))) && Step(m, Tick) == Some(m')
    ensures Covered(m')
  {
    if pc == Despawn && m.k.slots[t].joinWaker.Some? {
      var s := m.k.slots[t];
      MaskedWakePends(m.k.Put(t, s.(spawned := false, joinWaker := None)), s.joinWaker.value);
    }
  }

  /** When `try_preempt` declines, nothing outranks the top of the stack: the push cannot fail.  What it
      grants is the most urgent ready priority. */
  lemma PreemptDecides(k: Kernel)
    requires k.WellFormed() && Nested(k.prioStack, |k.queues|)
    ensures PreemptSection(k).1 == None <==> !SomethingOutranks(k)
    ensures !SomethingOutranks(PreemptSection(k).0)
    ensures var (k', token) := PreemptSection(k);
            if token.Some? then
              && token.value in k.ready && (forall q | q in k.ready :: token.value <= q)
              && k' == k.(prioStack := k.prioStack + [token.value])
            else k' == k
  {
    NestedFits(k.prioStack, |k.queues|);
  }

  /** The spawner pends exactly when something ready outranks the stack, and changes nothing else. */
  lemma PendDecides(k: Kernel)
    requires k.WellFormed()
    ensures PendSection(k) == if SomethingOutranks(k) then k.(marker := true, msip := true) else k
  {}

  /** The interrupt's entry takes the marker and MSIP back, and goes on to schedule exactly when the marker
      was set. */
  lemma EntryDecides(m: Machine, m': Machine)
    requires m.fs.Over? && m.fs.top == Soft(ClearPend) && Step(m, Tick) == Some(m')
    ensures m'.k == m.k.(marker := false, msip := false)
    ensures m'.fs == Over(Soft(if m.k.marker then TryPreempt else Return), m.fs.below)
  {}

  /** A software interrupt that is not the scheduler's, and whose hook pends nothing, is over after three
      steps, with interrupts enabled again, and leaves the scheduler as it was. */
  lemma UnmarkedEntryReturns(m: Machine)
    requires Control(m) && m.fs.top == Soft(Hook) && !m.k.marker
    ensures Run(m, [Tick, Tick, Tick]) == Some(Machine(m.k.(msip := false), true, m.fs.below))
  {
    hide SpawnStep, WakeStep, JoinStep, RunStep, PreemptSection;
    var m1 := Step(m, Tick).value;
    var m2 := Step(m1, Tick).value;
    EntryDecides(m1, m2);
    var m3 := Step(m2, Tick).value;
    assert [Tick, Tick, Tick][1..] == [Tick, Tick] && [Tick, Tick][1..] == [Tick] && [Tick][1..] == [];
    assert Run(m2, [Tick]) == Run(m3, []) == Some(m3);
  }

  lemma PreemptKeepsCovered(m: Machine, m': Machine)
    requires Control(m) && Stacked(m) && m.fs.top == Soft(TryPreempt) && Step(m, Tick) == Some(m')
    ensures !SomethingOutranks(m'.k)
  {
    PreemptDecides(m.k);
  }

  // ---- all runs ----

  ghost predicate NestingInv(m: Machine) {
    Control(m) && Stacked(m) && Bitmapped(m) && Covered(m)
  }

  lemma InitNesting(n: nat, tasks: nat)
    requires 0 < n
    ensures NestingInv(Init(n, tasks))
  {}

  lemma StepKeepsNesting(m: Machine, a: Action, m': Machine)
    requires NestingInv(m) && Step(m, a) == Some(m')
    ensures NestingInv(m')
  {
    StepKeepsControl(m, a, m');
    StepKeepsStacked(m, a, m');
    StepKeepsBitmapped(m, a, m');
    StepKeepsCovered(m, a, m');
  }

  lemma {:induction false} RunKeepsNesting(m: Machine, acts: seq<Action>, m': Machine)
    requires NestingInv(m) && Run(m, acts) == Some(m')
    ensures NestingInv(m')
    decreases |acts|
  {
    if acts != [] {
      var next := Step(m, acts[0]).value;
      StepKeepsNesting(m, acts[0], next);
      RunKeepsNesting(next, acts[1..], m');
    }
  }

  /** Nesting is strict and bounded by the number of priorities, the stack lists exactly the live
      run tokens, and `complete_executor` pops its own. */
  lemma NestingIsStrictAndBounded(n: nat, tasks: nat, acts: seq<Action>, m: Machine)
    requires 0 < n && Run(Init(n, tasks), acts) == Some(m)
    ensures m.k.prioStack == Tokens(m.fs) && |m.k.prioStack| <= n
    ensures forall i, j | 0 <= i < j < |m.k.prioStack| :: m.k.prioStack[j] < m.k.prioStack[i] < n
    ensures m.k.WellFormed()
    ensures SomethingOutranks(m.k) ==> |m.k.prioStack| < n && PreemptSection(m.k).1.Some?
    ensures m.fs.Over? && m.fs.top.Soft? && m.fs.top.soft.Complete? ==>
              m.k.prioStack != [] && m.k.prioStack[|m.k.prioStack| - 1] == m.fs.top.soft.p
  {
    InitNesting(n, tasks);
    RunKeepsNesting(Init(n, tasks), acts, m);
    RunKeepsSize(Init(n, tasks), acts, m);
    NestedFits(m.k.prioStack, n);
    PreemptDecides(m.k);
  }

  lemma {:induction false} RunKeepsSize(m: Machine, acts: seq<Action>, m': Machine)
    requires Control(m) && Run(m, acts) == Some(m')
    ensures |m'.k.queues| == |m.k.queues| && |m'.k.slots| == |m.k.slots|
    decreases |acts|
  {
    if acts != [] {
      StepKeepsControl(m, acts[0], Step(m, acts[0]).value);
      RunKeepsSize(Step(m, acts[0]).value, acts[1..], m');
    }
  }

  /** No lost preemption: if a ready priority outranks the one running, the scheduler will look
      again; and once interrupts are enabled with no pend decision in flight, the software
      interrupt is pending and will be recognised as the scheduler's.  Only frames above the innermost
      run token may owe the decision: what is suspended further down excuses nothing. */
  lemma NoLostPreemption(n: nat, tasks: nat, acts: seq<Action>, m: Machine)
    requires 0 < n && Run(Init(n, tasks), acts) == Some(m)
    requires SomethingOutranks(m.k)
    ensures Attended(m)
    ensures m.mie && !Owing(m.fs) && !Sending(m.fs) ==> m.k.marker && Step(m, Msi).Some?
    ensures m.fs.Over? && RunToken(m.fs.top).Some? ==> m.k.marker && m.k.msip
  {
    InitNesting(n, tasks);
    RunKeepsNesting(Init(n, tasks), acts, m);
  }

  /** The bitmap agrees with the queues in every reachable state. */
  lemma BitmapAgreesWithQueues(n: nat, tasks: nat, acts: seq<Action>, m: Machine, p: Prio)
    requires 0 < n && Run(Init(n, tasks), acts) == Some(m) && p < |m.k.queues|
    ensures m.k.queues[p] != [] ==> p in m.k.ready
    ensures p in m.k.ready && m.k.queues[p] == [] ==> p in m.k.prioStack && Draining(m.fs, p)
  {
    InitNesting(n, tasks);
    RunKeepsNesting(Init(n, tasks), acts, m);
    if Draining(m.fs, p) { DrainingHoldsToken(m.fs, p); }
  }

  lemma {:induction false} DrainingHoldsToken(fs: Frames, p: Prio)
    requires Draining(fs, p)
    ensures p in Tokens(fs)
  {
    if !ActiveAt(fs.top, p) {
      DrainingHoldsToken(fs.below, p);
      if RunToken(fs.top).Some? { assert Tokens(fs)[..|Tokens(fs)| - 1] == Tokens(fs.below); }
    }
  }

  /** An idle hart with no scheduler interrupt outstanding has no work left anywhere. */
  lemma IdleMeansDrained(n: nat, tasks: nat, acts: seq<Action>, m: Machine)
    requires 0 < n && Run(Init(n, tasks), acts) == Some(m)
    requires m.fs == Over(Idle, Empty) && !(m.k.msip && m.k.marker)
    ensures m.k.ready == {} && m.k.prioStack == []
    ensures forall p | 0 <= p < |m.k.queues| :: m.k.queues[p] == []
  {
    InitNesting(n, tasks);
    RunKeepsNesting(Init(n, tasks), acts, m);
    forall p ensures p !in m.k.ready {
      if p in m.k.ready { assert Outranks(p, m.k.prioStack); }
    }
  }

  /** A scheduling pass is balanced and complete.  `m0` has just taken the software interrupt over
      the frames `below`; the pass ends when `try_preempt`, in `m1`, sends it to `Return` in `m2`. */
  lemma PassIsBalancedAndComplete(m0: Machine, acts: seq<Action>, m1: Machine, m2: Machine, below: Frames)
    requires NestingInv(m0) && m0.fs == Over(Soft(Hook), below)
    requires Run(m0, acts) == Some(m1) && m1.fs == Over(Soft(TryPreempt), below)
    requires Step(m1, Tick) == Some(m2) && m2.fs == Over(Soft(Return), below)
    ensures m2.k.prioStack == m0.k.prioStack
    ensures !SomethingOutranks(m2.k)
    ensures m0.k.prioStack == [] ==> forall p | 0 <= p < |m2.k.queues| :: m2.k.queues[p] == []
  {
    RunKeepsNesting(m0, acts, m1);
    StepKeepsNesting(m1, Tick, m2);
    PreemptDecides(m1.k);
    if m0.k.prioStack == [] {
      forall p | 0 <= p < |m2.k.queues| ensures m2.k.queues[p] == [] {
        if m2.k.queues[p] != [] { assert p in m2.k.ready && Outranks(p, m2.k.prioStack); }
      }
    }
  }
}
