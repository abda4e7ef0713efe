/** A joiner is never stranded, provided the worker cannot preempt it.  `JoinHandle::poll` looks for
    the result and then parks its waker, and an interrupt may land between the two.  Once parked, the
    waker stays until the worker's completion section uses it to wake the joiner.  Stranding.dfy says
    exactly when a worker that can preempt its joiner leaves it stranded. */
module Joining {
  import opened Wrappers
  import opened Kernel
  import opened Machine
  import opened Nesting
  import opened Ownership
  import opened Binding
  import opened Lifecycle
  import opened Wakes
  import opened Pointers

  // ---- how a join handle is used ----

  /** Some activation is inside a poll of the join handle of `w`. */
  predicate Joins(fs: Frames, w: TaskId) {
    fs.Over? && ((fs.top.Join? && fs.top.worker == w) || Joins(fs.below, w))
  }

  /** Some activation is spawning `w`, from its claim of the slot to the return of the handle. */
  predicate Respawning(fs: Frames, w: TaskId) {
    fs.Over? && ((fs.top.Spawn? && fs.top.task == w && fs.top.spawn != Claim) || Respawning(fs.below, w))
  }

  /** What a handle is good for: its spawn has returned, nobody else is polling it, and its result has
      not been handed out. */
  predicate HandleOk(m: Machine, w: TaskId) {
    && w < |m.k.slots| && !Joins(m.fs, w) && !Respawning(m.fs, w)
    && (m.k.slots[w].spawned || m.k.slots[w].result.Some?)
  }

  /** The handle of `w` is polled while it is good, by joiners whose priority is equal to or higher than
      the worker's, and the slot is not reused while its handle is being polled.  Other handles are used as
      the application likes. */
  predicate JoinsWell(m: Machine, a: Action, w: TaskId) {
    && (a == CallJoin(w) && m.fs.Over? && RunToken(m.fs.top).Some? && w < |m.k.slots| ==>
          && HandleOk(m, w)
          && m.k.slots[w].home.Some? && RunToken(m.fs.top).value <= m.k.slots[w].home.value)
    && (Claiming(m, a, w) ==> !Joins(m.fs, w))
  }

  predicate JoinsAllWell(m: Machine, acts: seq<Action>, w: TaskId)
    decreases |acts|
  {
    acts == [] || (
      && JoinsWell(m, acts[0], w)
      && (Step(m, acts[0]).Some? ==> JoinsAllWell(Step(m, acts[0]).value, acts[1..], w)))
  }

  // ---- the invariant ----

  /** What a join activation relies on, standing on its joiner's poll. */
  predicate JoinOk(s: Slot, pc: JoinPc, joiner: Frame) {
    && RunToken(joiner).Some? && s.home.Some? && RunToken(joiner).value <= s.home.value
    && match pc
       case TakeResult => s.spawned || s.result.Some?
       case StoreWaker => s.spawned && s.result == None
  }

  predicate FrameJoins(slots: seq<Slot>, f: Frame, below: Frames, w: TaskId) {
    match f
    case Join(v, _, pc) =>
      v == w ==> w < |slots| && below.Over? && JoinOk(slots[w], pc, below.top) && !Joins(below, w) && !Respawning(below, w)
    case Spawn(t, _, pc) => t == w && pc != Claim ==> !Joins(below, w)
    case Soft(Running(_, Hold(t, _))) => t == w ==> !Joins(below, w)
    case _ => true
  }

  predicate FramesJoin(slots: seq<Slot>, fs: Frames, w: TaskId) {
    fs.Over? ==> FrameJoins(slots, fs.top, fs.below, w) && FramesJoin(slots, fs.below, w)
  }

  /** A waker parked for `w` means that it has yet to reach its completion section. */
  predicate NobodyStranded(k: Kernel, w: TaskId) {
    w < |k.slots| && k.slots[w].joinWaker.Some? ==> k.slots[w].spawned
  }

  predicate Joined(m: Machine, w: TaskId) {
    FramesJoin(m.k.slots, m.fs, w) && NobodyStranded(m.k, w)
  }

  predicate SameJoin(s: Slot, s': Slot) {
    s'.spawned == s.spawned && s'.result == s.result && s'.home == s.home
  }

  lemma {:induction false} JoinKeepsFrames(slots: seq<Slot>, slots': seq<Slot>, fs: Frames, w: TaskId)
    requires |slots'| == |slots| && FramesJoin(slots, fs, w)
    requires w < |slots| ==> SameJoin(slots[w], slots'[w]) || !Joins(fs, w)
    ensures FramesJoin(slots', fs, w)
  {
    if fs.Over? { JoinKeepsFrames(slots, slots', fs.below, w); }
  }

  lemma OlderTokensStay(fs: Frames)
    requires fs.Over?
    ensures forall q | q in Tokens(fs.below) :: q in Tokens(fs)
  {
    if RunToken(fs.top).Some? { assert Tokens(fs)[..|Tokens(fs.below)|] == Tokens(fs.below); }
  }

  /** The joiner of `w` is an activation at a priority no lower than `w`'s home. */
  lemma {:induction false} JoinerOutranksWorker(slots: seq<Slot>, fs: Frames, w: TaskId)
    requires FramesJoin(slots, fs, w) && w < |slots|
    ensures Joins(fs, w) ==> slots[w].home.Some? && exists p :: p in Tokens(fs) && p <= slots[w].home.value
  {
    if fs.Over? {
      JoinerOutranksWorker(slots, fs.below, w);
      OlderTokensStay(fs);
      if fs.top.Join? && fs.top.worker == w {
        var p := RunToken(fs.below.top).value;
        assert Tokens(fs.below)[|Tokens(fs.below)| - 1] == p;
        assert p in Tokens(fs);
      }
    }
  }

  /** So the worker cannot be dispatched above it. */
  lemma WorkerWaits(m: Machine, p: Prio, w: TaskId)
    requires BoundInv(m) && Joined(m, w) && m.fs.top == Soft(Running(p, Dequeue))
    requires m.k.queues[p] != [] && m.k.queues[p][0] == w
    ensures !Joins(m.fs, w)
  {
    assert m.k.slots[w].home == Some(p);
    InnermostTokenIsNew(m.fs, |m.k.queues|);
    JoinerOutranksWorker(m.k.slots, m.fs.below, w);
  }

  // ---- steps ----

  lemma WakeKeepsJoined(m: Machine, m': Machine, t: TaskId, pc: WakePc, w: TaskId)
    requires BoundInv(m) && Joined(m, w) && m.fs.top == Wake(t, pc) && Step(m, Tick) == Some(m')
    ensures Joined(m', w)
  {
    assert pc.Enqueue? ==> Grips(m.fs.top, t);
    JoinKeepsFrames(m.k.slots, m'.k.slots, m.fs.below, w);
  }

  lemma SpawnKeepsJoined(m: Machine, m': Machine, t: TaskId, p: Prio, pc: SpawnPc, w: TaskId)
    requires BoundInv(m) && Joined(m, w) && m.fs.top == Spawn(t, p, pc) && Step(m, Tick) == Some(m')
    requires JoinsWell(m, Tick, w)
    ensures Joined(m', w)
  {
    if pc == Claim && !m.k.slots[t].spawned { assert Claiming(m, Tick, t); }
    JoinKeepsFrames(m.k.slots, m'.k.slots, m.fs.below, w);
  }

  lemma JoinKeepsJoined(m: Machine, m': Machine, v: TaskId, u: TaskId, pc: JoinPc, w: TaskId)
    requires BoundInv(m) && Joined(m, w) && m.fs.top == Join(v, u, pc) && Step(m, Tick) == Some(m')
    ensures Joined(m', w)
  {
    JoinKeepsFrames(m.k.slots, m'.k.slots, m.fs.below, w);
  }

  lemma DequeueKeepsJoined(m: Machine, m': Machine, p: Prio, w: TaskId)
    requires BoundInv(m) && Joined(m, w) && m.fs.top == Soft(Running(p, Dequeue)) && Step(m, Tick) == Some(m')
    ensures Joined(m', w)
  {
    if m.k.queues[p] != [] && m.k.queues[p][0] == w { WorkerWaits(m, p, w); }
    JoinKeepsFrames(m.k.slots, m'.k.slots, m.fs.below, w);
  }

  lemma WakeSectionKeepsJoin(k: Kernel, t: TaskId)
    requires k.WellFormed() && PointersBound(k) && t < |k.slots|
    ensures var k' := WakeSection(k, t);
            && k'.SameSize(k)
            && (forall u | 0 <= u < |k.slots| :: SameJoin(k.slots[u], k'.slots[u]) && k'.slots[u].joinWaker == k.slots[u].joinWaker)
  {}

  lemma DespawnKeepsJoin(k: Kernel, t: TaskId)
    requires k.WellFormed() && PointersBound(k) && t < |k.slots|
    ensures var k' := DespawnSection(k, t);
            && k'.SameSize(k)
            && (forall u | 0 <= u < |k.slots| && u != t :: SameJoin(k.slots[u], k'.slots[u]) && k'.slots[u].joinWaker == k.slots[u].joinWaker)
            && k'.slots[t].joinWaker == None
  {
    var s := k.slots[t];
    if s.joinWaker.Some? {
      WakeSectionKeepsJoin(k.Put(t, s.(spawned := false, joinWaker := None)), s.joinWaker.value);
    }
  }

  lemma HoldKeepsJoined(m: Machine, m': Machine, p: Prio, t: TaskId, pc: HoldPc, w: TaskId)
    requires BoundInv(m) && Joined(m, w) && m.fs.top == Soft(Running(p, Hold(t, pc))) && Step(m, Tick) == Some(m')
    ensures Joined(m', w)
  {
    hide DespawnSection;
    if pc == Despawn { DespawnKeepsJoin(m.k, t); }
    JoinKeepsFrames(m.k.slots, m'.k.slots, m.fs.below, w);
  }

  lemma SwitchKeepsJoined(m: Machine, m': Machine, w: TaskId)
    requires BoundInv(m) && Joined(m, w) && m.fs.top.Soft? && !m.fs.top.soft.Running? && Step(m, Tick) == Some(m')
    ensures Joined(m', w)
  {
    assert m'.k.slots == m.k.slots;
  }

  lemma TickKeepsJoined(m: Machine, m': Machine, w: TaskId)
    requires BoundInv(m) && Joined(m, w) && Step(m, Tick) == Some(m') && JoinsWell(m, Tick, w)
    ensures Joined(m', w)
  {
    match m.fs.top
    case Wake(t, pc) => WakeKeepsJoined(m, m', t, pc, w);
    case Spawn(t, p, pc) => SpawnKeepsJoined(m, m', t, p, pc, w);
    case Join(v, u, pc) => JoinKeepsJoined(m, m', v, u, pc, w);
    case Soft(Running(p, Dequeue)) => DequeueKeepsJoined(m, m', p, w);
    case Soft(Running(p, Hold(t, pc))) => HoldKeepsJoined(m, m', p, t, pc, w);
    case Soft(_) => SwitchKeepsJoined(m, m', w);
    case _ =>
  }

  lemma StepKeepsJoined(m: Machine, a: Action, m': Machine, w: TaskId)
    requires BoundInv(m) && Joined(m, w) && Step(m, a) == Some(m') && JoinsWell(m, a, w)
    ensures Joined(m', w)
  {
    match a
    case Tick => TickKeepsJoined(m, m', w);
    case MaskedWake(t) =>
      WakeSectionKeepsJoin(m.k, t);
      JoinKeepsFrames(m.k.slots, m'.k.slots, m.fs, w);
    case _ => assert m'.k == m.k;
  }

  lemma {:induction false} RunKeepsJoined(m: Machine, acts: seq<Action>, m': Machine, w: TaskId)
    requires BoundInv(m) && Joined(m, w) && Run(m, acts) == Some(m')
    requires RespawnsQuiescent(m, acts) && JoinsAllWell(m, acts, w)
    ensures BoundInv(m') && Joined(m', w)
    decreases |acts|
  {
    if acts != [] {
      var next := Step(m, acts[0]).value;
      StepKeepsBoundInv(m, acts[0], next);
      StepKeepsJoined(m, acts[0], next, w);
      RunKeepsJoined(next, acts[1..], m', w);
    }
  }

  // ---- join delivery ----

  /** In every reachable state a waker parked for a worker means that the worker has not completed,
      provided its own handle has been used well. */
  lemma ParkedMeansUnfinished(n: nat, tasks: nat, acts: seq<Action>, m: Machine, w: TaskId)
    requires 0 < n && Run(Init(n, tasks), acts) == Some(m) && w < |m.k.slots|
    requires RespawnsQuiescent(Init(n, tasks), acts) && JoinsAllWell(Init(n, tasks), acts, w)
    ensures m.k.slots[w].joinWaker.Some? ==> m.k.slots[w].spawned
  {
    InitBound(n, tasks);
    RunKeepsJoined(Init(n, tasks), acts, m, w);
  }

  /** The completion section takes the parked waker and wakes exactly the joiner it names: unless
      that task has itself finished, it is queued for a poll when the section ends. */
  lemma CompletionWakesJoiner(m: Machine, p: Prio, w: TaskId, u: TaskId, m': Machine)
    requires BoundInv(m) && m.fs.top == Soft(Running(p, Hold(w, Despawn))) && Step(m, Tick) == Some(m')
    requires m.k.slots[w].joinWaker == Some(u)
    ensures w < |m'.k.slots| && u < |m'.k.slots|
    ensures !m'.k.slots[w].spawned && m'.k.slots[w].joinWaker == None
    ensures m.k.slots[u].exec.Some? ==> m'.k.slots[u].owed && m'.k.slots[u].queued
  {
    StepKeepsControl(m, Tick, m');
    var s := m.k.slots[w];
    var k1 := m.k.Put(w, s.(spawned := false, joinWaker := None));
    assert m'.k == WakeSection(k1, u);
    assert m.k.SlotOk(m.k.slots[w]);
  }

  // ---- what becomes of a parked waker ----

  /** Some activation is about to reset the join state of `w`. */
  predicate Clearing(fs: Frames, w: TaskId) {
    fs.Over? && (ClearingFrame(fs.top, w) || Clearing(fs.below, w))
  }

  predicate ClearingFrame(f: Frame, w: TaskId) {
    f.Spawn? && f.task == w && (f.spawn == ClearResult || f.spawn == ClearWaker)
  }

  lemma {:induction false} ClearingIsRespawning(fs: Frames, w: TaskId)
    requires !Respawning(fs, w)
    ensures !Clearing(fs, w)
  {
    if fs.Over? { ClearingIsRespawning(fs.below, w); }
  }

  /** The waker of `u` is parked on the unfinished worker `w`, or `u` is owed a poll. */
  predicate Kept(m: Machine, w: TaskId, u: TaskId) {
    && w < |m.k.slots| && u < |m.k.slots| && m.k.slots[u].exec.Some?
    && ((m.k.slots[w].spawned && m.k.slots[w].joinWaker == Some(u) && !Clearing(m.fs, w)) || m.k.slots[u].owed)
  }

  /** What ends the claim: the joiner is dispatched, somebody polls the worker's handle, or the joiner
      itself finishes. */
  predicate Settles(m: Machine, a: Action, w: TaskId, u: TaskId) {
    a == Tick && m.fs.Over? && (
      || DispatchOf(m.fs.top, u)
      || (m.fs.top.Join? && m.fs.top.worker == w)
      || (m.fs.top.Soft? && m.fs.top.soft.Running? && m.fs.top.soft.run == Hold(u, ClearExec)))
  }

  predicate Settled(m: Machine, acts: seq<Action>, w: TaskId, u: TaskId)
    decreases |acts|
  {
    acts != [] && Step(m, acts[0]).Some?
    && (Settles(m, acts[0], w, u) || Settled(Step(m, acts[0]).value, acts[1..], w, u))
  }

  /** What a step does to a parked waker: nothing, or it wakes the joiner; the joiner's pointer stays. */
  ghost predicate Lasts(k: Kernel, k': Kernel, w: TaskId, u: TaskId)
    requires w < |k.slots| && u < |k.slots|
  {
    && k'.SameSize(k) && k'.slots[u].exec.Some?
    && (k.slots[w].spawned && k.slots[w].joinWaker == Some(u) ==>
          (k'.slots[w].spawned && k'.slots[w].joinWaker == Some(u)) || k'.slots[u].owed)
  }

  lemma WakeSectionLasts(k: Kernel, t: TaskId, w: TaskId, u: TaskId)
    requires k.WellFormed() && t < |k.slots| && w < |k.slots| && u < |k.slots| && k.slots[u].exec.Some?
    ensures Lasts(k, WakeSection(k, t), w, u)
  {}

  lemma DespawnLasts(k: Kernel, t: TaskId, w: TaskId, u: TaskId)
    requires k.WellFormed() && t < |k.slots| && w < |k.slots| && u < |k.slots| && k.slots[u].exec.Some?
    ensures Lasts(k, DespawnSection(k, t), w, u)
  {}

  lemma WakeLasts(k: Kernel, t: TaskId, pc: WakePc, w: TaskId, u: TaskId)
    requires k.WellFormed() && FrameOk(Wake(t, pc), |k.queues|, |k.slots|)
    requires w < |k.slots| && u < |k.slots| && k.slots[u].exec.Some?
    ensures Lasts(k, WakeStep(k, t, pc).0, w, u)
  {}

  lemma SpawnLasts(k: Kernel, t: TaskId, p: Prio, pc: SpawnPc, w: TaskId, u: TaskId)
    requires k.WellFormed() && FrameOk(Spawn(t, p, pc), |k.queues|, |k.slots|) && !ClearingFrame(Spawn(t, p, pc), w)
    requires w < |k.slots| && u < |k.slots| && k.slots[u].exec.Some?
    ensures Lasts(k, SpawnStep(k, t, p, pc).0, w, u)
  {
    hide PendSection;
  }

  lemma PutLasts(k: Kernel, t: TaskId, s: Slot, w: TaskId, u: TaskId)
    requires k.WellFormed() && t < |k.slots| && w < |k.slots| && u < |k.slots| && k.slots[u].exec.Some? && k.SlotOk(s)
    requires s.spawned == k.slots[t].spawned && s.joinWaker == k.slots[t].joinWaker && (t == u ==> s.exec.Some?)
    ensures Lasts(k, k.Put(t, s), w, u) && Lasts(k, k, w, u)
  {}

  lemma HoldLasts(k: Kernel, p: Prio, t: TaskId, pc: HoldPc, w: TaskId, u: TaskId)
    requires k.WellFormed() && FrameOk(Soft(Running(p, Hold(t, pc))), |k.queues|, |k.slots|) && !(pc == ClearExec && t == u)
    requires w < |k.slots| && u < |k.slots| && k.slots[u].exec.Some?
    ensures Lasts(k, HoldStep(k, p, t, pc).0, w, u)
  {
    hide DespawnSection, Lasts;
    if pc == Despawn { DespawnLasts(k, t, w, u); } else { PutLasts(k, t, HoldStep(k, p, t, pc).0.slots[t], w, u); }
  }

  lemma TickLasts(m: Machine, w: TaskId, u: TaskId)
    requires Control(m) && m.fs.Over? && w < |m.k.slots| && u < |m.k.slots| && m.k.slots[u].exec.Some?
    requires !Settles(m, Tick, w, u) && !ClearingFrame(m.fs.top, w)
    ensures Lasts(m.k, TopStep(m.k, m.fs.top).0, w, u)
  {
    hide WakeStep, SpawnStep, JoinStep, HoldStep;
    match m.fs.top
    case Wake(t, pc) => WakeLasts(m.k, t, pc, w, u);
    case Spawn(t, p, pc) => SpawnLasts(m.k, t, p, pc, w, u);
    case Soft(Running(p, Hold(t, pc))) => HoldLasts(m.k, p, t, pc, w, u);
    case Join(v, x, pc) => JoinLasts(m.k, v, x, pc, w, u);
    case _ => OthersKeepSlots(m.k, m.fs.top);
  }

  lemma JoinLasts(k: Kernel, v: TaskId, x: TaskId, pc: JoinPc, w: TaskId, u: TaskId)
    requires k.WellFormed() && FrameOk(Join(v, x, pc), |k.queues|, |k.slots|) && v != w
    requires w < |k.slots| && u < |k.slots| && k.slots[u].exec.Some?
    ensures Lasts(k, JoinStep(k, v, x, pc).0, w, u)
  {}

  /** The waker leaves the slot only by the completion section, which wakes `u`. */
  lemma StepKeepsParked(m: Machine, a: Action, m': Machine, w: TaskId, u: TaskId)
    requires Control(m) && Step(m, a) == Some(m') && Kept(m, w, u) && !m.k.slots[u].owed && !Settles(m, a, w, u)
    ensures Kept(m', w, u)
  {
    hide WakeStep, HoldStep, SoftStep, JoinStep;
    StepKeepsControl(m, a, m');
    match a
    case Tick =>
      TickLasts(m, w, u);
      ClearingStartsAtClaim(m.k, m.fs.top, w);
    case MaskedWake(t) => WakeSectionLasts(m.k, t, w, u);
    case _ => assert m'.k == m.k;
  }

  lemma ClearingStartsAtClaim(k: Kernel, f: Frame, w: TaskId)
    requires k.WellFormed() && FrameOk(f, |k.queues|, |k.slots|) && w < |k.slots| && k.slots[w].spawned && !ClearingFrame(f, w)
    ensures var next := TopStep(k, f).1; next.Goto? ==> !ClearingFrame(next.f, w)
  {}

  /** What is owed stays owed, through a pointer that stays set. */
  lemma StepKeepsOwedJoiner(m: Machine, a: Action, m': Machine, w: TaskId, u: TaskId)
    requires Control(m) && Step(m, a) == Some(m') && Kept(m, w, u) && m.k.slots[u].owed && !Settles(m, a, w, u)
    ensures Kept(m', w, u)
  {
    hide WakeStep, HoldStep, SoftStep, JoinStep, SpawnStep;
    StepKeepsControl(m, a, m');
    OwedUntilDispatch(m, a, m', u);
    match a
    case Tick => PointerStays(m, u);
    case MaskedWake(t) => WakeSectionLasts(m.k, t, w, u);
    case _ => assert m'.k == m.k;
  }

  lemma PointerStays(m: Machine, u: TaskId)
    requires Control(m) && m.fs.Over? && u < |m.k.slots| && m.k.slots[u].exec.Some?
    requires !(m.fs.top.Soft? && m.fs.top.soft.Running? && m.fs.top.soft.run == Hold(u, ClearExec))
    ensures u < |TopStep(m.k, m.fs.top).0.slots| && TopStep(m.k, m.fs.top).0.slots[u].exec.Some?
  {
    hide WakeStep, SpawnStep, JoinStep, HoldStep;
    match m.fs.top
    case Wake(t, pc) => WakeLasts(m.k, t, pc, u, u);
    case Spawn(t, p, pc) => SpawnKeepsPointer(m.k, t, p, pc, u);
    case Soft(Running(p, Hold(t, pc))) => HoldLasts(m.k, p, t, pc, u, u);
    case Join(v, x, pc) => JoinKeepsPointer(m.k, v, x, pc, u);
    case _ => OthersKeepSlots(m.k, m.fs.top);
  }

  lemma JoinKeepsPointer(k: Kernel, v: TaskId, x: TaskId, pc: JoinPc, u: TaskId)
    requires k.WellFormed() && FrameOk(Join(v, x, pc), |k.queues|, |k.slots|) && u < |k.slots|
    ensures JoinStep(k, v, x, pc).0.slots[u].exec == k.slots[u].exec
  {}

  lemma SpawnKeepsPointer(k: Kernel, t: TaskId, p: Prio, pc: SpawnPc, u: TaskId)
    requires k.WellFormed() && FrameOk(Spawn(t, p, pc), |k.queues|, |k.slots|)
    requires u < |k.slots| && k.slots[u].exec.Some?
    ensures SpawnStep(k, t, p, pc).0.slots[u].exec.Some?
  {
    hide PendSection;
  }

  lemma {:induction false} RunKeepsKept(m: Machine, acts: seq<Action>, m': Machine, w: TaskId, u: TaskId)
    requires Control(m) && Run(m, acts) == Some(m') && Kept(m, w, u) && !Settled(m, acts, w, u)
    ensures Control(m') && Kept(m', w, u)
    decreases |acts|
  {
    hide Step, Clearing, Control;
    if acts != [] {
      var next := Step(m, acts[0]).value;
      StepKeepsControl(m, acts[0], next);
      if m.k.slots[u].owed {
        StepKeepsOwedJoiner(m, acts[0], next, w, u);
      } else {
        StepKeepsParked(m, acts[0], next, w, u);
      }
      RunKeepsKept(next, acts[1..], m', w, u);
    }
  }

  // ---- nobody is stranded ----

  /** A task that polls a join handle can be woken. */
  lemma JoinerHasPointer(m: Machine, w: TaskId, u: TaskId, pc: JoinPc)
    requires LifeInv(m) && Pointed(m) && m.fs.Over? && m.fs.top == Join(w, u, pc)
    ensures u < |m.k.slots| && m.k.slots[u].exec.Some?
  {
    var below := m.fs.below;
    assert Shaped(m.fs) && Shaped(below);
    assert PollsTask(below.top, u);
    assert FramesLive(m.k.slots, below) && FrameLive(m.k.slots, below.top);
    assert PointerOk(m, u);
    assert Grips(below.top, u);
    HolderIsUnique(m.k.slots, below, u, |m.k.queues|);
    if Leaving(below.below, u) { LeavingIsHolding(below.below, u); }
    assert Gripped(m.fs, u) && !Leaving(below, u) && !Leaving(m.fs, u);
  }

  lemma {:induction false} LeavingIsHolding(fs: Frames, t: TaskId)
    requires Leaving(fs, t)
    ensures Holders(fs, t) > 0
  {
    if !LeavingFrame(fs.top, t) { LeavingIsHolding(fs.below, t); }
  }

  /** What a parked joiner can rely on: its waker is still parked and the worker unfinished, or it is owed
      a poll and is queued, claimed for queueing, or about to be dispatched. */
  predicate Served(m: Machine, w: TaskId, u: TaskId) {
    && w < |m.k.slots| && u < |m.k.slots|
    && (|| (m.k.slots[w].spawned && m.k.slots[w].joinWaker == Some(u))
        || (m.k.slots[u].owed && (Linked(m.k.queues, u) == 1 || Claimants(m.fs, u) == 1 || Promised(m.fs, u))))
  }

  /** No joiner is stranded.  Take any reachable state `m0` in which a join handle's poll is about to park
      the waker of `u` for the worker `w`, and any later state `m2`.  Unless `u` has been dispatched or
      has finished, or the handle has been polled again, either the waker is still parked and the worker
      has not completed, or `u` is owed a poll and is queued, claimed for queueing, or about to be
      dispatched. */
  lemma NoJoinerStranded(n: nat, tasks: nat, before: seq<Action>, m0: Machine, w: TaskId, u: TaskId, m1: Machine,
                         after: seq<Action>, m2: Machine)
    requires 0 < n && Run(Init(n, tasks), before) == Some(m0)
    requires RespawnsSafe(Init(n, tasks), before) && JoinsAllWell(Init(n, tasks), before, w)
    requires m0.fs.Over? && m0.fs.top == Join(w, u, StoreWaker) && Step(m0, Tick) == Some(m1)
    requires Run(m1, after) == Some(m2) && !Settled(m1, after, w, u)
    ensures Served(m2, w, u)
  {
    hide Step, Run;
    ReachableAnswers(n, tasks, before, m0);
    InitBound(n, tasks);
    SafeIsQuiescent(Init(n, tasks), before);
    RunKeepsJoined(Init(n, tasks), before, m0, w);
    ParkedIsServed(m0, w, u, m1, after, m2);
  }

  lemma ReachableAnswers(n: nat, tasks: nat, acts: seq<Action>, m: Machine)
    requires 0 < n && Run(Init(n, tasks), acts) == Some(m) && RespawnsSafe(Init(n, tasks), acts)
    ensures LifeInv(m) && Pointed(m) && Answerable(m)
  {
    InitLife(n, tasks);
    SafeIsQuiescent(Init(n, tasks), acts);
    RunKeepsLifeInv(Init(n, tasks), acts, m);
    RunKeepsPointed(Init(n, tasks), acts, m);
    RunKeepsAnswerable(Init(n, tasks), acts, m);
  }

  /** A waker parked for an unfinished worker that nobody respawns serves its joiner, whatever comes. */
  lemma ParkedIsServed(m0: Machine, w: TaskId, u: TaskId, m1: Machine, after: seq<Action>, m2: Machine)
    requires LifeInv(m0) && Pointed(m0) && Answerable(m0)
    requires m0.fs.Over? && m0.fs.top == Join(w, u, StoreWaker) && Step(m0, Tick) == Some(m1)
    requires w < |m0.k.slots| && m0.k.slots[w].spawned && !Respawning(m0.fs.below, w)
    requires Run(m1, after) == Some(m2) && !Settled(m1, after, w, u)
    ensures Served(m2, w, u)
  {
    hide Step, Run;
    ParkIsKept(m0, m1, w, u);
    RunKeepsKept(m1, after, m2, w, u);
    StepKeepsAnswerable(m0, Tick, m1);
    RunKeepsAnswerable(m1, after, m2);
    StepKeepsOwned(m0, Tick, m1);
    RunKeepsOwned(m1, after, m2);
    assert Linked(m2.k.queues, u) + Claimants(m2.fs, u) == Flag(m2.k, u);
    assert !Open(m2.k, u, Promised(m2.fs, u));
  }

  lemma ParkIsKept(m: Machine, m': Machine, w: TaskId, u: TaskId)
    requires LifeInv(m) && Pointed(m) && w < |m.k.slots| && m.k.slots[w].spawned && !Respawning(m.fs.below, w)
    requires m.fs.Over? && m.fs.top == Join(w, u, StoreWaker) && Step(m, Tick) == Some(m')
    ensures Control(m') && Kept(m', w, u)
  {
    JoinerHasPointer(m, w, u, StoreWaker);
    ClearingIsRespawning(m.fs.below, w);
    StepKeepsControl(m, Tick, m');
  }
}
