/** A live task can always be woken: from the push of its spawn until it clears its own executor
    pointer, the pointer is set, so no wake of it is dropped. */
module Pointers {
  import opened Wrappers
  import opened Kernel
  import opened Machine
  import opened Nesting
  import opened Ownership
  import opened Binding

  /** Some activation has claimed the slot and not yet pushed the task. */
  predicate Unpushing(fs: Frames, t: TaskId) {
    fs.Over? && (UnpushedFrame(fs.top, t) || Unpushing(fs.below, t))
  }

  predicate UnpushedFrame(f: Frame, t: TaskId) {
    f.Spawn? && f.task == t && Unpushed(f.spawn)
  }

  /** Some activation is in the completion sequence of `t`, past the store of the null pointer. */
  predicate Leaving(fs: Frames, t: TaskId) {
    fs.Over? && (LeavingFrame(fs.top, t) || Leaving(fs.below, t))
  }

  predicate LeavingFrame(f: Frame, t: TaskId) {
    match f
    case Soft(Running(_, Hold(u, pc))) => u == t && (pc == DropFuture || pc == SetExited || pc == Despawn)
    case _ => false
  }

  /** Spawned, enqueued, and not yet finished. */
  predicate Enlisted(m: Machine, t: TaskId) {
    t < |m.k.slots| && m.k.slots[t].spawned && !Unpushing(m.fs, t) && !Leaving(m.fs, t)
  }

  predicate InQueue(k: Kernel, t: TaskId) {
    exists p :: 0 <= p < |k.queues| && t in k.queues[p]
  }

  ghost predicate PointerOk(m: Machine, t: TaskId)
    requires t < |m.k.slots|
  {
    var s := m.k.slots[t];
    s.spawned && !Leaving(m.fs, t) && (!Unpushing(m.fs, t) || InQueue(m.k, t) || Gripped(m.fs, t)) ==> s.exec.Some?
  }

  ghost predicate Pointed(m: Machine) {
    forall t | 0 <= t < |m.k.slots| :: PointerOk(m, t)
  }

  // ---- every step ----

  lemma WakeKeepsPointed(m: Machine, m': Machine, u: TaskId, pc: WakePc)
    requires Control(m) && Control(m') && Pointed(m) && m.fs.top == Wake(u, pc) && Step(m, Tick) == Some(m')
    ensures Pointed(m')
  {
    forall t | 0 <= t < |m'.k.slots| ensures PointerOk(m', t) {
      assert PointerOk(m, t);
      if InQueue(m'.k, t) && !(t == u && pc.Enqueue?) { assert InQueue(m.k, t); }
    }
  }

  lemma SpawnKeepsPointed(m: Machine, m': Machine, u: TaskId, p: Prio, pc: SpawnPc)
    requires Control(m) && Control(m') && Owned(m) && Pointed(m)
    requires m.fs.top == Spawn(u, p, pc) && Step(m, Tick) == Some(m') && ClaimIsQuiescent(m, Tick)
    ensures Pointed(m')
  {
    hide SpawnStep, PointerOk;
    forall t | 0 <= t < |m'.k.slots| && t != u ensures PointerOk(m', t) { OthersKeepPointer(m, m', u, p, pc, t); }
    SpawnedIsPointed(m, m', u, p, pc);
  }

  lemma OthersKeepPointer(m: Machine, m': Machine, u: TaskId, p: Prio, pc: SpawnPc, t: TaskId)
    requires Control(m) && Control(m') && Pointed(m) && t < |m'.k.slots| == |m.k.slots| && t != u
    requires m.fs.top == Spawn(u, p, pc) && Step(m, Tick) == Some(m')
    ensures PointerOk(m', t)
  {
    hide PendSection, InQueue;
    assert PointerOk(m, t);
    if InQueue(m'.k, t) { SpawnQueuesOwn(m.k, u, p, pc, t); }
  }

  lemma SpawnedIsPointed(m: Machine, m': Machine, t: TaskId, p: Prio, pc: SpawnPc)
    requires Control(m) && Control(m') && Owned(m) && Pointed(m) && t < |m'.k.slots| == |m.k.slots|
    requires m.fs.top == Spawn(t, p, pc) && Step(m, Tick) == Some(m') && ClaimIsQuiescent(m, Tick)
    ensures PointerOk(m', t)
  {
    hide SpawnStep, PendSection, InQueue, PointerOk;
    match pc
    case Claim => ClaimedIsPointed(m, m', t, p);
    case Mark => MarkedIsPointed(m, m', t, p);
    case _ => SpawningIsPointed(m, m', t, p, pc);
  }

  lemma ClaimedIsPointed(m: Machine, m': Machine, t: TaskId, p: Prio)
    requires Control(m) && Control(m') && Owned(m) && Pointed(m) && t < |m'.k.slots| == |m.k.slots|
    requires m.fs.top == Spawn(t, p, Claim) && Step(m, Tick) == Some(m') && ClaimIsQuiescent(m, Tick)
    ensures PointerOk(m', t)
  {
    hide InQueue;
    assert PointerOk(m, t);
    if InQueue(m'.k, t) { SpawnQueuesOwn(m.k, t, p, Claim, t); }
    if !m.k.slots[t].spawned { UnqueuedIsAbsent(m, t); }
  }

  lemma MarkedIsPointed(m: Machine, m': Machine, t: TaskId, p: Prio)
    requires Control(m) && Control(m') && Owned(m) && Pointed(m) && t < |m'.k.slots| == |m.k.slots|
    requires m.fs.top == Spawn(t, p, Mark) && Step(m, Tick) == Some(m')
    ensures PointerOk(m', t)
  {
    hide InQueue;
    assert PointerOk(m, t);
    if InQueue(m'.k, t) { SpawnQueuesOwn(m.k, t, p, Mark, t); }
    if m.k.slots[t].queued {
      QueuedIsOwned(m, t);
      if Claimants(m.fs.below, t) > 0 { ClaimantIsFrame(m.fs.below, t); }
    }
  }

  lemma SpawningIsPointed(m: Machine, m': Machine, t: TaskId, p: Prio, pc: SpawnPc)
    requires Control(m) && Control(m') && Pointed(m) && t < |m'.k.slots| == |m.k.slots| && pc != Claim && pc != Mark
    requires m.fs.top == Spawn(t, p, pc) && Step(m, Tick) == Some(m')
    ensures PointerOk(m', t)
  {
    hide PendSection, InQueue;
    assert PointerOk(m, t);
    if InQueue(m'.k, t) && pc != Push { SpawnQueuesOwn(m.k, t, p, pc, t); }
  }

  lemma SpawnQueuesOwn(k: Kernel, u: TaskId, p: Prio, pc: SpawnPc, t: TaskId)
    requires k.WellFormed() && FrameOk(Spawn(u, p, pc), |k.queues|, |k.slots|) && !(t == u && pc == Push)
    requires InQueue(SpawnStep(k, u, p, pc).0, t)
    ensures InQueue(k, t)
  {
    hide PendSection;
    var k' := SpawnStep(k, u, p, pc).0;
    var q :| 0 <= q < |k'.queues| && t in k'.queues[q];
    assert t in k.queues[q];
  }

  lemma UnqueuedIsAbsent(m: Machine, t: TaskId)
    requires m.k.WellFormed() && Owned(m) && t < |m.k.slots| && !m.k.slots[t].queued
    ensures !InQueue(m.k, t)
  {
    UnlinkedIsAbsent(m.k.queues, t);
  }

  /** Who owns a queued task while a spawn of it is marking it: a queue, a wake, or another spawn. */
  lemma QueuedIsOwned(m: Machine, t: TaskId)
    requires m.k.WellFormed() && Owned(m) && t < |m.k.slots| && m.k.slots[t].queued
    ensures InQueue(m.k, t) || Claimants(m.fs, t) > 0
  {
    assert Linked(m.k.queues, t) + Claimants(m.fs, t) == 1;
    if Linked(m.k.queues, t) > 0 { LinkedIsIn(m.k.queues, t); }
  }

  lemma {:induction false} LinkedIsIn(queues: seq<seq<TaskId>>, t: TaskId)
    requires Linked(queues, t) > 0
    ensures exists p :: 0 <= p < |queues| && t in queues[p]
  {
    var last := |queues| - 1;
    if t in multiset(queues[last]) {
      assert t in queues[last];
    } else {
      LinkedIsIn(queues[..last], t);
      var p :| 0 <= p < last && t in queues[..last][p];
      assert t in queues[p];
    }
  }

  lemma {:induction false} ClaimantIsFrame(fs: Frames, t: TaskId)
    requires Claimants(fs, t) > 0
    ensures Gripped(fs, t) || Unpushing(fs, t)
  {
    if Claims(fs.top, t) == 0 { ClaimantIsFrame(fs.below, t); }
  }

  lemma DequeueKeepsPointed(m: Machine, m': Machine, p: Prio)
    requires Control(m) && Control(m') && Pointed(m) && m.fs.top == Soft(Running(p, Dequeue)) && Step(m, Tick) == Some(m')
    ensures Pointed(m')
  {
    forall t | 0 <= t < |m'.k.slots| ensures PointerOk(m', t) {
      assert PointerOk(m, t);
      if InQueue(m'.k, t) || Held(m'.fs.top) == Some(t) {
        if m.k.queues[p] != [] { assert m.k.queues[p][0] in m.k.queues[p]; }
        assert InQueue(m.k, t);
      }
    }
  }

  /** The section leaves flags and pointers alone, except that it may put a woken task in its queue. */
  ghost predicate KeepsPointers(k: Kernel, k': Kernel) {
    && k'.SameSize(k)
    && (forall t | 0 <= t < |k.slots| :: k'.slots[t].spawned ==> k.slots[t].spawned)
    && (forall t | 0 <= t < |k.slots| && k'.slots[t].spawned && k.slots[t].exec.Some? :: k'.slots[t].exec.Some?)
    && (forall t | 0 <= t < |k.slots| && k'.slots[t].spawned && InQueue(k', t) :: InQueue(k, t) || k'.slots[t].exec.Some?)
  }

  lemma WakeSectionKeepsPointers(k: Kernel, u: TaskId)
    requires k.WellFormed() && u < |k.slots|
    ensures KeepsPointers(k, WakeSection(k, u))
  {
    var k' := WakeSection(k, u);
    forall t | 0 <= t < |k.slots| && InQueue(k', t) ensures InQueue(k, t) || k'.slots[t].exec.Some? {
      var p :| 0 <= p < |k'.queues| && t in k'.queues[p];
      if t != u { assert t in k.queues[p]; }
    }
  }

  lemma DespawnKeepsPointers(k: Kernel, t: TaskId)
    requires k.WellFormed() && t < |k.slots|
    ensures KeepsPointers(k, DespawnSection(k, t)) && !DespawnSection(k, t).slots[t].spawned
  {
    var s := k.slots[t];
    var k1 := k.Put(t, s.(spawned := false, joinWaker := None));
    assert KeepsPointers(k, k1) by { assert forall u :: InQueue(k1, u) <==> InQueue(k, u); }
    if s.joinWaker.Some? { WakeSectionKeepsPointers(k1, s.joinWaker.value); }
  }

  lemma SameQueues(k: Kernel, k': Kernel)
    requires k'.queues == k.queues
    ensures forall t :: InQueue(k', t) == InQueue(k, t)
  {}

  lemma HoldKeepsPointed(m: Machine, m': Machine, p: Prio, u: TaskId, pc: HoldPc)
    requires Control(m) && Control(m') && Pointed(m)
    requires m.fs.top == Soft(Running(p, Hold(u, pc))) && Step(m, Tick) == Some(m')
    ensures Pointed(m')
  {
    hide HoldStep, PointerOk, InQueue;
    forall t | 0 <= t < |m'.k.slots| ensures PointerOk(m', t) {
      if pc == Despawn { DespawnKeepsPointer(m, m', p, u, t); } else { StoreKeepsPointer(m, m', p, u, pc, t); }
    }
  }

  lemma DespawnKeepsPointer(m: Machine, m': Machine, p: Prio, u: TaskId, t: TaskId)
    requires Control(m) && Control(m') && Pointed(m) && t < |m'.k.slots| == |m.k.slots|
    requires m.fs.top == Soft(Running(p, Hold(u, Despawn))) && Step(m, Tick) == Some(m')
    ensures PointerOk(m', t)
  {
    hide DespawnSection, InQueue;
    DespawnKeepsPointers(m.k, u);
    assert PointerOk(m, t);
  }

  lemma StoreKeepsPointer(m: Machine, m': Machine, p: Prio, u: TaskId, pc: HoldPc, t: TaskId)
    requires Control(m) && Control(m') && Pointed(m) && t < |m'.k.slots| == |m.k.slots| && pc != Despawn
    requires m.fs.top == Soft(Running(p, Hold(u, pc))) && Step(m, Tick) == Some(m')
    ensures PointerOk(m', t)
  {
    hide Step, PointerOk, Control;
    match pc
    case Dispatch => PollKeepsPointer(m, m', p, u, pc, t);
    case Polling => PollKeepsPointer(m, m', p, u, pc, t);
    case _ => EndKeepsPointer(m, m', p, u, pc, t);
  }

  lemma PollKeepsPointer(m: Machine, m': Machine, p: Prio, u: TaskId, pc: HoldPc, t: TaskId)
    requires Control(m) && Pointed(m) && t < |m'.k.slots| == |m.k.slots| && (pc == Dispatch || pc == Polling)
    requires m.fs.top == Soft(Running(p, Hold(u, pc))) && Step(m, Tick) == Some(m')
    ensures PointerOk(m', t)
  {
    hide InQueue;
    SameQueues(m.k, m'.k);
    assert PointerOk(m, t);
  }

  lemma EndKeepsPointer(m: Machine, m': Machine, p: Prio, u: TaskId, pc: HoldPc, t: TaskId)
    requires Control(m) && Pointed(m) && t < |m'.k.slots| == |m.k.slots| && pc != Dispatch && pc != Polling && pc != Despawn
    requires m.fs.top == Soft(Running(p, Hold(u, pc))) && Step(m, Tick) == Some(m')
    ensures PointerOk(m', t)
  {
    hide InQueue, DespawnSection;
    assert m'.k == m.k.Put(u, m'.k.slots[u]);
    SameQueues(m.k, m'.k);
    assert PointerOk(m, t);
  }

  lemma JoinKeepsPointed(m: Machine, m': Machine, w: TaskId, u: TaskId, pc: JoinPc)
    requires Control(m) && Pointed(m) && m.fs.top == Join(w, u, pc) && Step(m, Tick) == Some(m')
    ensures Pointed(m')
  {
    hide InQueue;
    SameQueues(m.k, m'.k);
    forall t | 0 <= t < |m'.k.slots| ensures PointerOk(m', t) { assert PointerOk(m, t); }
  }

  lemma OtherKeepsPointed(m: Machine, m': Machine)
    requires Control(m) && Pointed(m) && Step(m, Tick) == Some(m')
    requires m.fs.top.Main? || m.fs.top.Handler? || (m.fs.top.Soft? && !m.fs.top.soft.Running?)
    ensures Pointed(m')
  {
    hide InQueue, WakeStep, SpawnStep, JoinStep, RunStep, Highest;
    OthersKeepSlots(m.k, m.fs.top);
    SameQueues(m.k, m'.k);
    forall t | 0 <= t < |m'.k.slots| ensures PointerOk(m', t) { assert PointerOk(m, t); }
  }

  lemma CallKeepsPointed(m: Machine, a: Action, m': Machine)
    requires Control(m) && Control(m') && Pointed(m) && Step(m, a) == Some(m') && a != Tick
    ensures Pointed(m')
  {
    if a.MaskedWake? { WakeSectionKeepsPointers(m.k, a.t); }
    forall t | 0 <= t < |m'.k.slots| ensures PointerOk(m', t) { assert PointerOk(m, t); }
  }

  lemma StepKeepsPointed(m: Machine, a: Action, m': Machine)
    requires Control(m) && Owned(m) && Pointed(m) && Step(m, a) == Some(m') && ClaimIsQuiescent(m, a)
    ensures Pointed(m')
  {
    hide Pointed, WakeStep, SpawnStep, HoldStep, SoftStep, JoinStep, Owned;
    StepKeepsControl(m, a, m');
    if a != Tick {
      CallKeepsPointed(m, a, m');
    } else {
      match m.fs.top
      case Wake(t, pc) => WakeKeepsPointed(m, m', t, pc);
      case Spawn(t, p, pc) => SpawnKeepsPointed(m, m', t, p, pc);
      case Soft(Running(p, Dequeue)) => DequeueKeepsPointed(m, m', p);
      case Soft(Running(p, Hold(t, pc))) => HoldKeepsPointed(m, m', p, t, pc);
      case Join(w, u, pc) => JoinKeepsPointed(m, m', w, u, pc);
      case Idle =>
      case _ => OtherKeepsPointed(m, m');
    }
  }

  // ---- all runs ----

  lemma {:induction false} RunKeepsPointed(m: Machine, acts: seq<Action>, m': Machine)
    requires BoundInv(m) && Pointed(m) && Run(m, acts) == Some(m') && RespawnsQuiescent(m, acts)
    ensures BoundInv(m') && Pointed(m')
    decreases |acts|
  {
    hide Pointed, Bound, Owned, Step;
    if acts != [] {
      var next := Step(m, acts[0]).value;
      StepKeepsBoundInv(m, acts[0], next);
      StepKeepsPointed(m, acts[0], next);
      RunKeepsPointed(next, acts[1..], m');
    }
  }

  /** In every reachable state a task that is spawned, enqueued and unfinished can be woken: its executor
      pointer names the executor it is bound to. */
  lemma LiveTaskHasPointer(n: nat, tasks: nat, acts: seq<Action>, m: Machine, t: TaskId)
    requires 0 < n && Run(Init(n, tasks), acts) == Some(m) && RespawnsQuiescent(Init(n, tasks), acts)
    requires Enlisted(m, t)
    ensures m.k.slots[t].exec.Some? && m.k.slots[t].exec == m.k.slots[t].home
  {
    InitBound(n, tasks);
    RunKeepsPointed(Init(n, tasks), acts, m);
    assert PointerOk(m, t);
  }
}
