/** No re-entrant poll.  Assuming that a task slot is respawned only when it is quiescent, a task
    stays bound to one executor from the moment it is enqueued until its next spawn, and therefore
    at most one activation is ever inside its poll. */
module Binding {
  import opened Wrappers
  import opened Kernel
  import opened Machine
  import opened Nesting
  import opened Ownership

  // ---- the respawn assumption ----

  /** Does the frame hold `t` between its dequeue and the end of its poll, or has it loaded an
      executor pointer of `t` without having enqueued yet? */
  predicate Grips(f: Frame, t: TaskId) {
    match f
    case Wake(u, FetchOr(_)) => u == t
    case Wake(u, Enqueue(_)) => u == t
    case _ => Held(f) == Some(t)
  }

  predicate Gripped(fs: Frames, t: TaskId) {
    fs.Over? && (Grips(fs.top, t) || Gripped(fs.below, t))
  }

  /** Is the action a `TaskStorage::spawn` of `t` that succeeds? */
  predicate Claiming(m: Machine, a: Action, t: TaskId) {
    && a == Tick && m.fs.Over? && m.fs.top.Spawn? && m.fs.top.spawn == Claim && m.fs.top.task == t
    && t < |m.k.slots| && !m.k.slots[t].spawned
  }

  predicate Quiescent(m: Machine, t: TaskId) {
    t < |m.k.slots| && !m.k.slots[t].queued && !Gripped(m.fs, t)
  }

  /** Every successful respawn in the run finds its slot quiescent. */
  predicate RespawnsQuiescent(m: Machine, acts: seq<Action>)
    decreases |acts|
  {
    acts == [] || (
      && ClaimIsQuiescent(m, acts[0])
      && (Step(m, acts[0]).Some? ==> RespawnsQuiescent(Step(m, acts[0]).value, acts[1..])))
  }

  predicate ClaimIsQuiescent(m: Machine, a: Action) {
    m.fs.Over? && m.fs.top.Spawn? && Claiming(m, a, m.fs.top.task) ==> Quiescent(m, m.fs.top.task)
  }

  // ---- the invariant ----

  /** A spawn that has claimed its slot and not yet pushed it; nothing below it grips the task. */
  predicate Unpushed(pc: SpawnPc) {
    pc != Claim && pc != Decide
  }

  ghost predicate FrameBound(slots: seq<Slot>, f: Frame, below: Frames) {
    && (forall t | 0 <= t < |slots| && Grips(f, t) :: slots[t].home == GripPrio(f))
    && (f.Spawn? && Unpushed(f.spawn) ==> !Gripped(below, f.task))
  }

  function GripPrio(f: Frame): Option<Prio> {
    match f
    case Wake(_, FetchOr(p)) => Some(p)
    case Wake(_, Enqueue(p)) => Some(p)
    case _ => RunToken(f)
  }

  ghost predicate FramesBound(slots: seq<Slot>, fs: Frames) {
    fs.Over? ==> FrameBound(slots, fs.top, fs.below) && FramesBound(slots, fs.below)
  }

  ghost predicate QueuesBound(k: Kernel)
    requires k.WellFormed()
  {
    forall p, i | 0 <= p < |k.queues| && 0 <= i < |k.queues[p]| :: k.slots[k.queues[p][i]].home == Some(p)
  }

  ghost predicate PointersBound(k: Kernel) {
    forall t | 0 <= t < |k.slots| && k.slots[t].exec.Some? :: k.slots[t].home == k.slots[t].exec
  }

  ghost predicate Bound(m: Machine) {
    m.k.WellFormed() && FramesBound(m.k.slots, m.fs) && QueuesBound(m.k) && PointersBound(m.k)
  }

  // ---- how steps move homes ----

  /** Only the tasks that `fs` does not grip may have changed their home. */
  lemma {:induction false} HomesKeepFrames(slots: seq<Slot>, slots': seq<Slot>, fs: Frames)
    requires |slots'| == |slots| && FramesBound(slots, fs)
    requires forall t | 0 <= t < |slots| :: slots'[t].home == slots[t].home || !Gripped(fs, t)
    ensures FramesBound(slots', fs)
  {
    if fs.Over? { HomesKeepFrames(slots, slots', fs.below); }
  }

  /** What a section does to homes, pointers and queues: `t` may be pushed onto `p`, its new home. */
  ghost predicate Rehomes(k: Kernel, k': Kernel, t: TaskId, p: Prio)
    requires t < |k.slots| && p < |k.queues|
  {
    && k'.SameSize(k)
    && (forall u | 0 <= u < |k.slots| && u != t :: k'.slots[u].home == k.slots[u].home)
    && (forall u | 0 <= u < |k.slots| && u != t :: k'.slots[u].exec == k.slots[u].exec || k'.slots[u].exec == None)
    && k'.slots[t].home == k'.slots[t].exec == Some(p)
    && k'.queues == k.queues[p := k.queues[p] + [t]]
  }

  ghost predicate KeepsHomes(k: Kernel, k': Kernel) {
    && k'.SameSize(k)
    && (forall u | 0 <= u < |k.slots| :: k'.slots[u].home == k.slots[u].home)
    && (forall u | 0 <= u < |k.slots| :: k'.slots[u].exec == k.slots[u].exec || k'.slots[u].exec == None)
    && k'.queues == k.queues
  }

  lemma KeepsHomesKeepsBound(k: Kernel, k': Kernel, fs: Frames)
    requires k.WellFormed() && k'.WellFormed() && KeepsHomes(k, k')
    requires QueuesBound(k) && PointersBound(k) && FramesBound(k.slots, fs)
    ensures QueuesBound(k') && PointersBound(k') && FramesBound(k'.slots, fs)
  {
    HomesKeepFrames(k.slots, k'.slots, fs);
  }

  lemma RehomesKeepsBound(k: Kernel, k': Kernel, t: TaskId, p: Prio, fs: Frames)
    requires k.WellFormed() && k'.WellFormed() && t < |k.slots| && p < |k.queues| && Rehomes(k, k', t, p)
    requires QueuesBound(k) && PointersBound(k) && FramesBound(k.slots, fs)
    requires k.slots[t].home == Some(p) || (!Gripped(fs, t) && forall q | 0 <= q < |k.queues| :: t !in k.queues[q])
    ensures QueuesBound(k') && PointersBound(k') && FramesBound(k'.slots, fs)
  {
    HomesKeepFrames(k.slots, k'.slots, fs);
    forall q, i | 0 <= q < |k'.queues| && 0 <= i < |k'.queues[q]|
      ensures k'.slots[k'.queues[q][i]].home == Some(q)
    {
      if q == p && i == |k.queues[p]| {
      } else {
        assert k'.queues[q][i] == k.queues[q][i];
      }
    }
  }

  lemma WakeSectionKeepsBound(k: Kernel, t: TaskId, fs: Frames)
    requires k.WellFormed() && t < |k.slots|
    requires QueuesBound(k) && PointersBound(k) && FramesBound(k.slots, fs)
    ensures var k' := WakeSection(k, t); QueuesBound(k') && PointersBound(k') && FramesBound(k'.slots, fs)
  {
    var s, k' := k.slots[t], WakeSection(k, t);
    if s.exec.Some? && !s.queued {
      assert Rehomes(k, k', t, s.exec.value);
      RehomesKeepsBound(k, k', t, s.exec.value, fs);
    } else {
      assert KeepsHomes(k, k');
      KeepsHomesKeepsBound(k, k', fs);
    }
  }

  // ---- every step ----

  lemma WakeKeepsBound(m: Machine, m': Machine, t: TaskId, pc: WakePc)
    requires Control(m) && Control(m') && Bound(m) && m.fs.top == Wake(t, pc) && Step(m, Tick) == Some(m')
    ensures Bound(m')
  {
    if pc.Enqueue? {
      assert Grips(m.fs.top, t);
      assert Rehomes(m.k, m'.k, t, pc.p);
      RehomesKeepsBound(m.k, m'.k, t, pc.p, m.fs.below);
    } else {
      assert KeepsHomes(m.k, m'.k);
      KeepsHomesKeepsBound(m.k, m'.k, m.fs.below);
    }
  }

  lemma SpawnKeepsBound(m: Machine, m': Machine, t: TaskId, p: Prio, pc: SpawnPc)
    requires Control(m) && Control(m') && Owned(m) && Bound(m)
    requires m.fs.top == Spawn(t, p, pc) && Step(m, Tick) == Some(m') && ClaimIsQuiescent(m, Tick)
    ensures Bound(m')
  {
    if pc == Push {
      assert Claims(m.fs.top, t) == 1;
      assert Linked(m.k.queues, t) + Claimants(m.fs, t) == Flag(m.k, t);
      UnlinkedIsAbsent(m.k.queues, t);
      assert Rehomes(m.k, m'.k, t, p);
      RehomesKeepsBound(m.k, m'.k, t, p, m.fs.below);
    } else {
      assert KeepsHomes(m.k, m'.k);
      KeepsHomesKeepsBound(m.k, m'.k, m.fs.below);
    }
  }

  lemma DequeueKeepsBound(m: Machine, m': Machine, p: Prio)
    requires Control(m) && Control(m') && Bound(m)
    requires m.fs.top == Soft(Running(p, Dequeue)) && Step(m, Tick) == Some(m')
    ensures Bound(m')
  {
    HomesKeepFrames(m.k.slots, m'.k.slots, m.fs.below);
    forall q, i | 0 <= q < |m'.k.queues| && 0 <= i < |m'.k.queues[q]|
      ensures m'.k.slots[m'.k.queues[q][i]].home == Some(q)
    {
      assert m'.k.queues[q][i] in m.k.queues[q];
    }
  }

  lemma DespawnKeepsBound(k: Kernel, t: TaskId, fs: Frames)
    requires k.WellFormed() && t < |k.slots|
    requires QueuesBound(k) && PointersBound(k) && FramesBound(k.slots, fs)
    ensures var k' := DespawnSection(k, t); QueuesBound(k') && PointersBound(k') && FramesBound(k'.slots, fs)
  {
    var s := k.slots[t];
    var k1 := k.Put(t, s.(spawned := false, joinWaker := None));
    assert KeepsHomes(k, k1);
    KeepsHomesKeepsBound(k, k1, fs);
    if s.joinWaker.Some? { WakeSectionKeepsBound(k1, s.joinWaker.value, fs); }
  }

  lemma HoldKeepsBound(m: Machine, m': Machine, p: Prio, t: TaskId, pc: HoldPc)
    requires Control(m) && Control(m') && Bound(m)
    requires m.fs.top == Soft(Running(p, Hold(t, pc))) && Step(m, Tick) == Some(m')
    ensures Bound(m')
  {
    hide WakeSection, QueuesBound, PointersBound;
    if pc == Despawn {
      DespawnKeepsBound(m.k, t, m.fs.below);
    } else {
      assert Grips(m.fs.top, t);
      assert KeepsHomes(m.k, m'.k);
      KeepsHomesKeepsBound(m.k, m'.k, m.fs.below);
    }
  }

  lemma StepKeepsBound(m: Machine, a: Action, m': Machine)
    requires Control(m) && Owned(m) && Bound(m) && Step(m, a) == Some(m') && ClaimIsQuiescent(m, a)
    ensures Bound(m')
  {
    StepKeepsControl(m, a, m');
    match a
    case Tick => TickKeepsBound(m, m');
    case MaskedWake(t) => WakeSectionKeepsBound(m.k, t, m.fs);
    case Ready(v) => assert Grips(m.fs.top, m.fs.top.soft.run.t);
    case _ => assert m'.k == m.k;
  }

  lemma TickKeepsBound(m: Machine, m': Machine)
    requires Control(m) && Control(m') && Owned(m) && Bound(m)
    requires Step(m, Tick) == Some(m') && ClaimIsQuiescent(m, Tick)
    ensures Bound(m')
  {
    match m.fs.top
    case Wake(t, pc) => WakeKeepsBound(m, m', t, pc);
    case Spawn(t, p, pc) => SpawnKeepsBound(m, m', t, p, pc);
    case Soft(Running(p, Dequeue)) => DequeueKeepsBound(m, m', p);
    case Soft(Running(p, Hold(t, pc))) => HoldKeepsBound(m, m', p, t, pc);
    case Join(w, u, pc) => JoinKeepsBound(m, m', w, u, pc);
    case Soft(_) => SwitchKeepsBound(m, m');
    case _ =>
  }

  lemma JoinKeepsBound(m: Machine, m': Machine, w: TaskId, u: TaskId, pc: JoinPc)
    requires Control(m) && Control(m') && Bound(m) && m.fs.top == Join(w, u, pc) && Step(m, Tick) == Some(m')
    ensures Bound(m')
  {
    KeepsHomesKeepsBound(m.k, m'.k, m.fs.below);
  }

  lemma SwitchKeepsBound(m: Machine, m': Machine)
    requires Control(m) && Control(m') && Bound(m) && Step(m, Tick) == Some(m')
    requires m.fs.top.Soft? && !m.fs.top.soft.Running?
    ensures Bound(m')
  {
    KeepsHomesKeepsBound(m.k, m'.k, m.fs.below);
  }

  // ---- all runs ----

  ghost predicate BoundInv(m: Machine) {
    NestingInv(m) && Owned(m) && Bound(m)
  }

  lemma InitBound(n: nat, tasks: nat)
    requires 0 < n
    ensures BoundInv(Init(n, tasks))
  {
    InitNesting(n, tasks);
    InitOwned(n, tasks);
  }

  lemma StepKeepsBoundInv(m: Machine, a: Action, m': Machine)
    requires BoundInv(m) && Step(m, a) == Some(m') && ClaimIsQuiescent(m, a)
    ensures BoundInv(m')
  {
    StepKeepsNesting(m, a, m');
    StepKeepsOwned(m, a, m');
    StepKeepsBound(m, a, m');
  }

  lemma {:induction false} RunKeepsBoundInv(m: Machine, acts: seq<Action>, m': Machine)
    requires BoundInv(m) && Run(m, acts) == Some(m') && RespawnsQuiescent(m, acts)
    ensures BoundInv(m')
    decreases |acts|
  {
    if acts != [] {
      var next := Step(m, acts[0]).value;
      StepKeepsBoundInv(m, acts[0], next);
      RunKeepsBoundInv(next, acts[1..], m');
    }
  }

  // ---- no re-entrant poll ----

  /** The activations that have taken `t` off its queue and not finished polling it. */
  function Holders(fs: Frames, t: TaskId): nat {
    if fs.Empty? then 0 else (if Held(fs.top) == Some(t) then 1 else 0) + Holders(fs.below, t)
  }

  lemma {:induction false} HolderRunsAtHome(slots: seq<Slot>, fs: Frames, t: TaskId)
    requires FramesBound(slots, fs) && t < |slots|
    ensures 0 < Holders(fs, t) ==> slots[t].home.Some? && slots[t].home.value in Tokens(fs)
  {
    if fs.Over? {
      HolderRunsAtHome(slots, fs.below, t);
      assert Held(fs.top) == Some(t) ==> Grips(fs.top, t);
    }
  }

  /** Nesting is strict, so the innermost token differs from all older ones. */
  lemma InnermostTokenIsNew(fs: Frames, n: nat)
    requires Nested(Tokens(fs), n) && fs.Over?
    ensures Nested(Tokens(fs.below), n)
    ensures RunToken(fs.top).Some? ==> forall q | q in Tokens(fs.below) :: RunToken(fs.top).value < q
  {
    if RunToken(fs.top).Some? {
      var older, last := Tokens(fs.below), |Tokens(fs.below)|;
      assert Tokens(fs)[..last] == older && Tokens(fs)[last] == RunToken(fs.top).value;
      forall q | q in older ensures RunToken(fs.top).value < q {
        var i :| 0 <= i < last && older[i] == q;
        assert Tokens(fs)[i] == q;
      }
    }
  }

  lemma {:induction false} HolderIsUnique(slots: seq<Slot>, fs: Frames, t: TaskId, n: nat)
    requires FramesBound(slots, fs) && t < |slots| && Nested(Tokens(fs), n)
    ensures Holders(fs, t) <= 1
  {
    if fs.Over? {
      InnermostTokenIsNew(fs, n);
      HolderIsUnique(slots, fs.below, t, n);
      HolderRunsAtHome(slots, fs.below, t);
      assert Held(fs.top) == Some(t) ==> Grips(fs.top, t);
    }
  }

  /** A task is never polled re-entrantly: in every reachable state at most one activation is
      between dequeuing it and the end of its poll, it runs on the executor the task was enqueued
      on, and that executor's `run` is active only once. */
  lemma NoReentrantPoll(n: nat, tasks: nat, acts: seq<Action>, m: Machine, t: TaskId)
    requires 0 < n && Run(Init(n, tasks), acts) == Some(m) && t < |m.k.slots|
    requires RespawnsQuiescent(Init(n, tasks), acts)
    ensures Holders(m.fs, t) <= 1
    ensures 0 < Holders(m.fs, t) ==> m.k.slots[t].home.Some? && m.k.slots[t].home.value in Tokens(m.fs)
    ensures forall i, j | 0 <= i < j < |Tokens(m.fs)| :: Tokens(m.fs)[i] != Tokens(m.fs)[j]
  {
    InitBound(n, tasks);
    RunKeepsBoundInv(Init(n, tasks), acts, m);
    HolderIsUnique(m.k.slots, m.fs, t, |m.k.queues|);
    HolderRunsAtHome(m.k.slots, m.fs, t);
  }

  /** Wakes route back to the binding executor: every link of a task is in its home queue, and its
      executor pointer is null or its home. */
  lemma LinksAreAtHome(n: nat, tasks: nat, acts: seq<Action>, m: Machine, t: TaskId, p: Prio)
    requires 0 < n && Run(Init(n, tasks), acts) == Some(m) && t < |m.k.slots| && p < |m.k.queues|
    requires RespawnsQuiescent(Init(n, tasks), acts)
    ensures t in m.k.queues[p] ==> m.k.slots[t].home == Some(p)
    ensures m.k.slots[t].exec.Some? ==> m.k.slots[t].exec == m.k.slots[t].home
  {
    InitBound(n, tasks);
    RunKeepsBoundInv(Init(n, tasks), acts, m);
  }

  /** The binding changes only when a spawn pushes the task. */
  lemma HomeMovesOnlyAtSpawn(m: Machine, a: Action, m': Machine, t: TaskId)
    requires BoundInv(m) && Step(m, a) == Some(m') && t < |m.k.slots|
    ensures t < |m'.k.slots|
    ensures m'.k.slots[t].home == m.k.slots[t].home
            || (a == Tick && m.fs.top.Spawn? && m.fs.top.spawn == Push && m.fs.top.task == t)
  {
    StepKeepsControl(m, a, m');
    match a
    case Tick => TickKeepsHome(m, t);
    case MaskedWake(u) => WakeSectionKeepsHome(m.k, u, t);
    case _ => assert m'.k == m.k;
  }

  lemma TickKeepsHome(m: Machine, t: TaskId)
    requires Control(m) && Bound(m) && m.fs.Over? && t < |m.k.slots|
    ensures TopStep(m.k, m.fs.top).0.slots[t].home == m.k.slots[t].home
            || (m.fs.top.Spawn? && m.fs.top.spawn == Push && m.fs.top.task == t)
  {
    hide WakeStep, SpawnStep, HoldStep, QueuesBound;
    match m.fs.top
    case Wake(u, pc) =>
      assert Grips(m.fs.top, u) || !pc.Enqueue?;
      WakeKeepsHome(m.k, u, pc, t);
    case Spawn(u, p, pc) => SpawnKeepsHome(m.k, u, p, pc, t);
    case Soft(Running(p, Hold(u, pc))) => HoldKeepsHome(m.k, p, u, pc, t);
    case _ =>
  }

  lemma WakeSectionKeepsHome(k: Kernel, u: TaskId, t: TaskId)
    requires k.WellFormed() && PointersBound(k) && u < |k.slots| && t < |k.slots|
    ensures WakeSection(k, u).slots[t].home == k.slots[t].home
  {}

  lemma WakeKeepsHome(k: Kernel, u: TaskId, pc: WakePc, t: TaskId)
    requires k.WellFormed() && FrameOk(Wake(u, pc), |k.queues|, |k.slots|) && t < |k.slots|
    requires pc.Enqueue? ==> k.slots[u].home == Some(pc.p)
    ensures WakeStep(k, u, pc).0.slots[t].home == k.slots[t].home
  {}

  lemma SpawnKeepsHome(k: Kernel, u: TaskId, p: Prio, pc: SpawnPc, t: TaskId)
    requires k.WellFormed() && FrameOk(Spawn(u, p, pc), |k.queues|, |k.slots|) && t < |k.slots|
    ensures SpawnStep(k, u, p, pc).0.slots[t].home == k.slots[t].home || (pc == Push && u == t)
  {
    hide PendSection, Highest;
    var k' := SpawnStep(k, u, p, pc).0;
    match pc
    case Decide => assert k'.slots == k.slots;
    case _ => assert u != t ==> k'.slots[t] == k.slots[t];
  }

  lemma HoldKeepsHome(k: Kernel, p: Prio, u: TaskId, pc: HoldPc, t: TaskId)
    requires k.WellFormed() && PointersBound(k) && t < |k.slots|
    requires FrameOk(Soft(Running(p, Hold(u, pc))), |k.queues|, |k.slots|)
    ensures HoldStep(k, p, u, pc).0.slots[t].home == k.slots[t].home
  {
    var s := k.slots[u];
    if pc == Despawn && s.joinWaker.Some? {
      WakeSectionKeepsHome(k.Put(u, s.(spawned := false, joinWaker := None)), s.joinWaker.value, t);
    }
  }
}
