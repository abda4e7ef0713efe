/** The life of a future: written once per spawn, polled only while it is in its cell, dropped once,
    exactly when it returned Ready.

    `TaskStorage::spawn` installs the poll function before it writes the future.  A late wake that
    stored the executor pointer again after completion can therefore reach the slot in that window.
    The respawn is safe exactly when that pointer is null, or interrupts are masked, or the
    executor it names does not outrank the code that respawns; Hazard.dfy proves the converse. */
module Lifecycle {
  import opened Wrappers
  import opened Kernel
  import opened Machine
  import opened Nesting
  import opened Ownership
  import opened Binding

  // ---- the condition on a respawn ----

  predicate SafeRespawn(m: Machine, t: TaskId) {
    && t < |m.k.slots|
    && var exec := m.k.slots[t].exec;
       exec == None || !m.mie || !Outranks(exec.value, m.k.prioStack)
  }

  predicate ClaimIsSafe(m: Machine, a: Action) {
    m.fs.Over? && m.fs.top.Spawn? && Claiming(m, a, m.fs.top.task) ==>
      Quiescent(m, m.fs.top.task) && SafeRespawn(m, m.fs.top.task)
  }

  predicate RespawnsSafe(m: Machine, acts: seq<Action>)
    decreases |acts|
  {
    acts == [] || (
      && ClaimIsSafe(m, acts[0])
      && (Step(m, acts[0]).Some? ==> RespawnsSafe(Step(m, acts[0]).value, acts[1..])))
  }

  lemma {:induction false} SafeIsQuiescent(m: Machine, acts: seq<Action>)
    requires RespawnsSafe(m, acts)
    ensures RespawnsQuiescent(m, acts)
    decreases |acts|
  {
    hide Step, SafeRespawn, Quiescent;
    if acts != [] && Step(m, acts[0]).Some? { SafeIsQuiescent(Step(m, acts[0]).value, acts[1..]); }
  }

  // ---- the spawn window ----

  /** Between the claim of a slot and the write of its future. */
  predicate InWindow(pc: SpawnPc) {
    pc == ClearResult || pc == ClearWaker || pc == SetPollFn || pc == WriteFuture
  }

  predicate OpensWindow(f: Frame, t: TaskId) {
    f.Spawn? && f.task == t && InWindow(f.spawn)
  }

  predicate Spawning(fs: Frames, t: TaskId) {
    fs.Over? && (OpensWindow(fs.top, t) || Spawning(fs.below, t))
  }

  /** Nobody can enqueue `t`: no pointer, not queued, no enqueue in flight. */
  predicate Cold(m: Machine, t: TaskId)
    requires t < |m.k.slots|
  {
    m.k.slots[t].exec == None && !m.k.slots[t].queued && !Gripped(m.fs, t)
  }

  /** The window of `t` is masked, or its executor `h` does not outrank the code it is in. */
  predicate Shielded(fs: Frames, h: Option<Prio>, t: TaskId) {
    fs.Over? &&
    if OpensWindow(fs.top, t)
    then !MieOf(fs) || (h.Some? && !Outranks(h.value, Tokens(fs.below)))
    else Shielded(fs.below, h, t)
  }

  ghost predicate WindowsSafe(m: Machine) {
    forall t | 0 <= t < |m.k.slots| && Spawning(m.fs, t) ::
      && m.k.slots[t].spawned && m.k.slots[t].cell != Live
      && (Cold(m, t) || Shielded(m.fs, m.k.slots[t].home, t))
  }

  /** Above a window of `t` nothing polls `t` and nothing else spawns it. */
  predicate WindowsApart(fs: Frames) {
    fs.Over? ==>
      && (Held(fs.top).Some? ==> !Spawning(fs.below, Held(fs.top).value))
      && (fs.top.Spawn? && fs.top.spawn != Claim ==> !Spawning(fs.below, fs.top.task))
      && WindowsApart(fs.below)
  }

  // ---- cells and poll functions ----

  predicate Exiting(fs: Frames, t: TaskId) {
    fs.Over? && (ExitsNext(fs.top, t) || Exiting(fs.below, t))
  }

  predicate ExitsNext(f: Frame, t: TaskId) {
    f.Soft? && f.soft.Running? && f.soft.run == Hold(t, SetExited)
  }

  /** What a polling activation may rely on. */
  predicate PollOk(s: Slot, pc: HoldPc) {
    match pc
    case Dispatch => true
    case SetExited => s.spawned && s.cell == Dropped && s.pollFn == PollFuture
    case Despawn => s.spawned && s.cell == Dropped && s.pollFn == PollExited
    case _ => s.spawned && s.cell == Live && s.pollFn == PollFuture
  }

  predicate FrameLive(slots: seq<Slot>, f: Frame) {
    match f
    case Soft(Running(_, Hold(t, pc))) => t < |slots| && PollOk(slots[t], pc)
    case _ => true
  }

  predicate FramesLive(slots: seq<Slot>, fs: Frames) {
    fs.Over? ==> FrameLive(slots, fs.top) && FramesLive(slots, fs.below)
  }

  ghost predicate CellsOk(m: Machine) {
    forall t | 0 <= t < |m.k.slots| ::
      && (m.k.slots[t].cell == Live ==> m.k.slots[t].spawned)
      && (m.k.slots[t].pollFn == PollFuture ==>
            m.k.slots[t].cell == Live || Exiting(m.fs, t) || Spawning(m.fs, t))
  }

  ghost predicate Life(m: Machine) {
    WindowsSafe(m) && WindowsApart(m.fs) && FramesLive(m.k.slots, m.fs) && CellsOk(m)
  }

  // ---- a shield keeps its executor out ----

  /** Code that stands on a shielded window is masked, or `h` does not outrank it. */
  lemma {:induction false} ShieldReachesUp(fs: Frames, h: Prio, t: TaskId, n: nat)
    requires Shaped(fs) && Nested(Tokens(fs), n) && Shielded(fs, Some(h), t)
    ensures !MieOf(fs) || !Outranks(h, Tokens(fs))
  {
    if !OpensWindow(fs.top, t) {
      InnermostTokenIsNew(fs, n);
      ShieldReachesUp(fs.below, h, t, n);
      LastIsIn(Tokens(fs.below));
    }
  }

  lemma LastIsIn(s: seq<nat>)
    ensures s != [] ==> s[|s| - 1] in s
  {}

  /** An activation of `run` at priority `p` never stands above a window shielded against `p`. */
  lemma RunIsNotShielded(fs: Frames, t: TaskId, n: nat)
    requires Shaped(fs) && Nested(Tokens(fs), n) && fs.top.Soft? && fs.top.soft.Running?
    ensures !Shielded(fs.below, Some(fs.top.soft.p), t)
  {
    var p := fs.top.soft.p;
    InnermostTokenIsNew(fs, n);
    LastIsIn(Tokens(fs.below));
    if Shielded(fs.below, Some(p), t) { ShieldReachesUp(fs.below, p, t, n); }
  }

  /** A task found in a run queue is not in a spawn window. */
  lemma QueuedIsNotSpawning(m: Machine, p: Prio)
    requires BoundInv(m) && WindowsSafe(m) && m.fs.top == Soft(Running(p, Dequeue)) && m.k.queues[p] != []
    ensures !Spawning(m.fs, m.k.queues[p][0])
  {
    var t := m.k.queues[p][0];
    LinkedIsFlagged(m, p, 0);
    assert m.k.slots[t].home == Some(p);
    RunIsNotShielded(m.fs, t, |m.k.queues|);
  }

  // ---- steps that leave every future alone ----

  predicate SameLife(s: Slot, s': Slot) {
    s'.spawned == s.spawned && s'.cell == s.cell && s'.pollFn == s.pollFn
  }

  lemma {:induction false} LifeKeepsFrames(slots: seq<Slot>, slots': seq<Slot>, fs: Frames)
    requires |slots'| == |slots| && FramesLive(slots, fs)
    requires forall t | 0 <= t < |slots| :: SameLife(slots[t], slots'[t]) || !Gripped(fs, t)
    ensures FramesLive(slots', fs)
  {
    if fs.Over? {
      LifeKeepsFrames(slots, slots', fs.below);
      if Held(fs.top).Some? { assert Grips(fs.top, Held(fs.top).value); }
    }
  }

  /** What the frame contributes to the invariants about `t`: nothing. */
  predicate Neutral(f: Frame) {
    !(f.Spawn? && f.spawn != Claim) && !(f.Soft? && f.soft.Running? && f.soft.run.Hold?)
  }

  lemma NeutralTop(f: Frame, below: Frames, t: TaskId)
    requires Neutral(f)
    ensures Spawning(Over(f, below), t) == Spawning(below, t)
    ensures Exiting(Over(f, below), t) == Exiting(below, t)
    ensures forall h :: Shielded(Over(f, below), h, t) == Shielded(below, h, t)
    ensures WindowsApart(Over(f, below)) == WindowsApart(below)
  {}

  /** The step cools nothing down and warms no window up. */
  ghost predicate KeepsCold(m: Machine, m': Machine) {
    && m'.k.SameSize(m.k)
    && forall t | 0 <= t < |m.k.slots| && Spawning(m.fs, t) && Cold(m, t) :: Cold(m', t)
  }

  /** The two machines agree on everything that `Life` says about futures and windows. */
  ghost predicate Alike(m: Machine, m': Machine) {
    && m'.k.SameSize(m.k)
    && (forall t | 0 <= t < |m.k.slots| :: SameLife(m.k.slots[t], m'.k.slots[t]))
    && (forall t | 0 <= t < |m.k.slots| && Spawning(m.fs, t) :: m'.k.slots[t].home == m.k.slots[t].home)
    && (forall t :: Spawning(m'.fs, t) == Spawning(m.fs, t))
    && (forall t :: Exiting(m'.fs, t) == Exiting(m.fs, t))
    && (forall h, t :: Shielded(m.fs, h, t) == Shielded(m'.fs, h, t))
  }

  lemma AlikeKeepsLife(m: Machine, m': Machine)
    requires Life(m) && Alike(m, m') && KeepsCold(m, m')
    requires WindowsApart(m'.fs) && FramesLive(m'.k.slots, m'.fs)
    ensures Life(m')
  {}

  /** A step of a neutral frame that turns it into a neutral frame or returns, on equal lives. */
  lemma NeutralKeepsLife(m: Machine, m': Machine)
    requires Life(m) && m.fs.Over? && Neutral(m.fs.top) && m'.k.SameSize(m.k)
    requires m'.fs == m.fs.below || (m'.fs.Over? && m'.fs.below == m.fs.below && Neutral(m'.fs.top))
    requires forall t | 0 <= t < |m.k.slots| :: SameLife(m.k.slots[t], m'.k.slots[t])
    requires forall t | 0 <= t < |m.k.slots| :: m'.k.slots[t].home == m.k.slots[t].home
    requires KeepsCold(m, m')
    ensures Life(m')
  {
    forall t { NeutralTop(m.fs.top, m.fs.below, t); }
    if m'.fs != m.fs.below {
      forall t { NeutralTop(m'.fs.top, m'.fs.below, t); }
    }
    LifeKeepsFrames(m.k.slots, m'.k.slots, m.fs.below);
    AlikeKeepsLife(m, m');
  }

  lemma PushKeepsLife(m: Machine, m': Machine)
    requires Life(m) && m'.k == m.k && m'.fs.Over? && m'.fs.below == m.fs
    requires Neutral(m'.fs.top) && forall t :: !Grips(m'.fs.top, t)
    ensures Life(m')
  {
    forall t { NeutralTop(m'.fs.top, m.fs, t); }
    AlikeKeepsLife(m, m');
  }

  lemma WakeKeepsLife(m: Machine, m': Machine, t: TaskId, pc: WakePc)
    requires Control(m) && Bound(m) && Life(m) && m.fs.top == Wake(t, pc) && Step(m, Tick) == Some(m')
    ensures Life(m')
  {
    assert pc.Enqueue? ==> Grips(m.fs.top, t);
    NeutralKeepsLife(m, m');
  }

  lemma JoinKeepsLife(m: Machine, m': Machine, w: TaskId, u: TaskId, pc: JoinPc)
    requires Control(m) && Life(m) && m.fs.top == Join(w, u, pc) && Step(m, Tick) == Some(m')
    ensures Life(m')
  {
    NeutralKeepsLife(m, m');
  }

  lemma SwitchKeepsLife(m: Machine, m': Machine)
    requires Control(m) && Life(m) && m.fs.top.Soft? && !m.fs.top.soft.Running? && Step(m, Tick) == Some(m')
    ensures Life(m')
  {
    NeutralKeepsLife(m, m');
  }

  lemma WakeSectionKeepsLife(m: Machine, m': Machine, t: TaskId)
    requires m.k.WellFormed() && PointersBound(m.k) && Life(m) && t < |m.k.slots|
    requires m'.fs == m.fs && m'.k == WakeSection(m.k, t)
    ensures Life(m')
  {
    LifeKeepsFrames(m.k.slots, m'.k.slots, m.fs);
    AlikeKeepsLife(m, m');
  }

  // ---- spawning ----

  lemma ClaimKeepsLife(m: Machine, m': Machine, t: TaskId, p: Prio)
    requires BoundInv(m) && Life(m) && m.fs.top == Spawn(t, p, Claim) && Step(m, Tick) == Some(m')
    requires ClaimIsSafe(m, Tick)
    ensures Life(m')
  {
    if m.k.slots[t].spawned {
      NeutralKeepsLife(m, m');
    } else {
      assert Claiming(m, Tick, t);
      forall u { NeutralTop(m.fs.top, m.fs.below, u); }
      LifeKeepsFrames(m.k.slots, m'.k.slots, m.fs.below);
      forall u | 0 <= u < |m.k.slots| && Spawning(m'.fs, u)
        ensures m'.k.slots[u].spawned && m'.k.slots[u].cell != Live
        ensures Cold(m', u) || Shielded(m'.fs, m'.k.slots[u].home, u)
      {
        if u == t {
          assert m.k.slots[t].exec == None ==> Cold(m', t);
        } else {
          assert Spawning(m.fs, u);
          assert Cold(m, u) ==> Cold(m', u);
        }
      }
    }
  }

  /** The steps inside the window, the last of which writes the future and closes it. */
  lemma WindowKeepsLife(m: Machine, m': Machine, t: TaskId, p: Prio, pc: SpawnPc)
    requires BoundInv(m) && Life(m) && m.fs.top == Spawn(t, p, pc) && InWindow(pc) && Step(m, Tick) == Some(m')
    ensures Life(m')
  {
    assert Spawning(m.fs, t) && OpensWindow(m.fs.top, t);
    LifeKeepsFrames(m.k.slots, m'.k.slots, m.fs.below);
    forall u | 0 <= u < |m.k.slots| && Spawning(m'.fs, u)
      ensures m'.k.slots[u].spawned && m'.k.slots[u].cell != Live
      ensures Cold(m', u) || Shielded(m'.fs, m'.k.slots[u].home, u)
    {
      assert Spawning(m.fs, u);
      assert Cold(m, u) ==> Cold(m', u);
    }
  }

  /** What the steps after the window do: nothing to any life, and to the other tasks nothing. */
  ghost predicate HandsOver(k: Kernel, k': Kernel, t: TaskId) {
    && k'.SameSize(k)
    && (forall u | 0 <= u < |k.slots| :: SameLife(k.slots[u], k'.slots[u]))
    && (forall u | 0 <= u < |k.slots| && u != t :: k'.slots[u] == k.slots[u])
  }

  predicate HandingOver(f: Frame, t: TaskId) {
    f.Spawn? && f.task == t && f.spawn != Claim && !InWindow(f.spawn)
  }

  lemma HandOverStep(k: Kernel, t: TaskId, p: Prio, pc: SpawnPc)
    requires k.WellFormed() && FrameOk(Spawn(t, p, pc), |k.queues|, |k.slots|)
    requires pc != Claim && !InWindow(pc)
    ensures var r := SpawnStep(k, t, p, pc);
            HandsOver(k, r.0, t) && (r.1.Leave? || (r.1.Goto? && HandingOver(r.1.f, t)))
  {}

  lemma HandOverKeepsLife(m: Machine, m': Machine, t: TaskId)
    requires Life(m) && m.fs.Over? && HandingOver(m.fs.top, t) && HandsOver(m.k, m'.k, t)
    requires m'.fs == m.fs.below || (m'.fs.Over? && HandingOver(m'.fs.top, t) && m'.fs.below == m.fs.below)
    ensures Life(m')
  {
    assert !Spawning(m.fs.below, t);
    LifeKeepsFrames(m.k.slots, m'.k.slots, m.fs.below);
    AlikeKeepsLife(m, m');
  }

  lemma SpawnKeepsLife(m: Machine, m': Machine, t: TaskId, p: Prio, pc: SpawnPc)
    requires BoundInv(m) && Life(m) && m.fs.top == Spawn(t, p, pc) && Step(m, Tick) == Some(m')
    requires ClaimIsSafe(m, Tick)
    ensures Life(m')
  {
    if pc == Claim {
      ClaimKeepsLife(m, m', t, p);
    } else if InWindow(pc) {
      WindowKeepsLife(m, m', t, p, pc);
    } else {
      HandOverStep(m.k, t, p, pc);
      HandOverKeepsLife(m, m', t);
    }
  }

  // ---- running and finishing ----

  lemma DequeueKeepsLife(m: Machine, m': Machine, p: Prio)
    requires BoundInv(m) && Life(m) && m.fs.top == Soft(Running(p, Dequeue)) && Step(m, Tick) == Some(m')
    ensures Life(m')
  {
    if m.k.queues[p] == [] {
      NeutralKeepsLife(m, m');
    } else {
      var t := m.k.queues[p][0];
      QueuedIsNotSpawning(m, p);
      LinkedIsFlagged(m, p, 0);
      LifeKeepsFrames(m.k.slots, m'.k.slots, m.fs.below);
      AlikeKeepsLife(m, m');
    }
  }

  lemma {:induction false} ExitingIsHolding(fs: Frames, t: TaskId)
    ensures Exiting(fs, t) ==> 0 < Holders(fs, t)
  {
    if fs.Over? { ExitingIsHolding(fs.below, t); }
  }

  /** A store to a slot that no activation holds disturbs no frame. */
  lemma {:induction false} UnheldKeepsFrames(slots: seq<Slot>, slots': seq<Slot>, fs: Frames, t: TaskId)
    requires FramesLive(slots, fs) && Holders(fs, t) == 0 && |slots'| == |slots|
    requires forall u | 0 <= u < |slots| && u != t :: SameLife(slots[u], slots'[u])
    ensures FramesLive(slots', fs)
  {
    if fs.Over? { UnheldKeepsFrames(slots, slots', fs.below, t); }
  }

  /** A dispatched task that still has its poll function has a live future. */
  lemma DispatchFindsFuture(m: Machine, p: Prio, t: TaskId)
    requires BoundInv(m) && Life(m) && m.fs.top == Soft(Running(p, Hold(t, Dispatch)))
    ensures m.k.slots[t].pollFn == PollFuture ==> m.k.slots[t].cell == Live && m.k.slots[t].spawned
  {
    HolderIsUnique(m.k.slots, m.fs, t, |m.k.queues|);
    ExitingIsHolding(m.fs.below, t);
    assert Held(m.fs.top) == Some(t);
  }

  /** A step of an activation that holds `t` and goes on polling it or goes back to its queue. */
  ghost predicate Advances(k: Kernel, k': Kernel, t: TaskId, f': Frame)
    requires t < |k.slots|
  {
    && k'.SameSize(k)
    && (forall u | 0 <= u < |k.slots| && u != t :: k'.slots[u] == k.slots[u])
    && f'.Soft? && f'.soft.Running? && (f'.soft.run.Dequeue? || f'.soft.run.t == t)
    && FrameLive(k'.slots, f')
    && (k'.slots[t].cell == Live ==> k'.slots[t].spawned)
    && (k'.slots[t].pollFn == PollFuture ==> k'.slots[t].cell == Live || ExitsNext(f', t))
  }

  lemma HoldStepAdvances(k: Kernel, p: Prio, t: TaskId, pc: HoldPc)
    requires k.WellFormed() && FrameOk(Soft(Running(p, Hold(t, pc))), |k.queues|, |k.slots|) && pc != Despawn
    requires PollOk(k.slots[t], pc) && (k.slots[t].cell == Live ==> k.slots[t].spawned)
    requires pc == Dispatch && k.slots[t].pollFn == PollFuture ==> k.slots[t].cell == Live
    ensures var r := HoldStep(k, p, t, pc); r.1.Goto? ==> Advances(k, r.0, t, r.1.f)
  {}

  lemma AdvanceKeepsLife(m: Machine, m': Machine, t: TaskId)
    requires Life(m) && m.fs.Over? && m'.fs.Over? && m'.fs.below == m.fs.below && t < |m.k.slots|
    requires Held(m.fs.top) == Some(t) && Holders(m.fs.below, t) == 0
    requires Advances(m.k, m'.k, t, m'.fs.top)
    ensures Life(m')
  {
    UnheldKeepsFrames(m.k.slots, m'.k.slots, m.fs.below, t);
    ExitingIsHolding(m.fs.below, t);
    forall u | 0 <= u < |m.k.slots| && Spawning(m'.fs, u)
      ensures m'.k.slots[u].spawned && m'.k.slots[u].cell != Live
      ensures Cold(m', u) || Shielded(m'.fs, m'.k.slots[u].home, u)
    {
      assert u != t && Spawning(m.fs, u);
      assert Cold(m, u) ==> Cold(m', u);
    }
  }

  lemma HoldKeepsLife(m: Machine, m': Machine, p: Prio, t: TaskId, pc: HoldPc)
    requires BoundInv(m) && Life(m) && m.fs.top == Soft(Running(p, Hold(t, pc))) && Step(m, Tick) == Some(m')
    requires pc != Despawn
    ensures Life(m')
  {
    HolderIsUnique(m.k.slots, m.fs, t, |m.k.queues|);
    if pc == Dispatch { DispatchFindsFuture(m, p, t); }
    HoldStepAdvances(m.k, p, t, pc);
    AdvanceKeepsLife(m, m', t);
  }

  lemma DespawnKeepsLife(m: Machine, m': Machine, p: Prio, t: TaskId)
    requires BoundInv(m) && Life(m) && m.fs.top == Soft(Running(p, Hold(t, Despawn))) && Step(m, Tick) == Some(m')
    ensures Life(m')
  {
    HolderIsUnique(m.k.slots, m.fs, t, |m.k.queues|);
    assert Held(m.fs.top) == Some(t);
    var s := m.k.slots[t];
    var k1 := m.k.Put(t, s.(spawned := false, joinWaker := None));
    UnheldKeepsFrames(m.k.slots, k1.slots, m.fs.below, t);
    var m1 := Machine(k1, m.mie, m'.fs);
    forall u | 0 <= u < |m.k.slots| && Spawning(m1.fs, u)
      ensures m1.k.slots[u].spawned && m1.k.slots[u].cell != Live
      ensures Cold(m1, u) || Shielded(m1.fs, m1.k.slots[u].home, u)
    {
      assert u != t && Spawning(m.fs, u);
      assert Cold(m, u) ==> Cold(m1, u);
    }
    assert Life(m1);
    if s.joinWaker.Some? {
      assert PointersBound(k1);
      WakeSectionKeepsLife(m1, m', s.joinWaker.value);
    }
  }

  // ---- every step and all runs ----

  lemma StepKeepsLife(m: Machine, a: Action, m': Machine)
    requires BoundInv(m) && Life(m) && Step(m, a) == Some(m') && ClaimIsSafe(m, a)
    ensures Life(m')
  {
    match a
    case Tick => TickKeepsLife(m, m');
    case Ready(v) =>
      var t := m.fs.top.soft.run.t;
      HolderIsUnique(m.k.slots, m.fs, t, |m.k.queues|);
      AdvanceKeepsLife(m, m', t);
    case MaskedWake(t) => WakeSectionKeepsLife(m, m', t);
    case _ => PushKeepsLife(m, m');
  }

  lemma TickKeepsLife(m: Machine, m': Machine)
    requires BoundInv(m) && Life(m) && Step(m, Tick) == Some(m') && ClaimIsSafe(m, Tick)
    ensures Life(m')
  {
    match m.fs.top
    case Wake(t, pc) => WakeKeepsLife(m, m', t, pc);
    case Spawn(t, p, pc) => SpawnKeepsLife(m, m', t, p, pc);
    case Join(w, u, pc) => JoinKeepsLife(m, m', w, u, pc);
    case Soft(Running(p, Dequeue)) => DequeueKeepsLife(m, m', p);
    case Soft(Running(p, Hold(t, Despawn))) => DespawnKeepsLife(m, m', p, t);
    case Soft(Running(p, Hold(t, pc))) => HoldKeepsLife(m, m', p, t, pc);
    case Soft(_) => SwitchKeepsLife(m, m');
    case Idle =>
    case _ => NeutralKeepsLife(m, m');
  }

  ghost predicate LifeInv(m: Machine) {
    BoundInv(m) && Life(m)
  }

  lemma InitLife(n: nat, tasks: nat)
    requires 0 < n
    ensures LifeInv(Init(n, tasks))
  {
    InitBound(n, tasks);
  }

  lemma {:induction false} RunKeepsLifeInv(m: Machine, acts: seq<Action>, m': Machine)
    requires LifeInv(m) && Run(m, acts) == Some(m') && RespawnsSafe(m, acts)
    ensures LifeInv(m')
    decreases |acts|
  {
    if acts != [] {
      var next := Step(m, acts[0]).value;
      StepKeepsBoundInv(m, acts[0], next);
      StepKeepsLife(m, acts[0], next);
      RunKeepsLifeInv(next, acts[1..], m');
    }
  }

  // ---- what may never happen to a future ----

  /** A poll of a cell that holds no future, a second drop, or a write over a live future. */
  predicate Misuse(m: Machine) {
    match m.fs
    case Over(Soft(Running(_, Hold(t, Dispatch))), _) =>
      t < |m.k.slots| && m.k.slots[t].pollFn == PollFuture && m.k.slots[t].cell != Live
    case Over(Soft(Running(_, Hold(t, Polling))), _) => t < |m.k.slots| && m.k.slots[t].cell != Live
    case Over(Soft(Running(_, Hold(t, DropFuture))), _) => t < |m.k.slots| && m.k.slots[t].cell != Live
    case Over(Spawn(t, _, WriteFuture), _) => t < |m.k.slots| && m.k.slots[t].cell == Live
    case _ => false
  }

  lemma LifeForbidsMisuse(m: Machine)
    requires LifeInv(m)
    ensures !Misuse(m)
  {
    match m.fs
    case Over(Soft(Running(p, Hold(t, Dispatch))), _) => DispatchFindsFuture(m, p, t);
    case Over(Spawn(t, _, WriteFuture), _) => assert Spawning(m.fs, t);
    case _ =>
  }

  /** Under safe respawns no future is polled, dropped or overwritten at the wrong time, and a slot
      that is not spawned holds no future and only a spent poll function: what is left of a
      finished incarnation, a stale queue entry or a late wake, reaches only `poll_exited` or a
      null executor pointer. */
  lemma FutureIsUsedOnce(n: nat, tasks: nat, acts: seq<Action>, m: Machine, t: TaskId)
    requires 0 < n && Run(Init(n, tasks), acts) == Some(m) && t < |m.k.slots|
    requires RespawnsSafe(Init(n, tasks), acts)
    ensures !Misuse(m)
    ensures m.k.slots[t].cell == Live ==> m.k.slots[t].spawned
    ensures !m.k.slots[t].spawned ==> m.k.slots[t].pollFn != PollFuture
  {
    InitLife(n, tasks);
    RunKeepsLifeInv(Init(n, tasks), acts, m);
    LifeForbidsMisuse(m);
    if !m.k.slots[t].spawned { UnspawnedIsSpent(m, t); }
  }

  /** A slot that is not spawned has no live poll function. */
  lemma UnspawnedIsSpent(m: Machine, t: TaskId)
    requires LifeInv(m) && t < |m.k.slots| && !m.k.slots[t].spawned
    ensures m.k.slots[t].pollFn != PollFuture
  {
    if m.k.slots[t].pollFn == PollFuture && Exiting(m.fs, t) { ExitingIsSpawned(m.k.slots, m.fs, t); }
  }

  lemma {:induction false} ExitingIsSpawned(slots: seq<Slot>, fs: Frames, t: TaskId)
    requires FramesLive(slots, fs) && Exiting(fs, t) && t < |slots|
    ensures slots[t].spawned
  {
    if !ExitsNext(fs.top, t) { ExitingIsSpawned(slots, fs.below, t); }
  }

  /** A future leaves its cell only through the drop that follows its own Ready, and enters it only
      through the write of a spawn. */
  lemma CellMovesOnlyAtWriteAndDrop(m: Machine, a: Action, m': Machine, t: TaskId)
    requires LifeInv(m) && Step(m, a) == Some(m') && t < |m.k.slots|
    ensures t < |m'.k.slots|
    ensures m'.k.slots[t].cell == m.k.slots[t].cell
            || (a == Tick && m.fs.top.Spawn? && m.fs.top.task == t && m.fs.top.spawn == WriteFuture
                && m.k.slots[t].cell != Live && m'.k.slots[t].cell == Live)
            || (a == Tick && Held(m.fs.top) == Some(t) && m.fs.top.soft.run.hold == DropFuture
                && m.k.slots[t].cell == Live && m'.k.slots[t].cell == Dropped)
  {
    LifeForbidsMisuse(m);
    StepKeepsControl(m, a, m');
    match a
    case Tick => TickKeepsCell(m.k, m.fs.top, t);
    case MaskedWake(u) => assert m'.k.slots[t].cell == m.k.slots[t].cell;
    case _ => assert m'.k == m.k;
  }

  lemma TickKeepsCell(k: Kernel, f: Frame, t: TaskId)
    requires k.WellFormed() && FrameOk(f, |k.queues|, |k.slots|) && t < |k.slots|
    ensures TopStep(k, f).0.slots[t].cell ==
            if f.Spawn? && f.task == t && f.spawn == WriteFuture then Live
            else if Held(f) == Some(t) && f.soft.run.hold == DropFuture then Dropped
            else k.slots[t].cell
  {
    hide WakeStep, SpawnStep, HoldStep;
    match f
    case Wake(u, pc) => WakeKeepsCell(k, u, pc, t);
    case Spawn(u, p, pc) => SpawnKeepsCell(k, u, p, pc, t);
    case Soft(Running(p, Hold(u, pc))) => HoldKeepsCell(k, p, u, pc, t);
    case Soft(_) => OthersKeepSlots(k, f);
    case _ =>
  }

  lemma WakeKeepsCell(k: Kernel, u: TaskId, pc: WakePc, t: TaskId)
    requires k.WellFormed() && FrameOk(Wake(u, pc), |k.queues|, |k.slots|) && t < |k.slots|
    ensures WakeStep(k, u, pc).0.slots[t].cell == k.slots[t].cell
  {}

  lemma SpawnKeepsCell(k: Kernel, u: TaskId, p: Prio, pc: SpawnPc, t: TaskId)
    requires k.WellFormed() && FrameOk(Spawn(u, p, pc), |k.queues|, |k.slots|) && t < |k.slots|
    ensures SpawnStep(k, u, p, pc).0.slots[t].cell == if pc == WriteFuture && u == t then Live else k.slots[t].cell
  {}

  lemma HoldKeepsCell(k: Kernel, p: Prio, u: TaskId, pc: HoldPc, t: TaskId)
    requires k.WellFormed() && FrameOk(Soft(Running(p, Hold(u, pc))), |k.queues|, |k.slots|) && t < |k.slots|
    ensures HoldStep(k, p, u, pc).0.slots[t].cell == if pc == DropFuture && u == t then Dropped else k.slots[t].cell
  {
    hide DespawnSection;
    if pc == Despawn {
      DespawnKeepsCell(k, u, t);
    } else {
      var k' := HoldStep(k, p, u, pc).0;
      assert k' == k || k' == k.Put(u, k'.slots[u]);
    }
  }

  lemma DespawnKeepsCell(k: Kernel, u: TaskId, t: TaskId)
    requires k.WellFormed() && u < |k.slots| && t < |k.slots|
    ensures DespawnSection(k, u).slots[t].cell == k.slots[t].cell
  {}
}
