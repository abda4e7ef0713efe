/** `Executor::run` unwraps the poll function of whatever it dequeues: under quiescent respawns there
    is always one, because a task acquires a home queue only after its poll function. */
module Arming {
  import opened Wrappers
  import opened Kernel
  import opened Machine
  import opened Nesting
  import opened Binding

  predicate HasPollFn(pc: SpawnPc) {
    pc == WriteFuture || pc == HoldToken || pc == Mark || pc == Push
  }

  predicate SpawnsArmed(slots: seq<Slot>, fs: Frames) {
    fs.Over? ==>
      && (fs.top.Spawn? && HasPollFn(fs.top.spawn) ==> fs.top.task < |slots| && slots[fs.top.task].pollFn != Unset)
      && SpawnsArmed(slots, fs.below)
  }

  ghost predicate Armed(m: Machine) {
    && (forall t | 0 <= t < |m.k.slots| && m.k.slots[t].home.Some? :: m.k.slots[t].pollFn != Unset)
    && SpawnsArmed(m.k.slots, m.fs)
  }

  /** No poll function is ever uninstalled. */
  ghost predicate StaysArmed(k: Kernel, k': Kernel) {
    && k'.SameSize(k)
    && forall t | 0 <= t < |k.slots| && k.slots[t].pollFn != Unset :: k'.slots[t].pollFn != Unset
  }

  lemma {:induction false} ArmedFrames(k: Kernel, k': Kernel, fs: Frames)
    requires StaysArmed(k, k') && SpawnsArmed(k.slots, fs)
    ensures SpawnsArmed(k'.slots, fs)
  {
    if fs.Over? { ArmedFrames(k, k', fs.below); }
  }

  lemma SpawnArms(k: Kernel, t: TaskId, p: Prio, pc: SpawnPc)
    requires k.WellFormed() && FrameOk(Spawn(t, p, pc), |k.queues|, |k.slots|)
    requires HasPollFn(pc) ==> k.slots[t].pollFn != Unset
    ensures var r := SpawnStep(k, t, p, pc);
            StaysArmed(k, r.0) && (r.1.Goto? ==> SpawnsArmed(r.0.slots, Over(r.1.f, Empty)))
  {}

  lemma StepKeepsArmed(m: Machine, a: Action, m': Machine)
    requires BoundInv(m) && Armed(m) && Step(m, a) == Some(m')
    ensures Armed(m')
  {
    StepKeepsControl(m, a, m');
    assert StaysArmed(m.k, m'.k) by { StepStaysArmed(m, a, m'); }
    forall t | 0 <= t < |m'.k.slots| && m'.k.slots[t].home.Some? ensures m'.k.slots[t].pollFn != Unset {
      HomeMovesOnlyAtSpawn(m, a, m', t);
    }
    ArmedFrames(m.k, m'.k, m.fs);
    if a == Tick && m.fs.top.Spawn? { SpawnArms(m.k, m.fs.top.task, m.fs.top.prio, m.fs.top.spawn); }
  }

  lemma StepStaysArmed(m: Machine, a: Action, m': Machine)
    requires BoundInv(m) && Armed(m) && Step(m, a) == Some(m')
    ensures StaysArmed(m.k, m'.k)
  {
    match a
    case Tick => TickStaysArmed(m);
    case MaskedWake(u) => WakeSectionStaysArmed(m.k, u);
    case _ => assert m'.k == m.k;
  }

  lemma WakeSectionStaysArmed(k: Kernel, u: TaskId)
    requires k.WellFormed() && u < |k.slots|
    ensures StaysArmed(k, WakeSection(k, u))
  {}

  lemma WakeStaysArmed(k: Kernel, u: TaskId, pc: WakePc)
    requires k.WellFormed() && FrameOk(Wake(u, pc), |k.queues|, |k.slots|)
    ensures StaysArmed(k, WakeStep(k, u, pc).0)
  {}

  lemma HoldStaysArmed(k: Kernel, p: Prio, u: TaskId, pc: HoldPc)
    requires k.WellFormed() && FrameOk(Soft(Running(p, Hold(u, pc))), |k.queues|, |k.slots|)
    ensures StaysArmed(k, HoldStep(k, p, u, pc).0)
  {
    if pc == Despawn && k.slots[u].joinWaker.Some? {
      var s := k.slots[u];
      WakeSectionStaysArmed(k.Put(u, s.(spawned := false, joinWaker := None)), s.joinWaker.value);
    }
  }

  lemma TickStaysArmed(m: Machine)
    requires Control(m) && Armed(m)
    ensures StaysArmed(m.k, TopStep(m.k, m.fs.top).0)
  {
    hide WakeStep, SpawnStep, HoldStep;
    match m.fs.top
    case Wake(u, pc) => WakeStaysArmed(m.k, u, pc);
    case Spawn(u, p, pc) => SpawnArms(m.k, u, p, pc);
    case Soft(Running(p, Hold(u, pc))) => HoldStaysArmed(m.k, p, u, pc);
    case Join(w, u, pc) => JoinStaysArmed(m.k, w, u, pc);
    case _ => OthersKeepSlots(m.k, m.fs.top);
  }

  lemma JoinStaysArmed(k: Kernel, w: TaskId, u: TaskId, pc: JoinPc)
    requires k.WellFormed() && FrameOk(Join(w, u, pc), |k.queues|, |k.slots|)
    ensures StaysArmed(k, JoinStep(k, w, u, pc).0)
  {}

  lemma {:induction false} RunKeepsArmed(m: Machine, acts: seq<Action>, m': Machine)
    requires BoundInv(m) && Armed(m) && Run(m, acts) == Some(m') && RespawnsQuiescent(m, acts)
    ensures BoundInv(m') && Armed(m')
    decreases |acts|
  {
    if acts != [] {
      var next := Step(m, acts[0]).value;
      StepKeepsBoundInv(m, acts[0], next);
      StepKeepsArmed(m, acts[0], next);
      RunKeepsArmed(next, acts[1..], m');
    }
  }

  /** `poll_fn.unwrap()` in `Executor::run` never meets None. */
  lemma DispatchNeverPanics(n: nat, tasks: nat, acts: seq<Action>, m: Machine, p: Prio, t: TaskId)
    requires 0 < n && Run(Init(n, tasks), acts) == Some(m) && RespawnsQuiescent(Init(n, tasks), acts)
    requires m.fs.Over? && m.fs.top == Soft(Running(p, Hold(t, Dispatch)))
    ensures t < |m.k.slots| && m.k.slots[t].pollFn != Unset && Step(m, Tick).Some?
  {
    InitBound(n, tasks);
    RunKeepsArmed(Init(n, tasks), acts, m);
    assert Grips(m.fs.top, t);
  }
}
