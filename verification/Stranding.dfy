/** When a poll of a join handle can strand its joiner: exactly when the worker is unfinished, nobody
    below on the stack is still queueing it, and its executor outranks the code that polls. */
module Stranding {
  import opened Wrappers
  import opened Kernel
  import opened Machine
  import opened Nesting
  import opened Ownership
  import opened Binding
  import opened Pointers
  import opened Wakes
  import opened Lifecycle
  import opened Arming
  import opened Delivery
  import opened Joining
  import opened Reach
  import S = Scheduler
  import DrainOrder
  import PassRefinement

  // ---- a spawned task holds its future until its completion section ----

  predicate Starting(fs: Frames, t: TaskId) {
    fs.Over? && (StartingFrame(fs.top, t) || Starting(fs.below, t))
  }

  predicate StartingFrame(f: Frame, t: TaskId) {
    f.Spawn? && f.task == t && (f.spawn == ClearResult || f.spawn == ClearWaker || f.spawn == SetPollFn)
  }

  predicate Ending(fs: Frames, t: TaskId) {
    fs.Over? && (EndingFrame(fs.top, t) || Ending(fs.below, t))
  }

  predicate EndingFrame(f: Frame, t: TaskId) {
    f.Soft? && f.soft.Running? && f.soft.run == Hold(t, Despawn)
  }

  ghost predicate Vital(m: Machine) {
    forall t | 0 <= t < |m.k.slots| && m.k.slots[t].spawned && m.k.slots[t].pollFn != PollFuture ::
      Starting(m.fs, t) || Ending(m.fs, t)
  }

  /** What a section does to the flags on which `Vital` rests. */
  ghost predicate SameVital(k: Kernel, k': Kernel) {
    k'.SameSize(k) && forall t | 0 <= t < |k.slots| ::
      k'.slots[t].spawned == k.slots[t].spawned && k'.slots[t].pollFn == k.slots[t].pollFn
  }

  lemma WakeSectionIsVital(k: Kernel, t: TaskId)
    requires k.WellFormed() && t < |k.slots|
    ensures SameVital(k, WakeSection(k, t))
  {}

  lemma WakeKeepsVital(m: Machine, m': Machine, t: TaskId, pc: WakePc)
    requires Control(m) && Vital(m) && m.fs.top == Wake(t, pc) && Step(m, Tick) == Some(m')
    ensures Vital(m')
  {
    assert SameVital(m.k, m'.k);
  }

  lemma SpawnKeepsVital(m: Machine, m': Machine, t: TaskId, p: Prio, pc: SpawnPc)
    requires Control(m) && Vital(m) && m.fs.top == Spawn(t, p, pc) && Step(m, Tick) == Some(m')
    ensures Vital(m')
  {
    hide PendSection;
    forall u | 0 <= u < |m'.k.slots| && m'.k.slots[u].spawned && m'.k.slots[u].pollFn != PollFuture
      ensures Starting(m'.fs, u) || Ending(m'.fs, u)
    {}
  }

  lemma HoldKeepsVital(m: Machine, m': Machine, p: Prio, t: TaskId, pc: HoldPc)
    requires Control(m) && Vital(m) && m.fs.top == Soft(Running(p, Hold(t, pc))) && Step(m, Tick) == Some(m')
    ensures Vital(m')
  {
    hide WakeSection;
    if pc == Despawn && m.k.slots[t].joinWaker.Some? {
      WakeSectionIsVital(m.k.Put(t, m.k.slots[t].(spawned := false, joinWaker := None)), m.k.slots[t].joinWaker.value);
    }
    forall u | 0 <= u < |m'.k.slots| && m'.k.slots[u].spawned && m'.k.slots[u].pollFn != PollFuture
      ensures Starting(m'.fs, u) || Ending(m'.fs, u)
    {}
  }

  lemma OtherKeepsVital(m: Machine, m': Machine)
    requires Control(m) && Vital(m) && Step(m, Tick) == Some(m') && !m.fs.top.Wake? && !m.fs.top.Spawn?
    requires !(m.fs.top.Soft? && m.fs.top.soft.Running? && m.fs.top.soft.run.Hold?)
    ensures Vital(m')
  {
    hide WakeStep, SpawnStep, JoinStep, SoftStep, Vital;
    var f := m.fs.top;
    if f.Join? {
      JoinIsVital(m.k, f.worker, f.joiner, f.join);
    } else {
      OthersKeepSlots(m.k, f);
    }
    SameKeepsVital(m, m');
  }

  lemma JoinIsVital(k: Kernel, w: TaskId, u: TaskId, pc: JoinPc)
    requires k.WellFormed() && FrameOk(Join(w, u, pc), |k.queues|, |k.slots|)
    ensures SameVital(k, JoinStep(k, w, u, pc).0)
  {}

  lemma SameKeepsVital(m: Machine, m': Machine)
    requires Vital(m) && SameVital(m.k, m'.k) && m.fs.Over? && Held(m.fs.top) == None && !m.fs.top.Spawn?
    requires m'.fs == m.fs.below || (m'.fs.Over? && m'.fs.below == m.fs.below)
    ensures Vital(m')
  {
    forall t | 0 <= t < |m'.k.slots| && m'.k.slots[t].spawned && m'.k.slots[t].pollFn != PollFuture
      ensures Starting(m'.fs, t) || Ending(m'.fs, t)
    {
      assert Starting(m.fs, t) || Ending(m.fs, t);
    }
  }

  lemma StepKeepsVital(m: Machine, a: Action, m': Machine)
    requires Control(m) && Vital(m) && Step(m, a) == Some(m')
    ensures Vital(m')
  {
    hide WakeStep, SpawnStep, HoldStep, SoftStep, JoinStep;
    match a
    case Tick =>
      match m.fs.top {
        case Wake(t, pc) => WakeKeepsVital(m, m', t, pc);
        case Spawn(t, p, pc) => SpawnKeepsVital(m, m', t, p, pc);
        case Soft(Running(p, Hold(t, pc))) => HoldKeepsVital(m, m', p, t, pc);
        case _ => OtherKeepsVital(m, m');
      }
    case MaskedWake(t) => WakeSectionIsVital(m.k, t);
    case _ =>
  }

  lemma {:induction false} RunKeepsVital(m: Machine, acts: seq<Action>, m': Machine)
    requires Control(m) && Vital(m) && Run(m, acts) == Some(m')
    ensures Vital(m')
    decreases |acts|
  {
    hide Step, Vital, Control;
    if acts != [] {
      var next := Step(m, acts[0]).value;
      StepKeepsControl(m, acts[0], next);
      StepKeepsVital(m, acts[0], next);
      RunKeepsVital(next, acts[1..], m');
    }
  }

  /** What holds of every state that safe respawns can reach. */
  ghost predicate Sound(m: Machine) {
    LifeInv(m) && Armed(m) && Delivered(m) && Pointed(m) && Vital(m)
  }

  lemma ReachableIsSound(n: nat, tasks: nat, acts: seq<Action>, m: Machine)
    requires 0 < n && Run(Init(n, tasks), acts) == Some(m) && RespawnsSafe(Init(n, tasks), acts)
    ensures Sound(m)
  {
    InitIsSound(n, tasks);
    RunIsSound(Init(n, tasks), acts, m);
  }

  lemma InitIsSound(n: nat, tasks: nat)
    requires 0 < n
    ensures Sound(Init(n, tasks))
  {
    InitLife(n, tasks);
    var m := Init(n, tasks);
    assert forall t | 0 <= t < tasks :: m.k.slots[t] == FRESH_SLOT;
    assert Armed(m);
    assert Delivered(m);
    assert Pointed(m);
    assert Vital(m);
  }

  lemma RunIsSound(m: Machine, acts: seq<Action>, m': Machine)
    requires Sound(m) && Run(m, acts) == Some(m') && RespawnsSafe(m, acts)
    ensures Sound(m')
  {
    hide Run, Delivered, Armed, Pointed, Vital;
    SafeIsQuiescent(m, acts);
    RunKeepsDelivered(m, acts, m');
    RunKeepsArmed(m, acts, m');
    RunKeepsPointed(m, acts, m');
    RunKeepsVital(m, acts, m');
  }

  lemma ReachIsSound(m: Machine, m': Machine)
    requires Sound(m) && Reaches(m, m')
    ensures Sound(m')
  {
    hide Run, Sound;
    var acts :| Leads(m, acts, m');
    SuitedIsSafe(m, acts, Gentle);
    RunIsSound(m, acts, m');
  }

  // ---- an unfinished worker that outranks its joiner ----

  /** The worker is spawned, no suspended activation is still queueing it, and its executor outranks
      whatever runs now. */
  predicate CanOvertake(m: Machine, w: TaskId) {
    && w < |m.k.slots| && m.k.slots[w].spawned && Claimants(m.fs, w) == 0
    && m.k.slots[w].home.Some? && Outranks(m.k.slots[w].home.value, m.k.prioStack)
  }

  lemma OutranksIsAbsent(p: Prio, stack: seq<Prio>, n: nat)
    requires Nested(stack, n) && Outranks(p, stack)
    ensures p !in stack
  {}

  lemma {:induction false} FramesOfHolder(fs: Frames, t: TaskId)
    requires Ending(fs, t) || Leaving(fs, t) || Exiting(fs, t) || Finishing(fs, t)
    ensures Holders(fs, t) > 0
  {
    if Held(fs.top) != Some(t) { FramesOfHolder(fs.below, t); }
  }

  lemma {:induction false} FramesOfSpawn(fs: Frames, t: TaskId)
    requires !Respawning(fs, t)
    ensures !Starting(fs, t) && !Unpushing(fs, t) && !Spawning(fs, t)
  {
    if fs.Over? { FramesOfSpawn(fs.below, t); }
  }

  /** Such a worker has returned nothing yet, and can be woken on the executor it is bound to. */
  lemma WorkerIsFresh(m: Machine, w: TaskId)
    requires Sound(m) && CanOvertake(m, w) && !Respawning(m.fs, w)
    ensures var s := m.k.slots[w];
            && s.pollFn == PollFuture && s.result == None && s.exec == s.home && s.home.value < |m.k.queues|
            && (s.queued ==> w in m.k.queues[s.home.value])
  {
    HolderRunsAtHome(m.k.slots, m.fs, w);
    OutranksIsAbsent(m.k.slots[w].home.value, m.k.prioStack, |m.k.queues|);
    FramesOfSpawn(m.fs, w);
    if Ending(m.fs, w) || Leaving(m.fs, w) || Exiting(m.fs, w) || Finishing(m.fs, w) { FramesOfHolder(m.fs, w); }
    assert PointerOk(m, w) && ResultOk(m.k.slots[w]) && m.k.SlotOk(m.k.slots[w]);
    if m.k.slots[w].queued { QueuedIsOwned(m, w); }
  }

  /** The scripts under which every live future returns Ready at its next poll. */
  function ReadyScript(k: Kernel): seq<seq<S.Outcome>> {
    seq(|k.slots|, t requires 0 <= t < |k.slots| =>
      if k.slots[t].pollFn == PollFuture then [S.Outcome([], Some(0))] else [])
  }

  function ReadyTurn(k: Kernel): S.Turn {
    S.Turn(k.(marker := false, msip := false), ReadyScript(k), [], seq(|k.slots|, _ => 0))
  }

  lemma ReadyIsSchedulable(m: Machine)
    requires LifeInv(m) && Armed(m)
    ensures var s := ReadyTurn(m.k);
            S.Schedulable(s) && DrainOrder.AllReady(s.script) && PassRefinement.PlainScript(s.script)
  {
    forall t | 0 <= t < |m.k.slots| && !m.k.slots[t].spawned ensures ReadyScript(m.k)[t] == [] { UnspawnedIsSpent(m, t); }
    assert S.Finite([S.Outcome([], Some(0))], |m.k.slots|, |m.k.queues|);
    PassRefinement.LiveIsSchedulable(m, ReadyTurn(m.k));
  }

  lemma {:induction false} PlainIsGentle(m: Machine, acts: seq<Action>)
    requires PassRefinement.PlainRun(m, acts)
    ensures AllSuit(m, acts, Gentle)
    decreases |acts|
  {
    hide Step;
    if acts != [] && Step(m, acts[0]).Some? { PlainIsGentle(Step(m, acts[0]).value, acts[1..]); }
  }

  /** A plain pass, from the interrupt's entry to its return. */
  lemma PassReaches(m: Machine, s: S.Turn, below: Frames)
    requires PassRefinement.At(m, Soft(Hook), below) && !m.mie && m.k.marker && s.k == m.k.(marker := false, msip := false)
    requires S.Schedulable(s) && PassRefinement.PlainScript(s.script)
    ensures Reaches(m, Machine(S.Schedule(s).k, false, Over(Soft(Return), below)))
  {
    hide Step, S.Schedulable, S.Schedule, PassRefinement.Start;
    var start, end := PassRefinement.Start(s), PassRefinement.Start(S.Schedule(s));
    var m' := Machine(S.Schedule(s).k, false, Over(Soft(Return), below));
    PassRefinement.PassFlows(m, s, below, true);
    var n: nat :| PassRefinement.Flow(m, start, n, m', end, true);
    var acts := PassRefinement.SomeRunObeys(m, start, n, m', end, true);
    PlainIsGentle(m, acts);
    assert Leads(m, acts, m');
  }

  /** A scheduling pass taken here finishes a task that waits in a queue that outranks the stack, and
      returns to where it came from. */
  lemma PassFinishes(m: Machine, p: Prio, w: TaskId) returns (m': Machine)
    requires LifeInv(m) && Armed(m) && m.mie && m.k.marker && m.k.msip && w < |m.k.slots|
    requires p < |m.k.queues| && w in m.k.queues[p] && m.k.slots[w].pollFn == PollFuture && Outranks(p, m.k.prioStack)
    ensures Reaches(m, m') && m'.fs == m.fs && m'.mie && w < |m'.k.slots| && !m'.k.slots[w].spawned
  {
    hide RunsUserCode, WakeStep, SpawnStep, JoinStep, RunStep, PreemptSection, LifeInv, Armed, S.Schedule;
    SoundIsReady(m);
    var s := ReadyTurn(m.k);
    ReadyIsSchedulable(m);
    DrainOrder.DrainFinishes(s, p, w);
    var m1 := Step(m, Msi).value;
    var m2 := Machine(S.Schedule(s).k, false, Over(Soft(Return), m.fs));
    m' := Step(m2, Tick).value;
    PassReaches(m1, s, m.fs);
    Stay(m');
    First(m2, Tick, m', m');
    Chain(m1, m2, m');
    First(m, Msi, m1, m');
  }

  lemma SoundIsReady(m: Machine)
    requires LifeInv(m)
    ensures m.k.WellFormed() && m.fs.Over? && FrameOk(m.fs.top, |m.k.queues|, |m.k.slots|)
  {}

  /** With interrupts enabled and the worker fresh, it can be made to wait in its queue, with the
      software interrupt pending, without disturbing the code that runs. */
  lemma WorkerCanWait(m: Machine, w: TaskId) returns (m': Machine)
    requires Sound(m) && m.mie && CanOvertake(m, w) && !Respawning(m.fs, w)
    requires m.fs.Over? && m.fs.top.Join? // above a poll, where nothing suspended below owes the pend
    ensures Reaches(m, m') && m'.fs == m.fs && m'.mie && m'.k.marker && m'.k.msip && m'.k.prioStack == m.k.prioStack
    ensures |m'.k.slots| == |m.k.slots| && |m'.k.queues| == |m.k.queues|
    ensures var s := m'.k.slots[w];
            s.home == m.k.slots[w].home && s.pollFn == PollFuture && s.home.value < |m.k.queues| && w in m'.k.queues[s.home.value]
  {
    WorkerIsFresh(m, w);
    SoundIsReady(m);
    var p := m.k.slots[w].home.value;
    if m.k.slots[w].queued {
      m' := m;
      Stay(m);
      WaitingIsPended(m, p);
    } else {
      m' := HandlerWakes(m, p, w);
    }
  }

  lemma WaitingIsPended(m: Machine, p: Prio)
    requires LifeInv(m) && m.fs.Over? && m.fs.top.Join? && p < |m.k.queues| && m.k.queues[p] != [] && Outranks(p, m.k.prioStack)
    ensures m.k.marker && m.k.msip
  {
    assert p in m.k.ready && SomethingOutranks(m.k);
    assert Shaped(m.fs) && Shaped(m.fs.below);
    assert PollsTask(m.fs.below.top, m.fs.top.joiner);
    assert RunToken(m.fs.below.top).Some?;
    assert !OwesPend(m.fs.below.top) && !Owing(m.fs.below) && !Sending(m.fs.below);
    assert !Owing(m.fs) && !Sending(m.fs);
  }

  // ---- a waker parked for good ----

  /** The run neither polls the handle of `w` again nor reuses its slot. */
  predicate LeavesAlone(m: Machine, acts: seq<Action>, w: TaskId)
    decreases |acts|
  {
    acts == [] || (
      && acts[0] != CallJoin(w) && !Claiming(m, acts[0], w)
      && (Step(m, acts[0]).Some? ==> LeavesAlone(Step(m, acts[0]).value, acts[1..], w)))
  }

  lemma {:induction false} GentleLeavesAlone(m: Machine, acts: seq<Action>, w: TaskId)
    requires AllSuit(m, acts, Gentle)
    ensures LeavesAlone(m, acts, w)
    decreases |acts|
  {
    hide Step;
    if acts != [] && Step(m, acts[0]).Some? { GentleLeavesAlone(Step(m, acts[0]).value, acts[1..], w); }
  }

  lemma LifeGoesOn(m: Machine, a: Action, m': Machine)
    requires LifeInv(m) && Step(m, a) == Some(m') && ClaimIsSafe(m, a)
    ensures LifeInv(m')
  {
    assert Run(m', []) == Some(m');
    assert [a][1..] == [];
    assert Run(m, [a]) == Some(m') && RespawnsSafe(m', []) && RespawnsSafe(m, [a]);
    RunKeepsLifeInv(m, [a], m');
  }

  /** The waker of `u` lies in the slot of a finished worker that nobody spawns or joins. */
  ghost predicate Stuck(m: Machine, w: TaskId, u: TaskId) {
    && w < |m.k.slots| && !m.k.slots[w].spawned && m.k.slots[w].joinWaker == Some(u)
    && !Joins(m.fs, w) && !Respawning(m.fs, w)
  }

  lemma WakeSectionKeepsStuck(k: Kernel, t: TaskId, w: TaskId)
    requires k.WellFormed() && t < |k.slots| && w < |k.slots|
    ensures var k' := WakeSection(k, t);
            k'.SameSize(k) && k'.slots[w].spawned == k.slots[w].spawned && k'.slots[w].joinWaker == k.slots[w].joinWaker
  {}

  lemma TickKeepsStuck(m: Machine, w: TaskId, u: TaskId)
    requires LifeInv(m) && m.fs.Over? && Stuck(m, w, u) && !Claiming(m, Tick, w)
    ensures var (k', next) := TopStep(m.k, m.fs.top);
            && |k'.slots| == |m.k.slots| && !k'.slots[w].spawned && k'.slots[w].joinWaker == Some(u)
            && (next.Goto? ==> !(next.f.Join? && next.f.worker == w) && !(next.f.Spawn? && next.f.task == w && next.f.spawn != Claim))
  {
    hide WakeStep, SpawnStep, HoldStep;
    match m.fs.top
    case Wake(t, pc) => WakeStepKeepsStuck(m.k, t, pc, w);
    case Spawn(t, p, pc) => SpawnStepKeepsStuck(m.k, t, p, pc, w, u);
    case Soft(Running(p, Hold(t, pc))) => HoldStepKeepsStuck(m, p, t, pc, w, u);
    case _ =>
  }

  lemma WakeStepKeepsStuck(k: Kernel, t: TaskId, pc: WakePc, w: TaskId)
    requires k.WellFormed() && FrameOk(Wake(t, pc), |k.queues|, |k.slots|) && w < |k.slots|
    ensures var (k', next) := WakeStep(k, t, pc);
            && k'.slots[w].spawned == k.slots[w].spawned && k'.slots[w].joinWaker == k.slots[w].joinWaker
            && (next.Goto? ==> next.f.Wake?)
  {}

  lemma SpawnStepKeepsStuck(k: Kernel, t: TaskId, p: Prio, pc: SpawnPc, w: TaskId, u: TaskId)
    requires k.WellFormed() && FrameOk(Spawn(t, p, pc), |k.queues|, |k.slots|) && w < |k.slots| && t != w
    ensures var (k', next) := SpawnStep(k, t, p, pc);
            k'.slots[w] == k.slots[w] && (next.Goto? ==> next.f.Spawn? && next.f.task == t)
  {
    hide PendSection;
  }

  lemma HoldStepKeepsStuck(m: Machine, p: Prio, t: TaskId, pc: HoldPc, w: TaskId, u: TaskId)
    requires LifeInv(m) && m.fs.Over? && m.fs.top == Soft(Running(p, Hold(t, pc))) && Stuck(m, w, u)
    ensures var (k', next) := HoldStep(m.k, p, t, pc);
            && !k'.slots[w].spawned && k'.slots[w].joinWaker == Some(u) && (next.Goto? ==> next.f.Soft?)
  {
    hide WakeSection;
    assert FrameLive(m.k.slots, m.fs.top);
    var s := m.k.slots[t];
    if pc == Despawn && s.joinWaker.Some? {
      assert m.k.SlotOk(s);
      WakeSectionKeepsStuck(m.k.Put(t, s.(spawned := false, joinWaker := None)), s.joinWaker.value, w);
    }
  }

  lemma StepKeepsStuck(m: Machine, a: Action, m': Machine, w: TaskId, u: TaskId)
    requires LifeInv(m) && Stuck(m, w, u) && Step(m, a) == Some(m') && a != CallJoin(w) && !Claiming(m, a, w)
    ensures Stuck(m', w, u)
  {
    hide TopStep, WakeSection;
    match a
    case Tick => TickKeepsStuck(m, w, u);
    case MaskedWake(t) => WakeSectionKeepsStuck(m.k, t, w);
    case _ =>
  }

  /** A waker so parked stays parked: whatever happens next, until the handle is polled again or the slot
      is respawned, no completion takes it. */
  lemma {:induction false} StrandedForGood(m: Machine, acts: seq<Action>, m': Machine, w: TaskId, u: TaskId)
    requires LifeInv(m) && Stuck(m, w, u) && Run(m, acts) == Some(m')
    requires RespawnsSafe(m, acts) && LeavesAlone(m, acts, w)
    ensures Stuck(m', w, u)
    decreases |acts|
  {
    hide LifeInv, Step, Stuck, Claiming;
    if acts != [] {
      var next := Step(m, acts[0]).value;
      LifeGoesOn(m, acts[0], next);
      StepKeepsStuck(m, acts[0], next, w, u);
      StrandedForGood(next, acts[1..], m', w, u);
    }
  }

  /** Whatever happens next, until the handle is polled again or the slot respawned, the worker stays
      finished and the waker of `u` stays in its slot. */
  ghost predicate Abandoned(m: Machine, w: TaskId, u: TaskId) {
    forall acts | RespawnsSafe(m, acts) && LeavesAlone(m, acts, w) && Run(m, acts).Some? ::
      var k := Run(m, acts).value.k;
      w < |k.slots| && !k.slots[w].spawned && k.slots[w].joinWaker == Some(u)
  }

  lemma StuckIsAbandoned(m: Machine, w: TaskId, u: TaskId)
    requires LifeInv(m) && Stuck(m, w, u)
    ensures Abandoned(m, w, u)
  {
    hide LifeInv, Run;
    forall acts | RespawnsSafe(m, acts) && LeavesAlone(m, acts, w) && Run(m, acts).Some?
      ensures Stuck(Run(m, acts).value, w, u)
    {
      StrandedForGood(m, acts, Run(m, acts).value, w, u);
    }
  }

  /** The poll is about to park the waker of `u`, and that abandons it. */
  ghost predicate Strands(m: Machine, w: TaskId, u: TaskId) {
    && m.fs.Over? && m.fs.top == Join(w, u, StoreWaker)
    && Step(m, Tick).Some? && Abandoned(Step(m, Tick).value, w, u)
  }

  ghost predicate StrandsAfter(m: Machine, acts: seq<Action>, w: TaskId, u: TaskId) {
    && RespawnsSafe(m, acts) && LeavesAlone(m, acts, w)
    && Run(m, acts).Some? && Strands(Run(m, acts).value, w, u)
  }

  /** Some continuation makes this poll do so. */
  ghost predicate CanStrand(m: Machine, w: TaskId, u: TaskId) {
    exists acts :: StrandsAfter(m, acts, w, u)
  }

  /** Parking for a finished worker strands the joiner. */
  lemma ParkingLateStrands(m: Machine, w: TaskId, u: TaskId)
    requires LifeInv(m) && m.fs.Over? && m.fs.top == Join(w, u, StoreWaker) && w < |m.k.slots| && !m.k.slots[w].spawned
    requires !Joins(m.fs.below, w) && !Respawning(m.fs.below, w)
    ensures Strands(m, w, u)
  {
    var m' := Step(m, Tick).value;
    LifeGoesOn(m, Tick, m');
    StuckIsAbandoned(m', w, u);
  }

  /** And nothing else does. */
  lemma StrandingParksLate(m: Machine, w: TaskId, u: TaskId)
    requires Strands(m, w, u)
    ensures w < |m.k.slots| && !m.k.slots[w].spawned
  {
    var m' := Step(m, Tick).value;
    assert Run(m', []) == Some(m') && RespawnsSafe(m', []) && LeavesAlone(m', [], w);
  }

  // ---- a worker that can overtake its joiner ----

  /** If the worker can overtake its joiner, it can strand it. */
  lemma OvertakingStrands(m: Machine, w: TaskId, u: TaskId, m1: Machine)
    requires Sound(m) && HandleOk(m, w) && Step(m, CallJoin(w)) == Some(m1) && PollsTask(m.fs.top, u)
    requires CanOvertake(m, w)
    ensures CanStrand(m1, w, u)
  {
    hide Sound, CanOvertake, Respawning, Joins, Strands, PassRefinement.Start;
    JoinLooks(m, w, u, m1);
    var m2 := Step(m1, Tick).value;
    var m3 := WorkerCanWait(m2, w);
    ReachIsSound(m2, m3);
    var m4 := SoundPassFinishes(m3, w);
    ReachIsSound(m3, m4);
    SoundIsLive(m4);
    ParkingLateStrands(m4, w, u);
    Stay(m4);
    Chain(m2, m3, m4);
    First(m1, Tick, m2, m4);
    var acts :| Leads(m1, acts, m4);
    SuitedIsSafe(m1, acts, Gentle);
    GentleLeavesAlone(m1, acts, w);
    assert StrandsAfter(m1, acts, w, u);
  }

  lemma SoundIsLive(m: Machine)
    requires Sound(m)
    ensures LifeInv(m)
  {}

  lemma SoundPassFinishes(m: Machine, w: TaskId) returns (m': Machine)
    requires Sound(m) && m.mie && m.k.marker && m.k.msip && w < |m.k.slots| && m.k.slots[w].home.Some?
    requires m.k.slots[w].home.value < |m.k.queues| && w in m.k.queues[m.k.slots[w].home.value]
    requires m.k.slots[w].pollFn == PollFuture && Outranks(m.k.slots[w].home.value, m.k.prioStack)
    ensures Reaches(m, m') && m'.fs == m.fs && m'.mie && w < |m'.k.slots| && !m'.k.slots[w].spawned
  {
    m' := PassFinishes(m, m.k.slots[w].home.value, w);
  }

  /** The poll finds no result and goes on to park its waker. */
  lemma JoinLooks(m: Machine, w: TaskId, u: TaskId, m1: Machine)
    requires Sound(m) && HandleOk(m, w) && Step(m, CallJoin(w)) == Some(m1) && PollsTask(m.fs.top, u) && CanOvertake(m, w)
    ensures Step(m1, Tick).Some? && Suits(m1, Tick, Gentle)
    ensures var m2 := Step(m1, Tick).value;
            && m2.fs == Over(Join(w, u, StoreWaker), m.fs) && Sound(m2) && m2.mie && CanOvertake(m2, w) && !Respawning(m2.fs, w)
            && m2.k.prioStack == m.k.prioStack && m2.k.slots[w].home == m.k.slots[w].home
            && |m2.k.queues| == |m.k.queues|
  {
    WorkerIsFresh(m, w);
    var m2 := Step(m1, Tick).value;
    var acts := [CallJoin(w), Tick];
    assert acts[1..] == [Tick] && [Tick][1..] == [];
    assert Run(m1, [Tick]) == Run(m2, []) == Some(m2);
    assert Run(m, acts) == Some(m2);
    assert RespawnsSafe(m1, [Tick]) && RespawnsSafe(m, acts);
    RunIsSound(m, acts, m2);
  }

  // ---- a worker that cannot overtake its joiner ----

  /** A frame above the poll that will not touch the join state of `w`, nor, if so required, hold it. */
  predicate Bystander(f: Frame, w: TaskId, barred: bool) {
    && !(f.Join? && f.worker == w)
    && !(f.Spawn? && f.task == w && f.spawn != Claim)
    && (barred ==> Held(f) != Some(w))
  }

  /** The poll stands over `base`, with nothing but bystanders above it; if the worker has finished, it
      has yet to look. */
  predicate Standing(fs: Frames, w: TaskId, u: TaskId, base: Frames, barred: bool) {
    fs.Over? &&
    if fs.below == base && fs.top.Join? && fs.top.worker == w
    then fs.top.joiner == u && (barred || fs.top.join == TakeResult)
    else Bystander(fs.top, w, barred) && Standing(fs.below, w, u, base, barred)
  }

  /** While the frames of `base` stand, `w` is not dispatched: one of them has claimed it, or runs at a
      priority that its executor does not outrank. */
  predicate Barred(k: Kernel, w: TaskId, base: Frames) {
    w < |k.slots| && (Claimants(base, w) > 0
                      || (k.slots[w].home.Some? && exists i :: 0 <= i < |Tokens(base)| && Tokens(base)[i] <= k.slots[w].home.value))
  }

  predicate WorkerStays(k: Kernel, w: TaskId, base: Frames, barred: bool) {
    w < |k.slots| && if barred then k.slots[w].spawned && Barred(k, w, base) else !k.slots[w].spawned && k.slots[w].result.Some?
  }

  ghost predicate Hopeless(m: Machine, w: TaskId, u: TaskId, base: Frames, barred: bool) {
    && LifeInv(m) && w < |m.k.slots| && !Joins(base, w)
    && (Joins(m.fs, w) ==> Standing(m.fs, w, u, base, barred) && WorkerStays(m.k, w, base, barred))
  }

  lemma {:induction false} StandingCounts(fs: Frames, w: TaskId, u: TaskId, base: Frames, barred: bool)
    requires Standing(fs, w, u, base, barred)
    ensures Claimants(base, w) <= Claimants(fs, w)
    ensures forall token | token in Tokens(base) :: token in Tokens(fs)
  {
    OlderTokensStay(fs);
    if !(fs.below == base && fs.top.Join? && fs.top.worker == w) { StandingCounts(fs.below, w, u, base, barred); }
  }

  lemma BarredIsNotPopped(m: Machine, p: Prio, w: TaskId, u: TaskId, base: Frames)
    requires LifeInv(m) && m.fs.Over? && m.fs.top == Soft(Running(p, Dequeue)) && m.k.queues[p] != []
    requires Standing(m.fs.below, w, u, base, true) && Barred(m.k, w, base)
    ensures m.k.queues[p][0] != w
  {
    StandingCounts(m.fs.below, w, u, base, true);
    if m.k.queues[p][0] == w {
      assert w in m.k.queues[p];
      LinkedUpdate(m.k.queues, p, m.k.queues[p], w);
      assert Linked(m.k.queues, w) + Claimants(m.fs, w) == Flag(m.k, w);
      assert w in multiset(m.k.queues[p]);
      assert Claimants(base, w) == 0;
      assert m.k.slots[w].home == Some(p);
      var i :| 0 <= i < |Tokens(base)| && Tokens(base)[i] <= p;
      assert Tokens(base)[i] in Tokens(m.fs.below);
      TokenIsLeast(m, p, Tokens(base)[i]);
    }
  }

  lemma TokenIsLeast(m: Machine, p: Prio, token: Prio)
    requires LifeInv(m) && m.fs.Over? && m.fs.top == Soft(Running(p, Dequeue)) && token in Tokens(m.fs.below)
    ensures p < token
  {
    assert Tokens(m.fs) == Tokens(m.fs.below) + [p];
    var i :| 0 <= i < |Tokens(m.fs.below)| && Tokens(m.fs.below)[i] == token;
    assert Tokens(m.fs)[i] == token && Tokens(m.fs)[|Tokens(m.fs.below)|] == p;
  }

  /** What `w` keeps under a step of a bystander. */
  predicate SameWorker(k: Kernel, k': Kernel, w: TaskId) {
    && w < |k.slots| == |k'.slots|
    && k'.slots[w].spawned == k.slots[w].spawned && k'.slots[w].result == k.slots[w].result && k'.slots[w].home == k.slots[w].home
  }

  lemma WakeSectionSpares(k: Kernel, t: TaskId, w: TaskId)
    requires k.WellFormed() && PointersBound(k) && t < |k.slots| && w < |k.slots|
    ensures SameWorker(k, WakeSection(k, t), w)
  {}

  lemma WakeSpares(m: Machine, t: TaskId, pc: WakePc, w: TaskId)
    requires LifeInv(m) && m.fs.Over? && m.fs.top == Wake(t, pc) && w < |m.k.slots|
    ensures SameWorker(m.k, WakeStep(m.k, t, pc).0, w)
  {
    assert pc.Enqueue? ==> Grips(m.fs.top, t);
  }

  lemma SpawnSpares(k: Kernel, t: TaskId, p: Prio, pc: SpawnPc, w: TaskId)
    requires k.WellFormed() && FrameOk(Spawn(t, p, pc), |k.queues|, |k.slots|) && w < |k.slots|
    requires Bystander(Spawn(t, p, pc), w, false) && (t == w ==> k.slots[w].spawned)
    ensures SameWorker(k, SpawnStep(k, t, p, pc).0, w)
    ensures var next := SpawnStep(k, t, p, pc).1; next.Goto? ==> Bystander(next.f, w, true)
  {
    hide PendSection;
  }

  lemma HoldSpares(m: Machine, p: Prio, t: TaskId, pc: HoldPc, w: TaskId, barred: bool)
    requires LifeInv(m) && m.fs.Over? && m.fs.top == Soft(Running(p, Hold(t, pc))) && w < |m.k.slots|
    requires Bystander(m.fs.top, w, barred) && (!barred ==> !m.k.slots[w].spawned)
    ensures SameWorker(m.k, HoldStep(m.k, p, t, pc).0, w)
    ensures var next := HoldStep(m.k, p, t, pc).1; next.Goto? ==> Bystander(next.f, w, barred)
  {
    hide DespawnSection;
    assert FrameLive(m.k.slots, m.fs.top);
    if t == w { UnspawnedIsSpent(m, w); }
    if pc == Despawn { DespawnSpares(m.k, t, w); }
  }

  lemma DespawnSpares(k: Kernel, t: TaskId, w: TaskId)
    requires k.WellFormed() && PointersBound(k) && t < |k.slots| && w < |k.slots| && (t == w ==> !k.slots[w].spawned)
    ensures SameWorker(k, DespawnSection(k, t), w)
  {
    hide WakeSection;
    assert k.SlotOk(k.slots[t]);
    if k.slots[t].joinWaker.Some? {
      WakeSectionSpares(k.Put(t, k.slots[t].(spawned := false, joinWaker := None)), k.slots[t].joinWaker.value, w);
    }
  }

  lemma BystanderTick(m: Machine, m': Machine, w: TaskId, u: TaskId, base: Frames, barred: bool)
    requires LifeInv(m) && Step(m, Tick) == Some(m') && !Claiming(m, Tick, w)
    requires Bystander(m.fs.top, w, barred) && Standing(m.fs.below, w, u, base, barred) && WorkerStays(m.k, w, base, barred)
    ensures SameWorker(m.k, m'.k, w)
    ensures m'.fs == m.fs.below || (m'.fs.Over? && m'.fs.below == m.fs.below && Bystander(m'.fs.top, w, barred))
  {
    hide WakeStep, SpawnStep, HoldStep, Standing;
    match m.fs.top
    case Wake(t, pc) =>
      WakeSpares(m, t, pc, w);
      WakeGoesOn(m.k, t, pc);
    case Spawn(t, p, pc) => SpawnSpares(m.k, t, p, pc, w);
    case Soft(Running(p, Hold(t, pc))) => HoldSpares(m, p, t, pc, w, barred);
    case Soft(Running(p, Dequeue)) =>
      if barred && m.k.queues[p] != [] { BarredIsNotPopped(m, p, w, u, base); }
    case _ =>
  }

  lemma WakeGoesOn(k: Kernel, t: TaskId, pc: WakePc)
    requires k.WellFormed() && FrameOk(Wake(t, pc), |k.queues|, |k.slots|)
    ensures var next := WakeStep(k, t, pc).1; next.Leave? || (next.Goto? && next.f.Wake?)
  {}

  /** The poll's own step: it finds the result of a finished worker, or goes on to park. */
  lemma PollTick(m: Machine, m': Machine, w: TaskId, u: TaskId, base: Frames, barred: bool)
    requires LifeInv(m) && m.fs.Over? && m.fs.below == base && m.fs.top.Join? && m.fs.top.worker == w
    requires Standing(m.fs, w, u, base, barred) && WorkerStays(m.k, w, base, barred) && Step(m, Tick) == Some(m')
    ensures m'.fs == base || (Standing(m'.fs, w, u, base, barred) && WorkerStays(m'.k, w, base, barred))
  {}

  lemma WorkerStaysAlong(k: Kernel, k': Kernel, w: TaskId, base: Frames, barred: bool)
    requires WorkerStays(k, w, base, barred) && SameWorker(k, k', w)
    ensures WorkerStays(k', w, base, barred)
  {}

  lemma CallsKeepHopeless(m: Machine, a: Action, m': Machine, w: TaskId, u: TaskId, base: Frames, barred: bool)
    requires LifeInv(m) && w < |m.k.slots| && Standing(m.fs, w, u, base, barred) && WorkerStays(m.k, w, base, barred)
    requires Step(m, a) == Some(m') && a != Tick && a != CallJoin(w)
    ensures Standing(m'.fs, w, u, base, barred) && WorkerStays(m'.k, w, base, barred)
  {
    match a
    case MaskedWake(t) =>
      WakeSectionSpares(m.k, t, w);
      WorkerStaysAlong(m.k, m'.k, w, base, barred);
    case _ =>
  }

  lemma NoNewJoin(m: Machine, a: Action, m': Machine, w: TaskId)
    requires LifeInv(m) && Step(m, a) == Some(m') && a != CallJoin(w) && !Joins(m.fs, w)
    ensures !Joins(m'.fs, w)
  {
    hide WakeStep, SpawnStep, HoldStep;
    if a == Tick { JoinsComeFromCalls(m.k, m.fs.top, w); }
  }

  lemma JoinsComeFromCalls(k: Kernel, f: Frame, w: TaskId)
    requires k.WellFormed() && FrameOk(f, |k.queues|, |k.slots|) && !(f.Join? && f.worker == w)
    ensures var next := TopStep(k, f).1; next.Goto? ==> !(next.f.Join? && next.f.worker == w)
  {}

  lemma StepKeepsHopeless(m: Machine, a: Action, m': Machine, w: TaskId, u: TaskId, base: Frames, barred: bool)
    requires Hopeless(m, w, u, base, barred) && Step(m, a) == Some(m') && LifeInv(m')
    requires a != CallJoin(w) && !Claiming(m, a, w)
    ensures Hopeless(m', w, u, base, barred)
  {
    hide LifeInv, Step, TopStep, Barred;
    if !Joins(m.fs, w) {
      NoNewJoin(m, a, m', w);
      SlotsStay(m, a, m');
    } else if a != Tick {
      CallsKeepHopeless(m, a, m', w, u, base, barred);
    } else if m.fs.below == base && m.fs.top.Join? && m.fs.top.worker == w {
      PollTick(m, m', w, u, base, barred);
      SlotsStay(m, a, m');
    } else {
      BystanderTick(m, m', w, u, base, barred);
      WorkerStaysAlong(m.k, m'.k, w, base, barred);
      StandingAgain(m.fs, m'.fs, w, u, base, barred);
    }
  }

  lemma SlotsStay(m: Machine, a: Action, m': Machine)
    requires LifeInv(m) && Step(m, a) == Some(m')
    ensures |m'.k.slots| == |m.k.slots|
  {
    StepKeepsControl(m, a, m');
  }

  lemma StandingAgain(fs: Frames, fs': Frames, w: TaskId, u: TaskId, base: Frames, barred: bool)
    requires fs.Over? && Standing(fs.below, w, u, base, barred)
    requires fs' == fs.below || (fs'.Over? && fs'.below == fs.below && Bystander(fs'.top, w, barred))
    ensures Standing(fs', w, u, base, barred)
  {}

  lemma {:induction false} RunKeepsHopeless(m: Machine, acts: seq<Action>, m': Machine, w: TaskId, u: TaskId, base: Frames, barred: bool)
    requires Hopeless(m, w, u, base, barred) && Run(m, acts) == Some(m')
    requires RespawnsSafe(m, acts) && LeavesAlone(m, acts, w)
    ensures Hopeless(m', w, u, base, barred)
    decreases |acts|
  {
    hide LifeInv, Step, Standing, WorkerStays, Joins, Claiming;
    if acts != [] {
      var next := Step(m, acts[0]).value;
      LifeGoesOn(m, acts[0], next);
      StepKeepsHopeless(m, acts[0], next, w, u, base, barred);
      RunKeepsHopeless(next, acts[1..], m', w, u, base, barred);
    }
  }

  lemma PollIsHopeless(m: Machine, w: TaskId, u: TaskId, m1: Machine)
    requires Sound(m) && HandleOk(m, w) && Step(m, CallJoin(w)) == Some(m1) && PollsTask(m.fs.top, u)
    requires !CanOvertake(m, w)
    ensures Hopeless(m1, w, u, m.fs, m.k.slots[w].spawned)
  {
    hide Step;
    JoinStarts(m, w, u, m1);
    if m.k.slots[w].spawned { WorkerIsBarred(m, w); }
    LifeGoesOn(m, CallJoin(w), m1);
  }

  /** A handle polled while its worker cannot overtake is never parked for a finished worker. */
  lemma OtherwiseItDoesNot(m: Machine, w: TaskId, u: TaskId, m1: Machine, acts: seq<Action>)
    requires Sound(m) && HandleOk(m, w) && Step(m, CallJoin(w)) == Some(m1) && PollsTask(m.fs.top, u)
    requires !CanOvertake(m, w)
    ensures !StrandsAfter(m1, acts, w, u)
  {
    hide Step, Strands, Hopeless, CanOvertake;
    PollIsHopeless(m, w, u, m1);
    if StrandsAfter(m1, acts, w, u) {
      var m2 := Run(m1, acts).value;
      RunKeepsHopeless(m1, acts, m2, w, u, m.fs, m.k.slots[w].spawned);
      HopelessDoesNotPark(m2, w, u, m.fs, m.k.slots[w].spawned);
    }
  }

  lemma HopelessDoesNotPark(m: Machine, w: TaskId, u: TaskId, base: Frames, barred: bool)
    requires Hopeless(m, w, u, base, barred)
    ensures !Strands(m, w, u)
  {
    if Strands(m, w, u) { StrandingParksLate(m, w, u); }
  }

  lemma JoinStarts(m: Machine, w: TaskId, u: TaskId, m1: Machine)
    requires Sound(m) && HandleOk(m, w) && Step(m, CallJoin(w)) == Some(m1) && PollsTask(m.fs.top, u)
    ensures m1 == m.(fs := Over(Join(w, u, TakeResult), m.fs)) && m.mie && ClaimIsSafe(m, CallJoin(w))
  {}

  /** A spawned worker that cannot overtake has been claimed by a suspended enqueuer, or its executor does
      not outrank some running one. */
  lemma WorkerIsBarred(m: Machine, w: TaskId)
    requires Sound(m) && m.fs.Over? && w < |m.k.slots| && m.k.slots[w].spawned && !Respawning(m.fs, w) && !CanOvertake(m, w)
    ensures Barred(m.k, w, m.fs)
  {
    FramesOfSpawn(m.fs, w);
    assert PointerOk(m, w);
    if Leaving(m.fs, w) {
      FramesOfHolder(m.fs, w);
      HolderRunsAtHome(m.k.slots, m.fs, w);
      var i :| 0 <= i < |Tokens(m.fs)| && Tokens(m.fs)[i] == m.k.slots[w].home.value;
    } else if Claimants(m.fs, w) == 0 {
      var last := |Tokens(m.fs)| - 1;
      assert m.k.slots[w].home == m.k.slots[w].exec;
      assert Tokens(m.fs)[last] <= m.k.slots[w].home.value;
    }
  }

  /** When a poll of a join handle can strand its joiner.  In any reachable state in which `u`'s future
      polls the handle of `w`: some continuation of this poll parks its waker so that in every later run,
      until the handle is polled again or the slot respawned, it stays parked on a finished worker, if and
      only if the worker is unfinished, no suspended activation is still queueing it, and its executor
      outranks the priority stack. */
  lemma JoinStrandsIff(n: nat, tasks: nat, before: seq<Action>, m: Machine, w: TaskId, u: TaskId, m1: Machine)
    requires 0 < n && Run(Init(n, tasks), before) == Some(m) && RespawnsSafe(Init(n, tasks), before)
    requires HandleOk(m, w) && Step(m, CallJoin(w)) == Some(m1) && PollsTask(m.fs.top, u)
    ensures CanStrand(m1, w, u) <==> CanOvertake(m, w)
    ensures m.mie
  {
    hide Sound, Step, CanOvertake, Strands;
    ReachableIsSound(n, tasks, before, m);
    JoinStarts(m, w, u, m1);
    if CanOvertake(m, w) {
      OvertakingStrands(m, w, u, m1);
    } else {
      forall acts ensures !StrandsAfter(m1, acts, w, u) { OtherwiseItDoesNot(m, w, u, m1, acts); }
    }
  }

  // ---- the joiners that are served ----

  lemma SoundGoesOn(m: Machine, a: Action, m': Machine)
    requires Sound(m) && Step(m, a) == Some(m') && ClaimIsSafe(m, a)
    ensures Sound(m')
  {
    assert Run(m', []) == Some(m');
    assert [a][1..] == [];
    assert Run(m, [a]) == Some(m') && RespawnsSafe(m', []) && RespawnsSafe(m, [a]);
    RunIsSound(m, [a], m');
  }

  lemma HopelessParksInTime(m: Machine, w: TaskId, u: TaskId, base: Frames, barred: bool)
    requires Hopeless(m, w, u, base, barred) && m.fs.Over? && m.fs.top == Join(w, u, StoreWaker)
    ensures m.fs.below == base && w < |m.k.slots| && m.k.slots[w].spawned
  {}

  /** A worker that cannot overtake serves its joiner.  Let `u`'s future poll the handle of `w` in a
      reachable state in which the worker cannot overtake, however handles have been used before, and let
      the poll come to park its waker.  In every later state, unless `u` has been dispatched or has finished,
      or the handle has been polled again, either the waker is still parked and the worker has not
      completed, or `u` is owed a poll and is queued, claimed for queueing, or about to be dispatched. */
  lemma UnovertakenIsServed(n: nat, tasks: nat, before: seq<Action>, m: Machine, w: TaskId, u: TaskId, m1: Machine,
                            during: seq<Action>, m2: Machine, m3: Machine, after: seq<Action>, m4: Machine)
    requires 0 < n && Run(Init(n, tasks), before) == Some(m) && RespawnsSafe(Init(n, tasks), before)
    requires HandleOk(m, w) && Step(m, CallJoin(w)) == Some(m1) && PollsTask(m.fs.top, u) && !CanOvertake(m, w)
    requires Run(m1, during) == Some(m2) && RespawnsSafe(m1, during) && LeavesAlone(m1, during, w)
    requires m2.fs.Over? && m2.fs.top == Join(w, u, StoreWaker) && Step(m2, Tick) == Some(m3)
    requires Run(m3, after) == Some(m4) && !Settled(m3, after, w, u)
    ensures Served(m4, w, u)
  {
    hide Step, Run, Sound, Hopeless, CanOvertake, Served;
    ReachableIsSound(n, tasks, before, m);
    ReachableAnswers(n, tasks, before, m);
    PollIsHopeless(m, w, u, m1);
    JoinStarts(m, w, u, m1);
    SoundGoesOn(m, CallJoin(w), m1);
    StepKeepsAnswerable(m, CallJoin(w), m1);
    RunIsSound(m1, during, m2);
    SoundIsPointed(m1);
    SoundIsPointed(m2);
    RunKeepsHopeless(m1, during, m2, w, u, m.fs, m.k.slots[w].spawned);
    RunKeepsAnswerable(m1, during, m2);
    HopelessParksInTime(m2, w, u, m.fs, m.k.slots[w].spawned);
    ParkedIsServed(m2, w, u, m3, after, m4);
  }

  lemma SoundIsPointed(m: Machine)
    requires Sound(m)
    ensures LifeInv(m) && Pointed(m)
  {}

  /** A worker of equal or lower priority is one of those that cannot. */
  lemma EqualCannotOvertake(m: Machine, w: TaskId, u: TaskId)
    requires LifeInv(m) && m.fs.Over? && PollsTask(m.fs.top, u) && w < |m.k.slots|
    requires m.k.slots[w].home.Some? && RunToken(m.fs.top).value <= m.k.slots[w].home.value
    ensures !CanOvertake(m, w)
  {
    assert Tokens(m.fs)[|Tokens(m.fs)| - 1] == RunToken(m.fs.top).value;
  }
}
