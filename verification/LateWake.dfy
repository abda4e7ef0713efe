/** How an executor pointer comes to outlive its task, so that the unsafe respawns of Hazard.dfy do
    occur.  From any state in which one task is being polled while a task of higher priority sits
    idle, the application can reach, with quiescent slots throughout, a respawn of that task whose
    pointer is still set: a `wake_task` loads the pointer, is interrupted, the task runs to
    completion and clears it, and the interrupted wake stores it again. */
module LateWake {
  import opened Wrappers
  import opened Kernel
  import opened Machine
  import opened Binding
  import opened Lifecycle
  import opened Arming
  import opened Hazard
  import opened Reach

  // ---- one scheduling pass over a single task ----

  /** `fs` is interruptible code at priority `q`, and `t` is all there is in queue `p`, above it. */
  ghost predicate PassOver(m: Machine, p: Prio, q: Prio, t: TaskId, fs: Frames) {
    && m.k.WellFormed() && FramesOk(m.fs, |m.k.queues|, |m.k.slots|)
    && p < q < |m.k.queues| && t < |m.k.slots|
    && m.k.prioStack != [] && m.k.prioStack[|m.k.prioStack| - 1] == q && |m.k.prioStack| < |m.k.queues|
    && (forall r | r in m.k.ready :: p == r || q <= r)
  }

  /** The pass begins: interrupt, hook, `clear_pend`, `try_preempt`, dequeue. */
  lemma EnterPass(m: Machine, p: Prio, q: Prio, t: TaskId) returns (m': Machine)
    requires PassOver(m, p, q, t, m.fs) && m.fs.Over? && m.mie && m.k.msip && m.k.marker
    requires m.k.queues[p] == [t] && p in m.k.ready
    ensures Reaches(m, m') && m'.mie && m'.fs == Over(Soft(Running(p, Hold(t, Dispatch))), m.fs)
    ensures m'.k == PopSection(m.k.(marker := false, msip := false, prioStack := m.k.prioStack + [p]), p)
  {
    hide WakeStep, SpawnStep, JoinStep, HoldStep, CompleteSection;
    var m1 := Step(m, Msi).value;
    var m2 := Step(m1, Tick).value;
    var m3 := Step(m2, Tick).value;
    var m4 := Step(m3, Tick).value;
    assert m4.fs.top == Soft(EnableIrq(p));
    var m5 := Step(m4, Tick).value;
    m' := Step(m5, Tick).value;
    Stay(m');
    First(m5, Tick, m', m');
    First(m4, Tick, m5, m');
    First(m3, Tick, m4, m');
    First(m2, Tick, m3, m');
    First(m1, Tick, m2, m');
    First(m, Msi, m1, m');
  }

  /** Nothing outranks `q`: `try_preempt` declines and the interrupt returns. */
  lemma DeclinePass(m: Machine, q: Prio, below: Frames) returns (m': Machine)
    requires m.k.WellFormed() && m.fs == Over(Soft(TryPreempt), below)
    requires m.k.prioStack != [] && m.k.prioStack[|m.k.prioStack| - 1] == q && forall r | r in m.k.ready :: q <= r
    ensures Reaches(m, m') && m' == Machine(m.k, true, below)
  {
    var m1 := Step(m, Tick).value;
    assert m1.fs.top == Soft(Return);
    m' := Step(m1, Tick).value;
    Stay(m');
    First(m1, Tick, m', m');
    First(m, Tick, m1, m');
  }

  /** The pass ends: the queue is empty, nothing else outranks `q`, and the interrupt returns. */
  lemma LeavePass(m: Machine, p: Prio, q: Prio, below: Frames, stack: seq<Prio>) returns (m': Machine)
    requires m.k.WellFormed() && FramesOk(m.fs, |m.k.queues|, |m.k.slots|)
    requires m.fs == Over(Soft(Running(p, Dequeue)), below) && m.k.queues[p] == []
    requires m.k.prioStack == stack + [p] && stack != [] && stack[|stack| - 1] == q
    requires forall r | r in m.k.ready :: p == r || q <= r
    ensures Reaches(m, m') && m'.mie && m'.fs == below
    ensures m'.k == m.k.(ready := m.k.ready - {p}, prioStack := stack)
  {
    hide WakeStep, SpawnStep, JoinStep, HoldStep;
    var m1 := Step(m, Tick).value;
    var m2 := Step(m1, Tick).value;
    var m3 := Step(m2, Tick).value;
    assert m3.k.prioStack == stack;
    m' := DeclinePass(m3, q, below);
    First(m2, Tick, m3, m');
    First(m1, Tick, m2, m');
    First(m, Tick, m1, m');
  }

  /** Only the slot of `t` differs. */
  ghost predicate OnlySlot(k: Kernel, k': Kernel, t: TaskId) {
    k'.SameSize(k) && t < |k.slots| && k' == k.(slots := k.slots[t := k'.slots[t]])
  }

  /** The task is polled and returns Ready; its result is stored and its pointer cleared. */
  lemma RunToReady(m: Machine, p: Prio, t: TaskId, v: Value) returns (m': Machine)
    requires m.k.WellFormed() && FramesOk(m.fs, |m.k.queues|, |m.k.slots|) && t < |m.k.slots|
    requires m.fs.Over? && m.fs.top == Soft(Running(p, Hold(t, Dispatch)))
    requires m.k.slots[t].pollFn == PollFuture && m.k.slots[t].joinWaker == None
    ensures Reaches(m, m') && m'.mie == m.mie && m'.k.WellFormed() && OnlySlot(m.k, m'.k, t)
    ensures m'.fs == Over(Soft(Running(p, Hold(t, DropFuture))), m.fs.below)
    ensures m'.k.slots[t] == m.k.slots[t].(owed := false, result := Some(v), output := Some(v), exec := None)
  {
    hide RunsUserCode, WakeStep, SpawnStep, JoinStep, PreemptSection, CompleteSection, PopSection, DrainedSection, DespawnSection;
    var m1 := Step(m, Tick).value;
    var m2 := Step(m1, Ready(v)).value;
    m' := RunStores(m2, p, t, v);
    First(m1, Ready(v), m2, m');
    First(m, Tick, m1, m');
  }

  lemma RunStores(m: Machine, p: Prio, t: TaskId, v: Value) returns (m': Machine)
    requires m.k.WellFormed() && FramesOk(m.fs, |m.k.queues|, |m.k.slots|) && t < |m.k.slots|
    requires m.fs.Over? && m.fs.top == Soft(Running(p, Hold(t, StoreResult(v))))
    ensures Reaches(m, m') && m'.mie == m.mie && m'.k.WellFormed() && OnlySlot(m.k, m'.k, t)
    ensures m'.fs == Over(Soft(Running(p, Hold(t, DropFuture))), m.fs.below)
    ensures m'.k.slots[t] == m.k.slots[t].(result := Some(v), output := Some(v), exec := None)
  {
    hide RunsUserCode, WakeStep, SpawnStep, JoinStep, PreemptSection, CompleteSection, PopSection, DrainedSection, DespawnSection;
    var m1 := Step(m, Tick).value;
    m' := Step(m1, Tick).value;
    Stay(m');
    First(m1, Tick, m', m');
    First(m, Tick, m1, m');
  }

  /** The rest of the completion sequence. */
  lemma RunToEnd(m: Machine, p: Prio, t: TaskId) returns (m': Machine)
    requires m.k.WellFormed() && FramesOk(m.fs, |m.k.queues|, |m.k.slots|) && t < |m.k.slots|
    requires m.fs.Over? && m.fs.top == Soft(Running(p, Hold(t, DropFuture))) && m.k.slots[t].joinWaker == None
    ensures Reaches(m, m') && m'.mie == m.mie && m'.k.WellFormed() && OnlySlot(m.k, m'.k, t)
    ensures m'.fs == Over(Soft(Running(p, Dequeue)), m.fs.below)
    ensures m'.k.slots[t] == m.k.slots[t].(cell := Dropped, pollFn := PollExited, spawned := false)
  {
    hide RunsUserCode, WakeStep, SpawnStep, JoinStep, PreemptSection, CompleteSection, PopSection, DrainedSection, DespawnSection;
    var m1 := Step(m, Tick).value;
    var m2 := Step(m1, Tick).value;
    m' := RunDespawns(m2, p, t);
    First(m1, Tick, m2, m');
    First(m, Tick, m1, m');
  }

  lemma RunDespawns(m: Machine, p: Prio, t: TaskId) returns (m': Machine)
    requires m.k.WellFormed() && FramesOk(m.fs, |m.k.queues|, |m.k.slots|) && t < |m.k.slots|
    requires m.fs.Over? && m.fs.top == Soft(Running(p, Hold(t, Despawn))) && m.k.slots[t].joinWaker == None
    ensures Reaches(m, m') && m'.mie == m.mie && m'.k.WellFormed() && OnlySlot(m.k, m'.k, t)
    ensures m'.fs == Over(Soft(Running(p, Dequeue)), m.fs.below)
    ensures m'.k.slots[t] == m.k.slots[t].(spawned := false)
  {
    hide RunsUserCode, WakeStep, SpawnStep, JoinStep, PreemptSection, CompleteSection, PopSection, DrainedSection;
    m' := Step(m, Tick).value;
    Stay(m');
    First(m, Tick, m', m');
  }

  /** The first pass: `t` runs to completion above the interrupted code. */
  lemma CompletingPass(m: Machine, p: Prio, q: Prio, t: TaskId, v: Value) returns (m': Machine)
    requires PassOver(m, p, q, t, m.fs) && m.fs.Over? && m.mie && m.k.msip && m.k.marker
    requires m.k.queues[p] == [t] && p in m.k.ready
    requires m.k.slots[t].pollFn == PollFuture && m.k.slots[t].joinWaker == None
    ensures Reaches(m, m') && m'.mie && m'.fs == m.fs && PassOver(m', p, q, t, m'.fs)
    ensures m'.k.SameSize(m.k) && m'.k.prioStack == m.k.prioStack && m'.k.queues[p] == [] && p !in m'.k.ready
    ensures var s := m'.k.slots[t]; !s.spawned && !s.queued && s.exec == None && s.pollFn == PollExited
  {
    var m1 := EnterPass(m, p, q, t);
    var m2 := RunToReady(m1, p, t, v);
    var m3 := RunToEnd(m2, p, t);
    m' := LeavePass(m3, p, q, m.fs, m.k.prioStack);
    Chain(m2, m3, m');
    Chain(m1, m2, m');
    Chain(m, m1, m');
  }

  /** The second pass: the stale entry reaches `poll_exited`. */
  lemma StalePass(m: Machine, p: Prio, q: Prio, t: TaskId) returns (m': Machine)
    requires PassOver(m, p, q, t, m.fs) && m.fs.Over? && m.mie && m.k.msip && m.k.marker
    requires m.k.queues[p] == [t] && p in m.k.ready && m.k.slots[t].pollFn == PollExited
    ensures Reaches(m, m') && m'.mie && m'.fs == m.fs && PassOver(m', p, q, t, m'.fs)
    ensures m'.k.SameSize(m.k) && m'.k.prioStack == m.k.prioStack
    ensures m'.k.slots[t] == m.k.slots[t].(queued := false, owed := false)
  {
    var m1 := EnterPass(m, p, q, t);
    var m2 := Step(m1, Tick).value;
    m' := LeavePass(m2, p, q, m.fs, m.k.prioStack);
    First(m1, Tick, m2, m');
    Chain(m, m1, m');
  }

  // ---- the late wake ----

  /** A task of priority `q` is being polled while `t`, bound to the higher priority `p`, is idle. */
  ghost predicate Ordinary(m: Machine, p: Prio, q: Prio, t: TaskId) {
    && PassOver(m, p, q, t, m.fs) && m.mie
    && m.fs.Over? && m.fs.top.Soft? && m.fs.top.soft.Running? && RunsUserCode(m.fs.top)
    && p !in m.k.ready && m.k.queues[p] == [] && !Gripped(m.fs, t)
    && var s := m.k.slots[t];
       s.spawned && !s.queued && s.exec == Some(p) && s.pollFn == PollFuture && s.joinWaker == None
  }

  /** The wake of `t` loads its pointer; a handler wakes `t` too, and returns. */
  lemma InterruptedWake(m: Machine, p: Prio, q: Prio, t: TaskId) returns (m': Machine)
    requires Ordinary(m, p, q, t)
    ensures Reaches(m, m') && m'.mie && m'.fs == Over(Wake(t, FetchOr(p)), m.fs)
    ensures PassOver(m', p, q, t, m'.fs) && m'.k.marker && m'.k.msip && m'.k.SameSize(m.k)
    ensures m'.k.queues[p] == [t] && p in m'.k.ready && m'.k.prioStack == m.k.prioStack
    ensures m'.k.slots[t] == m.k.slots[t].(owed := true, queued := true, home := Some(p))
  {
    hide SpawnStep, JoinStep, SoftStep;
    var m1 := Step(m, CallWake(t)).value;
    var m2 := Step(m1, Tick).value;
    m' := HandlerWakes(m2, p, t);
    First(m1, Tick, m2, m');
    First(m, CallWake(t), m1, m');
  }

  /** The interrupted wake resumes and stores the pointer of the finished task again. */
  lemma ResumedWake(m: Machine, p: Prio, q: Prio, t: TaskId, caller: Frames) returns (m': Machine)
    requires PassOver(m, p, q, t, m.fs) && m.mie && m.fs == Over(Wake(t, FetchOr(p)), caller)
    requires m.k.queues[p] == [] && !m.k.slots[t].queued
    ensures Reaches(m, m') && m'.mie && m'.fs == caller
    ensures PassOver(m', p, q, t, m'.fs) && m'.k.marker && m'.k.msip && m'.k.SameSize(m.k)
    ensures m'.k.queues[p] == [t] && p in m'.k.ready && m'.k.prioStack == m.k.prioStack
    ensures m'.k.slots[t] == m.k.slots[t].(queued := true, exec := Some(p), home := Some(p))
  {
    hide SpawnStep, JoinStep, SoftStep;
    var m1 := Step(m, Tick).value;
    var m2 := Step(m1, Tick).value;
    var m3 := Step(m2, Tick).value;
    m' := Step(m3, Tick).value;
    Stay(m');
    First(m3, Tick, m', m');
    First(m2, Tick, m3, m');
    First(m1, Tick, m2, m');
    First(m, Tick, m1, m');
  }

  /** The whole sequence: interrupted wake, completion, resumed wake, stale poll, respawn. */
  lemma LateWakeLeaves(m: Machine, p: Prio, q: Prio, t: TaskId, v: Value) returns (m': Machine)
    requires Ordinary(m, p, q, t)
    ensures Reaches(m, m') && m'.fs == Over(Spawn(t, p, Claim), m.fs) && m'.mie
    ensures PassOver(m', p, q, t, m.fs) && m'.k.SameSize(m.k) && m'.k.prioStack == m.k.prioStack
    ensures var s := m'.k.slots[t]; !s.spawned && !s.queued && s.exec == Some(p)
  {
    var m1 := InterruptedWake(m, p, q, t);
    var m2 := CompletingPass(m1, p, q, t, v);
    var m3 := ResumedWake(m2, p, q, t, m.fs);
    var m4 := StalePass(m3, p, q, t);
    m' := Step(m4, CallSpawn(t, p)).value;
    Stay(m');
    First(m4, CallSpawn(t, p), m', m');
    Chain(m3, m4, m');
    Chain(m2, m3, m');
    Chain(m1, m2, m');
    Chain(m, m1, m');
  }

  /** Quiescence alone does not make a respawn safe: from every ordinary state a respawn of a
      quiescent slot is reachable that some continuation turns into the poll of a cell without a
      future. */
  lemma QuiescenceIsNotEnough(m: Machine, p: Prio, q: Prio, t: TaskId, v: Value) returns (m': Machine, after: Machine)
    requires LifeInv(m) && Armed(m) && Ordinary(m, p, q, t)
    ensures Reaches(m, m') && m'.fs == Over(Spawn(t, p, Claim), m.fs)
    ensures Claiming(m', Tick, t) && Quiescent(m', t) && !SafeRespawn(m', t)
    ensures Step(m', Tick) == Some(after) && CanMisuse(after)
  {
    m' := LateWakeLeaves(m, p, q, t, v);
    after := Step(m', Tick).value;
    ReachKeepsLife(m, m');
    RespawnSafeIff(m', t, p, after);
  }

  lemma ReachKeepsLife(m: Machine, m': Machine)
    requires LifeInv(m) && Armed(m) && Reaches(m, m')
    ensures LifeInv(m') && Armed(m')
  {
    hide Run;
    var acts :| Leads(m, acts, m');
    SuitedIsSafe(m, acts, Gentle);
    RunKeepsLifeInv(m, acts, m');
    SafeIsQuiescent(m, acts);
    RunKeepsArmed(m, acts, m');
  }
}
