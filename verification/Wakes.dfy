/** No lost wake: a wake of a live task keeps the task queued, claimed for queueing, or about to be
    dispatched until the next dispatch of that task. */
module Wakes {
  import opened Wrappers
  import opened Kernel
  import opened Machine
  import opened Nesting
  import opened Ownership
  import opened Binding
  import opened Pointers

  // ---- one wake ----

  /** Only the slot of `t` differs among the slots, and only the queue of `p` among the queues. */
  predicate OnlyAt(k: Kernel, k': Kernel, t: TaskId, p: Prio) {
    && k'.SameSize(k) && k'.prioStack == k.prioStack
    && (forall u | 0 <= u < |k.slots| && u != t :: k'.slots[u] == k.slots[u])
    && (forall q | 0 <= q < |k.queues| && q != p :: k'.queues[q] == k.queues[q])
  }

  /** What a wake does.  Through a null pointer, nothing.  To a queued task, nothing but the debt.  Any other
      task it puts at the end of its executor's queue, which becomes ready, and it pends. */
  lemma WakeAnswers(k: Kernel, t: TaskId)
    requires k.WellFormed() && t < |k.slots|
    ensures var k', s := WakeSection(k, t), k.slots[t];
            && k'.SameSize(k)
            && (s.exec == None ==> k' == k)
            && (s.exec.Some? && s.queued ==>
                  k' == k.(slots := k'.slots) && OnlyAt(k, k', t, 0) && k'.slots[t] == s.(owed := true))
            && (s.exec.Some? && !s.queued ==>
                  && var p := s.exec.value;
                  && p < |k.queues| && OnlyAt(k, k', t, p) && k'.queues[p] == k.queues[p] + [t]
                  && k'.slots[t] == s.(owed := true, queued := true, home := Some(p))
                  && k'.ready == k.ready + {p} && k'.marker && k'.msip)
  {
    assert k.SlotOk(k.slots[t]);
  }

  // ---- what is owed ----

  /** An activation that will queue `t`, or that has just taken it off its queue to poll it. */
  predicate Promises(f: Frame, t: TaskId) {
    match f
    case Wake(u, FetchOr(_)) => u == t
    case Soft(Running(_, Hold(u, Dispatch))) => u == t
    case _ => false
  }

  predicate Promised(fs: Frames, t: TaskId) {
    fs.Over? && (Promises(fs.top, t) || Promised(fs.below, t))
  }

  predicate PromisesNext(next: Next, t: TaskId) {
    next.Goto? && Promises(next.f, t)
  }

  /** Is the wake owed to `t` left to the frames below? */
  predicate Open(k: Kernel, t: TaskId, promised: bool)
    requires t < |k.slots|
  {
    k.slots[t].owed && !k.slots[t].queued && !promised
  }

  ghost predicate Answerable(m: Machine) {
    forall t | 0 <= t < |m.k.slots| :: !Open(m.k, t, Promised(m.fs, t))
  }

  ghost predicate OpensNothing(k: Kernel, f: Frame, r: (Kernel, Next)) {
    && |r.0.slots| == |k.slots|
    && (r.1.Stuck? || forall t | 0 <= t < |k.slots| :: Open(r.0, t, PromisesNext(r.1, t)) ==> Open(k, t, Promises(f, t)))
  }

  lemma WakeOpensNothing(k: Kernel, t: TaskId, pc: WakePc)
    requires k.WellFormed() && FrameOk(Wake(t, pc), |k.queues|, |k.slots|)
    ensures OpensNothing(k, Wake(t, pc), WakeStep(k, t, pc))
  {}

  lemma SpawnOpensNothing(k: Kernel, t: TaskId, p: Prio, pc: SpawnPc)
    requires k.WellFormed() && FrameOk(Spawn(t, p, pc), |k.queues|, |k.slots|)
    ensures OpensNothing(k, Spawn(t, p, pc), SpawnStep(k, t, p, pc))
  {}

  lemma WakeSectionOpensNothing(k: Kernel, t: TaskId)
    requires k.WellFormed() && t < |k.slots|
    ensures forall u | 0 <= u < |k.slots| :: Open(WakeSection(k, t), u, false) ==> Open(k, u, false)
  {}

  lemma DespawnOpensNothing(k: Kernel, t: TaskId)
    requires k.WellFormed() && t < |k.slots|
    ensures forall u | 0 <= u < |k.slots| :: Open(DespawnSection(k, t), u, false) ==> Open(k, u, false)
  {
    var s := k.slots[t];
    var k1 := k.Put(t, s.(spawned := false, joinWaker := None));
    if s.joinWaker.Some? { WakeSectionOpensNothing(k1, s.joinWaker.value); }
    forall u | 0 <= u < |k.slots| && Open(DespawnSection(k, t), u, false) ensures Open(k, u, false) {
      assert Open(k1, u, false);
    }
  }

  lemma HoldOpensNothing(k: Kernel, p: Prio, t: TaskId, pc: HoldPc)
    requires k.WellFormed() && FrameOk(Soft(Running(p, Hold(t, pc))), |k.queues|, |k.slots|)
    ensures OpensNothing(k, Soft(Running(p, Hold(t, pc))), HoldStep(k, p, t, pc))
  {
    if pc == Despawn {
      DespawnOpensNothing(k, t);
      var r := HoldStep(k, p, t, pc);
      forall u | 0 <= u < |k.slots| && Open(r.0, u, PromisesNext(r.1, u)) ensures Open(k, u, false) {
        assert Open(DespawnSection(k, t), u, false);
      }
    }
  }

  lemma TickOpensNothing(k: Kernel, f: Frame)
    requires k.WellFormed() && FrameOk(f, |k.queues|, |k.slots|)
    ensures OpensNothing(k, f, TopStep(k, f))
  {
    match f
    case Wake(t, pc) => WakeOpensNothing(k, t, pc);
    case Spawn(t, p, pc) => SpawnOpensNothing(k, t, p, pc);
    case Soft(Running(p, Hold(t, pc))) => HoldOpensNothing(k, p, t, pc);
    case _ =>
  }

  lemma StepKeepsAnswerable(m: Machine, a: Action, m': Machine)
    requires Control(m) && Answerable(m) && Step(m, a) == Some(m')
    ensures Answerable(m')
  {
    match a
    case Tick =>
      TickOpensNothing(m.k, m.fs.top);
      var (k', next) := TopStep(m.k, m.fs.top);
      forall t | 0 <= t < |m.k.slots| ensures !Open(m'.k, t, Promised(m'.fs, t)) {
        if Open(m'.k, t, Promised(m'.fs, t)) {
          assert Open(k', t, PromisesNext(next, t));
          assert Open(m.k, t, Promised(m.fs, t));
        }
      }
    case MaskedWake(t) =>
      WakeSectionOpensNothing(m.k, t);
      forall u | 0 <= u < |m.k.slots| ensures !Open(m'.k, u, Promised(m'.fs, u)) {
        if Open(m'.k, u, false) { assert Open(m.k, u, false); }
      }
    case _ =>
      forall u | 0 <= u < |m.k.slots| ensures !Open(m'.k, u, Promised(m'.fs, u)) {
        assert Promised(m'.fs, u) == Promised(m.fs, u);
      }
  }

  // ---- all runs ----

  /** Does the run contain a dispatch of `t`, the step that loads its poll function? */
  predicate Dispatches(m: Machine, acts: seq<Action>, t: TaskId)
    decreases |acts|
  {
    acts != [] && Step(m, acts[0]).Some?
    && ((acts[0] == Tick && DispatchOf(m.fs.top, t)) || Dispatches(Step(m, acts[0]).value, acts[1..], t))
  }

  predicate DispatchOf(f: Frame, t: TaskId) {
    f.Soft? && f.soft.Running? && f.soft.run == Hold(t, Dispatch)
  }

  /** Only a dispatch of `t` settles what is owed to `t`. */
  lemma OwedUntilDispatch(m: Machine, a: Action, m': Machine, t: TaskId)
    requires Control(m) && Step(m, a) == Some(m') && t < |m.k.slots|
    requires m.k.slots[t].owed && !(a == Tick && DispatchOf(m.fs.top, t))
    ensures t < |m'.k.slots| && m'.k.slots[t].owed
  {
    match a
    case Tick => TickKeepsOwed(m.k, m.fs.top, t);
    case MaskedWake(u) => WakeSectionKeepsOwed(m.k, u, t);
    case _ => assert m'.k == m.k;
  }

  lemma WakeSectionKeepsOwed(k: Kernel, u: TaskId, t: TaskId)
    requires k.WellFormed() && u < |k.slots| && t < |k.slots| && k.slots[t].owed
    ensures WakeSection(k, u).slots[t].owed
  {}

  lemma WakeKeepsOwed(k: Kernel, u: TaskId, pc: WakePc, t: TaskId)
    requires k.WellFormed() && FrameOk(Wake(u, pc), |k.queues|, |k.slots|) && t < |k.slots| && k.slots[t].owed
    ensures WakeStep(k, u, pc).0.slots[t].owed
  {}

  lemma SpawnKeepsOwed(k: Kernel, u: TaskId, p: Prio, pc: SpawnPc, t: TaskId)
    requires k.WellFormed() && FrameOk(Spawn(u, p, pc), |k.queues|, |k.slots|) && t < |k.slots| && k.slots[t].owed
    ensures SpawnStep(k, u, p, pc).0.slots[t].owed
  {}

  lemma HoldKeepsOwed(k: Kernel, p: Prio, u: TaskId, pc: HoldPc, t: TaskId)
    requires k.WellFormed() && FrameOk(Soft(Running(p, Hold(u, pc))), |k.queues|, |k.slots|)
    requires t < |k.slots| && k.slots[t].owed && !(u == t && pc == Dispatch)
    ensures HoldStep(k, p, u, pc).0.slots[t].owed
  {
    var s := k.slots[u];
    if pc == Despawn && s.joinWaker.Some? {
      WakeSectionKeepsOwed(k.Put(u, s.(spawned := false, joinWaker := None)), s.joinWaker.value, t);
    }
  }

  lemma TickKeepsOwed(k: Kernel, f: Frame, t: TaskId)
    requires k.WellFormed() && FrameOk(f, |k.queues|, |k.slots|) && t < |k.slots|
    requires k.slots[t].owed && !DispatchOf(f, t)
    ensures TopStep(k, f).0.slots[t].owed
  {
    match f
    case Wake(u, pc) => WakeKeepsOwed(k, u, pc, t);
    case Spawn(u, p, pc) => SpawnKeepsOwed(k, u, p, pc, t);
    case Soft(Running(p, Hold(u, pc))) => HoldKeepsOwed(k, p, u, pc, t);
    case _ =>
  }

  lemma {:induction false} RunKeepsOwed(m: Machine, acts: seq<Action>, m': Machine, t: TaskId)
    requires Control(m) && Answerable(m) && Run(m, acts) == Some(m') && t < |m.k.slots|
    requires m.k.slots[t].owed && !Dispatches(m, acts, t)
    ensures Control(m') && Answerable(m') && t < |m'.k.slots| && m'.k.slots[t].owed
    decreases |acts|
  {
    if acts != [] {
      var next := Step(m, acts[0]).value;
      StepKeepsControl(m, acts[0], next);
      StepKeepsAnswerable(m, acts[0], next);
      OwedUntilDispatch(m, acts[0], next, t);
      RunKeepsOwed(next, acts[1..], m', t);
    }
  }

  lemma {:induction false} RunKeepsAnswerable(m: Machine, acts: seq<Action>, m': Machine)
    requires Control(m) && Answerable(m) && Run(m, acts) == Some(m')
    ensures Control(m') && Answerable(m')
    decreases |acts|
  {
    if acts != [] {
      var next := Step(m, acts[0]).value;
      StepKeepsControl(m, acts[0], next);
      StepKeepsAnswerable(m, acts[0], next);
      RunKeepsAnswerable(next, acts[1..], m');
    }
  }

  /** The three steps that wake `t`: `wake_task` loads its executor pointer; user code wakes it inside its
      own critical section; the completion section of a task it joined takes its waker. */
  predicate Wakens(m: Machine, a: Action, t: TaskId) {
    || (a == Tick && m.fs.Over? && m.fs.top == Wake(t, LoadExec))
    || a == MaskedWake(t)
    || (a == Tick && match m.fs
                     case Over(Soft(Running(_, Hold(w, Despawn))), _) =>
                       w < |m.k.slots| && m.k.slots[w].joinWaker == Some(t)
                     case _ => false)
  }

  /** A wake of a task whose pointer is set leaves it owed a poll. */
  lemma WakensOwes(m: Machine, a: Action, m': Machine, t: TaskId)
    requires Control(m) && Step(m, a) == Some(m') && Wakens(m, a, t) && t < |m.k.slots|
    requires m.k.slots[t].exec.Some?
    ensures t < |m'.k.slots| && m'.k.slots[t].owed
  {
    hide SpawnStep, JoinStep;
    StepKeepsControl(m, a, m');
  }

  /** No lost wake.  Take any reachable state `m0` in which a task `t` that is spawned, enqueued and
      unfinished is woken, and any later state `m2`.  Either a dispatch of `t` happened since, or `t` is
      linked in a run queue, or some activation has claimed it for queueing, is about to, or has just
      taken it off its queue. */
  lemma NoLostWake(n: nat, tasks: nat, before: seq<Action>, m0: Machine, a: Action, m1: Machine,
                   after: seq<Action>, m2: Machine, t: TaskId)
    requires 0 < n && Run(Init(n, tasks), before) == Some(m0) && RespawnsQuiescent(Init(n, tasks), before)
    requires Enlisted(m0, t) && Wakens(m0, a, t)
    requires Step(m0, a) == Some(m1) && Run(m1, after) == Some(m2) && !Dispatches(m1, after, t)
    ensures Linked(m2.k.queues, t) == 1 || Claimants(m2.fs, t) == 1 || Promised(m2.fs, t)
  {
    InitNesting(n, tasks);
    InitOwned(n, tasks);
    LiveTaskHasPointer(n, tasks, before, m0, t);
    RunKeepsAnswerable(Init(n, tasks), before, m0);
    RunKeepsOwned(Init(n, tasks), before, m0);
    WakensOwes(m0, a, m1, t);
    OwedIsAnswered(m0, a, m1, after, m2, t);
  }

  /** The same of any task whose pointer is set, live or not, whatever the application respawns. */
  lemma WakeThroughPointerIsKept(n: nat, tasks: nat, before: seq<Action>, m0: Machine, a: Action, m1: Machine,
                                 after: seq<Action>, m2: Machine, t: TaskId)
    requires 0 < n && Run(Init(n, tasks), before) == Some(m0)
    requires t < |m0.k.slots| && m0.k.slots[t].exec.Some? && Wakens(m0, a, t)
    requires Step(m0, a) == Some(m1) && Run(m1, after) == Some(m2) && !Dispatches(m1, after, t)
    ensures Linked(m2.k.queues, t) == 1 || Claimants(m2.fs, t) == 1 || Promised(m2.fs, t)
  {
    InitNesting(n, tasks);
    InitOwned(n, tasks);
    RunKeepsAnswerable(Init(n, tasks), before, m0);
    RunKeepsOwned(Init(n, tasks), before, m0);
    WakensOwes(m0, a, m1, t);
    OwedIsAnswered(m0, a, m1, after, m2, t);
  }

  /** A task owed a poll is queued, claimed, or about to be dispatched, until its next dispatch. */
  lemma OwedIsAnswered(m0: Machine, a: Action, m1: Machine, after: seq<Action>, m2: Machine, t: TaskId)
    requires Control(m0) && Owned(m0) && Answerable(m0) && Step(m0, a) == Some(m1)
    requires t < |m1.k.slots| && m1.k.slots[t].owed && Run(m1, after) == Some(m2) && !Dispatches(m1, after, t)
    ensures Linked(m2.k.queues, t) == 1 || Claimants(m2.fs, t) == 1 || Promised(m2.fs, t)
  {
    hide Step, Control, Run;
    StepKeepsControl(m0, a, m1);
    StepKeepsAnswerable(m0, a, m1);
    StepKeepsOwned(m0, a, m1);
    RunKeepsOwed(m1, after, m2, t);
    RunKeepsOwned(m1, after, m2);
    assert !Open(m2.k, t, Promised(m2.fs, t));
    assert Linked(m2.k.queues, t) + Claimants(m2.fs, t) == Flag(m2.k, t);
  }
}
