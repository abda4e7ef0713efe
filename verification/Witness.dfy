/** The hazards are real: from power-up, with two priorities and two tasks, a run of safe respawns leads
    to the states from which Hazard.dfy, LateWake.dfy and Stranding.dfy go wrong.  `main` spawns task 0
    at priority 0 and task 1 at priority 1; task 0 is polled and returns Pending; task 1 is polled. */
module Witness {
  import opened Wrappers
  import opened Kernel
  import opened Machine
  import opened Nesting
  import opened Binding
  import opened Lifecycle
  import opened Hazard
  import opened LateWake
  import opened Joining
  import opened Reach
  import opened Stranding
  import opened Ownership
  import PassRefinement

  // ---- the pieces of the run ----

  /** The slot once its task has been spawned at `p`. */
  function Spawned(p: Prio): Slot {
    FRESH_SLOT.(spawned := true, queued := true, exec := Some(p), home := Some(p), pollFn := PollFuture, cell := Live)
  }

  predicate BootOk(k: Kernel) {
    k.WellFormed() && |k.slots| == 2 && |k.queues| == 2
  }

  /** `main` spawns a fresh task: claim, initialise. */
  lemma BootCreates(m: Machine, t: TaskId) returns (m': Machine)
    requires BootOk(m.k) && m.fs == Over(Main, Empty) && !m.mie && t < 2 && m.k.slots[t] == FRESH_SLOT
    ensures Reaches(m, m', Proper(1)) && m' == Machine(m.k.(slots := m.k.slots[t := FRESH_SLOT.(spawned := true, pollFn := PollFuture, cell := Live)]),
                                            false, Over(Spawn(t, t, HoldToken), m.fs))
  {
    hide SoftStep, JoinStep, WakeStep, PendSection, EnqueueSection;
    var m1 := Step(m, CallSpawn(t, t)).value;
    var m2 := Step(m1, Tick).value;
    assert m2.k.slots == m.k.slots[t := FRESH_SLOT.(spawned := true)];
    m' := BootInitialises(m2, t);
    assert m'.k.slots == m.k.slots[t := FRESH_SLOT.(spawned := true, pollFn := PollFuture, cell := Live)];
    First(m1, Tick, m2, m', Proper(1));
    First(m, CallSpawn(t, t), m1, m', Proper(1));
  }

  lemma BootInitialises(m: Machine, t: TaskId) returns (m': Machine)
    requires BootOk(m.k) && t < 2 && m.fs == Over(Spawn(t, t, ClearResult), Over(Main, Empty)) && !m.mie
    requires m.k.slots[t] == FRESH_SLOT.(spawned := true)
    ensures Reaches(m, m', Proper(1)) && m' == Machine(m.k.(slots := m.k.slots[t := FRESH_SLOT.(spawned := true, pollFn := PollFuture, cell := Live)]),
                                            false, Over(Spawn(t, t, HoldToken), Over(Main, Empty)))
  {
    hide SoftStep, JoinStep, WakeStep, PendSection, EnqueueSection;
    var m1 := Step(m, Tick).value;
    var m2 := Step(m1, Tick).value;
    var m3 := Step(m2, Tick).value;
    m' := Step(m3, Tick).value;
    assert m'.k.slots == m.k.slots[t := FRESH_SLOT.(spawned := true, pollFn := PollFuture, cell := Live)];
    Stay(m', Proper(1));
    First(m3, Tick, m', m', Proper(1));
    First(m2, Tick, m3, m', Proper(1));
    First(m1, Tick, m2, m', Proper(1));
    First(m, Tick, m1, m', Proper(1));
  }

  /** And enqueues it: mark, push, decide to pend. */
  lemma BootEnqueues(m: Machine, t: TaskId) returns (m': Machine)
    requires BootOk(m.k) && !m.mie && t < 2 && m.fs == Over(Spawn(t, t, HoldToken), Over(Main, Empty))
    requires m.k.slots[t] == FRESH_SLOT.(spawned := true, pollFn := PollFuture, cell := Live) && m.k.prioStack == []
    ensures Reaches(m, m', Proper(1))
    ensures m' == Machine(m.k.(slots := m.k.slots[t := Spawned(t)], queues := m.k.queues[t := m.k.queues[t] + [t]],
                               ready := m.k.ready + {t}, entered := m.k.entered[t := m.k.entered[t] + [t]],
                               marker := true, msip := true), false, Over(Main, Empty))
  {
    hide RunsUserCode, SoftStep, JoinStep, WakeStep, EnqueueSection, PendSection;
    var m1 := Step(m, Tick).value;
    var m2 := Step(m1, Tick).value;
    m' := BootPushes(m2, t);
    assert m'.k.slots == m.k.slots[t := Spawned(t)];
    First(m1, Tick, m2, m', Proper(1));
    First(m, Tick, m1, m', Proper(1));
  }

  lemma BootPushes(m: Machine, t: TaskId) returns (m': Machine)
    requires BootOk(m.k) && !m.mie && t < 2 && m.fs == Over(Spawn(t, t, Push), Over(Main, Empty)) && m.k.prioStack == []
    requires m.k.slots[t] == FRESH_SLOT.(spawned := true, queued := true, pollFn := PollFuture, cell := Live)
    ensures Reaches(m, m', Proper(1))
    ensures m' == Machine(m.k.(slots := m.k.slots[t := Spawned(t)], queues := m.k.queues[t := m.k.queues[t] + [t]],
                               ready := m.k.ready + {t}, entered := m.k.entered[t := m.k.entered[t] + [t]],
                               marker := true, msip := true), false, Over(Main, Empty))
  {
    hide RunsUserCode, SoftStep, JoinStep, WakeStep;
    var m1 := Step(m, Tick).value;
    m' := Step(m1, Tick).value;
    assert t in m1.k.ready;
    Stay(m', Proper(1));
    First(m1, Tick, m', m', Proper(1));
    First(m, Tick, m1, m', Proper(1));
  }

  /** `try_preempt` grants the executor of the only task in queue `p`, which is dispatched. */
  lemma PassPolls(m: Machine, p: Prio, t: TaskId, below: Frames) returns (m': Machine)
    requires BootOk(m.k) && m.fs == Over(Soft(TryPreempt), below) && m.k.prioStack == [] && p < 2 && t < 2
    requires p in m.k.ready && (forall q | q in m.k.ready :: p <= q) && m.k.queues[p] == [t] && m.k.slots[t] == Spawned(p)
    ensures Reaches(m, m', Proper(1))
    ensures m' == Machine(m.k.(prioStack := [p], slots := m.k.slots[t := Spawned(p).(queued := false)],
                               queues := m.k.queues[p := []], left := m.k.left[p := m.k.left[p] + [t]]),
                          true, Over(Soft(Running(p, Hold(t, Polling))), below))
  {
    hide RunsUserCode, SpawnStep, JoinStep, WakeStep, RunStep;
    var m1 := Step(m, Tick).value;
    assert m1.fs.top == Soft(EnableIrq(p)) && m1.k == m.k.(prioStack := [p]);
    var m2 := Step(m1, Tick).value;
    m' := PassDispatches(m2, p, t, below);
    First(m1, Tick, m2, m', Proper(1));
    First(m, Tick, m1, m', Proper(1));
  }

  lemma PassDispatches(m: Machine, p: Prio, t: TaskId, below: Frames) returns (m': Machine)
    requires BootOk(m.k) && m.mie && m.fs == Over(Soft(Running(p, Dequeue)), below) && p < 2 && t < 2
    requires m.k.queues[p] == [t] && m.k.slots[t] == Spawned(p)
    ensures Reaches(m, m', Proper(1))
    ensures m' == Machine(m.k.(slots := m.k.slots[t := Spawned(p).(queued := false)],
                               queues := m.k.queues[p := []], left := m.k.left[p := m.k.left[p] + [t]]),
                          true, Over(Soft(Running(p, Hold(t, Polling))), below))
  {
    hide RunsUserCode, SpawnStep, JoinStep, WakeStep;
    assert [t][1..] == [];
    var m1 := Step(m, Tick).value;
    m' := Step(m1, Tick).value;
    assert m'.k.slots == m.k.slots[t := Spawned(p).(queued := false)];
    Stay(m', Proper(1));
    First(m1, Tick, m', m', Proper(1));
    First(m, Tick, m1, m', Proper(1));
  }

  /** The future returns Pending and the executor, its queue empty, gives its token back. */
  lemma PassLeaves(m: Machine, p: Prio, t: TaskId, below: Frames) returns (m': Machine)
    requires BootOk(m.k) && m.fs == Over(Soft(Running(p, Hold(t, Polling))), below)
    requires p < 2 && t < 2 && m.k.prioStack == [p] && m.k.queues[p] == []
    ensures Reaches(m, m', Proper(1))
    ensures m' == Machine(m.k.(ready := m.k.ready - {p}, prioStack := []), false, Over(Soft(TryPreempt), below))
  {
    hide SpawnStep, JoinStep, WakeStep, PreemptSection;
    var m1 := Step(m, Tick).value;
    var m2 := Step(m1, Tick).value;
    var m3 := Step(m2, Tick).value;
    m' := Step(m3, Tick).value;
    Stay(m', Proper(1));
    First(m3, Tick, m', m', Proper(1));
    First(m2, Tick, m3, m', Proper(1));
    First(m1, Tick, m2, m', Proper(1));
    First(m, Tick, m1, m', Proper(1));
  }

  /** `main` ends, interrupts are enabled, and the pended software interrupt is taken. */
  lemma BootStarts(m: Machine) returns (m': Machine)
    requires BootOk(m.k) && m.fs == Over(Main, Empty) && m.k.marker && m.k.msip
    ensures Reaches(m, m', Proper(1))
    ensures m' == Machine(m.k.(marker := false, msip := false), false, Over(Soft(TryPreempt), Over(Idle, Empty)))
  {
    hide SpawnStep, JoinStep, WakeStep, PreemptSection, RunStep;
    var m1 := Step(m, Tick).value;
    var m2 := Step(m1, Msi).value;
    var m3 := Step(m2, Tick).value;
    m' := Step(m3, Tick).value;
    Stay(m', Proper(1));
    First(m3, Tick, m', m', Proper(1));
    First(m2, Tick, m3, m', Proper(1));
    First(m1, Msi, m2, m', Proper(1));
    First(m, Tick, m1, m', Proper(1));
  }

  // ---- the run ----

  /** Task 0 is polled for the first time, at priority 0; task 1 waits in the queue of priority 1. */
  predicate FirstPoll(m: Machine) {
    && BootOk(m.k) && m.mie && m.fs == Over(Soft(Running(0, Hold(0, Polling))), Over(Idle, Empty))
    && m.k.slots[0] == Spawned(0).(queued := false) && m.k.slots[1] == Spawned(1)
    && m.k.queues[0] == [] && m.k.queues[1] == [1] && m.k.ready == {0, 1} && m.k.prioStack == [0]
  }

  lemma RunToFirstPoll() returns (m: Machine)
    ensures Reaches(Init(2, 2), m, Proper(1)) && FirstPoll(m)
  {
    hide Step, Suits, Reaches;
    var m0 := Init(2, 2);
    var a := BootCreates(m0, 0);
    var b := BootEnqueues(a, 0);
    var c := BootCreates(b, 1);
    var d := BootEnqueues(c, 1);
    var e := BootStarts(d);
    assert e.k.queues[0] == [0] && e.k.queues[1] == [1] && e.k.ready == {0, 1};
    m := PassPolls(e, 0, 0, Over(Idle, Empty));
    Chain(d, e, m, Proper(1));
    Chain(c, d, m, Proper(1));
    Chain(b, c, m, Proper(1));
    Chain(a, b, m, Proper(1));
    Chain(m0, a, m, Proper(1));
  }

  /** A task of priority 1 is being polled; the task of priority 0 is idle, unfinished, and has returned
      nothing. */
  lemma RunToOrdinary() returns (m: Machine)
    ensures Reaches(Init(2, 2), m, Proper(1))
    ensures Ordinary(m, 0, 1, 0) && PollsTask(m.fs.top, 1) && HandleOk(m, 0) && CanOvertake(m, 0)
  {
    hide Step, Suits, Reaches, Ordinary, PollsTask, HandleOk, CanOvertake;
    var f := RunToFirstPoll();
    var g := PassLeaves(f, 0, 0, Over(Idle, Empty));
    m := PassPolls(g, 1, 1, Over(Idle, Empty));
    Chain(f, g, m, Proper(1));
    Chain(Init(2, 2), f, m, Proper(1));
    EndIsOrdinary(m);
  }

  lemma EndIsOrdinary(m: Machine)
    requires BootOk(m.k) && m.mie && m.fs == Over(Soft(Running(1, Hold(1, Polling))), Over(Idle, Empty))
    requires m.k.slots[0] == Spawned(0).(queued := false) && m.k.queues[0] == [] && m.k.ready == {1} && m.k.prioStack == [1]
    ensures Ordinary(m, 0, 1, 0) && PollsTask(m.fs.top, 1) && HandleOk(m, 0) && CanOvertake(m, 0)
  {
    hide Step;
    assert m.fs.below.below == Empty;
    assert !Gripped(m.fs.below, 0) && !Joins(m.fs.below, 0) && !Respawning(m.fs.below, 0) && Claimants(m.fs.below, 0) == 0;
    assert FramesOk(m.fs.below, 2, 2);
  }

  lemma Route(m: Machine) returns (acts: seq<Action>)
    requires Reaches(Init(2, 2), m, Proper(1))
    ensures Run(Init(2, 2), acts) == Some(m) && RespawnsSafe(Init(2, 2), acts) && JoinsAllWell(Init(2, 2), acts, 1)
  {
    acts :| Leads(Init(2, 2), acts, m, Proper(1));
    SuitedIsSafe(Init(2, 2), acts, Proper(1));
  }

  lemma OrdinaryIsReachable() returns (acts: seq<Action>, m: Machine)
    ensures Run(Init(2, 2), acts) == Some(m) && RespawnsSafe(Init(2, 2), acts) && JoinsAllWell(Init(2, 2), acts, 1)
    ensures Ordinary(m, 0, 1, 0) && PollsTask(m.fs.top, 1) && HandleOk(m, 0) && CanOvertake(m, 0)
  {
    m := RunToOrdinary();
    acts := Route(m);
  }

  // ---- what can go wrong there ----

  /** A run from power-up, all its earlier respawns safe, respawns a quiescent slot in such a way that some
      continuation polls a cell that holds no future. */
  lemma UnsafeRespawnIsReachable() returns (acts: seq<Action>, m: Machine, after: Machine)
    ensures Run(Init(2, 2), acts) == Some(m) && RespawnsSafe(Init(2, 2), acts)
    ensures m.fs.Over? && m.fs.top == Spawn(0, 0, Claim) && Claiming(m, Tick, 0) && Quiescent(m, 0) && !SafeRespawn(m, 0)
    ensures Step(m, Tick) == Some(after) && CanMisuse(after)
  {
    hide Step, RespawnsSafe, Ordinary, Run;
    var m0 := RunToOrdinary();
    var acts0 := Route(m0);
    PassRefinement.ReachableIsLive(2, 2, acts0, m0);
    m, after := QuiescenceIsNotEnough(m0, 0, 1, 0, 7);
    GentlyReached(m0, m);
    Chain(Init(2, 2), m0, m, Proper(1));
    acts := Route(m);
  }

  lemma GentlyReached(m: Machine, m': Machine)
    requires Reaches(m, m')
    ensures Reaches(m, m', Proper(1))
  {
    var acts :| Leads(m, acts, m');
    GentleIsProper(m, acts, 1);
    assert Leads(m, acts, m', Proper(1));
  }

  /** A run from power-up lets a joiner of priority 1 poll the handle of a worker of priority 0, and some
      continuation of that poll parks its waker for good. */
  lemma StrandedJoinerIsReachable() returns (acts: seq<Action>, m: Machine, m1: Machine)
    ensures Run(Init(2, 2), acts) == Some(m) && RespawnsSafe(Init(2, 2), acts)
    ensures HandleOk(m, 0) && Step(m, CallJoin(0)) == Some(m1) && CanStrand(m1, 0, 1)
  {
    hide CanOvertake, CanStrand;
    acts, m := OrdinaryIsReachable();
    m1 := Step(m, CallJoin(0)).value;
    JoinStrandsIff(2, 2, acts, m, 0, 1, m1);
  }

  /** The other way round nothing goes wrong, and it happens too: a run from power-up that uses the handle
      well lets a joiner of priority 0 park its waker for an unfinished worker of priority 1. */
  lemma ParkedJoinerIsReachable() returns (acts: seq<Action>, m: Machine, m': Machine)
    ensures Run(Init(2, 2), acts) == Some(m) && RespawnsSafe(Init(2, 2), acts) && JoinsAllWell(Init(2, 2), acts, 1)
    ensures m.fs.Over? && m.fs.top == Join(1, 0, StoreWaker) && Step(m, Tick) == Some(m')
    ensures |m'.k.slots| == 2 && m'.k.slots[1].spawned && m'.k.slots[1].joinWaker == Some(0)
  {
    hide SoftStep, WakeStep, SpawnStep;
    var f := RunToFirstPoll();
    var g := Step(f, CallJoin(1)).value;
    m := Step(g, Tick).value;
    m' := Step(m, Tick).value;
    assert f.fs.below.below == Empty && HandleOk(f, 1);
    Stay(m, Proper(1));
    First(g, Tick, m, m, Proper(1));
    First(f, CallJoin(1), g, m, Proper(1));
    Chain(Init(2, 2), f, m, Proper(1));
    acts := Route(m);
  }
}
