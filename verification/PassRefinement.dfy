/** The scheduling loop of Scheduler.dfy and the interleaved machine agree: when no interrupt is taken
    and the application does what the tasks' scripts say, a pass of the machine, down to its single
    steps, does to the kernel exactly what `Schedule` does.  So what DrainOrder.dfy proves of the loop
    holds of the machine, from every state the machine can reach. */
module PassRefinement {
  import opened Wrappers
  import opened Kernel
  import opened Machine
  import opened Scheduler
  import Nesting
  import Arming
  import Lifecycle

  // ---- following the scripts ----

  /** The polls each future has left, and what the poll under way has yet to do. */
  datatype Driver = Driver(script: seq<seq<Outcome>>, acts: seq<Act>)

  function Start(s: Turn): Driver { Driver(s.script, []) }

  function HeadOf(script: seq<seq<Outcome>>, t: TaskId): Outcome {
    if t < |script| && script[t] != [] then script[t][0] else Outcome([], None)
  }

  function Advance(script: seq<seq<Outcome>>, t: TaskId): seq<seq<Outcome>> {
    if t < |script| && script[t] != [] then script[t := script[t][1..]] else script
  }

  /** The only action the scripts allow, and what they are left with. */
  function Choice(m: Machine, d: Driver): (Action, Driver) {
    match m.fs
    case Over(Soft(Running(_, Hold(t, Dispatch))), _) =>
      if t < |m.k.slots| && m.k.slots[t].pollFn == PollFuture then (Tick, d.(acts := HeadOf(d.script, t).acts)) else (Tick, d)
    case Over(Soft(Running(_, Hold(t, Polling))), _) =>
      if d.acts == [] then
        var d' := d.(script := Advance(d.script, t));
        (match HeadOf(d.script, t).ready
         case None => (Tick, d')
         case Some(v) => (Ready(v), d'))
      else
        var d' := d.(acts := d.acts[1..]);
        (match d.acts[0]
         case Wakes(u) => (CallWake(u), d')
         case Joins(w) => (CallJoin(w), d')
         case Spawns(u, p, future) =>
           (CallSpawn(u, p),
            if u < |m.k.slots| == |d.script| && !m.k.slots[u].spawned then d'.(script := d.script[u := future]) else d'))
    case _ => (Tick, d)
  }

  /** A run that takes no interrupt and follows the scripts. */
  predicate Obeys(m: Machine, d: Driver, acts: seq<Action>)
    decreases |acts|
  {
    acts == [] || (
      && acts[0] == Choice(m, d).0 && Step(m, acts[0]).Some?
      && Obeys(Step(m, acts[0]).value, Choice(m, d).1, acts[1..]))
  }

  /** A step of a run in which nothing is spawned and no join handle is polled. */
  predicate PlainStep(m: Machine, a: Action) {
    m.fs.Over? && !m.fs.top.Spawn? && !m.fs.top.Join? && !a.CallSpawn? && !a.CallJoin?
  }

  /** `n` steps of the scripts lead from `m` to `m'`, all of them plain if so required. */
  predicate Flow(m: Machine, d: Driver, n: nat, m': Machine, d': Driver, plain: bool)
    decreases n
  {
    if n == 0 then m == m' && d == d'
    else
      var (a, d1) := Choice(m, d);
      && Step(m, a).Some? && (plain ==> PlainStep(m, a))
      && Flow(Step(m, a).value, d1, n - 1, m', d', plain)
  }

  ghost predicate Flows(m: Machine, d: Driver, m': Machine, d': Driver, plain: bool) {
    exists n: nat :: Flow(m, d, n, m', d', plain)
  }

  lemma Done(m: Machine, d: Driver, plain: bool)
    ensures Flows(m, d, m, d, plain)
  {
    assert Flow(m, d, 0, m, d, plain);
  }

  lemma Follow(m: Machine, d: Driver, a: Action, m1: Machine, d1: Driver, m2: Machine, d2: Driver, plain: bool)
    requires Choice(m, d) == (a, d1) && Step(m, a) == Some(m1) && (plain ==> PlainStep(m, a))
    requires Flows(m1, d1, m2, d2, plain)
    ensures Flows(m, d, m2, d2, plain)
  {
    hide Step, Choice, PlainStep;
    var n: nat :| Flow(m1, d1, n, m2, d2, plain);
    assert Flow(m, d, n + 1, m2, d2, plain);
  }

  /** Where the scripts have nothing to say. */
  predicate Unscripted(fs: Frames) {
    fs.Over? && !(fs.top.Soft? && fs.top.soft.Running? && fs.top.soft.run.Hold?
                  && (fs.top.soft.run.hold == Dispatch || fs.top.soft.run.hold == Polling))
  }

  lemma Tick1(m: Machine, d: Driver, m1: Machine, m2: Machine, d2: Driver, plain: bool)
    requires Unscripted(m.fs) && Step(m, Tick) == Some(m1) && (plain ==> PlainStep(m, Tick))
    requires Flows(m1, d, m2, d2, plain)
    ensures Flows(m, d, m2, d2, plain)
  {
    hide Step, PlainStep, Flows;
    Follow(m, d, Tick, m1, d, m2, d2, plain);
  }

  lemma {:induction false} Along(m: Machine, d: Driver, n: nat, m1: Machine, d1: Driver, m2: Machine, d2: Driver, plain: bool)
    requires Flow(m, d, n, m1, d1, plain) && Flows(m1, d1, m2, d2, plain)
    ensures Flows(m, d, m2, d2, plain)
    decreases n
  {
    hide Step, Choice, PlainStep;
    if n > 0 {
      var (a, e) := Choice(m, d);
      Along(Step(m, a).value, e, n - 1, m1, d1, m2, d2, plain);
      Follow(m, d, a, Step(m, a).value, e, m2, d2, plain);
    }
  }

  lemma Connect(m: Machine, d: Driver, m1: Machine, d1: Driver, m2: Machine, d2: Driver, plain: bool)
    requires Flows(m, d, m1, d1, plain) && Flows(m1, d1, m2, d2, plain)
    ensures Flows(m, d, m2, d2, plain)
  {
    var n: nat :| Flow(m, d, n, m1, d1, plain);
    Along(m, d, n, m1, d1, m2, d2, plain);
  }

  /** The scripts leave no choice: every run of that many steps that obeys them ends there. */
  lemma {:induction false} ObeyingRunsAgree(m: Machine, d: Driver, n: nat, m': Machine, d': Driver, plain: bool, acts: seq<Action>)
    requires Flow(m, d, n, m', d', plain) && Obeys(m, d, acts) && |acts| == n
    ensures Run(m, acts) == Some(m')
    decreases n
  {
    hide Step, Choice, PlainStep;
    if n > 0 {
      var (a, e) := Choice(m, d);
      ObeyingRunsAgree(Step(m, a).value, e, n - 1, m', d', plain, acts[1..]);
    }
  }

  /** And there is such a run. */
  lemma {:induction false} SomeRunObeys(m: Machine, d: Driver, n: nat, m': Machine, d': Driver, plain: bool) returns (acts: seq<Action>)
    requires Flow(m, d, n, m', d', plain)
    ensures Obeys(m, d, acts) && |acts| == n && Run(m, acts) == Some(m') && (plain ==> PlainRun(m, acts))
    decreases n
  {
    hide Step, Choice, PlainStep;
    if n == 0 {
      acts := [];
    } else {
      var (a, e) := Choice(m, d);
      var rest := SomeRunObeys(Step(m, a).value, e, n - 1, m', d', plain);
      acts := [a] + rest;
      assert acts[1..] == rest;
    }
  }

  predicate PlainRun(m: Machine, acts: seq<Action>)
    decreases |acts|
  {
    acts != [] ==> PlainStep(m, acts[0]) && (Step(m, acts[0]).Some? ==> PlainRun(Step(m, acts[0]).value, acts[1..]))
  }

  // ---- the acts of a poll ----

  /** The machine's steps are enabled on top of any frames. */
  predicate At(m: Machine, f: Frame, below: Frames) {
    m.k.WellFormed() && m.fs == Over(f, below) && FrameOk(f, |m.k.queues|, |m.k.slots|)
  }

  predicate Polls(m: Machine, p: Prio, u: TaskId, below: Frames) {
    At(m, Soft(Running(p, Hold(u, Polling))), below)
  }

  lemma WakeTailFlows(m: Machine, d: Driver, t: TaskId, p: Prio, below: Frames, plain: bool)
    requires At(m, Wake(t, FetchOr(p)), below) && below.Over?
    ensures var s := m.k.slots[t];
            Flows(m, d, Machine(if s.queued then m.k else Pend(EnqueueSection(m.k.Put(t, s.(queued := true)), t, p)),
                                m.mie, below), d, plain)
  {
    hide Choice, Flows, SpawnStep, JoinStep, SoftStep;
    var m1 := Step(m, Tick).value;
    if m.k.slots[t].queued {
      Done(m1, d, plain);
      Tick1(m, d, m1, m1, d, plain);
    } else {
      var m2 := Step(m1, Tick).value;
      var m3 := Step(m2, Tick).value;
      var end := Step(m3, Tick).value;
      Done(end, d, plain);
      Tick1(m3, d, end, end, d, plain);
      Tick1(m2, d, m3, end, d, plain);
      Tick1(m1, d, m2, end, d, plain);
      Tick1(m, d, m1, end, d, plain);
    }
  }

  /** An uninterrupted call of `wake_task` is its masked section. */
  lemma WakeFlows(m: Machine, d: Driver, p: Prio, u: TaskId, t: TaskId, below: Frames, plain: bool)
    requires Polls(m, p, u, below) && t < |m.k.slots| && d.acts != [] && d.acts[0] == Wakes(t)
    ensures Flows(m, d, m.(k := WakeSection(m.k, t)), d.(acts := d.acts[1..]), plain)
  {
    hide Flows, SpawnStep, JoinStep, SoftStep, EnqueueSection, PendSection;
    var s, d' := m.k.slots[t], d.(acts := d.acts[1..]);
    var end := m.(k := WakeSection(m.k, t));
    var m1 := Step(m, CallWake(t)).value;
    var m2 := Step(m1, Tick).value;
    if s.exec == None {
      Done(end, d', plain);
    } else {
      assert m.k.SlotOk(s);
      WakeTailFlows(m2, d', t, s.exec.value, m.fs, plain);
      assert m2.k.slots[t := s.(owed := true, queued := true)] == m.k.slots[t := s.(owed := true, queued := true)];
    }
    Follow(m1, d', Tick, m2, d', end, d', plain);
    Follow(m, d, CallWake(t), m1, d', end, d', plain);
  }

  lemma JoinFlows(m: Machine, d: Driver, p: Prio, u: TaskId, w: TaskId, below: Frames)
    requires Polls(m, p, u, below) && w < |m.k.slots| && d.acts != [] && d.acts[0] == Joins(w)
    ensures Flows(m, d, m.(k := JoinSection(m.k, w, u)), d.(acts := d.acts[1..]), false)
  {
    hide Flows, SpawnStep, WakeStep, SoftStep;
    var d' := d.(acts := d.acts[1..]);
    var end := m.(k := JoinSection(m.k, w, u));
    var m1 := Step(m, CallJoin(w)).value;
    var m2 := Step(m1, Tick).value;
    Done(end, d', false);
    if m.k.slots[w].result == None { Follow(m2, d', Tick, end, d', end, d', false); }
    Follow(m1, d', Tick, m2, d', end, d', false);
    Follow(m, d, CallJoin(w), m1, d', end, d', false);
  }

  /** An uninterrupted call of `Spawner::spawn` with a token, from its enqueue on. */
  lemma EnqueueFlows(m: Machine, d: Driver, t: TaskId, q: Prio, below: Frames)
    requires At(m, Spawn(t, q, HoldToken), below) && below.Over?
    ensures Flows(m, d, Machine(SpawnSection(m.k, t, q), m.mie, below), d, false)
  {
    hide Choice, Flows, JoinStep, WakeStep, SoftStep, PendSection;
    var end := Machine(SpawnSection(m.k, t, q), m.mie, below);
    var m1 := Step(m, Tick).value;
    var m2 := Step(m1, Tick).value;
    Done(end, d, false);
    if !m.k.slots[t].queued {
      var m3 := Step(m2, Tick).value;
      Tick1(m3, d, end, end, d, false);
      Tick1(m2, d, m3, end, d, false);
    }
    Tick1(m1, d, m2, end, d, false);
    Tick1(m, d, m1, end, d, false);
  }

  /** An uninterrupted `TaskStorage::spawn` of a claimed slot. */
  lemma CreateFlows(m: Machine, d: Driver, t: TaskId, q: Prio, below: Frames)
    requires At(m, Spawn(t, q, ClearResult), below) && m.k.slots[t].spawned
    ensures Flows(m, d, Machine(CreateSection(m.k, t), m.mie, Over(Spawn(t, q, HoldToken), below)), d, false)
  {
    hide Choice, Flows, JoinStep, WakeStep, SoftStep, PendSection, EnqueueSection;
    var m1 := Step(m, Tick).value;
    var m2 := Step(m1, Tick).value;
    var m3 := Step(m2, Tick).value;
    var end := Step(m3, Tick).value;
    assert end.k.slots == CreateSection(m.k, t).slots;
    Done(end, d, false);
    Tick1(m3, d, end, end, d, false);
    Tick1(m2, d, m3, end, d, false);
    Tick1(m1, d, m2, end, d, false);
    Tick1(m, d, m1, end, d, false);
  }

  lemma ClaimThenCreate(k: Kernel, t: TaskId)
    requires k.WellFormed() && t < |k.slots|
    ensures CreateSection(k.Put(t, k.slots[t].(spawned := true)), t) == CreateSection(k, t)
  {
    assert CreateSection(k.Put(t, k.slots[t].(spawned := true)), t).slots == CreateSection(k, t).slots;
  }

  lemma SpawnFlows(m: Machine, d: Driver, s: Turn, p: Prio, u: TaskId, below: Frames)
    requires Polls(m, p, u, below) && s.Sized() && m.k == s.k && d.script == s.script
    requires d.acts != [] && d.acts[0].Spawns? && ActOk(d.acts[0], |m.k.slots|, |m.k.queues|)
    ensures var s' := Perform(s, u, d.acts[0]);
            Flows(m, d, m.(k := s'.k), Driver(s'.script, d.acts[1..]), false)
  {
    hide Flows, JoinStep, WakeStep, SoftStep, PendSection, EnqueueSection, SpawnSection, CreateSection, Finite;
    var t, q := d.acts[0].t, d.acts[0].p;
    var s' := Perform(s, u, d.acts[0]);
    var end, d' := m.(k := s'.k), Driver(s'.script, d.acts[1..]);
    var m1 := Step(m, CallSpawn(t, q)).value;
    var m2 := Step(m1, Tick).value;
    if m.k.slots[t].spawned {
      Done(end, d', false);
    } else {
      var m3 := Machine(CreateSection(m2.k, t), m.mie, Over(Spawn(t, q, HoldToken), m.fs));
      CreateFlows(m2, d', t, q, m.fs);
      EnqueueFlows(m3, d', t, q, m.fs);
      ClaimThenCreate(m.k, t);
      Connect(m2, d', m3, d', end, d', false);
    }
    Follow(m1, d', Tick, m2, d', end, d', false);
    Follow(m, d, CallSpawn(t, q), m1, d', end, d', false);
  }

  lemma ActFlows(m: Machine, d: Driver, s: Turn, p: Prio, u: TaskId, below: Frames)
    requires Polls(m, p, u, below) && s.Sized() && m.k == s.k && d.script == s.script
    requires d.acts != [] && ActOk(d.acts[0], |m.k.slots|, |m.k.queues|)
    ensures var s' := Perform(s, u, d.acts[0]);
            Flows(m, d, m.(k := s'.k), Driver(s'.script, d.acts[1..]), false)
  {
    match d.acts[0]
    case Wakes(t) => WakeFlows(m, d, p, u, t, below, false);
    case Joins(w) => JoinFlows(m, d, p, u, w, below);
    case Spawns(_, _, _) => SpawnFlows(m, d, s, p, u, below);
  }

  /** From the `i`th act of a poll to the last. */
  lemma {:induction false} ActsFlow(m: Machine, s: Turn, p: Prio, u: TaskId, acts: seq<Act>, i: nat, below: Frames, plain: bool)
    requires s.Sized() && u < |s.k.slots| && ActsOk(acts, |s.k.slots|, |s.k.queues|) && i <= |acts|
    requires Polls(m, p, u, below) && (plain ==> acts == [])
    requires m.k == PerformAll(s, u, acts[..i]).k
    ensures var s' := PerformAll(s, u, acts);
            Flows(m, Driver(PerformAll(s, u, acts[..i]).script, acts[i..]), m.(k := s'.k), Driver(s'.script, []), plain)
    decreases |acts| - i
  {
    hide Flows, Perform, ActOk;
    var si := PerformAll(s, u, acts[..i]);
    if i == |acts| {
      assert acts[..i] == acts && acts[i..] == [];
      Done(m, Driver(si.script, []), plain);
    } else {
      var m1 := m.(k := Perform(si, u, acts[i]).k);
      assert acts[..i + 1][..i] == acts[..i];
      assert acts[i..][1..] == acts[i + 1..];
      ActFlows(m, Driver(si.script, acts[i..]), si, p, u, below);
      ActsFlow(m1, s, p, u, acts, i + 1, below, plain);
      var s' := PerformAll(s, u, acts);
      Connect(m, Driver(si.script, acts[i..]), m1, Driver(PerformAll(s, u, acts[..i + 1]).script, acts[i + 1..]),
              m.(k := s'.k), Driver(s'.script, []), plain);
    }
  }

  // ---- a poll ----

  /** The four stores before the completion section, one by one. */
  lemma FinishIsSection(k: Kernel, t: TaskId, v: Value, k': Kernel)
    requires k.WellFormed() && t < |k.slots|
    requires var s := k.slots[t];
             var k1 := k.Put(t, s.(result := Some(v), output := Some(v)));
             var k2 := k1.Put(t, k1.slots[t].(exec := None));
             var k3 := k2.Put(t, k2.slots[t].(cell := Dropped));
             k' == k3.Put(t, k3.slots[t].(pollFn := PollExited))
    ensures DespawnSection(k', t) == FinishSection(k, t, v)
  {
    assert k'.slots == k.slots[t := k'.slots[t]];
  }

  lemma FinishTailFlows(m: Machine, d: Driver, p: Prio, t: TaskId, below: Frames, plain: bool)
    requires At(m, Soft(Running(p, Hold(t, DropFuture))), below)
    ensures var k2 := m.k.Put(t, m.k.slots[t].(cell := Dropped));
            var k3 := k2.Put(t, k2.slots[t].(pollFn := PollExited));
            Flows(m, d, Machine(DespawnSection(k3, t), m.mie, Over(Soft(Running(p, Dequeue)), below)), d, plain)
  {
    hide Choice, Flows, RunsUserCode, WakeStep, SpawnStep, JoinStep, PreemptSection, CompleteSection, PopSection, WakeSection, DespawnSection, DrainedSection;
    var m1 := Step(m, Tick).value;
    var m2 := Step(m1, Tick).value;
    var end := Step(m2, Tick).value;
    Done(end, d, plain);
    Tick1(m2, d, end, end, d, plain);
    Tick1(m1, d, m2, end, d, plain);
    Tick1(m, d, m1, end, d, plain);
  }

  lemma FinishStoresFlow(m: Machine, d: Driver, p: Prio, t: TaskId, v: Value, below: Frames, plain: bool)
    requires At(m, Soft(Running(p, Hold(t, StoreResult(v)))), below)
    ensures Flows(m, d, Machine(FinishSection(m.k, t, v), m.mie, Over(Soft(Running(p, Dequeue)), below)), d, plain)
  {
    hide Choice, Flows, RunsUserCode, WakeStep, SpawnStep, JoinStep, PreemptSection, CompleteSection, PopSection, WakeSection, DespawnSection, DrainedSection;
    var m1 := Step(m, Tick).value;
    var m2 := Step(m1, Tick).value;
    FinishTailFlows(m2, d, p, t, below, plain);
    var k3 := m2.k.Put(t, m2.k.slots[t].(cell := Dropped));
    var k4 := k3.Put(t, k3.slots[t].(pollFn := PollExited));
    FinishIsSection(m.k, t, v, k4);
    var end := Machine(DespawnSection(k4, t), m.mie, Over(Soft(Running(p, Dequeue)), below));
    Tick1(m1, d, m2, end, d, plain);
    Tick1(m, d, m1, end, d, plain);
  }

  lemma FinishFlows(m: Machine, d: Driver, p: Prio, t: TaskId, v: Value, below: Frames, plain: bool)
    requires Polls(m, p, t, below) && d.acts == [] && HeadOf(d.script, t).ready == Some(v)
    ensures Flows(m, d, Machine(FinishSection(m.k, t, v), m.mie, Over(Soft(Running(p, Dequeue)), below)),
                  Driver(Advance(d.script, t), []), plain)
  {
    hide Flows, WakeStep, SpawnStep, JoinStep, HoldStep, FinishSection;
    var d' := Driver(Advance(d.script, t), []);
    var m1 := Step(m, Ready(v)).value;
    FinishStoresFlow(m1, d', p, t, v, below, plain);
    var end := Machine(FinishSection(m.k, t, v), m.mie, Over(Soft(Running(p, Dequeue)), below));
    Follow(m, d, Ready(v), m1, d', end, d', plain);
  }

  /** Every poll a script still holds is plain. */
  predicate PlainScript(script: seq<seq<Outcome>>) {
    forall t, i | 0 <= t < |script| && 0 <= i < |script[t]| :: script[t][i].acts == []
  }

  lemma PollFlows(m: Machine, s: Turn, p: Prio, t: TaskId, below: Frames, plain: bool)
    requires Polls(m, p, t, below) && m.k == s.k && InOrder(s) && s.k.slots[t].pollFn == PollFuture
    requires plain ==> PlainScript(s.script)
    ensures Finite(s.script[t], |s.k.slots|, |s.k.queues|)
    ensures var s' := PollTurn(s, t);
            Flows(m, Driver(s.script, HeadOf(s.script, t).acts),
                  Machine(s'.k, m.mie, Over(Soft(Running(p, Dequeue)), below)), Start(s'), plain)
  {
    hide Flows, Synced, Finite, PerformAll, ActOk;
    assert ScriptOk(s.k, t, s.script[t]);
    TailIsFinite(s.script[t], |s.k.slots|, |s.k.queues|);
    var o := s.script[t][0];
    PerformAllKeepsOrder(s, t, o.acts);
    PerformNothing(s, t, o.acts[..0]);
    ActsFlow(m, s, p, t, o.acts, 0, below, plain);
    assert o.acts[0..] == o.acts;
    var s1, s' := PerformAll(s, t, o.acts), PollTurn(s, t);
    var m1, d1 := m.(k := s1.k), Driver(s1.script, []);
    var end := Machine(s'.k, m.mie, Over(Soft(Running(p, Dequeue)), below));
    PollEnds(m1, d1, p, t, below, plain, o.ready);
    Connect(m, Driver(s.script, o.acts), m1, d1, end, Start(s'), plain);
  }

  lemma PerformNothing(s: Turn, u: TaskId, acts: seq<Act>)
    requires s.Sized() && u < |s.k.slots| && acts == []
    ensures PerformAll(s, u, acts) == s
  {}

  lemma PollEnds(m: Machine, d: Driver, p: Prio, t: TaskId, below: Frames, plain: bool, ready: Option<Value>)
    requires Polls(m, p, t, below) && d.acts == [] && HeadOf(d.script, t).ready == ready
    ensures Flows(m, d, Machine(if ready.Some? then FinishSection(m.k, t, ready.value) else m.k, m.mie,
                                Over(Soft(Running(p, Dequeue)), below)), Driver(Advance(d.script, t), []), plain)
  {
    hide Flows, FinishSection;
    match ready
    case None =>
      var end, d' := Machine(m.k, m.mie, Over(Soft(Running(p, Dequeue)), below)), Driver(Advance(d.script, t), []);
      Done(end, d', plain);
      Follow(m, d, Tick, end, d', end, d', plain);
    case Some(v) => FinishFlows(m, d, p, t, v, below, plain);
  }

  // ---- the loops ----

  lemma TurnFlows(m: Machine, s: Turn, p: Prio, below: Frames, plain: bool)
    requires At(m, Soft(Running(p, Dequeue)), below) && m.k == s.k && InOrder(s) && p in s.k.prioStack
    requires s.k.queues[p] != [] && (plain ==> PlainScript(s.script))
    ensures var s' := TakeTurn(s, p); Flows(m, Start(s), m.(k := s'.k), Start(s'), plain)
  {
    hide Flows, PollTurn, Synced, Runnable, WakeStep, SpawnStep, JoinStep, PreemptSection, CompleteSection;
    PopKeepsOrder(s, p);
    TurnHasPollFn(s, p);
    var t, s1, s' := s.k.queues[p][0], s.(k := Popped(s.k, p)), TakeTurn(s, p);
    var d := Start(s);
    var end := m.(k := s'.k);
    var m1 := Step(m, Tick).value;
    var m2 := Step(m1, Tick).value;
    if s1.k.slots[t].pollFn == PollFuture {
      PollFlows(m2, s1, p, t, below, plain);
      Follow(m1, d, Tick, m2, Driver(s.script, HeadOf(s.script, t).acts), end, Start(s'), plain);
    } else {
      Done(end, d, plain);
      Follow(m1, d, Tick, m2, d, end, d, plain);
    }
    Tick1(m, d, m1, end, Start(s'), plain);
  }

  lemma TurnHasPollFn(s: Turn, p: Prio)
    requires InOrder(s) && p < |s.k.queues| && s.k.queues[p] != []
    ensures Popped(s.k, p).slots[s.k.queues[p][0]].pollFn != Unset
  {}

  lemma TurnIsPlain(s: Turn, p: Prio)
    requires InOrder(s) && p < |s.k.queues| && s.k.queues[p] != [] && PlainScript(s.script)
    ensures PlainScript(TakeTurn(s, p).script)
  {
    var t, s1 := s.k.queues[p][0], s.(k := Popped(s.k, p));
    if s1.k.slots[t].pollFn == PollFuture { PerformNothing(s1, t, s.script[t][0].acts); }
  }

  lemma {:induction false} RunFlows(m: Machine, s: Turn, p: Prio, below: Frames, plain: bool)
    requires At(m, Soft(Running(p, Dequeue)), below) && m.k == s.k && InOrder(s) && p in s.k.prioStack
    requires plain ==> PlainScript(s.script)
    ensures var s' := RunExecutor(s, p);
            && Flows(m, Start(s), Machine(s'.k, m.mie, Over(Soft(DisableIrq(p)), below)), Start(s'), plain)
            && (plain ==> PlainScript(s'.script))
    decreases Load(s.script), Total(s.k.queues)
  {
    hide Flows, TakeTurn, Synced, Runnable, PlainScript, Load, Total, WakeStep, SpawnStep, JoinStep, HoldStep, PreemptSection, CompleteSection;
    var s' := RunExecutor(s, p);
    var end := Machine(s'.k, m.mie, Over(Soft(DisableIrq(p)), below));
    if s.k.queues[p] == [] {
      Done(end, Start(s'), plain);
      Tick1(m, Start(s), end, end, Start(s'), plain);
    } else {
      TurnKeepsOrder(s, p);
      TurnFlows(m, s, p, below, plain);
      if plain { TurnIsPlain(s, p); }
      var s1 := TakeTurn(s, p);
      RunFlows(m.(k := s1.k), s1, p, below, plain);
      Connect(m, Start(s), m.(k := s1.k), Start(s1), end, Start(s'), plain);
    }
  }

  lemma EnterFlows(m: Machine, d: Driver, p: Prio, below: Frames, plain: bool)
    requires At(m, Soft(TryPreempt), below) && PreemptSection(m.k).1 == Some(p)
    ensures Flows(m, d, Machine(PreemptSection(m.k).0, true, Over(Soft(Running(p, Dequeue)), below)), d, plain)
  {
    hide Choice, Flows;
    var m1 := Step(m, Tick).value;
    var end := Step(m1, Tick).value;
    Done(end, d, plain);
    Tick1(m1, d, end, end, d, plain);
    Tick1(m, d, m1, end, d, plain);
  }

  lemma LeaveFlows(m: Machine, d: Driver, p: Prio, below: Frames, plain: bool)
    requires At(m, Soft(DisableIrq(p)), below)
    ensures Flows(m, d, Machine(CompleteSection(m.k), false, Over(Soft(TryPreempt), below)), d, plain)
  {
    hide Choice, Flows;
    var m1 := Step(m, Tick).value;
    var end := Step(m1, Tick).value;
    Done(end, d, plain);
    Tick1(m1, d, end, end, d, plain);
    Tick1(m, d, m1, end, d, plain);
  }

  lemma RoundFlows(m: Machine, s: Turn, p: Prio, below: Frames, plain: bool)
    requires At(m, Soft(TryPreempt), below) && !m.mie && m.k == s.k
    requires Schedulable(s) && PreemptSection(s.k).1 == Some(p) && (plain ==> PlainScript(s.script))
    ensures var s' := Round(s, p);
            Flows(m, Start(s), m.(k := s'.k), Start(s'), plain) && (plain ==> PlainScript(s'.script))
  {
    hide Flows, Runnable, Synced, PreemptSection, RunTurns, PlainScript;
    GrantKeepsOrder(s, p);
    var s1, s' := s.(k := PreemptSection(s.k).0), Round(s, p);
    var end := m.(k := s'.k);
    var m1 := Machine(s1.k, true, Over(Soft(Running(p, Dequeue)), below));
    var s2 := RunExecutor(s1, p);
    var m2 := Machine(s2.k, true, Over(Soft(DisableIrq(p)), below));
    EnterFlows(m, Start(s), p, below, plain);
    RunFlows(m1, s1, p, below, plain);
    LeaveFlows(m2, Start(s2), p, below, plain);
    Connect(m1, Start(s1), m2, Start(s2), end, Start(s'), plain);
    Connect(m, Start(s), m1, Start(s1), end, Start(s'), plain);
  }

  lemma {:induction false} LoopFlows(m: Machine, s: Turn, below: Frames, plain: bool)
    requires At(m, Soft(TryPreempt), below) && !m.mie && m.k == s.k && Schedulable(s) && (plain ==> PlainScript(s.script))
    ensures Flows(m, Start(s), Machine(Schedule(s).k, false, Over(Soft(Return), below)), Start(Schedule(s)), plain)
    decreases Load(s.script), Total(s.k.queues)
  {
    hide Flows, Runnable, Synced, Round, Load, Total, PlainScript, WakeStep, SpawnStep, JoinStep, RunStep;
    var s' := Schedule(s);
    var end := Machine(s'.k, false, Over(Soft(Return), below));
    match PreemptSection(s.k).1
    case None =>
      Done(end, Start(s'), plain);
      Tick1(m, Start(s), end, end, Start(s'), plain);
    case Some(p) =>
      RoundFlows(m, s, p, below, plain);
      var s1 := Round(s, p);
      LoopFlows(m.(k := s1.k), s1, below, plain);
      Connect(m, Start(s), m.(k := s1.k), Start(s1), end, Start(s'), plain);
  }

  lemma PassFlows(m: Machine, s: Turn, below: Frames, plain: bool)
    requires At(m, Soft(Hook), below) && !m.mie && m.k.marker && Schedulable(s) && s.k == m.k.(marker := false, msip := false)
    requires plain ==> PlainScript(s.script)
    ensures Flows(m, Start(s), Machine(Schedule(s).k, false, Over(Soft(Return), below)), Start(Schedule(s)), plain)
  {
    hide Flows, Runnable, Synced, PlainScript, WakeStep, SpawnStep, JoinStep, RunStep, PreemptSection;
    var end, d := Machine(Schedule(s).k, false, Over(Soft(Return), below)), Start(s);
    var m1 := Step(m, Tick).value;
    var m2 := Step(m1, Tick).value;
    LoopFlows(m2, s, below, plain);
    Tick1(m1, d, m2, end, Start(Schedule(s)), plain);
    Tick1(m, d, m1, end, Start(Schedule(s)), plain);
  }

  /** From the entry of `MachineSoft` with the scheduler's marker set, whatever lies below it on the
      stack: the scripts have a run, and every run that follows them carries the kernel, after the same
      number of steps, to what `Schedule` makes of it. */
  lemma CalmPassIsSchedule(m: Machine, s: Turn, below: Frames) returns (steps: nat)
    requires At(m, Soft(Hook), below) && !m.mie && m.k.marker && Schedulable(s) && s.k == m.k.(marker := false, msip := false)
    ensures exists acts :: Obeys(m, Start(s), acts) && |acts| == steps
    ensures forall acts | Obeys(m, Start(s), acts) && |acts| == steps ::
              Run(m, acts) == Some(Machine(Schedule(s).k, false, Over(Soft(Return), below)))
  {
    var end := Machine(Schedule(s).k, false, Over(Soft(Return), below));
    PassFlows(m, s, below, false);
    steps :| Flow(m, Start(s), steps, end, Start(Schedule(s)), false);
    var some := SomeRunObeys(m, Start(s), steps, end, Start(Schedule(s)), false);
    forall acts | Obeys(m, Start(s), acts) && |acts| == steps ensures Run(m, acts) == Some(end) {
      ObeyingRunsAgree(m, Start(s), steps, end, Start(Schedule(s)), false, acts);
    }
  }

  // ---- from every reachable state ----

  /** Polls enough for each live future, and none for an empty slot. */
  predicate ScriptsFit(k: Kernel, script: seq<seq<Outcome>>) {
    && |script| == |k.slots|
    && forall t | 0 <= t < |script| ::
         && (k.slots[t].pollFn == PollFuture ==> Finite(script[t], |k.slots|, |k.queues|))
         && (!k.slots[t].spawned ==> script[t] == [])
  }

  /** What safe respawns can reach is in order for every such script. */
  lemma LiveIsSchedulable(m: Machine, s: Turn)
    requires Lifecycle.LifeInv(m) && Arming.Armed(m)
    requires s.Sized() && s.k == m.k.(marker := false, msip := false) && ScriptsFit(m.k, s.script)
    ensures Schedulable(s)
  {
    hide Finite;
    forall t | 0 <= t < |m.k.slots| ensures ScriptOk(s.k, t, s.script[t]) {
      if !m.k.slots[t].spawned { Lifecycle.UnspawnedIsSpent(m, t); }
    }
    forall p | p in m.k.ready && p < |m.k.queues| && m.k.queues[p] == [] ensures p in m.k.prioStack {
      Nesting.DrainingHoldsToken(m.fs, p);
    }
  }

  /** So every reachable entry of `MachineSoft` that finds the marker set refines the loop, whatever the
      futures still have to do: its uninterrupted pass does to the kernel what `Schedule` does, and ends
      with the interrupt about to return to what it interrupted. */
  lemma ReachablePassIsSchedule(n: nat, tasks: nat, before: seq<Action>, m: Machine, s: Turn) returns (steps: nat)
    requires 0 < n && Run(Init(n, tasks), before) == Some(m) && Lifecycle.RespawnsSafe(Init(n, tasks), before)
    requires m.fs.Over? && m.fs.top == Soft(Hook) && m.k.marker
    requires s.Sized() && s.k == m.k.(marker := false, msip := false) && ScriptsFit(m.k, s.script)
    ensures Schedulable(s)
    ensures exists acts :: Obeys(m, Start(s), acts) && |acts| == steps
    ensures forall acts | Obeys(m, Start(s), acts) && |acts| == steps ::
              Run(m, acts) == Some(Machine(Schedule(s).k, false, Over(Soft(Return), m.fs.below)))
  {
    hide Schedule, ScriptsFit, Schedulable;
    ReachableIsLive(n, tasks, before, m);
    LiveIsSchedulable(m, s);
    steps := CalmPassIsSchedule(m, s, m.fs.below);
  }

  lemma ReachableIsLive(n: nat, tasks: nat, acts: seq<Action>, m: Machine)
    requires 0 < n && Run(Init(n, tasks), acts) == Some(m) && Lifecycle.RespawnsSafe(Init(n, tasks), acts)
    ensures Lifecycle.LifeInv(m) && Arming.Armed(m)
  {
    hide Run;
    Lifecycle.InitLife(n, tasks);
    assert forall t | 0 <= t < tasks :: Init(n, tasks).k.slots[t] == FRESH_SLOT;
    Lifecycle.RunKeepsLifeInv(Init(n, tasks), acts, m);
    Lifecycle.SafeIsQuiescent(Init(n, tasks), acts);
    Arming.RunKeepsArmed(Init(n, tasks), acts, m);
  }
}
