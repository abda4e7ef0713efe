/** Who owns a task's intrusive list node.  The `RUN_QUEUED` flag is an exclusive claim: either the
    task is linked into exactly one run queue exactly once, or exactly one activation that won the
    `fetch_or` has yet to link it.  No assumption about the application is needed. */
module Ownership {
  import opened Wrappers
  import opened Kernel
  import opened Machine
  import opened Nesting

  /** How often `t` is linked, over all run queues. */
  function Linked(queues: seq<seq<TaskId>>, t: TaskId): nat {
    if queues == [] then 0
    else Linked(queues[..|queues| - 1], t) + multiset(queues[|queues| - 1])[t]
  }

  /** The activations between winning `fetch_or` on `t` and linking it. */
  function Claimants(fs: Frames, t: TaskId): nat {
    if fs.Empty? then 0 else Claims(fs.top, t) + Claimants(fs.below, t)
  }

  function Claims(f: Frame, t: TaskId): nat {
    match f
    case Wake(u, Enqueue(_)) => if u == t then 1 else 0
    case Spawn(u, _, Push) => if u == t then 1 else 0
    case _ => 0
  }

  function Flag(k: Kernel, t: TaskId): nat
    requires t < |k.slots|
  {
    if k.slots[t].queued then 1 else 0
  }

  ghost predicate Owned(m: Machine) {
    forall t | 0 <= t < |m.k.slots| :: Linked(m.k.queues, t) + Claimants(m.fs, t) == Flag(m.k, t)
  }

  // ---- counting ----

  lemma {:induction false} LinkedUpdate(queues: seq<seq<TaskId>>, p: nat, q: seq<TaskId>, t: TaskId)
    requires p < |queues|
    ensures Linked(queues[p := q], t) == Linked(queues, t) - multiset(queues[p])[t] + multiset(q)[t]
    ensures multiset(queues[p])[t] <= Linked(queues, t)
  {
    var init, last := queues[..|queues| - 1], |queues| - 1;
    if p == last {
      assert queues[p := q][..last] == init;
    } else {
      LinkedUpdate(init, p, q, t);
      assert queues[p := q][..last] == init[p := q];
    }
  }

  lemma LinkedPush(queues: seq<seq<TaskId>>, p: nat, u: TaskId, t: TaskId)
    requires p < |queues|
    ensures Linked(queues[p := queues[p] + [u]], t) == Linked(queues, t) + if t == u then 1 else 0
  {
    LinkedUpdate(queues, p, queues[p] + [u], t);
  }

  lemma LinkedPop(queues: seq<seq<TaskId>>, p: nat, t: TaskId)
    requires p < |queues| && queues[p] != []
    ensures Linked(queues[p := queues[p][1..]], t) == Linked(queues, t) - if t == queues[p][0] then 1 else 0
  {
    assert queues[p] == [queues[p][0]] + queues[p][1..];
    LinkedUpdate(queues, p, queues[p][1..], t);
  }

  // ---- every step keeps the balance ----

  /** Links minus flag. */
  function Excess(k: Kernel, t: TaskId): int
    requires t < |k.slots|
  {
    Linked(k.queues, t) - Flag(k, t)
  }

  function ClaimsNext(next: Next, t: TaskId): nat {
    if next.Goto? then Claims(next.f, t) else 0
  }

  /** A step moves claims between the frame and the queues without making or losing any. */
  ghost predicate Balanced(k: Kernel, f: Frame, r: (Kernel, Next)) {
    && |r.0.slots| == |k.slots|
    && forall t | 0 <= t < |k.slots| :: Excess(r.0, t) + ClaimsNext(r.1, t) == Excess(k, t) + Claims(f, t)
  }

  lemma WakeBalanced(k: Kernel, t: TaskId, pc: WakePc)
    requires k.WellFormed() && FrameOk(Wake(t, pc), |k.queues|, |k.slots|)
    ensures Balanced(k, Wake(t, pc), WakeStep(k, t, pc))
  {
    hide Linked;
    if pc.Enqueue? {
      forall u | 0 <= u < |k.slots| { LinkedPush(k.queues, pc.p, t, u); }
    }
  }

  lemma SpawnBalanced(k: Kernel, t: TaskId, p: Prio, pc: SpawnPc)
    requires k.WellFormed() && FrameOk(Spawn(t, p, pc), |k.queues|, |k.slots|)
    ensures Balanced(k, Spawn(t, p, pc), SpawnStep(k, t, p, pc))
  {
    hide PendSection, Linked;
    if pc == Push {
      forall u | 0 <= u < |k.slots| { LinkedPush(k.queues, p, t, u); }
    }
  }

  lemma WakeSectionBalanced(k: Kernel, t: TaskId)
    requires k.WellFormed() && t < |k.slots|
    ensures forall u | 0 <= u < |k.slots| :: Excess(WakeSection(k, t), u) == Excess(k, u)
  {
    var s := k.slots[t];
    if s.exec.Some? && !s.queued {
      forall u | 0 <= u < |k.slots| { LinkedPush(k.queues, s.exec.value, t, u); }
    }
  }

  lemma DespawnBalanced(k: Kernel, t: TaskId)
    requires k.WellFormed() && t < |k.slots|
    ensures forall u | 0 <= u < |k.slots| :: Excess(DespawnSection(k, t), u) == Excess(k, u)
  {
    var s := k.slots[t];
    var k1 := k.Put(t, s.(spawned := false, joinWaker := None));
    assert forall u | 0 <= u < |k.slots| :: Excess(k1, u) == Excess(k, u);
    if s.joinWaker.Some? { WakeSectionBalanced(k1, s.joinWaker.value); }
  }

  lemma HoldBalanced(k: Kernel, p: Prio, t: TaskId, pc: HoldPc)
    requires k.WellFormed() && FrameOk(Soft(Running(p, Hold(t, pc))), |k.queues|, |k.slots|)
    ensures Balanced(k, Soft(Running(p, Hold(t, pc))), HoldStep(k, p, t, pc))
  {
    hide Linked, DespawnSection;
    if pc == Despawn { DespawnBalanced(k, t); }
  }

  lemma PopBalanced(k: Kernel, p: Prio)
    requires k.WellFormed() && p < |k.queues| && k.queues[p] != [] && k.slots[k.queues[p][0]].queued
    ensures forall u | 0 <= u < |k.slots| :: Excess(PopSection(k, p), u) == Excess(k, u)
  {
    forall u | 0 <= u < |k.slots| { LinkedPop(k.queues, p, u); }
  }

  lemma LinkedIsFlagged(m: Machine, p: Prio, i: nat)
    requires m.k.WellFormed() && Owned(m) && p < |m.k.queues| && i < |m.k.queues[p]|
    ensures m.k.slots[m.k.queues[p][i]].queued
  {
    var t := m.k.queues[p][i];
    LinkedUpdate(m.k.queues, p, m.k.queues[p], t);
    assert t in multiset(m.k.queues[p]);
  }

  lemma TickBalanced(m: Machine)
    requires Control(m) && Owned(m)
    ensures Balanced(m.k, m.fs.top, TopStep(m.k, m.fs.top))
  {
    hide WakeStep, SpawnStep, HoldStep, Linked;
    var k := m.k;
    match m.fs.top
    case Wake(t, pc) => WakeBalanced(k, t, pc);
    case Spawn(t, p, pc) => SpawnBalanced(k, t, p, pc);
    case Soft(Running(p, Hold(t, pc))) => HoldBalanced(k, p, t, pc);
    case Soft(Running(p, Dequeue)) =>
      if k.queues[p] != [] {
        LinkedIsFlagged(m, p, 0);
        PopBalanced(k, p);
      }
    case _ =>
  }

  lemma StepKeepsOwned(m: Machine, a: Action, m': Machine)
    requires Control(m) && Owned(m) && Step(m, a) == Some(m')
    ensures Owned(m')
  {
    match a
    case Tick => TickKeepsOwned(m, m');
    case MaskedWake(t) =>
      WakeSectionBalanced(m.k, t);
      forall u | 0 <= u < |m.k.slots|
        ensures Linked(m'.k.queues, u) + Claimants(m'.fs, u) == Flag(m'.k, u)
      {
        assert Excess(m'.k, u) == Excess(m.k, u);
      }
    case _ => assert m'.k == m.k;
  }

  lemma TickKeepsOwned(m: Machine, m': Machine)
    requires Control(m) && Owned(m) && Step(m, Tick) == Some(m')
    ensures Owned(m')
  {
    TickBalanced(m);
    var (k', next) := TopStep(m.k, m.fs.top);
    forall u | 0 <= u < |m.k.slots|
      ensures Linked(m'.k.queues, u) + Claimants(m'.fs, u) == Flag(m'.k, u)
    {
      assert Excess(k', u) + ClaimsNext(next, u) == Excess(m.k, u) + Claims(m.fs.top, u);
    }
  }

  // ---- all runs ----

  lemma {:induction false} EmptyLinksNothing(queues: seq<seq<TaskId>>, t: TaskId)
    requires forall p | 0 <= p < |queues| :: queues[p] == []
    ensures Linked(queues, t) == 0
  {
    if queues != [] { EmptyLinksNothing(queues[..|queues| - 1], t); }
  }

  lemma InitOwned(n: nat, tasks: nat)
    requires 0 < n
    ensures Owned(Init(n, tasks))
  {
    var m := Init(n, tasks);
    forall t | 0 <= t < tasks ensures Linked(m.k.queues, t) == 0 { EmptyLinksNothing(m.k.queues, t); }
  }

  lemma {:induction false} RunKeepsOwned(m: Machine, acts: seq<Action>, m': Machine)
    requires Control(m) && Owned(m) && Run(m, acts) == Some(m')
    ensures Control(m') && Owned(m')
    decreases |acts|
  {
    if acts != [] {
      var next := Step(m, acts[0]).value;
      StepKeepsControl(m, acts[0], next);
      StepKeepsOwned(m, acts[0], next);
      RunKeepsOwned(next, acts[1..], m');
    }
  }

  /** In every reachable state `RUN_QUEUED` is set exactly when the task is linked once or claimed
      once, and never both; so a linked node is never pushed again. */
  lemma FlagIsOwnership(n: nat, tasks: nat, acts: seq<Action>, m: Machine, t: TaskId)
    requires 0 < n && Run(Init(n, tasks), acts) == Some(m) && t < |m.k.slots|
    ensures Linked(m.k.queues, t) + Claimants(m.fs, t) == if m.k.slots[t].queued then 1 else 0
    ensures m.fs.Over? && Claims(m.fs.top, t) == 1 ==> forall p | 0 <= p < |m.k.queues| :: t !in m.k.queues[p]
  {
    InitNesting(n, tasks);
    InitOwned(n, tasks);
    RunKeepsOwned(Init(n, tasks), acts, m);
    if m.fs.Over? && Claims(m.fs.top, t) == 1 { UnlinkedIsAbsent(m.k.queues, t); }
  }

  lemma UnlinkedIsAbsent(queues: seq<seq<TaskId>>, t: TaskId)
    requires Linked(queues, t) == 0
    ensures forall p | 0 <= p < |queues| :: t !in queues[p]
  {
    forall p | 0 <= p < |queues| ensures t !in queues[p] {
      LinkedUpdate(queues, p, queues[p], t);
      assert t !in multiset(queues[p]);
    }
  }
}
