/** First in, first out, with a bounded bypass: what leaves a run queue is exactly what entered it,
    in that order, so a task enqueued behind `i` others is the `i + 1`st to leave. */
module Fifo {
  import opened Wrappers
  import opened Kernel
  import opened Machine
  import opened Nesting

  ghost predicate Logged(k: Kernel) {
    && |k.queues| == |k.entered| == |k.left|
    && forall p | 0 <= p < |k.queues| :: k.entered[p] == k.left[p] + k.queues[p]
  }

  /** Both logs only grow. */
  ghost predicate Extends(k: Kernel, k': Kernel) {
    && |k'.left| == |k.left| && |k'.entered| == |k.entered|
    && (forall p | 0 <= p < |k.left| :: k.left[p] <= k'.left[p])
    && (forall p | 0 <= p < |k.entered| :: k.entered[p] <= k'.entered[p])
  }

  ghost predicate Follows(k: Kernel, k': Kernel) {
    Extends(k, k') && (Logged(k) ==> Logged(k'))
  }

  ghost predicate SameQueues(k: Kernel, k': Kernel) {
    k'.queues == k.queues && k'.entered == k.entered && k'.left == k.left
  }

  lemma EnqueueFollows(k: Kernel, t: TaskId, p: Prio)
    requires k.WellFormed() && t < |k.slots| && p < |k.queues|
    ensures Follows(k, EnqueueSection(k, t, p))
  {
    if Logged(k) {
      assert k.entered[p] + [t] == k.left[p] + (k.queues[p] + [t]);
    }
  }

  lemma PopFollows(k: Kernel, p: Prio)
    requires k.WellFormed() && p < |k.queues| && k.queues[p] != []
    ensures Follows(k, PopSection(k, p))
  {
    if Logged(k) {
      assert k.left[p] + k.queues[p] == (k.left[p] + [k.queues[p][0]]) + k.queues[p][1..];
    }
  }

  lemma WakeSectionFollows(k: Kernel, t: TaskId)
    requires k.WellFormed() && t < |k.slots|
    ensures Follows(k, WakeSection(k, t))
  {
    var s := k.slots[t];
    if s.exec.Some? && !s.queued {
      EnqueueFollows(k.Put(t, s.(owed := true, queued := true)), t, s.exec.value);
    }
  }

  lemma HoldFollows(k: Kernel, p: Prio, t: TaskId, pc: HoldPc)
    requires k.WellFormed() && FrameOk(Soft(Running(p, Hold(t, pc))), |k.queues|, |k.slots|)
    ensures Follows(k, HoldStep(k, p, t, pc).0)
  {
    if pc == Despawn && k.slots[t].joinWaker.Some? {
      var s := k.slots[t];
      WakeSectionFollows(k.Put(t, s.(spawned := false, joinWaker := None)), s.joinWaker.value);
    }
  }

  lemma WakeFollows(k: Kernel, t: TaskId, pc: WakePc)
    requires k.WellFormed() && FrameOk(Wake(t, pc), |k.queues|, |k.slots|)
    ensures Follows(k, WakeStep(k, t, pc).0)
  {
    if pc.Enqueue? { EnqueueFollows(k, t, pc.p); } else { assert SameQueues(k, WakeStep(k, t, pc).0); }
  }

  lemma SpawnFollows(k: Kernel, t: TaskId, p: Prio, pc: SpawnPc)
    requires k.WellFormed() && FrameOk(Spawn(t, p, pc), |k.queues|, |k.slots|)
    ensures Follows(k, SpawnStep(k, t, p, pc).0)
  {
    if pc == Push { EnqueueFollows(k, t, p); } else { assert SameQueues(k, SpawnStep(k, t, p, pc).0); }
  }

  lemma TickFollows(k: Kernel, f: Frame)
    requires k.WellFormed() && FrameOk(f, |k.queues|, |k.slots|)
    ensures Follows(k, TopStep(k, f).0)
  {
    hide WakeStep, SpawnStep, HoldStep;
    match f
    case Wake(t, pc) => WakeFollows(k, t, pc);
    case Spawn(t, p, pc) => SpawnFollows(k, t, p, pc);
    case Soft(Running(p, Dequeue)) => if k.queues[p] != [] { PopFollows(k, p); }
    case Soft(Running(p, Hold(t, pc))) => HoldFollows(k, p, t, pc);
    case _ =>
  }

  lemma StepFollows(m: Machine, a: Action, m': Machine)
    requires Control(m) && Step(m, a) == Some(m')
    ensures Follows(m.k, m'.k)
  {
    match a
    case Tick => TickFollows(m.k, m.fs.top);
    case MaskedWake(t) => WakeSectionFollows(m.k, t);
    case _ => assert m'.k == m.k;
  }

  lemma {:induction false} RunFollows(m: Machine, acts: seq<Action>, m': Machine)
    requires Control(m) && Run(m, acts) == Some(m')
    ensures Follows(m.k, m'.k)
    decreases |acts|
  {
    if acts != [] {
      var next := Step(m, acts[0]).value;
      StepKeepsControl(m, acts[0], next);
      StepFollows(m, acts[0], next);
      RunFollows(next, acts[1..], m');
    }
  }

  /** In every reachable state each queue holds exactly the tasks that entered it and have not left,
      in the order they entered. */
  lemma QueueIsFifo(n: nat, tasks: nat, acts: seq<Action>, m: Machine, p: Prio)
    requires 0 < n && Run(Init(n, tasks), acts) == Some(m) && p < n
    ensures Logged(m.k) && |m.k.queues| == n
    ensures m.k.entered[p] == m.k.left[p] + m.k.queues[p]
  {
    InitNesting(n, tasks);
    RunKeepsSize(Init(n, tasks), acts, m);
    RunFollows(Init(n, tasks), acts, m);
  }

  /** Bounded bypass.  At `m0` the task `t` stands behind `i` others in queue `p`.  In any later
      state, if fewer than `i + 1` pops of that queue happened since, `t` still stands there, moved
      up by exactly that many; otherwise the `i + 1`st of those pops was its own, and the ones
      before it were the tasks that stood ahead of it, in order. */
  lemma BypassIsBounded(m0: Machine, acts: seq<Action>, m: Machine, p: Prio, i: nat)
    requires Control(m0) && Logged(m0.k) && Run(m0, acts) == Some(m)
    requires p < |m0.k.queues| && i < |m0.k.queues[p]|
    ensures Extends(m0.k, m.k) && Logged(m.k) && p < |m.k.queues|
    ensures var pops := m.k.left[p][|m0.k.left[p]|..];
            if |pops| <= i
            then i - |pops| < |m.k.queues[p]| && m.k.queues[p][i - |pops|] == m0.k.queues[p][i]
            else pops[..i + 1] == m0.k.queues[p][..i + 1]
  {
    hide Control, Run;
    RunFollows(m0, acts, m);
    LogsGrow(m0.k, m.k, p);
    LogsShift(m0.k.left[p], m0.k.queues[p], m.k.left[p], m.k.queues[p]);
  }

  lemma LogsGrow(k: Kernel, k': Kernel, p: Prio)
    requires Logged(k) && Logged(k') && Extends(k, k') && p < |k.queues|
    ensures p < |k'.queues| && k.left[p] <= k'.left[p] && k.left[p] + k.queues[p] <= k'.left[p] + k'.queues[p]
  {
    assert k.entered[p] <= k'.entered[p];
  }

  /** One queue's logs before and after: what was popped is a prefix of what stood there. */
  lemma LogsShift(left: seq<TaskId>, queue: seq<TaskId>, left': seq<TaskId>, queue': seq<TaskId>)
    requires left <= left' && left + queue <= left' + queue'
    ensures var pops := left'[|left|..];
            forall i | 0 <= i < |queue| ::
              if |pops| <= i then i - |pops| < |queue'| && queue'[i - |pops|] == queue[i] else pops[..i + 1] == queue[..i + 1]
  {
    var pops := left'[|left|..];
    assert left' == left + pops;
    forall j | 0 <= j < |queue| ensures queue[j] == if j < |pops| then pops[j] else queue'[j - |pops|] {
      assert (left + queue)[|left| + j] == (left' + queue')[|left| + j];
    }
  }
}
