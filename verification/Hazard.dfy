/** The respawn condition of Lifecycle.dfy is exact.  If a quiescent slot is respawned while its
    executor pointer is still set, interrupts are enabled, and the executor it names outranks the
    code doing so, then some run polls the slot before its future has been written: an interrupt
    in the spawn window wakes the task, and the scheduler drains its way to it. */
module Hazard {
  import opened Wrappers
  import opened Kernel
  import opened Machine
  import opened Nesting
  import opened Binding
  import opened Lifecycle
  import opened Arming

  /** Some continuation with only safe respawns misuses a future. */
  ghost predicate CanMisuse(m: Machine) {
    exists acts :: MisuseAfter(m, acts)
  }

  predicate MisuseAfter(m: Machine, acts: seq<Action>) {
    RespawnsSafe(m, acts) && Run(m, acts).Some? && Misuse(Run(m, acts).value)
  }

  lemma Before(m: Machine, a: Action, m1: Machine)
    requires Step(m, a) == Some(m1) && ClaimIsSafe(m, a) && CanMisuse(m1)
    ensures CanMisuse(m)
  {
    var acts :| MisuseAfter(m1, acts);
    assert ([a] + acts)[1..] == acts;
    assert MisuseAfter(m, [a] + acts);
  }

  // ---- draining down to the task ----

  /** `t` waits in queue `p` with its poll function installed and no future in its cell. */
  ghost predicate Ripe(m: Machine, p: Prio, t: TaskId) {
    && BoundInv(m) && Armed(m)
    && p < |m.k.queues| && t < |m.k.slots| && t in m.k.queues[p]
    && m.k.slots[t].pollFn == PollFuture && m.k.slots[t].cell != Live
  }

  lemma TickInv(m: Machine, m': Machine)
    requires BoundInv(m) && Armed(m) && Step(m, Tick) == Some(m') && ClaimIsQuiescent(m, Tick)
    ensures BoundInv(m') && Armed(m')
  {
    StepKeepsBoundInv(m, Tick, m');
    StepKeepsArmed(m, Tick, m');
  }

  /** From `try_preempt` with `p` outranking the priority stack. */
  lemma {:induction false} TryReachesTask(m: Machine, p: Prio, t: TaskId)
    requires Ripe(m, p, t) && m.fs.top == Soft(TryPreempt) && Outranks(p, m.k.prioStack)
    ensures CanMisuse(m)
    decreases |m.k.ready|, 2
  {
    var stack := m.k.prioStack;
    assert p in m.k.ready;
    PreemptDecides(m.k);
    var m1 := Step(m, Tick).value;
    TickInv(m, m1);
    var m2 := Step(m1, Tick).value;
    TickInv(m1, m2);
    DequeueReachesTask(m2, p, t, m1.fs.top.soft.p, stack);
    Before(m1, Tick, m2);
    Before(m, Tick, m1);
  }

  /** From the run loop of a priority `r` at least as high. */
  lemma {:induction false} DequeueReachesTask(m: Machine, p: Prio, t: TaskId, r: Prio, stack: seq<Prio>)
    requires Ripe(m, p, t) && m.fs.top == Soft(Running(r, Dequeue))
    requires r <= p && r in m.k.ready && m.k.prioStack == stack + [r] && Outranks(p, stack)
    ensures CanMisuse(m)
    decreases |m.k.ready|, 1, |m.k.queues[r]|, 0
  {
    var m1 := Step(m, Tick).value;
    TickInv(m, m1);
    if m.k.queues[r] == [] {
      DrainedReachesTask(m, m1, p, t, r, stack);
    } else {
      var u := m.k.queues[r][0];
      if u == t {
        assert MisuseAfter(m1, []);
      } else {
        assert t in m1.k.queues[p] by { StillQueued(m.k, r, p, t); }
        DispatchReachesTask(m1, p, t, r, u, stack);
      }
    }
    Before(m, Tick, m1);
  }

  lemma StillQueued(k: Kernel, r: Prio, p: Prio, t: TaskId)
    requires k.WellFormed() && r < |k.queues| && p < |k.queues| && k.queues[r] != [] && k.queues[r][0] != t
    requires t in k.queues[p]
    ensures t in PopSection(k, r).queues[p]
  {
    var i :| 0 <= i < |k.queues[p]| && k.queues[p][i] == t;
    if r == p { assert k.queues[p][1..][i - 1] == t; }
  }

  /** The queue of `r` is drained: its activation completes and the loop looks again. */
  lemma {:induction false} DrainedReachesTask(m: Machine, m1: Machine, p: Prio, t: TaskId, r: Prio, stack: seq<Prio>)
    requires Ripe(m, p, t) && m.fs.top == Soft(Running(r, Dequeue)) && m.k.queues[r] == []
    requires r in m.k.ready && m.k.prioStack == stack + [r] && Outranks(p, stack)
    requires Step(m, Tick) == Some(m1) && BoundInv(m1) && Armed(m1)
    ensures CanMisuse(m1)
    decreases |m.k.ready|, 0
  {
    assert m1.k.ready == m.k.ready - {r};
    assert |m1.k.ready| < |m.k.ready|;
    var m2 := Step(m1, Tick).value;
    TickInv(m1, m2);
    var m3 := Step(m2, Tick).value;
    TickInv(m2, m3);
    assert m3.k.prioStack == stack;
    TryReachesTask(m3, p, t);
    Before(m2, Tick, m3);
    Before(m1, Tick, m2);
  }

  /** Another task `u` is dispatched first: it is spent, or it returns Pending. */
  lemma {:induction false} DispatchReachesTask(m: Machine, p: Prio, t: TaskId, r: Prio, u: TaskId, stack: seq<Prio>)
    requires Ripe(m, p, t) && m.fs.top == Soft(Running(r, Hold(u, Dispatch)))
    requires r <= p && r in m.k.ready && m.k.prioStack == stack + [r] && Outranks(p, stack)
    ensures CanMisuse(m)
    decreases |m.k.ready|, 1, |m.k.queues[r]|, 1
  {
    assert Grips(m.fs.top, u);
    var m1 := Step(m, Tick).value;
    TickInv(m, m1);
    if m.k.slots[u].pollFn == PollExited {
      DequeueReachesTask(m1, p, t, r, stack);
    } else {
      var m2 := Step(m1, Tick).value;
      TickInv(m1, m2);
      DequeueReachesTask(m2, p, t, r, stack);
      Before(m1, Tick, m2);
    }
    Before(m, Tick, m1);
  }

  // ---- the interrupt in the window ----

  /** In the window, after the poll function is installed and before the future is written, one
      interrupt handler that wakes the task is enough. */
  lemma WindowReachesTask(m: Machine, t: TaskId, q: Prio)
    requires BoundInv(m) && Armed(m) && m.fs.top == Spawn(t, q, WriteFuture) && m.mie
    requires m.k.slots[t].exec.Some? && Outranks(m.k.slots[t].exec.value, m.k.prioStack)
    requires !m.k.slots[t].queued && m.k.slots[t].pollFn == PollFuture && m.k.slots[t].cell != Live
    ensures CanMisuse(m)
  {
    var p := m.k.slots[t].exec.value;
    var m1 := Step(m, Irq).value;
    QuietInv(m, Irq, m1);
    var m2 := Step(m1, MaskedWake(t)).value;
    QuietInv(m1, MaskedWake(t), m2);
    assert m2.k.queues[p][|m2.k.queues[p]| - 1] == t;
    HandlerReachesTask(m2, p, t);
    Before(m1, MaskedWake(t), m2);
    Before(m, Irq, m1);
  }

  /** The handler returns, and the scheduler's interrupt is taken. */
  lemma HandlerReachesTask(m: Machine, p: Prio, t: TaskId)
    requires Ripe(m, p, t) && m.fs.top == Handler && m.k.marker && m.k.msip && Outranks(p, m.k.prioStack)
    ensures CanMisuse(m)
  {
    var m1 := Step(m, Tick).value;
    TickInv(m, m1);
    var m2 := Step(m1, Msi).value;
    QuietInv(m1, Msi, m2);
    var m3 := Step(m2, Tick).value;
    TickInv(m2, m3);
    var m4 := Step(m3, Tick).value;
    TickInv(m3, m4);
    TryReachesTask(m4, p, t);
    Before(m3, Tick, m4);
    Before(m2, Tick, m3);
    Before(m1, Msi, m2);
    Before(m, Tick, m1);
  }

  lemma QuietInv(m: Machine, a: Action, m': Machine)
    requires BoundInv(m) && Armed(m) && Step(m, a) == Some(m') && a != Tick
    ensures BoundInv(m') && Armed(m')
  {
    StepKeepsBoundInv(m, a, m');
    StepKeepsArmed(m, a, m');
  }

  lemma UnsafeRespawnReachesTask(m: Machine, t: TaskId, q: Prio, m1: Machine)
    requires LifeInv(m) && Armed(m) && m.fs.top == Spawn(t, q, Claim) && Step(m, Tick) == Some(m1)
    requires Claiming(m, Tick, t) && Quiescent(m, t) && !SafeRespawn(m, t)
    ensures CanMisuse(m1)
  {
    TickInv(m, m1);
    var m2 := Step(m1, Tick).value;
    TickInv(m1, m2);
    var m3 := Step(m2, Tick).value;
    TickInv(m2, m3);
    var m4 := Step(m3, Tick).value;
    TickInv(m3, m4);
    WindowReachesTask(m4, t, q);
    Before(m3, Tick, m4);
    Before(m2, Tick, m3);
    Before(m1, Tick, m2);
  }

  /** The respawn of a quiescent slot is harmless in every continuation if and only if its executor
      pointer is null, or interrupts are masked, or the executor it names does not outrank the
      priority stack. */
  lemma RespawnSafeIff(m: Machine, t: TaskId, q: Prio, m1: Machine)
    requires LifeInv(m) && Armed(m) && m.fs.top == Spawn(t, q, Claim) && Step(m, Tick) == Some(m1)
    requires Claiming(m, Tick, t) && Quiescent(m, t)
    ensures SafeRespawn(m, t) <==> !CanMisuse(m1)
  {
    if SafeRespawn(m, t) {
      StepKeepsBoundInv(m, Tick, m1);
      StepKeepsLife(m, Tick, m1);
      forall acts ensures !MisuseAfter(m1, acts) {
        if RespawnsSafe(m1, acts) && Run(m1, acts).Some? {
          RunKeepsLifeInv(m1, acts, Run(m1, acts).value);
          LifeForbidsMisuse(Run(m1, acts).value);
        }
      }
    } else {
      UnsafeRespawnReachesTask(m, t, q, m1);
    }
  }
}
