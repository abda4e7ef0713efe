/** The scheduler as the code runs it when no interrupt intervenes: `spawn`, `wake_task` and the
    `try_preempt` / `run` / `complete_executor` loop, over the real bitmap.  Every method is proved
    against the atomic sections of Kernel.dfy, and the loop terminates however the polls wake one
    another.  DrainOrder.dfy proves what the loop does. */
module Scheduler {
  import opened Wrappers
  import opened Kernel
  import opened Bitmap
  import Nesting

  /** What a poll may do with the kernel: wake a task, spawn a task with a future of its own, or poll the
      join handle of a task. */
  datatype Act = Wakes(t: TaskId) | Spawns(t: TaskId, p: Prio, future: seq<Outcome>) | Joins(w: TaskId)

  /** One poll of a future: what it does, then Ready with a value or Pending. */
  datatype Outcome = Outcome(acts: seq<Act>, ready: Option<Value>)

  /** The polls a future has left: it returns Ready at the last of them and not before; and so, in turn,
      does every future it spawns. */
  predicate Finite(polls: seq<Outcome>, tasks: nat, n: nat)
    decreases polls
  {
    && polls != []
    && polls[|polls| - 1].ready.Some?
    && (forall i | 0 <= i < |polls| - 1 :: polls[i].ready == None)
    && (forall i, j | 0 <= i < |polls| && 0 <= j < |polls[i].acts| :: ActOk(polls[i].acts[j], tasks, n))
  }

  predicate ActOk(a: Act, tasks: nat, n: nat)
    decreases a
  {
    match a
    case Wakes(t) => t < tasks
    case Spawns(t, p, future) => t < tasks && p < n && Finite(future, tasks, n)
    case Joins(w) => w < tasks
  }

  predicate ActsOk(acts: seq<Act>, tasks: nat, n: nat) {
    forall j | 0 <= j < |acts| :: ActOk(acts[j], tasks, n)
  }

  // ---- sections ----

  /** The completion sequence of `TaskStorage::poll`. */
  function FinishSection(k: Kernel, t: TaskId, v: Value): (k': Kernel)
    requires k.WellFormed() && t < |k.slots|
    ensures k'.WellFormed() && k'.SameSize(k)
  {
    var s := k.slots[t];
    DespawnSection(
      k.Put(t, s.(result := Some(v), output := Some(v), exec := None, cell := Dropped, pollFn := PollExited)), t)
  }

  /** `JoinHandle::poll` of the handle of `w` by task `u`. */
  function JoinSection(k: Kernel, w: TaskId, u: TaskId): (k': Kernel)
    requires k.WellFormed() && w < |k.slots| && u < |k.slots|
    ensures k'.WellFormed() && k'.SameSize(k)
  {
    var s := k.slots[w];
    match s.result
    case Some(v) => k.Put(w, s.(result := None, delivered := s.delivered + [v]))
    case None => k.Put(w, s.(joinWaker := Some(u)))
  }

  /** `TaskStorage::spawn` of an unspawned slot. */
  function CreateSection(k: Kernel, t: TaskId): (k': Kernel)
    requires k.WellFormed() && t < |k.slots|
    ensures k'.WellFormed() && k'.SameSize(k)
  {
    k.Put(t, k.slots[t].(spawned := true, result := None, output := None, delivered := [],
                         joinWaker := None, pollFn := PollFuture, cell := Live))
  }

  /** `Spawner::spawn` of a task at a priority in range. */
  function SpawnSection(k: Kernel, t: TaskId, p: Prio): (k': Kernel)
    requires k.WellFormed() && t < |k.slots| && p < |k.queues|
    ensures k'.WellFormed() && k'.SameSize(k)
  {
    if k.slots[t].queued then k
    else PendSection(EnqueueSection(k.Put(t, k.slots[t].(queued := true)), t, p))
  }

  // ---- a poll ----

  /** The kernel, the polls each future has left, the polls made, and how many polls were ever handed to
      each task by spawns. */
  datatype Turn = Turn(k: Kernel, script: seq<seq<Outcome>>, polls: seq<TaskId>, issued: seq<nat>)
  {
    predicate Sized() {
      k.WellFormed() && |script| == |issued| == |k.slots|
    }
  }

  /** One act of task `u`; spawning a spawned slot is `SpawnError`. */
  function Perform(s: Turn, u: TaskId, a: Act): (s': Turn)
    requires s.Sized() && u < |s.k.slots| && ActOk(a, |s.k.slots|, |s.k.queues|)
    ensures s'.Sized() && s'.k.SameSize(s.k) && s'.polls == s.polls
  {
    match a
    case Wakes(t) => s.(k := WakeSection(s.k, t))
    case Joins(w) => s.(k := JoinSection(s.k, w, u))
    case Spawns(t, p, future) =>
      if s.k.slots[t].spawned then s
      else s.(k := SpawnSection(CreateSection(s.k, t), t, p), script := s.script[t := future],
              issued := s.issued[t := s.issued[t] + |future|])
  }

  function PerformAll(s: Turn, u: TaskId, acts: seq<Act>): (s': Turn)
    requires s.Sized() && u < |s.k.slots| && ActsOk(acts, |s.k.slots|, |s.k.queues|)
    ensures s'.Sized() && s'.k.SameSize(s.k) && s'.polls == s.polls
  {
    if acts == [] then s else Perform(PerformAll(s, u, acts[..|acts| - 1]), u, acts[|acts| - 1])
  }

  /** `TaskStorage::poll` of a task whose script has polls left. */
  function PollTurn(s: Turn, t: TaskId): (s': Turn)
    requires s.Sized() && t < |s.k.slots| && Finite(s.script[t], |s.k.slots|, |s.k.queues|)
    ensures s'.Sized() && s'.k.SameSize(s.k)
  {
    var o, s1 := s.script[t][0], PerformAll(s, t, s.script[t][0].acts);
    var k := if o.ready.Some? then FinishSection(s1.k, t, o.ready.value) else s1.k;
    Turn(k, s1.script[t := s.script[t][1..]], s.polls + [t], s1.issued)
  }

  // ---- the measure ----

  function Total<T>(ss: seq<seq<T>>): nat {
    if ss == [] then 0 else Total(ss[..|ss| - 1]) + |ss[|ss| - 1]|
  }

  lemma {:induction false} TotalUpdate<T>(ss: seq<seq<T>>, i: nat, s: seq<T>)
    requires i < |ss|
    ensures Total(ss[i := s]) == Total(ss) - |ss[i]| + |s|
  {
    var last := |ss| - 1;
    if i == last {
      assert ss[i := s][..last] == ss[..last];
    } else {
      TotalUpdate(ss[..last], i, s);
      assert ss[i := s][..last] == ss[..last][i := s];
    }
  }

  /** The polls a future has left, with those of the futures it will spawn. */
  function Weight(polls: seq<Outcome>): nat
    decreases polls
  {
    if polls == [] then 0 else 1 + ActsWeight(polls[0].acts) + Weight(polls[1..])
  }

  function ActsWeight(acts: seq<Act>): nat
    decreases acts
  {
    if acts == [] then 0
    else
      var last := acts[|acts| - 1];
      ActsWeight(acts[..|acts| - 1]) + if last.Spawns? then Weight(last.future) else 0
  }

  function Load(script: seq<seq<Outcome>>): nat {
    if script == [] then 0 else Load(script[..|script| - 1]) + Weight(script[|script| - 1])
  }

  lemma {:induction false} LoadUpdate(script: seq<seq<Outcome>>, i: nat, f: seq<Outcome>)
    requires i < |script|
    ensures Load(script[i := f]) == Load(script) - Weight(script[i]) + Weight(f)
  {
    var last := |script| - 1;
    if i == last {
      assert script[i := f][..last] == script[..last];
    } else {
      LoadUpdate(script[..last], i, f);
      assert script[i := f][..last] == script[..last][i := f];
    }
  }

  // ---- what the sections do ----

  /** A spawned slot is fresh: no result and no waker of an earlier incarnation, a future, and its poll
      function; the node and the pointer are left as they were. */
  lemma CreateAnswers(k: Kernel, t: TaskId)
    requires k.WellFormed() && t < |k.slots|
    ensures var k', s := CreateSection(k, t), k.slots[t];
            var s' := k'.slots[t];
            && k' == k.(slots := k.slots[t := s'])
            && s'.spawned && s'.pollFn == PollFuture && s'.cell == Live
            && s'.result == None && s'.joinWaker == None && s'.output == None && s'.delivered == []
            && s'.queued == s.queued && s'.exec == s.exec && s'.home == s.home && s'.owed == s.owed
  {}

  /** A token of a task already queued is consumed without effect; any other task is put at the end of queue
      `p`, which becomes ready, and the spawner pends exactly when something ready outranks the stack. */
  lemma SpawnAnswers(k: Kernel, t: TaskId, p: Prio)
    requires k.WellFormed() && t < |k.slots| && p < |k.queues|
    ensures var k', s := SpawnSection(k, t, p), k.slots[t];
            if s.queued then k' == k
            else
              && k'.SameSize(k) && k'.prioStack == k.prioStack && k'.ready == k.ready + {p}
              && k'.queues == k.queues[p := k.queues[p] + [t]]
              && k'.slots == k.slots[t := s.(queued := true, exec := Some(p), home := Some(p))]
              && (if SomethingOutranks(k') then k'.marker && k'.msip else k'.marker == k.marker && k'.msip == k.msip)
  {
    hide PendSection;
    var s := k.slots[t];
    if !s.queued {
      var k1 := EnqueueSection(k.Put(t, s.(queued := true)), t, p);
      assert k1.slots == k.slots[t := s.(queued := true, exec := Some(p), home := Some(p))];
      Nesting.PendDecides(k1);
    }
  }

  /** A finished task leaves its result, no pointer, no waker, no future, and a slot free to be spawned; and
      the joiner whose waker it held is owed a poll and queued, unless it has finished itself. */
  lemma FinishAnswers(k: Kernel, t: TaskId, v: Value)
    requires k.WellFormed() && t < |k.slots|
    ensures var k', s := FinishSection(k, t, v), k.slots[t];
            var s' := k'.slots[t];
            && !s'.spawned && s'.result == Some(v) && s'.exec == None && s'.joinWaker == None
            && s'.cell == Dropped && s'.pollFn == PollExited && s'.queued == s.queued
            && match s.joinWaker
               case None => k' == k.(slots := k.slots[t := s'])
               case Some(u) =>
                 && u < |k.slots|
                 && (u != t && k.slots[u].exec.Some? ==> k'.slots[u].owed && k'.slots[u].queued)
                 && (u == t || k.slots[u].exec == None ==> k' == k.(slots := k.slots[t := s']))
                 && (forall x | 0 <= x < |k.slots| && x != t && x != u :: k'.slots[x] == k.slots[x])
  {
    hide FinishSection, WakeSection;
    FinishLeaves(k, t, v);
    assert k.SlotOk(k.slots[t]);
    if k.slots[t].joinWaker.Some? { WakeSpares(k.(slots := k.slots[t := Spent(k.slots[t], v)]), k.slots[t].joinWaker.value, t); }
  }

  function Spent(s: Slot, v: Value): Slot {
    s.(result := Some(v), output := Some(v), exec := None, cell := Dropped, pollFn := PollExited,
       spawned := false, joinWaker := None)
  }

  lemma FinishLeaves(k: Kernel, t: TaskId, v: Value)
    requires k.WellFormed() && t < |k.slots|
    ensures var s := k.slots[t];
            var k1 := k.(slots := k.slots[t := Spent(s, v)]);
            && k1.WellFormed() && k.SlotOk(s)
            && FinishSection(k, t, v) == if s.joinWaker.Some? then WakeSection(k1, s.joinWaker.value) else k1
  {
    hide WakeSection;
    var s, s1 := k.slots[t], Spent(k.slots[t], v);
    assert k.SlotOk(s);
    assert k.slots[t := s1.(spawned := s.spawned, joinWaker := s.joinWaker)][t := s1] == k.slots[t := s1];
  }

  /** A wake leaves an idle slot alone, and every other slot but the one it wakes. */
  lemma WakeSpares(k: Kernel, u: TaskId, t: TaskId)
    requires k.WellFormed() && u < |k.slots| && t < |k.slots| && k.slots[t].exec == None
    ensures var k' := WakeSection(k, u);
            && (k.slots[u].exec == None ==> k' == k)
            && (k.slots[u].exec.Some? ==> k'.slots[u].owed && k'.slots[u].queued)
            && (forall x | 0 <= x < |k.slots| && x != u :: k'.slots[x] == k.slots[x])
            && k'.slots[t] == k.slots[t]
  {}

  // ---- what polls rely on ----

  /** Whatever may come to be dispatched has a poll function; a task with a live future is spawned and
      has polls left, and only spawned tasks have any. */
  ghost predicate Runnable(k: Kernel, script: seq<seq<Outcome>>) {
    && k.WellFormed() && |script| == |k.slots|
    && (forall t | 0 <= t < |k.slots| && k.slots[t].exec.Some? :: k.slots[t].pollFn != Unset)
    && (forall p, i | 0 <= p < |k.queues| && 0 <= i < |k.queues[p]| :: k.slots[k.queues[p][i]].pollFn != Unset)
    && (forall t | 0 <= t < |k.slots| :: ScriptOk(k, t, script[t]))
  }

  predicate ScriptOk(k: Kernel, t: TaskId, polls: seq<Outcome>)
    requires t < |k.slots|
  {
    && (k.slots[t].pollFn == PollFuture ==> k.slots[t].spawned && Finite(polls, |k.slots|, |k.queues|))
    && (!k.slots[t].spawned ==> polls == [])
  }

  /** The bitmap shows exactly the nonempty queues, except for executors that are running. */
  ghost predicate Synced(k: Kernel) {
    && (forall p | 0 <= p < |k.queues| && k.queues[p] != [] :: p in k.ready)
    && (forall p | p in k.ready && p < |k.queues| && k.queues[p] == [] :: p in k.prioStack)
  }

  /** The two together, for a whole turn. */
  ghost predicate InOrder(s: Turn) {
    s.Sized() && Runnable(s.k, s.script) && Synced(s.k)
  }

  /** Both wakes and spawns raise the flag, then enqueue: a change to flags and history first. */
  lemma FlagKeepsRunnable(k: Kernel, t: TaskId, s: Slot, script: seq<seq<Outcome>>)
    requires Runnable(k, script) && Synced(k) && t < |k.slots| && k.SlotOk(s)
    requires s.pollFn == k.slots[t].pollFn && s.spawned == k.slots[t].spawned && s.exec == k.slots[t].exec
    ensures Runnable(k.Put(t, s), script) && Synced(k.Put(t, s))
  {
    hide Finite;
  }

  lemma EnqueueKeepsRunnable(k: Kernel, t: TaskId, p: Prio, script: seq<seq<Outcome>>)
    requires Runnable(k, script) && Synced(k) && t < |k.slots| && p < |k.queues| && k.slots[t].pollFn != Unset
    ensures Runnable(EnqueueSection(k, t, p), script) && Synced(EnqueueSection(k, t, p))
  {
    hide Finite;
    var k' := EnqueueSection(k, t, p);
    forall u | 0 <= u < |k'.slots| ensures ScriptOk(k', u, script[u]) { assert ScriptOk(k, u, script[u]); }
    forall q, i | 0 <= q < |k'.queues| && 0 <= i < |k'.queues[q]| ensures k'.slots[k'.queues[q][i]].pollFn != Unset {
      if q == p && i == |k.queues[p]| { assert k'.queues[q][i] == t; }
    }
  }

  lemma PendKeepsRunnable(k: Kernel, script: seq<seq<Outcome>>)
    requires Runnable(k, script) && Synced(k)
    ensures Runnable(Pend(k), script) && Synced(Pend(k))
  {
    hide Finite;
  }

  lemma WakeKeepsRunnable(k: Kernel, t: TaskId, script: seq<seq<Outcome>>)
    requires Runnable(k, script) && Synced(k) && t < |k.slots|
    ensures Runnable(WakeSection(k, t), script) && Synced(WakeSection(k, t))
    ensures WakeSection(k, t).prioStack == k.prioStack
    ensures forall u | 0 <= u < |k.slots| ::
              WakeSection(k, t).slots[u].pollFn == k.slots[u].pollFn && WakeSection(k, t).slots[u].spawned == k.slots[u].spawned
  {
    var s := k.slots[t];
    assert k.SlotOk(s);
    if s.exec.Some? {
      assert s.pollFn != Unset;
      RaiseKeepsRunnable(k, t, s, script);
    }
  }

  lemma RaiseKeepsRunnable(k: Kernel, t: TaskId, s: Slot, script: seq<seq<Outcome>>)
    requires Runnable(k, script) && Synced(k) && k.WellFormed() && t < |k.slots| && s == k.slots[t] && k.SlotOk(s)
    requires s.exec.Some? && s.pollFn != Unset
    ensures Runnable(WakeSection(k, t), script) && Synced(WakeSection(k, t))
  {
    hide Runnable, Synced;
    FlagKeepsRunnable(k, t, s.(owed := true), script);
    FlagKeepsRunnable(k, t, s.(owed := true, queued := true), script);
    if !s.queued {
      var k1 := k.Put(t, s.(owed := true, queued := true));
      EnqueueKeepsRunnable(k1, t, s.exec.value, script);
      PendKeepsRunnable(EnqueueSection(k1, t, s.exec.value), script);
    }
  }

  lemma JoinKeepsRunnable(k: Kernel, w: TaskId, u: TaskId, script: seq<seq<Outcome>>)
    requires Runnable(k, script) && Synced(k) && w < |k.slots| && u < |k.slots|
    ensures Runnable(JoinSection(k, w, u), script) && Synced(JoinSection(k, w, u))
    ensures JoinSection(k, w, u).prioStack == k.prioStack
    ensures forall x | 0 <= x < |k.slots| ::
              JoinSection(k, w, u).slots[x].pollFn == k.slots[x].pollFn && JoinSection(k, w, u).slots[x].spawned == k.slots[x].spawned
  {}

  lemma CreateKeepsRunnable(k: Kernel, t: TaskId, script: seq<seq<Outcome>>, future: seq<Outcome>)
    requires Runnable(k, script) && Synced(k) && t < |k.slots| && Finite(future, |k.slots|, |k.queues|)
    ensures Runnable(CreateSection(k, t), script[t := future]) && Synced(CreateSection(k, t))
  {}

  lemma SpawnKeepsRunnable(k: Kernel, t: TaskId, p: Prio, script: seq<seq<Outcome>>)
    requires Runnable(k, script) && Synced(k) && t < |k.slots| && p < |k.queues|
    requires k.slots[t].pollFn != Unset
    ensures Runnable(SpawnSection(k, t, p), script) && Synced(SpawnSection(k, t, p))
    ensures SpawnSection(k, t, p).prioStack == k.prioStack
    ensures forall u | 0 <= u < |k.slots| ::
              SpawnSection(k, t, p).slots[u].pollFn == k.slots[u].pollFn && SpawnSection(k, t, p).slots[u].spawned == k.slots[u].spawned
  {
    assert k.SlotOk(k.slots[t]);
    var s := k.slots[t].(queued := true);
    if !k.slots[t].queued { LinkKeepsRunnable(k, t, p, s, script); }
  }

  lemma LinkKeepsRunnable(k: Kernel, t: TaskId, p: Prio, s: Slot, script: seq<seq<Outcome>>)
    requires Runnable(k, script) && Synced(k) && k.WellFormed() && t < |k.slots| && p < |k.queues|
    requires k.SlotOk(k.slots[t]) && s == k.slots[t].(queued := true) && s.pollFn != Unset
    ensures var k' := PendSection(EnqueueSection(k.Put(t, s), t, p)); Runnable(k', script) && Synced(k')
  {
    hide Runnable, Synced, PendSection;
    FlagKeepsRunnable(k, t, s, script);
    EnqueueKeepsRunnable(k.Put(t, s), t, p, script);
    PendKeepsRunnable(EnqueueSection(k.Put(t, s), t, p), script);
  }

  /** An act keeps order, leaves every spawned task's future alone, and adds to the load at most what it
      spawns. */
  lemma PerformKeepsOrder(s: Turn, u: TaskId, a: Act)
    requires InOrder(s) && u < |s.k.slots| && ActOk(a, |s.k.slots|, |s.k.queues|)
    ensures var s' := Perform(s, u, a);
            && InOrder(s') && s'.k.prioStack == s.k.prioStack
            && (forall t | 0 <= t < |s.k.slots| && s.k.slots[t].spawned ::
                  s'.k.slots[t].spawned && s'.k.slots[t].pollFn == s.k.slots[t].pollFn && s'.script[t] == s.script[t])
            && Load(s'.script) <= Load(s.script) + if a.Spawns? then Weight(a.future) else 0
  {
    hide Runnable, Synced, Load, Weight, Finite;
    match a
    case Wakes(t) => WakeKeepsRunnable(s.k, t, s.script);
    case Joins(w) => JoinKeepsRunnable(s.k, w, u, s.script);
    case Spawns(t, p, future) =>
      if !s.k.slots[t].spawned {
        CreateKeepsRunnable(s.k, t, s.script, future);
        SpawnKeepsRunnable(CreateSection(s.k, t), t, p, s.script[t := future]);
        LoadUpdate(s.script, t, future);
      }
  }

  lemma {:induction false} PerformAllKeepsOrder(s: Turn, u: TaskId, acts: seq<Act>)
    requires InOrder(s) && u < |s.k.slots| && ActsOk(acts, |s.k.slots|, |s.k.queues|)
    ensures var s' := PerformAll(s, u, acts);
            && InOrder(s') && s'.k.prioStack == s.k.prioStack
            && (forall t | 0 <= t < |s.k.slots| && s.k.slots[t].spawned ::
                  s'.k.slots[t].spawned && s'.k.slots[t].pollFn == s.k.slots[t].pollFn && s'.script[t] == s.script[t])
            && Load(s'.script) <= Load(s.script) + ActsWeight(acts)
  {
    hide Runnable, Synced, Perform, Load, Weight, ActOk;
    if acts != [] {
      PerformAllKeepsOrder(s, u, acts[..|acts| - 1]);
      PerformKeepsOrder(PerformAll(s, u, acts[..|acts| - 1]), u, acts[|acts| - 1]);
    }
  }

  lemma FinishKeepsRunnable(k: Kernel, t: TaskId, v: Value, script: seq<seq<Outcome>>)
    requires Runnable(k, script) && Synced(k) && t < |k.slots|
    ensures Runnable(FinishSection(k, t, v), script[t := []]) && Synced(FinishSection(k, t, v))
    ensures FinishSection(k, t, v).prioStack == k.prioStack
  {
    var s := k.slots[t];
    var k1 := k.Put(t, s.(result := Some(v), output := Some(v), exec := None, cell := Dropped, pollFn := PollExited));
    var k2 := k1.Put(t, k1.slots[t].(spawned := false, joinWaker := None));
    assert Runnable(k2, script[t := []]);
    if s.joinWaker.Some? { WakeKeepsRunnable(k2, s.joinWaker.value, script[t := []]); }
  }

  /** What a future has left after a poll that returned Pending is again finite; after Ready, nothing. */
  lemma TailIsFinite(polls: seq<Outcome>, tasks: nat, n: nat)
    requires Finite(polls, tasks, n)
    ensures polls != []
    ensures polls[0].ready == None ==> Finite(polls[1..], tasks, n)
    ensures polls[0].ready.Some? ==> polls[1..] == []
    ensures ActsOk(polls[0].acts, tasks, n)
    ensures Weight(polls) == 1 + ActsWeight(polls[0].acts) + Weight(polls[1..])
  {
    assert ActsOk(polls[0].acts, tasks, n) by {
      forall j | 0 <= j < |polls[0].acts| ensures ActOk(polls[0].acts[j], tasks, n) {}
    }
  }

  lemma PendingKeepsRunnable(k: Kernel, t: TaskId, script: seq<seq<Outcome>>, left: seq<Outcome>)
    requires Runnable(k, script) && t < |k.slots| && k.slots[t].spawned && Finite(left, |k.slots|, |k.queues|)
    ensures Runnable(k, script[t := left])
  {}

  /** One poll keeps the scheduler in order, and the load falls. */
  lemma PollKeepsOrder(s: Turn, t: TaskId)
    requires InOrder(s) && t < |s.k.slots| && s.k.slots[t].pollFn == PollFuture
    ensures Finite(s.script[t], |s.k.slots|, |s.k.queues|)
    ensures var s' := PollTurn(s, t); InOrder(s') && s'.k.prioStack == s.k.prioStack && Load(s'.script) < Load(s.script)
  {
    hide Synced, Load, Weight, Finite, PerformAll;
    assert ScriptOk(s.k, t, s.script[t]);
    TailIsFinite(s.script[t], |s.k.slots|, |s.k.queues|);
    var o, left := s.script[t][0], s.script[t][1..];
    PerformAllKeepsOrder(s, t, o.acts);
    var s1 := PerformAll(s, t, o.acts);
    LoadUpdate(s1.script, t, left);
    match o.ready
    case None => PendingKeepsRunnable(s1.k, t, s1.script, left);
    case Some(v) => FinishKeepsRunnable(s1.k, t, v, s1.script);
  }

  // ---- one turn of the run loop ----

  /** The kernel once the head of queue `p` has been popped and its poll function loaded. */
  function Popped(k: Kernel, p: Prio): (k': Kernel)
    requires k.WellFormed() && p < |k.queues| && k.queues[p] != []
    ensures k'.WellFormed() && k'.SameSize(k)
  {
    var t, k1 := k.queues[p][0], PopSection(k, p);
    k1.Put(t, k1.slots[t].(owed := false))
  }

  /** Pop the head of queue `p`, load its poll function and call it. */
  function TakeTurn(s: Turn, p: Prio): (s': Turn)
    requires InOrder(s) && p < |s.k.queues| && s.k.queues[p] != []
    ensures s'.Sized() && s'.k.SameSize(s.k)
  {
    var t, s1 := s.k.queues[p][0], s.(k := Popped(s.k, p));
    if s1.k.slots[t].pollFn == PollFuture
    then assert ScriptOk(s.k, t, s.script[t]); PollTurn(s1, t)
    else s1
  }

  /** Polls left over all tasks, spawned or yet to be, then entries left in all queues. */
  predicate Less(s': Turn, s: Turn) {
    || Load(s'.script) < Load(s.script)
    || (Load(s'.script) == Load(s.script) && Total(s'.k.queues) < Total(s.k.queues))
  }

  lemma PopKeepsOrder(s: Turn, p: Prio)
    requires InOrder(s) && p in s.k.prioStack && p < |s.k.queues| && s.k.queues[p] != []
    ensures InOrder(s.(k := Popped(s.k, p))) && Popped(s.k, p).prioStack == s.k.prioStack
  {
    var k1 := PopSection(s.k, p);
    forall q, i | 0 <= q < |k1.queues| && 0 <= i < |k1.queues[q]| ensures k1.slots[k1.queues[q][i]].pollFn != Unset {
      assert k1.queues[q][i] in s.k.queues[q];
    }
    forall t | 0 <= t < |k1.slots| ensures ScriptOk(Popped(s.k, p), t, s.script[t]) { assert ScriptOk(s.k, t, s.script[t]); }
  }

  lemma TurnKeepsOrder(s: Turn, p: Prio)
    requires InOrder(s) && p in s.k.prioStack && p < |s.k.queues| && s.k.queues[p] != []
    ensures var s' := TakeTurn(s, p);
            InOrder(s') && s'.k.SameSize(s.k) && s'.k.prioStack == s.k.prioStack && Less(s', s)
  {
    PopKeepsOrder(s, p);
    TotalUpdate(s.k.queues, p, s.k.queues[p][1..]);
    var t, s1 := s.k.queues[p][0], s.(k := Popped(s.k, p));
    if s1.k.slots[t].pollFn == PollFuture { PollKeepsOrder(s1, t); }
  }

  // ---- `Executor::run` and the loop around it, as functions ----

  /** Turns until queue `p` is empty. */
  function RunTurns(s: Turn, p: Prio): (s': Turn)
    requires InOrder(s) && p in s.k.prioStack && p < |s.k.queues|
    ensures s'.k.SameSize(s.k) && s'.k.prioStack == s.k.prioStack
    ensures InOrder(s') && s'.k.queues[p] == []
    ensures s' == s || Less(s', s)
    decreases Load(s.script), Total(s.k.queues)
  {
    if s.k.queues[p] == [] then s
    else
      TurnKeepsOrder(s, p);
      RunTurns(TakeTurn(s, p), p)
  }

  function RunExecutor(s: Turn, p: Prio): (s': Turn)
    requires InOrder(s) && p in s.k.prioStack && p < |s.k.queues|
    ensures InOrder(s') && s'.k.SameSize(s.k)
    ensures s'.k.prioStack == s.k.prioStack && p !in s'.k.ready
    ensures s.k.queues[p] != [] ==> Less(s', s)
  {
    var s1 := RunTurns(s, p);
    s1.(k := DrainedSection(s1.k, p))
  }

  ghost predicate Schedulable(s: Turn) {
    InOrder(s) && Nesting.Nested(s.k.prioStack, |s.k.queues|)
  }

  /** `try_preempt` grants the token of an executor that is not running and has work. */
  lemma GrantKeepsOrder(s: Turn, p: Prio)
    requires Schedulable(s) && PreemptSection(s.k).1 == Some(p)
    ensures var k := PreemptSection(s.k).0;
            && InOrder(s.(k := k)) && k == s.k.(prioStack := s.k.prioStack + [p])
            && p < |k.queues| && k.queues[p] != []
  {}

  lemma CompleteKeepsOrder(s: Turn, stack: seq<Prio>, p: Prio)
    requires InOrder(s) && p !in s.k.ready
    requires s.k.prioStack == stack + [p] && Nesting.Nested(stack, |s.k.queues|)
    ensures Schedulable(s.(k := CompleteSection(s.k))) && CompleteSection(s.k).prioStack == stack
  {
    assert (stack + [p])[..|stack|] == stack;
    forall q | q in s.k.prioStack && q != p ensures q in stack {}
  }

  /** The loop body, once `try_preempt` has handed out the token of executor `p`. */
  function Round(s: Turn, p: Prio): (s': Turn)
    requires Schedulable(s) && PreemptSection(s.k).1 == Some(p)
    ensures Schedulable(s') && s'.k.SameSize(s.k) && s'.k.prioStack == s.k.prioStack && Less(s', s)
  {
    GrantKeepsOrder(s, p);
    var s2 := RunExecutor(s.(k := PreemptSection(s.k).0), p);
    CompleteKeepsOrder(s2, s.k.prioStack, p);
    s2.(k := CompleteSection(s2.k))
  }

  /** `while let Some(rt) = try_preempt() { run(rt); complete_executor(); }` */
  function Schedule(s: Turn): (s': Turn)
    requires Schedulable(s)
    ensures Schedulable(s') && s'.k.SameSize(s.k) && s'.k.prioStack == s.k.prioStack
    ensures PreemptSection(s'.k).1 == None
    decreases Load(s.script), Total(s.k.queues)
  {
    match PreemptSection(s.k).1
    case None => s
    case Some(p) => Schedule(Round(s, p))
  }

  // ---- the scheduler ----

  class Spawner {
    const bitmap: PriorityBitmap
    var slots: seq<Slot>
    var queues: seq<seq<TaskId>>
    var prioStack: seq<Prio>
    var marker: bool
    var msip: bool
    var script: seq<seq<Outcome>> // the polls each spawned future has left
    ghost var entered: seq<seq<TaskId>>
    ghost var left: seq<seq<TaskId>>
    ghost var polls: seq<TaskId>  // every poll of a future, in order
    ghost var issued: seq<nat>    // how many polls spawns have handed to each task

    ghost function View(): Kernel
      reads this, bitmap, bitmap.groupTable
    {
      Kernel(slots, queues, bitmap.Prios(), prioStack, marker, msip, entered, left)
    }

    ghost predicate Valid()
      reads this, bitmap, bitmap.groupTable
    {
      && bitmap.Valid() && bitmap.numGroups == 64 && |queues| <= 4096
      && View().WellFormed()
    }

    ghost function State(): Turn
      reads this, bitmap, bitmap.groupTable
    {
      Turn(View(), script, polls, issued)
    }

    ghost predicate Ready()
      reads this, bitmap, bitmap.groupTable
    {
      Valid() && InOrder(State())
    }

    /** `Spawner::new` followed by `init`. */
    constructor (n: nat, tasks: nat)
      requires 0 < n <= 4096
      ensures Ready() && fresh(bitmap) && fresh(bitmap.groupTable)
      ensures View() == Fresh(n, tasks) && polls == [] && script == seq(tasks, _ => [])
    {
      var bm := new PriorityBitmap(64);
      bitmap := bm;
      slots := seq(tasks, _ => FRESH_SLOT);
      queues := seq(n, _ => []);
      prioStack := [];
      marker, msip := false, false;
      script := seq(tasks, _ => []);
      entered, left := seq(n, _ => []), seq(n, _ => []);
      polls, issued := [], seq(tasks, _ => 0);
      new;
    }

    /** `Executor::enqueue` through `State::run_enqueue`. */
    method Enqueue(t: TaskId, p: Prio) returns (enqueued: bool)
      requires Valid() && t < |slots| && p < |queues|
      modifies this`slots, this`queues, this`entered, bitmap`groupMap, bitmap.groupTable
      ensures Valid() && enqueued == !old(slots[t].queued)
      ensures View() == if enqueued
                        then EnqueueSection(old(View()).Put(t, old(slots[t]).(queued := true)), t, p)
                        else old(View())
    {
      if slots[t].queued { return false; }
      slots := slots[t := slots[t].(queued := true)];
      slots := slots[t := slots[t].(exec := Some(p), home := Some(p))];
      queues := queues[p := queues[p] + [t]];
      entered := entered[p := entered[p] + [t]];
      bitmap.Set(p);
      enqueued := true;
    }

    /** `platform::pend` */
    method Pend()
      modifies this`marker, this`msip
      ensures marker && msip
    {
      marker := true;
      msip := true;
    }

    /** `wake_task` */
    method WakeTask(t: TaskId)
      requires Valid() && t < |slots|
      modifies this`slots, this`queues, this`entered, this`marker, this`msip, bitmap`groupMap, bitmap.groupTable
      ensures Valid() && View() == WakeSection(old(View()), t)
    {
      if slots[t].exec.Some? {
        slots := slots[t := slots[t].(owed := true)];
        var enqueued := Enqueue(t, slots[t].exec.value);
        if enqueued { Pend(); }
      }
    }

    /** `TaskStorage::spawn`; `future` is what the new future will do.  False is `SpawnError`. */
    method CreateTask(t: TaskId, future: seq<Outcome>) returns (created: bool)
      requires Valid() && State().Sized() && t < |slots|
      modifies this`slots, this`script, this`issued
      ensures Valid() && created == !old(slots[t].spawned)
      ensures View() == if created then CreateSection(old(View()), t) else old(View())
      ensures script == if created then old(script)[t := future] else old(script)
      ensures issued == if created then old(issued)[t := old(issued)[t] + |future|] else old(issued)
      ensures old(Ready()) && Finite(future, |slots|, |queues|) ==> Ready()
    {
      hide Finite, Synced, Runnable, PriorityBitmap.Valid;
      ghost var k, was := View(), script;
      if slots[t].spawned { return false; }
      slots := slots[t := slots[t].(spawned := true)];
      Initialise(t);
      assert View() == CreateSection(k, t);
      script := script[t := future];
      issued := issued[t := issued[t] + |future|];
      created := true;
      if old(Ready()) && Finite(future, |slots|, |queues|) { CreateKeepsRunnable(k, t, was, future); }
    }

    /** The stores of `TaskStorage::spawn` to a slot it has claimed. */
    method Initialise(t: TaskId)
      requires Valid() && t < |slots|
      modifies this`slots
      ensures Valid()
      ensures slots == old(slots)[t := old(slots[t]).(result := None, output := None, delivered := [],
                                                      joinWaker := None, pollFn := PollFuture, cell := Live)]
    {
      ghost var before := slots;
      slots := slots[t := slots[t].(result := None, output := None, delivered := [])];
      slots := slots[t := slots[t].(joinWaker := None)];
      slots := slots[t := slots[t].(pollFn := PollFuture)];
      slots := slots[t := slots[t].(cell := Live)];
      assert slots == before[t := slots[t]];
    }

    /** The decision section of `Spawner::spawn`. */
    method DecideToPend()
      requires Valid()
      modifies this`marker, this`msip
      ensures Valid() && View() == PendSection(old(View()))
    {
      var highest := bitmap.Highest();
      assert highest == Highest(View());
      if highest.Some? {
        if |prioStack| == 0 || highest.value < prioStack[|prioStack| - 1] { Pend(); }
      }
    }

    /** `Spawner::spawn`; false is the panic on a priority out of range, before any change. */
    method SpawnTask(t: TaskId, p: Prio) returns (inRange: bool)
      requires Valid() && t < |slots|
      modifies this`slots, this`queues, this`entered, this`marker, this`msip, bitmap`groupMap, bitmap.groupTable
      ensures Valid() && inRange == (p < |old(queues)|)
      ensures View() == if inRange then SpawnSection(old(View()), t, p) else old(View())
      ensures old(Ready()) && old(slots[t].pollFn) != Unset ==> Ready()
    {
      hide Runnable, Synced, PendSection, EnqueueSection, PriorityBitmap.Valid;
      if p >= |queues| { return false; }
      inRange := true;
      if Ready() && slots[t].pollFn != Unset { SpawnKeepsRunnable(View(), t, p, script); }
      var enqueued := Enqueue(t, p);
      if enqueued { DecideToPend(); }
    }

    /** `JoinHandle::poll` of the handle of `w` by task `u`. */
    method PollJoin(w: TaskId, u: TaskId) returns (value: Option<Value>)
      requires Valid() && w < |slots| && u < |slots|
      modifies this`slots
      ensures Valid() && View() == JoinSection(old(View()), w, u) && value == old(slots[w].result)
      ensures |slots| == |old(slots)| && forall t | 0 <= t < |slots| && t != w :: slots[t] == old(slots[t])
      ensures value.Some? ==> slots[w] == old(slots[w]).(result := None, delivered := old(slots[w].delivered) + [value.value])
      ensures value == None ==> slots[w] == old(slots[w]).(joinWaker := Some(u))
    {
      value := slots[w].result;
      if value.Some? {
        slots := slots[w := slots[w].(result := None, delivered := slots[w].delivered + [value.value])];
      } else {
        slots := slots[w := slots[w].(joinWaker := Some(u))];
      }
    }

    /** `Spawner::try_preempt` */
    method TryPreempt() returns (token: Option<Prio>)
      requires Valid()
      modifies this`prioStack
      ensures Valid() && (View(), token) == PreemptSection(old(View()))
    {
      var highest := bitmap.Highest();
      assert highest == Highest(View());
      if highest == None { return None; }
      if |prioStack| == 0 || highest.value < prioStack[|prioStack| - 1] {
        if |prioStack| >= |queues| { return None; } // `push` fails on a full vector
        prioStack := prioStack + [highest.value];
        return highest;
      }
      return None;
    }

    /** `Spawner::complete_executor` */
    method CompleteExecutor()
      requires Valid()
      modifies this`prioStack
      ensures Valid() && View() == CompleteSection(old(View()))
    {
      if |prioStack| > 0 { prioStack := prioStack[..|prioStack| - 1]; }
    }

    /** One act of a poll. */
    method Do(u: TaskId, a: Act)
      requires Valid() && State().Sized() && u < |slots| && ActOk(a, |slots|, |queues|)
      modifies this`slots, this`queues, this`entered, this`marker, this`msip, this`script, this`issued,
               bitmap`groupMap, bitmap.groupTable
      ensures Valid() && State() == Perform(old(State()), u, a)
    {
      hide Finite, Synced, Runnable, WakeSection, CreateSection, SpawnSection, JoinSection, PriorityBitmap.Valid;
      match a {
        case Wakes(t) => WakeTask(t);
        case Joins(w) => var _ := PollJoin(w, u);
        case Spawns(t, p, future) =>
          var created := CreateTask(t, future);
          if created { var _ := SpawnTask(t, p); }
      }
    }

    /** The acts of a poll, in order. */
    method DoAll(u: TaskId, acts: seq<Act>)
      requires Valid() && State().Sized() && u < |slots| && ActsOk(acts, |slots|, |queues|)
      modifies this`slots, this`queues, this`entered, this`marker, this`msip, this`script, this`issued,
               bitmap`groupMap, bitmap.groupTable
      ensures Valid() && State() == PerformAll(old(State()), u, acts)
    {
      hide Perform, ActOk, PriorityBitmap.Valid;
      var i := 0;
      while i < |acts|
        invariant 0 <= i <= |acts| && Valid()
        invariant State() == PerformAll(old(State()), u, acts[..i])
      {
        Do(u, acts[i]);
        assert acts[..i + 1][..i] == acts[..i];
        i := i + 1;
      }
      assert acts[..i] == acts;
    }

    /** The completion section of `TaskStorage::poll`. */
    method Despawn(t: TaskId)
      requires Valid() && t < |slots|
      modifies this`slots, this`queues, this`entered, this`marker, this`msip, bitmap`groupMap, bitmap.groupTable
      ensures Valid() && View() == DespawnSection(old(View()), t)
    {
      var waker := slots[t].joinWaker;
      assert View().SlotOk(slots[t]);
      slots := slots[t := slots[t].(spawned := false, joinWaker := None)];
      if waker.Some? { WakeTask(waker.value); }
    }

    /** The completion sequence of `TaskStorage::poll`. */
    method Finish(t: TaskId, v: Value)
      requires Valid() && t < |slots|
      modifies this`slots, this`queues, this`entered, this`marker, this`msip, bitmap`groupMap, bitmap.groupTable
      ensures Valid() && View() == FinishSection(old(View()), t, v)
    {
      ghost var before := slots;
      slots := slots[t := slots[t].(result := Some(v), output := Some(v))];
      slots := slots[t := slots[t].(exec := None)];
      slots := slots[t := slots[t].(cell := Dropped)];
      slots := slots[t := slots[t].(pollFn := PollExited)];
      assert slots == before[t := slots[t]];
      Despawn(t);
    }

    /** `TaskStorage::poll` of a future that has polls left. */
    method PollTask(t: TaskId)
      requires Valid() && State().Sized() && t < |slots| && Finite(script[t], |slots|, |queues|)
      modifies this`slots, this`queues, this`entered, this`marker, this`msip, this`script, this`polls, this`issued,
               bitmap`groupMap, bitmap.groupTable
      ensures Valid() && State() == PollTurn(old(State()), t)
    {
      hide PriorityBitmap.Valid, PerformAll;
      var o, left := script[t][0], script[t][1..];
      DoAll(t, o.acts);
      script := script[t := left];
      polls := polls + [t];
      if o.ready.Some? { Finish(t, o.ready.value); }
    }

    /** One turn of `Executor::run`'s loop with a nonempty queue. */
    method DispatchHead(p: Prio)
      requires Ready() && p < |queues| && queues[p] != []
      modifies this`slots, this`queues, this`entered, this`left, this`marker, this`msip, this`script, this`polls,
               this`issued, bitmap`groupMap, bitmap.groupTable
      ensures Valid() && State() == TakeTurn(old(State()), p)
    {
      hide PollTurn, Synced, Finite, PriorityBitmap.Valid;
      var t := queues[p][0];
      ghost var k := View();
      assert ScriptOk(k, t, script[t]);
      queues := queues[p := queues[p][1..]];
      slots := slots[t := slots[t].(queued := false)];
      left := left[p := left[p] + [t]];
      assert View() == PopSection(k, p);
      slots := slots[t := slots[t].(owed := false)];
      if slots[t].pollFn == PollFuture { PollTask(t); }
    }

    /** `Executor::run` */
    method Run(p: Prio)
      requires Ready() && p in prioStack && p < |queues|
      modifies this`slots, this`queues, this`entered, this`left, this`marker, this`msip, this`script, this`polls,
               this`issued, bitmap`groupMap, bitmap.groupTable
      ensures Ready() && State() == RunExecutor(old(State()), p)
    {
      hide TakeTurn, InOrder;
      while queues[p] != []
        invariant Ready() && p in prioStack && |queues| == |old(queues)|
        invariant RunTurns(State(), p) == RunTurns(old(State()), p)
        decreases Load(script), Total(queues)
      {
        TurnKeepsOrder(State(), p);
        DispatchHead(p);
      }
      ghost var s1 := State();
      bitmap.Clear(p);
      assert View() == DrainedSection(s1.k, p);
      assert State() == RunExecutor(old(State()), p);
    }

    /** The body of the scheduling loop. */
    method RunRound(ghost s: Turn, p: Prio)
      requires Schedulable(s) && PreemptSection(s.k).1 == Some(p)
      requires Valid() && State() == s.(k := PreemptSection(s.k).0)
      modifies this`slots, this`queues, this`entered, this`left, this`marker, this`msip, this`script, this`polls,
               this`issued, this`prioStack, bitmap`groupMap, bitmap.groupTable
      ensures Ready() && State() == Round(s, p)
    {
      hide Runnable, Synced, RunExecutor, PreemptSection, PriorityBitmap.Valid;
      GrantKeepsOrder(s, p);
      Run(p);
      CompleteExecutor();
      assert State() == Round(s, p);
    }

    /** The interrupt-free scheduling loop. */
    method Drain()
      requires Ready() && Nesting.Nested(prioStack, |queues|)
      modifies this`slots, this`queues, this`entered, this`left, this`marker, this`msip, this`script, this`polls,
               this`issued, this`prioStack, bitmap`groupMap, bitmap.groupTable
      ensures Ready() && State() == Schedule(old(State()))
      ensures prioStack == old(prioStack)
    {
      hide Round, Runnable, Synced, RunExecutor, CompleteSection;
      ghost var s := State();
      var token := TryPreempt();
      while token.Some?
        invariant Schedulable(s) && s.k.SameSize(old(View())) && Schedule(s) == Schedule(old(State()))
        invariant Valid() && State() == s.(k := PreemptSection(s.k).0) && token == PreemptSection(s.k).1
        decreases Load(s.script), Total(s.k.queues)
      {
        RunRound(s, token.value);
        s := State();
        token := TryPreempt();
      }
    }
  }
}
