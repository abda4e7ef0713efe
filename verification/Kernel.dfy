/** The scheduler's shared state and its atomic sections.

    Every function below is one stretch of the code that no interrupt can split: a single atomic
    access, or a body run inside `critical_section::with`.  Both the interleaved machine
    (Machine.dfy) and the imperative scheduler (Scheduler.dfy) are built from these functions. */
module Kernel {
  import opened Wrappers

  type TaskId = nat
  type Prio = nat  // 0 is the highest priority
  type Value = int // what a task's future returns

  datatype PollFn = Unset | PollFuture | PollExited

  /** The future's storage as an observer sees it: never written, holding a future, or dropped. */
  datatype Cell = Unwritten | Live | Dropped

  /** A `TaskStorage`: the two state flags, the back pointer, the poll function, the join state
      and the future cell.  The last four fields are history that the code does not keep:
      the executor the task was last enqueued on, whether a wake is still owed a poll, what the
      current incarnation returned, and what its join handle has handed out. */
  datatype Slot = Slot(
    spawned: bool, queued: bool,
    exec: Option<Prio>,
    pollFn: PollFn,
    result: Option<Value>, joinWaker: Option<TaskId>,
    cell: Cell,
    home: Option<Prio>, owed: bool, output: Option<Value>, delivered: seq<Value>)

  const FRESH_SLOT := Slot(false, false, None, Unset, None, None, Unwritten, None, false, None, [])

  /** `entered` and `left` record, per queue, every task ever pushed and ever popped. */
  datatype Kernel = Kernel(
    slots: seq<Slot>,
    queues: seq<seq<TaskId>>,
    ready: set<Prio>,
    prioStack: seq<Prio>,
    marker: bool, msip: bool,
    entered: seq<seq<TaskId>>, left: seq<seq<TaskId>>)
  {
    predicate WellFormed() {
      && 0 < |queues| == |entered| == |left|
      && (forall p | p in ready :: p < |queues|)
      && (forall p, i | 0 <= p < |queues| && 0 <= i < |queues[p]| :: queues[p][i] < |slots|)
      && (forall t | 0 <= t < |slots| :: SlotOk(slots[t]))
    }

    predicate SameSize(k: Kernel) {
      |queues| == |k.queues| && |slots| == |k.slots|
    }

    predicate SlotOk(s: Slot) {
      && (s.exec.Some? ==> s.exec.value < |queues|)
      && (s.home.Some? ==> s.home.value < |queues|)
      && (s.joinWaker.Some? ==> s.joinWaker.value < |slots|)
    }

    /** A store to one task slot. */
    function Put(t: TaskId, s: Slot): (k: Kernel)
      requires WellFormed() && t < |slots| && SlotOk(s)
      ensures k.WellFormed() && k.SameSize(this)
    {
      this.(slots := slots[t := s])
    }
  }

  function Fresh(n: nat, tasks: nat): (k: Kernel)
    requires 0 < n
    ensures k.WellFormed()
  {
    Kernel(seq(tasks, _ => FRESH_SLOT), seq(n, _ => []), {}, [], false, false,
           seq(n, _ => []), seq(n, _ => []))
  }

  // ---- priorities ----

  /** The bitmap's `highest`: the smallest ready number, or None. */
  function Highest(k: Kernel): (h: Option<Prio>)
    requires k.WellFormed()
    ensures h == None <==> k.ready == {}
    ensures h.Some? ==> h.value in k.ready && forall q | q in k.ready :: h.value <= q
  {
    LeastFrom(k.ready, 0, |k.queues|)
  }

  function LeastFrom(s: set<nat>, i: nat, n: nat): (h: Option<nat>)
    requires i <= n && forall p | p in s :: i <= p < n
    ensures h == None <==> s == {}
    ensures h.Some? ==> h.value in s && forall q | q in s :: h.value <= q
    decreases n - i
  {
    if i == n then None else if i in s then Some(i) else LeastFrom(s, i + 1, n)
  }

  /** Does priority `p` outrank whatever is on top of the priority stack? */
  predicate Outranks(p: Prio, stack: seq<Prio>) {
    stack == [] || p < stack[|stack| - 1]
  }

  ghost predicate SomethingOutranks(k: Kernel) {
    exists p :: p in k.ready && Outranks(p, k.prioStack)
  }

  // ---- enqueue and dequeue ----

  /** The closure that `Executor::enqueue` runs inside `run_enqueue`'s critical section: store the
      back pointer, push the task, set the executor's bit. */
  function EnqueueSection(k: Kernel, t: TaskId, p: Prio): (k': Kernel)
    requires k.WellFormed() && t < |k.slots| && p < |k.queues|
    ensures k'.WellFormed() && k'.SameSize(k)
  {
    k.(slots := k.slots[t := k.slots[t].(exec := Some(p), home := Some(p))],
       queues := k.queues[p := k.queues[p] + [t]],
       ready := k.ready + {p},
       entered := k.entered[p := k.entered[p] + [t]])
  }

  /** `Executor::run`'s dequeue section when the queue is nonempty: pop the head and clear its
      `RUN_QUEUED` flag. */
  function PopSection(k: Kernel, p: Prio): (k': Kernel)
    requires k.WellFormed() && p < |k.queues| && k.queues[p] != []
    ensures k'.WellFormed() && k'.SameSize(k)
  {
    var t := k.queues[p][0];
    k.(slots := k.slots[t := k.slots[t].(queued := false)],
       queues := k.queues[p := k.queues[p][1..]],
       left := k.left[p := k.left[p] + [t]])
  }

  /** The same section when the queue is empty: clear the executor's bit. */
  function DrainedSection(k: Kernel, p: Prio): (k': Kernel)
    requires k.WellFormed()
    ensures k'.WellFormed() && k'.SameSize(k)
  {
    k.(ready := k.ready - {p})
  }

  // ---- pending, preempting, completing ----

  /** `platform::pend` run with interrupts masked. */
  function Pend(k: Kernel): (k': Kernel)
    requires k.WellFormed()
    ensures k'.WellFormed() && k'.SameSize(k)
  {
    k.(marker := true, msip := true)
  }

  /** The decision section of `Spawner::spawn`. */
  function PendSection(k: Kernel): (k': Kernel)
    requires k.WellFormed()
    ensures k'.WellFormed() && k'.SameSize(k) && (k' == k || k' == Pend(k))
  {
    match Highest(k)
    case None => k
    case Some(p) => if Outranks(p, k.prioStack) then Pend(k) else k
  }

  /** `Spawner::try_preempt`; a full priority vector makes the push fail and yields None. */
  function PreemptSection(k: Kernel): (r: (Kernel, Option<Prio>))
    requires k.WellFormed()
    ensures r.0.WellFormed() && r.0.SameSize(k)
    ensures r.1.Some? ==> r.1.value < |k.queues|
  {
    match Highest(k)
    case None => (k, None)
    case Some(p) =>
      if Outranks(p, k.prioStack) && |k.prioStack| < |k.queues|
      then (k.(prioStack := k.prioStack + [p]), Some(p))
      else (k, None)
  }

  /** `Spawner::complete_executor`; popping an empty vector does nothing. */
  function CompleteSection(k: Kernel): (k': Kernel)
    requires k.WellFormed()
    ensures k'.WellFormed() && k'.SameSize(k)
  {
    if k.prioStack == [] then k else k.(prioStack := k.prioStack[..|k.prioStack| - 1])
  }

  // ---- waking and finishing ----

  /** `wake_task` run with interrupts masked. */
  function WakeSection(k: Kernel, t: TaskId): (k': Kernel)
    requires k.WellFormed() && t < |k.slots|
    ensures k'.WellFormed() && k'.SameSize(k)
  {
    var s := k.slots[t];
    match s.exec
    case None => k
    case Some(p) =>
      if s.queued then k.Put(t, s.(owed := true))
      else Pend(EnqueueSection(k.Put(t, s.(owed := true, queued := true)), t, p))
  }

  /** The completion section of `TaskStorage::poll`: clear `SPAWNED`, take the join waker and
      wake it. */
  function DespawnSection(k: Kernel, t: TaskId): (k': Kernel)
    requires k.WellFormed() && t < |k.slots|
    ensures k'.WellFormed() && k'.SameSize(k)
  {
    var s := k.slots[t];
    var k1 := k.Put(t, s.(spawned := false, joinWaker := None));
    match s.joinWaker
    case None => k1
    case Some(u) => WakeSection(k1, u)
  }
}
