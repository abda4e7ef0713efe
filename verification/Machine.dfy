/** The scheduler as a state machine: one hart, one control stack, and interrupts that may land
    between any two atomic sections while MIE is set. */
module Machine {
  import opened Wrappers
  import opened Kernel

  // ---- control frames and their program counters ----

  /** `wake_task`. */
  datatype WakePc = LoadExec | FetchOr(p: Prio) | Enqueue(p: Prio) | StoreMarker | SendIpi

  /** `TaskStorage::spawn` up to `HoldToken`, then `Spawner::spawn`. */
  datatype SpawnPc =
    | Claim | ClearResult | ClearWaker | SetPollFn | WriteFuture | HoldToken
    | Mark | Push | Decide

  /** `JoinHandle::poll`. */
  datatype JoinPc = TakeResult | StoreWaker

  /** `TaskStorage::poll` on the task just dequeued, from the load of its poll function to the end
      of the completion sequence. */
  datatype HoldPc = Dispatch | Polling | StoreResult(v: Value) | ClearExec | DropFuture | SetExited | Despawn

  /** `Executor::run`. */
  datatype RunPc = Dequeue | Hold(t: TaskId, hold: HoldPc)

  /** The generated `MachineSoft`. */
  datatype SoftPc =
    | Hook | ClearPend | TryPreempt
    | EnableIrq(p: Prio) | Running(p: Prio, run: RunPc) | DisableIrq(p: Prio) | Complete(p: Prio)
    | Return

  datatype Frame =
    | Main    // the application's `main`, before `platform::start` enables interrupts
    | Idle    // the loop around `platform::idle`
    | Handler // a timer or external interrupt handler
    | Soft(soft: SoftPc)
    | Wake(task: TaskId, wake: WakePc)
    | Spawn(task: TaskId, prio: Prio, spawn: SpawnPc)
    | Join(worker: TaskId, joiner: TaskId, join: JoinPc)

  /** The shared stack, innermost activation first. */
  datatype Frames = Empty | Over(top: Frame, below: Frames)

  datatype Machine = Machine(k: Kernel, mie: bool, fs: Frames)

  function Init(n: nat, tasks: nat): Machine
    requires 0 < n
  {
    Machine(Fresh(n, tasks), false, Over(Main, Empty))
  }

  // ---- frames ----

  /** The identifiers a frame mentions exist. */
  predicate FrameOk(f: Frame, n: nat, tasks: nat) {
    match f
    case Soft(_) =>
      && (RunToken(f).Some? ==> RunToken(f).value < n)
      && (Held(f).Some? ==> Held(f).value < tasks)
    case Wake(t, FetchOr(p)) => t < tasks && p < n
    case Wake(t, Enqueue(p)) => t < tasks && p < n
    case Wake(t, _) => t < tasks
    case Spawn(t, p, _) => t < tasks && p < n
    case Join(w, u, _) => w < tasks && u < tasks
    case _ => true
  }

  predicate FramesOk(fs: Frames, n: nat, tasks: nat) {
    fs.Over? ==> FrameOk(fs.top, n, tasks) && FramesOk(fs.below, n, tasks)
  }

  /** The run token a `MachineSoft` activation holds: granted by `try_preempt`, given back by
      `complete_executor`. */
  function RunToken(f: Frame): Option<Prio> {
    match f
    case Soft(EnableIrq(p)) => Some(p)
    case Soft(Running(p, _)) => Some(p)
    case Soft(DisableIrq(p)) => Some(p)
    case Soft(Complete(p)) => Some(p)
    case _ => None
  }

  /** The task a `run` activation has taken off its queue and not yet finished with. */
  function Held(f: Frame): Option<TaskId> {
    match f
    case Soft(Running(_, Hold(t, _))) => Some(t)
    case _ => None
  }

  /** The frames in which application code runs, and from which it may call the kernel: `main`,
      interrupt handlers, the user's software-interrupt hook, a task's `poll`, the destructor of its
      future, the closure that builds a future, and the code holding a spawn token. */
  predicate RunsUserCode(f: Frame) {
    match f
    case Main => true
    case Handler => true
    case Soft(Hook) => true
    case Soft(Running(_, Hold(_, Polling))) => true
    case Soft(Running(_, Hold(_, DropFuture))) => true
    case Spawn(_, _, WriteFuture) => true
    case Spawn(_, _, HoldToken) => true
    case _ => false
  }

  // ---- one atomic step of the innermost frame ----

  /** What a step does to the control stack. */
  datatype Next = Goto(f: Frame) | Leave | Stuck

  function WakeStep(k: Kernel, t: TaskId, pc: WakePc): (r: (Kernel, Next))
    requires k.WellFormed() && FrameOk(Wake(t, pc), |k.queues|, |k.slots|)
    ensures r.0.WellFormed() && r.0.SameSize(k)
    ensures r.1.Goto? ==> FrameOk(r.1.f, |k.queues|, |k.slots|)
  {
    var s := k.slots[t];
    match pc
    case LoadExec =>
      (match s.exec
       case None => (k, Leave)
       case Some(p) => (k.Put(t, s.(owed := true)), Goto(Wake(t, FetchOr(p)))))
    case FetchOr(p) =>
      if s.queued then (k, Leave) else (k.Put(t, s.(queued := true)), Goto(Wake(t, Enqueue(p))))
    case Enqueue(p) => (EnqueueSection(k, t, p), Goto(Wake(t, StoreMarker)))
    case StoreMarker => (k.(marker := true), Goto(Wake(t, SendIpi)))
    case SendIpi => (k.(msip := true), Leave)
  }

  function SpawnStep(k: Kernel, t: TaskId, p: Prio, pc: SpawnPc): (r: (Kernel, Next))
    requires k.WellFormed() && FrameOk(Spawn(t, p, pc), |k.queues|, |k.slots|)
    ensures r.0.WellFormed() && r.0.SameSize(k)
    ensures r.1.Goto? ==> FrameOk(r.1.f, |k.queues|, |k.slots|)
  {
    var s := k.slots[t];
    match pc
    case Claim =>
      // `SpawnError` when the slot is already spawned
      if s.spawned then (k, Leave) else (k.Put(t, s.(spawned := true)), Goto(Spawn(t, p, ClearResult)))
    case ClearResult =>
      (k.Put(t, s.(result := None, output := None, delivered := [])), Goto(Spawn(t, p, ClearWaker)))
    case ClearWaker => (k.Put(t, s.(joinWaker := None)), Goto(Spawn(t, p, SetPollFn)))
    case SetPollFn => (k.Put(t, s.(pollFn := PollFuture)), Goto(Spawn(t, p, WriteFuture)))
    case WriteFuture => (k.Put(t, s.(cell := Live)), Goto(Spawn(t, p, HoldToken)))
    case HoldToken => (k, Goto(Spawn(t, p, Mark)))
    case Mark =>
      if s.queued then (k, Leave) else (k.Put(t, s.(queued := true)), Goto(Spawn(t, p, Push)))
    case Push => (EnqueueSection(k, t, p), Goto(Spawn(t, p, Decide)))
    case Decide => (PendSection(k), Leave)
  }

  function JoinStep(k: Kernel, w: TaskId, u: TaskId, pc: JoinPc): (r: (Kernel, Next))
    requires k.WellFormed() && FrameOk(Join(w, u, pc), |k.queues|, |k.slots|)
    ensures r.0.WellFormed() && r.0.SameSize(k)
    ensures r.1.Goto? ==> FrameOk(r.1.f, |k.queues|, |k.slots|)
  {
    var s := k.slots[w];
    match pc
    case TakeResult =>
      (match s.result
       case Some(v) => (k.Put(w, s.(result := None, delivered := s.delivered + [v])), Leave)
       case None => (k, Goto(Join(w, u, StoreWaker))))
    case StoreWaker => (k.Put(w, s.(joinWaker := Some(u))), Leave)
  }

  function SoftStep(k: Kernel, pc: SoftPc): (r: (Kernel, Next))
    requires k.WellFormed() && FrameOk(Soft(pc), |k.queues|, |k.slots|)
    ensures r.0.WellFormed() && r.0.SameSize(k)
    ensures r.1.Goto? ==> FrameOk(r.1.f, |k.queues|, |k.slots|)
  {
    match pc
    case Hook => (k, Goto(Soft(ClearPend)))
    case ClearPend =>
      (k.(marker := false, msip := false), Goto(Soft(if k.marker then TryPreempt else Return)))
    case TryPreempt =>
      var (k', token) := PreemptSection(k);
      (k', Goto(Soft(if token.Some? then EnableIrq(token.value) else Return)))
    case EnableIrq(p) => (k, Goto(Soft(Running(p, Dequeue))))
    case Running(p, run) => RunStep(k, p, run)
    case DisableIrq(p) => (k, Goto(Soft(Complete(p))))
    case Complete(p) => (CompleteSection(k), Goto(Soft(TryPreempt)))
    case Return => (k, Leave)
  }

  function RunStep(k: Kernel, p: Prio, pc: RunPc): (r: (Kernel, Next))
    requires k.WellFormed() && FrameOk(Soft(Running(p, pc)), |k.queues|, |k.slots|)
    ensures r.0.WellFormed() && r.0.SameSize(k)
    ensures r.1.Goto? ==> FrameOk(r.1.f, |k.queues|, |k.slots|)
  {
    match pc
    case Dequeue =>
      if k.queues[p] == [] then (DrainedSection(k, p), Goto(Soft(DisableIrq(p))))
      else (PopSection(k, p), Goto(Soft(Running(p, Hold(k.queues[p][0], Dispatch)))))
    case Hold(t, hold) => HoldStep(k, p, t, hold)
  }

  function HoldStep(k: Kernel, p: Prio, t: TaskId, pc: HoldPc): (r: (Kernel, Next))
    requires k.WellFormed() && FrameOk(Soft(Running(p, Hold(t, pc))), |k.queues|, |k.slots|)
    ensures r.0.WellFormed() && r.0.SameSize(k)
    ensures r.1.Goto? ==> FrameOk(r.1.f, |k.queues|, |k.slots|)
  {
    var s := k.slots[t];
    match pc
    case Dispatch =>
      (match s.pollFn
       case Unset => (k, Stuck) // `unwrap` on None
       case PollFuture => (k.Put(t, s.(owed := false)), Goto(Soft(Running(p, Hold(t, Polling)))))
       case PollExited => (k.Put(t, s.(owed := false)), Goto(Soft(Running(p, Dequeue)))))
    case Polling => (k, Goto(Soft(Running(p, Dequeue)))) // the future returned Pending
    case StoreResult(v) =>
      (k.Put(t, s.(result := Some(v), output := Some(v))), Goto(Soft(Running(p, Hold(t, ClearExec)))))
    case ClearExec => (k.Put(t, s.(exec := None)), Goto(Soft(Running(p, Hold(t, DropFuture)))))
    case DropFuture => (k.Put(t, s.(cell := Dropped)), Goto(Soft(Running(p, Hold(t, SetExited)))))
    case SetExited => (k.Put(t, s.(pollFn := PollExited)), Goto(Soft(Running(p, Hold(t, Despawn)))))
    case Despawn => (DespawnSection(k, t), Goto(Soft(Running(p, Dequeue))))
  }

  function TopStep(k: Kernel, f: Frame): (r: (Kernel, Next))
    requires k.WellFormed() && FrameOk(f, |k.queues|, |k.slots|)
    ensures r.0.WellFormed() && r.0.SameSize(k)
    ensures r.1.Goto? ==> FrameOk(r.1.f, |k.queues|, |k.slots|)
  {
    match f
    case Main => (k, Goto(Idle)) // `platform::start`
    case Idle => (k, Stuck)      // only an interrupt leaves the idle loop
    case Handler => (k, Leave)
    case Soft(pc) => SoftStep(k, pc)
    case Wake(t, pc) => WakeStep(k, t, pc)
    case Spawn(t, p, pc) => SpawnStep(k, t, p, pc)
    case Join(w, u, pc) => JoinStep(k, w, u, pc)
  }

  /** MIE after the step that turns `f` into `next`: `start`, `enable_interrupts`,
      `disable_interrupts`, and the `mret` that leaves a trap and restores the enabled state it
      was taken in. */
  function MieAfter(mie: bool, f: Frame, next: Next): bool {
    if next.Leave? && (f.Handler? || f.Soft?) then true
    else match f
      case Main => true
      case Soft(EnableIrq(_)) => true
      case Soft(DisableIrq(_)) => false
      case _ => mie
  }

  // ---- the environment's moves and the machine's ----

  datatype Action =
    | Tick                // the innermost frame takes its next atomic step
    | Ready(v: Value)     // a future being polled returns Ready
    | Irq | Msi           // an interrupt is taken
    | CallWake(t: TaskId)
    | CallSpawn(t: TaskId, p: Prio)
    | CallJoin(w: TaskId) // a task polls a join handle
    | MaskedWake(t: TaskId) // user code wakes a task inside its own critical section

  /** The state after action `a`, or None when `a` is not possible. */
  function Step(m: Machine, a: Action): Option<Machine> {
    var k := m.k;
    if !(k.WellFormed() && m.fs.Over? && FrameOk(m.fs.top, |k.queues|, |k.slots|)) then None
    else
      var f, below := m.fs.top, m.fs.below;
      match a
      case Tick =>
        var (k', next) := TopStep(k, f);
        (match next
         case Goto(f') => Some(Machine(k', MieAfter(m.mie, f, next), Over(f', below)))
         case Leave => Some(Machine(k', MieAfter(m.mie, f, next), below))
         case Stuck => None)
      case Ready(v) =>
        (match f
         case Soft(Running(p, Hold(t, Polling))) =>
           Some(m.(fs := Over(Soft(Running(p, Hold(t, StoreResult(v)))), below)))
         case _ => None)
      case Irq => if m.mie then Some(Machine(k, false, Over(Handler, m.fs))) else None
      case Msi => if m.mie && k.msip then Some(Machine(k, false, Over(Soft(Hook), m.fs))) else None
      case CallWake(t) =>
        if RunsUserCode(f) && t < |k.slots| then Some(m.(fs := Over(Wake(t, LoadExec), m.fs))) else None
      case CallSpawn(t, p) =>
        if RunsUserCode(f) && t < |k.slots| && p < |k.queues|
        then Some(m.(fs := Over(Spawn(t, p, Claim), m.fs))) else None
      case CallJoin(w) =>
        (match f
         case Soft(Running(_, Hold(u, Polling))) =>
           if w < |k.slots| then Some(m.(fs := Over(Join(w, u, TakeResult), m.fs))) else None
         case _ => None)
      case MaskedWake(t) =>
        if RunsUserCode(f) && t < |k.slots| then Some(m.(k := WakeSection(k, t))) else None
  }

  // ---- runs ----

  /** The state after a whole sequence of actions, or None if one of them is not possible. */
  function Run(m: Machine, acts: seq<Action>): Option<Machine>
    decreases |acts|
  {
    if acts == [] then Some(m)
    else match Step(m, acts[0])
      case None => None
      case Some(m') => Run(m', acts[1..])
  }
}
