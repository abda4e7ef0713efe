/** A task's result reaches its join handle at most once, and is the value its future returned. */
module Delivery {
  import opened Wrappers
  import opened Kernel
  import opened Machine
  import opened Nesting
  import opened Binding
  import opened Lifecycle

  /** The result is either still stored or has been handed out, never both. */
  predicate ResultOk(s: Slot) {
    match s.output
    case None => s.result == None && s.delivered == []
    case Some(v) => (s.result == Some(v) && s.delivered == []) || (s.result == None && s.delivered == [v])
  }

  ghost predicate ResultsOk(k: Kernel) {
    forall t | 0 <= t < |k.slots| :: ResultOk(k.slots[t])
  }

  /** An activation that has stored the result of `t` and not yet dropped its future. */
  predicate Finishes(f: Frame, t: TaskId) {
    f.Soft? && f.soft.Running? && (f.soft.run == Hold(t, ClearExec) || f.soft.run == Hold(t, DropFuture))
  }

  predicate Finishing(fs: Frames, t: TaskId) {
    fs.Over? && (Finishes(fs.top, t) || Finishing(fs.below, t))
  }

  /** A live future has returned nothing, unless its result has just been stored. */
  ghost predicate LiveIsSilent(m: Machine) {
    forall t | 0 <= t < |m.k.slots| && m.k.slots[t].cell == Live :: m.k.slots[t].output == None || Finishing(m.fs, t)
  }

  /** Where an activation relies on the task having returned nothing. */
  predicate ExpectsSilence(f: Frame, t: TaskId) {
    match f
    case Soft(Running(_, Hold(u, Polling))) => u == t
    case Soft(Running(_, Hold(u, StoreResult(_)))) => u == t
    case Spawn(u, _, pc) => u == t && InWindow(pc) && pc != ClearResult
    case _ => false
  }

  ghost predicate FramesSilent(slots: seq<Slot>, fs: Frames) {
    fs.Over? ==>
      && (forall t | 0 <= t < |slots| && ExpectsSilence(fs.top, t) :: slots[t].output == None)
      && FramesSilent(slots, fs.below)
  }

  ghost predicate Delivered(m: Machine) {
    ResultsOk(m.k) && LiveIsSilent(m) && FramesSilent(m.k.slots, m.fs)
  }

  // ---- frames ----

  lemma {:induction false} SilenceKeepsFrames(slots: seq<Slot>, slots': seq<Slot>, fs: Frames, t: TaskId)
    requires |slots'| == |slots| && FramesSilent(slots, fs)
    requires forall u | 0 <= u < |slots| && u != t :: slots'[u].output == slots[u].output
    requires t < |slots| ==> slots'[t].output == slots[t].output || slots'[t].output == None
                             || (Holders(fs, t) == 0 && !Spawning(fs, t))
    ensures FramesSilent(slots', fs)
  {
    if fs.Over? { SilenceKeepsFrames(slots, slots', fs.below, t); }
  }

  lemma {:induction false} FinishingIsHolding(fs: Frames, t: TaskId)
    ensures Finishing(fs, t) ==> 0 < Holders(fs, t)
  {
    if fs.Over? { FinishingIsHolding(fs.below, t); }
  }

  /** The step stores no result and writes no future. */
  ghost predicate Mute(k: Kernel, k': Kernel) {
    && k'.SameSize(k)
    && (forall t | 0 <= t < |k.slots| :: ResultOk(k.slots[t]) ==> ResultOk(k'.slots[t]))
    && (forall t | 0 <= t < |k.slots| :: k'.slots[t].output == k.slots[t].output && k'.slots[t].cell == k.slots[t].cell)
  }

  lemma MuteKeepsDelivered(m: Machine, m': Machine)
    requires Delivered(m) && Mute(m.k, m'.k) && m.fs.Over?
    requires m'.fs == m.fs || m'.fs == m.fs.below || (m'.fs.Over? && m'.fs.below == m.fs)
             || (m'.fs.Over? && m'.fs.below == m.fs.below)
    requires forall t :: Finishing(m.fs, t) ==> Finishing(m'.fs, t)
    requires m'.fs.Over? && m'.fs != m.fs && m'.fs != m.fs.below ==>
               forall t | 0 <= t < |m.k.slots| && ExpectsSilence(m'.fs.top, t) :: m'.k.slots[t].output == None
    ensures Delivered(m')
  {
    SilenceKeepsFrames(m.k.slots, m'.k.slots, m.fs, |m.k.slots|);
  }

  // ---- steps ----

  lemma WakeIsMute(k: Kernel, t: TaskId, pc: WakePc)
    requires k.WellFormed() && FrameOk(Wake(t, pc), |k.queues|, |k.slots|)
    ensures Mute(k, WakeStep(k, t, pc).0)
  {}

  lemma WakeSectionIsMute(k: Kernel, t: TaskId)
    requires k.WellFormed() && t < |k.slots|
    ensures Mute(k, WakeSection(k, t))
  {}

  lemma DespawnIsMute(k: Kernel, t: TaskId)
    requires k.WellFormed() && t < |k.slots|
    ensures Mute(k, DespawnSection(k, t))
  {
    hide WakeSection;
    var s := k.slots[t];
    if s.joinWaker.Some? { WakeSectionIsMute(k.Put(t, s.(spawned := false, joinWaker := None)), s.joinWaker.value); }
  }

  lemma JoinIsMute(k: Kernel, w: TaskId, u: TaskId, pc: JoinPc)
    requires k.WellFormed() && FrameOk(Join(w, u, pc), |k.queues|, |k.slots|)
    ensures Mute(k, JoinStep(k, w, u, pc).0)
  {}

  lemma SpawnIsMute(k: Kernel, t: TaskId, p: Prio, pc: SpawnPc)
    requires k.WellFormed() && FrameOk(Spawn(t, p, pc), |k.queues|, |k.slots|)
    requires pc != ClearResult && pc != WriteFuture
    ensures var r := SpawnStep(k, t, p, pc);
            Mute(k, r.0) && (r.1.Goto? ==> forall u :: ExpectsSilence(r.1.f, u) ==> ExpectsSilence(Spawn(t, p, pc), u))
  {}

  lemma ClearKeepsDelivered(m: Machine, m': Machine, t: TaskId, p: Prio)
    requires LifeInv(m) && Delivered(m) && m.fs.top == Spawn(t, p, ClearResult) && Step(m, Tick) == Some(m')
    ensures Delivered(m')
  {
    SilenceKeepsFrames(m.k.slots, m'.k.slots, m.fs.below, t);
  }

  lemma WriteKeepsDelivered(m: Machine, m': Machine, t: TaskId, p: Prio)
    requires LifeInv(m) && Delivered(m) && m.fs.top == Spawn(t, p, WriteFuture) && Step(m, Tick) == Some(m')
    ensures Delivered(m')
  {
    assert ExpectsSilence(m.fs.top, t);
    SilenceKeepsFrames(m.k.slots, m'.k.slots, m.fs.below, t);
  }

  lemma SpawnKeepsDelivered(m: Machine, m': Machine, t: TaskId, p: Prio, pc: SpawnPc)
    requires LifeInv(m) && Delivered(m) && m.fs.top == Spawn(t, p, pc) && Step(m, Tick) == Some(m')
    ensures Delivered(m')
  {
    if pc == ClearResult {
      ClearKeepsDelivered(m, m', t, p);
    } else if pc == WriteFuture {
      WriteKeepsDelivered(m, m', t, p);
    } else {
      SpawnIsMute(m.k, t, p, pc);
      MuteKeepsDelivered(m, m');
    }
  }

  lemma DequeueKeepsDelivered(m: Machine, m': Machine, p: Prio)
    requires LifeInv(m) && Delivered(m) && m.fs.top == Soft(Running(p, Dequeue)) && Step(m, Tick) == Some(m')
    ensures Delivered(m')
  {
    MuteKeepsDelivered(m, m');
  }

  /** Only the innermost activation holds its task, and no window of that task is below it. */
  lemma HeldAlone(m: Machine, t: TaskId)
    requires LifeInv(m) && m.fs.Over? && Held(m.fs.top) == Some(t) && t < |m.k.slots|
    ensures Holders(m.fs.below, t) == 0 && !Spawning(m.fs.below, t) && !Finishing(m.fs.below, t)
  {
    HolderIsUnique(m.k.slots, m.fs, t, |m.k.queues|);
    FinishingIsHolding(m.fs.below, t);
  }

  lemma PutIsMute(k: Kernel, t: TaskId, s: Slot)
    requires k.WellFormed() && t < |k.slots| && k.SlotOk(s)
    requires s.(spawned := k.slots[t].spawned, exec := k.slots[t].exec, pollFn := k.slots[t].pollFn, owed := k.slots[t].owed)
             == k.slots[t]
    ensures Mute(k, k.Put(t, s)) && Mute(k, k)
  {}

  lemma HoldIsMute(k: Kernel, p: Prio, t: TaskId, pc: HoldPc)
    requires k.WellFormed() && FrameOk(Soft(Running(p, Hold(t, pc))), |k.queues|, |k.slots|)
    requires !pc.StoreResult? && pc != DropFuture
    ensures Mute(k, HoldStep(k, p, t, pc).0)
  {
    hide Mute, DespawnSection;
    if pc == Despawn {
      DespawnIsMute(k, t);
    } else if pc == ClearExec || pc == SetExited {
      StoreIsMute(k, p, t, pc);
    } else {
      DispatchIsMute(k, p, t, pc);
    }
  }

  lemma StoreIsMute(k: Kernel, p: Prio, t: TaskId, pc: HoldPc)
    requires k.WellFormed() && FrameOk(Soft(Running(p, Hold(t, pc))), |k.queues|, |k.slots|)
    requires pc == ClearExec || pc == SetExited
    ensures Mute(k, HoldStep(k, p, t, pc).0)
  {
    hide Mute, DespawnSection;
    PutIsMute(k, t, HoldStep(k, p, t, pc).0.slots[t]);
  }

  lemma DispatchIsMute(k: Kernel, p: Prio, t: TaskId, pc: HoldPc)
    requires k.WellFormed() && FrameOk(Soft(Running(p, Hold(t, pc))), |k.queues|, |k.slots|)
    requires pc == Dispatch || pc == Polling
    ensures Mute(k, HoldStep(k, p, t, pc).0)
  {
    hide Mute, DespawnSection;
    PutIsMute(k, t, k.slots[t].(owed := false));
    PutIsMute(k, t, k.slots[t]);
  }

  lemma StoreKeepsDelivered(m: Machine, m': Machine, p: Prio, t: TaskId, v: Value)
    requires LifeInv(m) && Delivered(m)
    requires m.fs.top == Soft(Running(p, Hold(t, StoreResult(v)))) && Step(m, Tick) == Some(m')
    ensures Delivered(m')
  {
    HeldAlone(m, t);
    assert ExpectsSilence(m.fs.top, t) && ResultOk(m.k.slots[t]);
    SilenceKeepsFrames(m.k.slots, m'.k.slots, m.fs.below, t);
  }

  lemma DropKeepsDelivered(m: Machine, m': Machine, p: Prio, t: TaskId)
    requires LifeInv(m) && Delivered(m)
    requires m.fs.top == Soft(Running(p, Hold(t, DropFuture))) && Step(m, Tick) == Some(m')
    ensures Delivered(m')
  {
    SilenceKeepsFrames(m.k.slots, m'.k.slots, m.fs.below, t);
  }

  lemma HoldKeepsDelivered(m: Machine, m': Machine, p: Prio, t: TaskId, pc: HoldPc)
    requires LifeInv(m) && Delivered(m)
    requires m.fs.top == Soft(Running(p, Hold(t, pc))) && Step(m, Tick) == Some(m')
    ensures Delivered(m')
  {
    if pc.StoreResult? {
      StoreKeepsDelivered(m, m', p, t, pc.v);
    } else if pc == DropFuture {
      DropKeepsDelivered(m, m', p, t);
    } else {
      HeldAlone(m, t);
      if pc == Dispatch { DispatchFindsFuture(m, p, t); }
      HoldIsMute(m.k, p, t, pc);
      MuteKeepsDelivered(m, m');
    }
  }

  lemma StepKeepsDelivered(m: Machine, a: Action, m': Machine)
    requires LifeInv(m) && Delivered(m) && Step(m, a) == Some(m')
    ensures Delivered(m')
  {
    match a
    case Tick => TickKeepsDelivered(m, m');
    case Ready(v) => MuteKeepsDelivered(m, m');
    case MaskedWake(t) =>
      WakeSectionIsMute(m.k, t);
      MuteKeepsDelivered(m, m');
    case _ => MuteKeepsDelivered(m, m');
  }

  lemma TickKeepsDelivered(m: Machine, m': Machine)
    requires LifeInv(m) && Delivered(m) && Step(m, Tick) == Some(m')
    ensures Delivered(m')
  {
    match m.fs.top
    case Wake(t, pc) =>
      WakeIsMute(m.k, t, pc);
      MuteKeepsDelivered(m, m');
    case Spawn(t, p, pc) => SpawnKeepsDelivered(m, m', t, p, pc);
    case Join(w, u, pc) =>
      JoinIsMute(m.k, w, u, pc);
      MuteKeepsDelivered(m, m');
    case Soft(Running(p, Dequeue)) => DequeueKeepsDelivered(m, m', p);
    case Soft(Running(p, Hold(t, pc))) => HoldKeepsDelivered(m, m', p, t, pc);
    case Idle =>
    case _ => MuteKeepsDelivered(m, m');
  }

  lemma {:induction false} RunKeepsDelivered(m: Machine, acts: seq<Action>, m': Machine)
    requires LifeInv(m) && Delivered(m) && Run(m, acts) == Some(m') && RespawnsSafe(m, acts)
    ensures LifeInv(m') && Delivered(m')
    decreases |acts|
  {
    if acts != [] {
      var next := Step(m, acts[0]).value;
      StepKeepsBoundInv(m, acts[0], next);
      StepKeepsLife(m, acts[0], next);
      StepKeepsDelivered(m, acts[0], next);
      RunKeepsDelivered(next, acts[1..], m');
    }
  }

  /** What a join handle hands out is what the future returned, at most once per incarnation; and
      a returned value is not lost: it is stored until it is handed out. */
  lemma ResultIsDeliveredOnce(n: nat, tasks: nat, acts: seq<Action>, m: Machine, t: TaskId)
    requires 0 < n && Run(Init(n, tasks), acts) == Some(m) && t < |m.k.slots|
    requires RespawnsSafe(Init(n, tasks), acts)
    ensures var s := m.k.slots[t];
            && |s.delivered| <= 1
            && (s.delivered != [] ==> s.output == Some(s.delivered[0]) && s.result == None)
            && (s.output.Some? && s.delivered == [] ==> s.result == s.output)
  {
    InitLife(n, tasks);
    RunKeepsDelivered(Init(n, tasks), acts, m);
    assert ResultOk(m.k.slots[t]);
  }

  // ---- counted on the steps ----

  /** A poll that looks for a result and finds one returns with it and leaves the cell empty; one that finds
      none goes on to park its waker, which it then does. */
  lemma JoinAnswers(m: Machine, m': Machine, w: TaskId, u: TaskId, pc: JoinPc)
    requires m.fs.Over? && m.fs.top == Join(w, u, pc) && Step(m, Tick) == Some(m')
    ensures w < |m.k.slots| == |m'.k.slots| && m'.mie == m.mie
    ensures m'.k == m.k.(slots := m.k.slots[w := m'.k.slots[w]])
    ensures var s, s' := m.k.slots[w], m'.k.slots[w];
            match pc
            case TakeResult =>
              if s.result.Some?
              then m'.fs == m.fs.below && s' == s.(result := None, delivered := s.delivered + [s.result.value])
              else m'.fs == Over(Join(w, u, StoreWaker), m.fs.below) && s' == s
            case StoreWaker => m'.fs == m.fs.below && s' == s.(joinWaker := Some(u))
  {
    assert m'.k.slots == m.k.slots[w := m'.k.slots[w]];
  }

  /** What the future of `w` has returned, and what polls of its handle have found, since a spawn last
      emptied the result cell; read off the steps of a run. */
  datatype Ledger = Ledger(returned: Option<Value>, found: seq<Value>)

  function Note(m: Machine, a: Action, w: TaskId, l: Ledger): Ledger {
    match (a, m.fs)
    case (Ready(v), Over(Soft(Running(_, Hold(t, Polling))), _)) => if t == w then l.(returned := Some(v)) else l
    case (Tick, Over(Spawn(t, _, ClearResult), _)) => if t == w then Ledger(None, []) else l
    case (Tick, Over(Join(t, _, TakeResult), _)) =>
      if t == w && w < |m.k.slots| && m.k.slots[w].result.Some?
      then l.(found := l.found + [m.k.slots[w].result.value]) else l
    case _ => l
  }

  function Account(m: Machine, acts: seq<Action>, w: TaskId, l: Ledger): Ledger
    decreases |acts|
  {
    if acts == [] then l
    else match Step(m, acts[0])
      case None => l
      case Some(m') => Account(m', acts[1..], w, Note(m, acts[0], w, l))
  }

  /** The value that a completion sequence of `w` has yet to store. */
  function Storing(fs: Frames, w: TaskId): Option<Value> {
    match fs
    case Empty => None
    case Over(Soft(Running(_, Hold(t, StoreResult(v)))), below) => if t == w then Some(v) else Storing(below, w)
    case Over(_, below) => Storing(below, w)
  }

  predicate Agrees(m: Machine, w: TaskId, l: Ledger) {
    && w < |m.k.slots| && l.found == m.k.slots[w].delivered
    && l.returned == if Storing(m.fs, w).Some? then Storing(m.fs, w) else m.k.slots[w].output
  }

  lemma {:induction false} StoringIsHolding(fs: Frames, w: TaskId)
    requires Holders(fs, w) == 0
    ensures Storing(fs, w) == None
  {
    if fs.Over? { StoringIsHolding(fs.below, w); }
  }

  predicate SameHistory(k: Kernel, k': Kernel, w: TaskId) {
    w < |k.slots| == |k'.slots| && k'.slots[w].delivered == k.slots[w].delivered && k'.slots[w].output == k.slots[w].output
  }

  lemma WakeSectionKeepsHistory(k: Kernel, t: TaskId, w: TaskId)
    requires k.WellFormed() && t < |k.slots| && w < |k.slots|
    ensures SameHistory(k, WakeSection(k, t), w)
  {}

  lemma WakeKeepsHistory(k: Kernel, t: TaskId, pc: WakePc, w: TaskId)
    requires k.WellFormed() && FrameOk(Wake(t, pc), |k.queues|, |k.slots|) && w < |k.slots|
    ensures SameHistory(k, WakeStep(k, t, pc).0, w)
    ensures var next := WakeStep(k, t, pc).1; next.Goto? ==> next.f.Wake?
  {}

  lemma SpawnKeepsHistory(k: Kernel, t: TaskId, p: Prio, pc: SpawnPc, w: TaskId)
    requires k.WellFormed() && FrameOk(Spawn(t, p, pc), |k.queues|, |k.slots|) && w < |k.slots|
    ensures var (k', next) := SpawnStep(k, t, p, pc);
            && (next.Goto? ==> next.f.Spawn?)
            && if t == w && pc == ClearResult
               then |k'.slots| == |k.slots| && k'.slots[w].delivered == [] && k'.slots[w].output == None
               else SameHistory(k, k', w)
  {
    hide PendSection;
  }

  lemma DespawnKeepsHistory(k: Kernel, t: TaskId, w: TaskId)
    requires k.WellFormed() && t < |k.slots| && w < |k.slots|
    ensures SameHistory(k, DespawnSection(k, t), w)
  {
    hide WakeSection;
    var s := k.slots[t];
    assert k.SlotOk(s);
    if s.joinWaker.Some? { WakeSectionKeepsHistory(k.Put(t, s.(spawned := false, joinWaker := None)), s.joinWaker.value, w); }
  }

  lemma HoldKeepsHistory(k: Kernel, p: Prio, t: TaskId, pc: HoldPc, w: TaskId)
    requires k.WellFormed() && FrameOk(Soft(Running(p, Hold(t, pc))), |k.queues|, |k.slots|) && w < |k.slots|
    ensures var (k', next) := HoldStep(k, p, t, pc);
            && (next.Goto? ==> next.f.Soft? && next.f.soft.Running? && (next.f.soft.run.Hold? ==> !next.f.soft.run.hold.StoreResult?))
            && if t == w && pc.StoreResult?
               then |k'.slots| == |k.slots| && k'.slots[w].delivered == k.slots[w].delivered && k'.slots[w].output == Some(pc.v)
               else SameHistory(k, k', w)
  {
    hide DespawnSection;
    if pc == Despawn { DespawnKeepsHistory(k, t, w); }
  }

  lemma {:induction false} StoringIsGripped(fs: Frames, w: TaskId)
    requires !Gripped(fs, w)
    ensures Storing(fs, w) == None
  {
    if fs.Over? { StoringIsGripped(fs.below, w); }
  }

  lemma SpawnAgrees(m: Machine, m': Machine, t: TaskId, p: Prio, pc: SpawnPc, w: TaskId, l: Ledger)
    requires LifeInv(m) && m.fs.Over? && m.fs.top == Spawn(t, p, pc) && Step(m, Tick) == Some(m') && Agrees(m, w, l)
    ensures Agrees(m', w, Note(m, Tick, w, l))
  {
    hide SpawnStep;
    SpawnKeepsHistory(m.k, t, p, pc, w);
    if t == w && pc == ClearResult { StoringIsGripped(m.fs.below, w); }
  }

  lemma HoldAgrees(m: Machine, m': Machine, p: Prio, t: TaskId, pc: HoldPc, w: TaskId, l: Ledger)
    requires LifeInv(m) && m.fs.Over? && m.fs.top == Soft(Running(p, Hold(t, pc))) && Step(m, Tick) == Some(m') && Agrees(m, w, l)
    ensures Agrees(m', w, Note(m, Tick, w, l))
  {
    hide HoldStep;
    HoldKeepsHistory(m.k, p, t, pc, w);
    if t == w {
      HeldAlone(m, t);
      StoringIsHolding(m.fs.below, w);
    }
  }

  lemma JoinAgrees(m: Machine, m': Machine, v: TaskId, u: TaskId, pc: JoinPc, w: TaskId, l: Ledger)
    requires m.fs.Over? && m.fs.top == Join(v, u, pc) && Step(m, Tick) == Some(m') && Agrees(m, w, l)
    ensures Agrees(m', w, Note(m, Tick, w, l))
  {
    hide JoinStep;
    JoinAnswers(m, m', v, u, pc);
  }

  lemma TickAgrees(m: Machine, m': Machine, w: TaskId, l: Ledger)
    requires LifeInv(m) && Step(m, Tick) == Some(m') && Agrees(m, w, l)
    ensures Agrees(m', w, Note(m, Tick, w, l))
  {
    hide WakeStep, SpawnStep, HoldStep, JoinStep;
    match m.fs.top
    case Wake(t, pc) => WakeKeepsHistory(m.k, t, pc, w);
    case Spawn(t, p, pc) => SpawnAgrees(m, m', t, p, pc, w, l);
    case Join(v, u, pc) => JoinAgrees(m, m', v, u, pc, w, l);
    case Soft(Running(p, Hold(t, pc))) => HoldAgrees(m, m', p, t, pc, w, l);
    case Idle =>
    case _ => OthersKeepSlots(m.k, m.fs.top);
  }

  lemma StepAgrees(m: Machine, a: Action, m': Machine, w: TaskId, l: Ledger)
    requires LifeInv(m) && Delivered(m) && Step(m, a) == Some(m') && Agrees(m, w, l)
    ensures Agrees(m', w, Note(m, a, w, l))
  {
    hide TopStep, WakeSection;
    match a
    case Tick => TickAgrees(m, m', w, l);
    case MaskedWake(t) => WakeSectionKeepsHistory(m.k, t, w);
    case _ =>
  }

  lemma {:induction false} RunAgrees(m: Machine, acts: seq<Action>, m': Machine, w: TaskId, l: Ledger)
    requires LifeInv(m) && Delivered(m) && Run(m, acts) == Some(m') && RespawnsSafe(m, acts) && Agrees(m, w, l)
    ensures Agrees(m', w, Account(m, acts, w, l))
    decreases |acts|
  {
    hide Step, Note, Agrees;
    if acts != [] {
      var next := Step(m, acts[0]).value;
      StepKeepsBoundInv(m, acts[0], next);
      StepKeepsLife(m, acts[0], next);
      StepKeepsDelivered(m, acts[0], next);
      StepAgrees(m, acts[0], next, w, l);
      RunAgrees(next, acts[1..], m', w, Note(m, acts[0], w, l));
    }
  }

  /** Over every run of safe respawns from power-up, since a spawn of `w` last emptied its result cell: at
      most one poll of its handle has found a value, and it was the one that the future returned; a value
      stored is that one too, and no poll has found it yet; and a returned value that no poll has found is
      stored, or about to be. */
  lemma ResultIsTakenOnce(n: nat, tasks: nat, acts: seq<Action>, m: Machine, w: TaskId)
    requires 0 < n && Run(Init(n, tasks), acts) == Some(m) && w < tasks && RespawnsSafe(Init(n, tasks), acts)
    ensures w < |m.k.slots|
    ensures var l, s := Account(Init(n, tasks), acts, w, Ledger(None, [])), m.k.slots[w];
            && |l.found| <= 1
            && (l.found != [] ==> l.returned == Some(l.found[0]) && s.result == None)
            && (s.result.Some? ==> l.returned == s.result && l.found == [])
            && (l.returned.Some? && l.found == [] ==> s.result == l.returned || Storing(m.fs, w) == l.returned)
  {
    hide Step, Run;
    var init := Init(n, tasks);
    InitLife(n, tasks);
    assert init.k.slots[w] == FRESH_SLOT && Storing(init.fs, w) == None;
    RunKeepsDelivered(init, acts, m);
    RunAgrees(init, acts, m, w, Ledger(None, []));
    assert ResultOk(m.k.slots[w]);
    if Storing(m.fs, w).Some? { StoringIsSilent(m.k.slots, m.fs, w); }
  }

  lemma {:induction false} StoringIsSilent(slots: seq<Slot>, fs: Frames, w: TaskId)
    requires FramesSilent(slots, fs) && w < |slots| && Storing(fs, w).Some?
    ensures slots[w].output == None
  {
    match fs
    case Over(Soft(Running(_, Hold(t, StoreResult(_)))), below) =>
      if t == w { assert ExpectsSilence(fs.top, w); } else { StoringIsSilent(slots, below, w); }
    case Over(_, below) => StoringIsSilent(slots, below, w);
  }
}
