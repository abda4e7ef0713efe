/** Timer delays, the timer queue and the hardware compare register, as a state machine.

    A poll that registers a delay first tests the clock, then schedules the entry in one critical
    section, then writes the compare register; before each of the last two it can be preempted by the
    timer interrupt or by a poll at a higher priority.  `entering` holds the polls preempted after the
    test, which may go on in any order; those preempted after scheduling form a stack, `arming`. */
module TimerService {
  import opened Wrappers
  import opened Timers

  const MAX: nat := 0xFFFF_FFFF_FFFF_FFFF

  // ---- deadlines ----

  function Min(a: nat, b: nat): nat { if a <= b then a else b }

  /** `after`: the product is taken in 128 bits, the quotient cast to 64, the sum saturates. */
  function DeadlineAfter(now: nat, nanos: nat, hz: nat): nat {
    Min(now + nanos * hz / 1_000_000_000 % (MAX + 1), MAX)
  }

  /** The cast loses nothing up to 1 GHz.  Beyond, the deadline is the requested instant (saturated)
      exactly when the quotient fits in 64 bits or the sum saturates anyway. */
  lemma DeadlineIsHonestIff(now: nat, nanos: nat, hz: nat)
    requires now <= MAX && nanos <= MAX
    ensures hz <= 1_000_000_000 ==> nanos * hz / 1_000_000_000 <= MAX
    ensures var ticks := nanos * hz / 1_000_000_000;
            DeadlineAfter(now, nanos, hz) == Min(now + ticks, MAX)
            <==> ticks <= MAX || now + ticks % (MAX + 1) >= MAX
  {
    hide Min;
    if hz <= 1_000_000_000 { QuotientFits(nanos, hz); }
    CastIsHonestIff(now, nanos * hz / 1_000_000_000);
  }

  lemma QuotientFits(nanos: nat, hz: nat)
    requires nanos <= MAX && hz <= 1_000_000_000
    ensures nanos * hz / 1_000_000_000 <= MAX
  {
    assert nanos * (1_000_000_000 - hz) >= 0;
    assert nanos * hz <= nanos * 1_000_000_000;
  }

  lemma CastIsHonestIff(now: nat, ticks: nat)
    requires now <= MAX
    ensures Min(now + ticks % (MAX + 1), MAX) == Min(now + ticks, MAX) <==> ticks <= MAX || now + ticks % (MAX + 1) >= MAX
  {
    if ticks > MAX { assert now + ticks > MAX; }
  }

  /** At 2 GHz a delay of 2^63 nanoseconds is taken for one of none: it expires at once, where the
      saturated sum would be the end of time. */
  lemma CastLosesTicks(now: nat)
    requires now < MAX
    ensures var nanos, hz := 0x8000_0000_0000_0000, 2_000_000_000;
            nanos <= MAX && DeadlineAfter(now, nanos, hz) == now && Min(now + nanos * hz / 1_000_000_000, MAX) == MAX
  {
    assert 0x8000_0000_0000_0000 * 2_000_000_000 / 1_000_000_000 == MAX + 1;
    assert (MAX + 1) % (MAX + 1) == 0;
  }

  // ---- state ----

  /** A `TimerDelay`; `done` (returned Ready, or dropped) and `woken` (fired) are history. */
  datatype Delay = Delay(deadline: nat, registered: bool, done: bool, woken: bool)

  datatype Firing = Firing(entry: Entry, at: nat)

  /** `scheduled`, `fired` and `cancelled` log every entry that entered or left the queue. */
  datatype State = State(
    capacity: nat, queue: seq<Entry>, compare: nat, now: nat,
    delays: seq<Delay>, entering: set<nat>, arming: seq<nat>,
    scheduled: multiset<Entry>, fired: seq<Firing>, cancelled: multiset<Entry>)

  function Init(capacity: nat, now: nat, compare: nat): State {
    State(capacity, [], compare, now, [], {}, [], multiset{}, [], multiset{})
  }

  datatype Action =
    | After(nanos: nat, hz: nat) // a task calls `after`
    | Poll(id: nat)              // a delay is polled: the test of `now`
    | Enter(id: nat)             // the poll of an unregistered delay goes on to `schedule`
    | Arm                        // the innermost poll in `arming` goes on to write the compare register
    | Drop(id: nat)
    | Clock(now: nat)            // time passes
    | Isr                        // `handle_timer_isr`

  function Fire(s: State, fires: seq<Entry>): seq<Delay>
  {
    if fires == [] then s.delays
    else
      var ds, id := Fire(s, fires[..|fires| - 1]), fires[|fires| - 1].data;
      if id < |ds| then ds[id := ds[id].(woken := true)] else ds
  }

  function Log(fired: seq<Firing>, fires: seq<Entry>, now: nat): seq<Firing> {
    if fires == [] then fired
    else Log(fired, fires[..|fires| - 1], now) + [Firing(fires[|fires| - 1], now)]
  }

  function Schedule(s: State, id: nat): Option<State>
    requires id < |s.delays|
  {
    var d := s.delays[id].deadline;
    if |s.queue| >= s.capacity then None // `schedule` panics on a full queue
    else
      var s' := s.(queue := s.queue + [Entry(d, id)], scheduled := s.scheduled + multiset{Entry(d, id)});
      if NewEarliest(s.queue, d) then Some(s'.(arming := s.arming + [id]))
      else Some(s'.(delays := s.delays[id := s.delays[id].(registered := true)]))
  }

  function Service(s: State): State {
    var (stays, fires) := Sweep(s.queue, 0, s.now);
    var next := Earliest(stays);
    s.(queue := stays, compare := if next.Some? then next.value else MAX,
       delays := Fire(s, fires), fired := Log(s.fired, fires, s.now))
  }

  function Unregistered(s: State, id: nat): State
    requires id < |s.delays|
  {
    s.(delays := s.delays[id := s.delays[id].(registered := false, done := true)])
  }

  function CancelEntry(s: State, id: nat): State {
    var queue' := Remove(s.queue, id).0;
    s.(queue := queue', cancelled := s.cancelled + (multiset(s.queue) - multiset(queue')))
  }

  /** The state after `a`, or None when `a` is not possible. */
  function Step(s: State, a: Action): Option<State> {
    match a
    case After(nanos, hz) =>
      Some(s.(delays := s.delays + [Delay(DeadlineAfter(s.now, nanos, hz), false, false, false)]))
    case Poll(id) =>
      if id >= |s.delays| || s.delays[id].done || id in s.arming || id in s.entering then None
      else if s.now >= s.delays[id].deadline
      then Some(s.(delays := s.delays[id := s.delays[id].(registered := false, done := true)]))
      else if s.delays[id].registered then Some(s)
      else Some(s.(entering := s.entering + {id}))
    case Enter(id) =>
      if id >= |s.delays| || id !in s.entering then None else Schedule(s.(entering := s.entering - {id}), id)
    case Arm =>
      if s.arming == [] || s.arming[|s.arming| - 1] >= |s.delays| then None
      else
        var id := s.arming[|s.arming| - 1];
        Some(s.(arming := s.arming[..|s.arming| - 1], compare := s.delays[id].deadline,
                delays := s.delays[id := s.delays[id].(registered := true)]))
    case Drop(id) =>
      if id >= |s.delays| || s.delays[id].done || id in s.arming || id in s.entering then None
      else
        Some(if s.delays[id].registered then CancelEntry(Unregistered(s, id), id) else Unregistered(s, id))
    case Clock(now) => if s.now <= now <= MAX then Some(s.(now := now)) else None
    case Isr => if s.now >= s.compare then Some(Service(s)) else None
  }

  function Run(s: State, acts: seq<Action>): Option<State>
    decreases |acts|
  {
    if acts == [] then Some(s)
    else match Step(s, acts[0])
      case None => None
      case Some(s') => Run(s', acts[1..])
  }

  /** Cancelling touches nothing but the queue and its log, and adds nothing to the queue. */
  lemma CancelShrinks(s: State, id: nat)
    ensures var s' := CancelEntry(s, id);
            && s' == s.(queue := s'.queue, cancelled := s'.cancelled)
            && forall e | e in s'.queue :: e in s.queue
  {
    hide Remove;
    var s' := CancelEntry(s, id);
    RemoveTakesFrom(s.queue, id);
    forall e | e in s'.queue ensures e in s.queue { assert e in multiset(s'.queue) && e in multiset(s.queue); }
  }

  lemma RemoveTakesFrom(q: seq<Entry>, data: nat)
    ensures multiset(Remove(q, data).0) <= multiset(q) && |Remove(q, data).0| <= |q|
  {}

  // ---- what a poll answers ----

  /** A poll finishes its delay exactly when the deadline has come; otherwise a registered delay is left as
      it is, and any other goes on to schedule. */
  lemma PollAnswers(s: State, id: nat)
    requires Step(s, Poll(id)).Some?
    ensures id < |s.delays| && !s.delays[id].done
    ensures var s', d := Step(s, Poll(id)).value, s.delays[id];
            && |s'.delays| == |s.delays| && (forall j | 0 <= j < |s.delays| && j != id :: s'.delays[j] == s.delays[j])
            && (s'.delays[id].done <==> d.deadline <= s.now)
            && (d.deadline <= s.now ==> !s'.delays[id].registered && s' == s.(delays := s'.delays))
            && (s.now < d.deadline ==> s' == if d.registered then s else s.(entering := s.entering + {id}))
  {}

  /** The run polls the delay at time `d` or later. */
  predicate PolledFrom(s: State, acts: seq<Action>, id: nat, d: nat)
    decreases |acts|
  {
    acts != [] && (
      || (acts[0] == Poll(id) && d <= s.now)
      || (Step(s, acts[0]).Some? && PolledFrom(Step(s, acts[0]).value, acts[1..], id, d)))
  }

  lemma {:induction false} FireFinishesNothing(s: State, fires: seq<Entry>)
    ensures |Fire(s, fires)| == |s.delays|
    ensures forall id | 0 <= id < |s.delays| ::
              Fire(s, fires)[id].done == s.delays[id].done && Fire(s, fires)[id].deadline == s.delays[id].deadline
  {
    if fires != [] { FireFinishesNothing(s, fires[..|fires| - 1]); }
  }

  lemma StepFinishes(s: State, a: Action, id: nat)
    requires Step(s, a).Some? && id < |Step(s, a).value.delays|
    ensures var s' := Step(s, a).value;
            if id < |s.delays| then
              && s'.delays[id].deadline == s.delays[id].deadline
              && (s'.delays[id].done <==> s.delays[id].done || (a == Poll(id) && s.delays[id].deadline <= s.now) || a == Drop(id))
            else !s'.delays[id].done && a != Poll(id) && a != Drop(id)
  {
    hide Service, Schedule, CancelEntry;
    match a
    case Isr => ServiceFinishesNothing(s);
    case Drop(j) => CancelShrinks(Unregistered(s, j), j);
    case Enter(j) => ScheduleFinishesNothing(s.(entering := s.entering - {j}), j);
    case _ =>
  }

  lemma ServiceFinishesNothing(s: State)
    ensures var s' := Service(s);
            |s'.delays| == |s.delays| && forall id | 0 <= id < |s.delays| ::
              s'.delays[id].done == s.delays[id].done && s'.delays[id].deadline == s.delays[id].deadline
  {
    hide Sweep, Fire, Log, Earliest;
    FireFinishesNothing(s, Sweep(s.queue, 0, s.now).1);
  }

  lemma ScheduleFinishesNothing(s: State, id: nat)
    requires id < |s.delays| && Schedule(s, id).Some?
    ensures var s' := Schedule(s, id).value;
            |s'.delays| == |s.delays| && forall j | 0 <= j < |s.delays| ::
              s'.delays[j].done == s.delays[j].done && s'.delays[j].deadline == s.delays[j].deadline
  {}

  lemma {:induction false} DelaysStay(s: State, acts: seq<Action>)
    requires Run(s, acts).Some?
    ensures |s.delays| <= |Run(s, acts).value.delays|
    ensures forall id | 0 <= id < |s.delays| :: Run(s, acts).value.delays[id].deadline == s.delays[id].deadline
    decreases |acts|
  {
    hide Step;
    if acts != [] {
      StepKeepsDelays(s, acts[0]);
      DelaysStay(Step(s, acts[0]).value, acts[1..]);
    }
  }

  lemma StepKeepsDelays(s: State, a: Action)
    requires Step(s, a).Some?
    ensures |s.delays| <= |Step(s, a).value.delays|
    ensures forall id | 0 <= id < |s.delays| :: Step(s, a).value.delays[id].deadline == s.delays[id].deadline
  {
    hide Service, Schedule, CancelEntry;
    match a
    case Isr => ServiceFinishesNothing(s);
    case Drop(j) => CancelShrinks(Unregistered(s, j), j);
    case Enter(j) => ScheduleFinishesNothing(s.(entering := s.entering - {j}), j);
    case _ =>
  }

  /** Over every run, a delay is done at the end if and only if it was polled at its deadline or later, or
      dropped. */
  lemma {:induction false} DoneIff(s: State, acts: seq<Action>, id: nat)
    requires Run(s, acts).Some? && id < |Run(s, acts).value.delays| && (id < |s.delays| ==> !s.delays[id].done)
    ensures var end := Run(s, acts).value;
            end.delays[id].done <==> PolledFrom(s, acts, id, end.delays[id].deadline) || Drop(id) in acts
    decreases |acts|
  {
    hide Step;
    if acts != [] {
      var s1, rest := Step(s, acts[0]).value, acts[1..];
      var d := Run(s, acts).value.delays[id].deadline;
      assert Drop(id) in acts <==> acts[0] == Drop(id) || Drop(id) in rest by { assert acts == [acts[0]] + rest; }
      DelaysStay(s1, rest);
      if id < |s1.delays| {
        StepFinishes(s, acts[0], id);
        if s1.delays[id].done { DoneStays(s1, rest, id); } else { DoneIff(s1, rest, id); }
      } else {
        StepKeepsDelays(s, acts[0]);
        NoneYet(s, acts[0], id);
        DoneIff(s1, rest, id);
      }
    }
  }

  lemma NoneYet(s: State, a: Action, id: nat)
    requires Step(s, a).Some? && |s.delays| <= id
    ensures a != Poll(id) && a != Drop(id)
  {}

  lemma {:induction false} DoneStays(s: State, acts: seq<Action>, id: nat)
    requires Run(s, acts).Some? && id < |s.delays| && s.delays[id].done
    ensures var end := Run(s, acts).value; id < |end.delays| && end.delays[id].done
    decreases |acts|
  {
    hide Step;
    if acts != [] {
      var s1 := Step(s, acts[0]).value;
      StepKeepsDelays(s, acts[0]);
      StepFinishes(s, acts[0], id);
      DoneStays(s1, acts[1..], id);
    }
  }

  /** A delay of `nanos` nanoseconds, started now on a clock whose ticks fit in 64 bits, is done later if and
      only if it has been polled that many ticks from now, or at the end of time, or later. */
  lemma DelayIsHonoured(s: State, nanos: nat, hz: nat, acts: seq<Action>)
    requires s.now <= MAX && nanos * hz / 1_000_000_000 <= MAX && Step(s, After(nanos, hz)).Some?
    requires var s1 := Step(s, After(nanos, hz)).value; Run(s1, acts).Some? && Drop(|s.delays|) !in acts
    ensures var s1 := Step(s, After(nanos, hz)).value;
            var id, end := |s.delays|, Run(s1, acts).value;
            && id < |end.delays|
            && (end.delays[id].done <==> PolledFrom(s1, acts, id, Min(s.now + nanos * hz / 1_000_000_000, MAX)))
  {
    hide Run, PolledFrom, Min;
    var s1 := Step(s, After(nanos, hz)).value;
    DelaysStay(s1, acts);
    DoneIff(s1, acts, |s.delays|);
    SmallTicks(nanos * hz / 1_000_000_000);
  }

  lemma SmallTicks(ticks: nat)
    requires ticks <= MAX
    ensures ticks % (MAX + 1) == ticks
  {}

  // ---- every entry leaves the queue once ----

  function Entries(fired: seq<Firing>): multiset<Entry> {
    if fired == [] then multiset{} else Entries(fired[..|fired| - 1]) + multiset{fired[|fired| - 1].entry}
  }

  /** Whatever was scheduled is queued, or has fired, or was cancelled, once each; and nothing fires
      before its deadline. */
  ghost predicate Conserved(s: State) {
    && s.scheduled == multiset(s.queue) + Entries(s.fired) + s.cancelled
    && (forall i | 0 <= i < |s.fired| :: s.fired[i].entry.deadline <= s.fired[i].at <= s.now)
  }

  lemma EntriesAppend(fired: seq<Firing>, f: Firing)
    ensures Entries(fired + [f]) == Entries(fired) + multiset{f.entry}
  {
    assert (fired + [f])[..|fired|] == fired;
  }

  lemma MultisetAppend(fires: seq<Entry>)
    requires fires != []
    ensures multiset(fires) == multiset(fires[..|fires| - 1]) + multiset{fires[|fires| - 1]}
  {
    assert fires == fires[..|fires| - 1] + [fires[|fires| - 1]];
  }

  lemma {:induction false} LogAdds(fired: seq<Firing>, fires: seq<Entry>, now: nat)
    ensures Entries(Log(fired, fires, now)) == Entries(fired) + multiset(fires)
  {
    hide Entries;
    if fires != [] {
      var last := |fires| - 1;
      LogAdds(fired, fires[..last], now);
      EntriesAppend(Log(fired, fires[..last], now), Firing(fires[last], now));
      MultisetAppend(fires);
    }
  }

  lemma {:induction false} LogIsInTime(fired: seq<Firing>, fires: seq<Entry>, now: nat)
    requires forall i | 0 <= i < |fired| :: fired[i].entry.deadline <= fired[i].at <= now
    requires forall e | e in fires :: e.deadline <= now
    ensures var all := Log(fired, fires, now); forall i | 0 <= i < |all| :: all[i].entry.deadline <= all[i].at <= now
  {
    if fires != [] {
      var last := |fires| - 1;
      LogIsInTime(fired, fires[..last], now);
      assert fires[last].deadline <= now;
      assert Log(fired, fires, now) == Log(fired, fires[..last], now) + [Firing(fires[last], now)];
    }
  }

  lemma ServiceConserves(s: State)
    requires Conserved(s)
    ensures Conserved(Service(s))
  {
    hide Entries, Log, Sweep, Fire, Earliest;
    SweepSplits(s.queue, 0, s.now);
    LogAdds(s.fired, Sweep(s.queue, 0, s.now).1, s.now);
    LogIsInTime(s.fired, Sweep(s.queue, 0, s.now).1, s.now);
  }

  lemma MovesToCancelled(queue: multiset<Entry>, queue': multiset<Entry>, fired: multiset<Entry>, cancelled: multiset<Entry>)
    requires queue' <= queue
    ensures queue + fired + cancelled == queue' + fired + (cancelled + (queue - queue'))
  {}

  lemma CancelConserves(s: State, id: nat)
    requires Conserved(s)
    ensures Conserved(CancelEntry(s, id))
  {
    hide Entries, Remove;
    var q' := Remove(s.queue, id).0;
    RemoveTakesFrom(s.queue, id);
    MovesToCancelled(multiset(s.queue), multiset(q'), Entries(s.fired), s.cancelled);
  }

  lemma DropConserves(s: State, id: nat)
    requires Conserved(s) && Step(s, Drop(id)).Some?
    ensures Conserved(Step(s, Drop(id)).value)
  {
    hide CancelEntry, Entries;
    assert Conserved(Unregistered(s, id));
    CancelConserves(Unregistered(s, id), id);
  }

  lemma ScheduleConserves(s: State, id: nat)
    requires Conserved(s) && id < |s.delays| && Schedule(s, id).Some?
    ensures Conserved(Schedule(s, id).value)
  {
    hide Entries;
  }

  lemma StepConserves(s: State, a: Action)
    requires Conserved(s) && Step(s, a).Some?
    ensures Conserved(Step(s, a).value)
  {
    hide Service, Entries, Schedule, Remove;
    match a
    case Enter(id) => ScheduleConserves(s.(entering := s.entering - {id}), id);
    case Isr => ServiceConserves(s);
    case Drop(id) => DropConserves(s, id);
    case _ =>
  }

  /** Over every run, whatever preempts what. */
  lemma {:induction false} RunConserves(s: State, acts: seq<Action>)
    requires Conserved(s) && Run(s, acts).Some?
    ensures Conserved(Run(s, acts).value)
    decreases |acts|
  {
    if acts != [] {
      StepConserves(s, acts[0]);
      RunConserves(Step(s, acts[0]).value, acts[1..]);
    }
  }

  // ---- no pending delay is forgotten ----

  predicate Queued(s: State, id: nat)
    requires id < |s.delays|
  {
    Entry(s.delays[id].deadline, id) in s.queue
  }

  /** A delay that has returned Pending and is neither finished nor woken has its entry, and only
      one, in the queue. */
  ghost predicate Tracked(s: State) {
    && |s.queue| <= s.capacity
    && (forall e | e in s.queue :: e.data < |s.delays| && e.deadline == s.delays[e.data].deadline)
    && (forall e :: multiset(s.queue)[e] <= 1)
    && (forall id | 0 <= id < |s.delays| :: DelayOk(s, id))
    && (forall i | 0 <= i < |s.arming| :: s.arming[i] < |s.delays|)
    && (forall i, j | 0 <= i < j < |s.arming| :: s.arming[i] != s.arming[j])
  }

  ghost predicate DelayOk(s: State, id: nat)
    requires id < |s.delays|
  {
    var d := s.delays[id];
    && (d.done ==> !d.registered && id !in s.arming && id !in s.entering)
    && (id in s.entering ==> !d.registered && id !in s.arming)
    && (d.woken ==> d.deadline <= s.now)
    && (id in s.arming ==> !d.registered)
    && (!d.done && (d.registered || id in s.arming) ==> Queued(s, id) || d.woken)
    && (!d.done && !d.registered && id !in s.arming ==> !Queued(s, id))
  }

  lemma {:induction false} FireMarks(s: State, fires: seq<Entry>)
    ensures |Fire(s, fires)| == |s.delays|
    ensures forall id | 0 <= id < |s.delays| ::
              Fire(s, fires)[id] == s.delays[id].(woken := s.delays[id].woken || exists e :: e in fires && e.data == id)
  {
    if fires != [] {
      FireMarks(s, fires[..|fires| - 1]);
      assert fires == fires[..|fires| - 1] + [fires[|fires| - 1]];
    }
  }

  lemma SweepMembers(q: seq<Entry>, now: nat)
    ensures var (stays, fires) := Sweep(q, 0, now);
            && |stays| <= |q|
            && (forall e :: e in q <==> e in stays || e in fires)
            && (forall e :: multiset(stays)[e] <= multiset(q)[e])
            && (forall e | e in fires :: e.deadline <= now)
            && (forall e | e in stays :: now < e.deadline)
  {
    var (stays, fires) := Sweep(q, 0, now);
    SweepSplits(q, 0, now);
    assert |multiset(q)| == |stays| + |fires|;
    assert forall e :: e in q <==> e in multiset(q);
  }

  lemma ServiceTracks(s: State)
    requires Tracked(s)
    ensures Tracked(Service(s))
  {
    hide Sweep, Fire, Log, Earliest;
    var s' := Service(s);
    var (stays, fires) := Sweep(s.queue, 0, s.now);
    SweepMembers(s.queue, s.now);
    FireMarks(s, fires);
    forall id | 0 <= id < |s'.delays| ensures DelayOk(s', id) {
      assert DelayOk(s, id);
      assert Queued(s, id) ==> Queued(s', id) || Entry(s.delays[id].deadline, id) in fires;
    }
  }

  lemma ScheduleTracks(s: State, id: nat)
    requires Tracked(s) && id < |s.delays| && Schedule(s, id).Some?
    requires !s.delays[id].done && !s.delays[id].registered && id !in s.arming && id !in s.entering
    ensures Tracked(Schedule(s, id).value)
  {
    var s' := Schedule(s, id).value;
    var e := Entry(s.delays[id].deadline, id);
    assert DelayOk(s, id) && multiset(s.queue)[e] == 0;
    forall j | 0 <= j < |s'.delays| ensures DelayOk(s', j) {
      assert DelayOk(s, j);
      assert e in s'.queue;
      assert j != id ==> (Queued(s', j) <==> Queued(s, j));
    }
  }

  lemma EnterTracks(s: State, id: nat)
    requires Tracked(s) && Step(s, Enter(id)).Some?
    ensures Tracked(Step(s, Enter(id)).value)
  {
    var s1 := s.(entering := s.entering - {id});
    assert DelayOk(s, id);
    forall j | 0 <= j < |s.delays| ensures DelayOk(s1, j) {
      assert DelayOk(s, j);
      assert Queued(s1, j) <==> Queued(s, j);
    }
    ScheduleTracks(s1, id);
  }

  /** A change to one delay that keeps its deadline, and to the polls under way, as far as another sees it. */
  lemma BystanderIsOk(s: State, s': State, id: nat, j: nat)
    requires |s'.delays| == |s.delays| && j < |s.delays| && j != id && DelayOk(s, j) && s'.delays[j] == s.delays[j]
    requires s'.now == s.now && s'.entering == s.entering && (j in s'.arming <==> j in s.arming)
    requires Queued(s', j) <==> Queued(s, j)
    ensures DelayOk(s', j)
  {}

  lemma PopIsNew(arming: seq<nat>)
    requires arming != [] && forall i, j | 0 <= i < j < |arming| :: arming[i] != arming[j]
    ensures var last := |arming| - 1;
            && arming[last] !in arming[..last]
            && forall x :: x in arming <==> x in arming[..last] || x == arming[last]
  {
    assert arming == arming[..|arming| - 1] + [arming[|arming| - 1]];
  }

  lemma ArmedIsOk(s: State, s': State, id: nat)
    requires id < |s.delays| == |s'.delays| && DelayOk(s, id) && id in s.arming && id !in s'.arming
    requires s'.delays[id] == s.delays[id].(registered := true)
    requires s'.queue == s.queue && s'.now == s.now && s'.entering == s.entering
    ensures DelayOk(s', id)
  {}

  lemma ArmTracks(s: State)
    requires Tracked(s) && Step(s, Arm).Some?
    ensures Tracked(Step(s, Arm).value)
  {
    hide DelayOk;
    var s', id := Step(s, Arm).value, s.arming[|s.arming| - 1];
    PopIsNew(s.arming);
    ArmedIsOk(s, s', id);
    forall j | 0 <= j < |s'.delays| && j != id ensures DelayOk(s', j) { BystanderIsOk(s, s', id, j); }
  }

  /** What `cancel` takes off the queue: all that belongs to the delay, if that was queued at most once. */
  lemma CancelTakesOff(s: State, id: nat)
    requires forall e | e in s.queue && e.data == id :: multiset(s.queue)[e] <= 1
    requires forall e, e' | e in s.queue && e' in s.queue && e.data == id && e'.data == id :: e == e'
    ensures var s' := CancelEntry(s, id);
            && s' == s.(queue := s'.queue, cancelled := s'.cancelled)
            && |s'.queue| <= |s.queue|
            && (forall e :: multiset(s'.queue)[e] <= multiset(s.queue)[e])
            && (forall e :: e in s'.queue <==> e in s.queue && e.data != id)
  {
    var q, q' := s.queue, Remove(s.queue, id).0;
    assert forall e :: e in q <==> e in multiset(q);
    assert forall e :: e in q' <==> e in multiset(q');
    if Remove(q, id).1 {
      var i :| 0 <= i < |q| && q[i].data == id && multiset(q) == multiset(q') + multiset{q[i]};
      assert q[i] in q;
    }
  }

  lemma DroppedIsOk(s: State, s': State, id: nat)
    requires id < |s.delays| == |s'.delays| && DelayOk(s, id)
    requires id !in s.arming && id !in s.entering && s'.arming == s.arming && s'.entering == s.entering && s'.now == s.now
    requires s'.delays[id] == s.delays[id].(registered := false, done := true)
    requires !Queued(s', id)
    ensures DelayOk(s', id)
  {}

  lemma DropTracks(s: State, id: nat)
    requires Tracked(s) && Step(s, Drop(id)).Some?
    ensures Tracked(Step(s, Drop(id)).value)
  {
    hide CancelEntry, DelayOk;
    var s' := Step(s, Drop(id)).value;
    var s1 := Unregistered(s, id);
    UnregisteredIsNotQueued(s, id);
    CancelTakesOff(s1, id);
    DroppedIsOk(s, s', id);
    forall j | 0 <= j < |s'.delays| && j != id ensures DelayOk(s', j) { BystanderIsOk(s, s', id, j); }
  }

  lemma UnregisteredIsNotQueued(s: State, id: nat)
    requires Tracked(s) && id < |s.delays| && !s.delays[id].done && id !in s.arming
    ensures !s.delays[id].registered ==> !Queued(s, id)
  {
    assert DelayOk(s, id);
  }

  lemma OtherTracks(s: State, a: Action)
    requires Tracked(s) && Step(s, a).Some?
    requires a.After? || a.Clock? || a.Poll?
    ensures Tracked(Step(s, a).value)
  {
    var s' := Step(s, a).value;
    forall j | 0 <= j < |s'.delays| ensures DelayOk(s', j) {
      assert j < |s.delays| ==> DelayOk(s, j);
      assert j < |s.delays| ==> (Queued(s', j) <==> Queued(s, j));
    }
  }

  lemma StepTracks(s: State, a: Action)
    requires Tracked(s) && Step(s, a).Some?
    ensures Tracked(Step(s, a).value)
  {
    hide Tracked, Service;
    match a
    case Arm => ArmTracks(s);
    case Drop(id) => DropTracks(s, id);
    case Isr => ServiceTracks(s);
    case Enter(id) => EnterTracks(s, id);
    case _ => OtherTracks(s, a);
  }

  /** Over every run, whatever preempts what. */
  lemma {:induction false} RunTracks(s: State, acts: seq<Action>)
    requires Tracked(s) && Run(s, acts).Some?
    ensures Tracked(Run(s, acts).value)
    decreases |acts|
  {
    if acts != [] {
      StepTracks(s, acts[0]);
      RunTracks(Step(s, acts[0]).value, acts[1..]);
    }
  }

  // ---- the compare register ----

  /** The next timer interrupt is no later than the earliest deadline. */
  predicate Bounded(s: State) {
    forall e | e in s.queue :: s.compare <= e.deadline
  }

  /** Polls may preempt a poll that is about to write the compare register, but none of them
      registers an earlier deadline. */
  predicate Considerate(s: State, a: Action) {
    a.Enter? && s.arming != [] && s.arming[0] < |s.delays| && a.id < |s.delays| ==>
      s.delays[s.arming[0]].deadline <= s.delays[a.id].deadline
  }

  predicate AllConsiderate(s: State, acts: seq<Action>)
    decreases |acts|
  {
    acts != [] ==> Considerate(s, acts[0]) && (Step(s, acts[0]).Some? ==> AllConsiderate(Step(s, acts[0]).value, acts[1..]))
  }

  /** The outermost of the preempted polls will write a bound; with none, the register holds one. */
  predicate Covered(s: State) {
    if s.arming == [] then Bounded(s)
    else
      && s.arming[0] < |s.delays|
      && forall e | e in s.queue :: s.delays[s.arming[0]].deadline <= e.deadline
  }

  lemma ScheduleCovers(s: State, id: nat)
    requires Covered(s) && Considerate(s, Enter(id)) && id < |s.delays| && Schedule(s, id).Some?
    ensures Covered(Schedule(s, id).value)
  {
    var e := Entry(s.delays[id].deadline, id);
    assert forall x | x in (s.queue + [e]) :: x in s.queue || x == e;
  }

  lemma ServiceCovers(s: State)
    requires Covered(s)
    ensures Covered(Service(s))
  {
    hide Sweep, Fire, Log, Earliest;
    SweepMembers(s.queue, s.now);
    FireMarks(s, Sweep(s.queue, 0, s.now).1);
  }

  lemma DropCovers(s: State, id: nat)
    requires Covered(s) && Step(s, Drop(id)).Some?
    ensures Covered(Step(s, Drop(id)).value)
  {
    hide CancelEntry;
    CancelShrinks(Unregistered(s, id), id);
  }

  lemma StepCovers(s: State, a: Action)
    requires Covered(s) && Considerate(s, a) && Step(s, a).Some?
    ensures Covered(Step(s, a).value)
  {
    hide Schedule, Service, Remove;
    match a
    case Enter(id) => ScheduleCovers(s.(entering := s.entering - {id}), id);
    case Isr => ServiceCovers(s);
    case Drop(id) => DropCovers(s, id);
    case _ =>
  }

  lemma {:induction false} RunCovers(s: State, acts: seq<Action>)
    requires Covered(s) && AllConsiderate(s, acts) && Run(s, acts).Some?
    ensures Covered(Run(s, acts).value)
    decreases |acts|
  {
    if acts != [] {
      StepCovers(s, acts[0]);
      RunCovers(Step(s, acts[0]).value, acts[1..]);
    }
  }

  /** From power-up, with any run of considerate polls: a delay still waiting whose deadline has
      passed has its timer interrupt pending, and the handler wakes it. */
  lemma OverdueIsServed(capacity: nat, now: nat, compare: nat, acts: seq<Action>, id: nat)
    requires var s0 := Init(capacity, now, compare);
             && Run(s0, acts).Some? && AllConsiderate(s0, acts) && Run(s0, acts).value.arming == []
    requires var s := Run(Init(capacity, now, compare), acts).value;
             id < |s.delays| && s.delays[id].registered && !s.delays[id].woken && s.delays[id].deadline <= s.now
    ensures var s := Run(Init(capacity, now, compare), acts).value;
            Step(s, Isr).Some? && id < |Step(s, Isr).value.delays| && Step(s, Isr).value.delays[id].woken
  {
    var s0 := Init(capacity, now, compare);
    RunTracks(s0, acts);
    RunCovers(s0, acts);
    var s := Run(s0, acts).value;
    var e := Entry(s.delays[id].deadline, id);
    assert DelayOk(s, id) && e in s.queue;
    hide Sweep, Fire, Log, Earliest;
    SweepMembers(s.queue, s.now);
    FireMarks(s, Sweep(s.queue, 0, s.now).1);
  }

  /** The handler leaves the register at the earliest deadline still queued, or at the end of time; so its
      interrupt is no longer pending. */
  lemma ServiceArmsNext(s: State)
    ensures var s' := Service(s);
            && (s'.queue == [] ==> s'.compare == MAX)
            && (s'.queue != [] ==> exists e :: e in s'.queue && e.deadline == s'.compare)
            && Bounded(s')
            && (s.now < MAX ==> s.now < s'.compare && Step(s', Isr) == None)
  {
    hide Sweep, Fire, Log;
    SweepMembers(s.queue, s.now);
  }

  // ---- exactly when the register is late ----

  /** The outermost of the preempted polls writes the register with `d`, while an earlier entry is queued. */
  predicate ArmsLate(s: State, a: Action, d: nat) {
    && a.Arm? && |s.arming| == 1 && s.arming[0] < |s.delays| && s.delays[s.arming[0]].deadline == d
    && HoldsEarlier(s, d)
  }

  predicate HoldsEarlier(s: State, d: nat) {
    exists e :: e in s.queue && e.deadline < d
  }

  predicate NoWrites(acts: seq<Action>) {
    forall i | 0 <= i < |acts| :: !acts[i].Arm? && !acts[i].Isr?
  }

  /** Such a step is the last to write the register. */
  predicate EndsArmedLate(s: State, acts: seq<Action>, d: nat)
    decreases |acts|
  {
    acts != [] && (
      || (ArmsLate(s, acts[0], d) && NoWrites(acts[1..]))
      || (Step(s, acts[0]).Some? && EndsArmedLate(Step(s, acts[0]).value, acts[1..], d)))
  }

  lemma UnboundedHoldsEarlier(s: State)
    ensures Bounded(s) <==> !HoldsEarlier(s, s.compare)
  {}

  /** Short of a write nothing makes the register late, except a new earliest deadline, whose poll then has
      to write it. */
  lemma QuietStepKeepsBound(s: State, a: Action)
    requires Step(s, a).Some? && !a.Arm? && !a.Isr?
    ensures var s' := Step(s, a).value;
            && s'.compare == s.compare && s.arming <= s'.arming
            && (s'.arming == s.arming && Bounded(s) ==> Bounded(s'))
  {
    hide Remove;
    match a
    case Enter(id) => ScheduleKeepsBound(s.(entering := s.entering - {id}), id);
    case Drop(id) => DropKeepsBound(s, id);
    case _ =>
  }

  lemma ScheduleKeepsBound(s: State, id: nat)
    requires id < |s.delays| && Schedule(s, id).Some?
    ensures var s' := Schedule(s, id).value;
            && s'.compare == s.compare && s.arming <= s'.arming
            && (s'.arming == s.arming && Bounded(s) ==> Bounded(s'))
  {
    var s', d := Schedule(s, id).value, s.delays[id].deadline;
    if s'.arming == s.arming && Bounded(s) {
      assert !NewEarliest(s.queue, d);
      assert forall e | e in s'.queue :: e in s.queue || e == Entry(d, id);
    }
  }

  lemma DropKeepsBound(s: State, id: nat)
    requires Step(s, Drop(id)).Some?
    ensures var s' := Step(s, Drop(id)).value; Bounded(s) ==> Bounded(s')
  {
    hide CancelEntry;
    CancelShrinks(Unregistered(s, id), id);
  }

  lemma {:induction false} QuietRunKeepsBound(s: State, acts: seq<Action>)
    requires Run(s, acts).Some? && NoWrites(acts)
    ensures var end := Run(s, acts).value;
            && end.compare == s.compare && s.arming <= end.arming
            && (end.arming == s.arming && Bounded(s) ==> Bounded(end))
    decreases |acts|
  {
    hide Step, Bounded;
    if acts != [] {
      QuietStepKeepsBound(s, acts[0]);
      QuietRunKeepsBound(Step(s, acts[0]).value, acts[1..]);
    }
  }

  lemma ServiceIsBounded(s: State)
    ensures Bounded(Service(s)) && Service(s).arming == s.arming
  {
    hide Sweep, Fire, Log;
    var stays := Sweep(s.queue, 0, s.now).0;
  }

  lemma ArmIsLateIff(s: State)
    requires Step(s, Arm).Some? && |s.arming| == 1
    ensures var s' := Step(s, Arm).value;
            && s'.arming == [] && (forall d :: ArmsLate(s, Arm, d) <==> d == s'.compare && HoldsEarlier(s, d))
            && s'.queue == s.queue
  {}

  lemma {:induction false} QuietRunArmsNothing(s: State, acts: seq<Action>, d: nat)
    requires NoWrites(acts)
    ensures !EndsArmedLate(s, acts, d)
    decreases |acts|
  {
    if acts != [] && Step(s, acts[0]).Some? { QuietRunArmsNothing(Step(s, acts[0]).value, acts[1..], d); }
  }

  /** The last write of a run, and the quiet steps after it. */
  lemma LastWriteDecides(s: State, a: Action, rest: seq<Action>)
    requires Step(s, a).Some? && (a.Arm? || a.Isr?) && NoWrites(rest)
    requires var s1 := Step(s, a).value; Run(s1, rest).Some? && Run(s1, rest).value.arming == []
    ensures var s1 := Step(s, a).value;
            var end := Run(s1, rest).value;
            !Bounded(end) <==> exists d :: ArmsLate(s, a, d) && HoldsEarlier(end, d)
  {
    hide Service, Run, Bounded, ArmsLate, HoldsEarlier;
    var s1 := Step(s, a).value;
    var end := Run(s1, rest).value;
    QuietRunKeepsBound(s1, rest);
    UnboundedHoldsEarlier(s1);
    UnboundedHoldsEarlier(end);
    if a.Isr? {
      ServiceIsBounded(s);
      IsrArmsNothing(s);
    } else {
      ArmIsLateIff(s);
      SameEarlier(s, s1, s1.compare);
      assert !Bounded(end) ==> ArmsLate(s, a, end.compare) && HoldsEarlier(end, end.compare);
    }
  }

  lemma IsrArmsNothing(s: State)
    ensures forall d :: !ArmsLate(s, Isr, d)
  {}

  lemma SameEarlier(s: State, s': State, d: nat)
    requires s'.queue == s.queue
    ensures HoldsEarlier(s', d) == HoldsEarlier(s, d)
  {}

  /** A run that ends with every poll done ends with the register late if and only if the last step to
      write it was that of an outermost poll with an earlier entry queued, and an entry earlier than what
      it wrote is queued at the end.  (A run that writes nothing must begin with the register not late.) */
  lemma {:induction false} RegisterIsLateIff(s: State, acts: seq<Action>)
    requires Run(s, acts).Some? && Run(s, acts).value.arming == []
    requires NoWrites(acts) && s.arming == [] ==> Bounded(s)
    ensures !Bounded(Run(s, acts).value) <==>
              exists d :: EndsArmedLate(s, acts, d) && HoldsEarlier(Run(s, acts).value, d)
    decreases |acts|
  {
    hide Step, Bounded, ArmsLate, HoldsEarlier;
    if NoWrites(acts) {
      QuietRunKeepsBound(s, acts);
      forall d ensures !EndsArmedLate(s, acts, d) { QuietRunArmsNothing(s, acts, d); }
    } else {
      var s1, rest := Step(s, acts[0]).value, acts[1..];
      assert acts == [acts[0]] + rest;
      if NoWrites(rest) {
        LastWriteDecides(s, acts[0], rest);
        forall d ensures EndsArmedLate(s, acts, d) <==> ArmsLate(s, acts[0], d) { QuietRunArmsNothing(s1, rest, d); }
      } else {
        RegisterIsLateIff(s1, rest);
        forall d ensures EndsArmedLate(s, acts, d) <==> EndsArmedLate(s1, rest, d) {}
      }
    }
  }

  /** And such a step takes an inconsiderate poll before it. */
  lemma {:induction false} ConsiderateRunsArmInTime(s: State, acts: seq<Action>, d: nat)
    requires Covered(s) && AllConsiderate(s, acts)
    ensures !EndsArmedLate(s, acts, d)
    decreases |acts|
  {
    hide Step, Considerate;
    if acts != [] {
      CoveredArmsInTime(s, acts[0], d);
      if Step(s, acts[0]).Some? {
        StepCovers(s, acts[0]);
        ConsiderateRunsArmInTime(Step(s, acts[0]).value, acts[1..], d);
      }
    }
  }

  lemma CoveredArmsInTime(s: State, a: Action, d: nat)
    requires Covered(s)
    ensures !ArmsLate(s, a, d)
  {}

  /** What an inconsiderate poll costs: `a` is preempted between `schedule` and the write of the
      compare register, by a poll of `b`.  When both have finished, the register bounds the queue if
      and only if `b`'s deadline was not the earlier one. */
  lemma PreemptedPollIsBoundedIff(s: State, a: nat, b: nat)
    requires Tracked(s) && Bounded(s) && s.arming == [] && |s.queue| + 2 <= s.capacity
    requires a < |s.delays| && b < |s.delays| && a != b
    requires forall id | id == a || id == b ::
               !s.delays[id].done && !s.delays[id].registered && id !in s.entering && s.now < s.delays[id].deadline
    requires NewEarliest(s.queue, s.delays[a].deadline)
    ensures var earlier := s.delays[b].deadline < s.delays[a].deadline;
            var end := Run(s, [Poll(a), Enter(a), Poll(b), Enter(b), Arm] + if earlier then [Arm] else []);
            && end.Some? && end.value.arming == []
            && (Bounded(end.value) <==> !earlier)
            && (earlier ==> end.value.compare == s.delays[a].deadline && Entry(s.delays[b].deadline, b) in end.value.queue)
  {
    hide Tracked, Service, Run;
    var da, db := s.delays[a].deadline, s.delays[b].deadline;
    var earlier := db < da;
    var rest := if earlier then [Arm] else [];
    var s1 := s.(queue := s.queue + [Entry(da, a)], scheduled := s.scheduled + multiset{Entry(da, a)}, arming := [a]);
    var s2 := Schedule(s1, b).value;
    assert Schedule(s, a) == Some(s1) by { assert s.arming + [a] == [a]; }
    RegisterNow(s, a, s1, [Poll(b), Enter(b), Arm] + rest);
    PreemptorArmsIff(s1, b, da);
    RegisterNow(s1, b, s2, [Arm] + rest);
    var end := FinishArming(s2, a, b, earlier);
    assert [Poll(a), Enter(a), Poll(b), Enter(b), Arm] + rest == [Poll(a), Enter(a)] + ([Poll(b), Enter(b), Arm] + rest);
    assert [Poll(b), Enter(b), Arm] + rest == [Poll(b), Enter(b)] + ([Arm] + rest);
    QueueBoundIff(s, da, db, a, b);
    assert end.queue == s.queue + [Entry(da, a)] + [Entry(db, b)];
    assert end.queue[|s.queue| + 1] == Entry(db, b);
  }

  /** From power-up: a delay of 20 ticks is preempted by one of 10, and the register ends at 20. */
  lemma LateRegisterIsReachable() returns (s: State, end: State)
    ensures Run(Init(2, 0, MAX), [After(20, 1_000_000_000), After(10, 1_000_000_000)]) == Some(s)
    ensures Run(s, [Poll(0), Enter(0), Poll(1), Enter(1), Arm, Arm]) == Some(end)
    ensures end.arming == [] && end.compare == 20 && Entry(10, 1) in end.queue && !Bounded(end)
  {
    var s0 := Init(2, 0, MAX);
    var s1 := Step(s0, After(20, 1_000_000_000)).value;
    s := Step(s1, After(10, 1_000_000_000)).value;
    RunFirst(s0, After(20, 1_000_000_000), s1, [After(10, 1_000_000_000)]);
    RunFirst(s1, After(10, 1_000_000_000), s, []);
    assert [After(20, 1_000_000_000)] + [After(10, 1_000_000_000)] == [After(20, 1_000_000_000), After(10, 1_000_000_000)];
    assert [After(10, 1_000_000_000)] + [] == [After(10, 1_000_000_000)];
    assert s.delays == [Delay(20, false, false, false), Delay(10, false, false, false)];
    PreemptedPollIsBoundedIff(s, 0, 1);
    assert [Poll(0), Enter(0), Poll(1), Enter(1), Arm] + [Arm] == [Poll(0), Enter(0), Poll(1), Enter(1), Arm, Arm];
    end := Run(s, [Poll(0), Enter(0), Poll(1), Enter(1), Arm, Arm]).value;
  }

  /** A poll that registers its delay without being preempted before it has scheduled. */
  lemma RegisterNow(s: State, id: nat, s': State, rest: seq<Action>)
    requires id < |s.delays| && !s.delays[id].done && !s.delays[id].registered && id !in s.entering && id !in s.arming
    requires s.now < s.delays[id].deadline && Schedule(s, id) == Some(s')
    ensures Run(s, [Poll(id), Enter(id)] + rest) == Run(s', rest)
  {
    hide Schedule;
    var s1 := s.(entering := s.entering + {id});
    assert s1.(entering := s1.entering - {id}) == s by { assert s.entering + {id} - {id} == s.entering; }
    RunFirst(s, Poll(id), s1, [Enter(id)] + rest);
    RunFirst(s1, Enter(id), s', rest);
    assert [Poll(id), Enter(id)] + rest == [Poll(id)] + ([Enter(id)] + rest);
  }

  /** Both polls go on: the one that preempted first, if it has anything to write. */
  lemma FinishArming(s: State, a: nat, b: nat, both: bool) returns (end: State)
    requires a < |s.delays| && b < |s.delays| && s.arming == if both then [a, b] else [a]
    ensures Run(s, [Arm] + if both then [Arm] else []) == Some(end)
    ensures end.arming == [] && end.compare == s.delays[a].deadline && end.queue == s.queue
  {
    var s1 := Step(s, Arm).value;
    if both {
      end := Step(s1, Arm).value;
      RunFirst(s, Arm, s1, [Arm]);
      RunFirst(s1, Arm, end, []);
      assert [Arm] + [] == [Arm];
    } else {
      end := s1;
      RunFirst(s, Arm, s1, []);
    }
  }

  /** The preempting poll will write the register only if its deadline is the earlier one. */
  lemma PreemptorArmsIff(s: State, b: nat, da: nat)
    requires b < |s.delays| && Schedule(s, b).Some? && s.queue != [] && s.queue[|s.queue| - 1].deadline == da
    requires forall i | 0 <= i < |s.queue| :: da <= s.queue[i].deadline
    ensures Schedule(s, b).value.arming == if s.delays[b].deadline < da then s.arming + [b] else s.arming
    ensures Schedule(s, b).value.queue == s.queue + [Entry(s.delays[b].deadline, b)]
  {}

  lemma QueueBoundIff(s: State, da: nat, db: nat, a: nat, b: nat)
    requires NewEarliest(s.queue, da)
    ensures (forall e | e in s.queue + [Entry(da, a)] + [Entry(db, b)] :: da <= e.deadline) <==> da <= db
  {
    var q := s.queue + [Entry(da, a)] + [Entry(db, b)];
    assert q[|q| - 1] == Entry(db, b);
    assert forall e | e in q :: e in s.queue || e == Entry(da, a) || e == Entry(db, b);
  }

  lemma RunFirst(s: State, a: Action, s': State, rest: seq<Action>)
    requires Step(s, a) == Some(s')
    ensures Run(s, [a] + rest) == Run(s', rest)
  {
    assert ([a] + rest)[1..] == rest;
  }
}
