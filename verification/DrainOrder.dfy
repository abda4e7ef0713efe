/** What the interrupt-free scheduling loop does: it drains every queue that outranks the executor
    it started under, makes each poll it accounts for exactly once, and polls one-shot tasks in the
    stable order of their priorities. */
module DrainOrder {
  import opened Wrappers
  import opened Kernel
  import opened Scheduler
  import Nesting

  /** Priorities below this number outrank the top of the stack. */
  function Bound(stack: seq<Prio>, n: nat): nat {
    if stack == [] then n else stack[|stack| - 1]
  }

  // ---- any tasks: waking one another, pending, finishing ----

  /** When the loop ends, every queue that outranks the executor it started under is empty; started
      with an empty priority stack, it empties every queue. */
  lemma DrainEmptiesQueues(s: Turn, p: Prio)
    requires Schedulable(s) && p < Bound(s.k.prioStack, |s.k.queues|) && p < |s.k.queues|
    ensures Schedule(s).k.queues[p] == [] && p !in Schedule(s).k.ready
  {
    hide Schedule, Runnable, Total, Load;
    DeclinedMeansDrained(Schedule(s).k, p);
  }

  lemma DeclinedMeansDrained(k: Kernel, p: Prio)
    requires k.WellFormed() && Nesting.Nested(k.prioStack, |k.queues|) && Synced(k)
    requires PreemptSection(k).1 == None && p < Bound(k.prioStack, |k.queues|) && p < |k.queues|
    ensures k.queues[p] == [] && p !in k.ready
  {
    Nesting.PreemptDecides(k);
    if p in k.ready { assert Outranks(p, k.prioStack); }
  }

  /** Task by task, polls made and polls left change together by what spawns have handed out. */
  predicate Accounts(s: Turn, s': Turn)
    requires s.Sized() && s'.Sized()
  {
    && |s'.script| == |s.script|
    && forall t | 0 <= t < |s.script| ::
         multiset(s'.polls)[t] + |s'.script[t]| + s.issued[t] == multiset(s.polls)[t] + |s.script[t]| + s'.issued[t]
  }

  lemma PerformAccounts(s: Turn, u: TaskId, a: Act)
    requires InOrder(s) && u < |s.k.slots| && ActOk(a, |s.k.slots|, |s.k.queues|)
    ensures Accounts(s, Perform(s, u, a))
  {
    hide Finite, Synced, WakeSection, JoinSection, SpawnSection;
    if a.Spawns? { assert ScriptOk(s.k, a.t, s.script[a.t]); }
  }

  lemma {:induction false} PerformAllAccounts(s: Turn, u: TaskId, acts: seq<Act>)
    requires InOrder(s) && u < |s.k.slots| && ActsOk(acts, |s.k.slots|, |s.k.queues|)
    ensures Accounts(s, PerformAll(s, u, acts))
  {
    hide Perform, ActOk, Runnable, Synced;
    if acts != [] {
      PerformAllKeepsOrder(s, u, acts[..|acts| - 1]);
      PerformAllAccounts(s, u, acts[..|acts| - 1]);
      PerformAccounts(PerformAll(s, u, acts[..|acts| - 1]), u, acts[|acts| - 1]);
    }
  }

  lemma PollAccounts(s: Turn, t: TaskId)
    requires InOrder(s) && t < |s.k.slots| && s.k.slots[t].pollFn == PollFuture
    ensures Finite(s.script[t], |s.k.slots|, |s.k.queues|) && Accounts(s, PollTurn(s, t))
  {
    hide PerformAll, Finite, Synced, FinishSection;
    assert ScriptOk(s.k, t, s.script[t]);
    TailIsFinite(s.script[t], |s.k.slots|, |s.k.queues|);
    PerformAllAccounts(s, t, s.script[t][0].acts);
    PerformAllKeepsOrder(s, t, s.script[t][0].acts);
  }

  lemma TurnAccounts(s: Turn, p: Prio)
    requires InOrder(s) && p in s.k.prioStack && p < |s.k.queues| && s.k.queues[p] != []
    ensures Accounts(s, TakeTurn(s, p))
  {
    hide PollTurn, Runnable, Synced;
    PopKeepsOrder(s, p);
    var t, s1 := s.k.queues[p][0], s.(k := Popped(s.k, p));
    if s1.k.slots[t].pollFn == PollFuture { PollAccounts(s1, t); }
  }

  lemma {:induction false} RunAccounts(s: Turn, p: Prio)
    requires InOrder(s) && p in s.k.prioStack && p < |s.k.queues|
    ensures Accounts(s, RunTurns(s, p))
    decreases Load(s.script), Total(s.k.queues)
  {
    hide TakeTurn, InOrder;
    if s.k.queues[p] != [] {
      TurnKeepsOrder(s, p);
      TurnAccounts(s, p);
      RunAccounts(TakeTurn(s, p), p);
    }
  }

  /** Over a whole drain each task is polled exactly as often as the polls it had, and those it was given
      by spawns, grew fewer: never after its future has returned Ready. */
  lemma {:induction false} EveryPollIsAccountedFor(s: Turn)
    requires Schedulable(s)
    ensures Accounts(s, Schedule(s))
    decreases Load(s.script), Total(s.k.queues)
  {
    hide RunTurns, Runnable, Synced, Load, PreemptSection;
    match PreemptSection(s.k).1
    case None =>
    case Some(p) =>
      GrantKeepsOrder(s, p);
      RunAccounts(s.(k := PreemptSection(s.k).0), p);
      EveryPollIsAccountedFor(Round(s, p));
  }

  // ---- every task Ready at its next poll ----

  predicate AllReady(script: seq<seq<Outcome>>) {
    forall t | 0 <= t < |script| && script[t] != [] :: |script[t]| == 1 && script[t][0].acts == [] && script[t][0].ready.Some?
  }

  /** `w` waits in queue `p` with a live future, or is finished. */
  predicate Doomed(k: Kernel, p: Prio, w: TaskId) {
    && p < |k.queues| && w < |k.slots|
    && ((w in k.queues[p] && k.slots[w].pollFn == PollFuture) || !k.slots[w].spawned)
  }

  lemma WakeKeepsDoomed(k: Kernel, t: TaskId, p: Prio, w: TaskId)
    requires k.WellFormed() && t < |k.slots| && Doomed(k, p, w)
    ensures Doomed(WakeSection(k, t), p, w)
  {
    var k' := WakeSection(k, t);
    if w in k.queues[p] { assert w in k'.queues[p]; }
  }

  lemma FinishKeepsDoomed(k: Kernel, t: TaskId, v: Value, p: Prio, w: TaskId)
    requires k.WellFormed() && t < |k.slots| && p < |k.queues| && w < |k.slots| && (t == w || Doomed(k, p, w))
    ensures Doomed(FinishSection(k, t, v), p, w)
  {
    hide WakeSection;
    var s := k.slots[t];
    var k1 := k.Put(t, s.(result := Some(v), output := Some(v), exec := None, cell := Dropped, pollFn := PollExited));
    var k2 := k1.Put(t, k1.slots[t].(spawned := false, joinWaker := None));
    assert k2.queues == k.queues && Doomed(k2, p, w);
    if s.joinWaker.Some? { WakeKeepsDoomed(k2, s.joinWaker.value, p, w); }
  }

  lemma TurnKeepsDoomed(s: Turn, q: Prio, p: Prio, w: TaskId)
    requires InOrder(s) && q < |s.k.queues| && s.k.queues[q] != [] && Doomed(s.k, p, w) && AllReady(s.script)
    ensures Doomed(TakeTurn(s, q).k, p, w) && AllReady(TakeTurn(s, q).script)
  {
    hide Synced, FinishSection;
    var t, s1 := s.k.queues[q][0], s.(k := Popped(s.k, q));
    assert ScriptOk(s.k, t, s.script[t]);
    assert s.k.queues[q] == [t] + s.k.queues[q][1..];
    assert t == w || Doomed(s1.k, p, w);
    if s1.k.slots[t].pollFn == PollFuture { FinishKeepsDoomed(s1.k, t, s.script[t][0].ready.value, p, w); }
  }

  lemma {:induction false} RunKeepsDoomed(s: Turn, q: Prio, p: Prio, w: TaskId)
    requires InOrder(s) && q in s.k.prioStack && q < |s.k.queues| && Doomed(s.k, p, w) && AllReady(s.script)
    ensures Doomed(RunTurns(s, q).k, p, w) && AllReady(RunTurns(s, q).script)
    decreases Load(s.script), Total(s.k.queues)
  {
    hide TakeTurn, Runnable, Synced, AllReady, Doomed, Load, Total;
    if s.k.queues[q] != [] {
      TurnKeepsOrder(s, q);
      TurnKeepsDoomed(s, q, p, w);
      RunKeepsDoomed(TakeTurn(s, q), q, p, w);
    }
  }

  lemma {:induction false} ScheduleKeepsDoomed(s: Turn, p: Prio, w: TaskId)
    requires Schedulable(s) && Doomed(s.k, p, w) && AllReady(s.script)
    ensures Doomed(Schedule(s).k, p, w)
    decreases Load(s.script), Total(s.k.queues)
  {
    hide RunTurns, Runnable, Synced, AllReady, Load, Total, PreemptSection;
    match PreemptSection(s.k).1
    case None =>
    case Some(q) =>
      GrantKeepsOrder(s, q);
      RunKeepsDoomed(s.(k := PreemptSection(s.k).0), q, p, w);
      ScheduleKeepsDoomed(Round(s, q), p, w);
  }

  /** If every future returns Ready at its next poll, the loop finishes every task that waits in a queue
      it outranks. */
  lemma DrainFinishes(s: Turn, p: Prio, w: TaskId)
    requires Schedulable(s) && AllReady(s.script) && p < Bound(s.k.prioStack, |s.k.queues|) && p < |s.k.queues|
    requires w in s.k.queues[p] && w < |s.k.slots| && s.k.slots[w].pollFn == PollFuture
    ensures !Schedule(s).k.slots[w].spawned
  {
    hide Schedule, Runnable, Synced, Load, Total;
    ScheduleKeepsDoomed(s, p, w);
    DrainEmptiesQueues(s, p);
  }

  // ---- the quiet case: queued tasks that return Ready at once and wake nobody ----

  ghost predicate OneShot(k: Kernel, script: seq<seq<Outcome>>)
    requires k.WellFormed() && |script| == |k.slots|
  {
    && (forall p, i | 0 <= p < |k.queues| && 0 <= i < |k.queues[p]| ::
          var t := k.queues[p][i];
          k.slots[t].pollFn == PollFuture && k.slots[t].joinWaker == None
          && |script[t]| == 1 && script[t][0].acts == [] && script[t][0].ready.Some?)
    && (forall p, i, q, j | 0 <= p < |k.queues| && 0 <= i < |k.queues[p]| && 0 <= q < |k.queues| && 0 <= j < |k.queues[q]| ::
          k.queues[p][i] == k.queues[q][j] ==> p == q && i == j)
  }

  /** In the quiet case a turn polls the head of the queue and changes nothing else that matters. */
  lemma TurnIsOneShot(s: Turn, p: Prio)
    requires InOrder(s) && p < |s.k.queues| && s.k.queues[p] != [] && OneShot(s.k, s.script)
    ensures var s' := TakeTurn(s, p);
            && s'.k.WellFormed() && |s'.script| == |s'.k.slots| && OneShot(s'.k, s'.script)
            && s'.k.queues == s.k.queues[p := s.k.queues[p][1..]]
            && s'.polls == s.polls + [s.k.queues[p][0]]
  {
    var t, s' := s.k.queues[p][0], TakeTurn(s, p);
    assert forall u | 0 <= u < |s.k.slots| && u != t :: s'.k.slots[u] == s.k.slots[u] && s'.script[u] == s.script[u];
    forall q, i | 0 <= q < |s'.k.queues| && 0 <= i < |s'.k.queues[q]|
      ensures s'.k.queues[q][i] == s.k.queues[q][if q == p then i + 1 else i] && s'.k.queues[q][i] != t
    {}
  }

  lemma {:induction false} RunIsOneShot(s: Turn, p: Prio)
    requires InOrder(s) && p in s.k.prioStack && p < |s.k.queues| && OneShot(s.k, s.script)
    ensures var s' := RunTurns(s, p);
            && OneShot(s'.k, s'.script) && s'.k.queues == s.k.queues[p := []]
            && s'.polls == s.polls + s.k.queues[p]
    decreases Load(s.script), Total(s.k.queues)
  {
    hide TakeTurn, OneShot, InOrder;
    if s.k.queues[p] != [] {
      TurnKeepsOrder(s, p);
      TurnIsOneShot(s, p);
      RunIsOneShot(TakeTurn(s, p), p);
      assert s.k.queues[p] == [s.k.queues[p][0]] + s.k.queues[p][1..];
    }
  }

  // ---- the order of polls ----

  /** The queues end to end, highest priority first. */
  function Flatten<T>(queues: seq<seq<T>>): seq<T> {
    if queues == [] then [] else queues[0] + Flatten(queues[1..])
  }

  lemma {:induction false} FlattenFirst<T>(queues: seq<seq<T>>, p: nat)
    requires p < |queues| && forall q | 0 <= q < p :: queues[q] == []
    ensures Flatten(queues) == queues[p] + Flatten(queues[p := []])
  {
    if p == 0 {
      assert queues[p := []][1..] == queues[1..];
    } else {
      FlattenFirst(queues[1..], p - 1);
      assert queues[p := []][1..] == queues[1..][p - 1 := []];
    }
  }

  lemma FlattenPrefix<T>(queues: seq<seq<T>>, b: nat, p: nat)
    requires p < b <= |queues| && forall q | 0 <= q < p :: queues[q] == []
    ensures Flatten(queues[..b]) == queues[p] + Flatten(queues[p := []][..b])
  {
    FlattenFirst(queues[..b], p);
    assert queues[..b][p := []] == queues[p := []][..b];
  }

  lemma {:induction false} FlattenEmpty<T>(queues: seq<seq<T>>)
    requires forall q | 0 <= q < |queues| :: queues[q] == []
    ensures Flatten(queues) == []
  {
    if queues != [] { FlattenEmpty(queues[1..]); }
  }


  /** One round runs the highest nonempty queue to its end, in order, and touches no other. */
  lemma RoundIsOneShot(s: Turn, p: Prio)
    requires Schedulable(s) && OneShot(s.k, s.script) && PreemptSection(s.k).1 == Some(p)
    ensures p < |s.k.queues| && p < Bound(s.k.prioStack, |s.k.queues|)
    ensures forall q | 0 <= q < p :: s.k.queues[q] == []
    ensures var s' := Round(s, p);
            && OneShot(s'.k, s'.script) && s'.k.queues == s.k.queues[p := []]
            && s'.polls == s.polls + s.k.queues[p]
  {
    var s1 := s.(k := PreemptSection(s.k).0);
    assert OneShot(s1.k, s1.script);
    RunIsOneShot(s1, p);
  }

  lemma BoundFits(s: Turn)
    requires Schedulable(s)
    ensures s.k.WellFormed() && |s.script| == |s.k.slots| && Bound(s.k.prioStack, |s.k.queues|) <= |s.k.queues|
  {}

  lemma NothingPolled(s: Turn)
    requires Schedulable(s) && PreemptSection(s.k).1 == None
    ensures var b := Bound(s.k.prioStack, |s.k.queues|); b <= |s.k.queues| && Flatten(s.k.queues[..b]) == []
  {
    var b := Bound(s.k.prioStack, |s.k.queues|);
    forall q | 0 <= q < b ensures s.k.queues[..b][q] == [] { DrainEmptiesQueues(s, q); }
    FlattenEmpty(s.k.queues[..b]);
  }

  /** The loop polls the queued one-shot tasks in queue order, highest priority first. */
  lemma {:induction false} SchedulePollsInOrder(s: Turn)
    requires Schedulable(s) && OneShot(s.k, s.script)
    ensures Bound(s.k.prioStack, |s.k.queues|) <= |s.k.queues|
    ensures Schedule(s).polls == s.polls + Flatten(s.k.queues[..Bound(s.k.prioStack, |s.k.queues|)])
    decreases Load(s.script), Total(s.k.queues)
  {
    hide Schedulable, Runnable, Synced, OneShot, Round, PreemptSection, Flatten, Total, Load;
    BoundFits(s);
    var b := Bound(s.k.prioStack, |s.k.queues|);
    match PreemptSection(s.k).1
    case None => NothingPolled(s);
    case Some(p) =>
      RoundIsOneShot(s, p);
      var s1 := Round(s, p);
      SchedulePollsInOrder(s1);
      FlattenPrefix(s.k.queues, b, p);
  }

  /** It leaves the queues it does not outrank alone. */
  lemma {:induction false} ScheduleLeavesTheRest(s: Turn, q: Prio)
    requires Schedulable(s) && OneShot(s.k, s.script) && Bound(s.k.prioStack, |s.k.queues|) <= q < |s.k.queues|
    ensures Schedule(s).k.queues[q] == s.k.queues[q]
    decreases Load(s.script), Total(s.k.queues)
  {
    hide Schedulable, Runnable, Synced, OneShot, Round, PreemptSection, Flatten, Total, Load;
    BoundFits(s);
    match PreemptSection(s.k).1
    case None =>
    case Some(p) =>
      RoundIsOneShot(s, p);
      ScheduleLeavesTheRest(Round(s, p), q);
  }

  // ---- the stable sort ----

  /** A task spawned at a priority, whose future returns `value` at its first poll and wakes nobody. */
  datatype Job = Job(task: TaskId, prio: Prio, value: Value)

  function OfPrio(jobs: seq<Job>, p: Prio): seq<Job> {
    if jobs == [] then []
    else if jobs[|jobs| - 1].prio == p then OfPrio(jobs[..|jobs| - 1], p) + [jobs[|jobs| - 1]]
    else OfPrio(jobs[..|jobs| - 1], p)
  }

  /** `r` is `jobs` sorted by priority, jobs of equal priority keeping their order. */
  ghost predicate IsStableSort(r: seq<Job>, jobs: seq<Job>) {
    Sorted(r) && forall p: Prio :: OfPrio(r, p) == OfPrio(jobs, p)
  }

  predicate Sorted(r: seq<Job>) {
    forall i, j | 0 <= i < j < |r| :: r[i].prio <= r[j].prio
  }

  lemma {:induction false} OfPrioIn(jobs: seq<Job>, p: Prio)
    ensures forall x :: x in OfPrio(jobs, p) <==> x in jobs && x.prio == p
  {
    if jobs != [] {
      OfPrioIn(jobs[..|jobs| - 1], p);
      assert jobs == jobs[..|jobs| - 1] + [jobs[|jobs| - 1]];
    }
  }

  lemma {:induction false} OfPrioOfSum(a: seq<Job>, b: seq<Job>, p: Prio)
    ensures OfPrio(a + b, p) == OfPrio(a, p) + OfPrio(b, p)
  {
    if b == [] {
      assert a + b == a;
    } else {
      var last := |b| - 1;
      OfPrioOfSum(a, b[..last], p);
      assert (a + b)[..|a + b| - 1] == a + b[..last];
    }
  }

  /** There is only one stable sort. */
  lemma {:induction false} StableSortIsUnique(r: seq<Job>, r': seq<Job>, jobs: seq<Job>)
    requires IsStableSort(r, jobs) && IsStableSort(r', jobs)
    ensures r == r'
    decreases |r|
  {
    if r == [] {
      if r' != [] { OfPrioIn(r', r'[0].prio); }
    } else {
      FirstIsLeast(r, r', jobs);
      FirstIsLeast(r', r, jobs);
      var p := r[0].prio;
      HeadOfPrio(r, p);
      HeadOfPrio(r', p);
      assert r[0] == OfPrio(r, p)[0] == OfPrio(r', p)[0] == r'[0];
      forall q: Prio ensures OfPrio(r'[1..], q) == OfPrio(r[1..], q) {
        HeadOfPrio(r, q);
        HeadOfPrio(r', q);
        var i := if p == q then 1 else 0;
        assert OfPrio(r[1..], q) == OfPrio(jobs, q)[i..] == OfPrio(r'[1..], q);
      }
      StableSortIsUnique(r[1..], r'[1..], r[1..]);
    }
  }

  lemma FirstIsLeast(r: seq<Job>, r': seq<Job>, jobs: seq<Job>)
    requires IsStableSort(r, jobs) && IsStableSort(r', jobs) && r != []
    ensures r' != [] && r'[0].prio <= r[0].prio
  {
    OfPrioIn(r, r[0].prio);
    OfPrioIn(r', r[0].prio);
    assert r[0] in OfPrio(jobs, r[0].prio);
    assert r[0] in r';
  }

  lemma HeadOfPrio(r: seq<Job>, p: Prio)
    requires r != []
    ensures OfPrio(r, p) == (if r[0].prio == p then [r[0]] else []) + OfPrio(r[1..], p)
  {
    OfPrioOfSum([r[0]], r[1..], p);
    assert r == [r[0]] + r[1..];
    assert [r[0]][..0] == [];
  }

  /** The jobs of priority 0, then those of priority 1, and so on below `n`. */
  function ByPriority(jobs: seq<Job>, n: nat): seq<Job> {
    if n == 0 then [] else ByPriority(jobs, n - 1) + OfPrio(jobs, n - 1)
  }

  lemma {:induction false} ByPriorityIsSorted(jobs: seq<Job>, n: nat)
    ensures forall x | x in ByPriority(jobs, n) :: x.prio < n
    ensures Sorted(ByPriority(jobs, n))
  {
    if n > 0 {
      ByPriorityIsSorted(jobs, n - 1);
      var a, b := ByPriority(jobs, n - 1), OfPrio(jobs, n - 1);
      OfPrioIn(jobs, n - 1);
      var c := a + b;
      forall i, j | 0 <= i < j < |c| ensures c[i].prio <= c[j].prio {
        assert i < |a| ==> a[i] in a;
        assert |a| <= i ==> b[i - |a|] in b;
        assert |a| <= j ==> b[j - |a|] in b;
      }
    }
  }

  lemma {:induction false} ByPriorityIsStable(jobs: seq<Job>, n: nat, p: Prio)
    ensures OfPrio(ByPriority(jobs, n), p) == if p < n then OfPrio(jobs, p) else []
  {
    if n > 0 {
      ByPriorityIsStable(jobs, n - 1, p);
      var b := OfPrio(jobs, n - 1);
      OfPrioIn(jobs, n - 1);
      OfPrioOfSum(ByPriority(jobs, n - 1), b, p);
      OnePrio(b, n - 1, p);
    }
  }

  lemma {:induction false} OnePrio(b: seq<Job>, q: Prio, p: Prio)
    requires forall x | x in b :: x.prio == q
    ensures OfPrio(b, p) == if p == q then b else []
  {
    if b != [] {
      var last := |b| - 1;
      assert b[last] in b;
      OnePrio(b[..last], q, p);
      assert b == b[..last] + [b[last]];
    }
  }

  // ---- spawning a list of jobs ----

  function Tasks(jobs: seq<Job>): seq<TaskId> {
    if jobs == [] then [] else Tasks(jobs[..|jobs| - 1]) + [jobs[|jobs| - 1].task]
  }

  lemma {:induction false} TasksOfSum(a: seq<Job>, b: seq<Job>)
    ensures Tasks(a + b) == Tasks(a) + Tasks(b)
  {
    if b == [] {
      assert a + b == a;
    } else {
      TasksOfSum(a, b[..|b| - 1]);
      assert (a + b)[..|a + b| - 1] == a + b[..|b| - 1];
    }
  }

  /** `TaskStorage::spawn`, then `Spawner::spawn` with the token. */
  function SpawnJob(s: Turn, j: Job): (s': Turn)
    requires s.Sized() && j.task < |s.k.slots| && j.prio < |s.k.queues|
    ensures s'.Sized() && s'.k.SameSize(s.k) && s'.polls == s.polls
  {
    Turn(SpawnSection(CreateSection(s.k, j.task), j.task, j.prio),
         s.script[j.task := OneShotFuture(j)], s.polls, s.issued[j.task := s.issued[j.task] + 1])
  }

  function OneShotFuture(j: Job): seq<Outcome> { [Outcome([], Some(j.value))] }

  predicate JobsFit(jobs: seq<Job>, tasks: nat, n: nat) {
    forall i | 0 <= i < |jobs| :: jobs[i].task < tasks && jobs[i].prio < n
  }

  function SpawnJobs(s: Turn, jobs: seq<Job>): (s': Turn)
    requires s.Sized() && JobsFit(jobs, |s.k.slots|, |s.k.queues|)
    ensures s'.Sized() && s'.k.SameSize(s.k) && s'.polls == s.polls
  {
    if jobs == [] then s else SpawnJob(SpawnJobs(s, jobs[..|jobs| - 1]), jobs[|jobs| - 1])
  }

  /** No executor is active, every queue is empty, and the jobs' distinct slots are neither spawned nor
      queued, so that every `spawn` succeeds. */
  ghost predicate Vacant(s: Turn, jobs: seq<Job>) {
    && Schedulable(s) && s.k.prioStack == []
    && (forall p | 0 <= p < |s.k.queues| :: s.k.queues[p] == [])
    && JobsFit(jobs, |s.k.slots|, |s.k.queues|)
    && (forall i | 0 <= i < |jobs| :: !s.k.slots[jobs[i].task].spawned && !s.k.slots[jobs[i].task].queued)
    && (forall i, j | 0 <= i < j < |jobs| :: jobs[i].task != jobs[j].task)
  }

  /** Spawning an unqueued task appends it to its queue; everything else about the scheduler stays. */
  lemma SpawnJobAppends(s: Turn, j: Job)
    requires Schedulable(s) && OneShot(s.k, s.script) && j.task < |s.k.slots| && j.prio < |s.k.queues|
    requires !s.k.slots[j.task].queued
    requires forall p, i | 0 <= p < |s.k.queues| && 0 <= i < |s.k.queues[p]| :: s.k.queues[p][i] != j.task
    ensures var s' := SpawnJob(s, j);
            && Schedulable(s') && OneShot(s'.k, s'.script) && s'.k.prioStack == s.k.prioStack
            && s'.k.queues == s.k.queues[j.prio := s.k.queues[j.prio] + [j.task]]
            && forall t | 0 <= t < |s.k.slots| && t != j.task :: s'.k.slots[t] == s.k.slots[t]
  {
    hide Runnable, Synced, Finite, SpawnJob, OneShot;
    SpawnJobKeepsOrder(s, j);
    SpawnJobEffect(s, j);
    AppendKeepsOneShot(s, SpawnJob(s, j), j);
  }

  lemma SpawnJobKeepsOrder(s: Turn, j: Job)
    requires InOrder(s) && j.task < |s.k.slots| && j.prio < |s.k.queues|
    ensures InOrder(SpawnJob(s, j))
  {
    hide Runnable, Synced, SpawnSection;
    assert Finite(OneShotFuture(j), |s.k.slots|, |s.k.queues|);
    CreateKeepsRunnable(s.k, j.task, s.script, OneShotFuture(j));
    SpawnKeepsRunnable(CreateSection(s.k, j.task), j.task, j.prio, SpawnJob(s, j).script);
  }

  lemma AppendKeepsOneShot(s: Turn, s': Turn, j: Job)
    requires s.Sized() && s'.Sized() && s'.k.SameSize(s.k) && j.task < |s.k.slots| && j.prio < |s.k.queues|
    requires OneShot(s.k, s.script)
    requires forall p, i | 0 <= p < |s.k.queues| && 0 <= i < |s.k.queues[p]| :: s.k.queues[p][i] != j.task
    requires s'.k.queues == s.k.queues[j.prio := s.k.queues[j.prio] + [j.task]]
    requires s'.k.slots[j.task].pollFn == PollFuture && s'.k.slots[j.task].joinWaker == None
    requires s'.script == s.script[j.task := OneShotFuture(j)]
    requires forall t | 0 <= t < |s.k.slots| && t != j.task :: s'.k.slots[t] == s.k.slots[t]
    ensures OneShot(s'.k, s'.script)
  {
    forall p, i | 0 <= p < |s'.k.queues| && 0 <= i < |s'.k.queues[p]|
      ensures s'.k.queues[p][i] == if p == j.prio && i == |s.k.queues[p]| then j.task else s.k.queues[p][i]
    {}
  }

  /** What the two calls store. */
  lemma SpawnJobEffect(s: Turn, j: Job)
    requires s.Sized() && j.task < |s.k.slots| && j.prio < |s.k.queues|
    requires !s.k.slots[j.task].queued
    ensures var s' := SpawnJob(s, j);
            && s'.k.queues == s.k.queues[j.prio := s.k.queues[j.prio] + [j.task]]
            && s'.k.prioStack == s.k.prioStack && s'.script == s.script[j.task := OneShotFuture(j)]
            && s'.k.slots[j.task].pollFn == PollFuture && s'.k.slots[j.task].joinWaker == None
            && (forall t | 0 <= t < |s.k.slots| && t != j.task :: s'.k.slots[t] == s.k.slots[t])
  {}

  lemma {:induction false} SpawnJobsFile(s: Turn, jobs: seq<Job>)
    requires Vacant(s, jobs)
    ensures var s' := SpawnJobs(s, jobs);
            && Schedulable(s') && OneShot(s'.k, s'.script) && s'.k.prioStack == []
            && (forall p | 0 <= p < |s'.k.queues| :: s'.k.queues[p] == Tasks(OfPrio(jobs, p)))
            && (forall t | 0 <= t < |s.k.slots| && t !in Tasks(jobs) :: s'.k.slots[t] == s.k.slots[t])
  {
    hide SpawnJob;
    if jobs != [] {
      var last := |jobs| - 1;
      var j := jobs[last];
      SpawnJobsFile(s, jobs[..last]);
      var s1 := SpawnJobs(s, jobs[..last]);
      TasksIn(jobs[..last]);
      forall p, i | 0 <= p < |s1.k.queues| && 0 <= i < |s1.k.queues[p]| ensures s1.k.queues[p][i] != j.task {
        OfPrioIn(jobs[..last], p);
        TasksIn(OfPrio(jobs[..last], p));
        assert s1.k.queues[p][i] in s1.k.queues[p];
      }
      SpawnJobAppends(s1, j);
    }
  }

  lemma {:induction false} TasksIn(jobs: seq<Job>)
    ensures forall t :: t in Tasks(jobs) <==> exists x :: x in jobs && x.task == t
  {
    if jobs != [] {
      TasksIn(jobs[..|jobs| - 1]);
      assert jobs == jobs[..|jobs| - 1] + [jobs[|jobs| - 1]];
    }
  }

  lemma NothingFlat(queues: seq<seq<TaskId>>, jobs: seq<Job>)
    requires queues == [] && jobs == []
    ensures Flatten(queues) == Tasks(jobs)
  {}

  lemma {:induction false} FlattenByPriority(queues: seq<seq<TaskId>>, jobs: seq<Job>, n: nat)
    requires n <= |queues| && forall p | 0 <= p < n :: queues[p] == Tasks(OfPrio(jobs, p))
    ensures Flatten(queues[..n]) == Tasks(ByPriority(jobs, n))
  {
    hide OfPrio, Tasks, Flatten;
    if n > 0 {
      FlattenByPriority(queues, jobs, n - 1);
      TasksOfSum(ByPriority(jobs, n - 1), OfPrio(jobs, n - 1));
      FlattenLast(queues[..n - 1], queues[n - 1]);
      assert queues[..n] == queues[..n - 1] + [queues[n - 1]];
    } else {
      NothingFlat(queues[..0], ByPriority(jobs, 0));
    }
  }

  lemma {:induction false} FlattenLast<T>(queues: seq<seq<T>>, q: seq<T>)
    ensures Flatten(queues + [q]) == Flatten(queues) + q
  {
    if queues != [] {
      FlattenLast(queues[1..], q);
      assert (queues + [q])[1..] == queues[1..] + [q];
    } else {
      assert ([] + [q])[1..] == [];
    }
  }

  lemma ByPriorityIsStableSort(jobs: seq<Job>, tasks: nat, n: nat)
    requires JobsFit(jobs, tasks, n)
    ensures IsStableSort(ByPriority(jobs, n), jobs)
  {
    ByPriorityIsSorted(jobs, n);
    forall p: Prio ensures OfPrio(ByPriority(jobs, n), p) == OfPrio(jobs, p) {
      ByPriorityIsStable(jobs, n, p);
      OfPrioIn(jobs, p);
      assert OfPrio(jobs, p) == [] || OfPrio(jobs, p)[0] in OfPrio(jobs, p);
    }
  }

  /** Spawn any list of one-shot tasks, at any priorities, then run the loop: it polls exactly those
      tasks, in the stable sort by priority of their spawn order, and leaves every queue empty. */
  lemma DrainIsAStableSort(s: Turn, jobs: seq<Job>, sorted: seq<Job>)
    requires Vacant(s, jobs) && IsStableSort(sorted, jobs)
    ensures var s1 := SpawnJobs(s, jobs);
            && Schedulable(s1)
            && Schedule(s1).polls == s.polls + Tasks(sorted)
            && forall p | 0 <= p < |s.k.queues| :: Schedule(s1).k.queues[p] == []
  {
    hide OneShot, Runnable, Synced, SpawnJob, Schedule, Flatten, Tasks, ByPriority, IsStableSort;
    var n := |s.k.queues|;
    SpawnJobsFile(s, jobs);
    var s1 := SpawnJobs(s, jobs);
    SchedulePollsInOrder(s1);
    assert s1.k.queues[..n] == s1.k.queues;
    FlattenByPriority(s1.k.queues, jobs, n);
    ByPriorityIsStableSort(jobs, |s.k.slots|, n);
    StableSortIsUnique(sorted, ByPriority(jobs, n), jobs);
    forall p | 0 <= p < n ensures Schedule(s1).k.queues[p] == [] { DrainEmptiesQueues(s1, p); }
  }
}
