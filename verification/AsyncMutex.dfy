/** The async mutex: a lock flag and a bounded list of pointers into the futures that wait for it.
    Each operation is one critical section, so any interleaving of them is a sequence of them. */
module AsyncMutex {
  import opened Wrappers

  /** A `MutexLockFuture`.  `live` (not yet dropped), `done` (returned Ready) and the ticket drawn when
      it joined the waiter list are history. */
  datatype Future = Future(queued: bool, waker: Option<nat>, live: bool, done: bool, ticket: nat)

  /** Futures are named by their index, as the waiter list names them by address.  `guards` counts the
      live guards; `woken` logs the tickets of the waiters that guard drops have woken; `heirs` holds those
      that have been neither polled nor dropped since. */
  datatype State = State(
    capacity: nat, locked: bool, waiters: seq<nat>, futures: seq<Future>,
    guards: nat, tickets: nat, woken: seq<nat>, heirs: set<nat>)

  function Init(capacity: nat): State {
    State(capacity, false, [], [], 0, 0, [], {})
  }

  /** `Vec::retain` of everything but `f`. */
  function Without(ws: seq<nat>, f: nat): (r: seq<nat>)
    ensures forall x :: x in r <==> x in ws && x != f
    ensures |r| <= |ws|
  {
    if ws == [] then []
    else
      var last := ws[|ws| - 1];
      assert ws == ws[..|ws| - 1] + [last];
      Without(ws[..|ws| - 1], f) + if last == f then [] else [last]
  }

  /** May the holder of future `f` still poll or drop it? */
  predicate Usable(s: State, f: nat) {
    f < |s.futures| && s.futures[f].live
  }

  // ---- the operations ----

  datatype Poll = Ready | Pending | Panics

  /** `MutexLockFuture::poll` with a context that yields `waker`. */
  function PollSpec(s: State, f: nat, waker: nat): (r: (State, Poll))
    requires Usable(s, f) && !s.futures[f].done
    ensures |r.0.futures| == |s.futures|
  {
    var fut, heirs' := s.futures[f], s.heirs - {f};
    if !s.locked then
      (s.(locked := true, guards := s.guards + 1, heirs := heirs',
          waiters := if fut.queued then Without(s.waiters, f) else s.waiters,
          futures := s.futures[f := fut.(done := true, waker := if fut.queued then None else fut.waker)]), Ready)
    else if fut.queued then (s.(futures := s.futures[f := fut.(waker := Some(waker))], heirs := heirs'), Pending)
    else if |s.waiters| >= s.capacity then
      (s.(futures := s.futures[f := fut.(waker := Some(waker))], heirs := heirs'), Panics)
    else
      (s.(waiters := s.waiters + [f], tickets := s.tickets + 1, heirs := heirs',
          futures := s.futures[f := fut.(waker := Some(waker), queued := true, ticket := s.tickets)]), Pending)
  }

  function DropFutureSpec(s: State, f: nat): State
    requires Usable(s, f)
  {
    s.(futures := s.futures[f := s.futures[f].(live := false)], heirs := s.heirs - {f},
       waiters := if s.futures[f].queued then Without(s.waiters, f) else s.waiters)
  }

  function DropGuardSpec(s: State): State
    requires s.guards > 0
  {
    var s' := s.(locked := false, guards := s.guards - 1);
    if s.waiters == [] then s'
    else
      var f := s.waiters[0];
      s'.(waiters := s.waiters[1..], heirs := s.heirs + {f},
          woken := if f < |s.futures| && s.futures[f].waker.Some? then s.woken + [s.futures[f].ticket] else s.woken)
  }

  // ---- runs ----

  datatype Op = Lock | PollFuture(f: nat, waker: nat) | DropFuture(f: nat) | DropGuard

  /** The state after `op`, or None when it is not possible or panics. */
  function Step(s: State, op: Op): Option<State> {
    match op
    case Lock => Some(s.(futures := s.futures + [Future(false, None, true, false, 0)]))
    case PollFuture(f, waker) =>
      if !Usable(s, f) || s.futures[f].done || PollSpec(s, f, waker).1.Panics? then None
      else Some(PollSpec(s, f, waker).0)
    case DropFuture(f) => if Usable(s, f) then Some(DropFutureSpec(s, f)) else None
    case DropGuard => if s.guards > 0 then Some(DropGuardSpec(s)) else None
  }

  function Run(s: State, ops: seq<Op>): Option<State>
    decreases |ops|
  {
    if ops == [] then Some(s)
    else match Step(s, ops[0])
      case None => None
      case Some(s') => Run(s', ops[1..])
  }

  // ---- safety ----

  /** A listed future is alive, waiting, and has left a waker. */
  predicate WaiterOk(s: State, f: nat) {
    && f < |s.futures|
    && var fut := s.futures[f]; fut.live && fut.queued && !fut.done && fut.waker.Some? && fut.ticket < s.tickets
  }

  predicate InOrder(s: State, ws: seq<nat>) {
    forall i, j | 0 <= i < j < |ws| :: Ticket(s, ws[i]) < Ticket(s, ws[j])
  }

  /** Nobody listed joined before somebody already woken. */
  predicate InTurn(s: State) {
    && (forall i, f | 0 <= i < |s.woken| && f in s.waiters :: s.woken[i] < Ticket(s, f))
    && (forall i | 0 <= i < |s.woken| :: s.woken[i] < s.tickets)
    && (forall i, j | 0 <= i < j < |s.woken| :: s.woken[i] < s.woken[j])
  }

  /** The list points only to such futures, each once, in the order in which they joined; and guard
      drops wake them in that order. */
  ghost predicate WaitersOk(s: State) {
    && |s.waiters| <= s.capacity
    && (forall f | f in s.waiters :: WaiterOk(s, f))
    && InOrder(s, s.waiters)
    && InTurn(s)
  }

  function Ticket(s: State, f: nat): nat {
    if f < |s.futures| then s.futures[f].ticket else 0
  }

  /** One guard at most, and exactly one while the mutex is locked. */
  ghost predicate Exclusive(s: State) {
    s.guards == if s.locked then 1 else 0
  }

  /** Woken, and since then neither finished nor dropped. */
  predicate Called(s: State, f: nat) {
    Usable(s, f) && !s.futures[f].done && s.futures[f].queued && f !in s.waiters
  }

  /** A future that joined the list is on it still, or has been woken. */
  ghost predicate Tracked(s: State) {
    forall f | 0 <= f < |s.futures| && Called(s, f) :: s.futures[f].ticket in s.woken
  }

  lemma {:induction false} WithoutKeepsOrder(s: State, ws: seq<nat>, f: nat)
    requires InOrder(s, ws)
    ensures InOrder(s, Without(ws, f))
  {
    if ws != [] {
      var init := ws[..|ws| - 1];
      WithoutKeepsOrder(s, init, f);
      forall i | 0 <= i < |Without(init, f)| ensures Ticket(s, Without(init, f)[i]) < Ticket(s, ws[|ws| - 1]) {
        assert Without(init, f)[i] in init;
      }
    }
  }

  /** Removing waiters and changing futures that are not listed afterwards is safe. */
  lemma ShrinkIsSafe(s: State, s': State)
    requires WaitersOk(s) && |s'.waiters| <= |s.waiters| && InOrder(s, s'.waiters)
    requires forall f | f in s'.waiters :: f in s.waiters
    requires s'.capacity == s.capacity && s'.woken == s.woken && s'.tickets == s.tickets
    requires |s.futures| <= |s'.futures|
    requires forall f | f in s'.waiters && f < |s.futures| :: s'.futures[f] == s.futures[f]
    ensures WaitersOk(s')
  {
    assert forall i | 0 <= i < |s'.waiters| :: s'.waiters[i] in s'.waiters;
    assert forall f | f in s'.waiters :: WaiterOk(s, f) && Ticket(s', f) == Ticket(s, f);
  }

  lemma AcquireIsSafe(s: State, f: nat, waker: nat)
    requires WaitersOk(s) && Usable(s, f) && !s.futures[f].done && !s.locked
    ensures WaitersOk(PollSpec(s, f, waker).0)
  {
    WithoutKeepsOrder(s, s.waiters, f);
    assert f in s.waiters ==> WaiterOk(s, f);
    ShrinkIsSafe(s, PollSpec(s, f, waker).0);
  }

  /** A queued future only leaves a new waker. */
  lemma RepollIsSafe(s: State, f: nat, waker: nat)
    requires WaitersOk(s) && Usable(s, f) && !s.futures[f].done && s.locked && s.futures[f].queued
    ensures WaitersOk(PollSpec(s, f, waker).0)
  {
    var s' := PollSpec(s, f, waker).0;
    assert forall g | g in s.waiters :: WaiterOk(s, g) && WaiterOk(s', g) && Ticket(s', g) == Ticket(s, g);
    OrderIsOfTickets(s, s', s.waiters);
  }

  lemma OrderIsOfTickets(s: State, s': State, ws: seq<nat>)
    requires InOrder(s, ws) && forall g | g in ws :: Ticket(s', g) == Ticket(s, g)
    ensures InOrder(s', ws)
  {
    assert forall i | 0 <= i < |ws| :: ws[i] in ws;
  }

  /** A newcomer draws the highest ticket. */
  lemma JoinIsSafe(s: State, f: nat, waker: nat)
    requires WaitersOk(s) && Usable(s, f) && !s.futures[f].done && s.locked && !s.futures[f].queued && |s.waiters| < s.capacity
    ensures WaitersOk(PollSpec(s, f, waker).0)
  {
    var s' := PollSpec(s, f, waker).0;
    assert f in s.waiters ==> WaiterOk(s, f);
    assert forall g | g in s.waiters :: WaiterOk(s, g) && WaiterOk(s', g) && Ticket(s', g) == Ticket(s, g) < s.tickets;
    OrderIsOfTickets(s, s', s.waiters);
    assert forall i | 0 <= i < |s.waiters| :: s.waiters[i] in s.waiters;
  }

  lemma PollIsSafe(s: State, f: nat, waker: nat)
    requires WaitersOk(s) && Usable(s, f) && !s.futures[f].done && !PollSpec(s, f, waker).1.Panics?
    ensures WaitersOk(PollSpec(s, f, waker).0)
  {
    hide WaitersOk;
    if !s.locked {
      AcquireIsSafe(s, f, waker);
    } else if s.futures[f].queued {
      RepollIsSafe(s, f, waker);
    } else {
      JoinIsSafe(s, f, waker);
    }
  }

  lemma DropFutureIsSafe(s: State, f: nat)
    requires WaitersOk(s) && Usable(s, f)
    ensures WaitersOk(DropFutureSpec(s, f))
  {
    WithoutKeepsOrder(s, s.waiters, f);
    assert f in s.waiters ==> WaiterOk(s, f);
    ShrinkIsSafe(s, DropFutureSpec(s, f));
  }

  /** A guard drop wakes the waiter that joined first, through the waker it left. */
  lemma GuardDropWakesFirst(s: State)
    requires WaitersOk(s) && s.guards > 0 && s.waiters != []
    ensures var f, s' := s.waiters[0], DropGuardSpec(s);
            && s'.woken == s.woken + [Ticket(s, f)] && f !in s'.waiters
            && (forall g | g in s'.waiters :: g in s.waiters && Ticket(s, f) < Ticket(s, g))
  {
    var f, ws := s.waiters[0], s.waiters[1..];
    assert f in s.waiters && WaiterOk(s, f);
    forall g | g in ws ensures g in s.waiters && Ticket(s, f) < Ticket(s, g) {
      var i :| 0 <= i < |ws| && ws[i] == g;
      assert s.waiters[i + 1] == g;
    }
  }

  lemma WakeIsInTurn(s: State, t: nat)
    requires WaitersOk(s) && t < s.tickets
    requires forall i | 0 <= i < |s.woken| :: s.woken[i] < t
    requires forall g | g in s.waiters :: t < Ticket(s, g)
    ensures WaitersOk(s.(woken := s.woken + [t]))
  {
    var s' := s.(woken := s.woken + [t]);
    assert forall g | g in s.waiters :: WaiterOk(s, g) && Ticket(s', g) == Ticket(s, g);
  }

  lemma DropGuardIsSafe(s: State)
    requires WaitersOk(s) && s.guards > 0
    ensures WaitersOk(DropGuardSpec(s))
  {
    if s.waiters != [] {
      GuardDropWakesFirst(s);
      var f, s' := s.waiters[0], DropGuardSpec(s);
      assert f in s.waiters && WaiterOk(s, f);
      assert InOrder(s, s.waiters[1..]);
      var s1 := s'.(woken := s.woken);
      ShrinkIsSafe(s, s1);
      WakeIsInTurn(s1, Ticket(s, f));
    }
  }

  lemma LockIsSafe(s: State)
    requires WaitersOk(s)
    ensures WaitersOk(Step(s, Lock).value)
  {
    ShrinkIsSafe(s, Step(s, Lock).value);
  }

  lemma StepIsSafe(s: State, op: Op)
    requires WaitersOk(s) && Exclusive(s) && Step(s, op).Some?
    ensures WaitersOk(Step(s, op).value) && Exclusive(Step(s, op).value)
  {
    hide WaitersOk;
    match op
    case Lock => LockIsSafe(s);
    case PollFuture(f, waker) => PollIsSafe(s, f, waker);
    case DropFuture(f) => DropFutureIsSafe(s, f);
    case DropGuard => DropGuardIsSafe(s);
  }

  lemma StepTracks(s: State, op: Op)
    requires WaitersOk(s) && Tracked(s) && Step(s, op).Some?
    ensures Tracked(Step(s, op).value)
  {
    var s' := Step(s, op).value;
    if op.DropGuard? && s.waiters != [] { GuardDropWakesFirst(s); }
    forall f | 0 <= f < |s'.futures| && Called(s', f) ensures s'.futures[f].ticket in s'.woken {
      assert Called(s, f) || (op.DropGuard? && f == s.waiters[0]);
    }
  }

  /** Over every sequence of polls and drops: the lock is held by exactly one guard or free, and the
      waiter list holds exactly the waiting futures not yet woken. */
  lemma {:induction false} MutexIsSafe(s: State, ops: seq<Op>)
    requires WaitersOk(s) && Exclusive(s) && Tracked(s) && Run(s, ops).Some?
    ensures var s' := Run(s, ops).value; WaitersOk(s') && Exclusive(s') && Tracked(s')
    decreases |ops|
  {
    hide WaitersOk, Tracked;
    if ops != [] {
      StepIsSafe(s, ops[0]);
      StepTracks(s, ops[0]);
      MutexIsSafe(Step(s, ops[0]).value, ops[1..]);
    }
  }

  // ---- who has been woken ----

  /** A waiter is woken at most once in its life: once woken, and as long as it has not got the lock,
      it is on the list no more, however often it is polled, and no guard drop wakes it again. */
  lemma {:induction false} WokenOnce(s: State, ops: seq<Op>, f: nat)
    requires WaitersOk(s) && Exclusive(s) && Tracked(s) && Run(s, ops).Some? && Called(s, f)
    ensures var s' := Run(s, ops).value;
            && WaitersOk(s') && s.woken <= s'.woken
            && (Usable(s', f) && !s'.futures[f].done ==> Called(s', f))
            && (forall i | |s.woken| <= i < |s'.woken| :: s'.woken[i] != s.futures[f].ticket)
    decreases |ops|
  {
    MutexIsSafe(s, ops);
    WokenGrows(s, ops);
    CalledStays(s, ops, f);
    var s' := Run(s, ops).value;
    var i :| 0 <= i < |s.woken| && s.woken[i] == s.futures[f].ticket;
    assert s'.woken[i] == s.woken[i];
  }

  lemma {:induction false} WokenGrows(s: State, ops: seq<Op>)
    requires Run(s, ops).Some?
    ensures s.woken <= Run(s, ops).value.woken && |s.futures| <= |Run(s, ops).value.futures|
    decreases |ops|
  {
    if ops != [] { WokenGrows(Step(s, ops[0]).value, ops[1..]); }
  }

  lemma {:induction false} CalledStays(s: State, ops: seq<Op>, f: nat)
    requires Run(s, ops).Some? && (Called(s, f) || (f < |s.futures| && (!s.futures[f].live || s.futures[f].done)))
    ensures var s' := Run(s, ops).value; Usable(s', f) && !s'.futures[f].done ==> Called(s', f)
    decreases |ops|
  {
    if ops != [] {
      var s1 := Step(s, ops[0]).value;
      CalledStays(s1, ops[1..], f);
    }
  }

  /** The polls of a run that answer Ready, and the guards it drops. */
  function Acquired(s: State, ops: seq<Op>): nat
    decreases |ops|
  {
    if ops == [] then 0
    else match Step(s, ops[0])
      case None => 0
      case Some(s') =>
        (if ops[0].PollFuture? && PollSpec(s, ops[0].f, ops[0].waker).1 == Ready then 1 else 0) + Acquired(s', ops[1..])
  }

  function Released(ops: seq<Op>): nat {
    if ops == [] then 0 else (if ops[0].DropGuard? then 1 else 0) + Released(ops[1..])
  }

  lemma {:induction false} GuardsAreConserved(s: State, ops: seq<Op>)
    requires Run(s, ops).Some?
    ensures Run(s, ops).value.guards + Released(ops) == s.guards + Acquired(s, ops)
    decreases |ops|
  {
    hide Without;
    if ops != [] { GuardsAreConserved(Step(s, ops[0]).value, ops[1..]); }
  }

  /** What a poll answers, and what it does to the lock, the guards, the list and its future: Ready exactly
      when the mutex is free, a panic exactly when a newcomer meets a full list, else Pending. */
  lemma PollAnswers(s: State, f: nat, waker: nat)
    requires WaitersOk(s) && Usable(s, f) && !s.futures[f].done
    ensures var (s', answer) := PollSpec(s, f, waker);
            && (answer == Ready <==> !s.locked)
            && (answer == Panics <==> s.locked && !s.futures[f].queued && |s.waiters| >= s.capacity)
            && s'.locked && s'.guards == s.guards + (if answer == Ready then 1 else 0)
            && |s'.futures| == |s.futures| && (forall g | 0 <= g < |s.futures| && g != f :: s'.futures[g] == s.futures[g])
            && s'.futures[f].live && s'.futures[f].done == (answer == Ready)
            && (answer == Ready ==> multiset(s'.waiters) == multiset(s.waiters) - multiset{f})
            && s'.futures[f].waker == (if answer != Ready then Some(waker) else if s.futures[f].queued then None else s.futures[f].waker)
            && (answer == Panics ==> s'.waiters == s.waiters)
            && (answer == Pending ==>
                  s'.futures[f].queued && s'.waiters == s.waiters + if s.futures[f].queued then [] else [f])
  {
    assert f in s.waiters ==> WaiterOk(s, f);
    if !s.locked && s.futures[f].queued {
      NoTwice(s);
      WithoutTakesOne(s.waiters, f);
    }
  }

  lemma NoTwice(s: State)
    requires WaitersOk(s)
    ensures forall i, j | 0 <= i < j < |s.waiters| :: s.waiters[i] != s.waiters[j]
  {}

  lemma {:induction false} WithoutTakesOne(ws: seq<nat>, f: nat)
    requires forall i, j | 0 <= i < j < |ws| :: ws[i] != ws[j]
    ensures multiset(Without(ws, f)) == multiset(ws) - multiset{f}
  {
    if ws != [] {
      var init, last := ws[..|ws| - 1], ws[|ws| - 1];
      assert ws == init + [last];
      WithoutTakesOne(init, f);
      assert last !in init;
    }
  }

  /** Mutual exclusion as callers see it: from a free mutex, over every run, the polls that answered Ready
      outnumber the guards dropped by one while the mutex is locked, and by none while it is free. */
  lemma AtMostOneHolds(s: State, ops: seq<Op>)
    requires WaitersOk(s) && Exclusive(s) && Tracked(s) && !s.locked && Run(s, ops).Some?
    ensures Acquired(s, ops) == Released(ops) + if Run(s, ops).value.locked then 1 else 0
  {
    GuardsAreConserved(s, ops);
    MutexIsSafe(s, ops);
  }

  /** The run neither polls nor drops `f`. */
  predicate Untouched(ops: seq<Op>, f: nat) {
    forall i | 0 <= i < |ops| :: !(ops[i].PollFuture? && ops[i].f == f) && !(ops[i].DropFuture? && ops[i].f == f)
  }

  lemma {:induction false} UntouchedWaits(s: State, ops: seq<Op>, f: nat)
    requires Run(s, ops).Some? && Untouched(ops, f) && Usable(s, f) && !s.futures[f].done
    ensures var s' := Run(s, ops).value; Usable(s', f) && !s'.futures[f].done
    decreases |ops|
  {
    hide Without;
    if ops != [] { UntouchedWaits(Step(s, ops[0]).value, ops[1..], f); }
  }

  /** A guard drop wakes its heir; then others poll, drop and release as they like.  The heir's next poll
      acquires the lock if and only if every guard acquired in between has been dropped again; otherwise
      it returns Pending and leaves the heir off the list for good. */
  lemma HeirAcquiresIff(s: State, ops: seq<Op>, waker: nat)
    requires WaitersOk(s) && Exclusive(s) && Tracked(s) && s.guards > 0 && s.waiters != []
    requires var s0 := DropGuardSpec(s); Run(s0, ops).Some? && Untouched(ops, s.waiters[0])
    ensures var f, s0 := s.waiters[0], DropGuardSpec(s);
            var s1 := Run(s0, ops).value;
            && Usable(s1, f) && !s1.futures[f].done
            && (PollSpec(s1, f, waker).1 == Ready <==> Acquired(s0, ops) == Released(ops))
            && (Acquired(s0, ops) != Released(ops) ==>
                  PollSpec(s1, f, waker).1 == Pending && Called(PollSpec(s1, f, waker).0, f))
  {
    var f, s0 := s.waiters[0], DropGuardSpec(s);
    assert f in s.waiters && WaiterOk(s, f);
    GuardDropWakesFirst(s);
    StepIsSafe(s, DropGuard);
    StepTracks(s, DropGuard);
    MutexIsSafe(s0, ops);
    GuardsAreConserved(s0, ops);
    UntouchedWaits(s0, ops, f);
    assert Called(s0, f);
    CalledStays(s0, ops, f);
  }

  /** However the run goes on, no guard drop wakes `f`, and while it has not got the lock it is not listed. */
  ghost predicate NeverWoken(s: State, f: nat)
    requires f < |s.futures|
  {
    forall ops | Run(s, ops).Some? ::
      var s' := Run(s, ops).value;
      && s.woken <= s'.woken
      && (Usable(s', f) && !s'.futures[f].done ==> f !in s'.waiters)
      && forall i | |s.woken| <= i < |s'.woken| :: s'.woken[i] != s.futures[f].ticket
  }

  /** A newcomer that polls between the guard drop and the poll of the waiter it woke takes the lock; the
      waiter then returns Pending, and whatever happens afterwards, no guard drop ever wakes it. */
  lemma OvertakenIsStranded(s: State, f: nat, g: nat, w1: nat, w2: nat) returns (end: State)
    requires WaitersOk(s) && Exclusive(s) && Tracked(s) && s.locked
    requires s.waiters != [] && s.waiters[0] == f && Usable(s, g) && !s.futures[g].done && !s.futures[g].queued
    ensures Run(s, [DropGuard, PollFuture(g, w1), PollFuture(f, w2)]) == Some(end)
    ensures Usable(end, f) && !end.futures[f].done && end.futures[f].waker == Some(w2)
    ensures NeverWoken(end, f)
  {
    assert f in s.waiters && WaiterOk(s, f);
    GuardDropWakesFirst(s);
    var s1 := Step(s, DropGuard).value;
    var s2 := Step(s1, PollFuture(g, w1)).value;
    end := Step(s2, PollFuture(f, w2)).value;
    FirstOf(s, DropGuard, s1, [PollFuture(g, w1), PollFuture(f, w2)]);
    FirstOf(s1, PollFuture(g, w1), s2, [PollFuture(f, w2)]);
    FirstOf(s2, PollFuture(f, w2), end, []);
    assert [DropGuard] + [PollFuture(g, w1), PollFuture(f, w2)] == [DropGuard, PollFuture(g, w1), PollFuture(f, w2)];
    assert [PollFuture(g, w1)] + [PollFuture(f, w2)] == [PollFuture(g, w1), PollFuture(f, w2)];
    assert [PollFuture(f, w2)] + [] == [PollFuture(f, w2)];
    MutexIsSafe(s, [DropGuard, PollFuture(g, w1), PollFuture(f, w2)]);
    forall ops | Run(end, ops).Some?
      ensures var s' := Run(end, ops).value;
              && end.woken <= s'.woken
              && (Usable(s', f) && !s'.futures[f].done ==> f !in s'.waiters)
              && forall i | |end.woken| <= i < |s'.woken| :: s'.woken[i] != end.futures[f].ticket
    {
      WokenOnce(end, ops, f);
    }
  }

  lemma FirstOf(s: State, a: Op, s': State, rest: seq<Op>)
    requires Step(s, a) == Some(s')
    ensures Run(s, [a] + rest) == Run(s', rest)
  {
    assert ([a] + rest)[1..] == rest;
  }

  // ---- the handover ----

  /** Whoever was woken, and has been neither polled nor dropped since, is alive, waits, and is off the list. */
  ghost predicate HeirsAreCalled(s: State) {
    forall f | f in s.heirs :: Called(s, f)
  }

  /** The mutex is free and somebody waits, but nobody has been woken to take it. */
  predicate Heirless(s: State) {
    !s.locked && s.waiters != [] && s.heirs == {}
  }

  ghost predicate Inherited(s: State) {
    HeirsAreCalled(s) && !Heirless(s)
  }

  /** The op drops the only heir of a free mutex with waiters. */
  predicate DropsLastHeir(s: State, op: Op) {
    op.DropFuture? && s.heirs == {op.f} && !s.locked && s.waiters != []
  }

  lemma StepKeepsHeirs(s: State, op: Op)
    requires WaitersOk(s) && HeirsAreCalled(s) && Step(s, op).Some?
    ensures HeirsAreCalled(Step(s, op).value)
  {
    if op.DropGuard? && s.waiters != [] {
      GuardDropWakesFirst(s);
      assert s.waiters[0] in s.waiters && WaiterOk(s, s.waiters[0]);
    }
  }

  /** Only a poll ends the want of an heir, short of emptying the list; only the drop of the last heir
      brings it about. */
  lemma StepIsHeirlessIff(s: State, op: Op)
    requires Step(s, op).Some? && (op.DropGuard? ==> Exclusive(s))
    ensures var s' := Step(s, op).value;
            Heirless(s') <==> s'.waiters != [] && ((Heirless(s) && !op.PollFuture?) || DropsLastHeir(s, op))
  {}

  /** Dropping a future breaks the handover exactly when it is the only heir of a free mutex with waiters. */
  lemma DropKeepsInheritedIff(s: State, f: nat)
    requires WaitersOk(s) && Inherited(s) && Usable(s, f)
    ensures Inherited(DropFutureSpec(s, f)) <==> !DropsLastHeir(s, DropFuture(f))
  {
    StepKeepsHeirs(s, DropFuture(f));
    StepIsHeirlessIff(s, DropFuture(f));
    if DropsLastHeir(s, DropFuture(f)) {
      assert f in s.heirs;
      ListKeeps(s.waiters, f);
    }
  }

  lemma ListKeeps(ws: seq<nat>, f: nat)
    requires ws != [] && f !in ws
    ensures Without(ws, f) != []
  {
    assert ws[0] in Without(ws, f);
  }

  predicate NoPolls(ops: seq<Op>) {
    forall i | 0 <= i < |ops| :: !ops[i].PollFuture?
  }

  /** Some op of the run drops the last heir, and nothing is polled after it. */
  predicate LosesHeir(s: State, ops: seq<Op>)
    decreases |ops|
  {
    ops != [] && (
      || (DropsLastHeir(s, ops[0]) && NoPolls(ops[1..]))
      || (Step(s, ops[0]).Some? && LosesHeir(Step(s, ops[0]).value, ops[1..])))
  }

  lemma {:induction false} RunIsHeirlessIff(s: State, ops: seq<Op>)
    requires WaitersOk(s) && Exclusive(s) && HeirsAreCalled(s) && Run(s, ops).Some?
    ensures HeirsAreCalled(Run(s, ops).value)
    ensures Heirless(Run(s, ops).value) <==>
              Run(s, ops).value.waiters != [] && ((Heirless(s) && NoPolls(ops)) || LosesHeir(s, ops))
    decreases |ops|
  {
    hide WaitersOk, HeirsAreCalled, Step, DropsLastHeir;
    if ops != [] {
      var s1, rest := Step(s, ops[0]).value, ops[1..];
      StepIsSafe(s, ops[0]);
      StepKeepsHeirs(s, ops[0]);
      StepIsHeirlessIff(s, ops[0]);
      RunIsHeirlessIff(s1, rest);
      assert ops == [ops[0]] + rest;
      assert NoPolls(ops) <==> !ops[0].PollFuture? && NoPolls(rest);
      if s1.waiters == [] && NoPolls(rest) { NobodyJoins(s1, rest); }
    }
  }

  lemma {:induction false} NobodyJoins(s: State, ops: seq<Op>)
    requires s.waiters == [] && NoPolls(ops) && Run(s, ops).Some?
    ensures Run(s, ops).value.waiters == []
    decreases |ops|
  {
    if ops != [] { NobodyJoins(Step(s, ops[0]).value, ops[1..]); }
  }

  /** A run leaves a free mutex with waiters and nobody woken to take it if and only if it ends with
      waiters, drops the last heir at some point, and polls nothing after that. */
  lemma HandoverFailsIff(s: State, ops: seq<Op>)
    requires WaitersOk(s) && Exclusive(s) && Inherited(s) && Run(s, ops).Some?
    ensures Heirless(Run(s, ops).value) <==> Run(s, ops).value.waiters != [] && LosesHeir(s, ops)
  {
    RunIsHeirlessIff(s, ops);
  }

  /** No op of the run drops an heir. */
  predicate KeepsHeirs(s: State, ops: seq<Op>)
    decreases |ops|
  {
    ops != [] ==>
      && (ops[0].DropFuture? ==> ops[0].f !in s.heirs)
      && (Step(s, ops[0]).Some? ==> KeepsHeirs(Step(s, ops[0]).value, ops[1..]))
  }

  lemma {:induction false} KeptHeirsAreNotLost(s: State, ops: seq<Op>)
    requires KeepsHeirs(s, ops)
    ensures !LosesHeir(s, ops)
    decreases |ops|
  {
    if ops != [] && Step(s, ops[0]).Some? { KeptHeirsAreNotLost(Step(s, ops[0]).value, ops[1..]); }
  }

  lemma RunKeepsInherited(s: State, ops: seq<Op>)
    requires WaitersOk(s) && Exclusive(s) && Inherited(s) && Run(s, ops).Some? && KeepsHeirs(s, ops)
    ensures Inherited(Run(s, ops).value)
  {
    RunIsHeirlessIff(s, ops);
    KeptHeirsAreNotLost(s, ops);
  }

  // ---- from power-up ----

  function Waiting(waker: nat, ticket: nat): Future { Future(true, Some(waker), true, false, ticket) }

  const NEW_FUTURE := Future(false, None, true, false, 0)

  lemma ThreeFutures(capacity: nat, rest: seq<Op>) returns (s: State)
    ensures s == Init(capacity).(futures := [NEW_FUTURE, NEW_FUTURE, NEW_FUTURE])
    ensures Run(Init(capacity), [Lock, Lock, Lock] + rest) == Run(s, rest)
  {
    var s1 := Step(Init(capacity), Lock).value;
    var s2 := Step(s1, Lock).value;
    s := Step(s2, Lock).value;
    FirstOf(Init(capacity), Lock, s1, [Lock, Lock] + rest);
    FirstOf(s1, Lock, s2, [Lock] + rest);
    FirstOf(s2, Lock, s, rest);
    assert [Lock, Lock, Lock] + rest == [Lock] + ([Lock, Lock] + rest);
    assert [Lock, Lock] + rest == [Lock] + ([Lock] + rest);
  }

  /** The first of three futures acquires the lock, the second joins the list. */
  lemma OneHoldsOneWaits(capacity: nat, rest: seq<Op>) returns (s: State)
    requires capacity > 0
    ensures s == State(capacity, true, [1], [NEW_FUTURE.(done := true), Waiting(11, 0), NEW_FUTURE], 1, 1, [], {})
    ensures Run(Init(capacity), [Lock, Lock, Lock, PollFuture(0, 10), PollFuture(1, 11)] + rest) == Run(s, rest)
  {
    var s1 := ThreeFutures(capacity, [PollFuture(0, 10), PollFuture(1, 11)] + rest);
    var s2 := Step(s1, PollFuture(0, 10)).value;
    s := Step(s2, PollFuture(1, 11)).value;
    FirstOf(s1, PollFuture(0, 10), s2, [PollFuture(1, 11)] + rest);
    FirstOf(s2, PollFuture(1, 11), s, rest);
    assert [PollFuture(0, 10), PollFuture(1, 11)] + rest == [PollFuture(0, 10)] + ([PollFuture(1, 11)] + rest);
    assert [Lock, Lock, Lock, PollFuture(0, 10), PollFuture(1, 11)] + rest
        == [Lock, Lock, Lock] + ([PollFuture(0, 10), PollFuture(1, 11)] + rest);
  }

  /** The waiter is overtaken for good: three futures suffice, at any capacity. */
  lemma OvertakenIsReachable(capacity: nat) returns (s: State, end: State)
    requires capacity > 0
    ensures Run(Init(capacity), [Lock, Lock, Lock, PollFuture(0, 10), PollFuture(1, 11)]) == Some(s)
    ensures Run(s, [DropGuard, PollFuture(2, 12), PollFuture(1, 13)]) == Some(end)
    ensures Usable(end, 1) && !end.futures[1].done && end.futures[1].waker == Some(13) && NeverWoken(end, 1)
  {
    var ops := [Lock, Lock, Lock, PollFuture(0, 10), PollFuture(1, 11)];
    s := OneHoldsOneWaits(capacity, []);
    assert ops + [] == ops;
    MutexIsSafe(Init(capacity), ops);
    end := OvertakenIsStranded(s, 1, 2, 12, 13);
  }

  /** The only heir of a free mutex is dropped, and the waiter behind it waits on. */
  lemma LostHeirIsReachable(capacity: nat) returns (s: State, end: State)
    requires capacity > 1
    ensures Run(Init(capacity), [Lock, Lock, Lock, PollFuture(0, 10), PollFuture(1, 11), PollFuture(2, 12), DropGuard]) == Some(s)
    ensures Inherited(s) && DropsLastHeir(s, DropFuture(1))
    ensures Step(s, DropFuture(1)) == Some(end) && Heirless(end) && end.waiters == [2]
  {
    hide Step;
    var s1 := OneHoldsOneWaits(capacity, [PollFuture(2, 12), DropGuard]);
    var s2, s3 := HeirAndWaiter(s1);
    s := s3;
    FirstOf(s1, PollFuture(2, 12), s2, [DropGuard]);
    FirstOf(s2, DropGuard, s, []);
    assert [PollFuture(2, 12), DropGuard] == [PollFuture(2, 12)] + [DropGuard];
    assert [DropGuard] == [DropGuard] + [];
    assert [Lock, Lock, Lock, PollFuture(0, 10), PollFuture(1, 11), PollFuture(2, 12), DropGuard]
        == [Lock, Lock, Lock, PollFuture(0, 10), PollFuture(1, 11)] + [PollFuture(2, 12), DropGuard];
    end := HeirIsDropped(s);
  }

  lemma HeirAndWaiter(s: State) returns (s1: State, s2: State)
    requires s.capacity > 1
    requires s == State(s.capacity, true, [1], [NEW_FUTURE.(done := true), Waiting(11, 0), NEW_FUTURE], 1, 1, [], {})
    ensures Step(s, PollFuture(2, 12)) == Some(s1) && Step(s1, DropGuard) == Some(s2)
    ensures s2 == State(s.capacity, false, [2], [NEW_FUTURE.(done := true), Waiting(11, 0), Waiting(12, 1)], 0, 2, [0], {1})
  {
    s1 := Step(s, PollFuture(2, 12)).value;
    assert s1.waiters == [1, 2];
    s2 := Step(s1, DropGuard).value;
  }

  lemma HeirIsDropped(s: State) returns (end: State)
    requires s == State(s.capacity, false, [2], [NEW_FUTURE.(done := true), Waiting(11, 0), Waiting(12, 1)], 0, 2, [0], {1})
    ensures Inherited(s) && DropsLastHeir(s, DropFuture(1))
    ensures Step(s, DropFuture(1)) == Some(end) && Heirless(end) && end.waiters == [2]
  {
    end := Step(s, DropFuture(1)).value;
    assert [2] == [] + [2] && [2][..0] == [];
  }

  // ---- the mutex ----

  class Mutex {
    const capacity: nat
    var locked: bool
    var waiters: seq<nat>
    var futures: seq<Future>
    ghost var guards: nat
    var tickets: nat // history: how many futures have joined the list
    ghost var woken: seq<nat>
    ghost var heirs: set<nat>

    ghost function View(): State
      reads this
    {
      State(capacity, locked, waiters, futures, guards, tickets, woken, heirs)
    }

    constructor (n: nat)
      ensures View() == Init(n)
      ensures WaitersOk(View()) && Exclusive(View()) && Tracked(View()) && Inherited(View())
    {
      capacity, locked, waiters, futures := n, false, [], [];
      guards, tickets, woken, heirs := 0, 0, [], {};
    }

    /** `lock` */
    method Lock() returns (f: nat)
      modifies this`futures
      ensures f == |old(futures)| && Some(View()) == Step(old(View()), Op.Lock)
    {
      f := |futures|;
      futures := futures + [Future(false, None, true, false, 0)];
    }

    /** `MutexLockFuture::poll` */
    method PollFuture(f: nat, waker: nat) returns (r: Poll)
      requires Usable(View(), f) && !futures[f].done
      modifies this
      ensures (View(), r) == PollSpec(old(View()), f, waker)
      ensures r == Ready <==> !old(locked)
      ensures r == Panics <==> old(locked && !futures[f].queued && |waiters| >= capacity)
      ensures guards == old(guards) + if r == Ready then 1 else 0
    {
      ghost var before := futures;
      heirs := heirs - {f};
      if !locked {
        locked := true;
        if futures[f].queued {
          waiters := Without(waiters, f);
          futures := futures[f := futures[f].(waker := None)];
        }
        futures := futures[f := futures[f].(done := true)];
        guards := guards + 1;
        assert futures == before[f := futures[f]];
        return Ready;
      }
      futures := futures[f := futures[f].(waker := Some(waker))];
      if !futures[f].queued {
        if |waiters| >= capacity { return Panics; }
        waiters := waiters + [f];
        futures := futures[f := futures[f].(queued := true, ticket := tickets)];
        tickets := tickets + 1;
        assert futures == before[f := futures[f]];
      }
      return Pending;
    }

    /** `MutexLockFuture::drop` */
    method DropFuture(f: nat)
      requires Usable(View(), f)
      modifies this`waiters, this`futures, this`heirs
      ensures View() == DropFutureSpec(old(View()), f)
    {
      if futures[f].queued { waiters := Without(waiters, f); }
      futures := futures[f := futures[f].(live := false)];
      heirs := heirs - {f};
    }

    /** `MutexGuard::drop`; returns the waker it wakes. */
    method DropGuard() returns (wake: Option<nat>)
      requires WaitersOk(View()) && guards > 0
      modifies this`locked, this`waiters, this`guards, this`woken, this`heirs
      ensures View() == DropGuardSpec(old(View()))
      ensures wake.Some? <==> old(waiters) != []
      ensures wake.Some? ==> old(waiters)[0] < |old(futures)| && wake == old(futures)[old(waiters)[0]].waker
    {
      locked := false;
      guards := guards - 1;
      wake := None;
      if waiters != [] {
        var f := waiters[0];
        assert f in waiters && WaiterOk(View(), f);
        waiters := waiters[1..];
        wake := futures[f].waker;
        if wake.Some? { woken := woken + [futures[f].ticket]; }
        heirs := heirs + {f};
      }
    }
  }
}
