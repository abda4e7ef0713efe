/** The bounded timer queue: a vector in no particular order, searched and swept with `swap_remove`. */
module Timers {
  import opened Wrappers

  /** `data` stands for the address passed to `schedule`; the callback is always the trampoline. */
  datatype Entry = Entry(deadline: nat, data: nat)

  // ---- the vector operations ----

  /** The earliest deadline. */
  function Earliest(q: seq<Entry>): (m: Option<nat>)
    ensures m == None <==> q == []
    ensures m.Some? ==> (exists e :: e in q && e.deadline == m.value) && forall e | e in q :: m.value <= e.deadline
  {
    if q == [] then None
    else
      var last := q[|q| - 1];
      assert q == q[..|q| - 1] + [last];
      match Earliest(q[..|q| - 1])
      case None => Some(last.deadline)
      case Some(m) => if last.deadline < m then Some(last.deadline) else Some(m)
  }

  function SwapRemove(q: seq<Entry>, i: nat): (q': seq<Entry>)
    requires i < |q|
    ensures |q'| == |q| - 1
    ensures multiset(q) == multiset(q') + multiset{q[i]}
    ensures q'[..i] == q[..i]
    ensures forall k | 0 <= k < |q'| :: q'[k] == if k == i then q[|q| - 1] else q[k]
  {
    var last := q[|q| - 1];
    assert q == q[..|q| - 1] + [last];
    if i == |q| - 1 then q[..i] else q[..|q| - 1][i := last]
  }

  /** The sweep of `dequeue_expired` from index `i` on: what stays and what fires, in firing order. */
  function Sweep(q: seq<Entry>, i: nat, now: nat): (r: (seq<Entry>, seq<Entry>))
    requires i <= |q|
    decreases |q| - i
  {
    if i == |q| then (q, [])
    else if q[i].deadline <= now then
      var (stays, fires) := Sweep(SwapRemove(q, i), i, now);
      (stays, [q[i]] + fires)
    else Sweep(q, i + 1, now)
  }

  /** The sweep splits the queue, as a multiset, exactly into what has expired and what has not. */
  lemma {:induction false} SweepSplits(q: seq<Entry>, i: nat, now: nat)
    requires i <= |q| && forall k | 0 <= k < i :: now < q[k].deadline
    ensures var (stays, fires) := Sweep(q, i, now);
            && multiset(q) == multiset(stays) + multiset(fires)
            && (forall e | e in stays :: now < e.deadline)
            && (forall e | e in fires :: e.deadline <= now)
    decreases |q| - i
  {
    if i < |q| {
      if q[i].deadline <= now {
        var q' := SwapRemove(q, i);
        assert forall k | 0 <= k < i :: q'[k] == q'[..i][k];
        SweepSplits(q', i, now);
      } else {
        SweepSplits(q, i + 1, now);
      }
    }
  }

  /** The first entry with these data. */
  function Find(q: seq<Entry>, i: nat, data: nat): (r: Option<nat>)
    requires i <= |q|
    ensures r == None ==> forall k | i <= k < |q| :: q[k].data != data
    ensures r.Some? ==> i <= r.value < |q| && q[r.value].data == data && forall k | i <= k < r.value :: q[k].data != data
    decreases |q| - i
  {
    if i == |q| then None else if q[i].data == data then Some(i) else Find(q, i + 1, data)
  }

  /** What `cancel` leaves, and whether it took anything: the first match, and nothing else. */
  function Remove(q: seq<Entry>, data: nat): (r: (seq<Entry>, bool))
    ensures r.1 <==> exists e :: e in q && e.data == data
    ensures !r.1 ==> r.0 == q
    ensures r.1 ==> exists i ::
              && 0 <= i < |q| && q[i].data == data && (forall k | 0 <= k < i :: q[k].data != data)
              && multiset(q) == multiset(r.0) + multiset{q[i]}
  {
    match Find(q, 0, data)
    case None => (q, false)
    case Some(i) => (SwapRemove(q, i), true)
  }

  /** Pushing an entry makes it the strict earliest exactly when `schedule` says so. */
  predicate NewEarliest(q: seq<Entry>, deadline: nat) {
    forall i | 0 <= i < |q| :: deadline < q[i].deadline
  }

  // ---- the queue ----

  class TimerQueue {
    const capacity: nat
    var entries: seq<Entry>
    ghost var fired: seq<Entry>

    ghost predicate Valid()
      reads this
    {
      |entries| <= capacity
    }

    constructor (n: nat)
      ensures Valid() && capacity == n && entries == [] && fired == []
    {
      capacity, entries, fired := n, [], [];
    }

    /** `try_schedule`: Err when full, otherwise whether this deadline is the new earliest. */
    method TrySchedule(deadline: nat, data: nat) returns (r: Result<bool, ()>)
      requires Valid()
      modifies this`entries
      ensures Valid()
      ensures r.Err? <==> |old(entries)| == capacity
      ensures r.Err? ==> entries == old(entries)
      ensures r.Ok? ==> entries == old(entries) + [Entry(deadline, data)]
                        && r.value == NewEarliest(old(entries), deadline)
    {
      var before := Earliest(entries);
      if |entries| == capacity { return Err(()); }
      entries := entries + [Entry(deadline, data)];
      var after := Earliest(entries);
      assert entries[|entries| - 1] in entries;
      assert forall i | 0 <= i < |old(entries)| :: entries[i] == old(entries)[i] && entries[i] in entries;
      return Ok(before == None || after.value < before.value);
    }

    /** `cancel` */
    method Cancel(data: nat) returns (removed: bool)
      requires Valid()
      modifies this`entries
      ensures Valid() && (entries, removed) == Remove(old(entries), data)
      ensures removed <==> exists e :: e in old(entries) && e.data == data
      ensures !removed ==> entries == old(entries)
      ensures removed ==> exists i ::
                && 0 <= i < |old(entries)| && old(entries)[i].data == data
                && (forall k | 0 <= k < i :: old(entries)[k].data != data)
                && multiset(old(entries)) == multiset(entries) + multiset{old(entries)[i]}
    {
      var i := 0;
      while i < |entries|
        invariant 0 <= i <= |entries| && entries == old(entries)
        invariant Find(entries, 0, data) == Find(entries, i, data)
      {
        if entries[i].data == data {
          entries := SwapRemove(entries, i);
          return true;
        }
        i := i + 1;
      }
      return false;
    }

    /** `dequeue_expired`: fire what has expired, return the earliest deadline left. */
    method DequeueExpired(now: nat) returns (next: Option<nat>)
      requires Valid()
      modifies this`entries, this`fired
      ensures Valid()
      ensures entries == Sweep(old(entries), 0, now).0 && fired == old(fired) + Sweep(old(entries), 0, now).1
      ensures next == Earliest(entries)
    {
      var i := 0;
      ghost var shot: seq<Entry> := [];
      while i < |entries|
        invariant 0 <= i <= |entries| <= capacity
        invariant fired == old(fired) + shot
        invariant Sweep(old(entries), 0, now).0 == Sweep(entries, i, now).0
        invariant Sweep(old(entries), 0, now).1 == shot + Sweep(entries, i, now).1
        decreases |entries| - i
      {
        if entries[i].deadline <= now {
          ghost var later := Sweep(SwapRemove(entries, i), i, now).1;
          assert shot + ([entries[i]] + later) == (shot + [entries[i]]) + later;
          fired := fired + [entries[i]];
          shot := shot + [entries[i]];
          entries := SwapRemove(entries, i);
        } else {
          i := i + 1;
        }
      }
      next := Earliest(entries);
    }
  }
}
