/** Reachability: the runs along which the examples of this project are built. */
module Reach {
  import opened Wrappers
  import opened Kernel
  import opened Machine
  import opened Lifecycle
  import opened Joining

  /** `Proper` runs claim slots only when that is safe, and use the handle of one worker as Joining.dfy
      demands; `Gentle` ones take no spawn further and start no poll of a join handle at all. */
  datatype Manner = Proper(worker: TaskId) | Gentle

  predicate Suits(m: Machine, a: Action, how: Manner) {
    match how
    case Proper(w) => ClaimIsSafe(m, a) && JoinsWell(m, a, w)
    case Gentle => !(a == Tick && m.fs.Over? && m.fs.top.Spawn?) && !a.CallJoin?
  }

  predicate AllSuit(m: Machine, acts: seq<Action>, how: Manner)
    decreases |acts|
  {
    acts == [] || (
      && Suits(m, acts[0], how)
      && (Step(m, acts[0]).Some? ==> AllSuit(Step(m, acts[0]).value, acts[1..], how)))
  }

  lemma {:induction false} SuitedIsSafe(m: Machine, acts: seq<Action>, how: Manner)
    requires AllSuit(m, acts, how)
    ensures RespawnsSafe(m, acts) && (how.Proper? ==> JoinsAllWell(m, acts, how.worker))
    decreases |acts|
  {
    hide Step;
    if acts != [] && Step(m, acts[0]).Some? { SuitedIsSafe(Step(m, acts[0]).value, acts[1..], how); }
  }

  lemma {:induction false} GentleIsProper(m: Machine, acts: seq<Action>, w: TaskId)
    requires AllSuit(m, acts, Gentle)
    ensures AllSuit(m, acts, Proper(w))
    decreases |acts|
  {
    hide Step;
    if acts != [] && Step(m, acts[0]).Some? { GentleIsProper(Step(m, acts[0]).value, acts[1..], w); }
  }

  predicate Leads(m: Machine, acts: seq<Action>, m': Machine, how: Manner := Gentle) {
    AllSuit(m, acts, how) && Run(m, acts) == Some(m')
  }

  ghost predicate Reaches(m: Machine, m': Machine, how: Manner := Gentle) {
    exists acts :: Leads(m, acts, m', how)
  }

  lemma Stay(m: Machine, how: Manner := Gentle)
    ensures Reaches(m, m, how)
  {
    assert Leads(m, [], m, how);
  }

  lemma First(m: Machine, a: Action, m1: Machine, m2: Machine, how: Manner := Gentle)
    requires Step(m, a) == Some(m1) && Suits(m, a, how) && Reaches(m1, m2, how)
    ensures Reaches(m, m2, how)
  {
    hide Step, Suits;
    var acts :| Leads(m1, acts, m2, how);
    assert ([a] + acts)[1..] == acts;
    assert Leads(m, [a] + acts, m2, how);
  }

  lemma {:induction false} Then(m: Machine, acts: seq<Action>, m1: Machine, m2: Machine, how: Manner)
    requires Leads(m, acts, m1, how) && Reaches(m1, m2, how)
    ensures Reaches(m, m2, how)
    decreases |acts|
  {
    hide Step, Suits;
    if acts != [] {
      var next := Step(m, acts[0]).value;
      Then(next, acts[1..], m1, m2, how);
      First(m, acts[0], next, m2, how);
    }
  }

  lemma Chain(m: Machine, m1: Machine, m2: Machine, how: Manner := Gentle)
    requires Reaches(m, m1, how) && Reaches(m1, m2, how)
    ensures Reaches(m, m2, how)
  {
    var acts :| Leads(m, acts, m1, how);
    Then(m, acts, m1, m2, how);
  }

  /** A handler interrupts whatever runs, wakes `t`, and returns. */
  lemma HandlerWakes(m: Machine, p: Prio, t: TaskId) returns (m': Machine)
    requires m.k.WellFormed() && m.fs.Over? && FrameOk(m.fs.top, |m.k.queues|, |m.k.slots|) && m.mie && t < |m.k.slots|
    requires m.k.slots[t].exec == Some(p) && !m.k.slots[t].queued
    ensures p < |m.k.queues| && Reaches(m, m')
    ensures m' == m.(k := WakeSection(m.k, t))
  {
    hide SpawnStep, JoinStep, SoftStep, WakeStep, WakeSection;
    assert m.k.SlotOk(m.k.slots[t]);
    var m1 := Step(m, Irq).value;
    var m2 := Step(m1, MaskedWake(t)).value;
    m' := Step(m2, Tick).value;
    Stay(m');
    First(m2, Tick, m', m');
    First(m1, MaskedWake(t), m2, m');
    First(m, Irq, m1, m');
  }
}
