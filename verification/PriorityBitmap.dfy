/** The two-level priority bitmap: one 64-bit word per group of 64 priorities, and one word that
    records which groups are nonzero.  A `u64` is modelled as the vector of its 64 bits, least
    significant first; smaller numbers are higher priorities. */
module Bitmap {
  import opened Wrappers

  const WORD_BITS := 64

  type Word = w: seq<bool> | |w| == 64 witness seq(64, _ => false)

  const ZERO: Word := seq(64, _ => false)

  function Or(v: Word, w: Word): Word { seq(64, i requires 0 <= i < 64 => v[i] || w[i]) }
  function And(v: Word, w: Word): Word { seq(64, i requires 0 <= i < 64 => v[i] && w[i]) }
  function Not(w: Word): Word { seq(64, i requires 0 <= i < 64 => !w[i]) }

  /** `1 << b` */
  function OneShl(b: nat): Word
    requires b < 64
  {
    seq(64, i => i == b)
  }

  /** `trailing_zeros`: the index of the lowest set bit, 64 for the zero word. */
  function TrailingZeros(w: Word): nat { FirstSet(w, 0) }

  function FirstSet(w: Word, i: nat): (b: nat)
    requires i <= 64
    ensures i <= b <= 64
    ensures b < 64 ==> w[b]
    ensures forall c | i <= c < b :: !w[c]
    decreases 64 - i
  {
    if i == 64 || w[i] then i else FirstSet(w, i + 1)
  }

  /** The priorities whose bit is set in a table of groups. */
  ghost function Members(table: seq<Word>): set<nat> {
    set p: nat | p < |table| * WORD_BITS && table[p / WORD_BITS][p % WORD_BITS]
  }

  ghost predicate IsMin(p: nat, s: set<nat>) {
    p in s && forall q | q in s :: p <= q
  }

  lemma ZeroTable(table: seq<Word>)
    ensures Members(table) == {} <==> forall g | 0 <= g < |table| :: table[g] == ZERO
  {
    if Members(table) == {} {
      forall g | 0 <= g < |table| ensures table[g] == ZERO {
        forall b | 0 <= b < 64 ensures !table[g][b] { assert (g * 64 + b) !in Members(table); }
      }
    }
  }

  lemma WriteBit(table: seq<Word>, p: nat, w: Word, on: bool)
    requires p < |table| * WORD_BITS
    requires forall b | 0 <= b < 64 :: w[b] == if b == p % 64 then on else table[p / 64][b]
    ensures Members(table[p / 64 := w]) == if on then Members(table) + {p} else Members(table) - {p}
  {
    var table' := table[p / 64 := w];
    forall q: nat | q < |table| * 64
      ensures table'[q / 64][q % 64] == if q == p then on else table[q / 64][q % 64]
    {
      if q / 64 == p / 64 { assert q % 64 == p % 64 ==> q == p; }
    }
  }

  /** The first nonzero group holds the minimum, at its first set bit. */
  lemma FirstGroupHoldsMin(table: seq<Word>, g: nat, b: nat)
    requires g < |table| && b < 64 && table[g][b]
    requires forall h | 0 <= h < g :: table[h] == ZERO
    requires forall c | 0 <= c < b :: !table[g][c]
    ensures IsMin(g * 64 + b, Members(table))
  {
    var p := g * 64 + b;
    assert p / 64 == g && p % 64 == b;
    forall q | q in Members(table) ensures p <= q {
      if q / 64 < g { assert false; }
    }
  }

  // ---- what repeated popping yields ----

  /** `out` is what successive pops return, starting from the set `s` and ending with None. */
  ghost predicate PopsAll(s: set<nat>, out: seq<nat>) {
    if out == [] then s == {} else IsMin(out[0], s) && PopsAll(s - {out[0]}, out[1..])
  }

  /** Repeated pops return exactly the members, in strictly ascending order, then None. */
  lemma {:induction false} PopsAscending(s: set<nat>, out: seq<nat>)
    requires PopsAll(s, out)
    ensures forall i, j | 0 <= i < j < |out| :: out[i] < out[j]
    ensures forall p :: p in s <==> p in out
    ensures |out| == |s|
  {
    if out != [] {
      var rest := s - {out[0]};
      PopsAscending(rest, out[1..]);
      assert out == [out[0]] + out[1..];
      forall j | 0 < j < |out| ensures out[0] < out[j] {
        assert out[j] == out[1..][j - 1] && out[j] in rest;
      }
    }
  }

  /** Popping `out` from the set `all` leaves `was`: whatever continues from `was` continues `out`. */
  ghost predicate Leaves(all: set<nat>, out: seq<nat>, was: set<nat>) {
    forall rest | PopsAll(was, rest) :: PopsAll(all, out + rest)
  }

  lemma LeavesAll(all: set<nat>)
    ensures Leaves(all, [], all)
  {
    forall rest | PopsAll(all, rest) ensures PopsAll(all, [] + rest) { assert [] + rest == rest; }
  }

  lemma LeavesNone(all: set<nat>, out: seq<nat>)
    requires Leaves(all, out, {})
    ensures PopsAll(all, out)
  {
    assert PopsAll({}, []) && out + [] == out;
  }

  lemma PopMore(was: set<nat>, p: nat, out: seq<nat>, all: set<nat>)
    requires IsMin(p, was) && Leaves(all, out, was)
    ensures Leaves(all, out + [p], was - {p})
  {
    forall rest | PopsAll(was - {p}, rest) ensures PopsAll(all, (out + [p]) + rest) {
      assert ([p] + rest)[1..] == rest && PopsAll(was, [p] + rest);
      assert out + ([p] + rest) == (out + [p]) + rest;
    }
  }

  /** There is exactly one such sequence, so the pops are determined by the set alone. */
  lemma {:induction false} PopsUnique(s: set<nat>, out: seq<nat>, other: seq<nat>)
    requires PopsAll(s, out) && PopsAll(s, other)
    ensures out == other
  {
    if out != [] {
      assert other != [] && other[0] == out[0];
      PopsUnique(s - {out[0]}, out[1..], other[1..]);
      assert out == [out[0]] + out[1..] && other == [other[0]] + other[1..];
    }
  }

  class PriorityBitmap {
    const numGroups: nat
    var groupMap: Word
    const groupTable: array<Word>

    ghost predicate Valid()
      reads this, groupTable
    {
      && 0 < numGroups <= 64
      && groupTable.Length == numGroups
      && (forall g | 0 <= g < numGroups :: groupMap[g] <==> groupTable[g] != ZERO)
      && (forall g | numGroups <= g < 64 :: !groupMap[g])
    }

    ghost function Prios(): set<nat>
      reads this, groupTable
    {
      Members(groupTable[..])
    }

    function Capacity(): nat { numGroups * WORD_BITS }

    constructor (numGroups: nat)
      requires 0 < numGroups <= 64
      ensures Valid() && fresh(groupTable) && this.numGroups == numGroups && Prios() == {}
    {
      this.numGroups := numGroups;
      groupMap := ZERO;
      groupTable := new Word[numGroups](_ => ZERO);
      new;
      ZeroTable(groupTable[..]);
    }

    method Set(prio: nat)
      requires Valid() && prio < Capacity()
      modifies this`groupMap, groupTable
      ensures Valid() && Prios() == old(Prios()) + {prio}
    {
      var g, b := prio / WORD_BITS, prio % WORD_BITS;
      ghost var before := groupTable[..];
      groupTable[g] := Or(groupTable[g], OneShl(b));
      groupMap := Or(groupMap, OneShl(g));
      assert groupTable[g][b];
      assert groupTable[..] == before[g := groupTable[g]];
      WriteBit(before, prio, groupTable[g], true);
    }

    method Clear(prio: nat)
      requires Valid() && prio < Capacity()
      modifies this`groupMap, groupTable
      ensures Valid() && Prios() == old(Prios()) - {prio}
    {
      var g, b := prio / WORD_BITS, prio % WORD_BITS;
      ghost var before := groupTable[..];
      groupTable[g] := And(groupTable[g], Not(OneShl(b)));
      if groupTable[g] == ZERO {
        groupMap := And(groupMap, Not(OneShl(g)));
      } else {
        assert before[g] != ZERO by {
          var c :| 0 <= c < 64 && groupTable[g][c];
          assert before[g][c];
        }
      }
      assert groupTable[..] == before[g := groupTable[g]];
      WriteBit(before, prio, groupTable[g], false);
    }

    method Highest() returns (p: Option<nat>)
      requires Valid()
      ensures p == None <==> Prios() == {}
      ensures p.Some? ==> IsMin(p.value, Prios())
    {
      ZeroTable(groupTable[..]);
      if groupMap == ZERO { return None; }
      var g := TrailingZeros(groupMap);
      assert g < 64;
      var b := TrailingZeros(groupTable[g]);
      assert b < 64;
      FirstGroupHoldsMin(groupTable[..], g, b);
      return Some(g * WORD_BITS + b);
    }

    method IsSet(prio: nat) returns (on: bool)
      requires Valid() && prio < Capacity()
      ensures on <==> prio in Prios()
    {
      on := groupTable[prio / WORD_BITS][prio % WORD_BITS];
    }

    method IsEmpty() returns (empty: bool)
      requires Valid()
      ensures empty <==> Prios() == {}
    {
      ZeroTable(groupTable[..]);
      empty := groupMap == ZERO;
      if !empty {
        var g :| 0 <= g < 64 && groupMap[g];
      }
    }

    method PopHighest() returns (p: Option<nat>)
      requires Valid()
      modifies this`groupMap, groupTable
      ensures Valid()
      ensures p == None <==> old(Prios()) == {}
      ensures p == None ==> Prios() == {}
      ensures p.Some? ==> IsMin(p.value, old(Prios())) && Prios() == old(Prios()) - {p.value}
    {
      p := Highest();
      if p.Some? {
        Clear(p.value);
      }
    }

    /** What a caller gets who pops until there is nothing left. */
    method PopUntilEmpty() returns (out: seq<nat>)
      requires Valid()
      modifies this`groupMap, groupTable
      ensures Valid() && Prios() == {} && PopsAll(old(Prios()), out)
      ensures forall i, j | 0 <= i < j < |out| :: out[i] < out[j]
    {
      hide PopsAll, Leaves, Valid, Members;
      out := [];
      ghost var was := Prios();
      LeavesAll(was);
      var p := PopHighest();
      while p.Some?
        invariant Valid()
        invariant p.Some? ==> IsMin(p.value, was) && Prios() == was - {p.value}
        invariant p == None ==> was == {} && Prios() == {}
        invariant Leaves(old(Prios()), out, was)
        decreases |was|
      {
        PopMore(was, p.value, out, old(Prios()));
        out := out + [p.value];
        was := Prios();
        p := PopHighest();
      }
      LeavesNone(old(Prios()), out);
      PopsAscending(old(Prios()), out);
    }

    method ClearAll()
      requires Valid()
      modifies this`groupMap, groupTable
      ensures Valid() && Prios() == {}
    {
      groupMap := ZERO;
      forall g | 0 <= g < groupTable.Length { groupTable[g] := ZERO; }
      ZeroTable(groupTable[..]);
    }
  }
}
