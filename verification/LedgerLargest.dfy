/** The hundred largest of the tombstones that are kept and to come: what they take together, and how that changes
    when one of the candidates leaves or is replaced. */
module LedgerLargest {
  import opened LedgerState
  import opened LedgerSize

  function Weight(t: Retirement): nat {
    RetirementBytes(t) + 1
  }

  /** What the hundred largest take, each with its comma. */
  function Largest(candidates: seq<Retirement>): nat {
    RetirementsBytes(First(BySize(candidates), MAX_RETIREMENTS))
  }

  function OneAbove(t: Retirement, level: nat): nat {
    if Weight(t) > level then Weight(t) - level else 0
  }

  /** What the candidates take above a level. */
  function Above(candidates: seq<Retirement>, level: nat): nat {
    if candidates == [] then 0 else OneAbove(candidates[0], level) + Above(candidates[1..], level)
  }

  /** How many of them reach a level. */
  function Reaching(candidates: seq<Retirement>, level: nat): nat {
    if candidates == [] then 0 else (if Weight(candidates[0]) >= level then 1 else 0) + Reaching(candidates[1..], level)
  }

  function Times(n: nat, level: nat): nat {
    if n == 0 then 0 else level + Times(n - 1, level)
  }

  // ----- sorting

  predicate Descending(sorted: seq<Retirement>) {
    forall i, j :: 0 <= i < j < |sorted| ==> Weight(sorted[i]) >= Weight(sorted[j])
  }

  lemma {:induction false} InsertDescends(t: Retirement, sorted: seq<Retirement>)
    requires Descending(sorted)
    ensures |Insert(t, sorted)| == |sorted| + 1 && Descending(Insert(t, sorted))
    ensures forall i :: 0 <= i < |sorted| + 1 ==> Insert(t, sorted)[i] == t || Insert(t, sorted)[i] in sorted
  {
    hide RetirementBytes;
    if sorted != [] && LargerFirst(sorted[0], t) {
      InsertDescends(t, sorted[1..]);
      var rest := Insert(t, sorted[1..]);
      forall i | 0 <= i < |rest| ensures Weight(sorted[0]) >= Weight(rest[i]) {
        assert rest[i] == t || rest[i] in sorted[1..];
      }
    }
  }

  lemma {:induction false} InsertAbove(t: Retirement, sorted: seq<Retirement>, level: nat)
    ensures Above(Insert(t, sorted), level) == OneAbove(t, level) + Above(sorted, level)
    ensures Reaching(Insert(t, sorted), level) == (if Weight(t) >= level then 1 else 0) + Reaching(sorted, level)
  {
    hide Weight, OneAbove, LargerFirst;
    if sorted != [] && LargerFirst(sorted[0], t) {
      InsertAbove(t, sorted[1..], level);
      assert Insert(t, sorted)[1..] == Insert(t, sorted[1..]);
    } else {
      assert Insert(t, sorted)[1..] == sorted;
    }
  }

  lemma {:induction false} SortDescends(candidates: seq<Retirement>)
    ensures |BySize(candidates)| == |candidates| && Descending(BySize(candidates))
  {
    hide Weight, Insert;
    if candidates != [] {
      SortDescends(candidates[1..]);
      InsertDescends(candidates[0], BySize(candidates[1..]));
    }
  }

  lemma {:induction false} SortAbove(candidates: seq<Retirement>, level: nat)
    ensures Above(BySize(candidates), level) == Above(candidates, level)
    ensures Reaching(BySize(candidates), level) == Reaching(candidates, level)
  {
    hide Weight, OneAbove, Insert;
    if candidates != [] {
      SortAbove(candidates[1..], level);
      InsertAbove(candidates[0], BySize(candidates[1..]), level);
    }
  }

  lemma {:induction false} AboveSum(a: seq<Retirement>, b: seq<Retirement>, level: nat)
    ensures Above(a + b, level) == Above(a, level) + Above(b, level)
    ensures Reaching(a + b, level) == Reaching(a, level) + Reaching(b, level)
  {
    hide Weight, OneAbove;
    if a == [] {
      assert a + b == b;
    } else {
      assert (a + b)[1..] == a[1..] + b;
      AboveSum(a[1..], b, level);
    }
  }

  // ----- the hundred largest are the least that any level allows

  lemma {:induction false} FirstBelow(sorted: seq<Retirement>, n: nat, level: nat)
    ensures RetirementsBytes(First(sorted, n)) <= Times(n, level) + Above(sorted, level)
    decreases n
  {
    hide RetirementBytes;
    if sorted == [] || n == 0 {
      assert First(sorted, n) == [];
    } else {
      FirstBelow(sorted[1..], n - 1, level);
      assert First(sorted, n)[1..] == First(sorted[1..], n - 1);
    }
  }

  lemma LargestBelow(candidates: seq<Retirement>, level: nat)
    ensures Largest(candidates) <= Times(MAX_RETIREMENTS, level) + Above(candidates, level)
  {
    hide BySize, First, Above, Times, RetirementsBytes;
    FirstBelow(BySize(candidates), MAX_RETIREMENTS, level);
    SortAbove(candidates, level);
  }

  lemma {:induction false} NoneAbove(rest: seq<Retirement>, level: nat)
    requires forall i :: 0 <= i < |rest| ==> Weight(rest[i]) <= level
    ensures Above(rest, level) == 0
  {
    hide Weight;
    if rest != [] {
      NoneAbove(rest[1..], level);
    }
  }

  lemma {:induction false} FirstReach(sorted: seq<Retirement>, n: nat, level: nat)
    requires n <= |sorted|
    requires forall i :: 0 <= i < n ==> Weight(sorted[i]) >= level
    requires forall i :: n <= i < |sorted| ==> Weight(sorted[i]) <= level
    ensures RetirementsBytes(sorted[..n]) == Times(n, level) + Above(sorted, level)
    decreases n
  {
    hide RetirementBytes;
    if n == 0 {
      NoneAbove(sorted, level);
    } else {
      FirstReach(sorted[1..], n - 1, level);
      assert sorted[..n][1..] == sorted[1..][..n - 1];
    }
  }

  /** The level of the candidate at a place in the order by size. */
  function LevelAt(candidates: seq<Retirement>, place: nat): nat {
    if place < |BySize(candidates)| then Weight(BySize(candidates)[place]) else 0
  }

  /** At the level of the smallest that counts, and at that of the largest that does not, the bound is exact. */
  lemma LargestIs(candidates: seq<Retirement>, place: nat)
    requires place == MAX_RETIREMENTS - 1 || place == MAX_RETIREMENTS
    requires place < |candidates|
    ensures var level := LevelAt(candidates, place);
            Largest(candidates) == Times(MAX_RETIREMENTS, level) + Above(candidates, level)
  {
    hide BySize, Above, Times, RetirementsBytes, Weight;
    SortDescends(candidates);
    var sorted := BySize(candidates);
    var level := Weight(sorted[place]);
    FirstReach(sorted, MAX_RETIREMENTS, level);
    SortAbove(candidates, level);
    assert First(sorted, MAX_RETIREMENTS) == sorted[..MAX_RETIREMENTS];
  }

  // ----- fewer candidates, none of them larger

  /** Not more above any level. */
  ghost predicate NoLarger(fewer: seq<Retirement>, more: seq<Retirement>) {
    forall level: nat :: Above(fewer, level) <= Above(more, level)
  }

  lemma LargestShrinks(fewer: seq<Retirement>, more: seq<Retirement>)
    requires NoLarger(fewer, more)
    ensures Largest(fewer) <= Largest(more)
  {
    hide Above, Times, Largest, LevelAt;
    if |more| >= MAX_RETIREMENTS {
      LargestIs(more, MAX_RETIREMENTS - 1);
      LargestBelow(fewer, LevelAt(more, MAX_RETIREMENTS - 1));
    } else {
      LargestIsAll(more);
      LargestBelow(fewer, 0);
      NoTimes(MAX_RETIREMENTS);
    }
  }

  lemma {:induction false} NoTimes(n: nat)
    ensures Times(n, 0) == 0
  {
    if n > 0 {
      NoTimes(n - 1);
    }
  }

  lemma {:induction false} AboveNothing(candidates: seq<Retirement>)
    ensures RetirementsBytes(candidates) == Above(candidates, 0)
  {
    hide RetirementBytes;
    if candidates != [] {
      AboveNothing(candidates[1..]);
    }
  }

  lemma LargestIsAll(candidates: seq<Retirement>)
    requires |candidates| <= MAX_RETIREMENTS
    ensures Largest(candidates) == RetirementsBytes(candidates) == Above(candidates, 0)
  {
    hide Above, RetirementsBytes, BySize;
    SortDescends(candidates);
    SortAbove(candidates, 0);
    AboveNothing(candidates);
    AboveNothing(BySize(candidates));
  }

  // ----- a candidate that leaves makes room for the largest one that was left out

  lemma {:induction false} PlaceReached(sorted: seq<Retirement>, n: nat, level: nat)
    requires Descending(sorted) && n < |sorted|
    ensures Weight(sorted[n]) >= level <==> Reaching(sorted, level) > n
    decreases n
  {
    hide Weight;
    if n == 0 {
      if Weight(sorted[0]) < level {
        NoneReach(sorted, level);
      }
    } else {
      PlaceReached(sorted[1..], n - 1, level);
      assert sorted[1..][n - 1] == sorted[n];
      if Weight(sorted[0]) < level {
        NoneReach(sorted, level);
      }
    }
  }

  lemma {:induction false} NoneReach(sorted: seq<Retirement>, level: nat)
    requires Descending(sorted) && (sorted == [] || Weight(sorted[0]) < level)
    ensures Reaching(sorted, level) == 0
  {
    hide Weight;
    if sorted != [] {
      NoneReach(sorted[1..], level);
    }
  }

  lemma LargestWithout(front: seq<Retirement>, t: Retirement, back: seq<Retirement>)
    requires |front| + |back| >= MAX_RETIREMENTS
    ensures var all := front + [t] + back;
            Largest(front + back) == Largest(all) - OneAbove(t, LevelAt(all, MAX_RETIREMENTS))
  {
    hide Above, Reaching, Times, BySize, Weight, Largest;
    var all, rest := front + [t] + back, front + back;
    var level, other := LevelAt(all, MAX_RETIREMENTS), LevelAt(rest, MAX_RETIREMENTS - 1);
    LargestIs(all, MAX_RETIREMENTS);
    LargestIs(rest, MAX_RETIREMENTS - 1);
    LargestBelow(rest, level);
    LargestBelow(all, other);
    OneLess(front, t, back, level);
    OneLess(front, t, back, other);
    SortDescends(all);
    SortDescends(rest);
    SortAbove(all, level);
    SortAbove(rest, level);
    PlaceReached(BySize(all), MAX_RETIREMENTS, level);
    PlaceReached(BySize(rest), MAX_RETIREMENTS - 1, level);
    assert level <= other;
  }

  lemma OneLess(front: seq<Retirement>, t: Retirement, back: seq<Retirement>, level: nat)
    ensures Above(front + [t] + back, level) == Above(front + back, level) + OneAbove(t, level)
    ensures Reaching(front + [t] + back, level) <= Reaching(front + back, level) + 1
  {
    hide Weight, OneAbove;
    AboveSum(front + [t], back, level);
    AboveSum(front, [t], level);
    AboveSum(front, back, level);
    assert Above([t], level) == OneAbove(t, level) + Above([], level);
    assert Reaching([t], level) == (if Weight(t) >= level then 1 else 0) + Reaching([], level);
  }
}
