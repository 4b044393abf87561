/**
 * The genealogical relation behind the index: recorded parents, the
 * ancestor-or-self relation they induce, the generations ("levels") reached
 * backwards from a set of probands, and the descendant and common-ancestor
 * sets the index is meant to hold.
 */
module Lineage {

  /** The two recorded parents of a child, in the order of its record. */
  datatype Parents = Parents(left: int, right: int)

  /** child label -> its recorded parents (the pedigree's `parents_map`). */
  type ParentsMap = map<int, Parents>

  /**
   * `rank` witnesses that the pedigree is acyclic: every recorded parent
   * has a strictly smaller rank than its child.
   */
  ghost predicate Ranked(pm: ParentsMap, rank: map<int, nat>) {
    forall c :: c in pm ==>
      c in rank && pm[c].left in rank && pm[c].right in rank &&
      rank[pm[c].left] < rank[c] && rank[pm[c].right] < rank[c]
  }

  function RankOf(rank: map<int, nat>, x: int): nat {
    if x in rank then rank[x] else 0
  }

  /**
   * `a` is `y` itself or is reached from `y` by following recorded parents.
   * The rank only bounds the recursion; it does not change the relation.
   */
  ghost predicate IsAncestorOrSelf(pm: ParentsMap, rank: map<int, nat>, a: int, y: int)
    requires Ranked(pm, rank)
    decreases RankOf(rank, y)
  {
    a == y ||
    (y in pm &&
     (IsAncestorOrSelf(pm, rank, a, pm[y].left) || IsAncestorOrSelf(pm, rank, a, pm[y].right)))
  }

  lemma ParentIsAncestor(pm: ParentsMap, rank: map<int, nat>, c: int)
    requires Ranked(pm, rank) && c in pm
    ensures IsAncestorOrSelf(pm, rank, pm[c].left, c)
    ensures IsAncestorOrSelf(pm, rank, pm[c].right, c)
  {
    assert IsAncestorOrSelf(pm, rank, pm[c].left, pm[c].left);
    assert IsAncestorOrSelf(pm, rank, pm[c].right, pm[c].right);
  }

  lemma NoSelfParent(pm: ParentsMap, rank: map<int, nat>, c: int)
    requires Ranked(pm, rank) && c in pm
    ensures pm[c].left != c && pm[c].right != c
  {
  }

  lemma {:induction false} AncestorTransitive(pm: ParentsMap, rank: map<int, nat>, a: int, b: int, c: int)
    requires Ranked(pm, rank)
    requires IsAncestorOrSelf(pm, rank, a, b) && IsAncestorOrSelf(pm, rank, b, c)
    ensures IsAncestorOrSelf(pm, rank, a, c)
    decreases RankOf(rank, c)
  {
    if b != c {
      if IsAncestorOrSelf(pm, rank, b, pm[c].left) {
        AncestorTransitive(pm, rank, a, b, pm[c].left);
      } else {
        AncestorTransitive(pm, rank, a, b, pm[c].right);
      }
    }
  }

  /** A recorded ancestor is strictly higher in rank, so no vertex is its own proper ancestor. */
  lemma {:induction false} AncestorRankBelow(pm: ParentsMap, rank: map<int, nat>, a: int, y: int)
    requires Ranked(pm, rank)
    requires IsAncestorOrSelf(pm, rank, a, y) && a != y
    ensures y in pm && a in rank && rank[a] < rank[y]
    decreases RankOf(rank, y)
  {
    var l, r := pm[y].left, pm[y].right;
    if IsAncestorOrSelf(pm, rank, a, l) {
      if a != l { AncestorRankBelow(pm, rank, a, l); }
    } else {
      if a != r { AncestorRankBelow(pm, rank, a, r); }
    }
  }

  /** Every label recorded as a parent of some member of `level`. */
  function NextLevel(pm: ParentsMap, level: set<int>): (next: set<int>)
    ensures forall c :: c in level && c in pm ==> pm[c].left in next && pm[c].right in next
    ensures forall x :: x in next ==>
      exists c :: c in level && c in pm && (pm[c].left == x || pm[c].right == x)
  {
    (set c | c in level && c in pm :: pm[c].left) + (set c | c in level && c in pm :: pm[c].right)
  }

  lemma NextLevelAdd(pm: ParentsMap, level: set<int>, c: int)
    ensures NextLevel(pm, level + {c}) ==
      NextLevel(pm, level) + (if c in pm then {pm[c].left, pm[c].right} else {})
  {
  }

  /** No member of `level` that has recorded parents reaches rank `bound`. */
  ghost predicate BelowBound(pm: ParentsMap, rank: map<int, nat>, level: set<int>, bound: nat) {
    forall x :: x in level && x in pm ==> RankOf(rank, x) < bound
  }

  lemma NextLevelBelow(pm: ParentsMap, rank: map<int, nat>, level: set<int>, bound: nat)
    requires Ranked(pm, rank) && BelowBound(pm, rank, level, bound)
    ensures BelowBound(pm, rank, NextLevel(pm, level), if bound == 0 then 0 else bound - 1)
    ensures bound == 0 ==> NextLevel(pm, level) == {}
  {
    if bound == 0 {
      assert forall c :: c in level ==> c !in pm;
    }
  }

  /**
   * The generations reached backwards from `current`: `current` itself, the
   * parents of its members, their parents, and so on until a generation
   * records no parents.
   */
  ghost function LevelsFrom(pm: ParentsMap, rank: map<int, nat>, current: set<int>, bound: nat): seq<set<int>>
    requires Ranked(pm, rank) && BelowBound(pm, rank, current, bound)
    decreases if current == {} then 0 else bound + 1
  {
    if current == {} then []
    else
      NextLevelBelow(pm, rank, current, bound);
      [current] + LevelsFrom(pm, rank, NextLevel(pm, current), if bound == 0 then 0 else bound - 1)
  }

  /** What the level loop promises: a nonempty first level, each next level the parents of the one before, a final level with no recorded parents. */
  ghost predicate IsLevelSequence(pm: ParentsMap, start: set<int>, levels: seq<set<int>>) {
    (start == {} <==> levels == []) &&
    (levels != [] ==>
      levels[0] == start &&
      (forall k :: 0 <= k < |levels| - 1 ==> levels[k + 1] == NextLevel(pm, levels[k])) &&
      NextLevel(pm, levels[|levels| - 1]) == {}) &&
    (forall k :: 0 <= k < |levels| ==> levels[k] != {})
  }

  lemma {:induction false} LevelsFromIsLevelSequence(pm: ParentsMap, rank: map<int, nat>, current: set<int>, bound: nat)
    requires Ranked(pm, rank) && BelowBound(pm, rank, current, bound)
    ensures IsLevelSequence(pm, current, LevelsFrom(pm, rank, current, bound))
    decreases if current == {} then 0 else bound + 1
  {
    if current != {} {
      NextLevelBelow(pm, rank, current, bound);
      var next := NextLevel(pm, current);
      var bound' := if bound == 0 then 0 else bound - 1;
      LevelsFromIsLevelSequence(pm, rank, next, bound');
      var rest := LevelsFrom(pm, rank, next, bound');
      var levels := [current] + rest;
      assert levels == LevelsFrom(pm, rank, current, bound);
      forall k | 0 <= k < |levels| - 1
        ensures levels[k + 1] == NextLevel(pm, levels[k])
      {
        if k > 0 { assert levels[k + 1] == rest[k] && levels[k] == rest[k - 1]; }
      }
    }
  }

  /** The labels of `s` as a set (Python's `set(probands)`). */
  function ElementsOf(s: seq<int>): (r: set<int>)
    ensures forall x :: x in r <==> x in s
  {
    set x | x in s
  }

  /** A bound on the ranks of the labels of `s`, to start `LevelsFrom`. */
  function RankBound(rank: map<int, nat>, s: seq<int>): (b: nat)
    ensures forall i :: 0 <= i < |s| ==> RankOf(rank, s[i]) < b
  {
    if s == [] then 0
    else
      var rest := RankBound(rank, s[1..]);
      assert forall i :: 1 <= i < |s| ==> s[i] == s[1..][i - 1];
      if RankOf(rank, s[0]) < rest then rest else RankOf(rank, s[0]) + 1
  }

  /** Every label that occurs in some level. */
  ghost function Discovered(levels: seq<set<int>>): set<int> {
    set k, x | 0 <= k < |levels| && x in levels[k] :: x
  }

  lemma DiscoveredAppend(levels: seq<set<int>>, level: set<int>)
    ensures Discovered(levels + [level]) == Discovered(levels) + level
  {
    var ls := levels + [level];
    forall x | x in Discovered(ls) ensures x in Discovered(levels) + level {
      var k :| 0 <= k < |ls| && x in ls[k];
      if k < |levels| { assert x in levels[k]; }
    }
    forall x | x in Discovered(levels) + level ensures x in Discovered(ls) {
      if x in level {
        assert x in ls[|levels|];
      } else {
        var k :| 0 <= k < |levels| && x in levels[k];
        assert x in ls[k];
      }
    }
  }

  /** Every recorded parent of a member of `vs` is in `vs`. */
  ghost predicate ParentClosed(pm: ParentsMap, vs: set<int>) {
    forall x :: x in vs && x in pm ==> pm[x].left in vs && pm[x].right in vs
  }

  /** No level of a level sequence is empty. */
  lemma LevelNonEmpty(pm: ParentsMap, start: set<int>, levels: seq<set<int>>, k: int)
    requires IsLevelSequence(pm, start, levels) && 0 <= k < |levels|
    ensures levels[k] != {}
  {
  }

  /** The level loop stops exactly at the first level none of whose vertices has a record. */
  lemma LastLevelIff(pm: ParentsMap, start: set<int>, levels: seq<set<int>>, k: int)
    requires IsLevelSequence(pm, start, levels) && 0 <= k < |levels|
    ensures NextLevel(pm, levels[k]) == {} <==> k == |levels| - 1
  {
    if k < |levels| - 1 {
      assert levels[k + 1] == NextLevel(pm, levels[k]) && levels[k + 1] != {};
    }
  }

  lemma LevelSequenceParentClosed(pm: ParentsMap, start: set<int>, levels: seq<set<int>>)
    requires IsLevelSequence(pm, start, levels)
    ensures ParentClosed(pm, Discovered(levels))
  {
    var vs := Discovered(levels);
    forall x | x in vs && x in pm ensures pm[x].left in vs && pm[x].right in vs {
      var k :| 0 <= k < |levels| && x in levels[k];
      assert pm[x].left in NextLevel(pm, levels[k]);
      assert k < |levels| - 1;
      assert pm[x].left in levels[k + 1] && pm[x].right in levels[k + 1];
    }
  }

  /** Every ancestor of a member of a parent-closed set is a member. */
  lemma {:induction false} AncestorsStayInside(pm: ParentsMap, rank: map<int, nat>, vs: set<int>, a: int, y: int)
    requires Ranked(pm, rank) && ParentClosed(pm, vs)
    requires y in vs && IsAncestorOrSelf(pm, rank, a, y)
    ensures a in vs
    decreases RankOf(rank, y)
  {
    if a != y {
      if IsAncestorOrSelf(pm, rank, a, pm[y].left) {
        AncestorsStayInside(pm, rank, vs, a, pm[y].left);
      } else {
        AncestorsStayInside(pm, rank, vs, a, pm[y].right);
      }
    }
  }

  /** The members of `vs` that `x` is an ancestor-or-self of. */
  ghost function Desc(pm: ParentsMap, rank: map<int, nat>, vs: set<int>, x: int): set<int>
    requires Ranked(pm, rank)
  {
    set y | y in vs && IsAncestorOrSelf(pm, rank, x, y)
  }

  /** The members of `vs` that are an ancestor-or-self of both `a` and `b`. */
  ghost function CommonAncestors(pm: ParentsMap, rank: map<int, nat>, vs: set<int>, a: int, b: int): set<int>
    requires Ranked(pm, rank)
  {
    set z | z in vs && IsAncestorOrSelf(pm, rank, z, a) && IsAncestorOrSelf(pm, rank, z, b)
  }
}
