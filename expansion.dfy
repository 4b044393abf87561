/**
 * The first phase of building the index (graph.py:69-88): the generations
 * reached backwards from the probands, and for every discovered vertex the
 * set of discovered vertices it is an ancestor-or-self of.
 */
module Expansion {
  import opened Lineage

  /** Every entry holds its own key, and only descendants-or-self of its key that are themselves entries. */
  ghost predicate Sound(pm: ParentsMap, rank: map<int, nat>, dm: map<int, set<int>>)
    requires Ranked(pm, rank)
  {
    forall x :: x in dm ==>
      x in dm[x] && forall y :: y in dm[x] ==> y in dm && IsAncestorOrSelf(pm, rank, x, y)
  }

  /** `c`'s descendant set has been handed on to both of its recorded parents. */
  ghost predicate Closed(pm: ParentsMap, dm: map<int, set<int>>, c: int) {
    c in dm &&
    (c in pm ==>
      pm[c].left in dm && pm[c].right in dm &&
      dm[c] <= dm[pm[c].left] && dm[c] <= dm[pm[c].right])
  }

  /** `c` is an ancestor-or-self of some vertex still to be expanded, so it will be expanded again. */
  ghost predicate Pending(pm: ParentsMap, rank: map<int, nat>, frontier: set<int>, c: int)
    requires Ranked(pm, rank)
  {
    exists z :: z in frontier && IsAncestorOrSelf(pm, rank, c, z)
  }

  ghost predicate ClosedOrPending(pm: ParentsMap, rank: map<int, nat>, dm: map<int, set<int>>, frontier: set<int>)
    requires Ranked(pm, rank)
  {
    forall c :: c in dm ==> Closed(pm, dm, c) || Pending(pm, rank, frontier, c)
  }

  /**
   * `dm` after `if p not in dm: dm[p] = {p}` followed by `dm[p].update(s)`:
   * a parent seen for the first time starts from itself.
   */
  function Absorb(dm: map<int, set<int>>, p: int, s: set<int>): map<int, set<int>> {
    dm[p := (if p in dm then dm[p] else {p}) + s]
  }

  /** The descendants map after one child of the level has been handed on to its parents. */
  function HandOn(pm: ParentsMap, dm: map<int, set<int>>, child: int): map<int, set<int>>
    requires child in dm
  {
    if child in pm then
      Absorb(Absorb(dm, pm[child].left, dm[child]), pm[child].right, dm[child])
    else dm
  }

  /**
   * One pass of the `for child in current_level_vertices` loop: collects the
   * parents of the level and hands each child's descendant set on to both of
   * its parents, creating `{parent}` for a parent seen for the first time.
   */
  method ExpandLevel(pm: ParentsMap, ghost rank: map<int, nat>, current: set<int>, descendants: map<int, set<int>>)
    returns (next: set<int>, dm: map<int, set<int>>)
    requires Ranked(pm, rank)
    requires current <= descendants.Keys
    requires Sound(pm, rank, descendants)
    requires ClosedOrPending(pm, rank, descendants, current)
    ensures next == NextLevel(pm, current)
    ensures dm.Keys == descendants.Keys + next
    ensures Sound(pm, rank, dm)
    ensures ClosedOrPending(pm, rank, dm, next)
  {
    next := {};
    dm := descendants;
    var todo := current;
    while exists c :: c in todo
      invariant todo <= current
      invariant ExpansionInvariant(pm, rank, current, descendants, todo, dm, next)
      decreases todo
    {
      var child :| child in todo;
      ghost var before := dm;
      if child in pm {
        var left, right := pm[child].left, pm[child].right;
        next := next + {left, right};
        NoSelfParent(pm, rank, child);
        dm := Absorb(dm, left, dm[child]);
        dm := Absorb(dm, right, dm[child]);
      }
      assert dm == HandOn(pm, before, child);
      ExpandStep(pm, rank, current, descendants, todo, before, child);
      todo := todo - {child};
    }
    assert todo == {};
    ExpandDone(pm, rank, current, descendants, dm, next);
  }

  lemma ExpandDone(pm: ParentsMap, rank: map<int, nat>, current: set<int>, descendants: map<int, set<int>>,
                   dm: map<int, set<int>>, next: set<int>)
    requires Ranked(pm, rank)
    requires ExpansionInvariant(pm, rank, current, descendants, {}, dm, next)
    ensures next == NextLevel(pm, current)
    ensures dm.Keys == descendants.Keys + next
    ensures Sound(pm, rank, dm)
    ensures ClosedOrPending(pm, rank, dm, next)
  {
    assert current - {} == current;
    forall c | c in dm ensures Closed(pm, dm, c) || Pending(pm, rank, next, c) {
      assert !Pending(pm, rank, {}, c);
    }
  }

  ghost predicate ExpansionInvariant(pm: ParentsMap, rank: map<int, nat>, current: set<int>, descendants: map<int, set<int>>,
                                     todo: set<int>, dm: map<int, set<int>>, next: set<int>)
    requires Ranked(pm, rank)
  {
    && next == NextLevel(pm, current - todo)
    && dm.Keys == descendants.Keys + next
    && current <= descendants.Keys
    && Sound(pm, rank, dm)
    && forall c :: c in dm ==> Closed(pm, dm, c) || Pending(pm, rank, todo, c) || Pending(pm, rank, next, c)
  }

  lemma ExpandStep(pm: ParentsMap, rank: map<int, nat>, current: set<int>, descendants: map<int, set<int>>,
                   todo: set<int>, dm: map<int, set<int>>, child: int)
    requires Ranked(pm, rank) && child in todo && todo <= current
    requires ExpansionInvariant(pm, rank, current, descendants, todo, dm, NextLevel(pm, current - todo))
    ensures child in dm
    ensures ExpansionInvariant(pm, rank, current, descendants, todo - {child}, HandOn(pm, dm, child),
                               NextLevel(pm, current - todo) + (if child in pm then {pm[child].left, pm[child].right} else {}))
  {
    var next := NextLevel(pm, current - todo);
    var next' := next + (if child in pm then {pm[child].left, pm[child].right} else {});
    var after := HandOn(pm, dm, child);
    NextLevelAdd(pm, current - todo, child);
    assert current - (todo - {child}) == (current - todo) + {child};
    assert next' == NextLevel(pm, current - (todo - {child}));
    if child in pm {
      NoSelfParent(pm, rank, child);
      assert after.Keys == descendants.Keys + next';
      StepSound(pm, rank, dm, after, child);
      StepClosedOrPending(pm, rank, dm, after, todo, next, next', child);
    } else {
      assert after == dm && next' == next;
      StepNoParents(pm, rank, dm, todo, next, child);
    }
    assert Sound(pm, rank, after);
  }

  lemma StepNoParents(pm: ParentsMap, rank: map<int, nat>, dm: map<int, set<int>>, todo: set<int>, next: set<int>, child: int)
    requires Ranked(pm, rank) && child !in pm
    requires forall c :: c in dm ==> Closed(pm, dm, c) || Pending(pm, rank, todo, c) || Pending(pm, rank, next, c)
    ensures forall c :: c in dm ==> Closed(pm, dm, c) || Pending(pm, rank, todo - {child}, c) || Pending(pm, rank, next, c)
  {
    forall c | c in dm
      ensures Closed(pm, dm, c) || Pending(pm, rank, todo - {child}, c) || Pending(pm, rank, next, c)
    {
      if !Closed(pm, dm, c) && !Pending(pm, rank, next, c) {
        var z :| z in todo && IsAncestorOrSelf(pm, rank, c, z);
        assert z != child;
        assert z in todo - {child};
      }
    }
  }

  /** Handing `child`'s set on to its parents keeps every entry sound. */
  lemma StepSound(pm: ParentsMap, rank: map<int, nat>, before: map<int, set<int>>, after: map<int, set<int>>, child: int)
    requires Ranked(pm, rank) && Sound(pm, rank, before)
    requires child in pm && child in before
    requires pm[child].left != child && pm[child].right != child
    requires after == HandOn(pm, before, child)
    ensures Sound(pm, rank, after)
  {
    ParentIsAncestor(pm, rank, child);
    forall x, y | x in after && y in after[x]
      ensures y in after && IsAncestorOrSelf(pm, rank, x, y)
    {
      if (x == pm[child].left || x == pm[child].right) && y in before[child] {
        AncestorTransitive(pm, rank, x, child, y);
      }
    }
  }

  lemma StepClosedOrPending(pm: ParentsMap, rank: map<int, nat>, before: map<int, set<int>>, after: map<int, set<int>>,
                            todo: set<int>, nextBefore: set<int>, nextAfter: set<int>, child: int)
    requires Ranked(pm, rank)
    requires child in pm && child in todo && child in before
    requires pm[child].left != child && pm[child].right != child
    requires nextAfter == nextBefore + {pm[child].left, pm[child].right}
    requires after == HandOn(pm, before, child)
    requires forall c :: c in before ==>
      Closed(pm, before, c) || Pending(pm, rank, todo, c) || Pending(pm, rank, nextBefore, c)
    ensures forall c :: c in after ==>
      Closed(pm, after, c) || Pending(pm, rank, todo - {child}, c) || Pending(pm, rank, nextAfter, c)
  {
    var left, right := pm[child].left, pm[child].right;
    forall c | c in after
      ensures Closed(pm, after, c) || Pending(pm, rank, todo - {child}, c) || Pending(pm, rank, nextAfter, c)
    {
      if c == left || c == right {
        assert IsAncestorOrSelf(pm, rank, c, c);
      } else if Closed(pm, before, c) {
        assert after[c] == before[c];
      } else if Pending(pm, rank, nextBefore, c) {
        var z :| z in nextBefore && IsAncestorOrSelf(pm, rank, c, z);
        assert z in nextAfter;
      } else {
        var z :| z in todo && IsAncestorOrSelf(pm, rank, c, z);
        if z != child {
          assert z in todo - {child};
        } else if c == child {
          assert Closed(pm, after, c);
        } else {
          assert left in nextAfter && right in nextAfter;
        }
      }
    }
  }

  /** The levels the builder records for `probands`. */
  ghost function LevelsOf(pm: ParentsMap, rank: map<int, nat>, probands: seq<int>): seq<set<int>>
    requires Ranked(pm, rank)
  {
    LevelsFrom(pm, rank, ElementsOf(probands), RankBound(rank, probands))
  }

  /** There are no levels exactly when there are no probands; otherwise the first level is the probands. */
  lemma LevelsOfStart(pm: ParentsMap, rank: map<int, nat>, probands: seq<int>)
    requires Ranked(pm, rank)
    ensures var levels := LevelsOf(pm, rank, probands);
      && (levels == [] <==> probands == [])
      && (levels != [] ==> levels[0] == ElementsOf(probands))
  {
    LevelsOfSequence(pm, rank, probands);
    if probands != [] {
      assert probands[0] in ElementsOf(probands);
    }
  }

  /** The recorded levels form a level sequence starting at the probands. */
  lemma LevelsOfSequence(pm: ParentsMap, rank: map<int, nat>, probands: seq<int>)
    requires Ranked(pm, rank)
    ensures IsLevelSequence(pm, ElementsOf(probands), LevelsOf(pm, rank, probands))
  {
    LevelsFromIsLevelSequence(pm, rank, ElementsOf(probands), RankBound(rank, probands));
    if probands != [] {
      assert probands[0] in ElementsOf(probands);
    }
  }

  /**
   * The level loop of graph.py:69-88: starting from `set(probands)`, records
   * each nonempty level and expands it, and accumulates for every discovered
   * vertex the set of discovered vertices it is an ancestor-or-self of.
   */
  method ExpandLevels(pm: ParentsMap, ghost rank: map<int, nat>, probands: seq<int>)
    returns (levels: seq<set<int>>, descendants: map<int, set<int>>)
    requires Ranked(pm, rank)
    ensures levels == LevelsOf(pm, rank, probands)
    ensures levels == [] <==> probands == []
    ensures levels != [] ==> levels[0] == ElementsOf(probands)
    ensures descendants.Keys == Discovered(levels)
    ensures forall x :: x in descendants ==> descendants[x] == Desc(pm, rank, descendants.Keys, x)
  {
    levels := [];
    var current := ElementsOf(probands);
    descendants := SeedProbands(probands);
    ghost var bound := RankBound(rank, probands);
    LevelLoopStart(pm, rank, probands, descendants);
    while current != {}
      invariant LevelLoopInvariant(pm, rank, probands, levels, current, bound, descendants)
      decreases if current == {} then 0 else bound + 1
    {
      ghost var levels0, current0, bound0, descendants0 := levels, current, bound, descendants;
      NextLevelBelow(pm, rank, current, bound);
      levels := levels + [current];
      var next;
      next, descendants := ExpandLevel(pm, rank, current, descendants);
      current := next;
      bound := if bound == 0 then 0 else bound - 1;
      LevelStep(pm, rank, probands, levels0, current0, bound0, descendants0, descendants);
    }
    DescendantsExact(pm, rank, probands, levels, bound, descendants);
    LevelsOfStart(pm, rank, probands);
  }

  /** The seeding loop of graph.py:72-74: every proband starts as its own only descendant. */
  method SeedProbands(probands: seq<int>) returns (dm: map<int, set<int>>)
    ensures dm.Keys == ElementsOf(probands)
    ensures forall x :: x in dm ==> dm[x] == {x}
  {
    dm := map[];
    for i := 0 to |probands|
      invariant dm.Keys == ElementsOf(probands[..i])
      invariant forall x :: x in dm ==> dm[x] == {x}
    {
      dm := dm[probands[i] := {probands[i]}];
    }
    assert probands[..|probands|] == probands;
  }

  ghost predicate LevelLoopInvariant(pm: ParentsMap, rank: map<int, nat>, probands: seq<int>, levels: seq<set<int>>,
                                     current: set<int>, bound: nat, dm: map<int, set<int>>)
    requires Ranked(pm, rank)
  {
    && BelowBound(pm, rank, current, bound)
    && levels + LevelsFrom(pm, rank, current, bound) == LevelsFrom(pm, rank, ElementsOf(probands), RankBound(rank, probands))
    && current <= dm.Keys
    && dm.Keys == Discovered(levels) + current
    && Sound(pm, rank, dm)
    && ClosedOrPending(pm, rank, dm, current)
  }

  lemma LevelStep(pm: ParentsMap, rank: map<int, nat>, probands: seq<int>, levels: seq<set<int>>,
                  current: set<int>, bound: nat, dm: map<int, set<int>>, dm': map<int, set<int>>)
    requires Ranked(pm, rank) && current != {}
    requires LevelLoopInvariant(pm, rank, probands, levels, current, bound, dm)
    requires dm'.Keys == dm.Keys + NextLevel(pm, current)
    requires Sound(pm, rank, dm') && ClosedOrPending(pm, rank, dm', NextLevel(pm, current))
    ensures LevelLoopInvariant(pm, rank, probands, levels + [current], NextLevel(pm, current),
                               if bound == 0 then 0 else bound - 1, dm')
  {
    NextLevelBelow(pm, rank, current, bound);
    var bound' := if bound == 0 then 0 else bound - 1;
    var rest := LevelsFrom(pm, rank, NextLevel(pm, current), bound');
    assert LevelsFrom(pm, rank, current, bound) == [current] + rest;
    assert levels + ([current] + rest) == (levels + [current]) + rest;
    DiscoveredAppend(levels, current);
  }

  /** At the start every entry is a proband `{p}`, pending because it is in the first level. */
  lemma LevelLoopStart(pm: ParentsMap, rank: map<int, nat>, probands: seq<int>, dm: map<int, set<int>>)
    requires Ranked(pm, rank)
    requires dm.Keys == ElementsOf(probands)
    requires forall x :: x in dm ==> dm[x] == {x}
    ensures LevelLoopInvariant(pm, rank, probands, [], ElementsOf(probands), RankBound(rank, probands), dm)
  {
    var current, bound := ElementsOf(probands), RankBound(rank, probands);
    ProbandsBelowBound(pm, rank, probands);
    SeedSound(pm, rank, dm);
    SeedPending(pm, rank, dm);
    assert [] + LevelsFrom(pm, rank, current, bound) == LevelsFrom(pm, rank, current, bound);
    assert Discovered([]) == {};
  }

  lemma ProbandsBelowBound(pm: ParentsMap, rank: map<int, nat>, probands: seq<int>)
    ensures BelowBound(pm, rank, ElementsOf(probands), RankBound(rank, probands))
  {
    forall x | x in ElementsOf(probands) ensures RankOf(rank, x) < RankBound(rank, probands) {
      var i :| 0 <= i < |probands| && probands[i] == x;
    }
  }

  lemma SeedSound(pm: ParentsMap, rank: map<int, nat>, dm: map<int, set<int>>)
    requires Ranked(pm, rank)
    requires forall x :: x in dm ==> dm[x] == {x}
    ensures Sound(pm, rank, dm)
  {
    forall x | x in dm ensures x in dm[x] && forall y :: y in dm[x] ==> y in dm && IsAncestorOrSelf(pm, rank, x, y) {
      assert dm[x] == {x};
    }
  }

  lemma SeedPending(pm: ParentsMap, rank: map<int, nat>, dm: map<int, set<int>>)
    requires Ranked(pm, rank)
    ensures ClosedOrPending(pm, rank, dm, dm.Keys)
  {
    forall x | x in dm ensures Pending(pm, rank, dm.Keys, x) {
      assert IsAncestorOrSelf(pm, rank, x, x);
    }
  }

  /** Once every entry is closed, an ancestor's set contains the set of each of its descendants. */
  lemma {:induction false} ClosedChain(pm: ParentsMap, rank: map<int, nat>, dm: map<int, set<int>>, x: int, y: int)
    requires Ranked(pm, rank)
    requires forall c :: c in dm ==> Closed(pm, dm, c)
    requires y in dm && IsAncestorOrSelf(pm, rank, x, y)
    ensures x in dm && dm[y] <= dm[x]
    decreases RankOf(rank, y)
  {
    if x != y {
      assert Closed(pm, dm, y);
      if IsAncestorOrSelf(pm, rank, x, pm[y].left) {
        ClosedChain(pm, rank, dm, x, pm[y].left);
      } else {
        ClosedChain(pm, rank, dm, x, pm[y].right);
      }
    }
  }

  /** A sound map whose entries are all closed holds exactly the descendants-or-self of each key. */
  lemma DescendantsExact(pm: ParentsMap, rank: map<int, nat>, probands: seq<int>, levels: seq<set<int>>,
                          bound: nat, dm: map<int, set<int>>)
    requires Ranked(pm, rank)
    requires LevelLoopInvariant(pm, rank, probands, levels, {}, bound, dm)
    ensures levels == LevelsFrom(pm, rank, ElementsOf(probands), RankBound(rank, probands))
    ensures dm.Keys == Discovered(levels)
    ensures forall x :: x in dm ==> dm[x] == Desc(pm, rank, dm.Keys, x)
  {
    assert levels + [] == levels;
    forall c | c in dm ensures Closed(pm, dm, c) {
      assert !Pending(pm, rank, {}, c);
    }
    forall x | x in dm ensures dm[x] == Desc(pm, rank, dm.Keys, x) {
      forall y | y in Desc(pm, rank, dm.Keys, x) ensures y in dm[x] {
        ClosedChain(pm, rank, dm, x, y);
        assert y in dm[y];
      }
      forall y | y in dm[x] ensures y in Desc(pm, rank, dm.Keys, x) {
        assert y in dm && IsAncestorOrSelf(pm, rank, x, y);
      }
    }
  }
}
