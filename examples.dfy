/**
 * Two worked pedigrees. In the first, the full siblings 5 and 6 of the
 * founders 3 and 4 have the child 7. The second adds records for 3 and 4
 * whose parents are both written -1. Both are queried from the proband 7.
 * The lemmas pin down the expansion and the common ancestors of each
 * pedigree; the methods perform the ingestion, the build and the queries on them.
 */
module PedigreeExample {
  import opened Wrappers
  import opened Lineage
  import opened Expansion
  import opened AncestryTable
  import opened Pedigrees
  import opened GraphIndex
  import opened PedigreeGraph

  /** The records (5, 3, 4), (6, 3, 4) and (7, 5, 6) and no others. */
  ghost predicate SiblingsRecords(pm: ParentsMap) {
    && (forall c :: c in pm <==> c == 5 || c == 6 || c == 7)
    && pm[5] == Parents(3, 4) && pm[6] == Parents(3, 4) && pm[7] == Parents(5, 6)
  }

  /** The records of `SiblingsRecords` preceded by (3, -1, -1) and (4, -1, -1). */
  ghost predicate SentinelRecords(pm: ParentsMap) {
    && (forall c :: c in pm <==> 3 <= c <= 7)
    && pm[3] == Parents(-1, -1) && pm[4] == Parents(-1, -1)
    && pm[5] == Parents(3, 4) && pm[6] == Parents(3, 4) && pm[7] == Parents(5, 6)
  }

  lemma NoNextLevel(pm: ParentsMap, level: set<int>)
    requires forall c :: c in level ==> c !in pm
    ensures NextLevel(pm, level) == {}
  {
    if x :| x in NextLevel(pm, level) {
      assert false;
    }
  }

  lemma NextLevelOfOne(pm: ParentsMap, c: int)
    ensures NextLevel(pm, {c}) == if c in pm then {pm[c].left, pm[c].right} else {}
  {
    if c in pm {
      assert pm[c].left in NextLevel(pm, {c});
    }
  }

  lemma NextLevelOfTwo(pm: ParentsMap, c: int, d: int)
    ensures NextLevel(pm, {c, d}) == NextLevel(pm, {c}) + NextLevel(pm, {d})
  {
    forall x | x in NextLevel(pm, {c, d}) ensures x in NextLevel(pm, {c}) + NextLevel(pm, {d}) {
      var e :| e in {c, d} && e in pm && (pm[e].left == x || pm[e].right == x);
      assert x in NextLevel(pm, {e});
    }
  }

  /** Two children recorded with the same parents have exactly those parents as their next level. */
  lemma ParentsOfPair(pm: ParentsMap, c: int, d: int, left: int, right: int)
    requires c in pm && d in pm && pm[c] == Parents(left, right) && pm[d] == Parents(left, right)
    ensures NextLevel(pm, {c, d}) == {left, right}
  {
    NextLevelOfOne(pm, c);
    NextLevelOfOne(pm, d);
    NextLevelOfTwo(pm, c, d);
  }

  /** The child 7 of 5 and 6, who are both children of 3 and 4, has those two generations above it. */
  lemma FamilyNextLevels(pm: ParentsMap)
    requires 7 in pm && pm[7] == Parents(5, 6)
    requires 5 in pm && 6 in pm && pm[5] == Parents(3, 4) && pm[6] == Parents(3, 4)
    ensures NextLevel(pm, {7}) == {5, 6} && NextLevel(pm, {5, 6}) == {3, 4}
  {
    NextLevelOfOne(pm, 7);
    ParentsOfPair(pm, 5, 6, 3, 4);
  }

  /** A level sequence from a start whose parents and grandparents, but no further ancestors, are recorded has three levels. */
  lemma ThreeLevels(pm: ParentsMap, start: set<int>, levels: seq<set<int>>, b: set<int>, c: set<int>)
    requires IsLevelSequence(pm, start, levels) && start != {}
    requires NextLevel(pm, start) == b && b != {} && NextLevel(pm, b) == c && c != {} && NextLevel(pm, c) == {}
    ensures levels == [start, b, c]
  {
    assert |levels| > 1;
    assert levels[1] == b;
    assert |levels| > 2;
    assert levels[2] == c;
    LastLevelIff(pm, start, levels, 2);
  }

  /** The same with one more recorded generation: four levels. */
  lemma FourLevels(pm: ParentsMap, start: set<int>, levels: seq<set<int>>, b: set<int>, c: set<int>, d: set<int>)
    requires IsLevelSequence(pm, start, levels) && start != {}
    requires NextLevel(pm, start) == b && b != {} && NextLevel(pm, b) == c && c != {}
    requires NextLevel(pm, c) == d && d != {} && NextLevel(pm, d) == {}
    ensures levels == [start, b, c, d]
  {
    assert |levels| > 1;
    assert levels[1] == b;
    assert |levels| > 2;
    assert levels[2] == c;
    assert |levels| > 3;
    assert levels[3] == d;
    LastLevelIff(pm, start, levels, 3);
  }

  /** From the proband 7 the levels are {7}, then its parents {5, 6}, then the founders {3, 4}. */
  lemma SiblingsLevels(pm: ParentsMap, rank: map<int, nat>)
    requires SiblingsRecords(pm) && Ranked(pm, rank)
    ensures LevelsOf(pm, rank, [7]) == [{7}, {5, 6}, {3, 4}]
  {
    FamilyNextLevels(pm);
    NoNextLevel(pm, {3, 4});
    assert ElementsOf([7]) == {7};
    LevelsOfSequence(pm, rank, [7]);
    ThreeLevels(pm, {7}, LevelsOf(pm, rank, [7]), {5, 6}, {3, 4});
  }

  /** With the founders recorded, the levels go one generation further, to {-1}. */
  lemma SentinelLevels(pm: ParentsMap, rank: map<int, nat>)
    requires SentinelRecords(pm) && Ranked(pm, rank)
    ensures LevelsOf(pm, rank, [7]) == [{7}, {5, 6}, {3, 4}, {-1}]
  {
    FamilyNextLevels(pm);
    ParentsOfPair(pm, 3, 4, -1, -1);
    NoNextLevel(pm, {-1});
    assert ElementsOf([7]) == {7};
    LevelsOfSequence(pm, rank, [7]);
    FourLevels(pm, {7}, LevelsOf(pm, rank, [7]), {5, 6}, {3, 4}, {-1});
  }

  lemma SiblingsDiscovered()
    ensures Discovered([{7}, {5, 6}, {3, 4}]) == {3, 4, 5, 6, 7}
  {
    var levels: seq<set<int>> := [{7}, {5, 6}, {3, 4}];
    assert 7 in levels[0] && 5 in levels[1] && 6 in levels[1] && 3 in levels[2] && 4 in levels[2];
  }

  lemma SentinelDiscovered()
    ensures Discovered([{7}, {5, 6}, {3, 4}, {-1}]) == {-1, 3, 4, 5, 6, 7}
  {
    var levels: seq<set<int>> := [{7}, {5, 6}, {3, 4}, {-1}];
    assert 7 in levels[0] && 5 in levels[1] && 6 in levels[1];
    assert 3 in levels[2] && 4 in levels[2] && -1 in levels[3];
  }

  /** The siblings share exactly the founders. */
  lemma SiblingsShareFounders(pm: ParentsMap, rank: map<int, nat>)
    requires SiblingsRecords(pm) && Ranked(pm, rank)
    ensures CommonAncestors(pm, rank, {3, 4, 5, 6, 7}, 5, 6) == {3, 4}
  {
    assert IsAncestorOrSelf(pm, rank, 3, 5) && IsAncestorOrSelf(pm, rank, 4, 5);
    assert IsAncestorOrSelf(pm, rank, 3, 6) && IsAncestorOrSelf(pm, rank, 4, 6);
    assert !IsAncestorOrSelf(pm, rank, 6, 5) && !IsAncestorOrSelf(pm, rank, 7, 5);
    assert !IsAncestorOrSelf(pm, rank, 5, 6);
  }

  /** A child shares with one of its parents that parent and the founders: all common ancestors, not only the closest. */
  lemma ChildSharesWithParent(pm: ParentsMap, rank: map<int, nat>)
    requires SiblingsRecords(pm) && Ranked(pm, rank)
    ensures CommonAncestors(pm, rank, {3, 4, 5, 6, 7}, 7, 5) == {3, 4, 5}
  {
    assert IsAncestorOrSelf(pm, rank, 3, 5) && IsAncestorOrSelf(pm, rank, 4, 5);
    assert IsAncestorOrSelf(pm, rank, 5, 7);
    assert IsAncestorOrSelf(pm, rank, 3, 7) && IsAncestorOrSelf(pm, rank, 4, 7);
    assert !IsAncestorOrSelf(pm, rank, 6, 5) && !IsAncestorOrSelf(pm, rank, 7, 5);
  }

  /** Two founders without records share nothing. */
  lemma FoundersShareNothing(pm: ParentsMap, rank: map<int, nat>)
    requires SiblingsRecords(pm) && Ranked(pm, rank)
    ensures CommonAncestors(pm, rank, {3, 4, 5, 6, 7}, 3, 4) == {}
  {
    assert !IsAncestorOrSelf(pm, rank, 4, 3) && !IsAncestorOrSelf(pm, rank, 5, 3);
    assert !IsAncestorOrSelf(pm, rank, 6, 3) && !IsAncestorOrSelf(pm, rank, 7, 3);
  }

  /** Founders recorded against -1 share -1 instead of nothing. */
  lemma FoundersShareSentinel(pm: ParentsMap, rank: map<int, nat>)
    requires SentinelRecords(pm) && Ranked(pm, rank)
    ensures CommonAncestors(pm, rank, {-1, 3, 4, 5, 6, 7}, 3, 4) == {-1}
  {
    assert IsAncestorOrSelf(pm, rank, -1, 3) && IsAncestorOrSelf(pm, rank, -1, 4);
    assert -1 !in pm && pm[3] == Parents(-1, -1);
    assert !IsAncestorOrSelf(pm, rank, 4, -1) && !IsAncestorOrSelf(pm, rank, 5, -1);
    assert !IsAncestorOrSelf(pm, rank, 6, -1) && !IsAncestorOrSelf(pm, rank, 7, -1);
    assert !IsAncestorOrSelf(pm, rank, 4, 3) && !IsAncestorOrSelf(pm, rank, 5, 3);
    assert !IsAncestorOrSelf(pm, rank, 6, 3) && !IsAncestorOrSelf(pm, rank, 7, 3);
    assert !IsAncestorOrSelf(pm, rank, 3, 4);
  }

  /** The records (5, 3, 4), (6, 3, 4) and (7, 5, 6), in that order. */
  method AddFamily(pedigree: Pedigree)
    requires 5 !in pedigree.parentsMap && 6 !in pedigree.parentsMap && 7 !in pedigree.parentsMap
    modifies pedigree
    ensures pedigree.parentsMap ==
      old(pedigree.parentsMap)[5 := Parents(3, 4)][6 := Parents(3, 4)][7 := Parents(5, 6)]
  {
    var first := pedigree.AddRecord(Record(5, 3, 4));
    var second := pedigree.AddRecord(Record(6, 3, 4));
    var third := pedigree.AddRecord(Record(7, 5, 6));
  }

  /** Founders at rank 0, the siblings at 1 and their child at 2 witness that the pedigree is acyclic. */
  lemma SiblingsRanked(pm: ParentsMap, rank: map<int, nat>)
    requires SiblingsRecords(pm) && rank == map[3 := 0, 4 := 0, 5 := 1, 6 := 1, 7 := 2]
    ensures Ranked(pm, rank)
  {
    forall c | c in pm ensures c in rank && pm[c].left in rank && pm[c].right in rank {
      assert c == 5 || c == 6 || c == 7;
    }
  }

  lemma SentinelRanked(pm: ParentsMap, rank: map<int, nat>)
    requires SentinelRecords(pm) && rank == map[-1 := 0, 3 := 1, 4 := 1, 5 := 2, 6 := 2, 7 := 3]
    ensures Ranked(pm, rank)
  {
    forall c | c in pm ensures c in rank && pm[c].left in rank && pm[c].right in rank {
      assert c == 3 || c == 4 || c == 5 || c == 6 || c == 7;
    }
  }

  /** Ingests the three records and builds their index from the proband 7. */
  method SiblingsGraph() returns (graph: Graph, ghost rank: map<int, nat>)
    ensures SiblingsRecords(graph.reverseAdjacencyList) && Ranked(graph.reverseAdjacencyList, rank)
    ensures graph.levels == [{7}, {5, 6}, {3, 4}] && graph.vertices.Keys == {3, 4, 5, 6, 7}
    ensures IsIndex(graph.vertices, graph.levels, graph.reverseAdjacencyList, rank)
  {
    var pedigree := new Pedigree();
    AddFamily(pedigree);
    rank := map[3 := 0, 4 := 0, 5 := 1, 6 := 1, 7 := 2];
    SiblingsRanked(pedigree.parentsMap, rank);
    SiblingsLevels(pedigree.parentsMap, rank);
    var built := Graph.GetGraphFromPedigreeAndProbands(pedigree, [7], rank);
    assert InnerLevelsHaveParents(pedigree.parentsMap, [{7}, {5, 6}, {3, 4}]);
    graph := built.value;
    SiblingsDiscovered();
  }

  /**
   * Asks the siblings' index for the pairs (5, 6), (3, 4), (7, 5) and
   * (9, 3), the last naming a label that is not a vertex.
   */
  method SiblingsQueries() returns (answers: seq<Result<set<int>, QueryError>>)
    ensures answers == [Success({3, 4}), Success({}), Success({3, 4, 5}), Failure(UnknownVertex(9))]
  {
    var graph, rank := SiblingsGraph();
    ghost var pm := graph.reverseAdjacencyList;
    assert Max(9, 3) == 9;
    assert 9 !in graph.vertices.Keys;
    var d := graph.GetCommonAncestors(9, 3);
    SiblingsShareFounders(pm, rank);
    graph.CommonAncestorsAnswer(rank, 5, 6);
    var a := graph.GetCommonAncestors(5, 6);
    FoundersShareNothing(pm, rank);
    graph.CommonAncestorsAnswer(rank, 3, 4);
    var b := graph.GetCommonAncestors(3, 4);
    ChildSharesWithParent(pm, rank);
    graph.CommonAncestorsAnswer(rank, 7, 5);
    var c := graph.GetCommonAncestors(7, 5);
    answers := [a, b, c, d];
  }

  /** The founders' records (3, -1, -1) and (4, -1, -1), then the family's. */
  method IngestWithSentinel() returns (pedigree: Pedigree)
    ensures fresh(pedigree) && SentinelRecords(pedigree.parentsMap)
  {
    pedigree := new Pedigree();
    var founderA := pedigree.AddRecord(Record(3, -1, -1));
    var founderB := pedigree.AddRecord(Record(4, -1, -1));
    AddFamily(pedigree);
  }

  /** Builds the index of the five records from the proband 7. */
  method SentinelGraph() returns (graph: Graph, ghost rank: map<int, nat>)
    ensures SentinelRecords(graph.reverseAdjacencyList) && Ranked(graph.reverseAdjacencyList, rank)
    ensures graph.vertices.Keys == {-1, 3, 4, 5, 6, 7}
    ensures IsIndex(graph.vertices, graph.levels, graph.reverseAdjacencyList, rank)
  {
    var pedigree := IngestWithSentinel();
    rank := map[-1 := 0, 3 := 1, 4 := 1, 5 := 2, 6 := 2, 7 := 3];
    SentinelRanked(pedigree.parentsMap, rank);
    SentinelLevels(pedigree.parentsMap, rank);
    var built := Graph.GetGraphFromPedigreeAndProbands(pedigree, [7], rank);
    assert InnerLevelsHaveParents(pedigree.parentsMap, [{7}, {5, 6}, {3, 4}, {-1}]);
    graph := built.value;
    SentinelDiscovered();
  }

  /** Asks the index of the five records for the founders 3 and 4. */
  method SentinelQuery() returns (answer: Result<set<int>, QueryError>)
    ensures answer == Success({-1})
  {
    var graph, rank := SentinelGraph();
    FoundersShareSentinel(graph.reverseAdjacencyList, rank);
    graph.CommonAncestorsAnswer(rank, 3, 4);
    answer := graph.GetCommonAncestors(3, 4);
  }
}
