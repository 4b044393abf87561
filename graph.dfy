/**
 * The common-ancestor index (graph.py:58-123): built once from a pedigree
 * and a list of probands, then queried for the common ancestors of two
 * vertices and for the vertices of a level.
 */
module PedigreeGraph {
  import opened Wrappers
  import opened Lineage
  import opened Ancestry
  import opened Expansion
  import opened AncestryTable
  import opened Pedigrees
  import opened GraphIndex

  datatype BuildError =
    | NoProbands              // no level at all, so there is no last level to start from
    | MissingParents(vertex: int)  // a vertex outside the last level has no record

  datatype QueryError =
    | LevelOutOfRange(level: int)
    | UnknownVertex(vertex: int)

  /** Every vertex of `level` has recorded parents. */
  ghost predicate Recorded(pm: ParentsMap, level: set<int>) {
    level <= pm.Keys
  }

  /** Every vertex outside the last level has recorded parents. */
  ghost predicate InnerLevelsHaveParents(pm: ParentsMap, levels: seq<set<int>>) {
    forall k :: 0 <= k < |levels| - 1 ==> Recorded(pm, levels[k])
  }

  /** Each vertex holds the map `target` gives for its label. */
  ghost predicate Holds(vertices: map<int, Vertex>, target: map<int, AncestryMap>)
    reads vertices.Values
  {
    forall v :: v in vertices ==> v in target && vertices[v].ancestryMap == target[v]
  }

  /** The constructed ancestry map of every discovered vertex. */
  ghost function TableOf(pm: ParentsMap, rank: map<int, nat>, vs: set<int>): (t: map<int, AncestryMap>)
    requires Ranked(pm, rank)
    ensures t.Keys == vs
    ensures forall v :: v in t ==> t[v] == AncestryOf(pm, rank, vs, v)
  {
    map v | v in vs :: AncestryOf(pm, rank, vs, v)
  }

  /** How the table entry of a vertex is made from its seed and its parents' entries. */
  lemma TableEntry(pm: ParentsMap, rank: map<int, nat>, vs: set<int>, x: int)
    requires Ranked(pm, rank) && ParentClosed(pm, vs) && x in vs
    ensures var t := TableOf(pm, rank, vs);
      && x in t[x]
      && (x !in pm ==> t[x] == Seed(x, Desc(pm, rank, vs, x)))
      && (x in pm ==>
            && pm[x].left in t && pm[x].right in t
            && t[x] == Merge(Merge(Seed(x, Desc(pm, rank, vs, x)), t[pm[x].left]), t[pm[x].right]))
  {
    OwnKey(pm, rank, vs, x);
  }

  function Max(a: int, b: int): int {
    if a >= b then a else b
  }

  /** `first + second - max(first, second)`: the smaller of the two. */
  function Other(first: int, second: int): (o: int)
    ensures o == if first <= second then first else second
    ensures Max(first, second) == if first <= second then second else first
  {
    first + second - Max(first, second)
  }

  /** A vertex's own label is always a key of its map (so removing it never fails). */
  lemma OwnKey(pm: ParentsMap, rank: map<int, nat>, vs: set<int>, x: int)
    requires Ranked(pm, rank) && x in vs
    ensures x in AncestryOf(pm, rank, vs, x)
  {
    assert IsAncestorOrSelf(pm, rank, x, x);
    assert x in Desc(pm, rank, vs, x);
  }

  /** The recorded parents of every vertex of level `k` are in level `k + 1`. */
  ghost predicate ParentsOneLevelDown(pm: ParentsMap, levels: seq<set<int>>, k: int)
    requires 0 <= k < |levels| - 1
  {
    forall c :: c in levels[k] && c in pm ==> pm[c].left in levels[k + 1] && pm[c].right in levels[k + 1]
  }

  /**
   * What building the vertices needs, with `target` the table they must end
   * up holding: levels whose labels are the discovered ones, the parents of
   * each level one level down and none in the last level, each label's own
   * key in its table entry, and each entry its seed, merged with its
   * parents' entries when it has a record.
   */
  ghost predicate Prepared(pm: ParentsMap, levels: seq<set<int>>, dm: map<int, set<int>>, target: map<int, AncestryMap>) {
    && levels != []
    && dm.Keys == Discovered(levels)
    && (forall k :: 0 <= k < |levels| - 1 ==> ParentsOneLevelDown(pm, levels, k))
    && (forall x :: x in levels[|levels| - 1] ==> x !in pm)
    && (forall x {:trigger Entry(pm, dm, target, x)} :: x in dm ==> Entry(pm, dm, target, x))
  }

  /**
   * The table entry of `x` holds its own label and is its seed, merged with
   * its parents' entries when it has a record.
   */
  ghost predicate Entry(pm: ParentsMap, dm: map<int, set<int>>, target: map<int, AncestryMap>, x: int)
    requires x in dm
  {
    && x in target && x in target[x]
    && (x !in pm ==> target[x] == Seed(x, dm[x]))
    && (x in pm ==>
          && pm[x].left in target && pm[x].right in target
          && target[x] == Merge(Merge(Seed(x, dm[x]), target[pm[x].left]), target[pm[x].right]))
  }

  lemma TablePrepared(pm: ParentsMap, rank: map<int, nat>, levels: seq<set<int>>, dm: map<int, set<int>>)
    requires Ranked(pm, rank)
    requires levels != [] && IsLevelSequence(pm, levels[0], levels) && dm.Keys == Discovered(levels)
    requires forall x :: x in dm ==> dm[x] == Desc(pm, rank, dm.Keys, x)
    ensures Prepared(pm, levels, dm, TableOf(pm, rank, dm.Keys))
  {
    var t := TableOf(pm, rank, dm.Keys);
    LevelSequenceParentClosed(pm, levels[0], levels);
    LevelStructure(pm, levels);
    forall x | x in dm ensures Entry(pm, dm, t, x) {
      TableEntry(pm, rank, dm.Keys, x);
    }
  }

  /** In a level sequence the parents of a level are in the next one, and the last level has no records. */
  lemma LevelStructure(pm: ParentsMap, levels: seq<set<int>>)
    requires levels != [] && IsLevelSequence(pm, levels[0], levels)
    ensures forall k :: 0 <= k < |levels| - 1 ==> ParentsOneLevelDown(pm, levels, k)
    ensures forall x :: x in levels[|levels| - 1] ==> x !in pm
  {
  }

  /** Every level is made of discovered labels. */
  lemma LevelDiscovered(levels: seq<set<int>>, k: int)
    requires 0 <= k < |levels|
    ensures levels[k] <= Discovered(levels)
  {
    forall x | x in levels[k] ensures x in Discovered(levels) {
      assert 0 <= k < |levels| && x in levels[k];
    }
  }

  /** A set holding every level holds every discovered label. */
  lemma DiscoveredWithin(levels: seq<set<int>>, keys: set<int>, discovered: set<int>)
    requires discovered == Discovered(levels) && keys <= discovered
    requires forall k :: 0 <= k < |levels| ==> levels[k] <= keys
    ensures keys == discovered
  {
    forall x | x in discovered ensures x in keys {
      var k :| 0 <= k < |levels| && x in levels[k];
    }
  }

  /**
   * The vertices of the last level (graph.py:90-95): each gets a fresh
   * vertex holding its seed.
   */
  method SeedLastLevel(level: set<int>, dm: map<int, set<int>>, ghost target: map<int, AncestryMap>)
    returns (vertices: map<int, Vertex>)
    requires forall x :: x in level ==> x in dm && x in target && target[x] == Seed(x, dm[x])
    ensures vertices.Keys == level
    ensures Labelled(vertices) && Holds(vertices, target)
    ensures forall v :: v in vertices ==> fresh(vertices[v])
  {
    vertices := map[];
    var todo := level;
    while exists v :: v in todo
      invariant todo <= level && vertices.Keys == level - todo
      invariant Labelled(vertices) && Holds(vertices, target)
      invariant forall v :: v in vertices ==> fresh(vertices[v])
      decreases todo
    {
      var source :| source in todo;
      var vertex := new Vertex(source);
      vertex.SetAncestryDictionaryForSourceVertex(dm[source]);
      vertices := vertices[source := vertex];
      todo := todo - {source};
    }
    assert todo == {};
  }

  /** A fresh vertex for `child`, seeded and merged with its two parents' current maps. */
  method NewChildVertex(child: int, descendants: set<int>, left: Vertex, right: Vertex, ghost expected: AncestryMap)
    returns (vertex: Vertex)
    requires expected == Merge(Merge(Seed(child, descendants), left.ancestryMap), right.ancestryMap)
    ensures fresh(vertex) && vertex.id == child && vertex.ancestryMap == expected
  {
    vertex := new Vertex(child);
    vertex.SetAncestryDictionaryGivenParents(descendants, left, right);
  }

  /**
   * One pass of `for child in levels[index]` (graph.py:97-103): a fresh
   * vertex per child, seeded and then merged with its parents' current
   * vertices. A child without a record stops the build (Python's KeyError).
   */
  method BuildLevel(pm: ParentsMap, level: set<int>, dm: map<int, set<int>>,
                    vertices: map<int, Vertex>, ghost target: map<int, AncestryMap>)
    returns (r: Result<map<int, Vertex>, BuildError>)
    requires forall c :: c in level ==> c in dm
    requires forall c {:trigger Entry(pm, dm, target, c)} :: c in level && c in dm ==> Entry(pm, dm, target, c)
    requires forall c :: c in level && c in pm ==> pm[c].left in vertices && pm[c].right in vertices
    requires Labelled(vertices) && Holds(vertices, target)
    ensures r.Success? <==> level <= pm.Keys
    ensures r.Failure? ==> r.error.MissingParents? && r.error.vertex in level && r.error.vertex !in pm
    ensures r.Success? ==> r.value.Keys == vertices.Keys + level
    ensures r.Success? ==> Labelled(r.value) && Holds(r.value, target)
    ensures r.Success? ==> forall v :: v in r.value ==> fresh(r.value[v]) || (v in vertices && r.value[v] == vertices[v])
  {
    var built := vertices;
    var todo := level;
    while exists c :: c in todo
      invariant todo <= level && built.Keys == vertices.Keys + (level - todo)
      invariant level - todo <= pm.Keys
      invariant Labelled(built) && Holds(built, target)
      invariant forall v :: v in built ==> fresh(built[v]) || (v in vertices && built[v] == vertices[v])
      decreases todo
    {
      var child :| child in todo;
      if child !in pm {
        return Failure(MissingParents(child));
      }
      var left, right := pm[child].left, pm[child].right;
      assert Entry(pm, dm, target, child);
      var vertex := NewChildVertex(child, dm[child], built[left], built[right], target[child]);
      built := built[child := vertex];
      todo := todo - {child};
    }
    assert todo == {};
    return Success(built);
  }

  /** The last level seeded, with no vertex built yet. */
  method BuildDeepestLevel(pm: ParentsMap, levels: seq<set<int>>, dm: map<int, set<int>>, ghost target: map<int, AncestryMap>)
    returns (vertices: map<int, Vertex>)
    requires Prepared(pm, levels, dm, target)
    ensures vertices.Keys == levels[|levels| - 1] && vertices.Keys <= dm.Keys
    ensures Labelled(vertices) && Holds(vertices, target)
    ensures forall v :: v in vertices ==> fresh(vertices[v])
  {
    LevelDiscovered(levels, |levels| - 1);
    forall x | x in levels[|levels| - 1] ensures x in dm && x in target && target[x] == Seed(x, dm[x]) {
      assert x !in pm && Entry(pm, dm, target, x);
    }
    vertices := SeedLastLevel(levels[|levels| - 1], dm, target);
  }

  /** Level `index` built on top of the vertices of the levels below it. */
  method BuildShallowerLevel(pm: ParentsMap, levels: seq<set<int>>, dm: map<int, set<int>>,
                             vertices: map<int, Vertex>, ghost target: map<int, AncestryMap>, index: nat)
    returns (r: Result<map<int, Vertex>, BuildError>)
    requires Prepared(pm, levels, dm, target)
    requires index < |levels| - 1 && levels[index + 1] <= vertices.Keys
    requires Labelled(vertices) && Holds(vertices, target)
    ensures r.Success? <==> levels[index] <= pm.Keys
    ensures r.Failure? ==> r.error.MissingParents? && r.error.vertex in levels[index] && r.error.vertex !in pm
    ensures r.Success? ==> r.value.Keys == vertices.Keys + levels[index] && levels[index] <= dm.Keys
    ensures r.Success? ==> Labelled(r.value) && Holds(r.value, target)
    ensures r.Success? ==> forall v :: v in r.value ==> fresh(r.value[v]) || (v in vertices && r.value[v] == vertices[v])
  {
    LevelDiscovered(levels, index);
    assert ParentsOneLevelDown(pm, levels, index);
    forall c | c in levels[index] ensures Entry(pm, dm, target, c) {}
    r := BuildLevel(pm, levels[index], dm, vertices, target);
  }

  /**
   * The two building loops of graph.py:90-103: the last level seeded, then
   * each shallower level built from the one below it, down to level 0.
   */
  method BuildVertices(pm: ParentsMap, levels: seq<set<int>>, dm: map<int, set<int>>, ghost target: map<int, AncestryMap>)
    returns (r: Result<map<int, Vertex>, BuildError>)
    requires Prepared(pm, levels, dm, target)
    ensures r.Success? <==> InnerLevelsHaveParents(pm, levels)
    ensures r.Failure? ==>
      && r.error.MissingParents?
      && exists k :: 0 <= k < |levels| - 1 && r.error.vertex in levels[k] && r.error.vertex !in pm &&
            (forall k' :: k < k' < |levels| - 1 ==> Recorded(pm, levels[k']))
    ensures r.Success? ==> r.value.Keys == dm.Keys && Labelled(r.value) && Holds(r.value, target)
    ensures r.Success? ==> forall v :: v in r.value ==> fresh(r.value[v])
  {
    var vertices := BuildDeepestLevel(pm, levels, dm, target);
    var index := |levels| - 1;
    while index > 0
      invariant 0 <= index <= |levels| - 1
      invariant forall k :: index <= k < |levels| ==> levels[k] <= vertices.Keys
      invariant vertices.Keys <= dm.Keys
      invariant forall k :: index <= k < |levels| - 1 ==> Recorded(pm, levels[k])
      invariant Labelled(vertices) && Holds(vertices, target)
      invariant forall v :: v in vertices ==> fresh(vertices[v])
    {
      index := index - 1;
      var built := BuildShallowerLevel(pm, levels, dm, vertices, target, index);
      if built.Failure? {
        assert index < |levels| - 1 && built.error.vertex in levels[index];
        return Failure(built.error);
      }
      vertices := built.value;
    }
    DiscoveredWithin(levels, vertices.Keys, dm.Keys);
    return Success(vertices);
  }

  /**
   * When every vertex outside the last level has a record, no label is in two
   * levels: a label at depths `i < j` would pass a parent on to every later
   * level, down to the last one, whose vertices have no record. So a
   * successful build never rebuilds a vertex at a shallower level.
   */
  lemma {:induction false} LevelsDisjoint(pm: ParentsMap, start: set<int>, levels: seq<set<int>>, i: int, j: int, x: int)
    requires IsLevelSequence(pm, start, levels) && InnerLevelsHaveParents(pm, levels)
    requires 0 <= i < j < |levels| && x in levels[i]
    ensures x !in levels[j]
    decreases |levels| - j
  {
    assert Recorded(pm, levels[i]) && x in pm;
    if j == |levels| - 1 {
      LastLevelIff(pm, start, levels, j);
    } else {
      assert levels[i + 1] == NextLevel(pm, levels[i]) && levels[j + 1] == NextLevel(pm, levels[j]);
      LevelsDisjoint(pm, start, levels, i + 1, j + 1, pm[x].left);
    }
  }

  /** The diagonal removal of graph.py:104-106: every vertex drops its own label, which its map always holds. */
  method RemoveDiagonal(vertices: map<int, Vertex>, ghost target: map<int, AncestryMap>)
    requires Labelled(vertices) && Holds(vertices, target)
    requires forall v :: v in vertices ==> v in target[v]
    modifies vertices.Values
    ensures forall v :: v in vertices ==> vertices[v].ancestryMap == target[v] - {v}
  {
    var todo := vertices.Keys;
    while exists v :: v in todo
      invariant todo <= vertices.Keys
      invariant forall v :: v in vertices ==>
        && v in target
        && vertices[v].ancestryMap == if v in todo then target[v] else target[v] - {v}
      decreases todo
    {
      var v :| v in todo;
      var vertex := vertices[v];
      assert vertex.id in vertex.ancestryMap;
      vertex.ancestryMap := vertex.ancestryMap - {vertex.id};
      todo := todo - {v};
    }
  }

  /** The index: a vertex per discovered label, the levels, and the pedigree's two maps. */
  class Graph {
    const vertices: map<int, Vertex>
    const levels: seq<set<int>>
    const adjacencyList: ChildrenMap
    const reverseAdjacencyList: ParentsMap

    constructor (vertices: map<int, Vertex>, levels: seq<set<int>>,
                 adjacencyList: ChildrenMap, reverseAdjacencyList: ParentsMap)
      ensures this.vertices == vertices && this.levels == levels
      ensures this.adjacencyList == adjacencyList && this.reverseAdjacencyList == reverseAdjacencyList
    {
      this.vertices := vertices;
      this.levels := levels;
      this.adjacencyList := adjacencyList;
      this.reverseAdjacencyList := reverseAdjacencyList;
    }

    /**
     * Builds the index (graph.py:66-107). Fails with `NoProbands` when there
     * are no probands and with `MissingParents` when a vertex outside the
     * last level has no record; otherwise every vertex's map holds, under
     * each other discovered label, their common ancestors-or-self.
     */
    static method GetGraphFromPedigreeAndProbands(pedigree: Pedigree, probands: seq<int>, ghost rank: map<int, nat>)
      returns (r: Result<Graph, BuildError>)
      requires Ranked(pedigree.parentsMap, rank)
      ensures var levels := LevelsOf(pedigree.parentsMap, rank, probands);
        r.Success? <==> probands != [] && InnerLevelsHaveParents(pedigree.parentsMap, levels)
      ensures r == Failure(NoProbands) <==> probands == []
      ensures var levels := LevelsOf(pedigree.parentsMap, rank, probands);
        r.Failure? && r.error.MissingParents? ==>
          exists k :: 0 <= k < |levels| - 1 && r.error.vertex in levels[k] && r.error.vertex !in pedigree.parentsMap &&
            (forall k' :: k < k' < |levels| - 1 ==> Recorded(pedigree.parentsMap, levels[k']))
      ensures r.Success? ==>
        && fresh(r.value)
        && r.value.levels == LevelsOf(pedigree.parentsMap, rank, probands)
        && r.value.levels != [] && r.value.levels[0] == ElementsOf(probands)
        && r.value.adjacencyList == pedigree.childrenMap
        && r.value.reverseAdjacencyList == pedigree.parentsMap
        && IsIndex(r.value.vertices, r.value.levels, r.value.reverseAdjacencyList, rank)
    {
      var pm := pedigree.parentsMap;
      var levels, dm := ExpandLevels(pm, rank, probands);
      if |levels| == 0 {
        return Failure(NoProbands);
      }
      r := IndexLevels(pedigree.childrenMap, pm, levels, dm, rank, probands);
    }

    /** The vertices built for the levels and descendant sets, the diagonal removed, and the graph assembled. */
    static method IndexLevels(childrenMap: ChildrenMap, pm: ParentsMap, levels: seq<set<int>>,
                              dm: map<int, set<int>>, ghost rank: map<int, nat>, ghost probands: seq<int>)
      returns (r: Result<Graph, BuildError>)
      requires Ranked(pm, rank)
      requires levels == LevelsOf(pm, rank, probands) && levels != [] && dm.Keys == Discovered(levels)
      requires forall x :: x in dm ==> dm[x] == Desc(pm, rank, dm.Keys, x)
      ensures r.Success? <==> InnerLevelsHaveParents(pm, levels)
      ensures r.Failure? ==>
        && r.error.MissingParents?
        && exists k :: 0 <= k < |levels| - 1 && r.error.vertex in levels[k] && r.error.vertex !in pm &&
            (forall k' :: k < k' < |levels| - 1 ==> Recorded(pm, levels[k']))
      ensures r.Success? ==>
        && fresh(r.value) && r.value.levels == levels
        && r.value.adjacencyList == childrenMap && r.value.reverseAdjacencyList == pm
        && IsIndex(r.value.vertices, r.value.levels, r.value.reverseAdjacencyList, rank)
    {
      LevelsOfSequence(pm, rank, probands);
      ghost var target := TableOf(pm, rank, dm.Keys);
      TablePrepared(pm, rank, levels, dm);
      var built := BuildVertices(pm, levels, dm, target);
      if built.Failure? {
        return Failure(built.error);
      }
      var vertices := built.value;
      RemoveDiagonal(vertices, target);
      var graph := new Graph(vertices, levels, childrenMap, pm);
      LevelSequenceParentClosed(pm, levels[0], levels);
      graph.TableIndexes(rank, target);
      return Success(graph);
    }

    /** A graph whose vertices hold the constructed table without the diagonal is a finished index. */
    lemma TableIndexes(rank: map<int, nat>, target: map<int, AncestryMap>)
      requires Ranked(reverseAdjacencyList, rank) && levels != []
      requires vertices.Keys == Discovered(levels) && ParentClosed(reverseAdjacencyList, vertices.Keys)
      requires Labelled(vertices) && target == TableOf(reverseAdjacencyList, rank, vertices.Keys)
      requires forall v :: v in vertices ==> vertices[v].ancestryMap == target[v] - {v}
      ensures IsIndex(vertices, levels, reverseAdjacencyList, rank)
    {
    }

    /** Python's `self.levels[level]`: a negative index counts from the end. */
    function GetVerticesForGivenLevel(level: int): (r: Result<set<int>, QueryError>)
      ensures r.Success? <==> -|levels| <= level < |levels|
      ensures r.Failure? ==> r.error == LevelOutOfRange(level)
      ensures r.Success? ==> r.value == levels[if level >= 0 then level else |levels| + level]
    {
      if 0 <= level < |levels| then Success(levels[level])
      else if -|levels| <= level < 0 then Success(levels[|levels| + level])
      else Failure(LevelOutOfRange(level))
    }

    /**
     * Looks up the map of the larger label under the smaller one; a missing
     * key gives the empty answer, a larger label that is not a vertex is an
     * error (Python's KeyError).
     */
    function GetCommonAncestors(first: int, second: int): (r: Result<set<int>, QueryError>)
      reads vertices.Values
      ensures r.Failure? <==> Max(first, second) !in vertices
      ensures r.Failure? ==> r.error == UnknownVertex(Max(first, second))
    {
      var maxLabel := Max(first, second);
      var other := first + second - maxLabel;
      if maxLabel !in vertices then Failure(UnknownVertex(maxLabel))
      else if other in vertices[maxLabel].ancestryMap then Success(vertices[maxLabel].ancestryMap[other])
      else Success({})
    }

    /**
     * What a query answers on a finished index: an error when the larger
     * label is not a vertex, nothing on the diagonal or when the smaller
     * label is not a vertex, and otherwise every vertex that is an
     * ancestor-or-self of both labels.
     */
    lemma CommonAncestorsAnswer(rank: map<int, nat>, first: int, second: int)
      requires Ranked(reverseAdjacencyList, rank) && IsIndex(vertices, levels, reverseAdjacencyList, rank)
      ensures GetCommonAncestors(first, second) ==
        if Max(first, second) !in vertices then Failure(UnknownVertex(Max(first, second)))
        else if first != second && first in vertices && second in vertices
        then Success(CommonAncestors(reverseAdjacencyList, rank, vertices.Keys, first, second))
        else Success({})
    {
      var m, o := Max(first, second), Other(first, second);
      if m in vertices {
        IndexEntries(rank, m, o);
        CommonAncestorsSymmetric(reverseAdjacencyList, rank, vertices.Keys, m, o);
      }
    }

    /**
     * What each vertex's map holds on a finished index: its own label is
     * gone, another label is a key exactly when it is a vertex sharing some
     * ancestor-or-self with this one, and the key holds all those shared
     * ancestors-or-self.
     */
    lemma IndexEntries(rank: map<int, nat>, v: int, k: int)
      requires Ranked(reverseAdjacencyList, rank) && IsIndex(vertices, levels, reverseAdjacencyList, rank)
      requires v in vertices
      ensures v !in vertices[v].ancestryMap
      ensures k in vertices[v].ancestryMap <==>
        k != v && k in vertices && CommonAncestors(reverseAdjacencyList, rank, vertices.Keys, v, k) != {}
      ensures k in vertices[v].ancestryMap ==>
        vertices[v].ancestryMap[k] == CommonAncestors(reverseAdjacencyList, rank, vertices.Keys, v, k)
    {
      var pm, vs := reverseAdjacencyList, vertices.Keys;
      assert vertices[v].ancestryMap == AncestryOf(pm, rank, vs, v) - {v};
      AncestryOfIsCommonAncestors(pm, rank, vs, v, k);
    }

    /** Asking about a pair in either order gives the same answer. */
    lemma QuerySymmetric(first: int, second: int)
      ensures GetCommonAncestors(first, second) == GetCommonAncestors(second, first)
    {
      assert Max(first, second) == Max(second, first) && Other(first, second) == Other(second, first);
    }

    /**
     * On a finished index the levels are those of the expansion: the first
     * is the set of probands, each later one the recorded parents of the one
     * before, and no vertex of the last level has a record.
     */
    lemma LevelsAnswer(rank: map<int, nat>, probands: seq<int>)
      requires Ranked(reverseAdjacencyList, rank) && levels == LevelsOf(reverseAdjacencyList, rank, probands)
      requires levels != []
      ensures GetVerticesForGivenLevel(0) == Success(ElementsOf(probands))
      ensures forall k :: 0 < k < |levels| ==>
        GetVerticesForGivenLevel(k) == Success(NextLevel(reverseAdjacencyList, levels[k - 1]))
      ensures forall x :: x in levels[|levels| - 1] ==> x !in reverseAdjacencyList
    {
      var pm := reverseAdjacencyList;
      LevelsOfSequence(pm, rank, probands);
      LevelsOfStart(pm, rank, probands);
      LastLevelIff(pm, ElementsOf(probands), levels, |levels| - 1);
    }

    /** On a finished index every level in range, counted from either end, is a non-empty set of vertices. */
    lemma LevelsAreVertices(rank: map<int, nat>, probands: seq<int>)
      requires Ranked(reverseAdjacencyList, rank) && IsIndex(vertices, levels, reverseAdjacencyList, rank)
      requires levels == LevelsOf(reverseAdjacencyList, rank, probands)
      ensures forall k :: -|levels| <= k < |levels| ==>
        GetVerticesForGivenLevel(k).Success? &&
        GetVerticesForGivenLevel(k).value != {} && GetVerticesForGivenLevel(k).value <= vertices.Keys
    {
      LevelsOfSequence(reverseAdjacencyList, rank, probands);
      forall k | -|levels| <= k < |levels|
        ensures GetVerticesForGivenLevel(k).Success? && GetVerticesForGivenLevel(k).value != {}
        ensures GetVerticesForGivenLevel(k).value <= vertices.Keys
      {
        var j := if k >= 0 then k else |levels| + k;
        LevelDiscovered(levels, j);
        LevelNonEmpty(reverseAdjacencyList, ElementsOf(probands), levels, j);
      }
    }
  }

  /** Common ancestry does not depend on the order of the pair. */
  lemma CommonAncestorsSymmetric(pm: ParentsMap, rank: map<int, nat>, vs: set<int>, a: int, b: int)
    requires Ranked(pm, rank)
    ensures CommonAncestors(pm, rank, vs, a, b) == CommonAncestors(pm, rank, vs, b, a)
  {
  }
}
