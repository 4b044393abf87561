/**
 * A vertex's ancestry map (graph.py:29-55): for every key `k`, the set of
 * vertices recorded as common ancestors-or-self of the vertex and `k`.
 * Python sets are mutated in place there, but no set is ever shared between
 * two maps (a seed builds fresh sets, a merge copies a set it takes over),
 * so the maps are modelled as values.
 */
module Ancestry {

  type AncestryMap = map<int, set<int>>

  /** `m[k]`, or the empty set for a missing key. */
  function Lookup(m: AncestryMap, k: int): set<int> {
    if k in m then m[k] else {}
  }

  /** `{d: {label} for d in descendants}`, with the label written `id`. */
  function Seed(id: int, descendants: set<int>): (m: AncestryMap)
    ensures m.Keys == descendants
    ensures forall k :: k in m ==> m[k] == {id}
  {
    map d | d in descendants :: {id}
  }

  /** Pointwise union: every key of either map, holding the union of what both hold for it. */
  function Merge(mine: AncestryMap, theirs: AncestryMap): (m: AncestryMap)
    ensures m.Keys == mine.Keys + theirs.Keys
    ensures forall k :: k in m ==> m[k] == Lookup(mine, k) + Lookup(theirs, k)
  {
    map k | k in mine.Keys + theirs.Keys :: Lookup(mine, k) + Lookup(theirs, k)
  }

  /** The entries of `m` whose keys are in `keys`. */
  function Restrict(m: AncestryMap, keys: set<int>): (r: AncestryMap)
    ensures r.Keys == m.Keys * keys
    ensures forall k :: k in r ==> r[k] == m[k]
  {
    map k | k in m.Keys * keys :: m[k]
  }

  /** Two maps with the same keys and the same value under each key are equal. */
  lemma SameEntries(a: AncestryMap, b: AncestryMap)
    requires a.Keys == b.Keys
    requires forall k :: k in a ==> a[k] == b[k]
    ensures a == b
  {
    assert forall k :: k in a <==> k in b;
    assert forall k :: k in a ==> a[k] == b[k];
  }

  lemma LookupMerge(mine: AncestryMap, theirs: AncestryMap, k: int)
    ensures Lookup(Merge(mine, theirs), k) == Lookup(mine, k) + Lookup(theirs, k)
  {
  }

  /** Merging the same map a second time changes nothing. */
  lemma MergeIdempotent(mine: AncestryMap, theirs: AncestryMap)
    ensures Merge(Merge(mine, theirs), theirs) == Merge(mine, theirs)
  {
    var once := Merge(mine, theirs);
    var twice := Merge(once, theirs);
    forall k | k in twice ensures twice[k] == once[k] {
      LookupMerge(mine, theirs, k);
    }
    SameEntries(twice, once);
  }

  /** Merging the left parent's map and then the right's gives what the other order gives. */
  lemma MergeCommutes(mine: AncestryMap, left: AncestryMap, right: AncestryMap)
    ensures Merge(Merge(mine, left), right) == Merge(Merge(mine, right), left)
  {
    var lr := Merge(Merge(mine, left), right);
    var rl := Merge(Merge(mine, right), left);
    assert lr.Keys == mine.Keys + left.Keys + right.Keys == rl.Keys;
    forall k | k in lr ensures lr[k] == rl[k] {
      MergeCommutesAt(mine, left, right, k);
    }
    SameEntries(lr, rl);
  }

  lemma MergeCommutesAt(mine: AncestryMap, left: AncestryMap, right: AncestryMap, k: int)
    ensures Lookup(Merge(Merge(mine, left), right), k) == Lookup(Merge(Merge(mine, right), left), k)
  {
    LookupMerge(mine, left, k);
    LookupMerge(mine, right, k);
    LookupMerge(Merge(mine, left), right, k);
    LookupMerge(Merge(mine, right), left, k);
  }

  /** Merging a map into itself changes nothing (a vertex passed as its own parent). */
  lemma MergeSelf(m: AncestryMap)
    ensures Merge(m, m) == m
  {
    forall k | k in m ensures Merge(m, m)[k] == m[k] {
      assert Lookup(m, k) == m[k];
    }
    SameEntries(Merge(m, m), m);
  }

  lemma LookupRestrict(m: AncestryMap, keys: set<int>, k: int)
    ensures Lookup(Restrict(m, keys), k) == if k in keys then Lookup(m, k) else {}
  {
  }

  /** Merging the entries of one more key of `theirs`. */
  lemma MergeRestrictStep(mine: AncestryMap, theirs: AncestryMap, done: set<int>, k: int)
    requires k in theirs
    ensures Merge(mine, Restrict(theirs, done + {k})) ==
      var m := Merge(mine, Restrict(theirs, done));
      m[k := Lookup(m, k) + theirs[k]]
  {
    var m := Merge(mine, Restrict(theirs, done));
    var lhs := Merge(mine, Restrict(theirs, done + {k}));
    var rhs := m[k := Lookup(m, k) + theirs[k]];
    forall j | j in lhs ensures j in rhs && lhs[j] == rhs[j] {
      MergeRestrictStepAt(mine, theirs, done, k, j);
    }
    forall j | j in rhs ensures j in lhs {
      MergeRestrictStepAt(mine, theirs, done, k, j);
    }
    SameEntries(lhs, rhs);
  }

  lemma MergeRestrictStepAt(mine: AncestryMap, theirs: AncestryMap, done: set<int>, k: int, j: int)
    requires k in theirs
    ensures var m := Merge(mine, Restrict(theirs, done));
      Lookup(Merge(mine, Restrict(theirs, done + {k})), j) == Lookup(m[k := Lookup(m, k) + theirs[k]], j)
  {
    LookupRestrict(theirs, done + {k}, j);
    LookupRestrict(theirs, done, j);
    LookupMerge(mine, Restrict(theirs, done), j);
    LookupMerge(mine, Restrict(theirs, done + {k}), j);
  }

  lemma MergeNothing(mine: AncestryMap, theirs: AncestryMap)
    ensures Merge(mine, Restrict(theirs, {})) == mine
  {
    forall k | k in mine ensures Merge(mine, Restrict(theirs, {}))[k] == mine[k] {
      LookupRestrict(theirs, {}, k);
    }
    SameEntries(Merge(mine, Restrict(theirs, {})), mine);
  }

  lemma RestrictAll(m: AncestryMap, keys: set<int>)
    requires m.Keys <= keys
    ensures Restrict(m, keys) == m
  {
    SameEntries(Restrict(m, keys), m);
  }

  /** A vertex of the index. `id` is its `label` (a reserved word in Dafny); vertices are keyed by it. */
  class Vertex {
    const id: int
    var ancestryMap: AncestryMap

    constructor (id: int)
      ensures this.id == id && ancestryMap == map[]
    {
      this.id := id;
      ancestryMap := map[];
    }

    /** The map of a vertex with no parents to merge: itself as the only common ancestor with each descendant. */
    method SetAncestryDictionaryForSourceVertex(descendants: set<int>)
      modifies this
      ensures ancestryMap == Seed(id, descendants)
    {
      ancestryMap := map d | d in descendants :: {id};
    }

    /**
     * Folds `parent`'s map into this one: a shared key takes the union of
     * both sets, a key only `parent` has is copied, every other entry stays.
     * When `parent` is this vertex the map is merged into itself.
     */
    method UpdateAncestryDictionary(parent: Vertex)
      modifies this
      ensures ancestryMap == Merge(old(ancestryMap), old(parent.ancestryMap))
    {
      var theirs := parent.ancestryMap;
      ghost var mine := ancestryMap;
      var todo := theirs.Keys;
      ghost var done: set<int> := {};
      MergeNothing(mine, theirs);
      while exists k :: k in todo
        invariant todo == theirs.Keys - done && done <= theirs.Keys
        invariant ancestryMap == Merge(mine, Restrict(theirs, done))
        decreases todo
      {
        var key :| key in todo;
        ghost var before := ancestryMap;
        if key in ancestryMap {
          ancestryMap := ancestryMap[key := ancestryMap[key] + theirs[key]];
        } else {
          assert Lookup(before, key) + theirs[key] == theirs[key];
          ancestryMap := ancestryMap[key := theirs[key]];
        }
        assert ancestryMap == before[key := Lookup(before, key) + theirs[key]];
        MergeRestrictStep(mine, theirs, done, key);
        done := done + {key};
        todo := todo - {key};
      }
      assert todo == {};
      RestrictAll(theirs, done);
    }

    /**
     * The map of a vertex with recorded parents: its seed, then the left
     * parent's map, then the right parent's map merged in. A parent that is
     * this vertex contributes the map as it stands at that point.
     */
    method SetAncestryDictionaryGivenParents(descendants: set<int>, left: Vertex, right: Vertex)
      modifies this
      ensures var seed := Seed(id, descendants);
              var afterLeft := Merge(seed, if left == this then seed else old(left.ancestryMap));
              ancestryMap == Merge(afterLeft, if right == this then afterLeft else old(right.ancestryMap))
    {
      SetAncestryDictionaryForSourceVertex(descendants);
      UpdateAncestryDictionary(left);
      UpdateAncestryDictionary(right);
    }
  }
}
