/**
 * What the finished index holds for one vertex, defined the way the builder
 * computes it (graph.py:91-103): a vertex without recorded parents keeps its
 * seed; any other vertex merges its parents' maps into its seed. The lemma
 * below shows what that amounts to: under key `k`, every discovered vertex
 * that is an ancestor-or-self of both the vertex and `k`.
 */
module AncestryTable {
  import opened Lineage
  import opened Ancestry

  /** The ancestry map the builder gives `x` when `vs` is the set of discovered vertices. */
  ghost function AncestryOf(pm: ParentsMap, rank: map<int, nat>, vs: set<int>, x: int): AncestryMap
    requires Ranked(pm, rank)
    decreases RankOf(rank, x)
  {
    var seed := Seed(x, Desc(pm, rank, vs, x));
    if x in pm then
      Merge(Merge(seed, AncestryOf(pm, rank, vs, pm[x].left)), AncestryOf(pm, rank, vs, pm[x].right))
    else seed
  }

  /** The common ancestors-or-self of `x` and `k` among `vs`, or nothing when `k` was never discovered. */
  ghost function CommonAncestorsIn(pm: ParentsMap, rank: map<int, nat>, vs: set<int>, x: int, k: int): set<int>
    requires Ranked(pm, rank)
  {
    if k in vs then CommonAncestors(pm, rank, vs, x, k) else {}
  }

  /**
   * The seed-and-merge construction records, under each key, exactly the
   * common ancestors-or-self; a key is present exactly when it has some.
   */
  lemma {:induction false} AncestryOfIsCommonAncestors(pm: ParentsMap, rank: map<int, nat>, vs: set<int>, x: int, k: int)
    requires Ranked(pm, rank) && ParentClosed(pm, vs) && x in vs
    ensures Lookup(AncestryOf(pm, rank, vs, x), k) == CommonAncestorsIn(pm, rank, vs, x, k)
    ensures k in AncestryOf(pm, rank, vs, x) <==> CommonAncestorsIn(pm, rank, vs, x, k) != {}
    decreases RankOf(rank, x)
  {
    var seed := Seed(x, Desc(pm, rank, vs, x));
    var own := Lookup(seed, k);
    var ca := CommonAncestorsIn(pm, rank, vs, x, k);
    assert own == if k in vs && IsAncestorOrSelf(pm, rank, x, k) then {x} else {};
    if x in pm {
      var l, r := pm[x].left, pm[x].right;
      AncestryOfIsCommonAncestors(pm, rank, vs, l, k);
      AncestryOfIsCommonAncestors(pm, rank, vs, r, k);
      var al, ar := AncestryOf(pm, rank, vs, l), AncestryOf(pm, rank, vs, r);
      LookupMerge(seed, al, k);
      LookupMerge(Merge(seed, al), ar, k);
      var cl, cr := CommonAncestorsIn(pm, rank, vs, l, k), CommonAncestorsIn(pm, rank, vs, r, k);
      forall z | z in ca ensures z in own + cl + cr {
        if z != x {
          assert IsAncestorOrSelf(pm, rank, z, l) || IsAncestorOrSelf(pm, rank, z, r);
        }
      }
      forall z | z in own + cl + cr ensures z in ca {
        if z in cl {
          assert IsAncestorOrSelf(pm, rank, z, x);
        } else if z in cr {
          assert IsAncestorOrSelf(pm, rank, z, x);
        }
      }
      assert Lookup(AncestryOf(pm, rank, vs, x), k) == own + cl + cr;
    } else {
      forall z | z in ca ensures z == x {
        assert IsAncestorOrSelf(pm, rank, z, x);
      }
    }
  }
}
