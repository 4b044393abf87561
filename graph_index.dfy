/**
 * What a finished common-ancestor index is: a vertex per discovered label,
 * every parent of a vertex itself a vertex, and each vertex holding
 * its constructed ancestry map without its own label.
 */
module GraphIndex {
  import opened Lineage
  import opened Ancestry
  import opened AncestryTable

  /** Each vertex object is stored under its own label. */
  ghost predicate Labelled(vertices: map<int, Vertex>) {
    forall v :: v in vertices ==> vertices[v].id == v
  }

  /** The vertices and levels are the finished index of the pedigree with parents `pm`. */
  ghost predicate IsIndex(vertices: map<int, Vertex>, levels: seq<set<int>>, pm: ParentsMap, rank: map<int, nat>)
    requires Ranked(pm, rank)
    reads vertices.Values
  {
    && levels != []
    && vertices.Keys == Discovered(levels)
    && ParentClosed(pm, vertices.Keys)
    && Labelled(vertices)
    && forall v {:trigger AncestryOf(pm, rank, vertices.Keys, v)} :: v in vertices ==> vertices[v].ancestryMap == AncestryOf(pm, rank, vertices.Keys, v) - {v}
  }
}
