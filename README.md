# Pedigree common-ancestor index

A model of the ancestry index in `graph.py`. The index is built once per pedigree and then answers queries of the form "which individuals are common ancestors of `a` and `b`?".

- **Pedigree.** A list of records `child left right`. It keeps a `children_map`: each parent's children, in arrival order. It also keeps a `parents_map`: each child's pair of parents.
- **Expansion.** The builder starts from a list of probands and walks backwards through `parents_map`. Each step yields one *level*, the set of recorded parents of the previous level. The walk stops at the first level none of whose vertices has a record. For every vertex it discovers, it also collects the discovered vertices the vertex is an ancestor-or-self of (its *descendants*).
- **Ancestry maps.** Each discovered vertex gets one.
  - A vertex of the deepest level is *seeded* with `{d: {v} for d in descendants(v)}`.
  - Every shallower vertex is seeded the same way. Its left and then its right parent's maps are then merged in by pointwise union.
  - Finally each vertex's own key is removed from its map.
- **Queries.**
  - `get_common_ancestors(a, b)` looks up the larger label's map under the smaller label.
  - `get_vertices_for_given_level(k)` returns the `k`-th level. Python's negative indices are allowed.

## What is proved

- **Ingestion.** A record appends its child to both parents' lists and stores the parents pair. A duplicate child leaves the appends in place and the parents map unchanged. Ingesting a whole sequence of records succeeds exactly when every child is new. Afterwards the two maps describe the same records: each child appears under `p` exactly as many times as it names `p`.
- **Line parsing.** A line that does not parse changes nothing. Parsing a formatted record gives the record back.
- **Merging.** The merge is a pointwise union. It is idempotent, and the left-then-right order gives the same map as right-then-left.
- **Build.**
  - The levels are exactly the parent generations of the probands.
  - The descendant sets are exactly the discovered descendants-or-self.
  - After the diagonal is removed, each vertex `v`'s map holds, for each other discovered vertex `k`, exactly the discovered vertices that are ancestors-or-self of both `v` and `k`. Key `k` is present exactly when `k` is a discovered vertex other than `v` and that set is non-empty. A label that was never discovered is never a key, even when it shares a discovered ancestor with `v`.
- **Queries.**
  - A query on two distinct discovered vertices answers exactly that set. A query whose larger label is a vertex but whose smaller label was never discovered answers the empty set.
  - It is an error only when the larger label is not a vertex.
  - It is symmetric in its two arguments.
- **Build failures.** The build fails on an empty proband list. It also fails on a vertex outside the last level that has no record. In both places Python raises an exception.

## Where the code and the design description disagree (the model follows the code)

- **Closest ancestors.** The design describes the answer as the *closest* (dominance-minimal) common ancestors. The merge in `graph.py` is a plain union with no exclusion step, so a query answers *all* common ancestors-or-self. For example, with records (5,3,4), (6,3,4), (7,5,6), the query (7,5) answers {3,4,5} (`PedigreeExample.SiblingsQueries`).
- **The `-1` sentinel.** The design treats a parent written `-1` as "unknown". The code stores it as an ordinary label. With records (3,-1,-1) and (4,-1,-1) added, the query (3,4) answers {-1}, not {} (`PedigreeExample.SentinelQuery`).
- **Unknown labels in a query.** The design fails a query when either label is unknown. The code fails only when the larger label is not a vertex. An unknown smaller label gives the empty answer.
- **Unknown probands.** The design requires every proband to be a known individual and reports an unknown one as such. The code has no such check. A proband without a record (unknown, or a known founder) is accepted only when no proband has a record: then there is a single level and the proband becomes a vertex with no parents. Otherwise level 0 is not the last level, and the build fails with `MissingParents` (the `KeyError` of graph.py:100), not with an unknown-proband error. The vertex reported is one without a record in the deepest such level below the last, because graph.py:97 builds the levels deepest first. It need not be the proband: with records (7,5,6) and (5,3,4) and probands [7, 99], vertex 6 is reported and 99 never is.
- **A vertex reached at two depths.** The design promises that a vertex reached by paths of different lengths appears once, at the deepest level. The code adds it to every level it is reached at. Then one of its founder ancestors lies outside the last level, so the build fails with `MissingParents`. `PedigreeGraph.LevelsDisjoint` proves the contrapositive: in every build that succeeds, no label is in two levels.
- **Duplicate children.** The design says a duplicate child aborts cleanly. The code appends the child to both parents' children lists before its duplicate check.

## Model

| member | source | states |
|---|---|---|
| Pedigrees.Pedigree.constructor | graph.py:2-4 | a new pedigree has empty children and parents maps |
| Pedigrees.AddChildTo | graph.py:6-10 | adding a child appends it to the end of the parent's list (a singleton list for a new parent), adds only that key and keeps every other list |
| Pedigrees.Pedigree.AddChild | graph.py:6-10 | the children map becomes `AddChildTo` of the old one; the parents map is unchanged |
| Pedigrees.Pedigree.AddRecord | graph.py:14-18 | the child is appended to both parents' lists; the outcome passes iff the child had no record; on a duplicate the error names the child and the parents map is unchanged; otherwise the child's parents pair is stored |
| Pedigrees.ConvertAll | graph.py:13 | the fields convert iff every field converts; on success each number is its field's conversion; a failure names the first field, left to right, that does not convert |
| Pedigrees.ParseLine | graph.py:13 | a line parses iff it has exactly three fields and each converts; the record holds the three conversions in order; a conversion error names the first field that does not convert; a field-count error reports the count, and only after every field converted |
| Pedigrees.ParseFormatLine | graph.py:13 | a record written as three space-separated spellings plus a newline parses back to the same record |
| Pedigrees.ParseThreeFields | graph.py:13 | a line whose fields are three spellings of the record's numbers parses to that record |
| Pedigrees.FieldsOfFormatLine | graph.py:13 | stripping and splitting a formatted record gives back its three spellings |
| LineFormat.StripNewlines | graph.py:13 | `strip('\n')` removes only newline characters, and only from the two ends, and leaves neither end a newline |
| LineFormat.Split | graph.py:13 | `split(' ')` gives at least one field, no field holds a space, and joining the fields with spaces gives the text back |
| LineFormat.SplitJoin | graph.py:13 | splitting a join of space-free fields gives the fields back |
| Pedigrees.Pedigree.AddLineFromPedigree | graph.py:12-18 | a line that does not parse returns its parse error and changes nothing; a parsed line has `AddRecord`'s effect and outcome |
| Pedigrees.Pedigree.AddRecords | graph.py:24-25 | adding records in order, stopping at the first failure, leaves the maps and outcome that `IngestAll` gives |
| Pedigrees.IngestAllOutcome | graph.py:14-18 | ingesting a sequence succeeds iff no record names a child that already has parents or that an earlier record names; a failure names the child of one of the records |
| Pedigrees.IngestAllParents | graph.py:14-18 | after a successful ingestion the children with records are the old ones plus the records' children, old entries are kept and every record's child has that record's parents |
| Pedigrees.AddRecordConsistent | graph.py:14-18 | adding a new child's record keeps the children lists consistent with the parents map |
| Pedigrees.RecordCount | graph.py:14-18 | after a new child's record, each child appears in `p`'s list exactly as often as it names `p` as a parent (twice when both parents are `p`) |
| Pedigrees.IngestAllConsistent | graph.py:14-18 | a successful ingestion keeps the two maps consistent |
| Ancestry.Vertex.constructor | graph.py:32-34 | a new vertex has the given label and an empty ancestry map |
| Ancestry.Seed | graph.py:36-37 | the seeded map has exactly the descendants as keys, and each holds just the vertex's own label |
| Ancestry.Vertex.SetAncestryDictionaryForSourceVertex | graph.py:36-37 | the vertex's map becomes the seed of its label and the descendants |
| Ancestry.Merge | graph.py:39-44 | the merged map has the keys of both maps, and each key holds the union of what both maps hold for it |
| Ancestry.Vertex.UpdateAncestryDictionary | graph.py:39-44 | after the loop over the parent's entries the map is the merge of the old map and the parent's old map, including when the parent is the vertex itself |
| Ancestry.MergeIdempotent | graph.py:39-44 | merging the same parent map a second time changes nothing |
| Ancestry.MergeSelf | graph.py:39-44 | merging a map into itself changes nothing |
| Ancestry.MergeCommutes | graph.py:46-49 | merging the left and then the right parent gives the same map as the opposite order |
| Ancestry.Vertex.SetAncestryDictionaryGivenParents | graph.py:46-49 | the map becomes the seed merged with the left and then the right parent's map; a parent that is the vertex contributes the map as it stands at that point |
| Lineage.ParentIsAncestor | graph.py:79-87 | each recorded parent of a child is an ancestor-or-self of the child |
| Lineage.AncestorTransitive | graph.py:79-87 | ancestor-or-self of an ancestor-or-self is an ancestor-or-self |
| Lineage.AncestorRankBelow | graph.py:75-88 | on an acyclic pedigree a proper ancestor has a strictly smaller rank, so no vertex is its own proper ancestor |
| Lineage.NextLevel | graph.py:77-80 | the next level holds both parents of every recorded member, and each of its labels is a parent of some recorded member |
| Lineage.NextLevelBelow | graph.py:75-88 | each level lowers the rank bound, so on an acyclic pedigree the level loop ends |
| Lineage.LevelsFromIsLevelSequence | graph.py:75-88 | the generations form a level sequence: the first is the start, each next is the parents of the one before, none is empty, the last has no recorded parents |
| Lineage.LastLevelIff | graph.py:75-88 | a level records no parents exactly when it is the last one |
| Lineage.LevelSequenceParentClosed | graph.py:75-88 | every recorded parent of a discovered vertex is discovered |
| Lineage.AncestorsStayInside | graph.py:75-88 | every ancestor of a discovered vertex is discovered |
| Lineage.ElementsOf | graph.py:71 | `set(probands)` holds exactly the labels of the list |
| Expansion.SeedProbands | graph.py:72-74 | each proband's descendant set starts as the proband alone, and only probands have one |
| Expansion.ExpandLevel | graph.py:77-87 | one pass over a level returns the level's recorded parents, adds them as keys, keeps every descendant set sound, and leaves each vertex either closed or pending in the next level |
| Expansion.ExpandDone | graph.py:77-87 | when no child of the level is left, the loop invariant gives the level pass's postcondition |
| Expansion.ClosedChain | graph.py:82-87 | when every vertex has passed its descendants on, an ancestor's descendant set contains its descendant's |
| Expansion.LevelsOfStart | graph.py:69-76 | there are no levels iff there are no probands, and the first level is the set of probands |
| Expansion.LevelsOfSequence | graph.py:69-88 | the levels from the probands form a level sequence |
| Expansion.ExpandLevels | graph.py:69-88 | the loop returns exactly the parent generations, the first being `set(probands)`; the descendant keys are the discovered vertices, and each holds exactly the discovered vertices it is an ancestor-or-self of |
| Expansion.DescendantsExact | graph.py:69-88 | when the frontier empties, the levels are the generations and each descendant set is exact |
| AncestryTable.AncestryOfIsCommonAncestors | graph.py:90-103 | the seed-and-merge construction holds under key `k` exactly the discovered common ancestors-or-self of the vertex and `k`, and has key `k` iff that set is non-empty |
| PedigreeGraph.TableEntry | graph.py:90-103 | the target table seeds a vertex without a record and merges its parents' entries into the seed otherwise |
| PedigreeGraph.OwnKey | graph.py:104-106 | every vertex's map has its own label as a key, so the diagonal `pop` cannot fail |
| PedigreeGraph.SeedLastLevel | graph.py:90-95 | every vertex of the deepest level gets a fresh vertex holding its seed |
| PedigreeGraph.NewChildVertex | graph.py:99-103 | a new vertex holds the seed merged with its left and then its right parent's map |
| PedigreeGraph.BuildLevel | graph.py:98-103 | a level builds iff every member has a record; a missing record is reported for a member of the level; on success the new vertices hold their target maps and no other vertex changes |
| PedigreeGraph.BuildDeepestLevel | graph.py:90-95 | the vertices of the deepest level hold their target maps |
| PedigreeGraph.BuildShallowerLevel | graph.py:97-103 | a shallower level builds iff every member has a record; each of its vertices then holds its target map, and a missing record is reported for a member of the level |
| PedigreeGraph.BuildVertices | graph.py:90-103 | building succeeds iff every vertex outside the last level has a record; otherwise the reported vertex has no record and lies in the deepest level below the last that has such a vertex, where the `KeyError` is raised; on success every discovered vertex holds its target map |
| PedigreeGraph.LevelsDisjoint | graph.py:75-103 | when every vertex outside the last level has a record, no label is in two levels, so a successful build never builds a label twice |
| PedigreeGraph.RemoveDiagonal | graph.py:104-106 | each vertex's map loses exactly its own key |
| PedigreeGraph.Other | graph.py:119-120 | `first + second - max` is the smaller label, and `Max` is the larger |
| PedigreeGraph.Graph.constructor | graph.py:60-64 | the graph stores the given vertices, levels and both adjacency maps |
| PedigreeGraph.Graph.GetGraphFromPedigreeAndProbands | graph.py:66-107 | the build fails with `NoProbands` iff the probands are empty; it succeeds iff every vertex outside the last level has a record; a `MissingParents` failure names a vertex without a record in the deepest level below the last that has one; on success the levels are the generations and the vertices form the index |
| PedigreeGraph.Graph.IndexLevels | graph.py:89-107 | from exact levels and descendant sets, the build either reports a vertex with no record from the deepest level below the last that has one, or returns a graph whose vertices form the index |
| PedigreeGraph.Graph.TableIndexes | graph.py:104-107 | vertices holding the target maps minus their own keys form the index |
| PedigreeGraph.Graph.GetVerticesForGivenLevel | graph.py:109-110 | a level index succeeds iff it is in range, counting negative indices from the end, and otherwise reports the index |
| PedigreeGraph.Graph.LevelsAnswer | graph.py:109-110 | level 0 is the set of probands, each later level is the recorded parents of the one before, and no vertex of the last level has a record |
| PedigreeGraph.Graph.LevelsAreVertices | graph.py:109-110 | every level in range, counted from either end, is a non-empty set of vertices |
| PedigreeGraph.Graph.GetCommonAncestors | graph.py:118-123 | a query fails iff the larger label is not a vertex, and the error names it |
| PedigreeGraph.Graph.IndexEntries | graph.py:118-123 | no vertex's map has its own key; key `k` is present iff `k` is another discovered vertex sharing a discovered common ancestor-or-self, and then it holds all of them |
| PedigreeGraph.Graph.CommonAncestorsAnswer | graph.py:118-123 | a query answers the error for an unknown larger label, all common ancestors-or-self for two distinct vertices, and the empty set otherwise |
| PedigreeGraph.Graph.QuerySymmetric | graph.py:118-123 | swapping the two labels gives the same answer |
| PedigreeExample.AddFamily | graph.py:12-18 | ingesting (5,3,4), (6,3,4) and (7,5,6) records those three parent pairs |
| PedigreeExample.IngestWithSentinel | graph.py:12-18 | ingesting the five records with the `-1` parents records all of them |
| PedigreeExample.SiblingsLevels | graph.py:69-88 | from proband 7 the levels are {7}, {5,6}, {3,4} |
| PedigreeExample.SentinelLevels | graph.py:69-88 | with the `-1` records the levels are {7}, {5,6}, {3,4}, {-1} |
| PedigreeExample.SiblingsShareFounders | graph.py:118-123 | siblings 5 and 6 share exactly {3,4} |
| PedigreeExample.ChildSharesWithParent | graph.py:118-123 | 7 and its parent 5 share {3,4,5}: the answer is not restricted to the closest ancestor |
| PedigreeExample.FoundersShareNothing | graph.py:118-123 | the founders 3 and 4 share nothing |
| PedigreeExample.FoundersShareSentinel | graph.py:118-123 | with the `-1` records, 3 and 4 share the label -1 |
| PedigreeExample.SiblingsGraph | graph.py:66-107 | building from proband 7 gives levels {7}, {5,6}, {3,4}, vertices {3,...,7} and an index |
| PedigreeExample.SiblingsQueries | graph.py:118-123 | the queries (5,6), (3,4), (7,5) and (9,3) answer {3,4}, {}, {3,4,5} and the unknown-vertex error for 9 |
| PedigreeExample.SentinelGraph | graph.py:66-107 | building with the `-1` records discovers {-1,3,...,7} and gives an index |
| PedigreeExample.SentinelQuery | graph.py:118-123 | with the `-1` records, the query (3,4) answers {-1} |

## Left out

- `Pedigree.get_pedigree_from_file` (graph.py:20-27): the file opening, reading and closing are I/O. Its loop over records is `Pedigree.AddRecords`.
- Python's `int(str(...))` is the function parameter `toInt`. A text it rejects is `NotAnInteger`, so the actual grammar of integer literals is not modelled.
- `main.py` is not part of this model: it holds interactive input, timing and printing.
- `get_children_of_given_vertex` and `get_parents_of_given_vertex` (graph.py:112-116) are not modelled. The first is a bare dictionary lookup. The second calls the dictionary as a function and so fails on every call.
- `Vertex.__eq__` and `__hash__` (graph.py:51-55) are Python object protocol. Vertices are keyed by label in a map instead.
- Ancestry.Vertex.constructor: the initial `ancestry_map = []` (graph.py:34) is modelled as an empty map. Every path through the builder seeds the map before using it.
- PedigreeGraph.Graph.GetCommonAncestors: returns a value. In Python the caller receives the set stored in the index, so mutating it would change the index; that aliasing is not modelled. The empty `[]` returned for a missing key is modelled as the empty set.
- Ancestry maps are values, not shared mutable sets. No set in them is ever shared between two vertices: a seed builds fresh sets and a merge copies the sets it takes over.
- The pedigree maps that the graph stores are the pedigree's own dictionaries. That sharing is modelled as equal values, not as aliasing.
- Set iteration order: the loops pick elements in an unspecified order. Every proved result is independent of that order.
- PedigreeGraph.Graph.GetGraphFromPedigreeAndProbands: requires the whole pedigree to be acyclic, through the ghost `rank` precondition `Ranked`. The code only needs the probands' ancestors to be acyclic. A cycle among them makes the loop at graph.py:75 run forever, which the model does not capture. A cycle elsewhere is never visited, yet the model excludes it too.
- Python `assert` at graph.py:17 is modelled as the `DuplicateChild` failure. The model does not capture that running Python with `-O` disables the check.
- Exceptions are modelled as `Failure`/`Fail` results: `IndexError` on empty probands, `KeyError` at graph.py:100 and graph.py:121, `ValueError` from parsing.
