# Traverse: contracting two-hop paths in one map/reduce step

This project models the `Traverse` step of the Faunus graph engine in Dafny and proves properties of the model. The step runs over a property graph in which every vertex stores its own copy of its inbound and outbound edges. It finds the two-hop paths that match a configured pattern `(firstDirection, firstLabel)` then `(secondDirection, secondLabel)`. It adds one derived edge labelled `newLabel` for each such path. Under the `PRUNE` action it also drops the original edges that carry either pattern label.

The step has two halves, joined by a tagged-record shuffle:

- **The mapper** (`Traverse.Map.map`) handles one vertex at a time. It writes:
  - a `'v'` holder with the vertex's id and properties;
  - the original edges that survive retention, as `'i'` and `'o'` holders keyed by the vertex's id;
  - for each pair `(f, s)` of the first frontier × the second frontier, the edge `f -[newLabel]-> s` twice: as `'o'` under `f` and as `'i'` under `s`.

  Each pair adds two to the edges-created counter. A direction other than `IN` or `OUT` in either pattern is fatal.
- **The reducer** (`Traverse.Reduce.reduce`) folds the holders delivered under one key into one vertex:
  - `'v'` sets the properties;
  - `'i'` and `'o'` append to the inbound and outbound adjacency;
  - any other tag is fatal.

Modules:

- `Graph` (graph.dfy): vertex ids, opaque property values, `Direction` (`IN | OUT | BOTH`), `Edge`, `Vertex`.
- `Failures` (failures.dfy): the fatal errors and a failure-compatible `Result`.
- `TraverseConfig` (config.dfy): the configuration that `Map.setup` reads, as an immutable record.
- `Records` (records.dfy): the shuffle payload, a `Holder(tag, element)` keyed by a destination vertex id.
- `Emitter` (emitter.dfy): the mapper as a pure function `Emit`, with the retention rule, the two frontiers, the Cartesian product, and the lemmas about them.
- `EmitterLoops` (emitter_loops.dfy): the frontier and product loops of the mapper, written as the source writes them. The frontiers are filled edge by edge, and a nested loop runs over the two frontier sets and counts. The retained-edge loops are not repeated here: `EmitRecords` reuses the recursive function `Emitter.Reemit` for them. Unlike the source, `EmitRecords` checks both directions before it writes any record. Each method is proved to produce the records of `Emit`.
- `Merger` (merger.dfy): the reducer as a left fold `Merge`, with its adjacency, properties, failure and order-independence lemmas.
- `Pass` (pass.dfy): a whole pass. It covers the map phase over all vertices, any order of the shuffled records, grouping by key and reducing. End-to-end lemmas connect the three stages.

## Model

| member | source | states |
|---|---|---|
| Emitter.Reemit | src/main/java/com/thinkaurelius/faunus/mapreduce/steps/Traverse.java:69-84 | Every re-emitted record is keyed by the vertex id, has the side's tag, carries an edge and is retained. Each edge is re-emitted as often as it is stored when the action keeps it, and never otherwise. |
| Emitter.RetentionLaw | src/main/java/com/thinkaurelius/faunus/mapreduce/steps/Traverse.java:70-84 | With KEEP every original inbound (outbound) edge is emitted as 'i' ('o') under the vertex id, with its multiplicity. With PRUNE an edge is emitted exactly when its label is neither pattern label. |
| Emitter.FirstFrontier | src/main/java/com/thinkaurelius/faunus/mapreduce/steps/Traverse.java:86-96 | OUT gives exactly the tails of the inbound edges labelled firstLabel. IN gives exactly the heads of the outbound ones. Any other direction fails with IllegalDirection. |
| Emitter.SecondFrontier | src/main/java/com/thinkaurelius/faunus/mapreduce/steps/Traverse.java:100-110 | The sides are transposed: OUT gives the heads of the outbound edges labelled secondLabel, IN the tails of the inbound ones, and any other direction fails. |
| Emitter.Emit | src/main/java/com/thinkaurelius/faunus/mapreduce/steps/Traverse.java:62-123 | The mapper fails exactly when either pattern direction is BOTH, with IllegalDirection(BOTH), and then writes nothing. |
| Emitter.EmitsOneSelfRecord | src/main/java/com/thinkaurelius/faunus/mapreduce/steps/Traverse.java:66-67 | Exactly one 'v' record is emitted. It is keyed by the vertex id and carries that id and the vertex's properties, with no edges. |
| Emitter.PrunedEdgeStillFeedsFrontier | src/main/java/com/thinkaurelius/faunus/mapreduce/steps/Traverse.java:70-93 | Under PRUNE an inbound firstLabel edge is not re-emitted, yet its tail is in the first frontier: frontiers read the unfiltered edges. |
| Emitter.RowCount | src/main/java/com/thinkaurelius/faunus/mapreduce/steps/Traverse.java:114-115 | One first-frontier id yields exactly one derived edge per second-frontier id. |
| Emitter.ProductCount | src/main/java/com/thinkaurelius/faunus/mapreduce/steps/Traverse.java:113-115 | The product of frontiers F and S yields exactly \|F\|·\|S\| distinct derived edges. |
| Emitter.RecordCount | src/main/java/com/thinkaurelius/faunus/mapreduce/steps/Traverse.java:116-119 | The two copies of n derived edges are 2n distinct records. |
| Emitter.DerivedEmissionCount | src/main/java/com/thinkaurelius/faunus/mapreduce/steps/Traverse.java:113-121 | A vertex yields \|F\|·\|S\| derived edges and 2·\|F\|·\|S\| derived records. |
| Emitter.DerivedEmissionContent | src/main/java/com/thinkaurelius/faunus/mapreduce/steps/Traverse.java:113-119 | A record is derived exactly when it is the 'o' copy under f, or the 'i' copy under s, of `f -[newLabel]-> s` for some frontier pair (f, s). |
| Emitter.EdgeRecordOrigin | src/main/java/com/thinkaurelius/faunus/mapreduce/steps/Traverse.java:70-119 | Every emitted edge record is one of two things. It is a retained original edge under the vertex id, with the tag of the side it was stored on. Or it is a copy of a derived edge. |
| Emitter.EmittedHoldersAreLegal | src/main/java/com/thinkaurelius/faunus/mapreduce/steps/Traverse.java:67-119 | Every holder the mapper writes is legal for the reducer: a 'v' tag, or an 'i'/'o' tag carrying an edge. |
| Emitter.KnowsLikesScenario | src/main/java/com/thinkaurelius/faunus/mapreduce/steps/Traverse.java:86-119 | A worked example. Vertex 1 has `2 -knows-> 1` and `1 -likes-> 3`, with OUT/OUT and PRUNE. The frontiers are {2} and {3}, both originals are pruned, and `2 -knows_likes-> 3` is emitted to 2 and to 3. |
| EmitterLoops.CollectEnds | src/main/java/com/thinkaurelius/faunus/mapreduce/steps/Traverse.java:87-89 | The edge-by-edge loop collects exactly the ids at the requested end of the edges with the requested label. |
| EmitterLoops.CollectFirstFrontier | src/main/java/com/thinkaurelius/faunus/mapreduce/steps/Traverse.java:86-96 | The loop version of the first frontier, including its error branch, equals the set-comprehension definition. |
| EmitterLoops.CollectSecondFrontier | src/main/java/com/thinkaurelius/faunus/mapreduce/steps/Traverse.java:100-110 | The loop version of the second frontier, including its error branch, equals the set-comprehension definition. |
| EmitterLoops.EmitRow | src/main/java/com/thinkaurelius/faunus/mapreduce/steps/Traverse.java:114-121 | The inner loop writes exactly both copies of every edge from f to the second frontier, in any order. The counter equals the number of records written. |
| EmitterLoops.EmitProduct | src/main/java/com/thinkaurelius/faunus/mapreduce/steps/Traverse.java:113-122 | The nested loop writes exactly the derived records of the product, as a multiset, whatever order the sets yield their members in. The counter ends at 2·\|F\|·\|S\|. |
| EmitterLoops.EnumerationCount | src/main/java/com/thinkaurelius/faunus/mapreduce/steps/Traverse.java:113-121 | Any enumeration of the derived records has 2·\|F\|·\|S\| entries. |
| EmitterLoops.EmitRecords | src/main/java/com/thinkaurelius/faunus/mapreduce/steps/Traverse.java:62-123 | The mapper fails exactly when either direction is BOTH, with IllegalDirection(BOTH) and a zero count. Otherwise it writes the self record, then the retained inbound and outbound edges in stored order, then the derived records of Emit in some order. The counter equals the number of derived records, 2·\|F\|·\|S\|. |
| EmitterLoops.EmissionAssembled | src/main/java/com/thinkaurelius/faunus/mapreduce/steps/Traverse.java:66-121 | An output with that layout holds, as a multiset, exactly the records of the emission, whatever order the derived records take. |
| Merger.Absorb | src/main/java/com/thinkaurelius/faunus/mapreduce/steps/Traverse.java:131-140 | One holder is absorbed exactly when it is legal, and absorbing it keeps the vertex's id. Otherwise the fold stops with the holder's rejection: NotAnEdge for an 'i'/'o' holder that carries no edge, IllegalTag for any other tag. |
| Merger.Merge | src/main/java/com/thinkaurelius/faunus/mapreduce/steps/Traverse.java:128-143 | The reducer yields one vertex exactly when every holder is legal, and that vertex's id is the key. |
| Merger.MergeRejectsFirstIllegal | src/main/java/com/thinkaurelius/faunus/mapreduce/steps/Traverse.java:130-140 | A failing reducer reports the rejection of the first illegal holder in delivery order. |
| Merger.MergeCollectsEdges | src/main/java/com/thinkaurelius/faunus/mapreduce/steps/Traverse.java:134-137 | The merged inbound (outbound) adjacency, as a multiset, equals the multiset of edges carried by 'i' ('o') holders. |
| Merger.MergeCountsEdge | src/main/java/com/thinkaurelius/faunus/mapreduce/steps/Traverse.java:134-137 | For one edge: its count in the merged inbound (outbound) adjacency equals the number of 'i' ('o') holders carrying it. |
| Merger.MergeKeepsLastProperties | src/main/java/com/thinkaurelius/faunus/mapreduce/steps/Traverse.java:129-133 | With no 'v' holder the properties stay empty. Otherwise they are the properties of the last 'v' holder delivered. |
| Merger.MergedPropertiesOrigin | src/main/java/com/thinkaurelius/faunus/mapreduce/steps/Traverse.java:129-133 | The merged properties are empty when there is no 'v' holder. Otherwise they are those of some 'v' holder that was delivered. |
| Merger.MergeOrderIndependent | src/main/java/com/thinkaurelius/faunus/mapreduce/steps/Traverse.java:128-143 | Any two deliveries of the same multiset of holders both fail or both succeed. If the 'v' holders agree, the two results have equal id and properties and the same adjacency multisets. |
| Merger.ConflictingSelvesDependOnOrder | src/main/java/com/thinkaurelius/faunus/mapreduce/steps/Traverse.java:132-133 | Without agreeing 'v' holders the order matters. Two 'v' holders for key 1, one with property k and one with none, leave different properties depending on which is delivered last. |
| Pass.EmitAll | src/main/java/com/thinkaurelius/faunus/mapreduce/steps/Traverse.java:94-96 | The map phase over a non-empty input fails, and so produces no output, exactly when either direction is BOTH. |
| Pass.Group | src/main/java/com/thinkaurelius/faunus/mapreduce/steps/Traverse.java:128 | The reducer of a key receives each holder as many times as it was emitted under that key. |
| Pass.EmittedByOne | src/main/java/com/thinkaurelius/faunus/mapreduce/steps/Traverse.java:62 | A record is in the map phase's output exactly when the mapper of some input vertex wrote it. |
| Pass.ReduceSucceeds | src/main/java/com/thinkaurelius/faunus/mapreduce/steps/Traverse.java:138-140 | After a successful map phase no reducer reaches its illegal-tag branch. Each yields a vertex whose id is its key. |
| Pass.DerivedEdgeAtBothEndpoints | src/main/java/com/thinkaurelius/faunus/mapreduce/steps/Traverse.java:115-119 | Every derived edge ends up in the outbound adjacency of its tail and in the inbound adjacency of its head. |
| Pass.PropertiesSurviveThePass | src/main/java/com/thinkaurelius/faunus/mapreduce/steps/Traverse.java:66-67 | When ids are unique, every input vertex leaves the pass with exactly its input properties. |
| Pass.OrphanKeyHasNoProperties | src/main/java/com/thinkaurelius/faunus/mapreduce/steps/Traverse.java:129-133 | A key that receives holders but that no input vertex owns yields a vertex with empty properties, not an error. |
| Pass.KeepRetainsOriginalEdges | src/main/java/com/thinkaurelius/faunus/mapreduce/steps/Traverse.java:70-80 | With KEEP, after the pass every vertex's inbound (outbound) adjacency contains its original inbound (outbound) edges, as a multiset: each stored copy survives. |
| Pass.PruneDropsPatternEdges | src/main/java/com/thinkaurelius/faunus/mapreduce/steps/Traverse.java:73-81 | With PRUNE, an edge with a pattern label (but not the new label, so it cannot be re-derived) is in no vertex's adjacency after the pass. |

## Left out

- Hadoop plumbing is not modelled: `Context.write`, `LongWritable`/`NullWritable`, and the reused `longWritable`/`edgeHolder`/`vertexHolder` buffers. The mapper returns its records instead of writing them.
- `WritableUtils.clone` is modelled as the identity. Serialisation across the shuffle is not modelled.
- The shuffle is not code of the step. `Pass.Shuffled` states it as "the records are the map phase's output in some order", and `Pass.Group` as selection by key.
- `Pass.Reduce` is defined for every key, but the source's reducer runs only for keys that receive at least one holder. For a key that receives nothing, `Pass.Reduce` yields an empty vertex the source never writes. The pass lemmas say nothing about such keys beyond `Reduce` succeeding. `Pass.OrphanKeyHasNoProperties` requires the key to receive a holder.
- `Merger.MergeOrderIndependent` requires all 'v' holders of a key to agree on their properties. With distinct vertex ids they do. When two 'v' holders with different properties reach one key, the result depends on the shuffle's order (`Merger.ConflictingSelvesDependOnOrder`).
- `Map.setup` reads and parses configuration strings with `Direction.valueOf` and `Tokens.Action.valueOf`. That parsing is library code: the model takes an already-parsed `TraverseConfig.Config`. A missing configuration key, which makes `valueOf` throw or leaves a label null, is not modelled.
- The edges-created counter is a returned count. Aggregating it across workers and retried attempts is not modelled.
- Hash-set iteration order is left unspecified. Frontiers are sets, derived records are a set in `Emit`, and the loop methods pick set members nondeterministically.
- Property values are opaque (`Graph.PropertyValue`).
- Vertex ids are unbounded integers. The source uses 64-bit `long` ids, but it only compares and copies them, so no overflow arises.
- The source writes the `'v'` record and the retained edges before it checks the directions and throws. A failed task's output is discarded and the pass aborts, so the model returns the error with no records.
- `FaunusVertex` keeps its adjacency grouped by label. The model uses one sequence per side, and every adjacency property is stated on multisets.
- `Holder` and `FaunusElement` are not part of this model. A `'v'` holder's properties are read from whatever element it carries. An `'i'`/`'o'` holder whose element is not an edge fails (the source's cast), as `NotAnEdge`.
- Emitter.Reemit: states the re-emitted records as a multiset plus their key, tag and retention, not their order in the output, because the shuffle does not preserve order.
- EmitterLoops.EmitRecords: states the derived records as a multiset, not their order, because the source enumerates hash sets.
- Direction is the graph library's three-valued enum. The step rejects `BOTH` at run time, inside the mapper, for each vertex (Traverse.java:94-96, 108-110), not when the configuration is read. The model does the same.
