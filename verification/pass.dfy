/** One whole pass of the step: the mapper over every vertex of the input,
    the shuffle that regroups the emitted holders by key in an arbitrary
    order, and the reducer on every key. The shuffle is not code of the step;
    it is stated here as the relation between what the mappers emit and what
    each reducer receives. */
module Pass {
  import opened Graph
  import opened Failures
  import opened TraverseConfig
  import opened Records
  import opened Emitter
  import opened Merger

  /** The map phase over the input vertices: all records written, or the
      fatal error, in which case the pass produces no output at all. */
  function EmitAll(c: Config, vs: seq<Vertex>): (r: Result<multiset<Emitted>>)
    ensures r.Failure? <==> |vs| > 0 && (c.firstDirection == BOTH || c.secondDirection == BOTH)
    ensures r.Failure? ==> r.error == IllegalDirection(BOTH)
  {
    if |vs| == 0 then
      Success(multiset{})
    else
      match Emit(c, vs[0])
      case Failure(err) => Failure(err)
      case Success(em) =>
        match EmitAll(c, vs[1..])
        case Failure(err) => Failure(err)
        case Success(rest) => Success(em.Records() + rest)
  }

  /** `records` is what the shuffle holds after the map phase: every emitted
      record exactly once per emission, in some order. */
  predicate Shuffled(c: Config, vs: seq<Vertex>, records: seq<Emitted>)
  {
    EmitAll(c, vs).Success? && multiset(records) == EmitAll(c, vs).value
  }

  /** The holders the shuffle delivers to the reducer of `key`. */
  function Group(records: seq<Emitted>, key: VertexId): (r: seq<Holder>)
    ensures forall h :: multiset(r)[h] == multiset(records)[Emitted(key, h)]
  {
    if |records| == 0 then
      []
    else
      assert records == [records[0]] + records[1..];
      (if records[0].key == key then [records[0].holder] else []) + Group(records[1..], key)
  }

  /** The reducer's output for `key`. */
  function Reduce(records: seq<Emitted>, key: VertexId): Result<Vertex>
  {
    Merge(key, Group(records, key))
  }

  /** The vertex ids of the input are unique. */
  predicate DistinctIds(vs: seq<Vertex>)
  {
    forall i, j :: 0 <= i < |vs| && 0 <= j < |vs| && vs[i].id == vs[j].id ==> i == j
  }

  /** A record is in the map phase's output exactly when some vertex's
      mapper wrote it. */
  lemma {:induction false} EmittedByOne(c: Config, vs: seq<Vertex>, x: Emitted)
    requires EmitAll(c, vs).Success?
    ensures x in EmitAll(c, vs).value <==> exists i :: 0 <= i < |vs| && x in Emit(c, vs[i]).value.Records()
    decreases |vs|
  {
    if |vs| != 0 {
      EmittedByOne(c, vs[1..], x);
      if exists i :: 0 <= i < |vs| - 1 && x in Emit(c, vs[1..][i]).value.Records() {
        var i :| 0 <= i < |vs| - 1 && x in Emit(c, vs[1..][i]).value.Records();
        assert vs[1..][i] == vs[i + 1];
      }
      if exists i :: 0 <= i < |vs| && x in Emit(c, vs[i]).value.Records() {
        var i :| 0 <= i < |vs| && x in Emit(c, vs[i]).value.Records();
        if i > 0 {
          assert vs[1..][i - 1] == vs[i];
        }
      }
    }
  }

  /** A holder the reducer of `key` receives was written under `key` by the
      mapper of some input vertex. */
  lemma DeliveredFrom(c: Config, vs: seq<Vertex>, records: seq<Emitted>, key: VertexId, h: Holder)
    requires Shuffled(c, vs, records)
    requires h in Group(records, key)
    ensures exists i :: 0 <= i < |vs| && Emitted(key, h) in Emit(c, vs[i]).value.Records()
  {
    assert multiset(Group(records, key))[h] > 0;
    EmittedByOne(c, vs, Emitted(key, h));
  }

  /** A record some mapper wrote reaches the reducer of its key. */
  lemma DeliveredTo(c: Config, vs: seq<Vertex>, records: seq<Emitted>, i: int, x: Emitted)
    requires Shuffled(c, vs, records)
    requires 0 <= i < |vs| && x in Emit(c, vs[i]).value.Records()
    ensures x.holder in Group(records, x.key)
  {
    EmittedByOne(c, vs, x);
    assert multiset(Group(records, x.key))[x.holder] == multiset(records)[x];
  }

  /** No reducer of a pass whose mappers succeeded fails: every holder the
      mappers write has a legal tag and payload. */
  lemma ReduceSucceeds(c: Config, vs: seq<Vertex>, records: seq<Emitted>, key: VertexId)
    requires Shuffled(c, vs, records)
    ensures Reduce(records, key).Success?
    ensures Reduce(records, key).value.id == key
  {
    forall h | h in Group(records, key)
      ensures Legal(h)
    {
      DeliveredFrom(c, vs, records, key, h);
      var i :| 0 <= i < |vs| && Emitted(key, h) in Emit(c, vs[i]).value.Records();
      EmittedHoldersAreLegal(c, vs[i]);
    }
  }

  /** An edge record some mapper wrote ends up in the adjacency of the
      vertex its key names, on the side its tag names. */
  lemma EdgeRecordLands(c: Config, vs: seq<Vertex>, records: seq<Emitted>, i: int, x: Emitted, e: Edge)
    requires Shuffled(c, vs, records)
    requires 0 <= i < |vs| && x in Emit(c, vs[i]).value.Records()
    requires x.holder == EdgeHolder(IN_TAG, e) || x.holder == EdgeHolder(OUT_TAG, e)
    ensures Reduce(records, x.key).Success?
    ensures x.holder.tag == IN_TAG ==> e in Reduce(records, x.key).value.inEdges
    ensures x.holder.tag == OUT_TAG ==> e in Reduce(records, x.key).value.outEdges
  {
    DeliveredTo(c, vs, records, i, x);
    ReduceSucceeds(c, vs, records, x.key);
    var g := Group(records, x.key);
    MergeCollectsEdges(x.key, g);
    assert multiset(g)[x.holder] > 0;
    if x.holder.tag == IN_TAG {
      assert multiset(Merge(x.key, g).value.inEdges)[e] > 0;
    } else {
      assert multiset(Merge(x.key, g).value.outEdges)[e] > 0;
    }
  }

  /** Every derived edge ends up in the outbound adjacency of its tail and in
      the inbound adjacency of its head: the two copies are never separated. */
  lemma DerivedEdgeAtBothEndpoints(c: Config, vs: seq<Vertex>, records: seq<Emitted>, i: int, e: Edge)
    requires Shuffled(c, vs, records)
    requires 0 <= i < |vs| && e in DerivedEdgesOf(c, vs[i])
    ensures Reduce(records, e.tail).Success? && e in Reduce(records, e.tail).value.outEdges
    ensures Reduce(records, e.head).Success? && e in Reduce(records, e.head).value.inEdges
  {
    var em := Emit(c, vs[i]).value;
    assert DerivedOut(e) in em.derived && DerivedIn(e) in em.derived;
    EdgeRecordLands(c, vs, records, i, DerivedOut(e), e);
    EdgeRecordLands(c, vs, records, i, DerivedIn(e), e);
  }

  /** The 'v' holders the reducer of `key` receives are the self records of
      the input vertices whose id is `key`. */
  lemma SelfHoldersComeFromVertices(c: Config, vs: seq<Vertex>, records: seq<Emitted>, key: VertexId, h: Holder)
    requires Shuffled(c, vs, records)
    requires h in Group(records, key) && h.tag == VERTEX_TAG
    ensures exists i :: 0 <= i < |vs| && vs[i].id == key && h == SelfRecord(vs[i]).holder
  {
    DeliveredFrom(c, vs, records, key, h);
    var i :| 0 <= i < |vs| && Emitted(key, h) in Emit(c, vs[i]).value.Records();
    EmitsOneSelfRecord(c, vs[i]);
  }

  /** Property preservation: when ids are unique, every input vertex comes
      out of the pass with exactly the properties it went in with. */
  lemma PropertiesSurviveThePass(c: Config, vs: seq<Vertex>, records: seq<Emitted>, i: int)
    requires Shuffled(c, vs, records) && DistinctIds(vs)
    requires 0 <= i < |vs|
    ensures Reduce(records, vs[i].id).Success?
    ensures Reduce(records, vs[i].id).value.properties == vs[i].properties
  {
    var key := vs[i].id;
    var g := Group(records, key);
    ReduceSucceeds(c, vs, records, key);
    EmitsOneSelfRecord(c, vs[i]);
    DeliveredTo(c, vs, records, i, SelfRecord(vs[i]));
    forall h | h in g && h.tag == VERTEX_TAG
      ensures PropertiesOf(h.element) == vs[i].properties
    {
      SelfHoldersComeFromVertices(c, vs, records, key, h);
    }
    MergedPropertiesOrigin(key, g);
  }

  /** A key that receives holders but that no input vertex owns, so that
      only derived edges reach it, yields a vertex with empty properties: the
      anomaly is not an error. */
  lemma OrphanKeyHasNoProperties(c: Config, vs: seq<Vertex>, records: seq<Emitted>, key: VertexId)
    requires Shuffled(c, vs, records)
    requires Group(records, key) != []
    requires forall i :: 0 <= i < |vs| ==> vs[i].id != key
    ensures Reduce(records, key).Success?
    ensures Reduce(records, key).value.properties == map[]
  {
    var g := Group(records, key);
    ReduceSucceeds(c, vs, records, key);
    forall h | h in g
      ensures h.tag != VERTEX_TAG
    {
      if h.tag == VERTEX_TAG {
        SelfHoldersComeFromVertices(c, vs, records, key, h);
      }
    }
    MergedPropertiesOrigin(key, g);
  }

  /** Every copy of a record that one mapper wrote is in the map phase's
      output: the outputs of the vertices add up. */
  lemma {:induction false} EmittedWithin(c: Config, vs: seq<Vertex>, i: int, x: Emitted)
    requires EmitAll(c, vs).Success? && 0 <= i < |vs|
    ensures Emit(c, vs[i]).value.Records()[x] <= EmitAll(c, vs).value[x]
    decreases |vs|
  {
    EmitAllStep(c, vs);
    var here := Emit(c, vs[0]).value.Records();
    var rest := EmitAll(c, vs[1..]).value;
    CountOfSum(here, rest, x);
    if i > 0 {
      EmittedWithin(c, vs[1..], i - 1, x);
      ShiftedVertex(c, vs, i);
    }
  }

  /** Vertex i of the input is vertex i - 1 of its tail. */
  lemma ShiftedVertex(c: Config, vs: seq<Vertex>, i: int)
    requires 0 < i < |vs|
    ensures vs[1..][i - 1] == vs[i]
    ensures Emit(c, vs[1..][i - 1]) == Emit(c, vs[i])
  {
  }

  /** The map phase over a non-empty input is the first vertex's records plus
      those of the rest. */
  lemma EmitAllStep(c: Config, vs: seq<Vertex>)
    requires EmitAll(c, vs).Success? && |vs| > 0
    ensures Emit(c, vs[0]).Success? && EmitAll(c, vs[1..]).Success?
    ensures EmitAll(c, vs).value == Emit(c, vs[0]).value.Records() + EmitAll(c, vs[1..]).value
  {
  }

  /** Counts add up in a multiset union. */
  lemma CountOfSum(a: multiset<Emitted>, b: multiset<Emitted>, x: Emitted)
    ensures (a + b)[x] == a[x] + b[x]
  {
  }

  /** Retention with KEEP: every original edge of every input vertex is still
      in that vertex's adjacency after the pass, on the same side and with at
      least as many copies as the vertex stored. */
  lemma KeepRetainsOriginalEdges(c: Config, vs: seq<Vertex>, records: seq<Emitted>, i: int)
    requires Shuffled(c, vs, records)
    requires c.action == KEEP && 0 <= i < |vs|
    ensures Reduce(records, vs[i].id).Success?
    ensures multiset(vs[i].inEdges) <= multiset(Reduce(records, vs[i].id).value.inEdges)
    ensures multiset(vs[i].outEdges) <= multiset(Reduce(records, vs[i].id).value.outEdges)
  {
    ReduceSucceeds(c, vs, records, vs[i].id);
    forall e
      ensures multiset(vs[i].inEdges)[e] <= multiset(Reduce(records, vs[i].id).value.inEdges)[e]
      ensures multiset(vs[i].outEdges)[e] <= multiset(Reduce(records, vs[i].id).value.outEdges)[e]
    {
      RetainedCopiesLand(c, vs, records, i, e, IN_TAG);
      RetainedCopiesLand(c, vs, records, i, e, OUT_TAG);
    }
  }

  /** One side of the KEEP law for one edge: each stored copy on side `tag`
      is re-emitted under the vertex's id and appended by its reducer. */
  lemma RetainedCopiesLand(c: Config, vs: seq<Vertex>, records: seq<Emitted>, i: int, e: Edge, tag: char)
    requires Shuffled(c, vs, records)
    requires c.action == KEEP && 0 <= i < |vs|
    requires tag == IN_TAG || tag == OUT_TAG
    ensures Reduce(records, vs[i].id).Success?
    ensures tag == IN_TAG ==> multiset(vs[i].inEdges)[e] <= multiset(Reduce(records, vs[i].id).value.inEdges)[e]
    ensures tag == OUT_TAG ==> multiset(vs[i].outEdges)[e] <= multiset(Reduce(records, vs[i].id).value.outEdges)[e]
  {
    var key := vs[i].id;
    var g := Group(records, key);
    var x := Emitted(key, EdgeHolder(tag, e));
    ReduceSucceeds(c, vs, records, key);
    RetentionLaw(c, vs[i], e);
    MergeCountsEdge(key, g, e);
    EmittedWithin(c, vs, i, x);
    var em := Emit(c, vs[i]).value;
    assert multiset(g)[x.holder] == multiset(records)[x];
    if tag == IN_TAG {
      assert multiset(em.inbound)[x] <= em.Records()[x];
    } else {
      assert multiset(em.outbound)[x] <= em.Records()[x];
    }
  }

  /** Retention with PRUNE: an edge labelled with a pattern label (and not
      with the new label, so it cannot be re-derived) is in no vertex's
      adjacency after the pass. */
  lemma PruneDropsPatternEdges(c: Config, vs: seq<Vertex>, records: seq<Emitted>, key: VertexId, e: Edge)
    requires Shuffled(c, vs, records)
    requires c.action == PRUNE
    requires e.edgeLabel == c.firstLabel || e.edgeLabel == c.secondLabel
    requires e.edgeLabel != c.newLabel
    ensures Reduce(records, key).Success?
    ensures e !in Reduce(records, key).value.inEdges && e !in Reduce(records, key).value.outEdges
  {
    var g := Group(records, key);
    ReduceSucceeds(c, vs, records, key);
    MergeCollectsEdges(key, g);
    forall tag | tag == IN_TAG || tag == OUT_TAG
      ensures EdgeHolder(tag, e) !in g
    {
      if EdgeHolder(tag, e) in g {
        DeliveredFrom(c, vs, records, key, EdgeHolder(tag, e));
        var i :| 0 <= i < |vs| && Emitted(key, EdgeHolder(tag, e)) in Emit(c, vs[i]).value.Records();
        EdgeRecordOrigin(c, vs[i], Emitted(key, EdgeHolder(tag, e)));
      }
    }
    assert multiset(g)[EdgeHolder(IN_TAG, e)] == 0 && multiset(g)[EdgeHolder(OUT_TAG, e)] == 0;
  }
}
