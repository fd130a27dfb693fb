/** The mapper as the source writes it: frontier sets filled edge by edge,
    and a nested loop over the two frontiers (in whatever order the hash sets
    yield their members) that writes both copies of each derived edge and
    bumps the edges-created counter by two per pair. Each method is proved to
    produce exactly the records of the functional model in module Emitter. */
module EmitterLoops {
  import opened Graph
  import opened Failures
  import opened TraverseConfig
  import opened Records
  import opened Emitter

  /** Fills a frontier from the edges of `es` labelled `wanted`, taking each
      edge's id at end `end`. */
  method CollectEnds(es: seq<Edge>, wanted: string, end: Direction) returns (ids: set<VertexId>)
    requires end != BOTH
    ensures forall x :: x in ids <==> exists e :: e in es && e.edgeLabel == wanted && e.VertexAt(end) == x
    ensures ids == Ends(es, wanted, end)
  {
    ids := {};
    for i := 0 to |es|
      invariant ids == Ends(es[..i], wanted, end)
    {
      assert es[..i + 1] == es[..i] + [es[i]];
      if es[i].edgeLabel == wanted {
        ids := ids + {es[i].VertexAt(end)};
      }
    }
    assert es[..|es|] == es;
  }

  /** Adding one edge to a set of derived edges adds exactly its two copies. */
  lemma AddDerivedEdge(done: set<Edge>, e: Edge)
    requires e !in done
    ensures multiset(DerivedRecords(done + {e}))
            == multiset(DerivedRecords(done)) + multiset{DerivedOut(e), DerivedIn(e)}
  {
    var before := DerivedRecords(done);
    assert DerivedRecords(done + {e}) == before + {DerivedOut(e), DerivedIn(e)};
    assert DerivedOut(e) !in before && DerivedIn(e) !in before;
    assert DerivedOut(e) != DerivedIn(e);
  }

  /** The copies of disjoint sets of derived edges are disjoint. */
  lemma JoinDerivedEdges(a: set<Edge>, b: set<Edge>)
    requires a !! b
    ensures multiset(DerivedRecords(a + b)) == multiset(DerivedRecords(a)) + multiset(DerivedRecords(b))
  {
    var ra, rb := DerivedRecords(a), DerivedRecords(b);
    assert DerivedRecords(a + b) == ra + rb;
    assert ra !! rb by {
      forall x | x in ra
        ensures x !in rb
      {
        var e :| e in a && (x == DerivedOut(e) || x == DerivedIn(e));
        assert x.holder.element.edge == e;
      }
    }
    assert forall x :: multiset(ra + rb)[x] == multiset(ra)[x] + multiset(rb)[x];
  }

  /** One row of the nested loop: the derived edges from `f` to every id of
      `second`, each written outbound under f and inbound under its head, two
      counter increments per edge. */
  method EmitRow(f: VertexId, second: set<VertexId>, newLabel: string) returns (row: seq<Emitted>, created: nat)
    ensures multiset(row) == multiset(DerivedRecords(DerivedEdges({f}, second, newLabel)))
    ensures created == |row|
  {
    row, created := [], 0;
    ghost var done: set<Edge> := {};
    var todo := second;
    while todo != {}
      invariant todo <= second
      invariant done == DerivedEdges({f}, second - todo, newLabel)
      invariant multiset(row) == multiset(DerivedRecords(done))
      invariant created == |row|
      decreases todo
    {
      IdsEmptyUnlessInhabited(todo);
      var s :| s in todo;
      var e := Edge(f, s, newLabel, map[]);
      AddDerivedEdge(done, e);
      done := done + {e};
      row := row + [DerivedOut(e), DerivedIn(e)];
      created := created + 2;
      assert second - (todo - {s}) == (second - todo) + {s};
      todo := todo - {s};
    }
    assert second - todo == second;
  }

  /** Adding a first-frontier id `f` to the processed ones adds its row of
      derived edges, which shares no edge with the rows already done. */
  lemma ProductGrows(doneFirst: set<VertexId>, f: VertexId, second: set<VertexId>, newLabel: string)
    requires f !in doneFirst
    ensures DerivedEdges(doneFirst + {f}, second, newLabel)
            == DerivedEdges(doneFirst, second, newLabel) + DerivedEdges({f}, second, newLabel)
    ensures DerivedEdges(doneFirst, second, newLabel) !! DerivedEdges({f}, second, newLabel)
  {
  }

  /** The Cartesian emission: for every pair (f, s) of the frontiers, the
      edge `f -[newLabel]-> s` is written outbound under f and inbound under
      s, and the counter grows by two. The records are those of the model and
      the counter ends at 2 * |first| * |second|. */
  method EmitProduct(first: set<VertexId>, second: set<VertexId>, newLabel: string)
    returns (out: seq<Emitted>, created: nat)
    ensures multiset(out) == multiset(DerivedRecords(DerivedEdges(first, second, newLabel)))
    ensures created == |out| == 2 * (|first| * |second|)
  {
    out, created := [], 0;
    ghost var done: set<Edge> := {};
    var todo := first;
    while todo != {}
      invariant todo <= first
      invariant done == DerivedEdges(first - todo, second, newLabel)
      invariant multiset(out) == multiset(DerivedRecords(done))
      invariant created == |out|
      decreases todo
    {
      IdsEmptyUnlessInhabited(todo);
      var f :| f in todo;
      var row, n := EmitRow(f, second, newLabel);
      var rowEdges := DerivedEdges({f}, second, newLabel);
      assert first - (todo - {f}) == (first - todo) + {f};
      ProductGrows(first - todo, f, second, newLabel);
      JoinDerivedEdges(done, rowEdges);
      done := done + rowEdges;
      out := out + row;
      created := created + n;
      todo := todo - {f};
    }
    assert first - todo == first;
    EnumerationCount(first, second, newLabel, out);
  }

  /** Any enumeration of the derived records of the product has
      2 * |first| * |second| entries. */
  lemma EnumerationCount(first: set<VertexId>, second: set<VertexId>, newLabel: string, out: seq<Emitted>)
    requires multiset(out) == multiset(DerivedRecords(DerivedEdges(first, second, newLabel)))
    ensures |out| == 2 * (|first| * |second|)
  {
    ProductCount(first, second, newLabel);
    RecordCount(DerivedEdges(first, second, newLabel));
    assert |out| == |multiset(out)|;
  }

  /** The first frontier as the mapper fills it, or the direction error. */
  method CollectFirstFrontier(c: Config, v: Vertex) returns (r: Result<set<VertexId>>)
    ensures r == FirstFrontier(c, v)
  {
    match c.firstDirection {
      case OUT =>
        var ids := CollectEnds(v.inEdges, c.firstLabel, OUT);
        r := Success(ids);
      case IN =>
        var ids := CollectEnds(v.outEdges, c.firstLabel, IN);
        r := Success(ids);
      case BOTH =>
        r := Failure(IllegalDirection(c.firstDirection));
    }
  }

  /** The second frontier as the mapper fills it, or the direction error. */
  method CollectSecondFrontier(c: Config, v: Vertex) returns (r: Result<set<VertexId>>)
    ensures r == SecondFrontier(c, v)
  {
    match c.secondDirection {
      case OUT =>
        var ids := CollectEnds(v.outEdges, c.secondLabel, IN);
        r := Success(ids);
      case IN =>
        var ids := CollectEnds(v.inEdges, c.secondLabel, OUT);
        r := Success(ids);
      case BOTH =>
        r := Failure(IllegalDirection(c.secondDirection));
    }
  }

  /** The output layout of the mapper: the self record, the retained inbound
      and outbound edges in their stored order, then some enumeration of the
      derived records. */
  predicate Laid(em: Emission, out: seq<Emitted>)
  {
    var k := 1 + |em.inbound| + |em.outbound|;
    && k <= |out|
    && out[..k] == [em.self] + em.inbound + em.outbound
    && multiset(out[k..]) == multiset(em.derived)
  }

  /** Whatever order the derived records come out in, an output laid out as
      above holds exactly the records of the emission. */
  lemma EmissionAssembled(em: Emission, out: seq<Emitted>)
    requires Laid(em, out)
    ensures multiset(out) == em.Records()
  {
    var k := 1 + |em.inbound| + |em.outbound|;
    assert out == out[..k] + out[k..];
  }

  /** The mapper on one vertex: the self record, the retained inbound and
      outbound edges, then the derived records, or the fatal direction error.
      It writes the records of Emit in the mapper's order and counts two per
      derived edge. */
  method EmitRecords(c: Config, v: Vertex) returns (r: Result<seq<Emitted>>, created: nat)
    ensures r.Failure? <==> c.firstDirection == BOTH || c.secondDirection == BOTH
    ensures r.Failure? ==> r.error == IllegalDirection(BOTH) && created == 0
    ensures r.Success? ==> |r.value| == 1 + |Emit(c, v).value.inbound| + |Emit(c, v).value.outbound| + created
    ensures r.Success? ==> r.value[..1 + |Emit(c, v).value.inbound| + |Emit(c, v).value.outbound|]
                           == [SelfRecord(v)] + Emit(c, v).value.inbound + Emit(c, v).value.outbound
    ensures r.Success? ==> multiset(r.value[1 + |Emit(c, v).value.inbound| + |Emit(c, v).value.outbound|..])
                           == multiset(Emit(c, v).value.derived)
    ensures r.Success? ==> created == 2 * (|FirstFrontier(c, v).value| * |SecondFrontier(c, v).value|)
  {
    var first := CollectFirstFrontier(c, v);
    if first.Failure? {
      return Failure(first.error), 0;
    }
    var second := CollectSecondFrontier(c, v);
    if second.Failure? {
      return Failure(second.error), 0;
    }
    var derived;
    derived, created := EmitProduct(first.value, second.value, c.newLabel);
    var inbound := Reemit(c, v.id, IN_TAG, v.inEdges);
    var outbound := Reemit(c, v.id, OUT_TAG, v.outEdges);
    var head := [SelfRecord(v)] + inbound + outbound;
    r := Success(head + derived);
    assert r.value[..|head|] == head;
    assert r.value[|head|..] == derived;
  }
}
