/** The mapper of the traversal step: for one vertex it re-emits the vertex's
    id and properties, the original edges the retention action keeps, and two
    copies of every derived edge that contracts a two-hop path through the
    vertex. This module states the emission as a pure function; the module
    EmitterLoops computes the same records the way the mapper's loops do. */
module Emitter {
  import opened Graph
  import opened Failures
  import opened TraverseConfig
  import opened Records

  /** The retention rule: KEEP re-emits every original edge, PRUNE drops the
      edges labelled with either pattern label. */
  predicate Retained(c: Config, e: Edge)
  {
    c.action == KEEP || (e.edgeLabel != c.firstLabel && e.edgeLabel != c.secondLabel)
  }

  /** The original edges `es` that survive retention, each keyed by `key` and
      tagged `tag`, in their original order. */
  function Reemit(c: Config, key: VertexId, tag: char, es: seq<Edge>): (r: seq<Emitted>)
    ensures forall x :: x in r ==>
              x.key == key && x.holder.tag == tag && x.holder.element.EdgeElement? && Retained(c, x.holder.element.edge)
    ensures forall e :: multiset(r)[Emitted(key, EdgeHolder(tag, e))] == if Retained(c, e) then multiset(es)[e] else 0
  {
    if |es| == 0 then []
    else
      assert es == [es[0]] + es[1..];
      (if Retained(c, es[0]) then [Emitted(key, EdgeHolder(tag, es[0]))] else []) + Reemit(c, key, tag, es[1..])
  }

  /** The ids at end `end` of the edges of `es` labelled `wanted`. */
  function Ends(es: seq<Edge>, wanted: string, end: Direction): set<VertexId>
    requires end != BOTH
  {
    set e | e in es && e.edgeLabel == wanted :: e.VertexAt(end)
  }

  /** The first frontier. The direction names the role of the frontier vertex:
      OUT collects the tails of the inbound edges labelled firstLabel, IN the
      heads of the outbound ones. The unfiltered adjacency is scanned, so the
      retention action has no say. */
  function FirstFrontier(c: Config, v: Vertex): (r: Result<set<VertexId>>)
    ensures r.Failure? <==> c.firstDirection == BOTH
    ensures r.Failure? ==> r.error == IllegalDirection(BOTH)
    ensures c.firstDirection == OUT ==>
              forall x :: x in r.value <==> exists e :: e in v.inEdges && e.edgeLabel == c.firstLabel && e.tail == x
    ensures c.firstDirection == IN ==>
              forall x :: x in r.value <==> exists e :: e in v.outEdges && e.edgeLabel == c.firstLabel && e.head == x
  {
    match c.firstDirection
    case OUT => Success(Ends(v.inEdges, c.firstLabel, OUT))
    case IN => Success(Ends(v.outEdges, c.firstLabel, IN))
    case BOTH => Failure(IllegalDirection(c.firstDirection))
  }

  /** The second frontier, with the storage sides transposed: OUT collects the
      heads of the outbound edges labelled secondLabel, IN the tails of the
      inbound ones. */
  function SecondFrontier(c: Config, v: Vertex): (r: Result<set<VertexId>>)
    ensures r.Failure? <==> c.secondDirection == BOTH
    ensures r.Failure? ==> r.error == IllegalDirection(BOTH)
    ensures c.secondDirection == OUT ==>
              forall x :: x in r.value <==> exists e :: e in v.outEdges && e.edgeLabel == c.secondLabel && e.head == x
    ensures c.secondDirection == IN ==>
              forall x :: x in r.value <==> exists e :: e in v.inEdges && e.edgeLabel == c.secondLabel && e.tail == x
  {
    match c.secondDirection
    case OUT => Success(Ends(v.outEdges, c.secondLabel, IN))
    case IN => Success(Ends(v.inEdges, c.secondLabel, OUT))
    case BOTH => Failure(IllegalDirection(c.secondDirection))
  }

  /** The derived edges `f -[newLabel]-> s` for the Cartesian product of the
      frontiers; a derived edge carries no properties. */
  function DerivedEdges(first: set<VertexId>, second: set<VertexId>, newLabel: string): set<Edge>
  {
    set f, s | f in first && s in second :: Edge(f, s, newLabel, map[])
  }

  /** Both copies of every edge of `edges`: outbound at the tail, inbound at the head. */
  function DerivedRecords(edges: set<Edge>): set<Emitted>
  {
    (set e | e in edges :: DerivedOut(e)) + (set e | e in edges :: DerivedIn(e))
  }

  /** Everything the mapper writes for one vertex. The derived records form a
      set: the frontier pairs are distinct and the shuffle ignores order. */
  datatype Emission = Emission(self: Emitted, inbound: seq<Emitted>, outbound: seq<Emitted>, derived: set<Emitted>)
  {
    function Records(): multiset<Emitted>
    {
      multiset{self} + multiset(inbound) + multiset(outbound) + multiset(derived)
    }
  }

  /** The mapper on one vertex. An illegal direction in either pattern aborts
      the vertex (and with it the pass), so nothing is emitted. */
  function Emit(c: Config, v: Vertex): (r: Result<Emission>)
    ensures r.Failure? <==> c.firstDirection == BOTH || c.secondDirection == BOTH
    ensures r.Failure? ==> r.error == IllegalDirection(BOTH)
  {
    var first :- FirstFrontier(c, v);
    var second :- SecondFrontier(c, v);
    Success(Emission(
              SelfRecord(v),
              Reemit(c, v.id, IN_TAG, v.inEdges),
              Reemit(c, v.id, OUT_TAG, v.outEdges),
              DerivedRecords(DerivedEdges(first, second, c.newLabel))))
  }

  /** The derived edges of a vertex the mapper accepts. */
  function DerivedEdgesOf(c: Config, v: Vertex): set<Edge>
    requires Emit(c, v).Success?
  {
    DerivedEdges(FirstFrontier(c, v).value, SecondFrontier(c, v).value, c.newLabel)
  }

  /** Exactly one 'v' record is emitted, keyed by the vertex's own id and
      carrying its id and properties but no edges. */
  lemma EmitsOneSelfRecord(c: Config, v: Vertex)
    requires Emit(c, v).Success?
    ensures Emit(c, v).value.Records()[SelfRecord(v)] == 1
    ensures forall x :: x in Emit(c, v).value.Records() && x.holder.tag == VERTEX_TAG ==> x == SelfRecord(v)
    ensures SelfRecord(v).key == v.id && SelfRecord(v).holder.element == VertexElement(v.id, v.properties)
  {
    var em := Emit(c, v).value;
    DerivedRecordsCarryEdges(DerivedEdgesOf(c, v));
    assert em.self == SelfRecord(v);
    forall x | x in em.Records() && x.holder.tag == VERTEX_TAG
      ensures x == SelfRecord(v)
    {
      assert x !in em.inbound && x !in em.outbound && x !in em.derived;
    }
    assert multiset(em.inbound)[SelfRecord(v)] == 0;
    assert multiset(em.outbound)[SelfRecord(v)] == 0;
    assert multiset(em.derived)[SelfRecord(v)] == 0;
  }

  /** Every derived record carries an edge under an 'i' or 'o' tag. */
  lemma DerivedRecordsCarryEdges(edges: set<Edge>)
    ensures forall x :: x in DerivedRecords(edges) ==>
              (x.holder.tag == IN_TAG || x.holder.tag == OUT_TAG) && x.holder.element.EdgeElement?
  {
  }

  /** Retention: an original edge is re-emitted, under the vertex's own id,
      as many times as it occurs exactly when the action keeps it; KEEP keeps
      all of them and PRUNE those whose label is neither pattern label. */
  lemma RetentionLaw(c: Config, v: Vertex, e: Edge)
    requires Emit(c, v).Success?
    ensures multiset(Emit(c, v).value.inbound)[Emitted(v.id, EdgeHolder(IN_TAG, e))]
            == if c.action == KEEP || (e.edgeLabel != c.firstLabel && e.edgeLabel != c.secondLabel)
               then multiset(v.inEdges)[e] else 0
    ensures multiset(Emit(c, v).value.outbound)[Emitted(v.id, EdgeHolder(OUT_TAG, e))]
            == if c.action == KEEP || (e.edgeLabel != c.firstLabel && e.edgeLabel != c.secondLabel)
               then multiset(v.outEdges)[e] else 0
  {
  }

  /** The frontiers are read from the unfiltered adjacency: under PRUNE an
      inbound edge labelled firstLabel is not re-emitted, yet its tail still
      joins the first frontier when firstDirection is OUT. */
  lemma PrunedEdgeStillFeedsFrontier(c: Config, v: Vertex, e: Edge)
    requires Emit(c, v).Success?
    requires c.action == PRUNE && c.firstDirection == OUT
    requires e in v.inEdges && e.edgeLabel == c.firstLabel
    ensures e.tail in FirstFrontier(c, v).value
    ensures Emitted(v.id, EdgeHolder(IN_TAG, e)) !in Emit(c, v).value.inbound
  {
    assert multiset(Emit(c, v).value.inbound)[Emitted(v.id, EdgeHolder(IN_TAG, e))] == 0;
  }

  /** A set of ids with no member is empty; stated for a concrete element
      type so that a non-empty set yields an element to pick. */
  lemma IdsEmptyUnlessInhabited(ids: set<VertexId>)
    ensures (forall x :: x !in ids) ==> ids == {}
  {
    if forall x :: x !in ids {
      assert forall x :: x in ids <==> x in {};
    }
  }

  /** The same for a set of edges. */
  lemma EdgesEmptyUnlessInhabited(edges: set<Edge>)
    ensures (forall e :: e !in edges) ==> edges == {}
  {
    if forall e :: e !in edges {
      assert forall e :: e in edges <==> e in {};
    }
  }

  /** One row of the product has one derived edge per second-frontier id. */
  lemma {:induction false} RowCount(f: VertexId, second: set<VertexId>, newLabel: string)
    ensures |DerivedEdges({f}, second, newLabel)| == |second|
    decreases second
  {
    if |second| == 0 {
      assert DerivedEdges({f}, second, newLabel) == {};
    } else {
      IdsEmptyUnlessInhabited(second);
      var s :| s in second;
      var rest := DerivedEdges({f}, second - {s}, newLabel);
      RowCount(f, second - {s}, newLabel);
      assert DerivedEdges({f}, second, newLabel) == rest + {Edge(f, s, newLabel, map[])};
      assert Edge(f, s, newLabel, map[]) !in rest;
    }
  }

  /** The product yields exactly |F| * |S| derived edges. */
  lemma {:induction false} ProductCount(first: set<VertexId>, second: set<VertexId>, newLabel: string)
    ensures |DerivedEdges(first, second, newLabel)| == |first| * |second|
    decreases first
  {
    if |first| == 0 {
      assert DerivedEdges(first, second, newLabel) == {};
    } else {
      IdsEmptyUnlessInhabited(first);
      var f :| f in first;
      var others := DerivedEdges(first - {f}, second, newLabel);
      var row := DerivedEdges({f}, second, newLabel);
      ProductCount(first - {f}, second, newLabel);
      RowCount(f, second, newLabel);
      assert DerivedEdges(first, second, newLabel) == others + row;
      assert others * row == {};
      assert |first - {f}| == |first| - 1;
      calc {
        |DerivedEdges(first, second, newLabel)|;
        |others| + |row|;
        (|first| - 1) * |second| + |second|;
        |first| * |second|;
      }
    }
  }

  /** Every derived edge contributes two distinct records, one per endpoint. */
  lemma {:induction false} RecordCount(edges: set<Edge>)
    ensures |DerivedRecords(edges)| == 2 * |edges|
    decreases edges
  {
    if |edges| == 0 {
      assert DerivedRecords(edges) == {};
    } else {
      EdgesEmptyUnlessInhabited(edges);
      var e :| e in edges;
      var rest := DerivedRecords(edges - {e});
      RecordCount(edges - {e});
      assert DerivedRecords(edges) == rest + {DerivedOut(e), DerivedIn(e)};
      assert DerivedOut(e) !in rest && DerivedIn(e) !in rest;
      assert DerivedOut(e) != DerivedIn(e);
    }
  }

  /** Cartesian completeness, counted: for frontiers F and S the mapper
      writes exactly |F| * |S| derived edges and 2 * |F| * |S| derived records. */
  lemma DerivedEmissionCount(c: Config, v: Vertex)
    requires Emit(c, v).Success?
    ensures |DerivedEdgesOf(c, v)| == |FirstFrontier(c, v).value| * |SecondFrontier(c, v).value|
    ensures |Emit(c, v).value.derived| == 2 * (|FirstFrontier(c, v).value| * |SecondFrontier(c, v).value|)
  {
    var first, second := FirstFrontier(c, v).value, SecondFrontier(c, v).value;
    var edges := DerivedEdges(first, second, c.newLabel);
    assert Emit(c, v).value.derived == DerivedRecords(edges);
    ProductCount(first, second, c.newLabel);
    RecordCount(edges);
  }

  /** Cartesian completeness, by content: every frontier pair (f, s) yields
      the edge `f -[newLabel]-> s` as an outbound record keyed f and an
      inbound record keyed s, and every derived record is one of these. */
  lemma DerivedEmissionContent(c: Config, v: Vertex, x: Emitted)
    requires Emit(c, v).Success?
    ensures x in Emit(c, v).value.derived <==>
              exists f, s :: f in FirstFrontier(c, v).value && s in SecondFrontier(c, v).value &&
                             (x == DerivedOut(Edge(f, s, c.newLabel, map[])) || x == DerivedIn(Edge(f, s, c.newLabel, map[])))
  {
  }

  /** Provenance, the converse of the emission lemmas: a record that carries
      an edge is either a retained original edge, under the vertex's own id
      and with the tag of the side it was stored on, or one copy of a derived
      edge. */
  lemma EdgeRecordOrigin(c: Config, v: Vertex, x: Emitted)
    requires Emit(c, v).Success?
    requires x in Emit(c, v).value.Records() && x.holder.tag != VERTEX_TAG
    ensures x.holder.element.EdgeElement?
    ensures var e := x.holder.element.edge;
            || (x.key == v.id && x.holder.tag == IN_TAG && e in v.inEdges && Retained(c, e))
            || (x.key == v.id && x.holder.tag == OUT_TAG && e in v.outEdges && Retained(c, e))
            || (e in DerivedEdgesOf(c, v) && (x == DerivedOut(e) || x == DerivedIn(e)))
  {
    var em := Emit(c, v).value;
    if x in em.inbound {
      var e := x.holder.element.edge;
      assert multiset(em.inbound)[Emitted(v.id, EdgeHolder(IN_TAG, e))] > 0;
    } else if x in em.outbound {
      var e := x.holder.element.edge;
      assert multiset(em.outbound)[Emitted(v.id, EdgeHolder(OUT_TAG, e))] > 0;
    }
  }

  /** Every holder the mapper writes is one the merger accepts. */
  lemma EmittedHoldersAreLegal(c: Config, v: Vertex)
    requires Emit(c, v).Success?
    ensures forall x :: x in Emit(c, v).value.Records() ==> Legal(x.holder)
  {
    DerivedRecordsCarryEdges(DerivedEdgesOf(c, v));
  }

  /** A worked example. Vertex 1 stores the inbound edge `2 -knows-> 1` and
      the outbound edge `1 -likes-> 3`. The pattern is OUT "knows" then OUT
      "likes", with PRUNE. The frontiers are {2} and {3}, both original edges
      are pruned, and the single derived edge `2 -knows_likes-> 3` is sent to
      vertices 2 and 3. */
  lemma KnowsLikesScenario()
    ensures var knows := Edge(2, 1, "knows", map[]);
            var likes := Edge(1, 3, "likes", map[]);
            var v := Vertex(1, map[], [knows], [likes]);
            var c := Config(OUT, "knows", OUT, "likes", "knows_likes", PRUNE);
            var shortcut := Edge(2, 3, "knows_likes", map[]);
            && FirstFrontier(c, v) == Success({2})
            && SecondFrontier(c, v) == Success({3})
            && Emit(c, v) == Success(Emission(SelfRecord(v), [], [], {DerivedOut(shortcut), DerivedIn(shortcut)}))
  {
    var knows := Edge(2, 1, "knows", map[]);
    var likes := Edge(1, 3, "likes", map[]);
    var v := Vertex(1, map[], [knows], [likes]);
    var c := Config(OUT, "knows", OUT, "likes", "knows_likes", PRUNE);
    var shortcut := Edge(2, 3, "knows_likes", map[]);
    assert "knows" != "likes" by { assert "knows"[0] != "likes"[0]; }
    assert FirstFrontier(c, v).value == {2};
    assert SecondFrontier(c, v).value == {3};
    assert DerivedEdges({2}, {3}, "knows_likes") == {shortcut};
    assert DerivedRecords({shortcut}) == {DerivedOut(shortcut), DerivedIn(shortcut)};
    assert Reemit(c, 1, IN_TAG, [knows]) == [] by {
      assert [knows][1..] == [];
    }
    assert Reemit(c, 1, OUT_TAG, [likes]) == [] by {
      assert [likes][1..] == [];
    }
  }
}
