/** The reducer of the traversal step: it folds the holders delivered under
    one key, in the order the shuffle delivers them, into a single vertex. */
module Merger {
  import opened Graph
  import opened Failures
  import opened Records

  /** The vertex the reducer starts from: the key, no properties, no edges. */
  function EmptyVertex(key: VertexId): Vertex
  {
    Vertex(key, map[], [], [])
  }

  /** The error the reducer raises on an illegal holder. */
  function Rejection(h: Holder): TraverseError
    requires !Legal(h)
  {
    if h.tag == IN_TAG || h.tag == OUT_TAG then NotAnEdge(h.tag) else IllegalTag(h.tag)
  }

  /** One step of the fold: 'v' replaces the properties with those of the
      carried element, 'i' and 'o' append the carried edge to the inbound or
      outbound adjacency, and any other tag is fatal. */
  function Absorb(u: Vertex, h: Holder): (r: Result<Vertex>)
    ensures r.Success? <==> Legal(h)
    ensures r.Failure? ==> r.error == Rejection(h)
    ensures r.Success? ==> r.value.id == u.id
  {
    if h.tag == VERTEX_TAG then
      Success(u.(properties := PropertiesOf(h.element)))
    else if h.tag == IN_TAG then
      match h.element
      case EdgeElement(e) => Success(u.(inEdges := u.inEdges + [e]))
      case VertexElement(_, _) => Failure(NotAnEdge(h.tag))
    else if h.tag == OUT_TAG then
      match h.element
      case EdgeElement(e) => Success(u.(outEdges := u.outEdges + [e]))
      case VertexElement(_, _) => Failure(NotAnEdge(h.tag))
    else
      Failure(IllegalTag(h.tag))
  }

  /** The reducer on one key. It yields exactly one vertex, whose id is the
      key, unless some holder is illegal. */
  function Merge(key: VertexId, holders: seq<Holder>): (r: Result<Vertex>)
    ensures r.Success? <==> forall h :: h in holders ==> Legal(h)
    ensures r.Success? ==> r.value.id == key
    decreases |holders|
  {
    if |holders| == 0 then
      Success(EmptyVertex(key))
    else
      var prefix := holders[..|holders| - 1];
      var last := holders[|holders| - 1];
      assert holders == prefix + [last];
      match Merge(key, prefix)
      case Failure(err) => Failure(err)
      case Success(u) => Absorb(u, last)
  }

  /** A failing reducer reports the first illegal holder in delivery order:
      the holders before it were all absorbed. */
  lemma {:induction false} MergeRejectsFirstIllegal(key: VertexId, holders: seq<Holder>)
    requires Merge(key, holders).Failure?
    ensures exists i :: 0 <= i < |holders| && !Legal(holders[i]) &&
                        Merge(key, holders).error == Rejection(holders[i]) &&
                        forall j :: 0 <= j < i ==> Legal(holders[j])
    decreases |holders|
  {
    var prefix := holders[..|holders| - 1];
    var last := holders[|holders| - 1];
    assert holders == prefix + [last];
    if Merge(key, prefix).Failure? {
      MergeRejectsFirstIllegal(key, prefix);
      var i :| 0 <= i < |prefix| && !Legal(prefix[i]) && Merge(key, prefix).error == Rejection(prefix[i]) &&
               forall j :: 0 <= j < i ==> Legal(prefix[j]);
      assert holders[i] == prefix[i];
    } else {
      assert forall j :: 0 <= j < |prefix| ==> Legal(holders[j]) by {
        forall j | 0 <= j < |prefix|
          ensures Legal(holders[j])
        {
          assert holders[j] in prefix;
        }
      }
      assert !Legal(holders[|holders| - 1]);
    }
  }

  /** The merged adjacency, as a multiset, is exactly the multiset of edges
      carried by the 'i' holders (inbound) and by the 'o' holders (outbound). */
  lemma MergeCollectsEdges(key: VertexId, holders: seq<Holder>)
    requires Merge(key, holders).Success?
    ensures forall e :: multiset(Merge(key, holders).value.inEdges)[e] == multiset(holders)[EdgeHolder(IN_TAG, e)]
    ensures forall e :: multiset(Merge(key, holders).value.outEdges)[e] == multiset(holders)[EdgeHolder(OUT_TAG, e)]
  {
    forall e
      ensures multiset(Merge(key, holders).value.inEdges)[e] == multiset(holders)[EdgeHolder(IN_TAG, e)]
      ensures multiset(Merge(key, holders).value.outEdges)[e] == multiset(holders)[EdgeHolder(OUT_TAG, e)]
    {
      MergeCountsEdge(key, holders, e);
    }
  }

  /** The count of one edge in the merged adjacency, by induction on the
      delivered holders. */
  lemma {:induction false} MergeCountsEdge(key: VertexId, holders: seq<Holder>, e: Edge)
    requires Merge(key, holders).Success?
    ensures multiset(Merge(key, holders).value.inEdges)[e] == multiset(holders)[EdgeHolder(IN_TAG, e)]
    ensures multiset(Merge(key, holders).value.outEdges)[e] == multiset(holders)[EdgeHolder(OUT_TAG, e)]
    decreases |holders|
  {
    if |holders| != 0 {
      var prefix := holders[..|holders| - 1];
      var last := holders[|holders| - 1];
      assert holders == prefix + [last];
      MergeCountsEdge(key, prefix, e);
      var u := Merge(key, prefix).value;
      var w := Merge(key, holders).value;
      var hin, hout := EdgeHolder(IN_TAG, e), EdgeHolder(OUT_TAG, e);
      assert multiset(holders)[hin] == multiset(prefix)[hin] + (if last == hin then 1 else 0);
      assert multiset(holders)[hout] == multiset(prefix)[hout] + (if last == hout then 1 else 0);
      if last.tag == IN_TAG {
        assert w.inEdges == u.inEdges + [last.element.edge] && w.outEdges == u.outEdges;
      } else if last.tag == OUT_TAG {
        assert w.outEdges == u.outEdges + [last.element.edge] && w.inEdges == u.inEdges;
      } else {
        assert w.inEdges == u.inEdges && w.outEdges == u.outEdges;
      }
    }
  }

  /** With no 'v' holder the properties stay empty; otherwise they are those
      of the element carried by the last 'v' holder delivered. */
  lemma {:induction false} MergeKeepsLastProperties(key: VertexId, holders: seq<Holder>)
    requires Merge(key, holders).Success?
    ensures (forall i :: 0 <= i < |holders| ==> holders[i].tag != VERTEX_TAG) ==>
              Merge(key, holders).value.properties == map[]
    ensures forall i :: 0 <= i < |holders| && holders[i].tag == VERTEX_TAG &&
                        (forall j :: i < j < |holders| ==> holders[j].tag != VERTEX_TAG) ==>
              Merge(key, holders).value.properties == PropertiesOf(holders[i].element)
    decreases |holders|
  {
    if |holders| != 0 {
      var prefix := holders[..|holders| - 1];
      MergeKeepsLastProperties(key, prefix);
    }
  }

  /** The merged properties come from some 'v' holder, or are empty when
      there is none. */
  lemma MergedPropertiesOrigin(key: VertexId, holders: seq<Holder>)
    requires Merge(key, holders).Success?
    ensures (forall h :: h in holders ==> h.tag != VERTEX_TAG) ==> Merge(key, holders).value.properties == map[]
    ensures (exists h :: h in holders && h.tag == VERTEX_TAG) ==>
              exists h :: h in holders && h.tag == VERTEX_TAG &&
                          Merge(key, holders).value.properties == PropertiesOf(h.element)
  {
    MergeKeepsLastProperties(key, holders);
    if exists h :: h in holders && h.tag == VERTEX_TAG {
      var i := |holders| - 1;
      while holders[i].tag != VERTEX_TAG
        invariant 0 <= i < |holders|
        invariant forall j :: i < j < |holders| ==> holders[j].tag != VERTEX_TAG
        decreases i
      {
        i := i - 1;
      }
      assert holders[i] in holders;
    }
  }

  /** All 'v' holders of `holders` carry the same properties, as when the
      one vertex with that id sent its single self record. */
  predicate SelfConsistent(holders: seq<Holder>)
  {
    forall h, g :: h in holders && g in holders && h.tag == VERTEX_TAG && g.tag == VERTEX_TAG ==>
      PropertiesOf(h.element) == PropertiesOf(g.element)
  }

  /** Order independence: two deliveries of the same multiset of holders
      either both fail or both yield the same id and properties and the same
      adjacency up to order, provided the 'v' holders agree. */
  lemma MergeOrderIndependent(key: VertexId, hs1: seq<Holder>, hs2: seq<Holder>)
    requires multiset(hs1) == multiset(hs2)
    requires SelfConsistent(hs1)
    ensures Merge(key, hs1).Success? <==> Merge(key, hs2).Success?
    ensures Merge(key, hs1).Success? ==>
              var u1, u2 := Merge(key, hs1).value, Merge(key, hs2).value;
              && u1.id == u2.id
              && u1.properties == u2.properties
              && multiset(u1.inEdges) == multiset(u2.inEdges)
              && multiset(u1.outEdges) == multiset(u2.outEdges)
  {
    assert forall h :: h in hs1 <==> h in hs2 by {
      forall h ensures h in hs1 <==> h in hs2 {
        assert h in hs1 <==> h in multiset(hs1);
        assert h in hs2 <==> h in multiset(hs2);
      }
    }
    if Merge(key, hs1).Success? {
      var u1, u2 := Merge(key, hs1).value, Merge(key, hs2).value;
      MergeCollectsEdges(key, hs1);
      MergeCollectsEdges(key, hs2);
      assert multiset(u1.inEdges) == multiset(u2.inEdges) by {
        assert forall e :: multiset(u1.inEdges)[e] == multiset(u2.inEdges)[e];
      }
      assert multiset(u1.outEdges) == multiset(u2.outEdges) by {
        assert forall e :: multiset(u1.outEdges)[e] == multiset(u2.outEdges)[e];
      }
      MergedPropertiesOrigin(key, hs1);
      MergedPropertiesOrigin(key, hs2);
    }
  }

  /** Without SelfConsistent the order matters: two 'v' holders with
      different properties reaching one key leave the properties of whichever
      the shuffle delivers last. */
  lemma ConflictingSelvesDependOnOrder()
    ensures var h1 := Holder(VERTEX_TAG, VertexElement(1, map["k" := PropertyValue("x")]));
            var h2 := Holder(VERTEX_TAG, VertexElement(1, map[]));
            && Merge(1, [h1, h2]).Success?
            && Merge(1, [h2, h1]).Success?
            && Merge(1, [h1, h2]).value.properties != Merge(1, [h2, h1]).value.properties
  {
    var h1 := Holder(VERTEX_TAG, VertexElement(1, map["k" := PropertyValue("x")]));
    var h2 := Holder(VERTEX_TAG, VertexElement(1, map[]));
    assert [h1, h2][..1] == [h1] && [h2, h1][..1] == [h2];
    assert [h1][..0] == [] && [h2][..0] == [];
    assert "k" in Merge(1, [h2, h1]).value.properties;
  }
}
