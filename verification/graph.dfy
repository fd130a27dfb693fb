/** The property-graph vocabulary shared by both halves of the traversal step:
    vertices that each hold their own copy of their inbound and outbound edges. */
module Graph {

  /** A vertex identifier (a Java `long`). Identifiers are only compared and
      copied by this step, never computed with, so no 64-bit wrap-around arises. */
  type VertexId = int

  /** A property value. The step copies values and never inspects them, so a
      value is kept opaque behind its textual payload. */
  datatype PropertyValue = PropertyValue(payload: string)

  /** A property map of a vertex or an edge. */
  type Properties = map<string, PropertyValue>

  /** The directions of the graph library. BOTH is a value of the type that
      the traversal step rejects. */
  datatype Direction = IN | OUT | BOTH

  /** An edge as each endpoint stores it: the tail (out-vertex) id, the head
      (in-vertex) id, a label (`edgeLabel`, as `label` is a Dafny keyword) and the edge's own properties. */
  datatype Edge = Edge(tail: VertexId, head: VertexId, edgeLabel: string, properties: Properties)
  {
    /** The id of the vertex at end `d`: the OUT end is the tail, the IN end the head. */
    function VertexAt(d: Direction): VertexId
      requires d != BOTH
    {
      if d == OUT then tail else head
    }
  }

  /** A vertex with its properties and its locally stored adjacency. */
  datatype Vertex = Vertex(id: VertexId, properties: Properties, inEdges: seq<Edge>, outEdges: seq<Edge>)
}
