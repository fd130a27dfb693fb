/** The tagged records that travel through the shuffle: a holder pairs a
    one-character tag with the element it carries, and every emitted holder
    is keyed by the id of the vertex that must receive it. */
module Records {
  import opened Graph

  const VERTEX_TAG: char := 'v'
  const IN_TAG: char := 'i'
  const OUT_TAG: char := 'o'

  /** A vertex reduced to its id and properties (no adjacency), or an edge. */
  datatype Element = VertexElement(id: VertexId, properties: Properties) | EdgeElement(edge: Edge)

  /** The properties of an element of either kind. */
  function PropertiesOf(el: Element): Properties
  {
    match el
    case VertexElement(_, props) => props
    case EdgeElement(e) => e.properties
  }

  datatype Holder = Holder(tag: char, element: Element)

  /** One output pair of the mapper: the destination key and the holder. */
  datatype Emitted = Emitted(key: VertexId, holder: Holder)

  function EdgeHolder(tag: char, e: Edge): Holder
  {
    Holder(tag, EdgeElement(e))
  }

  /** The record carrying a vertex's id and properties to its own key. */
  function SelfRecord(v: Vertex): Emitted
  {
    Emitted(v.id, Holder(VERTEX_TAG, VertexElement(v.id, v.properties)))
  }

  /** The outbound copy of a derived edge, delivered to its tail. */
  function DerivedOut(e: Edge): Emitted
  {
    Emitted(e.tail, EdgeHolder(OUT_TAG, e))
  }

  /** The inbound copy of a derived edge, delivered to its head. */
  function DerivedIn(e: Edge): Emitted
  {
    Emitted(e.head, EdgeHolder(IN_TAG, e))
  }

  /** A holder the merger accepts: a 'v' tag, or an 'i'/'o' tag carrying an edge. */
  predicate Legal(h: Holder)
  {
    h.tag == VERTEX_TAG || ((h.tag == IN_TAG || h.tag == OUT_TAG) && h.element.EdgeElement?)
  }
}
