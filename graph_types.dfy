/**
 * The vertex and edge type descriptors (GraphVertexType, GraphEdgeType). Their classes
 * are not part of this model; only what the core reads from them appears here: the
 * label name, the key policy of a vertex type and the two endpoint types of an edge
 * type. Their id-key extractors are passed to the encoder as function parameters.
 */
module GraphTypes {
  import opened KeyPolicy

  datatype GraphVertexType = GraphVertexType(vertexName: string, graphKeyPolicy: GraphKeyPolicy)

  datatype GraphEdgeType = GraphEdgeType(
    edgeName: string,
    srcVertexType: GraphVertexType,
    dstVertexType: GraphVertexType)
}
