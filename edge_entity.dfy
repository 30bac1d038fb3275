/**
 * The edge entity (GraphEdgeEntity): two endpoint ids, the edge type, the two endpoint
 * vertex types and a property bag, all fixed at construction, plus the traversal
 * metadata `level` and `ignoreDirect`, which have setters. Equality and the hash code
 * read only the ids and the endpoint vertex types.
 */
module EdgeEntity {
  import opened JavaObjects
  import opened GraphTypes

  class GraphEdgeEntity {
    const graphEdgeType: GraphEdgeType
    const srcId: JavaObject
    const dstId: JavaObject
    const srcVertexType: GraphVertexType
    const dstVertexType: GraphVertexType
    /** The property bag held by the GraphPropertyEntity superclass. */
    const props: map<string, string>
    var level: Int32
    var ignoreDirect: bool

    /** The constructor with a property bag: every argument is stored as given. */
    constructor (graphEdgeType: GraphEdgeType, srcId: JavaObject, dstId: JavaObject,
                 srcVertex: GraphVertexType, dstVertex: GraphVertexType, props: map<string, string>)
      ensures this.graphEdgeType == graphEdgeType && this.srcId == srcId && this.dstId == dstId
      ensures this.srcVertexType == srcVertex && this.dstVertexType == dstVertex && this.props == props
      ensures level == 0 && !ignoreDirect
    {
      this.props := props;
      this.graphEdgeType := graphEdgeType;
      this.srcId := srcId;
      this.dstId := dstId;
      this.srcVertexType := srcVertex;
      this.dstVertexType := dstVertex;
      level := 0;
      ignoreDirect := false;
    }

    /** The constructor without a property bag: as the other one, with an empty bag. */
    constructor WithoutProps(graphEdgeType: GraphEdgeType, srcId: JavaObject, dstId: JavaObject,
                             srcVertex: GraphVertexType, dstVertex: GraphVertexType)
      ensures this.graphEdgeType == graphEdgeType && this.srcId == srcId && this.dstId == dstId
      ensures this.srcVertexType == srcVertex && this.dstVertexType == dstVertex && this.props == map[]
      ensures level == 0 && !ignoreDirect
    {
      this.props := map[];
      this.graphEdgeType := graphEdgeType;
      this.srcId := srcId;
      this.dstId := dstId;
      this.srcVertexType := srcVertex;
      this.dstVertexType := dstVertex;
      level := 0;
      ignoreDirect := false;
    }

    /**
     * isEquals: identical objects are equal; null and objects of another class are not;
     * an edge whose own src and dst ids have different runtime classes is equal to no
     * other object; otherwise both ids (by `equals`) and both endpoint vertex types must match.
     */
    predicate IsEquals(o: object?) {
      if this == o then true
      else if o == null || !(o is GraphEdgeEntity) then false
      else
        var that := o as GraphEdgeEntity;
        if srcId.runtimeClass != dstId.runtimeClass then false
        else
          && srcId.Equals(that.srcId)
          && dstId.Equals(that.dstId)
          && srcVertexType == that.srcVertexType
          && dstVertexType == that.dstVertexType
    }

    /** equals delegates to isEquals. */
    predicate Equals(o: object?)
      ensures Equals(o) <==> IsEquals(o)
    {
      IsEquals(o)
    }

    /** getHashCode: Objects.hashCode(srcId, dstId, srcVertexType, dstVertexType). */
    function GetHashCode(hashOf: HashPart<GraphVertexType> -> Int32): Int32 {
      ObjectsHashCode(hashOf, [IdHashPart(srcId), IdHashPart(dstId), TypePart(srcVertexType), TypePart(dstVertexType)])
    }

    /** hashCode delegates to getHashCode. */
    function HashCode(hashOf: HashPart<GraphVertexType> -> Int32): (h: Int32)
      ensures h == GetHashCode(hashOf)
    {
      GetHashCode(hashOf)
    }

    /** getVertices: the source vertex type, then the destination vertex type. */
    function GetVertices(): (r: seq<GraphVertexType>)
      ensures |r| == 2 && r[0] == srcVertexType && r[1] == dstVertexType
    {
      [srcVertexType, dstVertexType]
    }

    /** getEdges: the list holding only this edge. */
    function GetEdges(): (r: seq<GraphEdgeEntity>)
      ensures |r| == 1 && r[0] == this
    {
      [this]
    }

    /** The Lombok setter of `level`; nothing else changes. */
    method SetLevel(level: Int32)
      modifies this`level
      ensures this.level == level
    {
      this.level := level;
    }

    /** The Lombok setter of `ignoreDirect`; nothing else changes. */
    method SetIgnoreDirect(ignoreDirect: bool)
      modifies this`ignoreDirect
      ensures this.ignoreDirect == ignoreDirect
    {
      this.ignoreDirect := ignoreDirect;
    }
  }

  /** The endpoint data that equality compares. */
  predicate SameEndpoints(a: GraphEdgeEntity, b: GraphEdgeEntity) {
    a.srcId.Equals(b.srcId) && a.dstId.Equals(b.dstId) &&
    a.srcVertexType == b.srcVertexType && a.dstVertexType == b.dstVertexType
  }

  /** An edge is equal to itself, and never to null or to an object of another class. */
  lemma EdgeEqualsBasics(e: GraphEdgeEntity, o: object?)
    ensures e.IsEquals(e)
    ensures o == null ==> !e.IsEquals(o)
    ensures !(o is GraphEdgeEntity) ==> !e.IsEquals(o)
  {
  }

  /**
   * When the edge's own src and dst ids have different runtime classes, it is equal only
   * to itself; comparison returns false and raises nothing.
   */
  lemma MixedIdClassesOnlyIdentity(e: GraphEdgeEntity, o: object?)
    requires e.srcId.runtimeClass != e.dstId.runtimeClass
    ensures e.IsEquals(o) <==> e == o
  {
  }

  /**
   * Otherwise two edges are equal exactly when both ids and both endpoint vertex types
   * match; the property bag, the edge type, `level` and `ignoreDirect` play no part.
   */
  lemma EdgeEqualsIff(a: GraphEdgeEntity, b: GraphEdgeEntity)
    requires a.srcId.runtimeClass == a.dstId.runtimeClass
    ensures a.IsEquals(b) <==> SameEndpoints(a, b)
  {
  }

  /** Edge equality is symmetric and transitive. */
  lemma EdgeEqualsIsEquivalence(a: GraphEdgeEntity, b: GraphEdgeEntity, c: GraphEdgeEntity)
    ensures a.IsEquals(b) ==> b.IsEquals(a)
    ensures a.IsEquals(b) && b.IsEquals(c) ==> a.IsEquals(c)
  {
    EqualsIsEquivalence(a.srcId, b.srcId, c.srcId);
    EqualsIsEquivalence(a.dstId, b.dstId, c.dstId);
  }

  /** Equal edges have equal hash codes, whatever the components' own hash functions. */
  lemma EqualEdgesHashEqual(a: GraphEdgeEntity, b: GraphEdgeEntity, hashOf: HashPart<GraphVertexType> -> Int32)
    requires a.Equals(b)
    ensures a.HashCode(hashOf) == b.HashCode(hashOf)
  {
  }
}
