/**
 * The vertex entity (GraphVertexEntity): an id object, a vertex type and a property
 * bag. Construction rejects a null bag. Equality compares the ids BY REFERENCE
 * (`id == that.id`) and the vertex types by value; the hash code is
 * Objects.hashCode(id, graphVertexType).
 */
module VertexEntity {
  import opened Wrappers
  import opened JavaObjects
  import opened GraphTypes

  /** The exception the constructor throws. */
  datatype EntityError = IllegalArgumentException(message: string)

  class GraphVertexEntity {
    const id: JavaObject
    const graphVertexType: GraphVertexType
    /** The property bag held by the GraphPropertyEntity superclass. */
    const props: map<string, string>

    /** The constructor once its null check has passed: the arguments are stored unchanged. */
    constructor (graphVertexType: GraphVertexType, id: JavaObject, props: map<string, string>)
      ensures this.graphVertexType == graphVertexType && this.id == id && this.props == props
    {
      this.props := props;
      this.graphVertexType := graphVertexType;
      this.id := id;
    }

    /** equals: identity, else the same class, the same id object and equal vertex types. */
    predicate Equals(o: object?) {
      if this == o then true
      else if o == null || !(o is GraphVertexEntity) then false
      else
        var that := o as GraphVertexEntity;
        id == that.id && graphVertexType == that.graphVertexType
    }

    /** hashCode: Objects.hashCode(id, graphVertexType). */
    function HashCode(hashOf: HashPart<GraphVertexType> -> Int32): Int32 {
      ObjectsHashCode(hashOf, [IdHashPart(id), TypePart(graphVertexType)])
    }

    /** Equality with the ids compared by `equals`, as the hash code already treats them. */
    predicate EqualsByValue(o: object?) {
      if this == o then true
      else if o == null || !(o is GraphVertexEntity) then false
      else
        var that := o as GraphVertexEntity;
        id.Equals(that.id) && graphVertexType == that.graphVertexType
    }
  }

  /**
   * The constructor as a whole: a null property bag (None) throws
   * IllegalArgumentException; any other bag, the empty one included, gives a new vertex
   * that stores the vertex type, the id and the bag as given.
   */
  method NewGraphVertexEntity(graphVertexType: GraphVertexType, id: JavaObject, props: Option<map<string, string>>)
    returns (r: Result<GraphVertexEntity, EntityError>)
    ensures props.None? <==> r.Failure?
    ensures r.Failure? ==> r.error == IllegalArgumentException("vertexTag or props not empty")
    ensures r.Success? ==> fresh(r.value)
    ensures r.Success? ==> r.value.graphVertexType == graphVertexType && r.value.id == id && r.value.props == props.value
  {
    if props.None? {
      return Failure(IllegalArgumentException("vertexTag or props not empty"));
    }
    var v := new GraphVertexEntity(graphVertexType, id, props.value);
    return Success(v);
  }

  /** A vertex is equal to itself, and never to null or to an object of another class. */
  lemma VertexEqualsBasics(v: GraphVertexEntity, o: object?)
    ensures v.Equals(v)
    ensures o == null ==> !v.Equals(o)
    ensures !(o is GraphVertexEntity) ==> !v.Equals(o)
  {
  }

  /** Two vertices are equal exactly when they hold the same id object and equal vertex types; the bags play no part. */
  lemma VertexEqualsIff(v: GraphVertexEntity, w: GraphVertexEntity)
    ensures v.Equals(w) <==> v.id == w.id && v.graphVertexType == w.graphVertexType
  {
  }

  /** Vertex equality is symmetric and transitive. */
  lemma VertexEqualsIsEquivalence(u: GraphVertexEntity, v: GraphVertexEntity, w: GraphVertexEntity)
    ensures u.Equals(v) ==> v.Equals(u)
    ensures u.Equals(v) && v.Equals(w) ==> u.Equals(w)
  {
  }

  /** Equal vertices have equal hash codes, whatever the components' own hash functions. */
  lemma EqualVerticesHashEqual(v: GraphVertexEntity, w: GraphVertexEntity, hashOf: HashPart<GraphVertexType> -> Int32)
    requires v.Equals(w)
    ensures v.HashCode(hashOf) == w.HashCode(hashOf)
  {
  }

  /**
   * Two distinct id objects of the same class with the same value (two boxings of the
   * long 1000, say): the vertices built on them hash alike and are equal by value, but
   * the reference comparison makes them unequal.
   */
  method ReferenceIdentityCounterexample() returns (v: GraphVertexEntity, w: GraphVertexEntity)
    ensures v.id.Equals(w.id) && v.graphVertexType == w.graphVertexType && v.props == w.props
    ensures forall hashOf: HashPart<GraphVertexType> -> Int32 :: v.HashCode(hashOf) == w.HashCode(hashOf)
    ensures !v.Equals(w)
    ensures v.EqualsByValue(w)
  {
    var t := GraphVertexType("person", KeyPolicy.Int64);
    var a := new JavaObject("java.lang.Long", "1000");
    var b := new JavaObject("java.lang.Long", "1000");
    v := new GraphVertexEntity(t, a, map[]);
    w := new GraphVertexEntity(t, b, map[]);
  }

  /** The by-value equality is still an equivalence, and every pair the reference comparison accepts it accepts too. */
  lemma EqualsByValueIsEquivalence(u: GraphVertexEntity, v: GraphVertexEntity, w: GraphVertexEntity)
    ensures u.EqualsByValue(u)
    ensures u.EqualsByValue(v) ==> v.EqualsByValue(u)
    ensures u.EqualsByValue(v) && v.EqualsByValue(w) ==> u.EqualsByValue(w)
    ensures u.Equals(v) ==> u.EqualsByValue(v)
  {
  }

  /** Vertices equal by value have equal hash codes: the hash reads the id's value, not its identity. */
  lemma EqualByValueHashEqual(v: GraphVertexEntity, w: GraphVertexEntity, hashOf: HashPart<GraphVertexType> -> Int32)
    requires v.EqualsByValue(w)
    ensures v.HashCode(hashOf) == w.HashCode(hashOf)
  {
  }
}
