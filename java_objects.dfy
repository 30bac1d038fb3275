/**
 * Stand-ins for the Java runtime facts the entity classes depend on: objects with a
 * runtime class, value-based `equals`, 32-bit `int` arithmetic and Guava's
 * `Objects.hashCode` combinator.
 */
module JavaObjects {

  /** A runtime class, named by its binary name (for example "java.lang.Long"). */
  type ClassTag = string

  /** Java's 32-bit `int`. */
  type Int32 = x: int | -0x8000_0000 <= x < 0x8000_0000

  /** Two's-complement truncation of an unbounded integer to 32 bits, as Java's `int` arithmetic wraps. */
  function ToInt32(x: int): (r: Int32)
    ensures (r - x) % 0x1_0000_0000 == 0
    ensures -0x8000_0000 <= x < 0x8000_0000 ==> r == x
  {
    var m := x % 0x1_0000_0000;
    if m < 0x8000_0000 then m else m - 0x1_0000_0000
  }

  /**
   * An identifier object: an allocated reference with a runtime class and the value
   * that the class's `equals` compares (the boxed number or the characters of a string).
   */
  class JavaObject {
    const runtimeClass: ClassTag
    const value: string

    constructor (runtimeClass: ClassTag, value: string)
      ensures this.runtimeClass == runtimeClass && this.value == value
    {
      this.runtimeClass := runtimeClass;
      this.value := value;
    }

    /** `equals` of a value class: the same runtime class and the same value. */
    predicate Equals(that: JavaObject)
      ensures Equals(that) ==> runtimeClass == that.runtimeClass
    {
      runtimeClass == that.runtimeClass && value == that.value
    }
  }

  /** `equals` of a value class is an equivalence, and identity implies it. */
  lemma EqualsIsEquivalence(a: JavaObject, b: JavaObject, c: JavaObject)
    ensures a.Equals(a)
    ensures a.Equals(b) ==> b.Equals(a)
    ensures a.Equals(b) && b.Equals(c) ==> a.Equals(c)
  {
  }

  /**
   * What a component contributes to a combined hash: the state its own `hashCode`
   * reads. For a value class that is its runtime class and value, never its identity.
   */
  datatype HashPart<T> = IdPart(runtimeClass: ClassTag, value: string) | TypePart(t: T)

  function IdHashPart<T>(o: JavaObject): HashPart<T> {
    IdPart(o.runtimeClass, o.value)
  }

  /**
   * Guava `Objects.hashCode(a, b, ...)`, which is `Arrays.hashCode`: start from 1 and
   * fold `31 * result + h` over the components' hash codes with 32-bit wrap-around.
   * The components' own hash codes are the parameter `hashOf`.
   */
  function ObjectsHashCode<T>(hashOf: HashPart<T> -> Int32, parts: seq<HashPart<T>>): (h: Int32)
  {
    if parts == [] then 1
    else ToInt32(31 * ObjectsHashCode(hashOf, parts[..|parts| - 1]) + hashOf(parts[|parts| - 1]))
  }
}
