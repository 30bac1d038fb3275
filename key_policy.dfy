/**
 * The identifier policies of a vertex type (enum GraphKeyPolicy) and the wrap word
 * each policy uses when its key literal is built.
 *
 * The enum declares three constants, uuid, hash and string_key; the encoder in
 * GraphHelper also tests for a fourth, int64 (a raw 64-bit key passed through
 * unchanged), so the model has all four. The int64 constant has no wrap word in the
 * enum, and the encoder never asks for one.
 */
module KeyPolicy {

  datatype GraphKeyPolicy = Uuid | Hash | StringKey | Int64 {

    /** True for the three constants that the enum declares with a wrap word. */
    predicate Declared() {
      !Int64?
    }
  }

  /** The final `keyWrapWord` field fixed by each enum constant's constructor. */
  function KeyWrapWord(p: GraphKeyPolicy): (w: string)
    requires p.Declared()
    ensures p == StringKey <==> w == ""
  {
    match p
    case Uuid => "uuid"
    case Hash => "hash"
    case StringKey => ""
  }

  /** The wrap words of the three declared constants. */
  lemma WrapWords()
    ensures KeyWrapWord(Uuid) == "uuid"
    ensures KeyWrapWord(Hash) == "hash"
    ensures KeyWrapWord(StringKey) == ""
  {
  }

  /** No two declared constants share a wrap word, so the wrap word identifies the policy. */
  lemma WrapWordsDistinct(p: GraphKeyPolicy, q: GraphKeyPolicy)
    requires p.Declared() && q.Declared()
    ensures KeyWrapWord(p) == KeyWrapWord(q) <==> p == q
  {
  }
}
