# graph-ocean core: identifier encoding, schema collection and entity identity

A Dafny model of the core of an object-to-graph mapping layer for a property-graph store:

- **Key policies** (`KeyPolicy`): the identifier policies of a vertex type and their wrap words.
- **Identifier encoding and sanitising** (`GraphHelper`): a raw key becomes the store's id
  literal according to the vertex type's policy; the query ids of vertices, edge sources and
  edge destinations; the comma-joined ids of a key collection; and the removal of the ten
  characters that would corrupt a statement.
- **Schema collection** (`LabelSchema`): the scan of an annotated class and its ancestors.
  It fills the required-property list, the field map, the data-type map, the
  property-formatter map and the label builder's id, src-id and dst-id formatter slots.
  Which of these a field reaches depends on its role and on the `srcIdAsField`/`dstIdAsField`
  flags. The methods update a `GraphLabelBuilder` and a `FieldCollections` object in place
  and are proved equal to the declarative functions `CollectField`/`CollectFields`.
  The lemmas state the inclusion rules, the scan order, overwriting by later fields, and
  exactly when an exception ends the scan.
- **Entity identity** (`EdgeEntity`, `VertexEntity`): edge and vertex value objects whose
  `equals`/`hashCode` ignore the property bag and the traversal metadata.

Supporting modules: `Wrappers` (Option, Result), `GraphTypes` (the vertex and edge type
descriptors, reduced to what the core reads from them) and `JavaObjects` (id objects with a
runtime class and value-based `equals`, Java's 32-bit `int`, and Guava's `Objects.hashCode`
fold `31 * h + x` with wrap-around).

How Java constructs are rendered:

- Reflection is replaced by explicit data. A field is a `FieldDecl` (a name and an optional
  `GraphProperty`). A class is its own fields followed by each superclass's fields up to
  `Object`. `Constructible(c)` stands for `newInstance` succeeding.
- The id-key extractors of `GraphVertexType`/`GraphEdgeType` are function parameters.
- The components' own hash codes are a function parameter `hashOf`.
- Object identity is Dafny reference identity: ids and entities are class instances.

Points where the model follows the code as written:

- The code tests for a policy `GraphKeyPolicy.int64` that the enum does not declare. The
  policy datatype has it as a fourth case, and `KeyWrapWord` is defined only for the three
  declared constants. The encoder never asks for int64's wrap word.
- The `string_key` literal is `"k"` with a space before and after it: the template is
  `%s "%s" ` and the wrap word is empty.
- The required properties form a list in scan order that may hold duplicates, not a set.
- An edge whose own src and dst ids have different runtime classes compares unequal to
  every object except itself. The code returns `false` there; it does not throw.
- No check for contradictory role metadata exists; a field carries one role.
- A vertex compares ids by reference (`id == that.id`), not by value (see Findings).

## Model

| member | source | states |
|---|---|---|
| KeyPolicy.KeyWrapWord | src/main/java/io/github/anyzm/graph/ocean/enums/GraphKeyPolicy.java:22-39 | the wrap word is empty exactly for string_key; defined for the three declared constants only |
| KeyPolicy.WrapWords | src/main/java/io/github/anyzm/graph/ocean/enums/GraphKeyPolicy.java:22-30 | the wrap words are "uuid", "hash" and "" |
| KeyPolicy.WrapWordsDistinct | src/main/java/io/github/anyzm/graph/ocean/enums/GraphKeyPolicy.java:34-39 | two declared constants have the same wrap word only if they are the same constant |
| GraphHelper.GenerateKeyPolicy | src/main/java/io/github/anyzm/graph/ocean/common/GraphHelper.java:65-73 | the encoder: the template `%s "%s" ` for string_key, the key itself for int64, `%s("%s")` otherwise; its contract states that int64 passes the key through and that under a declared policy the key sits unchanged between the policy's prefix and suffix; EncodingShape, ParseEncode, EncodeParse and EncodeInjective state the rest |
| GraphHelper.EncodingShape | src/main/java/io/github/anyzm/graph/ocean/common/GraphHelper.java:65-73 | under a declared policy a literal is the policy's prefix, the key, and the policy's suffix |
| GraphHelper.EncodeStringKey | src/main/java/io/github/anyzm/graph/ocean/common/GraphHelper.java:40 | string_key encodes k as space, quote, k, quote, space |
| GraphHelper.EncodeInt64 | src/main/java/io/github/anyzm/graph/ocean/common/GraphHelper.java:68-69 | int64 returns the key unchanged |
| GraphHelper.EncodeFunctionCall | src/main/java/io/github/anyzm/graph/ocean/common/GraphHelper.java:39 | uuid and hash encode k as `uuid("k")` and `hash("k")` |
| GraphHelper.ParseEncode | src/main/java/io/github/anyzm/graph/ocean/common/GraphHelper.java:65-73 | parsing the literal built for a key under a policy gives the key back |
| GraphHelper.EncodeParse | src/main/java/io/github/anyzm/graph/ocean/common/GraphHelper.java:65-73 | every text that parses under a policy is the encoding of the parsed key |
| GraphHelper.EncodeInjective | src/main/java/io/github/anyzm/graph/ocean/common/GraphHelper.java:65-73 | for a fixed policy two keys have the same literal iff they are equal |
| GraphHelper.DeclaredPoliciesDisjoint | src/main/java/io/github/anyzm/graph/ocean/common/GraphHelper.java:39-40 | literals of two different declared policies never coincide |
| GraphHelper.GetQueryId | src/main/java/io/github/anyzm/graph/ocean/common/GraphHelper.java:75-79 | the result parses, under the vertex type's policy, to the extracted id key |
| GraphHelper.GetQuerySrcId | src/main/java/io/github/anyzm/graph/ocean/common/GraphHelper.java:81-85 | the result parses, under the source vertex type's policy, to the source-key extractor's output; it equals the source type's query id |
| GraphHelper.GetQueryDstId | src/main/java/io/github/anyzm/graph/ocean/common/GraphHelper.java:87-91 | the result parses, under the destination vertex type's policy, to the destination-key extractor's output; it equals the destination type's query id |
| GraphHelper.QueryIds | src/main/java/io/github/anyzm/graph/ocean/common/GraphHelper.java:106-107 | one encoding per key, in iteration order |
| GraphHelper.GetQueryIdList | src/main/java/io/github/anyzm/graph/ocean/common/GraphHelper.java:100-110 | "" for a null collection; otherwise the per-key encodings joined by "," ("" when empty) |
| GraphHelper.SplitJoin | src/main/java/io/github/anyzm/graph/ocean/common/GraphHelper.java:106-109 | when no literal holds a comma, splitting the joined text at commas gives back the literals |
| GraphHelper.JoinSmall | src/main/java/io/github/anyzm/graph/ocean/common/GraphHelper.java:102-109 | an empty collection gives "", one key gives its encoding, two keys give `a,b` |
| GraphHelper.JoinEndsWithLast | src/main/java/io/github/anyzm/graph/ocean/common/GraphHelper.java:109 | the joined text ends with the last encoding: the trailing comma is cut off |
| GraphHelper.RemoveSpecialChar | src/main/java/io/github/anyzm/graph/ocean/common/GraphHelper.java:119-121 | the output has none of the ten special characters and is no longer than the input |
| GraphHelper.RemoveSpecialCharConcat | src/main/java/io/github/anyzm/graph/ocean/common/GraphHelper.java:119-121 | sanitising a concatenation concatenates the sanitised parts, so the kept characters keep their order |
| GraphHelper.RemoveSpecialCharSingle | src/main/java/io/github/anyzm/graph/ocean/common/GraphHelper.java:41 | a single character is dropped iff it is one of the ten |
| GraphHelper.RemoveSpecialCharCounts | src/main/java/io/github/anyzm/graph/ocean/common/GraphHelper.java:119-121 | every other character occurs as often in the output as in the input; a special one never occurs |
| GraphHelper.RemoveSpecialCharFixpoint | src/main/java/io/github/anyzm/graph/ocean/common/GraphHelper.java:119-121 | a string is unchanged iff it holds no special character |
| GraphHelper.RemoveSpecialCharIdempotent | src/main/java/io/github/anyzm/graph/ocean/common/GraphHelper.java:119-121 | sanitising twice equals sanitising once |
| LabelSchema.UnannotatedFieldChangesNothing | src/main/java/io/github/anyzm/graph/ocean/common/GraphHelper.java:128-131 | a field without the annotation leaves the whole scan state as it was |
| LabelSchema.RoleInclusionRules | src/main/java/io/github/anyzm/graph/ocean/common/GraphHelper.java:136-188 | vertex id enters the field map and must-props iff both flags hold; src id iff srcIdAsField; dst id iff dstIdAsField; ordinary always enters the field map and enters must-props iff required |
| LabelSchema.AnnotatedFieldEffect | src/main/java/io/github/anyzm/graph/ocean/common/GraphHelper.java:132-180 | every annotated field records its data type under its property name; the field map and must-props change exactly as the role rules say, even when an exception follows |
| LabelSchema.FormatterRules | src/main/java/io/github/anyzm/graph/ocean/common/GraphHelper.java:142-187 | a constructible non-default formatter fills its role's slot whatever the flags, or the property formatter map for an ordinary property; each case writes only that one destination and leaves the other three unchanged; an unconstructible one throws FIELD_FORMAT_NO_CONSTRUCTOR and installs nothing; the default one installs nothing |
| LabelSchema.CollectFieldsAppend | src/main/java/io/github/anyzm/graph/ocean/common/GraphHelper.java:206-218 | scanning xs then ys is scanning xs and, if it completed, continuing with ys |
| LabelSchema.ThrewEndsScan | src/main/java/io/github/anyzm/graph/ocean/common/GraphHelper.java:142-187 | after an exception, further fields change nothing |
| LabelSchema.CompletesIffFormattersConstructible | src/main/java/io/github/anyzm/graph/ocean/common/GraphHelper.java:142-187 | a scan completes iff every annotated field's non-default formatter is constructible |
| LabelSchema.UnannotatedFieldsIgnored | src/main/java/io/github/anyzm/graph/ocean/common/GraphHelper.java:128-131 | dropping the unannotated fields does not change the scan's outcome |
| LabelSchema.MustPropsInScanOrder | src/main/java/io/github/anyzm/graph/ocean/common/GraphHelper.java:136-188 | the required list is its old contents followed by one entry per qualifying field, in scan order, duplicates kept |
| LabelSchema.DataTypeMapKeys | src/main/java/io/github/anyzm/graph/ocean/common/GraphHelper.java:133 | the data-type map's keys are the old keys plus exactly the annotated property names |
| LabelSchema.OtherFieldsKeepEntry | src/main/java/io/github/anyzm/graph/ocean/common/GraphHelper.java:136-177 | fields that do not write a name's field-map entry leave that entry as it was |
| LabelSchema.LaterFieldWins | src/main/java/io/github/anyzm/graph/ocean/common/GraphHelper.java:206-218 | a name's field-map entry holds the property name of the last field with that name that writes it |
| LabelSchema.FieldMapKeys | src/main/java/io/github/anyzm/graph/ocean/common/GraphHelper.java:136-177 | a name is in the field map iff it was there before or some field with that name writes it |
| LabelSchema.CollectGraphField | src/main/java/io/github/anyzm/graph/ocean/common/GraphHelper.java:124-193 | the in-place update of the collections and formatter slots equals the declarative rule for one field, and the exception is reported exactly when that rule throws |
| LabelSchema.CollectDeclaredFields | src/main/java/io/github/anyzm/graph/ocean/common/GraphHelper.java:206-209 | the loop over one class's fields equals scanning those fields after the ones already done |
| LabelSchema.CollectClassChain | src/main/java/io/github/anyzm/graph/ocean/common/GraphHelper.java:197-218 | own fields, then each superclass's fields up to Object, with the same flags |
| LabelSchema.CollectGraphProperties | src/main/java/io/github/anyzm/graph/ocean/common/GraphHelper.java:195-224 | on completion the builder holds the class, the four collections and the slots of the full scan; on an exception only the formatter slots set before it have changed |
| EdgeEntity.GraphEdgeEntity.constructor | src/main/java/io/github/anyzm/graph/ocean/domain/impl/GraphEdgeEntity.java:84-92 | edge type, ids, vertex types and bag stored as given; level 0, ignoreDirect false |
| EdgeEntity.GraphEdgeEntity.WithoutProps | src/main/java/io/github/anyzm/graph/ocean/domain/impl/GraphEdgeEntity.java:94-102 | as the other constructor, with an empty bag |
| EdgeEntity.GraphEdgeEntity.IsEquals | src/main/java/io/github/anyzm/graph/ocean/domain/impl/GraphEdgeEntity.java:62-82 | isEquals: identity, then the null and class check, then false when this edge's own ids have different runtime classes, else both ids by `equals` and both endpoint types; no contract of its own, its properties are EdgeEqualsBasics, MixedIdClassesOnlyIdentity, EdgeEqualsIff and EdgeEqualsIsEquivalence |
| EdgeEntity.GraphEdgeEntity.GetHashCode | src/main/java/io/github/anyzm/graph/ocean/domain/impl/GraphEdgeEntity.java:53-60 | getHashCode: the `Objects.hashCode` fold over srcId, dstId, srcVertexType and dstVertexType; no contract of its own, its consistency with equality is EqualEdgesHashEqual |
| EdgeEntity.GraphEdgeEntity.Equals | src/main/java/io/github/anyzm/graph/ocean/domain/impl/GraphEdgeEntity.java:104-107 | equals is exactly isEquals |
| EdgeEntity.GraphEdgeEntity.HashCode | src/main/java/io/github/anyzm/graph/ocean/domain/impl/GraphEdgeEntity.java:109-112 | hashCode is exactly getHashCode |
| EdgeEntity.GraphEdgeEntity.GetVertices | src/main/java/io/github/anyzm/graph/ocean/domain/impl/GraphEdgeEntity.java:114-117 | the source vertex type, then the destination vertex type |
| EdgeEntity.GraphEdgeEntity.GetEdges | src/main/java/io/github/anyzm/graph/ocean/domain/impl/GraphEdgeEntity.java:119-122 | the one-element list holding this edge |
| EdgeEntity.GraphEdgeEntity.SetLevel | src/main/java/io/github/anyzm/graph/ocean/domain/impl/GraphEdgeEntity.java:47-48 | sets level and modifies nothing else |
| EdgeEntity.GraphEdgeEntity.SetIgnoreDirect | src/main/java/io/github/anyzm/graph/ocean/domain/impl/GraphEdgeEntity.java:50-51 | sets ignoreDirect and modifies nothing else |
| EdgeEntity.EdgeEqualsBasics | src/main/java/io/github/anyzm/graph/ocean/domain/impl/GraphEdgeEntity.java:64-69 | an edge equals itself and never equals null or an object of another class |
| EdgeEntity.MixedIdClassesOnlyIdentity | src/main/java/io/github/anyzm/graph/ocean/domain/impl/GraphEdgeEntity.java:72-75 | if the edge's own src and dst ids differ in runtime class, it equals an object iff that object is itself |
| EdgeEntity.EdgeEqualsIff | src/main/java/io/github/anyzm/graph/ocean/domain/impl/GraphEdgeEntity.java:72-81 | otherwise two edges are equal iff both ids are `equals` and both endpoint vertex types are equal; bag, edge type, level and ignoreDirect play no part |
| EdgeEntity.EdgeEqualsIsEquivalence | src/main/java/io/github/anyzm/graph/ocean/domain/impl/GraphEdgeEntity.java:62-82 | edge equality is symmetric and transitive |
| EdgeEntity.EqualEdgesHashEqual | src/main/java/io/github/anyzm/graph/ocean/domain/impl/GraphEdgeEntity.java:53-60 | equal edges have equal hash codes for every choice of component hash functions |
| VertexEntity.GraphVertexEntity.constructor | src/main/java/io/github/anyzm/graph/ocean/domain/impl/GraphVertexEntity.java:36-37 | vertex type, id and bag are stored unchanged |
| VertexEntity.GraphVertexEntity.Equals | src/main/java/io/github/anyzm/graph/ocean/domain/impl/GraphVertexEntity.java:40-51 | equals: identity, then the null and class check, then the same id reference and equal vertex types; no contract of its own, its properties are VertexEqualsBasics, VertexEqualsIff and VertexEqualsIsEquivalence |
| VertexEntity.GraphVertexEntity.HashCode | src/main/java/io/github/anyzm/graph/ocean/domain/impl/GraphVertexEntity.java:53-56 | hashCode: the `Objects.hashCode` fold over id and graphVertexType; no contract of its own, its consistency with equality is EqualVerticesHashEqual and EqualByValueHashEqual |
| VertexEntity.NewGraphVertexEntity | src/main/java/io/github/anyzm/graph/ocean/domain/impl/GraphVertexEntity.java:31-38 | a null bag throws IllegalArgumentException; any other bag, the empty one included, gives a fresh vertex storing the arguments |
| VertexEntity.VertexEqualsBasics | src/main/java/io/github/anyzm/graph/ocean/domain/impl/GraphVertexEntity.java:42-47 | a vertex equals itself and never equals null or an object of another class |
| VertexEntity.VertexEqualsIff | src/main/java/io/github/anyzm/graph/ocean/domain/impl/GraphVertexEntity.java:48-50 | two vertices are equal iff they hold the same id object and equal vertex types; bags play no part |
| VertexEntity.VertexEqualsIsEquivalence | src/main/java/io/github/anyzm/graph/ocean/domain/impl/GraphVertexEntity.java:40-51 | vertex equality is symmetric and transitive |
| VertexEntity.EqualVerticesHashEqual | src/main/java/io/github/anyzm/graph/ocean/domain/impl/GraphVertexEntity.java:53-56 | equal vertices have equal hash codes for every choice of component hash functions |
| VertexEntity.ReferenceIdentityCounterexample | src/main/java/io/github/anyzm/graph/ocean/domain/impl/GraphVertexEntity.java:49 | two vertices on distinct but `equals` id objects hash alike yet are unequal |
| VertexEntity.EqualsByValueIsEquivalence | src/main/java/io/github/anyzm/graph/ocean/domain/impl/GraphVertexEntity.java:40-51 | by-value vertex equality is an equivalence relation, and it holds whenever the as-written equality holds |
| VertexEntity.EqualByValueHashEqual | src/main/java/io/github/anyzm/graph/ocean/domain/impl/GraphVertexEntity.java:53-56 | vertices equal by value have equal hash codes |

## Left out

- `getNebulaCurrentTime` and `changeToNebulaTime`: they read the system clock and the JVM's default time zone.
- `formatFieldValue`: it is a reflective field read followed by `GraphLabel.formatValue`, and GraphLabel is not part of this model.
- GraphMapper and GraphUpdateVertexEngineFactory: interfaces with no logic; the statement executor and the network client behind them are out of scope.
- Reflection mechanics (`setAccessible`, `getAnnotation`, `newInstance`, `getSuperclass`): replaced by `FieldDecl`, `ClassDecl` and `Constructible`. Scanning `Object` itself or an interface, where `getSuperclass` returns null, is not modelled.
- GraphVertexType and GraphEdgeType are not part of this model. Their id-key extractors are function parameters; their `equals` is value equality on the descriptor; null vertex types are not modelled.
- GraphPropertyEntity is not part of this model. The property bag is a map from names to the values' text; an edge built with a null bag is not modelled.
- GraphLabelBuilder internals are not part of this model: the builder is a class whose fields are the slots and collections set here, assigned directly.
- GraphHelper.GenerateKeyPolicy: keys are modelled by their text. For int64 the Java method returns the key object itself rather than its text, and the unchecked cast of a formatted String back to a non-String key type is not modelled. Null keys and a null policy, on which the Java method throws NullPointerException, are not modelled.
- Formatter instances are values determined by their class; the identity of each `newInstance` result is not modelled.
- EdgeEntity.GraphEdgeEntity.GetHashCode and VertexEntity.GraphVertexEntity.HashCode: the exact values of `String.hashCode`, `Long.hashCode` and the vertex types' hash codes are a parameter `hashOf`; only the `Objects.hashCode` combination is exact.
- `equals` of id objects is that of a value class (same runtime class, same value); user-defined `equals` is not modelled. Null ids, for which the edge's `getClass()` call would throw, are not modelled.
- `SPECIAL_CHAR_PATTERN`: the regular-expression engine is modelled as a per-character filter over the pattern's ten characters. A null string, on which `removeSpecialChar` throws NullPointerException, is not modelled.
- The schema cache and concurrent first use belong to the callers, not to the code modelled here. Rebuilding a schema twice gives equal results because `CollectGraphProperties` is specified by a function of its inputs.

## Findings

| source | as written | input that shows it | evidently intended | confidence | as-written member | corrected member |
|---|---|---|---|---|---|---|
| src/main/java/io/github/anyzm/graph/ocean/domain/impl/GraphVertexEntity.java:49 | vertex ids are compared with `==`, by reference | two vertices of one type whose ids are two distinct `java.lang.Long` objects holding 1000 (outside the boxing cache) | compare ids with `equals`, as the edge does and as the hash code, built from the id's value, already assumes | medium, not executed | VertexEntity.ReferenceIdentityCounterexample | VertexEntity.GraphVertexEntity.EqualsByValue |

The corrected equality is proved to be an equivalence relation, to be consistent with the
hash code, and to accept every pair the as-written one accepts (`EqualsByValueIsEquivalence`,
`EqualByValueHashEqual`). The vertex's `Equals` still models the code as written.
