/**
 * Identifier encoding and sanitising (the string functions of GraphHelper).
 *
 * A raw key becomes the store's identifier literal according to the key policy of the
 * vertex type: `string_key` gives a double-quoted literal between two spaces, `int64`
 * passes the key through, and `uuid`/`hash` give a call of the store-side id
 * function, `uuid("k")`. Keys are modelled by their text.
 */
module GraphHelper {
  import opened Wrappers
  import opened KeyPolicy
  import opened GraphTypes

  // ---------------------------------------------------------------------------
  // Single-key encoding

  /**
   * generateKeyPolicy: the template `%s "%s" ` for string_key, the key itself for
   * int64, and the template `%s("%s")` for every other policy.
   */
  function GenerateKeyPolicy(graphKeyPolicy: GraphKeyPolicy, vertexIdKey: string): (r: string)
    ensures graphKeyPolicy == Int64 ==> r == vertexIdKey
    ensures graphKeyPolicy.Declared() ==>
      && |r| == |LiteralPrefix(graphKeyPolicy)| + |vertexIdKey| + |LiteralSuffix(graphKeyPolicy)|
      && r[|LiteralPrefix(graphKeyPolicy)|..|r| - |LiteralSuffix(graphKeyPolicy)|] == vertexIdKey
  {
    if graphKeyPolicy == StringKey then
      KeyWrapWord(graphKeyPolicy) + " \"" + vertexIdKey + "\" "
    else if graphKeyPolicy == Int64 then
      vertexIdKey
    else
      KeyWrapWord(graphKeyPolicy) + "(\"" + vertexIdKey + "\")"
  }

  /** The text an encoded literal starts with under a declared policy. */
  function LiteralPrefix(p: GraphKeyPolicy): string
    requires p.Declared()
  {
    if p == StringKey then " \"" else KeyWrapWord(p) + "(\""
  }

  /** The text an encoded literal ends with under a declared policy. */
  function LiteralSuffix(p: GraphKeyPolicy): string
    requires p.Declared()
  {
    if p == StringKey then "\" " else "\")"
  }

  /**
   * The inverse of the encoding: the raw key a literal was built from, or None when
   * the text is not a literal of that policy.
   */
  function ParseKeyLiteral(p: GraphKeyPolicy, s: string): (r: Option<string>)
    ensures r.Some? ==> |r.value| <= |s|
  {
    if p == Int64 then Some(s)
    else
      var pre, suf := LiteralPrefix(p), LiteralSuffix(p);
      if |pre| + |suf| <= |s| && s[..|pre|] == pre && s[|s| - |suf|..] == suf then
        Some(s[|pre|..|s| - |suf|])
      else None
  }

  /** Under a declared policy a literal is prefix, key and suffix. */
  lemma EncodingShape(p: GraphKeyPolicy, k: string)
    requires p.Declared()
    ensures GenerateKeyPolicy(p, k) == LiteralPrefix(p) + k + LiteralSuffix(p)
  {
  }

  /** string_key: the wrap word is empty, so the literal is `"k"` with a space on each side. */
  lemma EncodeStringKey(k: string)
    ensures GenerateKeyPolicy(StringKey, k) == [' '] + ['"'] + k + ['"'] + [' ']
  {
  }

  /** int64: the key is returned unchanged. */
  lemma EncodeInt64(k: string)
    ensures GenerateKeyPolicy(Int64, k) == k
  {
  }

  /** uuid and hash: the literal is a call of the function named by the wrap word. */
  lemma EncodeFunctionCall(k: string)
    ensures GenerateKeyPolicy(Uuid, k) == "uuid(\"" + k + "\")"
    ensures GenerateKeyPolicy(Hash, k) == "hash(\"" + k + "\")"
    ensures GenerateKeyPolicy(Uuid, "abc") == "uuid(\"abc\")"
  {
  }

  /** Parsing an encoded literal gives back the raw key. */
  lemma ParseEncode(p: GraphKeyPolicy, k: string)
    ensures ParseKeyLiteral(p, GenerateKeyPolicy(p, k)) == Some(k)
  {
  }

  /** Every text that parses is the encoding of what it parses to. */
  lemma EncodeParse(p: GraphKeyPolicy, s: string, k: string)
    requires ParseKeyLiteral(p, s) == Some(k)
    ensures GenerateKeyPolicy(p, k) == s
  {
  }

  /** For a fixed policy the encoding is injective: distinct keys give distinct literals. */
  lemma EncodeInjective(p: GraphKeyPolicy, a: string, b: string)
    ensures GenerateKeyPolicy(p, a) == GenerateKeyPolicy(p, b) <==> a == b
  {
    ParseEncode(p, a);
    ParseEncode(p, b);
  }

  /** Literals of two different declared policies never coincide: the first character tells them apart. */
  lemma DeclaredPoliciesDisjoint(p: GraphKeyPolicy, q: GraphKeyPolicy, a: string, b: string)
    requires p.Declared() && q.Declared() && p != q
    ensures GenerateKeyPolicy(p, a) != GenerateKeyPolicy(q, b)
  {
    EncodingShape(p, a);
    EncodingShape(q, b);
    assert GenerateKeyPolicy(p, a)[0] == LiteralPrefix(p)[0];
    assert GenerateKeyPolicy(q, b)[0] == LiteralPrefix(q)[0];
  }

  // ---------------------------------------------------------------------------
  // Query ids of vertices and edge endpoints

  /**
   * getQueryId for one key: the vertex type's id-key extractor (passed in, its class is
   * not part of this model), then the vertex type's own policy.
   */
  function GetQueryId(vertexTag: GraphVertexType, getVertexIdKey: string -> string, vertexKey: string): (r: string)
    ensures ParseKeyLiteral(vertexTag.graphKeyPolicy, r) == Some(getVertexIdKey(vertexKey))
  {
    ParseEncode(vertexTag.graphKeyPolicy, getVertexIdKey(vertexKey));
    GenerateKeyPolicy(vertexTag.graphKeyPolicy, getVertexIdKey(vertexKey))
  }

  /** getQuerySrcId: the edge type's source-key extractor, then the SOURCE vertex type's policy. */
  function GetQuerySrcId(edgeType: GraphEdgeType, getSrcIdKey: string -> string, vertexKey: string): (r: string)
    ensures ParseKeyLiteral(edgeType.srcVertexType.graphKeyPolicy, r) == Some(getSrcIdKey(vertexKey))
    ensures r == GetQueryId(edgeType.srcVertexType, getSrcIdKey, vertexKey)
  {
    ParseEncode(edgeType.srcVertexType.graphKeyPolicy, getSrcIdKey(vertexKey));
    GenerateKeyPolicy(edgeType.srcVertexType.graphKeyPolicy, getSrcIdKey(vertexKey))
  }

  /** getQueryDstId: the edge type's destination-key extractor, then the DESTINATION vertex type's policy. */
  function GetQueryDstId(edgeType: GraphEdgeType, getDstIdKey: string -> string, vertexKey: string): (r: string)
    ensures ParseKeyLiteral(edgeType.dstVertexType.graphKeyPolicy, r) == Some(getDstIdKey(vertexKey))
    ensures r == GetQueryId(edgeType.dstVertexType, getDstIdKey, vertexKey)
  {
    ParseEncode(edgeType.dstVertexType.graphKeyPolicy, getDstIdKey(vertexKey));
    GenerateKeyPolicy(edgeType.dstVertexType.graphKeyPolicy, getDstIdKey(vertexKey))
  }

  // ---------------------------------------------------------------------------
  // Query ids of a collection of keys

  /** The per-key encodings of a collection, in iteration order. */
  function QueryIds(vertexTag: GraphVertexType, getVertexIdKey: string -> string, keys: seq<string>): (r: seq<string>)
    ensures |r| == |keys|
    ensures forall i :: 0 <= i < |keys| ==> r[i] == GetQueryId(vertexTag, getVertexIdKey, keys[i])
  {
    seq(|keys|, i requires 0 <= i < |keys| => GetQueryId(vertexTag, getVertexIdKey, keys[i]))
  }

  /** The elements joined by ",", with no separator after the last one. */
  function Join(xs: seq<string>): string {
    if |xs| == 0 then ""
    else if |xs| == 1 then xs[0]
    else Join(xs[..|xs| - 1]) + "," + xs[|xs| - 1]
  }

  /** Splitting at every ",", the partner of Join. */
  function Split(s: string): (r: seq<string>)
    ensures |r| >= 1
  {
    if s == [] then [""]
    else
      var front := Split(s[..|s| - 1]);
      if s[|s| - 1] == ',' then front + [""]
      else front[..|front| - 1] + [front[|front| - 1] + [s[|s| - 1]]]
  }

  predicate NoComma(s: string) {
    forall i :: 0 <= i < |s| ==> s[i] != ','
  }

  /** A text without a comma splits into itself. */
  lemma {:induction false} SplitNoComma(s: string)
    requires NoComma(s)
    ensures Split(s) == [s]
  {
    if s != [] {
      SplitNoComma(s[..|s| - 1]);
      assert s[..|s| - 1] + [s[|s| - 1]] == s;
    }
  }

  /** Splitting `p,a` for a comma-free `a` splits `p` and adds `a`. */
  lemma {:induction false} SplitAfterComma(p: string, a: string)
    requires NoComma(a)
    ensures Split(p + "," + a) == Split(p) + [a]
  {
    var s := p + "," + a;
    if a == [] {
      assert s[..|s| - 1] == p;
    } else {
      var a' := a[..|a| - 1];
      assert s[..|s| - 1] == p + "," + a';
      assert a' + [a[|a| - 1]] == a;
      SplitAfterComma(p, a');
    }
  }

  /** When no key literal holds a comma, splitting the joined text gives the literals back. */
  lemma {:induction false} SplitJoin(xs: seq<string>)
    requires |xs| >= 1
    requires forall i :: 0 <= i < |xs| ==> NoComma(xs[i])
    ensures Split(Join(xs)) == xs
  {
    if |xs| == 1 {
      SplitNoComma(xs[0]);
    } else {
      var front := xs[..|xs| - 1];
      SplitJoin(front);
      SplitAfterComma(Join(front), xs[|xs| - 1]);
      assert front + [xs[|xs| - 1]] == xs;
    }
  }

  /** The exact shapes of the joined text for zero, one and two keys. */
  lemma JoinSmall(a: string, b: string)
    ensures Join([]) == ""
    ensures Join([a]) == a
    ensures Join([a, b]) == a + "," + b
  {
  }

  /** The joined text ends like its last element: no trailing separator is added. */
  lemma JoinEndsWithLast(xs: seq<string>)
    requires |xs| >= 1
    ensures |Join(xs)| >= |xs[|xs| - 1]|
    ensures Join(xs)[|Join(xs)| - |xs[|xs| - 1]|..] == xs[|xs| - 1]
  {
  }

  /**
   * getQueryId for a collection: "" for a null or empty collection; otherwise each key's
   * encoding followed by ",", after which the last character is cut off.
   */
  method GetQueryIdList(vertexTag: GraphVertexType, getVertexIdKey: string -> string, vertexKeyList: Option<seq<string>>)
    returns (r: string)
    ensures vertexKeyList.None? ==> r == ""
    ensures vertexKeyList.Some? ==> r == Join(QueryIds(vertexTag, getVertexIdKey, vertexKeyList.value))
  {
    if vertexKeyList.None? || |vertexKeyList.value| == 0 {
      return "";
    }
    var keys := vertexKeyList.value;
    ghost var encoded := QueryIds(vertexTag, getVertexIdKey, keys);
    var stringBuilder := "";
    for i := 0 to |keys|
      invariant i == 0 ==> stringBuilder == ""
      invariant i > 0 ==> stringBuilder == Join(encoded[..i]) + ","
    {
      stringBuilder := stringBuilder + GetQueryId(vertexTag, getVertexIdKey, keys[i]) + ",";
      assert encoded[..i + 1][..i] == encoded[..i];
    }
    assert encoded[..|keys|] == encoded;
    r := stringBuilder[..|stringBuilder| - 1];
  }

  // ---------------------------------------------------------------------------
  // Sanitising

  /** The characters of SPECIAL_CHAR_PATTERN: newline, tab, both quotes, parentheses, angle brackets, slash, backslash. */
  predicate IsSpecialChar(c: char) {
    c in {'\n', '\t', '"', '\'', '(', ')', '<', '>', '/', '\\'}
  }

  /** removeSpecialChar: every match of the pattern replaced by nothing. */
  function RemoveSpecialChar(str: string): (r: string)
    ensures |r| <= |str|
    ensures forall i :: 0 <= i < |r| ==> !IsSpecialChar(r[i])
  {
    if str == [] then []
    else (if IsSpecialChar(str[0]) then [] else [str[0]]) + RemoveSpecialChar(str[1..])
  }

  /** Removal works character by character, so it keeps the order of what it keeps. */
  lemma {:induction false} RemoveSpecialCharConcat(a: string, b: string)
    ensures RemoveSpecialChar(a + b) == RemoveSpecialChar(a) + RemoveSpecialChar(b)
  {
    if a != [] {
      assert (a + b)[1..] == a[1..] + b;
      RemoveSpecialCharConcat(a[1..], b);
    } else {
      assert a + b == b;
    }
  }

  /** A single character is dropped exactly when it is special. */
  lemma RemoveSpecialCharSingle(c: char)
    ensures RemoveSpecialChar([c]) == if IsSpecialChar(c) then [] else [c]
  {
  }

  /** Every ordinary character occurs in the output as often as in the input; no special one occurs. */
  lemma {:induction false} RemoveSpecialCharCounts(str: string, c: char)
    ensures IsSpecialChar(c) ==> multiset(RemoveSpecialChar(str))[c] == 0
    ensures !IsSpecialChar(c) ==> multiset(RemoveSpecialChar(str))[c] == multiset(str)[c]
  {
    if str != [] {
      RemoveSpecialCharCounts(str[1..], c);
      assert str == [str[0]] + str[1..];
    }
  }

  predicate HasNoSpecialChar(s: string) {
    forall i :: 0 <= i < |s| ==> !IsSpecialChar(s[i])
  }

  /** A string is left unchanged exactly when it holds no special character. */
  lemma {:induction false} RemoveSpecialCharFixpoint(str: string)
    ensures RemoveSpecialChar(str) == str <==> HasNoSpecialChar(str)
  {
    if str != [] {
      RemoveSpecialCharFixpoint(str[1..]);
      if RemoveSpecialChar(str) == str {
        assert |RemoveSpecialChar(str[1..])| <= |str| - 1;
        assert !IsSpecialChar(str[0]);
      }
    }
  }

  /** Sanitising twice is sanitising once. */
  lemma RemoveSpecialCharIdempotent(str: string)
    ensures RemoveSpecialChar(RemoveSpecialChar(str)) == RemoveSpecialChar(str)
  {
    RemoveSpecialCharFixpoint(RemoveSpecialChar(str));
  }
}
