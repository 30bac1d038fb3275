/**
 * Schema collection (collectGraphField and collectGraphProperties of GraphHelper).
 *
 * Reflection is replaced by explicit data: a class is its own declared fields followed
 * by the declared fields of each ancestor below Object, nearest first; a field is its
 * name and its optional GraphProperty annotation; instantiating a formatter class
 * succeeds exactly when the class is `Constructible`.
 *
 * The scan is stated twice: `CollectField`/`CollectFields` are the declarative rules
 * (which collections a field reaches, decided by its role and the two flags), and the
 * methods over `GraphLabelBuilder` and `FieldCollections` update the state in place the
 * way the switch statement does, proved to agree with them.
 */
module LabelSchema {
  import opened Wrappers

  // ---------------------------------------------------------------------------
  // Field descriptors

  /** The role of an annotated field (GraphPropertyTypeEnum). */
  datatype GraphPropertyTypeEnum = GraphVertexId | GraphEdgeSrcId | GraphEdgeDstId | OrdinaryProperty

  /** A declared scalar data type (a GraphDataTypeEnum constant, by name). */
  datatype GraphDataType = GraphDataType(name: string)

  /** A formatter class named in an annotation, and whether `newInstance` succeeds on it. */
  datatype FormatterClass = FormatterClass(name: string, hasUsableNoArgConstructor: bool)

  /** A formatter instance created from its class. */
  datatype ValueFormatter = ValueFormatter(formatterClass: FormatterClass)

  /** The error codes this component raises (ErrorEnum). */
  datatype ErrorEnum = FieldFormatNoConstructor

  /**
   * The GraphProperty annotation: store property name, data type, role, required flag,
   * and the formatter class, None when it is the default GraphValueFormatter itself.
   */
  datatype GraphProperty = GraphProperty(
    value: string,
    dataType: GraphDataType,
    propertyTypeEnum: GraphPropertyTypeEnum,
    required: bool,
    formatter: Option<FormatterClass>)

  /** A declared field: its name and its annotation, None when it carries none. */
  datatype FieldDecl = FieldDecl(name: string, graphProperty: Option<GraphProperty>)

  /** An annotated class: its own fields, then the fields of each superclass up to (not including) Object. */
  datatype ClassDecl = ClassDecl(name: string, declaredFields: seq<FieldDecl>, superclassFields: seq<seq<FieldDecl>>)

  /** Whether `formatter.newInstance()` returns an instance rather than throwing. */
  predicate Constructible(c: FormatterClass) {
    c.hasUsableNoArgConstructor
  }

  // ---------------------------------------------------------------------------
  // The declarative rules

  /** What the scan builds: the four collections and the builder's three id formatter slots. */
  datatype Collected = Collected(
    mustProps: seq<string>,
    propertyFieldMap: map<string, string>,
    dataTypeMap: map<string, GraphDataType>,
    propertyFormatMap: map<string, ValueFormatter>,
    idValueFormatter: Option<ValueFormatter>,
    srcIdValueFormatter: Option<ValueFormatter>,
    dstIdValueFormatter: Option<ValueFormatter>)

  /** A scan either completes, or throws with the state reached when the exception was raised. */
  datatype Outcome = Completed(state: Collected) | Threw(state: Collected, error: ErrorEnum)

  /** The field map and the required list start empty; the formatter slots keep what the builder held. */
  function InitialScan(idF: Option<ValueFormatter>, srcF: Option<ValueFormatter>, dstF: Option<ValueFormatter>): Collected {
    Collected([], map[], map[], map[], idF, srcF, dstF)
  }

  /** Whether an annotated field enters the field map, by its role and the two flags. */
  predicate EntersFieldMap(p: GraphProperty, srcIdAsField: bool, dstIdAsField: bool) {
    match p.propertyTypeEnum
    case GraphVertexId => srcIdAsField && dstIdAsField
    case GraphEdgeSrcId => srcIdAsField
    case GraphEdgeDstId => dstIdAsField
    case OrdinaryProperty => true
  }

  /** Whether an annotated field's property name is added to the required list. */
  predicate EntersMustProps(p: GraphProperty, srcIdAsField: bool, dstIdAsField: bool) {
    if p.propertyTypeEnum == OrdinaryProperty then p.required
    else EntersFieldMap(p, srcIdAsField, dstIdAsField)
  }

  /** Where a formatter instance goes: the slot of its id role, or the property formatter map. */
  function InstallFormatter(s: Collected, p: GraphProperty, f: ValueFormatter): Collected {
    match p.propertyTypeEnum
    case GraphVertexId => s.(idValueFormatter := Some(f))
    case GraphEdgeSrcId => s.(srcIdValueFormatter := Some(f))
    case GraphEdgeDstId => s.(dstIdValueFormatter := Some(f))
    case OrdinaryProperty => s.(propertyFormatMap := s.propertyFormatMap[p.value := f])
  }

  /** The effect of one field on the scan. */
  function CollectField(s: Collected, field: FieldDecl, srcIdAsField: bool, dstIdAsField: bool): Outcome {
    match field.graphProperty
    case None => Completed(s)
    case Some(p) =>
      var entered := s.(
        dataTypeMap := s.dataTypeMap[p.value := p.dataType],
        propertyFieldMap :=
          if EntersFieldMap(p, srcIdAsField, dstIdAsField) then s.propertyFieldMap[field.name := p.value]
          else s.propertyFieldMap,
        mustProps :=
          if EntersMustProps(p, srcIdAsField, dstIdAsField) then s.mustProps + [p.value]
          else s.mustProps);
      match p.formatter
      case None => Completed(entered)
      case Some(c) =>
        if Constructible(c) then Completed(InstallFormatter(entered, p, ValueFormatter(c)))
        else Threw(entered, FieldFormatNoConstructor)
  }

  /** The effect of a sequence of fields scanned in order; the first exception ends the scan. */
  function CollectFields(s: Collected, fields: seq<FieldDecl>, srcIdAsField: bool, dstIdAsField: bool): Outcome
    decreases |fields|
  {
    if fields == [] then Completed(s)
    else
      match CollectField(s, fields[0], srcIdAsField, dstIdAsField)
      case Threw(t, e) => Threw(t, e)
      case Completed(t) => CollectFields(t, fields[1..], srcIdAsField, dstIdAsField)
  }

  /** Continue an outcome with more fields. */
  function Then(o: Outcome, fields: seq<FieldDecl>, srcIdAsField: bool, dstIdAsField: bool): Outcome {
    match o
    case Threw(_, _) => o
    case Completed(s) => CollectFields(s, fields, srcIdAsField, dstIdAsField)
  }

  function Flatten(xss: seq<seq<FieldDecl>>): seq<FieldDecl> {
    if xss == [] then [] else xss[0] + Flatten(xss[1..])
  }

  /** All fields in scan order: the class's own fields, then each ancestor's. */
  function AllFields(clazz: ClassDecl): seq<FieldDecl> {
    clazz.declaredFields + Flatten(clazz.superclassFields)
  }

  /** The whole collection of a class with the given flags, from the builder's current formatter slots. */
  function CollectGraphPropertiesSpec(
    clazz: ClassDecl, idF: Option<ValueFormatter>, srcF: Option<ValueFormatter>, dstF: Option<ValueFormatter>,
    srcIdAsField: bool, dstIdAsField: bool): Outcome
  {
    CollectFields(InitialScan(idF, srcF, dstF), AllFields(clazz), srcIdAsField, dstIdAsField)
  }

  // ---------------------------------------------------------------------------
  // Properties of one field

  /** A field without the annotation changes nothing. */
  lemma UnannotatedFieldChangesNothing(s: Collected, field: FieldDecl, srcIdAsField: bool, dstIdAsField: bool)
    requires field.graphProperty.None?
    ensures CollectField(s, field, srcIdAsField, dstIdAsField) == Completed(s)
  {
  }

  /**
   * The role rules: a vertex id enters the field map and the required list only when both
   * flags are set, a source id only with srcIdAsField, a destination id only with
   * dstIdAsField; an ordinary property always enters the field map and enters the
   * required list only when marked required.
   */
  lemma RoleInclusionRules(p: GraphProperty, srcIdAsField: bool, dstIdAsField: bool)
    ensures p.propertyTypeEnum == GraphVertexId ==>
      (EntersFieldMap(p, srcIdAsField, dstIdAsField) <==> srcIdAsField && dstIdAsField) &&
      (EntersMustProps(p, srcIdAsField, dstIdAsField) <==> srcIdAsField && dstIdAsField)
    ensures p.propertyTypeEnum == GraphEdgeSrcId ==>
      (EntersFieldMap(p, srcIdAsField, dstIdAsField) <==> srcIdAsField) &&
      (EntersMustProps(p, srcIdAsField, dstIdAsField) <==> srcIdAsField)
    ensures p.propertyTypeEnum == GraphEdgeDstId ==>
      (EntersFieldMap(p, srcIdAsField, dstIdAsField) <==> dstIdAsField) &&
      (EntersMustProps(p, srcIdAsField, dstIdAsField) <==> dstIdAsField)
    ensures p.propertyTypeEnum == OrdinaryProperty ==>
      EntersFieldMap(p, srcIdAsField, dstIdAsField) &&
      (EntersMustProps(p, srcIdAsField, dstIdAsField) <==> p.required)
  {
  }

  /**
   * What one annotated field does to the collections, whether or not a formatter
   * exception follows: its data type is always recorded, the field map gains
   * `name -> value` and the required list gains `value` exactly as the role rules say.
   */
  lemma AnnotatedFieldEffect(s: Collected, field: FieldDecl, srcIdAsField: bool, dstIdAsField: bool)
    requires field.graphProperty.Some?
    ensures var p, r := field.graphProperty.value, CollectField(s, field, srcIdAsField, dstIdAsField).state;
      && r.dataTypeMap == s.dataTypeMap[p.value := p.dataType]
      && r.propertyFieldMap == (if EntersFieldMap(p, srcIdAsField, dstIdAsField) then s.propertyFieldMap[field.name := p.value] else s.propertyFieldMap)
      && r.mustProps == (if EntersMustProps(p, srcIdAsField, dstIdAsField) then s.mustProps + [p.value] else s.mustProps)
  {
  }

  /**
   * Formatters: a field with a non-default constructible formatter installs an instance in
   * its role's slot (whatever the flags) or, for an ordinary property, in the property
   * formatter map under its property name; an unconstructible one raises
   * FIELD_FORMAT_NO_CONSTRUCTOR; the default formatter leaves the slots alone. Each case
   * writes one destination only and leaves the other three as they were.
   */
  lemma FormatterRules(s: Collected, field: FieldDecl, srcIdAsField: bool, dstIdAsField: bool)
    requires field.graphProperty.Some?
    ensures var p, o := field.graphProperty.value, CollectField(s, field, srcIdAsField, dstIdAsField);
      && (o.Threw? <==> p.formatter.Some? && !Constructible(p.formatter.value))
      && (o.Threw? ==> o.error == FieldFormatNoConstructor)
      && (p.formatter.None? || o.Threw? ==>
            o.state.idValueFormatter == s.idValueFormatter && o.state.srcIdValueFormatter == s.srcIdValueFormatter &&
            o.state.dstIdValueFormatter == s.dstIdValueFormatter && o.state.propertyFormatMap == s.propertyFormatMap)
      && (p.formatter.Some? && o.Completed? ==>
            var f := ValueFormatter(p.formatter.value);
            match p.propertyTypeEnum
            case GraphVertexId =>
              && o.state.idValueFormatter == Some(f)
              && o.state.srcIdValueFormatter == s.srcIdValueFormatter
              && o.state.dstIdValueFormatter == s.dstIdValueFormatter
              && o.state.propertyFormatMap == s.propertyFormatMap
            case GraphEdgeSrcId =>
              && o.state.srcIdValueFormatter == Some(f)
              && o.state.idValueFormatter == s.idValueFormatter
              && o.state.dstIdValueFormatter == s.dstIdValueFormatter
              && o.state.propertyFormatMap == s.propertyFormatMap
            case GraphEdgeDstId =>
              && o.state.dstIdValueFormatter == Some(f)
              && o.state.idValueFormatter == s.idValueFormatter
              && o.state.srcIdValueFormatter == s.srcIdValueFormatter
              && o.state.propertyFormatMap == s.propertyFormatMap
            case OrdinaryProperty =>
              && o.state.propertyFormatMap == s.propertyFormatMap[p.value := f]
              && o.state.idValueFormatter == s.idValueFormatter
              && o.state.srcIdValueFormatter == s.srcIdValueFormatter
              && o.state.dstIdValueFormatter == s.dstIdValueFormatter)
  {
  }

  // ---------------------------------------------------------------------------
  // Properties of a whole scan

  /** Scanning `xs + ys` is scanning `xs` and then, if it completed, `ys`. */
  lemma {:induction false} CollectFieldsAppend(s: Collected, xs: seq<FieldDecl>, ys: seq<FieldDecl>, srcIdAsField: bool, dstIdAsField: bool)
    ensures CollectFields(s, xs + ys, srcIdAsField, dstIdAsField)
         == Then(CollectFields(s, xs, srcIdAsField, dstIdAsField), ys, srcIdAsField, dstIdAsField)
    decreases |xs|
  {
    if xs == [] {
      assert xs + ys == ys;
    } else {
      assert (xs + ys)[0] == xs[0];
      assert (xs + ys)[1..] == xs[1..] + ys;
      match CollectField(s, xs[0], srcIdAsField, dstIdAsField)
      case Threw(_, _) =>
      case Completed(t) => CollectFieldsAppend(t, xs[1..], ys, srcIdAsField, dstIdAsField);
    }
  }

  /** Scanning one more field continues the outcome so far with that field. */
  lemma CollectFieldsSnoc(s: Collected, xs: seq<FieldDecl>, f: FieldDecl, srcIdAsField: bool, dstIdAsField: bool)
    ensures CollectFields(s, xs + [f], srcIdAsField, dstIdAsField)
         == match CollectFields(s, xs, srcIdAsField, dstIdAsField)
            case Threw(t, e) => Threw(t, e)
            case Completed(t) => CollectField(t, f, srcIdAsField, dstIdAsField)
  {
    CollectFieldsAppend(s, xs, [f], srcIdAsField, dstIdAsField);
    match CollectFields(s, xs, srcIdAsField, dstIdAsField)
    case Threw(_, _) =>
    case Completed(t) =>
      assert [f][0] == f && [f][1..] == [];
      match CollectField(t, f, srcIdAsField, dstIdAsField)
      case Threw(_, _) =>
      case Completed(u) => assert CollectFields(u, [], srcIdAsField, dstIdAsField) == Completed(u);
  }

  /** The first exception ends the scan: fields after it change nothing. */
  lemma ThrewEndsScan(s: Collected, xs: seq<FieldDecl>, ys: seq<FieldDecl>, srcIdAsField: bool, dstIdAsField: bool)
    requires CollectFields(s, xs, srcIdAsField, dstIdAsField).Threw?
    ensures CollectFields(s, xs + ys, srcIdAsField, dstIdAsField) == CollectFields(s, xs, srcIdAsField, dstIdAsField)
  {
    CollectFieldsAppend(s, xs, ys, srcIdAsField, dstIdAsField);
  }

  /** A field whose formatter, if any, can be instantiated. */
  predicate FormatterOk(field: FieldDecl) {
    field.graphProperty.None? || field.graphProperty.value.formatter.None? ||
    Constructible(field.graphProperty.value.formatter.value)
  }

  /** A scan completes exactly when every annotated field's non-default formatter is constructible. */
  lemma {:induction false} CompletesIffFormattersConstructible(s: Collected, fields: seq<FieldDecl>, srcIdAsField: bool, dstIdAsField: bool)
    ensures CollectFields(s, fields, srcIdAsField, dstIdAsField).Completed?
        <==> forall i :: 0 <= i < |fields| ==> FormatterOk(fields[i])
    decreases |fields|
  {
    if fields != [] {
      match CollectField(s, fields[0], srcIdAsField, dstIdAsField)
      case Threw(_, _) =>
      case Completed(t) =>
        CompletesIffFormattersConstructible(t, fields[1..], srcIdAsField, dstIdAsField);
        assert forall i :: 1 <= i < |fields| ==> fields[i] == fields[1..][i - 1];
    }
  }

  /** The annotated fields, in order. */
  function Annotated(fields: seq<FieldDecl>): (r: seq<FieldDecl>)
    ensures |r| <= |fields|
    ensures forall i :: 0 <= i < |r| ==> r[i].graphProperty.Some?
  {
    if fields == [] then []
    else (if fields[0].graphProperty.Some? then [fields[0]] else []) + Annotated(fields[1..])
  }

  /** Fields without the annotation can be dropped from the scan without changing its outcome. */
  lemma {:induction false} UnannotatedFieldsIgnored(s: Collected, fields: seq<FieldDecl>, srcIdAsField: bool, dstIdAsField: bool)
    ensures CollectFields(s, Annotated(fields), srcIdAsField, dstIdAsField) == CollectFields(s, fields, srcIdAsField, dstIdAsField)
    decreases |fields|
  {
    if fields != [] {
      var f := fields[0];
      if f.graphProperty.None? {
        assert Annotated(fields) == [] + Annotated(fields[1..]);
        assert [] + Annotated(fields[1..]) == Annotated(fields[1..]);
        assert CollectField(s, f, srcIdAsField, dstIdAsField) == Completed(s);
        UnannotatedFieldsIgnored(s, fields[1..], srcIdAsField, dstIdAsField);
      } else {
        var a := Annotated(fields[1..]);
        assert Annotated(fields) == [f] + a;
        assert ([f] + a)[0] == f && ([f] + a)[1..] == a;
        match CollectField(s, f, srcIdAsField, dstIdAsField)
        case Threw(_, _) =>
        case Completed(t) => UnannotatedFieldsIgnored(t, fields[1..], srcIdAsField, dstIdAsField);
      }
    }
  }

  /** The property names a scan adds to the required list, in scan order, duplicates kept. */
  function MustPropsOf(fields: seq<FieldDecl>, srcIdAsField: bool, dstIdAsField: bool): seq<string> {
    if fields == [] then []
    else
      var f := fields[0];
      (if f.graphProperty.Some? && EntersMustProps(f.graphProperty.value, srcIdAsField, dstIdAsField)
       then [f.graphProperty.value.value] else [])
      + MustPropsOf(fields[1..], srcIdAsField, dstIdAsField)
  }

  /** The required list is appended to in scan order: what it held, then one entry per qualifying field. */
  lemma {:induction false} MustPropsInScanOrder(s: Collected, fields: seq<FieldDecl>, srcIdAsField: bool, dstIdAsField: bool)
    requires CollectFields(s, fields, srcIdAsField, dstIdAsField).Completed?
    ensures CollectFields(s, fields, srcIdAsField, dstIdAsField).state.mustProps
         == s.mustProps + MustPropsOf(fields, srcIdAsField, dstIdAsField)
    decreases |fields|
  {
    if fields != [] {
      var t := CollectField(s, fields[0], srcIdAsField, dstIdAsField).state;
      MustPropsInScanOrder(t, fields[1..], srcIdAsField, dstIdAsField);
    }
  }

  /** The property names of the annotated fields. */
  function AnnotatedValues(fields: seq<FieldDecl>): set<string> {
    set i | 0 <= i < |fields| && fields[i].graphProperty.Some? :: fields[i].graphProperty.value.value
  }

  /** Every annotated field records its data type: the keys of the data type map are exactly the annotated property names. */
  lemma {:induction false} DataTypeMapKeys(s: Collected, fields: seq<FieldDecl>, srcIdAsField: bool, dstIdAsField: bool)
    requires CollectFields(s, fields, srcIdAsField, dstIdAsField).Completed?
    ensures CollectFields(s, fields, srcIdAsField, dstIdAsField).state.dataTypeMap.Keys
         == s.dataTypeMap.Keys + AnnotatedValues(fields)
    decreases |fields|
  {
    if fields != [] {
      var t := CollectField(s, fields[0], srcIdAsField, dstIdAsField).state;
      DataTypeMapKeys(t, fields[1..], srcIdAsField, dstIdAsField);
      var head := if fields[0].graphProperty.Some? then {fields[0].graphProperty.value.value} else {};
      assert t.dataTypeMap.Keys == s.dataTypeMap.Keys + head;
      assert AnnotatedValues(fields) == head + AnnotatedValues(fields[1..]) by {
        forall v | v in AnnotatedValues(fields) ensures v in head + AnnotatedValues(fields[1..]) {
          var i :| 0 <= i < |fields| && fields[i].graphProperty.Some? && fields[i].graphProperty.value.value == v;
          if i > 0 { assert fields[1..][i - 1] == fields[i]; }
        }
        forall v | v in AnnotatedValues(fields[1..]) ensures v in AnnotatedValues(fields) {
          var i :| 0 <= i < |fields[1..]| && fields[1..][i].graphProperty.Some? && fields[1..][i].graphProperty.value.value == v;
          assert fields[i + 1] == fields[1..][i];
        }
      }
    }
  }

  /** Whether a field, as scanned with the flags, writes the field map entry of its name. */
  predicate WritesFieldMap(field: FieldDecl, srcIdAsField: bool, dstIdAsField: bool) {
    field.graphProperty.Some? && EntersFieldMap(field.graphProperty.value, srcIdAsField, dstIdAsField)
  }

  /** Fields that do not write the entry of `n` leave that entry as it was. */
  lemma {:induction false} OtherFieldsKeepEntry(s: Collected, fields: seq<FieldDecl>, n: string, srcIdAsField: bool, dstIdAsField: bool)
    requires CollectFields(s, fields, srcIdAsField, dstIdAsField).Completed?
    requires forall i :: 0 <= i < |fields| ==> !(fields[i].name == n && WritesFieldMap(fields[i], srcIdAsField, dstIdAsField))
    ensures var m := CollectFields(s, fields, srcIdAsField, dstIdAsField).state.propertyFieldMap;
      (n in m <==> n in s.propertyFieldMap) && (n in m ==> m[n] == s.propertyFieldMap[n])
    decreases |fields|
  {
    if fields != [] {
      var t := CollectField(s, fields[0], srcIdAsField, dstIdAsField).state;
      assert forall i :: 0 <= i < |fields[1..]| ==> fields[1..][i] == fields[i + 1];
      OtherFieldsKeepEntry(t, fields[1..], n, srcIdAsField, dstIdAsField);
    }
  }

  /**
   * A later field overwrites: the entry of a name holds the property name of the last
   * field with that name that writes it (an ancestor's field overriding the class's own).
   */
  lemma LaterFieldWins(s: Collected, xs: seq<FieldDecl>, f: FieldDecl, ys: seq<FieldDecl>, srcIdAsField: bool, dstIdAsField: bool)
    requires WritesFieldMap(f, srcIdAsField, dstIdAsField)
    requires forall i :: 0 <= i < |ys| ==> !(ys[i].name == f.name && WritesFieldMap(ys[i], srcIdAsField, dstIdAsField))
    requires CollectFields(s, xs + [f] + ys, srcIdAsField, dstIdAsField).Completed?
    ensures var m := CollectFields(s, xs + [f] + ys, srcIdAsField, dstIdAsField).state.propertyFieldMap;
      f.name in m && m[f.name] == f.graphProperty.value.value
  {
    CollectFieldsAppend(s, xs + [f], ys, srcIdAsField, dstIdAsField);
    CollectFieldsSnoc(s, xs, f, srcIdAsField, dstIdAsField);
    var mid := CollectFields(s, xs + [f], srcIdAsField, dstIdAsField);
    OtherFieldsKeepEntry(mid.state, ys, f.name, srcIdAsField, dstIdAsField);
  }

  /** The field map's keys are what it held plus the names of exactly the fields that write it. */
  lemma {:induction false} FieldMapKeys(s: Collected, fields: seq<FieldDecl>, srcIdAsField: bool, dstIdAsField: bool)
    requires CollectFields(s, fields, srcIdAsField, dstIdAsField).Completed?
    ensures forall n :: (n in CollectFields(s, fields, srcIdAsField, dstIdAsField).state.propertyFieldMap
      <==> n in s.propertyFieldMap ||
           exists i :: 0 <= i < |fields| && fields[i].name == n && WritesFieldMap(fields[i], srcIdAsField, dstIdAsField))
    decreases |fields|
  {
    if fields != [] {
      var t := CollectField(s, fields[0], srcIdAsField, dstIdAsField).state;
      FieldMapKeys(t, fields[1..], srcIdAsField, dstIdAsField);
      var r := CollectFields(s, fields, srcIdAsField, dstIdAsField).state;
      forall n ensures n in r.propertyFieldMap
        <==> n in s.propertyFieldMap ||
             exists i :: 0 <= i < |fields| && fields[i].name == n && WritesFieldMap(fields[i], srcIdAsField, dstIdAsField)
      {
        if exists i :: 0 <= i < |fields[1..]| && fields[1..][i].name == n && WritesFieldMap(fields[1..][i], srcIdAsField, dstIdAsField) {
          var i :| 0 <= i < |fields[1..]| && fields[1..][i].name == n && WritesFieldMap(fields[1..][i], srcIdAsField, dstIdAsField);
          assert fields[i + 1] == fields[1..][i];
        }
        if exists i :: 0 <= i < |fields| && fields[i].name == n && WritesFieldMap(fields[i], srcIdAsField, dstIdAsField) {
          var i :| 0 <= i < |fields| && fields[i].name == n && WritesFieldMap(fields[i], srcIdAsField, dstIdAsField);
          if i > 0 { assert fields[1..][i - 1] == fields[i]; }
        }
      }
    }
  }

  // ---------------------------------------------------------------------------
  // The state the scan updates in place

  /** The label builder: the class, the collections it receives, and the three id formatter slots. */
  class GraphLabelBuilder {
    var labelClass: Option<string>
    var idValueFormatter: Option<ValueFormatter>
    var srcIdValueFormatter: Option<ValueFormatter>
    var dstIdValueFormatter: Option<ValueFormatter>
    var dataTypeMap: map<string, GraphDataType>
    var mustProps: seq<string>
    var propertyFieldMap: map<string, string>
    var propertyFormatMap: map<string, ValueFormatter>

    constructor ()
      ensures labelClass.None? && idValueFormatter.None? && srcIdValueFormatter.None? && dstIdValueFormatter.None?
      ensures dataTypeMap == map[] && mustProps == [] && propertyFieldMap == map[] && propertyFormatMap == map[]
    {
      labelClass := None;
      idValueFormatter, srcIdValueFormatter, dstIdValueFormatter := None, None, None;
      dataTypeMap, mustProps, propertyFieldMap, propertyFormatMap := map[], [], map[], map[];
    }
  }

  /** The list and the three hash maps that a scan fills before handing them to the builder. */
  class FieldCollections {
    var mustProps: seq<string>
    var propertyFieldMap: map<string, string>
    var dataTypeMap: map<string, GraphDataType>
    var propertyFormatMap: map<string, ValueFormatter>

    constructor ()
      ensures mustProps == [] && propertyFieldMap == map[] && dataTypeMap == map[] && propertyFormatMap == map[]
    {
      mustProps, propertyFieldMap, dataTypeMap, propertyFormatMap := [], map[], map[], map[];
    }
  }

  /** The scan state held by a builder and a set of collections. */
  function View(b: GraphLabelBuilder, c: FieldCollections): Collected
    reads b, c
  {
    Collected(c.mustProps, c.propertyFieldMap, c.dataTypeMap, c.propertyFormatMap,
              b.idValueFormatter, b.srcIdValueFormatter, b.dstIdValueFormatter)
  }

  /**
   * collectGraphField: updates the collections and the builder's id formatter slots for one
   * field, and reports the exception it throws, if any.
   */
  method CollectGraphField(b: GraphLabelBuilder, declaredField: FieldDecl, c: FieldCollections, srcIdAsField: bool, dstIdAsField: bool)
    returns (thrown: Option<ErrorEnum>)
    modifies b`idValueFormatter, b`srcIdValueFormatter, b`dstIdValueFormatter, c
    ensures CollectField(old(View(b, c)), declaredField, srcIdAsField, dstIdAsField)
         == if thrown.None? then Completed(View(b, c)) else Threw(View(b, c), thrown.value)
  {
    if declaredField.graphProperty.None? {
      return None;
    }
    var graphProperty := declaredField.graphProperty.value;
    var value := graphProperty.value;
    c.dataTypeMap := c.dataTypeMap[value := graphProperty.dataType];
    var formatter := graphProperty.formatter;
    match graphProperty.propertyTypeEnum {
      case GraphVertexId =>
        if srcIdAsField && dstIdAsField {
          c.propertyFieldMap := c.propertyFieldMap[declaredField.name := value];
          c.mustProps := c.mustProps + [value];
        }
        if formatter.Some? {
          if !Constructible(formatter.value) {
            return Some(FieldFormatNoConstructor);
          }
          b.idValueFormatter := Some(ValueFormatter(formatter.value));
        }
      case GraphEdgeSrcId =>
        if srcIdAsField {
          c.propertyFieldMap := c.propertyFieldMap[declaredField.name := value];
          c.mustProps := c.mustProps + [value];
        }
        if formatter.Some? {
          if !Constructible(formatter.value) {
            return Some(FieldFormatNoConstructor);
          }
          b.srcIdValueFormatter := Some(ValueFormatter(formatter.value));
        }
      case GraphEdgeDstId =>
        if dstIdAsField {
          c.propertyFieldMap := c.propertyFieldMap[declaredField.name := value];
          c.mustProps := c.mustProps + [value];
        }
        if formatter.Some? {
          if !Constructible(formatter.value) {
            return Some(FieldFormatNoConstructor);
          }
          b.dstIdValueFormatter := Some(ValueFormatter(formatter.value));
        }
      case OrdinaryProperty =>
        c.propertyFieldMap := c.propertyFieldMap[declaredField.name := value];
        if graphProperty.required {
          c.mustProps := c.mustProps + [value];
        }
        if formatter.Some? {
          if !Constructible(formatter.value) {
            return Some(FieldFormatNoConstructor);
          }
          c.propertyFormatMap := c.propertyFormatMap[value := ValueFormatter(formatter.value)];
        }
    }
    return None;
  }

  /**
   * The loop over one class's declared fields: each field in order, stopping at the
   * first exception. `done` is the ghost record of the fields scanned before.
   */
  method CollectDeclaredFields(
    b: GraphLabelBuilder, c: FieldCollections, declaredFields: seq<FieldDecl>, srcIdAsField: bool, dstIdAsField: bool,
    ghost init: Collected, ghost done: seq<FieldDecl>)
    returns (thrown: Option<ErrorEnum>)
    requires CollectFields(init, done, srcIdAsField, dstIdAsField) == Completed(View(b, c))
    modifies b`idValueFormatter, b`srcIdValueFormatter, b`dstIdValueFormatter, c
    ensures CollectFields(init, done + declaredFields, srcIdAsField, dstIdAsField)
         == if thrown.None? then Completed(View(b, c)) else Threw(View(b, c), thrown.value)
  {
    assert done + declaredFields[..0] == done;
    for i := 0 to |declaredFields|
      invariant CollectFields(init, done + declaredFields[..i], srcIdAsField, dstIdAsField) == Completed(View(b, c))
    {
      var declaredField := declaredFields[i];
      thrown := CollectGraphField(b, declaredField, c, srcIdAsField, dstIdAsField);
      CollectFieldsSnoc(init, done + declaredFields[..i], declaredField, srcIdAsField, dstIdAsField);
      assert done + declaredFields[..i + 1] == done + declaredFields[..i] + [declaredField];
      if thrown.Some? {
        assert declaredFields == declaredFields[..i + 1] + declaredFields[i + 1..];
        assert done + declaredFields == (done + declaredFields[..i + 1]) + declaredFields[i + 1..];
        ThrewEndsScan(init, done + declaredFields[..i + 1], declaredFields[i + 1..], srcIdAsField, dstIdAsField);
        return;
      }
    }
    assert declaredFields[..|declaredFields|] == declaredFields;
    thrown := None;
  }

  /**
   * The two loops of collectGraphProperties: the class's own declared fields, then, while
   * the superclass is not Object, that superclass's declared fields.
   */
  method CollectClassChain(b: GraphLabelBuilder, c: FieldCollections, clazz: ClassDecl, srcIdAsField: bool, dstIdAsField: bool)
    returns (thrown: Option<ErrorEnum>)
    modifies b`idValueFormatter, b`srcIdValueFormatter, b`dstIdValueFormatter, c
    ensures CollectFields(old(View(b, c)), AllFields(clazz), srcIdAsField, dstIdAsField)
         == if thrown.None? then Completed(View(b, c)) else Threw(View(b, c), thrown.value)
  {
    ghost var init := View(b, c);
    ghost var all := AllFields(clazz);
    var superclasses := clazz.superclassFields;
    thrown := CollectDeclaredFields(b, c, clazz.declaredFields, srcIdAsField, dstIdAsField, init, []);
    assert [] + clazz.declaredFields == clazz.declaredFields;
    ghost var done := clazz.declaredFields;
    if thrown.Some? {
      ThrewEndsScan(init, done, Flatten(superclasses), srcIdAsField, dstIdAsField);
      return;
    }
    assert superclasses[0..] == superclasses;
    var k := 0;
    while k < |superclasses|
      invariant 0 <= k <= |superclasses|
      invariant thrown.None?
      invariant all == done + Flatten(superclasses[k..])
      invariant CollectFields(init, done, srcIdAsField, dstIdAsField) == Completed(View(b, c))
    {
      var declaredFields := superclasses[k];
      assert Flatten(superclasses[k..]) == declaredFields + Flatten(superclasses[k + 1..]) by {
        assert superclasses[k..][0] == declaredFields && superclasses[k..][1..] == superclasses[k + 1..];
      }
      thrown := CollectDeclaredFields(b, c, declaredFields, srcIdAsField, dstIdAsField, init, done);
      assert all == (done + declaredFields) + Flatten(superclasses[k + 1..]);
      done := done + declaredFields;
      if thrown.Some? {
        ThrewEndsScan(init, done, Flatten(superclasses[k + 1..]), srcIdAsField, dstIdAsField);
        return;
      }
      k := k + 1;
    }
    assert done == all;
  }

  /**
   * collectGraphProperties: scans the class's own fields and then each superclass's,
   * with the same flags; on completion the builder receives the class and the four
   * collections, and on an exception only the formatter slots set before it remain.
   */
  method CollectGraphProperties(b: GraphLabelBuilder, clazz: ClassDecl, srcIdAsField: bool, dstIdAsField: bool)
    returns (thrown: Option<ErrorEnum>)
    modifies b
    ensures var o := CollectGraphPropertiesSpec(clazz, old(b.idValueFormatter), old(b.srcIdValueFormatter),
                                                old(b.dstIdValueFormatter), srcIdAsField, dstIdAsField);
      && (thrown.None? <==> o.Completed?)
      && (thrown.Some? ==> thrown.value == o.error)
      && b.idValueFormatter == o.state.idValueFormatter
      && b.srcIdValueFormatter == o.state.srcIdValueFormatter
      && b.dstIdValueFormatter == o.state.dstIdValueFormatter
      && (o.Completed? ==>
            && b.labelClass == Some(clazz.name)
            && b.dataTypeMap == o.state.dataTypeMap
            && b.mustProps == o.state.mustProps
            && b.propertyFieldMap == o.state.propertyFieldMap
            && b.propertyFormatMap == o.state.propertyFormatMap)
      && (o.Threw? ==>
            && b.labelClass == old(b.labelClass)
            && b.dataTypeMap == old(b.dataTypeMap)
            && b.mustProps == old(b.mustProps)
            && b.propertyFieldMap == old(b.propertyFieldMap)
            && b.propertyFormatMap == old(b.propertyFormatMap))
  {
    var c := new FieldCollections();
    assert View(b, c) == InitialScan(b.idValueFormatter, b.srcIdValueFormatter, b.dstIdValueFormatter);
    thrown := CollectClassChain(b, c, clazz, srcIdAsField, dstIdAsField);
    if thrown.Some? {
      return;
    }
    b.labelClass := Some(clazz.name);
    b.dataTypeMap := c.dataTypeMap;
    b.mustProps := c.mustProps;
    b.propertyFieldMap := c.propertyFieldMap;
    b.propertyFormatMap := c.propertyFormatMap;
  }
}
