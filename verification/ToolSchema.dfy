/** Normalisation of tool schemas for the LLM providers, and what it does to the values they accept. */
module ToolSchema {
  import opened Prelude
  import opened JsonSchema

  datatype NullableStyle = Extension | Drop

  datatype Options = Options(
    nullableStyle: NullableStyle, stripFormat: bool, stripConstraints: bool,
    forceAdditionalPropertiesFalse: bool, forceAllRequired: bool)

  const GEMINI := Options(Extension, true, true, false, false)
  const OPENAI := Options(Drop, false, false, false, false)
  const ANTHROPIC := Options(Drop, false, false, true, true)

  datatype RootSchema = RootSchema(metaSchema: Option<string>, schema: Schema, definitions: map<string, Schema>)

  function StripTitle(m: Option<Metadata>): Option<Metadata> {
    if m.Some? && m.value.title.Some? then
      var m := m.value.(title := None);
      if m == NO_METADATA then None else Some(m)
    else m
  }

  function NonNull(ts: seq<InstanceType>): (r: seq<InstanceType>)
    ensures |r| <= |ts| && TNull !in r
    ensures |r| == |ts| <==> TNull !in ts
    ensures TNull !in ts ==> r == ts
    ensures forall t :: t in r <==> t in ts && t != TNull
  {
    if ts == [] then []
    else if ts[0] == TNull then NonNull(ts[1..])
    else [ts[0]] + NonNull(ts[1..])
  }

  predicate HadNull(t: Option<Types>) {
    t.Some? && t.value.Many? && |NonNull(t.value.ts)| < |t.value.ts|
  }

  function DropNull(t: Option<Types>): Option<Types> {
    if !HadNull(t) then t
    else
      var ts := NonNull(t.value.ts);
      if |ts| == 1 then Some(Single(ts[0])) else Some(Many(ts))
  }

  function StripNumber(r: Option<NumberRules>): Option<NumberRules> {
    if r.Some? then Some(NumberRules(None, None, None, None, None)) else None
  }

  function StripText(r: Option<StringRules>): Option<StringRules> {
    if r.Some? then Some(StringRules(None, None, None)) else None
  }

  /** The keywords of one schema object that hold no subschema. */
  function NormalizeLeaf(s: Schema, opts: Options): (r: Schema)
    requires s.ObjectSchema?
    ensures r.ObjectSchema?
  {
    s.(metadata := StripTitle(s.metadata),
       instanceType := DropNull(s.instanceType),
       extensions := if HadNull(s.instanceType) && opts.nullableStyle.Extension?
                     then s.extensions["nullable" := JBool(true)] else s.extensions,
       format := if opts.stripFormat then None else s.format,
       number := if opts.stripConstraints then StripNumber(s.number) else s.number,
       text := if opts.stripConstraints then StripText(s.text) else s.text)
  }

  function Normalize(s: Schema, opts: Options): Schema
    decreases s, 1
  {
    match s
    case BoolSchema(_) => s
    case ObjectSchema(_, _, _, _, _, _, _, _, _, _, _, _) =>
      var leaf := NormalizeLeaf(s, opts);
      leaf.(
        obj := if s.obj.Some? then Some(NormalizeObject(s.obj.value, opts)) else None,
        arr := if s.arr.Some? then Some(NormalizeArray(s.arr.value, opts)) else None,
        sub := if s.sub.Some? then Some(NormalizeSub(s.sub.value, opts)) else None)
  }

  function NormalizeList(list: seq<Schema>, opts: Options): seq<Schema>
    decreases list, 0
  {
    seq(|list|, i requires 0 <= i < |list| => Normalize(list[i], opts))
  }

  function NormalizeBranches(b: Branches, opts: Options): Branches
    decreases b, 0
  {
    if b.Branches? then Branches(NormalizeList(b.list, opts)) else Absent
  }

  /** The Boolean schema that strictness adds is left alone by the recursion after it. */
  function NormalizeObject(r: ObjectRules, opts: Options): ObjectRules
    decreases r, 0
  {
    r.(required := if opts.forceAllRequired then r.required + r.properties.Keys else r.required,
       properties := map k | k in r.properties :: Normalize(r.properties[k], opts),
       additionalProperties :=
         if r.additionalProperties.Some? then Some(Normalize(r.additionalProperties.value, opts))
         else if opts.forceAdditionalPropertiesFalse then Some(BoolSchema(false))
         else None)
  }

  function NormalizeArray(r: ArrayRules, opts: Options): ArrayRules
    decreases r, 0
  {
    r.(items := match r.items
                case None => None
                case Some(Every(item)) => Some(Every(Normalize(item, opts)))
                case Some(Positional(list)) => Some(Positional(NormalizeList(list, opts))))
  }

  function NormalizeSub(r: Subschemas, opts: Options): Subschemas
    decreases r, 0
  {
    r.(anyOf := NormalizeBranches(r.anyOf, opts),
       oneOf := NormalizeBranches(r.oneOf, opts),
       allOf := NormalizeBranches(r.allOf, opts))
  }

  function NormalizeRoot(root: RootSchema, opts: Options): RootSchema {
    RootSchema(None,
               if root.schema.ObjectSchema? then Normalize(root.schema.(metadata := None), opts)
               else root.schema,
               root.definitions)
  }

  // ---- The same as code: fields overwritten one by one, loops over the subschemas ----

  method NormalizeSchema(root: RootSchema, opts: Options) returns (out: RootSchema)
    ensures out == NormalizeRoot(root, opts)
  {
    out := root.(metaSchema := None);
    if root.schema.ObjectSchema? {
      var schema := NormalizeObj(root.schema.(metadata := None), opts);
      out := out.(schema := schema);
    }
  }

  method NormalizeRef(schema: Schema, opts: Options) returns (out: Schema)
    ensures out == Normalize(schema, opts)
    decreases schema, 4
  {
    out := schema;
    if schema.ObjectSchema? {
      out := NormalizeObj(schema, opts);
    }
  }

  method NormalizeEach(list: seq<Schema>, opts: Options) returns (out: seq<Schema>)
    ensures out == NormalizeList(list, opts)
    decreases list, 0
  {
    out := [];
    for i := 0 to |list|
      invariant |out| == i
      invariant forall k :: 0 <= k < i ==> out[k] == Normalize(list[k], opts)
    {
      var s := NormalizeRef(list[i], opts);
      out := out + [s];
    }
  }

  method NormalizeLeafFields(schema: Schema, opts: Options) returns (out: Schema)
    requires schema.ObjectSchema?
    ensures out == NormalizeLeaf(schema, opts)
  {
    out := schema;
    if out.metadata.Some? && out.metadata.value.title.Some? {
      var m := out.metadata.value.(title := None);
      out := out.(metadata := if m == NO_METADATA then None else Some(m));
    }
    if schema.instanceType.Some? && schema.instanceType.value.Many? {
      var types := schema.instanceType.value.ts;
      var nonNull := NonNull(types);
      if |nonNull| < |types| {
        out := out.(instanceType := Some(if |nonNull| == 1 then Single(nonNull[0]) else Many(nonNull)));
        if opts.nullableStyle == Extension {
          out := out.(extensions := out.extensions["nullable" := JBool(true)]);
        }
      }
    }
    if opts.stripFormat {
      out := out.(format := None);
    }
    if opts.stripConstraints {
      if out.number.Some? { out := out.(number := Some(NumberRules(None, None, None, None, None))); }
      if out.text.Some? { out := out.(text := Some(StringRules(None, None, None))); }
    }
  }

  method NormalizeProperties(rules: ObjectRules, opts: Options) returns (done: map<string, Schema>)
    ensures done == map k | k in rules.properties :: Normalize(rules.properties[k], opts)
    decreases rules, 0
  {
    done := map[];
    var todo := rules.properties.Keys;
    while todo != {}
      invariant todo <= rules.properties.Keys && done.Keys == rules.properties.Keys - todo
      invariant forall k :: k in done ==> done[k] == Normalize(rules.properties[k], opts)
      decreases |todo|
    {
      var k :| k in todo;
      var prop := NormalizeRef(rules.properties[k], opts);
      done := done[k := prop];
      todo := todo - {k};
    }
  }

  method NormalizeObjectRules(rules: ObjectRules, opts: Options) returns (out: ObjectRules)
    ensures out == NormalizeObject(rules, opts)
    decreases rules, 1
  {
    out := rules;
    if opts.forceAllRequired {
      out := out.(required := out.required + rules.properties.Keys);
    }
    if opts.forceAdditionalPropertiesFalse && out.additionalProperties.None? {
      out := out.(additionalProperties := Some(BoolSchema(false)));
    }
    var properties := NormalizeProperties(rules, opts);
    out := out.(properties := properties);
    if rules.additionalProperties.Some? {
      var additional := NormalizeRef(rules.additionalProperties.value, opts);
      out := out.(additionalProperties := Some(additional));
    }
  }

  method NormalizeArrayRules(rules: ArrayRules, opts: Options) returns (out: ArrayRules)
    ensures out == NormalizeArray(rules, opts)
    decreases rules, 0
  {
    out := rules;
    if rules.items.Some? {
      match rules.items.value {
        case Every(s) =>
          var item := NormalizeRef(s, opts);
          out := out.(items := Some(Every(item)));
        case Positional(v) =>
          var list := NormalizeEach(v, opts);
          out := out.(items := Some(Positional(list)));
      }
    }
  }

  method NormalizeSubschemas(sub: Subschemas, opts: Options) returns (out: Subschemas)
    ensures out == NormalizeSub(sub, opts)
    decreases sub, 0
  {
    out := sub;
    if sub.anyOf.Branches? {
      var list := NormalizeEach(sub.anyOf.list, opts);
      out := out.(anyOf := Branches(list));
    }
    if sub.oneOf.Branches? {
      var list := NormalizeEach(sub.oneOf.list, opts);
      out := out.(oneOf := Branches(list));
    }
    if sub.allOf.Branches? {
      var list := NormalizeEach(sub.allOf.list, opts);
      out := out.(allOf := Branches(list));
    }
  }

  method NormalizeObj(schema: Schema, opts: Options) returns (out: Schema)
    requires schema.ObjectSchema?
    ensures out == Normalize(schema, opts)
    decreases schema, 3
  {
    out := NormalizeLeafFields(schema, opts);
    if schema.obj.Some? {
      var rules := NormalizeObjectRules(schema.obj.value, opts);
      out := out.(obj := Some(rules));
    }
    if schema.arr.Some? {
      var rules := NormalizeArrayRules(schema.arr.value, opts);
      out := out.(arr := Some(rules));
    }
    if schema.sub.Some? {
      var sub := NormalizeSubschemas(schema.sub.value, opts);
      out := out.(sub := Some(sub));
    }
  }

  // ---- A schema weakened keyword by keyword accepts more ----

  ghost predicate ListBelow(env: Env, dom: Domain, a: seq<Schema>, b: seq<Schema>) {
    |a| == |b| && forall i :: 0 <= i < |a| ==> Below(env, dom, a[i], b[i])
  }

  ghost predicate BranchesBelow(env: Env, dom: Domain, a: Branches, b: Branches) {
    a.Branches? == b.Branches? && (a.Branches? ==> ListBelow(env, dom, a.list, b.list))
  }

  ghost predicate ItemsBelow(env: Env, dom: Domain, a: Option<Items>, b: Option<Items>) {
    match (a, b)
    case (None, None) => true
    case (Some(Every(x)), Some(Every(y))) => Below(env, dom, x, y)
    case (Some(Positional(x)), Some(Positional(y))) => ListBelow(env, dom, x, y)
    case _ => false
  }

  ghost predicate ArrayBelow(env: Env, dom: Domain, a: ArrayRules, b: ArrayRules) {
    a.(items := None) == b.(items := None) && ItemsBelow(env, dom, a.items, b.items)
  }

  ghost predicate ObjectBelow(env: Env, dom: Domain, a: ObjectRules, b: ObjectRules) {
    && a.maxProperties == b.maxProperties && a.minProperties == b.minProperties
    && a.patternProperties == b.patternProperties && a.propertyNames == b.propertyNames
    && b.required <= a.required
    && a.properties.Keys == b.properties.Keys
    && (forall k :: k in a.properties ==> Below(env, dom, a.properties[k], b.properties[k]))
    && (b.additionalProperties.Some? ==>
          a.additionalProperties.Some? && Below(env, dom, a.additionalProperties.value, b.additionalProperties.value))
  }

  ghost predicate AtMostOne(env: Env, list: seq<Schema>, v: Json) {
    forall i, j :: 0 <= i < j < |list| && Validates(env, list[i], v) ==> !Validates(env, list[j], v)
  }

  /** No value of the domain is accepted by two of the schemas. */
  ghost predicate Apart(env: Env, dom: Domain, list: seq<Schema>) {
    forall v :: Within(dom, v) ==> AtMostOne(env, list, v)
  }

  /** The branches are the same, or weaker ones of which no two accept one value. */
  ghost predicate OneOfBelow(env: Env, dom: Domain, a: Branches, b: Branches) {
    a == b || (BranchesBelow(env, dom, a, b) && (b.Branches? ==> Apart(env, dom, b.list)))
  }

  ghost predicate SubBelow(env: Env, dom: Domain, a: Subschemas, b: Subschemas) {
    && a.(allOf := Absent, anyOf := Absent, oneOf := Absent) == b.(allOf := Absent, anyOf := Absent, oneOf := Absent)
    && BranchesBelow(env, dom, a.allOf, b.allOf) && BranchesBelow(env, dom, a.anyOf, b.anyOf)
    && OneOfBelow(env, dom, a.oneOf, b.oneOf)
  }

  ghost predicate LeafBelow(env: Env, dom: Domain, a: Schema, b: Schema)
    requires a.ObjectSchema? && b.ObjectSchema?
  {
    && a.reference == b.reference
    && (forall v :: Within(dom, v) && TypeOk(env, a.instanceType, a.extensions, v) ==>
         TypeOk(env, b.instanceType, b.extensions, v))
    && a.enumValues == b.enumValues && a.constValue == b.constValue
    && (b.format == a.format || b.format.None?)
    && (forall v :: NumberOk(a.number, v) ==> NumberOk(b.number, v))
    && (forall v :: StringOk(env, a.text, v) ==> StringOk(env, b.text, v))
  }

  lemma ArrayMonotone(env: Env, dom: Domain, a: Schema, b: Schema, v: Json)
    requires a.ObjectSchema? && b.ObjectSchema? && a.arr.Some? && b.arr.Some? && v.JArray? && Within(dom, v)
    requires ArrayBelow(env, dom, a.arr.value, b.arr.value) && ArrayOk(env, a, a.arr.value, v)
    ensures ArrayOk(env, b, b.arr.value, v)
  {
  }

  lemma ObjectMonotone(env: Env, dom: Domain, a: Schema, b: Schema, v: Json)
    requires a.ObjectSchema? && b.ObjectSchema? && a.obj.Some? && b.obj.Some? && v.JObject? && Within(dom, v)
    requires ObjectBelow(env, dom, a.obj.value, b.obj.value) && ObjectOk(env, a, a.obj.value, v)
    ensures ObjectOk(env, b, b.obj.value, v)
  {
  }

  lemma SubMonotone(env: Env, dom: Domain, a: Schema, b: Schema, v: Json)
    requires a.ObjectSchema? && b.ObjectSchema? && a.sub.Some? && b.sub.Some? && Within(dom, v)
    requires SubBelow(env, dom, a.sub.value, b.sub.value) && SubOk(env, a, a.sub.value, v)
    ensures SubOk(env, b, b.sub.value, v)
  {
    var x, y := a.sub.value, b.sub.value;
    if x.anyOf.Branches? {
      var i :| 0 <= i < |x.anyOf.list| && Validates(env, x.anyOf.list[i], v);
      assert Below(env, dom, x.anyOf.list[i], y.anyOf.list[i]);
    }
    if x.oneOf.Branches? && x.oneOf != y.oneOf { OneOfMonotone(env, dom, x.oneOf.list, y.oneOf.list, v); }
    var rest := x.(allOf := Absent, anyOf := Absent, oneOf := Absent);
    assert rest.negated == y.negated && rest.cond == y.cond && rest.thenOf == y.thenOf && rest.elseOf == y.elseOf;
  }

  ghost predicate ExactlyOne(env: Env, list: seq<Schema>, v: Json) {
    exists i :: 0 <= i < |list| && Validates(env, list[i], v)
                && forall j :: 0 <= j < |list| && j != i ==> !Validates(env, list[j], v)
  }

  lemma OneOfMonotone(env: Env, dom: Domain, a: seq<Schema>, b: seq<Schema>, v: Json)
    requires ListBelow(env, dom, a, b) && Apart(env, dom, b) && Within(dom, v) && ExactlyOne(env, a, v)
    ensures ExactlyOne(env, b, v)
  {
    var i :| 0 <= i < |a| && Validates(env, a[i], v)
             && forall j :: 0 <= j < |a| && j != i ==> !Validates(env, a[j], v);
    assert Below(env, dom, a[i], b[i]);
    assert Validates(env, b[i], v) && AtMostOne(env, b, v);
  }

  lemma SizesMonotone(env: Env, dom: Domain, a: Schema, b: Schema, v: Json)
    requires a.ObjectSchema? && b.ObjectSchema? && a.arr.Some? == b.arr.Some? && a.obj.Some? == b.obj.Some?
    requires a.arr.Some? ==> ArrayBelow(env, dom, a.arr.value, b.arr.value)
    requires a.obj.Some? ==> ObjectBelow(env, dom, a.obj.value, b.obj.value)
    requires SizesOk(a, v)
    ensures SizesOk(b, v)
  {
    if a.arr.Some? {
      var x, y := a.arr.value, b.arr.value;
      assert x.(items := None).maxItems == y.(items := None).maxItems;
      assert x.(items := None).minItems == y.(items := None).minItems;
      assert x.(items := None).uniqueItems == y.(items := None).uniqueItems;
    }
  }

  /** The congruence both directions rest on. */
  lemma Monotone(env: Env, dom: Domain, a: Schema, b: Schema)
    requires a.ObjectSchema? && b.ObjectSchema? && LeafBelow(env, dom, a, b)
    requires a.arr.Some? == b.arr.Some? && a.obj.Some? == b.obj.Some? && a.sub.Some? == b.sub.Some?
    requires a.arr.Some? ==> ArrayBelow(env, dom, a.arr.value, b.arr.value)
    requires a.obj.Some? ==> ObjectBelow(env, dom, a.obj.value, b.obj.value)
    requires a.sub.Some? ==> SubBelow(env, dom, a.sub.value, b.sub.value)
    ensures Below(env, dom, a, b)
  {
    forall v | Within(dom, v) && Validates(env, a, v) ensures Validates(env, b, v) {
      if a.reference.None? {
        SizesMonotone(env, dom, a, b, v);
        if a.arr.Some? && v.JArray? { ArrayMonotone(env, dom, a, b, v); }
        if a.obj.Some? && v.JObject? { ObjectMonotone(env, dom, a, b, v); }
        if a.sub.Some? { SubMonotone(env, dom, a, b, v); }
        assert ValueOk(env, b, v);
      }
    }
  }

  // ---- The two directions ----

  /**
   Every visited `oneOf` either lists only branches that normalisation leaves as they are, or
   branches of which no two accept one value: as written for options that narrow, after
   normalisation for the others.
   */
  ghost predicate SafeOneOf(env: Env, s: Schema, opts: Options)
    decreases s, 1
  {
    s.ObjectSchema? ==>
      && (s.obj.Some? ==>
            && (forall k :: k in s.obj.value.properties ==> SafeOneOf(env, s.obj.value.properties[k], opts))
            && (s.obj.value.additionalProperties.Some? ==>
                 SafeOneOf(env, s.obj.value.additionalProperties.value, opts)))
      && (s.arr.Some? && s.arr.value.items.Some? ==>
            match s.arr.value.items.value
            case Every(item) => SafeOneOf(env, item, opts)
            case Positional(list) => SafeList(env, list, opts))
      && (s.sub.Some? ==>
            && SafeBranches(env, s.sub.value.allOf, opts)
            && SafeBranches(env, s.sub.value.anyOf, opts)
            && (NormalizeBranches(s.sub.value.oneOf, opts) == s.sub.value.oneOf
                || (SafeBranches(env, s.sub.value.oneOf, opts) && ApartBranches(env, s.sub.value.oneOf, opts))))
  }

  ghost predicate SafeList(env: Env, list: seq<Schema>, opts: Options)
    decreases list, 0
  {
    forall i :: 0 <= i < |list| ==> SafeOneOf(env, list[i], opts)
  }

  ghost predicate SafeBranches(env: Env, b: Branches, opts: Options)
    decreases b, 0
  {
    b.Branches? ==> SafeList(env, b.list, opts)
  }

  ghost predicate ApartBranches(env: Env, b: Branches, opts: Options) {
    b.Branches? ==> Apart(env, AllValues, if Narrowing(opts) then b.list else NormalizeList(b.list, opts))
  }

  predicate Narrowing(opts: Options) {
    opts.nullableStyle.Drop? && !opts.stripFormat && !opts.stripConstraints
  }

  /** Nothing is lost when null stays accepted through `nullable`, or no value holds a null. */
  predicate Widening(env: Env, dom: Domain, opts: Options) {
    && !opts.forceAdditionalPropertiesFalse && !opts.forceAllRequired
    && (dom.NoNulls? || (opts.nullableStyle.Extension? && env.nullable))
  }

  /** Which way the options move the set of accepted values. */
  ghost predicate Moves(env: Env, dom: Domain, opts: Options, s: Schema) {
    && (Narrowing(opts) ==> Below(env, dom, Normalize(s, opts), s))
    && (Widening(env, dom, opts) ==> Below(env, dom, s, Normalize(s, opts)))
  }

  lemma TypesMove(env: Env, dom: Domain, s: Schema, opts: Options, v: Json)
    requires s.ObjectSchema? && Within(dom, v)
    ensures var n := NormalizeLeaf(s, opts);
            && (Narrowing(opts) && TypeOk(env, n.instanceType, n.extensions, v) ==>
                 TypeOk(env, s.instanceType, s.extensions, v))
            && (Widening(env, dom, opts) && TypeOk(env, s.instanceType, s.extensions, v) ==>
                 TypeOk(env, n.instanceType, n.extensions, v))
  {
    if HadNull(s.instanceType) {
      var ts := s.instanceType.value.ts;
      var non := NonNull(ts);
      if i :| 0 <= i < |non| && HasType(non[i], v) {
        assert non[i] in ts;
      }
      if i :| 0 <= i < |ts| && HasType(ts[i], v) {
        assert ts[i] != TNull ==> ts[i] in non;
      }
    }
  }

  lemma LeafMoves(env: Env, dom: Domain, s: Schema, opts: Options)
    requires s.ObjectSchema?
    ensures Narrowing(opts) ==> LeafBelow(env, dom, Normalize(s, opts), s)
    ensures Widening(env, dom, opts) ==> LeafBelow(env, dom, s, Normalize(s, opts))
  {
    forall v | Within(dom, v) { TypesMove(env, dom, s, opts, v); }
  }

  lemma {:induction false} NormalizeMoves(env: Env, dom: Domain, s: Schema, opts: Options)
    requires SafeOneOf(env, s, opts)
    ensures Moves(env, dom, opts, s)
    decreases s, 1
  {
    if s.ObjectSchema? {
      var n := Normalize(s, opts);
      LeafMoves(env, dom, s, opts);
      if s.obj.Some? { ObjectMoves(env, dom, s, s.obj.value, opts); }
      if s.arr.Some? { ArrayMoves(env, dom, s, s.arr.value, opts); }
      if s.sub.Some? { SubMoves(env, dom, s, s.sub.value, opts); }
      if Narrowing(opts) { Monotone(env, dom, n, s); }
      if Widening(env, dom, opts) { Monotone(env, dom, s, n); }
    }
  }

  lemma {:induction false} ListMoves(env: Env, dom: Domain, list: seq<Schema>, opts: Options)
    requires SafeList(env, list, opts)
    ensures Narrowing(opts) ==> ListBelow(env, dom, NormalizeList(list, opts), list)
    ensures Widening(env, dom, opts) ==> ListBelow(env, dom, list, NormalizeList(list, opts))
    decreases list, 0
  {
    forall i | 0 <= i < |list| ensures Moves(env, dom, opts, list[i]) { NormalizeMoves(env, dom, list[i], opts); }
  }

  lemma {:induction false} ObjectMoves(env: Env, dom: Domain, s: Schema, r: ObjectRules, opts: Options)
    requires s.ObjectSchema? && s.obj == Some(r) && SafeOneOf(env, s, opts)
    ensures Narrowing(opts) ==> ObjectBelow(env, dom, NormalizeObject(r, opts), r)
    ensures Widening(env, dom, opts) ==> ObjectBelow(env, dom, r, NormalizeObject(r, opts))
    decreases s, 0
  {
    forall k | k in r.properties ensures Moves(env, dom, opts, r.properties[k]) {
      NormalizeMoves(env, dom, r.properties[k], opts);
    }
    if r.additionalProperties.Some? { NormalizeMoves(env, dom, r.additionalProperties.value, opts); }
  }

  lemma {:induction false} ArrayMoves(env: Env, dom: Domain, s: Schema, r: ArrayRules, opts: Options)
    requires s.ObjectSchema? && s.arr == Some(r) && SafeOneOf(env, s, opts)
    ensures Narrowing(opts) ==> ArrayBelow(env, dom, NormalizeArray(r, opts), r)
    ensures Widening(env, dom, opts) ==> ArrayBelow(env, dom, r, NormalizeArray(r, opts))
    decreases s, 0
  {
    match r.items
    case None =>
    case Some(Every(item)) => NormalizeMoves(env, dom, item, opts);
    case Some(Positional(list)) => ListMoves(env, dom, list, opts);
  }

  lemma {:induction false} SubMoves(env: Env, dom: Domain, s: Schema, r: Subschemas, opts: Options)
    requires s.ObjectSchema? && s.sub == Some(r) && SafeOneOf(env, s, opts)
    ensures Narrowing(opts) ==> SubBelow(env, dom, NormalizeSub(r, opts), r)
    ensures Widening(env, dom, opts) ==> SubBelow(env, dom, r, NormalizeSub(r, opts))
    decreases s, 0
  {
    if r.allOf.Branches? { ListMoves(env, dom, r.allOf.list, opts); }
    if r.anyOf.Branches? { ListMoves(env, dom, r.anyOf.list, opts); }
    if r.oneOf.Branches? && NormalizeBranches(r.oneOf, opts) != r.oneOf {
      ListMoves(env, dom, r.oneOf.list, opts);
      OneOfMoves(env, dom, r.oneOf.list, opts);
    }
  }

  /** Branches that are apart stay so when they are narrowed. */
  lemma ApartBelow(env: Env, dom: Domain, a: seq<Schema>, b: seq<Schema>)
    requires ListBelow(env, dom, a, b) && Apart(env, dom, b)
    ensures Apart(env, dom, a)
  {
    forall v | Within(dom, v) ensures AtMostOne(env, a, v) {
      assert AtMostOne(env, b, v);
      forall i, j | 0 <= i < j < |a| && Validates(env, a[i], v) ensures !Validates(env, a[j], v) {
        assert Below(env, dom, a[i], b[i]) && Below(env, dom, a[j], b[j]);
      }
    }
  }

  lemma OneOfMoves(env: Env, dom: Domain, list: seq<Schema>, opts: Options)
    requires Apart(env, AllValues, if Narrowing(opts) then list else NormalizeList(list, opts))
    requires Narrowing(opts) ==> ListBelow(env, dom, NormalizeList(list, opts), list)
    ensures Narrowing(opts) ==> Apart(env, dom, list)
    ensures Apart(env, dom, NormalizeList(list, opts))
  {
    var apart := if Narrowing(opts) then list else NormalizeList(list, opts);
    forall v | Within(dom, v) ensures AtMostOne(env, apart, v) { assert Within(AllValues, v); }
    if Narrowing(opts) { ApartBelow(env, dom, NormalizeList(list, opts), list); }
  }

  /** Root metadata and `$schema` constrain nothing, and `definitions` are left alone. */
  lemma RootMoves(env: Env, dom: Domain, root: RootSchema, opts: Options)
    requires SafeOneOf(env, root.schema, opts)
    ensures var n := NormalizeRoot(root, opts);
            && n.definitions == root.definitions
            && (Narrowing(opts) ==> Below(env, dom, n.schema, root.schema))
            && (Widening(env, dom, opts) ==> Below(env, dom, root.schema, n.schema))
  {
    if root.schema.ObjectSchema? {
      var bare := root.schema.(metadata := None);
      assert SafeOneOf(env, bare, opts);
      NormalizeMoves(env, dom, bare, opts);
      forall v ensures Validates(env, bare, v) == Validates(env, root.schema, v) {
        SameRules(env, bare, root.schema, v);
      }
    }
  }

  lemma SameRules(env: Env, a: Schema, b: Schema, v: Json)
    requires a.ObjectSchema? && b.ObjectSchema? && a == b.(metadata := a.metadata)
    ensures Validates(env, a, v) == Validates(env, b, v)
  {
  }

  /**
   What the OpenAI form accepts the original accepted, and only values holding a null can be
   lost: on the others the two schemas agree.
   */
  lemma OpenAiNarrows(env: Env, root: RootSchema, v: Json)
    requires SafeOneOf(env, root.schema, OPENAI)
    ensures Validates(env, NormalizeRoot(root, OPENAI).schema, v) ==> Validates(env, root.schema, v)
    ensures Within(NoNulls, v) ==>
              (Validates(env, NormalizeRoot(root, OPENAI).schema, v) <==> Validates(env, root.schema, v))
  {
    RootMoves(env, AllValues, root, OPENAI);
    RootMoves(env, NoNulls, root, OPENAI);
  }

  lemma AnthropicNarrows(env: Env, root: RootSchema, v: Json)
    requires SafeOneOf(env, root.schema, ANTHROPIC) && Validates(env, NormalizeRoot(root, ANTHROPIC).schema, v)
    ensures Validates(env, root.schema, v)
  {
    RootMoves(env, AllValues, root, ANTHROPIC);
  }

  /** The strictness Anthropic asks for: an object lists its declared properties, all of them and no other. */
  lemma AnthropicClosesObjects(env: Env, s: Schema, v: Json)
    requires s.ObjectSchema? && s.reference.None? && s.obj.Some? && v.JObject?
    requires s.obj.value.additionalProperties.None? && s.obj.value.patternProperties == map[]
    requires Validates(env, Normalize(s, ANTHROPIC), v)
    ensures v.fields.Keys == s.obj.value.properties.Keys
  {
    var r := Normalize(s, ANTHROPIC).obj.value;
    assert r == NormalizeObject(s.obj.value, ANTHROPIC);
    forall k | k in v.fields ensures k in s.obj.value.properties {
      assert ObjectOk(env, Normalize(s, ANTHROPIC), r, v) && !Matched(env, r.patternProperties, k);
      assert r.additionalProperties == Some(BoolSchema(false)) && !Validates(env, BoolSchema(false), v.fields[k]);
    }
  }

  /** Under the OpenAPI reading, Gemini's schema still accepts everything it used to. */
  lemma GeminiWidens(env: Env, root: RootSchema, v: Json)
    requires env.nullable && SafeOneOf(env, root.schema, GEMINI) && Validates(env, root.schema, v)
    ensures Validates(env, NormalizeRoot(root, GEMINI).schema, v)
  {
    RootMoves(env, AllValues, root, GEMINI);
  }

  // ---- Normal forms ----

  lemma LeafIdempotent(s: Schema, opts: Options)
    requires s.ObjectSchema?
    ensures NormalizeLeaf(NormalizeLeaf(s, opts), opts) == NormalizeLeaf(s, opts)
    ensures !HadNull(NormalizeLeaf(s, opts).instanceType)
  {
    assert !HadNull(DropNull(s.instanceType));
    assert StripTitle(StripTitle(s.metadata)) == StripTitle(s.metadata);
  }

  lemma {:induction false} NormalizeIdempotent(s: Schema, opts: Options)
    ensures Normalize(Normalize(s, opts), opts) == Normalize(s, opts)
    decreases s, 1
  {
    if s.ObjectSchema? {
      LeafIdempotent(s, opts);
      var n := Normalize(s, opts);
      assert NormalizeLeaf(n, opts) == n;
      if s.obj.Some? { ObjectIdempotent(s.obj.value, opts); }
      if s.arr.Some? { ArrayIdempotent(s.arr.value, opts); }
      if s.sub.Some? { SubIdempotent(s.sub.value, opts); }
    }
  }

  lemma {:induction false} ListIdempotent(list: seq<Schema>, opts: Options)
    ensures NormalizeList(NormalizeList(list, opts), opts) == NormalizeList(list, opts)
    decreases list, 0
  {
    forall i | 0 <= i < |list| ensures Normalize(Normalize(list[i], opts), opts) == Normalize(list[i], opts) {
      NormalizeIdempotent(list[i], opts);
    }
  }

  lemma {:induction false} ObjectIdempotent(r: ObjectRules, opts: Options)
    ensures NormalizeObject(NormalizeObject(r, opts), opts) == NormalizeObject(r, opts)
    decreases r, 0
  {
    var n := NormalizeObject(r, opts);
    var nn := NormalizeObject(n, opts);
    assert n.properties.Keys == r.properties.Keys;
    forall k | k in r.properties ensures nn.properties[k] == n.properties[k] {
      NormalizeIdempotent(r.properties[k], opts);
    }
    assert nn.properties == n.properties;
    if r.additionalProperties.Some? { NormalizeIdempotent(r.additionalProperties.value, opts); }
    assert Normalize(BoolSchema(false), opts) == BoolSchema(false);
    assert nn.required == n.required && nn.additionalProperties == n.additionalProperties;
  }

  lemma {:induction false} ArrayIdempotent(r: ArrayRules, opts: Options)
    ensures NormalizeArray(NormalizeArray(r, opts), opts) == NormalizeArray(r, opts)
    decreases r, 0
  {
    match r.items
    case None =>
    case Some(Every(item)) => NormalizeIdempotent(item, opts);
    case Some(Positional(list)) => ListIdempotent(list, opts);
  }

  lemma {:induction false} SubIdempotent(r: Subschemas, opts: Options)
    ensures NormalizeSub(NormalizeSub(r, opts), opts) == NormalizeSub(r, opts)
    decreases r, 0
  {
    if r.allOf.Branches? { ListIdempotent(r.allOf.list, opts); }
    if r.anyOf.Branches? { ListIdempotent(r.anyOf.list, opts); }
    if r.oneOf.Branches? { ListIdempotent(r.oneOf.list, opts); }
  }

  /** Every object that normalisation visits has the property. */
  ghost predicate AllVisited(s: Schema, p: Schema -> bool)
    decreases s, 1
  {
    s.ObjectSchema? ==>
      && p(s)
      && (s.obj.Some? ==>
            && (forall k :: k in s.obj.value.properties ==> AllVisited(s.obj.value.properties[k], p))
            && (s.obj.value.additionalProperties.Some? ==> AllVisited(s.obj.value.additionalProperties.value, p)))
      && (s.arr.Some? && s.arr.value.items.Some? ==>
            match s.arr.value.items.value
            case Every(item) => AllVisited(item, p)
            case Positional(list) => VisitedList(list, p))
      && (s.sub.Some? ==>
            && VisitedBranches(s.sub.value.allOf, p) && VisitedBranches(s.sub.value.anyOf, p)
            && VisitedBranches(s.sub.value.oneOf, p))
  }

  ghost predicate VisitedList(list: seq<Schema>, p: Schema -> bool)
    decreases list, 0
  {
    forall i :: 0 <= i < |list| ==> AllVisited(list[i], p)
  }

  ghost predicate VisitedBranches(b: Branches, p: Schema -> bool)
    decreases b, 0
  {
    b.Branches? ==> VisitedList(b.list, p)
  }

  /** Normalisation gives every object it visits what it gives any object. */
  ghost predicate Given(p: Schema -> bool, opts: Options) {
    forall o: Schema :: o.ObjectSchema? ==> p(Normalize(o, opts))
  }

  lemma {:induction false} VisitedAfter(s: Schema, opts: Options, p: Schema -> bool)
    requires Given(p, opts)
    ensures AllVisited(Normalize(s, opts), p)
    decreases s, 1
  {
    if s.ObjectSchema? {
      if s.obj.Some? {
        var r := s.obj.value;
        forall k | k in r.properties ensures AllVisited(Normalize(r.properties[k], opts), p) {
          VisitedAfter(r.properties[k], opts, p);
        }
        if r.additionalProperties.Some? { VisitedAfter(r.additionalProperties.value, opts, p); }
      }
      if s.arr.Some? {
        match s.arr.value.items
        case None =>
        case Some(Every(item)) => VisitedAfter(item, opts, p);
        case Some(Positional(list)) => ListVisitedAfter(list, opts, p);
      }
      if s.sub.Some? {
        BranchesVisitedAfter(s.sub.value.allOf, opts, p);
        BranchesVisitedAfter(s.sub.value.anyOf, opts, p);
        BranchesVisitedAfter(s.sub.value.oneOf, opts, p);
      }
    }
  }

  lemma {:induction false} BranchesVisitedAfter(b: Branches, opts: Options, p: Schema -> bool)
    requires Given(p, opts)
    ensures VisitedBranches(NormalizeBranches(b, opts), p)
    decreases b, 0
  {
    if b.Branches? { ListVisitedAfter(b.list, opts, p); }
  }

  lemma {:induction false} ListVisitedAfter(list: seq<Schema>, opts: Options, p: Schema -> bool)
    requires Given(p, opts)
    ensures VisitedList(NormalizeList(list, opts), p)
    decreases list, 0
  {
    forall i | 0 <= i < |list| ensures AllVisited(Normalize(list[i], opts), p) { VisitedAfter(list[i], opts, p); }
  }

  predicate NoNullListed(o: Schema) {
    o.ObjectSchema? && o.instanceType.Some? && o.instanceType.value.Many? ==> TNull !in o.instanceType.value.ts
  }

  /** No type list at a visited position names null; a lone `"null"` type is not a list. */
  ghost predicate NullFree(s: Schema) {
    AllVisited(s, NoNullListed)
  }

  lemma NormalizeNullFree(s: Schema, opts: Options)
    ensures NullFree(Normalize(s, opts))
  {
    forall o: Schema | o.ObjectSchema? ensures NoNullListed(Normalize(o, opts)) { LeafIdempotent(o, opts); }
    VisitedAfter(s, opts, NoNullListed);
  }

  // ---- What the result looks like, read off the two trees ----

  predicate Untitled(o: Schema) {
    o.ObjectSchema? && o.metadata.Some? ==> o.metadata.value.title.None?
  }

  /** No format, and no constraint on numbers or strings. */
  predicate Unconstrained(o: Schema) {
    o.ObjectSchema? ==>
      && o.format.None?
      && (o.number.Some? ==>
            var r := o.number.value;
            r.multipleOf.None? && r.maximum.None? && r.exclusiveMaximum.None? && r.minimum.None?
            && r.exclusiveMinimum.None?)
      && (o.text.Some? ==> var r := o.text.value; r.maxLength.None? && r.minLength.None? && r.pattern.None?)
  }

  /** All properties are required, and it is said what others there may be. */
  predicate Strict(o: Schema) {
    o.ObjectSchema? && o.obj.Some? ==>
      o.obj.value.properties.Keys <= o.obj.value.required && o.obj.value.additionalProperties.Some?
  }

  predicate NamesNull(o: Schema) {
    o.ObjectSchema? && o.instanceType.Some? && o.instanceType.value.Many? && TNull in o.instanceType.value.ts
  }

  /** What named null before says `nullable` afterwards. */
  predicate NullMarked(a: Schema, b: Schema) {
    NamesNull(a) ==> b.ObjectSchema? && "nullable" in b.extensions && b.extensions["nullable"] == JBool(true)
  }

  /** The two trees have one shape, and each visited object is related to what it became. */
  ghost predicate Parallel(a: Schema, b: Schema, rel: (Schema, Schema) -> bool)
    decreases a, 1
  {
    if a.BoolSchema? then b == a
    else
      && b.ObjectSchema? && rel(a, b)
      && a.obj.Some? == b.obj.Some? && a.arr.Some? == b.arr.Some? && a.sub.Some? == b.sub.Some?
      && (a.obj.Some? ==> ParallelObjects(a.obj.value, b.obj.value, rel))
      && (a.arr.Some? ==> ParallelItems(a.arr.value.items, b.arr.value.items, rel))
      && (a.sub.Some? ==>
            && ParallelBranches(a.sub.value.allOf, b.sub.value.allOf, rel)
            && ParallelBranches(a.sub.value.anyOf, b.sub.value.anyOf, rel)
            && ParallelBranches(a.sub.value.oneOf, b.sub.value.oneOf, rel))
  }

  ghost predicate ParallelObjects(a: ObjectRules, b: ObjectRules, rel: (Schema, Schema) -> bool)
    decreases a, 0
  {
    && a.properties.Keys == b.properties.Keys
    && (forall k :: k in a.properties ==> Parallel(a.properties[k], b.properties[k], rel))
    && (a.additionalProperties.Some? ==>
          b.additionalProperties.Some? && Parallel(a.additionalProperties.value, b.additionalProperties.value, rel))
  }

  ghost predicate ParallelItems(a: Option<Items>, b: Option<Items>, rel: (Schema, Schema) -> bool)
    decreases a, 1
  {
    match a
    case None => b.None?
    case Some(Every(x)) => b.Some? && b.value.Every? && Parallel(x, b.value.item, rel)
    case Some(Positional(x)) => b.Some? && b.value.Positional? && ParallelLists(x, b.value.list, rel)
  }

  ghost predicate ParallelBranches(a: Branches, b: Branches, rel: (Schema, Schema) -> bool)
    decreases a, 1
  {
    a.Branches? == b.Branches? && (a.Branches? ==> ParallelLists(a.list, b.list, rel))
  }

  ghost predicate ParallelLists(a: seq<Schema>, b: seq<Schema>, rel: (Schema, Schema) -> bool)
    decreases a, 0
  {
    |a| == |b| && forall i :: 0 <= i < |a| ==> Parallel(a[i], b[i], rel)
  }

  ghost predicate Relates(rel: (Schema, Schema) -> bool, opts: Options) {
    forall o: Schema :: o.ObjectSchema? ==> rel(o, Normalize(o, opts))
  }

  lemma {:induction false} ParallelAfter(s: Schema, opts: Options, rel: (Schema, Schema) -> bool)
    requires Relates(rel, opts)
    ensures Parallel(s, Normalize(s, opts), rel)
    decreases s, 1
  {
    if s.ObjectSchema? {
      if s.obj.Some? { ObjectsParallelAfter(s.obj.value, opts, rel); }
      if s.arr.Some? { ItemsParallelAfter(s.arr.value, opts, rel); }
      if s.sub.Some? {
        BranchesParallelAfter(s.sub.value.allOf, opts, rel);
        BranchesParallelAfter(s.sub.value.anyOf, opts, rel);
        BranchesParallelAfter(s.sub.value.oneOf, opts, rel);
      }
    }
  }

  lemma {:induction false} ObjectsParallelAfter(r: ObjectRules, opts: Options, rel: (Schema, Schema) -> bool)
    requires Relates(rel, opts)
    ensures ParallelObjects(r, NormalizeObject(r, opts), rel)
    decreases r, 0
  {
    forall k | k in r.properties ensures Parallel(r.properties[k], NormalizeObject(r, opts).properties[k], rel) {
      ParallelAfter(r.properties[k], opts, rel);
    }
    if r.additionalProperties.Some? { ParallelAfter(r.additionalProperties.value, opts, rel); }
  }

  lemma {:induction false} ItemsParallelAfter(r: ArrayRules, opts: Options, rel: (Schema, Schema) -> bool)
    requires Relates(rel, opts)
    ensures ParallelItems(r.items, NormalizeArray(r, opts).items, rel)
    decreases r, 0
  {
    match r.items
    case None =>
    case Some(Every(item)) => ParallelAfter(item, opts, rel);
    case Some(Positional(list)) => ListsParallelAfter(list, opts, rel);
  }

  lemma {:induction false} BranchesParallelAfter(b: Branches, opts: Options, rel: (Schema, Schema) -> bool)
    requires Relates(rel, opts)
    ensures ParallelBranches(b, NormalizeBranches(b, opts), rel)
    decreases b, 0
  {
    if b.Branches? { ListsParallelAfter(b.list, opts, rel); }
  }

  lemma {:induction false} ListsParallelAfter(list: seq<Schema>, opts: Options, rel: (Schema, Schema) -> bool)
    requires Relates(rel, opts)
    ensures ParallelLists(list, NormalizeList(list, opts), rel)
    decreases list, 0
  {
    forall i | 0 <= i < |list| ensures Parallel(list[i], NormalizeList(list, opts)[i], rel) {
      ParallelAfter(list[i], opts, rel);
    }
  }

  /** The metadata without the title, and none at all if only the title was set. */
  predicate MetadataKept(a: Option<Metadata>, b: Option<Metadata>) {
    && (b.Some? ==> a.Some? && b.value == a.value.(title := None))
    && (b.None? && a.Some? ==> a.value.title.Some? && a.value.(title := None) == NO_METADATA)
  }

  /** `r` is `ts` without its nulls, in order. */
  predicate WithoutNull(ts: seq<InstanceType>, r: seq<InstanceType>) {
    if ts == [] then r == []
    else if ts[0] == TNull then WithoutNull(ts[1..], r)
    else r != [] && r[0] == ts[0] && WithoutNull(ts[1..], r[1..])
  }

  predicate TypesKept(a: Schema, b: Schema)
    requires a.ObjectSchema? && b.ObjectSchema?
  {
    if NamesNull(a) then
      b.instanceType.Some? &&
      match b.instanceType.value
      case Single(t) => WithoutNull(a.instanceType.value.ts, [t])
      case Many(ts) => |ts| != 1 && WithoutNull(a.instanceType.value.ts, ts)
    else b.instanceType == a.instanceType
  }

  predicate ObjectKept(opts: Options, a: ObjectRules, b: ObjectRules) {
    && a.maxProperties == b.maxProperties && a.minProperties == b.minProperties
    && a.patternProperties == b.patternProperties && a.propertyNames == b.propertyNames
    && a.required <= b.required && (forall k :: k in b.required ==> k in a.required || k in a.properties)
    && (!opts.forceAllRequired ==> b.required == a.required)
    && (a.additionalProperties.None? ==>
          b.additionalProperties == if opts.forceAdditionalPropertiesFalse then Some(BoolSchema(false)) else None)
  }

  /** What the options do not ask to be taken away or added is as it was. */
  predicate Kept(opts: Options, a: Schema, b: Schema) {
    && a.ObjectSchema? && b.ObjectSchema?
    && a.enumValues == b.enumValues && a.constValue == b.constValue && a.reference == b.reference
    && MetadataKept(a.metadata, b.metadata) && TypesKept(a, b)
    && b.extensions - {"nullable"} == a.extensions - {"nullable"}
    && (opts.nullableStyle.Drop? || !NamesNull(a) ==> b.extensions == a.extensions)
    && (!opts.stripFormat ==> b.format == a.format)
    && (!opts.stripConstraints ==> b.number == a.number && b.text == a.text)
    && (a.obj.Some? && b.obj.Some? ==> ObjectKept(opts, a.obj.value, b.obj.value))
    && (a.arr.Some? && b.arr.Some? ==> a.arr.value.(items := None) == b.arr.value.(items := None))
    && (a.sub.Some? && b.sub.Some? ==>
          a.sub.value.(allOf := Absent, anyOf := Absent, oneOf := Absent)
          == b.sub.value.(allOf := Absent, anyOf := Absent, oneOf := Absent))
  }

  lemma {:induction false} NonNullDropsNulls(ts: seq<InstanceType>)
    ensures WithoutNull(ts, NonNull(ts))
  {
    if ts != [] { NonNullDropsNulls(ts[1..]); }
  }

  lemma LeafKeeps(s: Schema, opts: Options)
    requires s.ObjectSchema?
    ensures var n := NormalizeLeaf(s, opts);
            && MetadataKept(s.metadata, n.metadata) && TypesKept(s, n)
            && n.extensions - {"nullable"} == s.extensions - {"nullable"}
            && (opts.nullableStyle.Drop? || !NamesNull(s) ==> n.extensions == s.extensions)
  {
    if NamesNull(s) {
      NonNullDropsNulls(s.instanceType.value.ts);
      var ts := NonNull(s.instanceType.value.ts);
      if |ts| == 1 { assert ts == [ts[0]]; }
    }
  }

  lemma NormalizeKeeps(s: Schema, opts: Options)
    requires s.ObjectSchema?
    ensures Kept(opts, s, Normalize(s, opts))
  {
    LeafKeeps(s, opts);
  }

  function Keeps(opts: Options): (Schema, Schema) -> bool {
    (a, b) => Kept(opts, a, b)
  }

  lemma AllAreKept(opts: Options)
    ensures Relates(Keeps(opts), opts)
  {
    forall o: Schema | o.ObjectSchema? ensures Keeps(opts)(o, Normalize(o, opts)) { NormalizeKeeps(o, opts); }
  }

  lemma AllAreUntitled(opts: Options)
    ensures Given(Untitled, opts)
  {
    forall o: Schema | o.ObjectSchema? ensures Untitled(Normalize(o, opts)) {
      assert Normalize(o, opts).metadata == StripTitle(o.metadata);
    }
  }

  lemma RootOfObject(root: RootSchema, opts: Options)
    requires root.schema.ObjectSchema?
    ensures var n, bare := NormalizeRoot(root, opts), root.schema.(metadata := None);
            && n == RootSchema(None, Normalize(bare, opts), root.definitions)
            && n.schema.ObjectSchema? && n.schema.metadata.None?
  {
  }

  /**
   A document after normalisation: `$schema` and root metadata are gone, no visited object has a
   title or lists null, and every visited object is the old one in all the options leave alone.
   */
  lemma RootIsNormal(root: RootSchema, opts: Options)
    requires root.schema.ObjectSchema?
    ensures var n := NormalizeRoot(root, opts);
            && n.metaSchema.None? && n.schema.ObjectSchema? && n.schema.metadata.None?
            && n.definitions == root.definitions && NullFree(n.schema) && AllVisited(n.schema, Untitled)
            && Parallel(root.schema.(metadata := None), n.schema, Keeps(opts))
  {
    var bare := root.schema.(metadata := None);
    RootOfObject(root, opts);
    NormalizeNullFree(bare, opts);
    AllAreUntitled(opts);
    VisitedAfter(bare, opts, Untitled);
    AllAreKept(opts);
    ParallelAfter(bare, opts, Keeps(opts));
  }

  /** For Gemini no visited object has a format or a constraint, and what named null is marked `nullable`. */
  lemma GeminiForm(root: RootSchema)
    requires root.schema.ObjectSchema?
    ensures var n := NormalizeRoot(root, GEMINI).schema;
            AllVisited(n, Unconstrained) && Parallel(root.schema.(metadata := None), n, NullMarked)
  {
    RootOfObject(root, GEMINI);
    GeminiGives();
    VisitedAfter(root.schema.(metadata := None), GEMINI, Unconstrained);
    ParallelAfter(root.schema.(metadata := None), GEMINI, NullMarked);
  }

  lemma GeminiGives()
    ensures Given(Unconstrained, GEMINI) && Relates(NullMarked, GEMINI)
  {
  }

  /** For Anthropic every visited object requires all its properties and rules on any others. */
  lemma AnthropicForm(root: RootSchema)
    requires root.schema.ObjectSchema?
    ensures AllVisited(NormalizeRoot(root, ANTHROPIC).schema, Strict)
  {
    RootOfObject(root, ANTHROPIC);
    AnthropicGives();
    VisitedAfter(root.schema.(metadata := None), ANTHROPIC, Strict);
  }

  lemma AnthropicGives()
    ensures Given(Strict, ANTHROPIC)
  {
  }

  // ---- Tagged unions ----

  /** An object schema that requires `tag` to be the given constant. */
  predicate Tagged(b: Schema, tag: string, c: Json) {
    && b.ObjectSchema? && b.reference.None? && b.instanceType == Some(Single(TObject)) && "nullable" !in b.extensions
    && b.obj.Some? && tag in b.obj.value.required && tag in b.obj.value.properties
    && var p := b.obj.value.properties[tag];
    p.ObjectSchema? && p.reference.None? && p.constValue == Some(c)
  }

  lemma TaggedMeans(env: Env, b: Schema, tag: string, c: Json, v: Json)
    requires Tagged(b, tag, c) && Validates(env, b, v)
    ensures v.JObject? && tag in v.fields && v.fields[tag] == c
  {
    assert TypeOk(env, b.instanceType, b.extensions, v) && SizesOk(b, v);
    assert ObjectOk(env, b, b.obj.value, v);
    var p := b.obj.value.properties[tag];
    assert Validates(env, p, v.fields[tag]);
    assert ValueOk(env, p, v.fields[tag]);
  }

  /** The branches of a tagged union are apart, however open the objects are. */
  lemma TaggedUnionIsApart(env: Env, list: seq<Schema>, tag: string, consts: seq<Json>)
    requires |list| == |consts| && forall i, j :: 0 <= i < j < |consts| ==> consts[i] != consts[j]
    requires forall i :: 0 <= i < |list| ==> Tagged(list[i], tag, consts[i])
    ensures Apart(env, AllValues, list)
  {
    forall v ensures AtMostOne(env, list, v) {
      forall i, j | 0 <= i < j < |list| && Validates(env, list[i], v) ensures !Validates(env, list[j], v) {
        TaggedMeans(env, list[i], tag, consts[i], v);
        if Validates(env, list[j], v) { TaggedMeans(env, list[j], tag, consts[j], v); }
      }
    }
  }

  // ---- Why `oneOf` needs such branches ----

  const ANY := ObjectSchema(None, None, None, None, None, None, None, None, None, None, None, map[])

  function OneOf(list: seq<Schema>): Schema {
    ANY.(sub := Some(Subschemas(Absent, Absent, Branches(list), None, None, None, None)))
  }

  const STRING_OR_NULL := ANY.(instanceType := Some(Many([TString, TNull])))
  const JUST_STRING := ANY.(instanceType := Some(Single(TString)))
  const JUST_NULL := ANY.(instanceType := Some(Single(TNull)))

  lemma BranchesNormalized()
    ensures Normalize(STRING_OR_NULL, OPENAI) == JUST_STRING && Normalize(JUST_NULL, OPENAI) == JUST_NULL
  {
    assert [TString, TNull][1..] == [TNull] && [TNull][1..] == [];
    assert NonNull([TNull]) == [] && NonNull([TString, TNull]) == [TString];
  }

  lemma BothAcceptNull(env: Env)
    ensures Validates(env, STRING_OR_NULL, JNull) && Validates(env, JUST_NULL, JNull)
    ensures !env.nullable ==> !Validates(env, JUST_STRING, JNull)
  {
    assert HasType([TString, TNull][1], JNull);
  }

  lemma OneOfIsSub(env: Env, list: seq<Schema>, v: Json)
    ensures Validates(env, OneOf(list), v) <==> SubOk(env, OneOf(list), OneOf(list).sub.value, v)
  {
  }

  lemma OneOfAccepts(env: Env, list: seq<Schema>, v: Json, i: nat)
    requires i < |list| && Validates(env, list[i], v)
    requires forall j :: 0 <= j < |list| && j != i ==> !Validates(env, list[j], v)
    ensures SubOk(env, OneOf(list), OneOf(list).sub.value, v)
  {
  }

  lemma OneOfRejects(env: Env, list: seq<Schema>, v: Json)
    requires SubOk(env, OneOf(list), OneOf(list).sub.value, v)
    ensures ExactlyOne(env, list, v)
  {
    var r := OneOf(list).sub.value;
    assert r.oneOf == Branches(list);
  }

  lemma OneOfIsExactlyOne(env: Env, list: seq<Schema>, v: Json)
    ensures Validates(env, OneOf(list), v) <==> ExactlyOne(env, list, v)
  {
    OneOfIsSub(env, list, v);
    if ExactlyOne(env, list, v) {
      var i: nat :| i < |list| && Validates(env, list[i], v)
                    && forall j :: 0 <= j < |list| && j != i ==> !Validates(env, list[j], v);
      OneOfAccepts(env, list, v, i);
    }
    if SubOk(env, OneOf(list), OneOf(list).sub.value, v) { OneOfRejects(env, list, v); }
  }

  lemma ExactlyOneOfTwo(env: Env, list: seq<Schema>, v: Json)
    requires |list| == 2
    ensures ExactlyOne(env, list, v) <==> Validates(env, list[0], v) != Validates(env, list[1], v)
  {
    if Validates(env, list[0], v) != Validates(env, list[1], v) {
      var i := if Validates(env, list[0], v) then 0 else 1;
      assert Validates(env, list[i], v) && forall j :: 0 <= j < |list| && j != i ==> !Validates(env, list[j], v);
    }
  }

  lemma OneOfMeans(env: Env, a: Schema, b: Schema, v: Json)
    ensures Validates(env, OneOf([a, b]), v) <==> Validates(env, a, v) != Validates(env, b, v)
  {
    OneOfIsExactlyOne(env, [a, b], v);
    ExactlyOneOfTwo(env, [a, b], v);
  }

  /** Two branches accepted null; once the first stops doing so exactly one does. */
  lemma OneOfCanWiden(env: Env)
    requires !env.nullable
    ensures !Validates(env, OneOf([STRING_OR_NULL, JUST_NULL]), JNull)
    ensures Validates(env, Normalize(OneOf([STRING_OR_NULL, JUST_NULL]), OPENAI), JNull)
    ensures !SafeOneOf(env, OneOf([STRING_OR_NULL, JUST_NULL]), OPENAI)
  {
    BothAcceptNull(env);
    OneOfMeans(env, STRING_OR_NULL, JUST_NULL, JNull);
    OneOfMeans(env, JUST_STRING, JUST_NULL, JNull);
    OneOfNormalized();
    NullIsNotApart(env);
  }

  lemma OneOfNormalized()
    ensures NormalizeList([STRING_OR_NULL, JUST_NULL], OPENAI) == [JUST_STRING, JUST_NULL]
    ensures Normalize(OneOf([STRING_OR_NULL, JUST_NULL]), OPENAI) == OneOf([JUST_STRING, JUST_NULL])
  {
    BranchesNormalized();
    var before, after := [STRING_OR_NULL, JUST_NULL], [JUST_STRING, JUST_NULL];
    assert NormalizeList(before, OPENAI) == after;
    assert NormalizeSub(OneOf(before).sub.value, OPENAI) == OneOf(after).sub.value;
  }

  lemma NullIsNotApart(env: Env)
    ensures !Apart(env, AllValues, [STRING_OR_NULL, JUST_NULL])
  {
    BothAcceptNull(env);
    var list := [STRING_OR_NULL, JUST_NULL];
    assert Within(AllValues, JNull) && Validates(env, list[0], JNull) && Validates(env, list[1], JNull);
    assert !AtMostOne(env, list, JNull);
  }
}
