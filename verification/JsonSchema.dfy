/**
 JSON values, the schemas `schemars` produces, and what it means for a schema to accept a
 value: JSON Schema Draft 7 validation, with the OpenAPI 3.0.3 reading of `nullable` (section
 4.7.24) as an option.  String formats, regular expressions and `$ref` targets come from an
 environment, so they can be anything.
 */
module JsonSchema {
  import opened Prelude

  datatype Json =
    | JNull
    | JBool(b: bool)
    | JNumber(n: real)
    | JString(s: string)
    | JArray(items: seq<Json>)
    | JObject(fields: map<string, Json>)

  datatype InstanceType = TNull | TBoolean | TObject | TArray | TNumber | TString | TInteger

  datatype Types = Single(t: InstanceType) | Many(ts: seq<InstanceType>)

  datatype Metadata = Metadata(
    id: Option<string>, title: Option<string>, description: Option<string>, default: Option<Json>,
    deprecated: bool, readOnly: bool, writeOnly: bool, examples: seq<Json>)

  const NO_METADATA := Metadata(None, None, None, None, false, false, false, [])

  datatype Schema =
    | BoolSchema(accept: bool)
    | ObjectSchema(
        metadata: Option<Metadata>, instanceType: Option<Types>, format: Option<string>,
        enumValues: Option<seq<Json>>, constValue: Option<Json>,
        sub: Option<Subschemas>, number: Option<NumberRules>, text: Option<StringRules>,
        arr: Option<ArrayRules>, obj: Option<ObjectRules>,
        reference: Option<string>, extensions: map<string, Json>)

  datatype Subschemas = Subschemas(
    allOf: Branches, anyOf: Branches, oneOf: Branches,
    negated: Option<Schema>, cond: Option<Schema>, thenOf: Option<Schema>, elseOf: Option<Schema>)

  datatype Branches = Absent | Branches(list: seq<Schema>)

  datatype NumberRules = NumberRules(
    multipleOf: Option<real>, maximum: Option<real>, exclusiveMaximum: Option<real>,
    minimum: Option<real>, exclusiveMinimum: Option<real>)

  datatype StringRules = StringRules(maxLength: Option<nat>, minLength: Option<nat>, pattern: Option<string>)

  datatype Items = Every(item: Schema) | Positional(list: seq<Schema>)

  datatype ArrayRules = ArrayRules(
    items: Option<Items>, additionalItems: Option<Schema>, maxItems: Option<nat>, minItems: Option<nat>,
    uniqueItems: bool, contains: Option<Schema>)

  datatype ObjectRules = ObjectRules(
    maxProperties: Option<nat>, minProperties: Option<nat>, required: set<string>,
    properties: map<string, Schema>, patternProperties: map<string, Schema>,
    additionalProperties: Option<Schema>, propertyNames: Option<Schema>)

  /** `nullable` turns on the OpenAPI reading; the rest resolves what a schema only names. */
  datatype Env = Env(
    nullable: bool, formatOk: (string, Json) -> bool, matches: (string, string) -> bool,
    resolve: (string, Json) -> bool)

  predicate HasType(t: InstanceType, v: Json) {
    match t
    case TNull => v.JNull?
    case TBoolean => v.JBool?
    case TObject => v.JObject?
    case TArray => v.JArray?
    case TNumber => v.JNumber?
    case TString => v.JString?
    case TInteger => v.JNumber? && v.n == v.n.Floor as real
  }

  /** Section 6.1.1, and the `nullable` extension where it is read. */
  predicate TypeOk(env: Env, types: Option<Types>, extensions: map<string, Json>, v: Json) {
    match types
    case None => true
    case Some(Single(t)) => HasType(t, v) || NullOk(env, extensions, v)
    case Some(Many(ts)) => (exists i :: 0 <= i < |ts| && HasType(ts[i], v)) || NullOk(env, extensions, v)
  }

  predicate NullOk(env: Env, extensions: map<string, Json>, v: Json) {
    env.nullable && v.JNull? && "nullable" in extensions && extensions["nullable"] == JBool(true)
  }

  /** Sections 6.1.2 and 6.1.3, and format as an assertion. */
  predicate ValueOk(env: Env, s: Schema, v: Json)
    requires s.ObjectSchema?
  {
    && (s.enumValues.Some? ==> v in s.enumValues.value)
    && (s.constValue.Some? ==> v == s.constValue.value)
    && (s.format.Some? ==> env.formatOk(s.format.value, v))
  }

  /** Section 6.2. */
  predicate NumberOk(r: Option<NumberRules>, v: Json) {
    r.Some? && v.JNumber? ==>
      var r := r.value;
      && (r.multipleOf.Some? && r.multipleOf.value != 0.0 ==>
            var q := v.n / r.multipleOf.value; q == q.Floor as real)
      && (r.maximum.Some? ==> v.n <= r.maximum.value)
      && (r.exclusiveMaximum.Some? ==> v.n < r.exclusiveMaximum.value)
      && (r.minimum.Some? ==> r.minimum.value <= v.n)
      && (r.exclusiveMinimum.Some? ==> r.exclusiveMinimum.value < v.n)
  }

  /** Section 6.3. */
  predicate StringOk(env: Env, r: Option<StringRules>, v: Json) {
    r.Some? && v.JString? ==>
      var r := r.value;
      && (r.maxLength.Some? ==> |v.s| <= r.maxLength.value)
      && (r.minLength.Some? ==> r.minLength.value <= |v.s|)
      && (r.pattern.Some? ==> env.matches(r.pattern.value, v.s))
  }

  /** The keywords of sections 6.4 and 6.5 that hold no subschema. */
  predicate SizesOk(s: Schema, v: Json)
    requires s.ObjectSchema?
  {
    && (s.arr.Some? && v.JArray? ==>
          var r, n := s.arr.value, |v.items|;
          && (r.maxItems.Some? ==> n <= r.maxItems.value)
          && (r.minItems.Some? ==> r.minItems.value <= n)
          && (r.uniqueItems ==> forall i, j :: 0 <= i < j < n ==> v.items[i] != v.items[j]))
    && (s.obj.Some? && v.JObject? ==>
          var r, n := s.obj.value, |v.fields|;
          && (r.maxProperties.Some? ==> n <= r.maxProperties.value)
          && (r.minProperties.Some? ==> r.minProperties.value <= n)
          && (forall k :: k in r.required ==> k in v.fields))
  }

  predicate Matched(env: Env, patterns: map<string, Schema>, k: string) {
    exists p :: p in patterns && env.matches(p, k)
  }

  /** Section 6.4: items, additionalItems and contains. */
  predicate ArrayOk(env: Env, s: Schema, r: ArrayRules, v: Json)
    requires v.JArray? && s.ObjectSchema? && s.arr == Some(r)
    decreases s, 0
  {
    && (r.items.Some? ==>
          match r.items.value
          case Every(item) => forall i :: 0 <= i < |v.items| ==> Validates(env, item, v.items[i])
          case Positional(list) =>
            && (forall i :: 0 <= i < |list| && i < |v.items| ==> Validates(env, list[i], v.items[i]))
            && (r.additionalItems.Some? ==>
                  forall i :: |list| <= i < |v.items| ==> Validates(env, r.additionalItems.value, v.items[i])))
    && (r.contains.Some? ==> exists i :: 0 <= i < |v.items| && Validates(env, r.contains.value, v.items[i]))
  }

  /** Section 6.5: the four keywords over properties. */
  predicate ObjectOk(env: Env, s: Schema, r: ObjectRules, v: Json)
    requires v.JObject? && s.ObjectSchema? && s.obj == Some(r)
    decreases s, 0
  {
    && (forall k :: k in r.properties && k in v.fields ==> Validates(env, r.properties[k], v.fields[k]))
    && (forall p, k :: p in r.patternProperties && k in v.fields && env.matches(p, k) ==>
          Validates(env, r.patternProperties[p], v.fields[k]))
    && (r.additionalProperties.Some? ==>
          forall k :: k in v.fields && k !in r.properties && !Matched(env, r.patternProperties, k) ==>
            Validates(env, r.additionalProperties.value, v.fields[k]))
    && (r.propertyNames.Some? ==> forall k :: k in v.fields ==> Validates(env, r.propertyNames.value, JString(k)))
  }

  /** Sections 6.6 and 6.7. */
  predicate SubOk(env: Env, s: Schema, r: Subschemas, v: Json)
    requires s.ObjectSchema? && s.sub == Some(r)
    decreases s, 0
  {
    && (r.allOf.Branches? ==> forall i :: 0 <= i < |r.allOf.list| ==> Validates(env, r.allOf.list[i], v))
    && (r.anyOf.Branches? ==> exists i :: 0 <= i < |r.anyOf.list| && Validates(env, r.anyOf.list[i], v))
    && (r.oneOf.Branches? ==>
          exists i :: 0 <= i < |r.oneOf.list| && Validates(env, r.oneOf.list[i], v)
                      && forall j :: 0 <= j < |r.oneOf.list| && j != i ==> !Validates(env, r.oneOf.list[j], v))
    && (r.negated.Some? ==> !Validates(env, r.negated.value, v))
    && (r.cond.Some? ==>
          if Validates(env, r.cond.value, v) then r.thenOf.Some? ==> Validates(env, r.thenOf.value, v)
          else r.elseOf.Some? ==> Validates(env, r.elseOf.value, v))
  }

  /** A reference hides its sibling keywords (section 8.3 of the core specification). */
  predicate Validates(env: Env, s: Schema, v: Json)
    decreases s, 1
  {
    match s
    case BoolSchema(accept) => accept
    case ObjectSchema(_, _, _, _, _, _, _, _, _, _, _, _) =>
      if s.reference.Some? then env.resolve(s.reference.value, v)
      else
        && TypeOk(env, s.instanceType, s.extensions, v)
        && ValueOk(env, s, v)
        && NumberOk(s.number, v)
        && StringOk(env, s.text, v)
        && SizesOk(s, v)
        && (s.arr.Some? && v.JArray? ==> ArrayOk(env, s, s.arr.value, v))
        && (s.obj.Some? && v.JObject? ==> ObjectOk(env, s, s.obj.value, v))
        && (s.sub.Some? ==> SubOk(env, s, s.sub.value, v))
  }

  /** Which values a comparison of schemas ranges over: all, or those holding no null at any depth. */
  datatype Domain = AllValues | NoNulls

  predicate Within(dom: Domain, v: Json) {
    dom.NoNulls? ==>
      match v
      case JNull => false
      case JArray(items) => forall i :: 0 <= i < |items| ==> Within(dom, items[i])
      case JObject(fields) => forall k :: k in fields ==> Within(dom, fields[k])
      case _ => true
  }

  /** Every value of the domain that `a` accepts, `b` accepts. */
  ghost predicate Below(env: Env, dom: Domain, a: Schema, b: Schema) {
    forall v :: Within(dom, v) && Validates(env, a, v) ==> Validates(env, b, v)
  }
}
