/** What the rewrite means for validation: which instances a rewritten schema accepts. */
module SchemaSemantics {
  import opened Wrappers
  import opened JsonValues
  import opened OpenApi

  /** Section 6.1.1 of JSON Schema Validation (draft 2020-12): "integer" matches any number with a
      zero fractional part. */
  predicate TypeMatches(name: string, instance: Json) {
    match instance
    case Null => name == "null"
    case Bool(_) => name == "boolean"
    case Number(n) => name == "number" || (name == "integer" && n.Floor as real == n)
    case String(_) => name == "string"
    case Array(_) => name == "array"
    case Object(_) => name == "object"
  }

  predicate TypeHolds(type_: Json, instance: Json) {
    match type_
    case String(name) => TypeMatches(name, instance)
    case Array(names) => exists i :: 0 <= i < |names| && names[i].String? && TypeMatches(names[i].text, instance)
    case _ => false
  }

  predicate Declared(fields: seq<Field>, name: string) {
    var props := Get(fields, "properties");
    props.Object? && Has(props.fields, name)
  }

  predicate ExactlyOne(accepted: seq<bool>) {
    exists k :: 0 <= k < |accepted| && accepted[k] && forall m :: 0 <= m < |accepted| && m != k ==> !accepted[m]
  }

  lemma ExactlyOneOfTwo(a: bool, b: bool)
    ensures ExactlyOne([a, b]) <==> a != b
  {
    var both := [a, b];
    assert both[0] == a && both[1] == b;
    if a && !b {
      assert both[0] && forall m :: 0 <= m < |both| && m != 0 ==> !both[m];
    }
    if b && !a {
      assert both[1] && forall m :: 0 <= m < |both| && m != 1 ==> !both[m];
    }
  }

  /** Validation against a schema. `other` decides every keyword not listed here from the keyword's
      own value and the instance. */
  predicate Valid(schema: Json, instance: Json, other: (string, Json, Json) -> bool)
    decreases schema, 1
  {
    match schema
    case Bool(b) => b
    case Object(fields) => forall i :: 0 <= i < |fields| ==> KeywordHolds(schema, i, instance, other)
    case _ => false
  }

  predicate KeywordHolds(schema: Json, i: nat, instance: Json, other: (string, Json, Json) -> bool)
    requires schema.Object? && i < |schema.fields|
    decreases schema, 0
  {
    var fields := schema.fields;
    var key, v := fields[i].key, fields[i].value;
    if key == "type" then TypeHolds(v, instance)
    else if key == "properties" then
      v.Object? && (instance.Object? ==>
        forall k :: 0 <= k < |v.fields| && Has(instance.fields, v.fields[k].key) ==>
          Valid(v.fields[k].value, Get(instance.fields, v.fields[k].key), other))
    else if key == "additionalProperties" then
      instance.Object? ==>
        forall k :: 0 <= k < |instance.fields| ==>
          Declared(fields, instance.fields[k].key) || Valid(v, instance.fields[k].value, other)
    else if key == "items" then
      instance.Array? ==> forall k :: 0 <= k < |instance.items| ==> Valid(v, instance.items[k], other)
    else if key == "required" then
      v.Array? && (instance.Object? ==>
        forall k :: 0 <= k < |v.items| ==> v.items[k].String? && Has(instance.fields, v.items[k].text))
    else if key == "allOf" then
      v.Array? && forall k :: 0 <= k < |v.items| ==> Valid(v.items[k], instance, other)
    else if key == "anyOf" then
      v.Array? && exists k :: 0 <= k < |v.items| && Valid(v.items[k], instance, other)
    else if key == "oneOf" then
      v.Array? && ExactlyOne(seq(|v.items|, k requires 0 <= k < |v.items| => Valid(v.items[k], instance, other)))
    else if key == "not" then !Valid(v, instance, other)
    else other(key, v, instance)
  }

  predicate NamesOnly(names: seq<Json>) {
    forall i :: 0 <= i < |names| ==> names[i].String?
  }

  predicate SomeName(names: seq<Json>) {
    exists i :: 0 <= i < |names| && names[i] != String("null")
  }

  /** Schemas whose type lists all stand at places of one polarity: under an even number of `not`
      keywords if `lists` holds, under an odd number otherwise. The lists name something besides
      null, alternatives of `oneOf` have none, and neither do the values of keywords not listed. */
  predicate Fragment(schema: Json, lists: bool) {
    match schema
    case Bool(_) => true
    case Object(fields) => forall i :: 0 <= i < |fields| ==>
      var key, v := fields[i].key, fields[i].value;
      if key == "type" then v.String? || (lists && v.Array? && NamesOnly(v.items) && SomeName(v.items))
      else if key == "properties" then v.Object? && forall k :: 0 <= k < |v.fields| ==>
        Fragment(v.fields[k].value, lists)
      else if key == "additionalProperties" || key == "items" then Fragment(v, lists)
      else if key == "allOf" || key == "anyOf" then v.Array? && forall k :: 0 <= k < |v.items| ==>
        Fragment(v.items[k], lists)
      else if key == "not" then Fragment(v, !lists)
      else NormalForm(v)
    case _ => false
  }

  /** Acceptance before the rewrite follows from acceptance after it, or the other way round. */
  predicate Goes(narrows: bool, before: bool, after: bool) {
    if narrows then after ==> before else before ==> after
  }

  /** Semantic narrowing and widening: if all its type lists stand under an even number of `not`
      keywords, every instance the rewritten schema accepts is accepted by the original; if all stand
      under an odd number, every instance the original accepts is accepted by the rewritten one. */
  lemma {:induction false} NormalizeMoves(schema: Json, lists: bool, instance: Json,
      other: (string, Json, Json) -> bool)
    requires Fragment(schema, lists)
    ensures Goes(lists, Valid(schema, instance, other), Valid(Normalize(schema), instance, other))
    decreases schema, 2
  {
    if schema.Object? {
      var out := Normalize(schema);
      NormalizeShape(schema);
      forall i | 0 <= i < |schema.fields|
        ensures Goes(lists, KeywordHolds(schema, i, instance, other), KeywordHolds(out, i, instance, other))
      {
        MoveKeyword(schema, i, lists, instance, other);
      }
      hide KeywordHolds, Normalize, Fragment;
    }
  }

  lemma {:induction false} MoveKeyword(schema: Json, i: nat, lists: bool, instance: Json,
      other: (string, Json, Json) -> bool)
    requires schema.Object? && i < |schema.fields| && Fragment(schema, lists)
    requires Normalize(schema).Object? && |Normalize(schema).fields| == |schema.fields|
    ensures Goes(lists, KeywordHolds(schema, i, instance, other), KeywordHolds(Normalize(schema), i, instance, other))
    decreases schema, 1
  {
    var key, v := schema.fields[i].key, schema.fields[i].value;
    if key == "properties" {
      MoveProperties(schema, i, lists, instance, other);
    } else if key == "additionalProperties" {
      MoveAdditional(schema, i, lists, instance, other);
    } else if key == "allOf" || key == "anyOf" || key == "items" {
      MoveParts(schema, i, lists, instance, other);
    } else {
      NormalizeShape(schema);
      NormalizeShape(v);
      if key == "not" {
        NormalizeMoves(v, !lists, instance, other);
      } else if key == "type" {
        if v.Array? {
          PickIsMember(v.items);
        }
      } else {
        NormalizeFixesNormalForms(v);
      }
    }
  }

  lemma {:induction false} MoveProperties(schema: Json, i: nat, lists: bool, instance: Json,
      other: (string, Json, Json) -> bool)
    requires schema.Object? && i < |schema.fields| && Fragment(schema, lists)
    requires Normalize(schema).Object? && |Normalize(schema).fields| == |schema.fields|
    requires schema.fields[i].key == "properties"
    ensures Goes(lists, KeywordHolds(schema, i, instance, other), KeywordHolds(Normalize(schema), i, instance, other))
    decreases schema, 0
  {
    var v := schema.fields[i].value;
    NormalizeShape(schema);
    NormalizeShape(v);
    if instance.Object? {
      forall k | 0 <= k < |v.fields| && Has(instance.fields, v.fields[k].key)
        ensures Normalize(v).fields[k] == Field(v.fields[k].key, Normalize(v.fields[k].value))
        ensures Goes(lists, Valid(v.fields[k].value, Get(instance.fields, v.fields[k].key), other),
          Valid(Normalize(v.fields[k].value), Get(instance.fields, v.fields[k].key), other))
      {
        assert Fragment(v.fields[k].value, lists);
        NormalizeMoves(v.fields[k].value, lists, Get(instance.fields, v.fields[k].key), other);
      }
    }
  }

  lemma {:induction false} MoveAdditional(schema: Json, i: nat, lists: bool, instance: Json,
      other: (string, Json, Json) -> bool)
    requires schema.Object? && i < |schema.fields| && Fragment(schema, lists)
    requires Normalize(schema).Object? && |Normalize(schema).fields| == |schema.fields|
    requires schema.fields[i].key == "additionalProperties"
    ensures Goes(lists, KeywordHolds(schema, i, instance, other), KeywordHolds(Normalize(schema), i, instance, other))
    decreases schema, 0
  {
    var v := schema.fields[i].value;
    NormalizeShape(schema);
    if instance.Object? {
      forall k | 0 <= k < |instance.fields|
        ensures Declared(Normalize(schema).fields, instance.fields[k].key)
           <==> Declared(schema.fields, instance.fields[k].key)
        ensures Goes(lists, Valid(v, instance.fields[k].value, other),
          Valid(Normalize(v), instance.fields[k].value, other))
      {
        NormalizeKeepsDeclared(schema, instance.fields[k].key);
        NormalizeMoves(v, lists, instance.fields[k].value, other);
      }
    }
  }

  lemma {:induction false} MoveParts(schema: Json, i: nat, lists: bool, instance: Json,
      other: (string, Json, Json) -> bool)
    requires schema.Object? && i < |schema.fields| && Fragment(schema, lists)
    requires Normalize(schema).Object? && |Normalize(schema).fields| == |schema.fields|
    requires schema.fields[i].key == "allOf" || schema.fields[i].key == "anyOf" || schema.fields[i].key == "items"
    ensures Goes(lists, KeywordHolds(schema, i, instance, other), KeywordHolds(Normalize(schema), i, instance, other))
    decreases schema, 0
  {
    var key, v := schema.fields[i].key, schema.fields[i].value;
    NormalizeShape(schema);
    NormalizeShape(v);
    if key == "items" {
      if instance.Array? {
        forall k | 0 <= k < |instance.items|
          ensures Goes(lists, Valid(v, instance.items[k], other), Valid(Normalize(v), instance.items[k], other))
        {
          NormalizeMoves(v, lists, instance.items[k], other);
        }
      }
    } else {
      forall k | 0 <= k < |v.items|
        ensures Goes(lists, Valid(v.items[k], instance, other), Valid(Normalize(v).items[k], instance, other))
      {
        NormalizeMoves(v.items[k], lists, instance, other);
      }
    }
  }

  /** On the fragment without type lists under an odd number of `not`, every instance the rewritten
      schema accepts is accepted by the original. */
  lemma NormalizeNarrows(schema: Json, instance: Json, other: (string, Json, Json) -> bool)
    requires Fragment(schema, true) && Valid(Normalize(schema), instance, other)
    ensures Valid(schema, instance, other)
  {
    NormalizeMoves(schema, true, instance, other);
  }

  /** Under an odd number it is the other way round. */
  lemma NormalizeWidens(schema: Json, instance: Json, other: (string, Json, Json) -> bool)
    requires Fragment(schema, false) && Valid(schema, instance, other)
    ensures Valid(Normalize(schema), instance, other)
  {
    NormalizeMoves(schema, false, instance, other);
  }

  lemma NormalizeKeepsDeclared(schema: Json, name: string)
    requires schema.Object?
    ensures Declared(Normalize(schema).fields, name) <==> Declared(schema.fields, name)
  {
    NormalizeLookup(schema.fields, "properties");
    var props := Get(schema.fields, "properties");
    if !Has(schema.fields, "properties") {
      GetAbsent(schema.fields, "properties");
      GetAbsent(Normalize(schema).fields, "properties");
    } else if props.Object? {
      NormalizeLookup(props.fields, name);
    }
  }

  // ---------------------------------------------------------------- where narrowing stops

  function TypeSchema(type_: Json): Json {
    Object([Field("type", type_)])
  }

  lemma TypeSchemaValid(type_: Json, instance: Json, other: (string, Json, Json) -> bool)
    ensures Valid(TypeSchema(type_), instance, other) <==> TypeHolds(type_, instance)
    ensures Normalize(TypeSchema(type_)) == TypeSchema(if type_.Array? then Pick(type_.items) else Normalize(type_))
  {
    var s := TypeSchema(type_);
    assert KeywordHolds(s, 0, instance, other) <==> TypeHolds(type_, instance);
    assert Normalize(s).fields == TypeSchema(if type_.Array? then Pick(type_.items) else Normalize(type_)).fields;
  }

  /** A type list narrows exactly when it names something besides null: a list of nothing but null
      (or nothing at all) becomes "string" and then accepts strings the original rejects. */
  lemma TypeListNarrowsIffItNamesAType(names: seq<Json>, other: (string, Json, Json) -> bool)
    requires NamesOnly(names)
    ensures (forall instance ::
               Valid(Normalize(TypeSchema(Array(names))), instance, other) ==>
                 Valid(TypeSchema(Array(names)), instance, other))
       <==> SomeName(names)
  {
    var s := TypeSchema(Array(names));
    PickIsMember(names);
    if SomeName(names) {
      forall instance | Valid(Normalize(s), instance, other)
        ensures Valid(s, instance, other)
      {
        TypeSchemaValid(Array(names), instance, other);
        TypeSchemaValid(Pick(names), instance, other);
      }
    } else {
      var text := String("");
      TypeSchemaValid(Array(names), text, other);
      TypeSchemaValid(Pick(names), text, other);
      assert Valid(Normalize(s), text, other) && !Valid(s, text, other);
    }
  }

  /** The narrowing is strict for a nullable type: null itself is no longer accepted. */
  lemma NullableLosesNull(name: string, other: (string, Json, Json) -> bool)
    requires name != "null"
    ensures var s := TypeSchema(Array([String(name), String("null")]));
      Valid(s, Null, other) && !Valid(Normalize(s), Null, other)
  {
    var names := [String(name), String("null")];
    TypeSchemaValid(Array(names), Null, other);
    TypeSchemaValid(Pick(names), Null, other);
    assert names[1].String? && TypeMatches(names[1].text, Null);
  }

  /** Under `not` the same rewrite widens: null is accepted after it and was not before. */
  lemma NotReversesNarrowing(name: string, other: (string, Json, Json) -> bool)
    requires name != "null"
    ensures var s := Object([Field("not", TypeSchema(Array([String(name), String("null")])))]);
      Valid(Normalize(s), Null, other) && !Valid(s, Null, other)
  {
    var inner := TypeSchema(Array([String(name), String("null")]));
    var s := Object([Field("not", inner)]);
    NullableLosesNull(name, other);
    NormalizeShape(s);
    assert !KeywordHolds(s, 0, Null, other);
    assert KeywordHolds(Normalize(s), 0, Null, other);
  }

  lemma OneOfSchema(items: seq<Json>, instance: Json, other: (string, Json, Json) -> bool)
    ensures Valid(Object([Field("oneOf", Array(items))]), instance, other)
       <==> ExactlyOne(seq(|items|, k requires 0 <= k < |items| => Valid(items[k], instance, other)))
  {
    var s := Object([Field("oneOf", Array(items))]);
    hide ExactlyOne;
    var accepted := seq(|items|, k requires 0 <= k < |items| => Valid(items[k], instance, other));
    assert KeywordHolds(s, 0, instance, other) <==> ExactlyOne(accepted);
  }

  lemma OneOfPair(a: Json, b: Json, instance: Json, other: (string, Json, Json) -> bool)
    ensures Valid(Object([Field("oneOf", Array([a, b]))]), instance, other)
       <==> Valid(a, instance, other) != Valid(b, instance, other)
  {
    var s := Object([Field("oneOf", Array([a, b]))]);
    var items := [a, b];
    var accepted := seq(|items|, k requires 0 <= k < |items| => Valid(items[k], instance, other));
    assert accepted == [Valid(a, instance, other), Valid(b, instance, other)];
    ExactlyOneOfTwo(Valid(a, instance, other), Valid(b, instance, other));
    OneOfSchema(items, instance, other);
  }

  /** Under `oneOf` it can widen too: an instance two alternatives accepted is left with one. */
  lemma OneOfReversesNarrowing(name: string, other: (string, Json, Json) -> bool)
    requires name != "null"
    ensures var s :=
      Object([Field("oneOf", Array([TypeSchema(Array([String(name), String("null")])), TypeSchema(String("null"))]))]);
      Valid(Normalize(s), Null, other) && !Valid(s, Null, other)
  {
    var a, b := TypeSchema(Array([String(name), String("null")])), TypeSchema(String("null"));
    NullableLosesNull(name, other);
    TypeSchemaValid(String("null"), Null, other);
    OneOfPair(a, b, Null, other);
    OneOfPair(Normalize(a), b, Null, other);
    NormalizeShape(Array([a, b]));
    assert Normalize(Array([a, b])).items == [Normalize(a), b];
    NormalizeShape(Object([Field("oneOf", Array([a, b]))]));
    assert Normalize(Object([Field("oneOf", Array([a, b]))])).fields == [Field("oneOf", Array([Normalize(a), b]))];
  }
}
