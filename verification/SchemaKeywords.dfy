/** What each keyword of a schema asks of an instance, said without the order in which keywords,
    properties and alternatives are listed. */
module SchemaKeywords {
  import opened Wrappers
  import opened JsonValues
  import opened OpenApi
  import opened SchemaSemantics

  type Other = (string, Json, Json) -> bool

  function Whole(k: int): real {
    k as real
  }

  /** The instance is of the type that goes by this name. */
  ghost predicate IsOfType(instance: Json, name: string) {
    || (name == "null" && instance == Null)
    || (name == "boolean" && exists b :: instance == Bool(b))
    || (name == "number" && exists n :: instance == Number(n))
    || (name == "integer" && instance.Number? && exists k: int :: Whole(k) == instance.num)
    || (name == "string" && exists s :: instance == String(s))
    || (name == "array" && exists items :: instance == Array(items))
    || (name == "object" && exists fields :: instance == Object(fields))
  }

  lemma TypeMatchesIsOfType(name: string, instance: Json)
    ensures TypeMatches(name, instance) <==> IsOfType(instance, name)
  {
    if instance.Number? && instance.num.Floor as real == instance.num {
      assert Whole(instance.num.Floor) == instance.num;
    }
  }

  /** `type` names one type or a list of them, of which the instance has to be one. */
  lemma TypeAsks(type_: Json, instance: Json)
    ensures TypeHolds(type_, instance)
       <==> exists name :: (type_ == String(name) || (type_.Array? && String(name) in type_.items))
                           && IsOfType(instance, name)
  {
    forall name
      ensures TypeMatches(name, instance) <==> IsOfType(instance, name)
    {
      TypeMatchesIsOfType(name, instance);
    }
    hide TypeMatches, IsOfType;
    if type_.Array? {
      if name :| String(name) in type_.items && IsOfType(instance, name) {
        var i :| 0 <= i < |type_.items| && type_.items[i] == String(name);
      }
      if i :| 0 <= i < |type_.items| && type_.items[i].String? && TypeMatches(type_.items[i].text, instance) {
        assert String(type_.items[i].text) in type_.items;
      }
    }
  }

  /** An instance that meets every keyword of a schema is valid, and a valid one meets every keyword;
      `true` asks nothing, and `false` cannot be met. */
  lemma MeetingAllIsValid(schema: Json, instance: Json, other: Other)
    requires schema.Object? ==>
      forall i :: 0 <= i < |schema.fields| ==> KeywordHolds(schema, i, instance, other)
    requires schema.Object? || schema == Bool(true)
    ensures Valid(schema, instance, other)
  {
  }

  lemma ValidMeetsAll(schema: Json, instance: Json, other: Other, i: nat)
    requires Valid(schema, instance, other)
    ensures schema != Bool(false)
    ensures schema.Object? && i < |schema.fields| ==> KeywordHolds(schema, i, instance, other)
  {
  }

  /** `required` asks of a dict that it has all the keys. */
  lemma RequiredAsks(schema: Json, i: nat, instance: Json, other: Other)
    requires schema.Object? && i < |schema.fields| && schema.fields[i].key == "required"
    ensures var v := schema.fields[i].value;
      KeywordHolds(schema, i, instance, other)
      <==> v.Array? && (instance.Object? ==>
             forall n :: n in v.items ==> n.String? && exists f :: f in instance.fields && String(f.key) == n)
  {
    hide Valid;
    var v := schema.fields[i].value;
    if v.Array? && instance.Object? {
      forall n | n in v.items && n.String?
        ensures Has(instance.fields, n.text) <==> exists f :: f in instance.fields && String(f.key) == n
      {
        if k :| 0 <= k < |instance.fields| && instance.fields[k].key == n.text {
          assert instance.fields[k] in instance.fields;
        }
      }
    }
  }

  /** `properties` asks of a dict that each key it shares with the schema holds a valid value. */
  lemma PropertiesAsk(schema: Json, i: nat, instance: Json, other: Other)
    requires schema.Object? && i < |schema.fields| && schema.fields[i].key == "properties"
    ensures var v := schema.fields[i].value;
      KeywordHolds(schema, i, instance, other)
      <==> v.Object? && (instance.Object? ==>
             forall p :: p in v.fields && (exists f :: f in instance.fields && f.key == p.key) ==>
               Valid(p.value, Get(instance.fields, p.key), other))
  {
    hide Valid, Get;
    var v := schema.fields[i].value;
    if instance.Object? {
      forall key
        ensures Has(instance.fields, key) <==> exists f :: f in instance.fields && f.key == key
      {
        HasSome(instance.fields, key);
      }
      hide Has;
      if v.Object? {
        assert forall k :: 0 <= k < |v.fields| ==> v.fields[k] in v.fields;
      }
    }
  }

  lemma HasSome(fields: seq<Field>, key: string)
    ensures Has(fields, key) <==> exists f :: f in fields && f.key == key
  {
    if k :| 0 <= k < |fields| && fields[k].key == key {
      assert fields[k] in fields;
    }
  }

  /** `additionalProperties` asks of a dict that each key `properties` does not name holds a value valid
      for it. */
  lemma AdditionalAsk(schema: Json, i: nat, instance: Json, other: Other)
    requires schema.Object? && i < |schema.fields| && schema.fields[i].key == "additionalProperties"
    ensures var v, props := schema.fields[i].value, Get(schema.fields, "properties");
      KeywordHolds(schema, i, instance, other)
      <==> (instance.Object? ==>
             forall f :: f in instance.fields ==>
               (props.Object? && exists p :: p in props.fields && p.key == f.key) || Valid(v, f.value, other))
  {
    hide Valid, Get;
    var props := Get(schema.fields, "properties");
    if instance.Object? {
      forall key
        ensures Declared(schema.fields, key) <==> props.Object? && exists p :: p in props.fields && p.key == key
      {
        if props.Object? {
          HasSome(props.fields, key);
        }
      }
      hide Declared;
      assert forall k :: 0 <= k < |instance.fields| ==> instance.fields[k] in instance.fields;
    }
  }

  const KEYWORDS: seq<string> :=
    ["type", "properties", "additionalProperties", "items", "required", "allOf", "anyOf", "oneOf", "not"]

  /** `items` asks of a list that each entry is valid; `allOf` and `anyOf` that all, or some, of their
      schemas accept the instance; `not` that its schema does not. Any other keyword is left to the test given. */
  lemma PartsAsk(schema: Json, i: nat, instance: Json, other: Other)
    requires schema.Object? && i < |schema.fields|
    ensures var key, v, holds := schema.fields[i].key, schema.fields[i].value, KeywordHolds(schema, i, instance, other);
      && (key == "items" ==>
            (holds <==> (instance.Array? ==> forall x :: x in instance.items ==> Valid(v, x, other))))
      && (key == "allOf" ==>
            (holds <==> v.Array? && forall s :: s in v.items ==> Valid(s, instance, other)))
      && (key == "anyOf" ==>
            (holds <==> v.Array? && exists s :: s in v.items && Valid(s, instance, other)))
      && (key == "not" ==> (holds <==> !Valid(v, instance, other)))
      && (key !in KEYWORDS ==> (holds <==> other(key, v, instance)))
  {
    var v := schema.fields[i].value;
    if v.Array? {
      assert forall k :: 0 <= k < |v.items| ==> v.items[k] in v.items;
    }
    if instance.Array? {
      assert forall k :: 0 <= k < |instance.items| ==> instance.items[k] in instance.items;
    }
  }

  /** `oneOf` asks that one of its schemas accepts the instance, and no other does. */
  lemma OneOfAsks(schema: Json, i: nat, instance: Json, other: Other)
    requires schema.Object? && i < |schema.fields| && schema.fields[i].key == "oneOf"
    ensures var v := schema.fields[i].value;
      KeywordHolds(schema, i, instance, other)
      <==> && v.Array? && (exists k :: 0 <= k < |v.items| && Valid(v.items[k], instance, other))
           && (forall k, m :: 0 <= k < m < |v.items| ==>
                 !(Valid(v.items[k], instance, other) && Valid(v.items[m], instance, other)))
  {
    hide Valid;
    var v := schema.fields[i].value;
    if v.Array? {
      var accepted := seq(|v.items|, k requires 0 <= k < |v.items| => Valid(v.items[k], instance, other));
      assert forall k :: 0 <= k < |v.items| ==> accepted[k] == Valid(v.items[k], instance, other);
      assert KeywordHolds(schema, i, instance, other) <==> ExactlyOne(accepted);
      if ExactlyOne(accepted) {
        var k :| 0 <= k < |accepted| && accepted[k] && forall m :: 0 <= m < |accepted| && m != k ==> !accepted[m];
        assert Valid(v.items[k], instance, other);
      }
    }
  }
}
