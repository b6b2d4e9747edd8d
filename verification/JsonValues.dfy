/** JSON-like Python values. A dict is an ordered list of fields, as Python keeps it; where a key
    is repeated the first field wins, so no result depends on the keys being unique. */
module JsonValues {
  datatype Json =
    | Null
    | Bool(flag: bool)
    | Number(num: real)
    | String(text: string)
    | Array(items: seq<Json>)
    | Object(fields: seq<Field>)

  datatype Field = Field(key: string, value: Json)

  /** `key in d` */
  predicate Has(fields: seq<Field>, key: string) {
    exists i :: 0 <= i < |fields| && fields[i].key == key
  }

  /** `d.get(key)`, with None for a missing key. */
  function Get(fields: seq<Field>, key: string): Json {
    if fields == [] then Null
    else if fields[0].key == key then fields[0].value
    else Get(fields[1..], key)
  }

  /** `d[key] = value`: replaces in place, appends when the key is new. */
  function Put(fields: seq<Field>, key: string, value: Json): seq<Field> {
    if fields == [] then [Field(key, value)]
    else if fields[0].key == key then [Field(key, value)] + fields[1..]
    else [fields[0]] + Put(fields[1..], key, value)
  }

  /** `d.setdefault(key, value)` */
  function SetDefault(fields: seq<Field>, key: string, value: Json): seq<Field> {
    if Has(fields, key) then fields else Put(fields, key, value)
  }

  /** `bool(v)` */
  predicate Truthy(v: Json) {
    match v
    case Null => false
    case Bool(b) => b
    case Number(n) => n != 0.0
    case String(s) => s != ""
    case Array(items) => items != []
    case Object(fields) => fields != []
  }

  /** `a or b` */
  function Or(a: Json, b: Json): Json {
    if Truthy(a) then a else b
  }

  /** A value Python can hash: lists and dicts cannot be looked up in a set. */
  predicate Hashable(v: Json) {
    !v.Array? && !v.Object?
  }

  /** What `str(v)` gives: the text itself for a string, otherwise the rendering of `of`. */
  datatype PyText = Text(s: string) | Rendered(of: Json)

  function Str(v: Json): PyText {
    if v.String? then Text(v.text) else Rendered(v)
  }

  /** A missing key reads as None; a key that is present sits at some position. */
  lemma {:induction false} GetAbsent(fields: seq<Field>, key: string)
    requires !Has(fields, key)
    ensures Get(fields, key) == Null
  {
    if fields != [] {
      HasUnfold(fields, key);
      GetAbsent(fields[1..], key);
    }
  }

  lemma {:induction false} GetPut(fields: seq<Field>, key: string, value: Json, other: string)
    ensures Get(Put(fields, key, value), other) == if other == key then value else Get(fields, other)
    ensures Has(Put(fields, key, value), other) <==> other == key || Has(fields, other)
  {
    if fields != [] {
      GetPut(fields[1..], key, value, other);
      var p := Put(fields, key, value);
      if fields[0].key == key {
        assert p[1..] == fields[1..];
        HasUnfold(p, other);
      } else {
        assert p[1..] == Put(fields[1..], key, value);
        HasUnfold(p, other);
      }
      HasUnfold(fields, other);
    } else {
      assert Put(fields, key, value)[1..] == [];
      HasUnfold(Put(fields, key, value), other);
    }
  }

  lemma HasUnfold(fields: seq<Field>, key: string)
    requires fields != []
    ensures Has(fields, key) <==> fields[0].key == key || Has(fields[1..], key)
  {
    if Has(fields, key) {
      var i :| 0 <= i < |fields| && fields[i].key == key;
      if i > 0 {
        assert fields[1..][i - 1].key == key;
      }
    }
    if Has(fields[1..], key) {
      var i :| 0 <= i < |fields[1..]| && fields[1..][i].key == key;
      assert fields[i + 1].key == key;
    }
  }

  /** Writing back the value a present key already has changes nothing, not even the key order. */
  lemma {:induction false} PutSame(fields: seq<Field>, key: string)
    requires Has(fields, key)
    ensures Put(fields, key, Get(fields, key)) == fields
  {
    HasUnfold(fields, key);
    if fields[0].key == key {
      assert fields == [Field(key, fields[0].value)] + fields[1..];
    } else {
      PutSame(fields[1..], key);
      assert fields == [fields[0]] + fields[1..];
    }
  }

  /** No dictionary holds a key twice; what Python guarantees. */
  predicate DistinctKeys(fields: seq<Field>) {
    forall a, b :: 0 <= a < b < |fields| ==> fields[a].key != fields[b].key
  }
}
