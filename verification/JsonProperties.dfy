/** What reading and writing a dictionary does, and which values count as false. */
module JsonProperties {
  import opened JsonValues

  /** `get` gives the value of the first entry with the key, and None without one. */
  lemma {:induction false} GetIsTheFirst(fields: seq<Field>, key: string, v: Json)
    ensures (forall i :: 0 <= i < |fields| ==> fields[i].key != key) ==> Get(fields, key) == Null
    ensures (exists i :: 0 <= i < |fields| && FirstAt(fields, key, i) && fields[i].value == v) ==> Get(fields, key) == v
  {
    if fields != [] && fields[0].key != key {
      GetIsTheFirst(fields[1..], key, v);
      if i :| 0 <= i < |fields| && FirstAt(fields, key, i) && fields[i].value == v {
        assert FirstAt(fields[1..], key, i - 1);
      }
    }
  }

  predicate FirstAt(fields: seq<Field>, key: string, i: nat) {
    i < |fields| && fields[i].key == key && forall j :: 0 <= j < i ==> fields[j].key != key
  }

  /** Writing a key replaces its entry where it stands, and otherwise adds one at the end. */
  lemma {:induction false} PutInPlace(fields: seq<Field>, key: string, value: Json, i: nat)
    ensures (forall k :: 0 <= k < |fields| ==> fields[k].key != key) ==>
              Put(fields, key, value) == fields + [Field(key, value)]
    ensures FirstAt(fields, key, i) ==> Put(fields, key, value) == fields[i := Field(key, value)]
  {
    if fields != [] && fields[0].key != key {
      var rest := fields[1..];
      PutInPlace(rest, key, value, if i > 0 then i - 1 else 0);
      assert fields == [fields[0]] + rest;
      if FirstAt(fields, key, i) {
        assert FirstAt(rest, key, i - 1);
        assert [fields[0]] + rest[i - 1 := Field(key, value)] == fields[i := Field(key, value)];
      }
    } else if fields != [] {
      assert fields[0 := Field(key, value)] == [Field(key, value)] + fields[1..];
      assert FirstAt(fields, key, i) ==> i == 0;
    }
  }

  /** Python's false values: None, False, zero, and what is empty. */
  lemma WhatIsFalse(v: Json)
    ensures !Truthy(v) <==> v in [Null, Bool(false), Number(0.0), String(""), Array([]), Object([])]
  {
  }
}
