/** The schema walkers of the audit scripts: every sub-schema of a command schema with the path that
    leads to it. Both walkers are `Walk`, which differ in the combinators they descend into. */
module SchemaWalk {
  import opened Wrappers
  import opened JsonValues
  import opened OpenApi
  import Text

  /** The combinators `walk_schema_nodes` descends into; `walk_schema` knows none. */
  const COMBINATORS: seq<string> := ["oneOf", "anyOf", "allOf"]

  /** One emitted node; `prop` is the property name at the leaf, as `walk_schema` reports it. */
  datatype Node = Node(path: seq<Segment>, schema: Json, prop: Option<string>)

  /** A place of a schema object that may hold a sub-schema. */
  datatype Slot = Slot(segments: seq<Segment>, child: Json, prop: Option<string>)

  function PropertySlots(fields: seq<Field>): seq<Slot> {
    var p := Get(fields, "properties");
    if p.Object? then
      seq(|p.fields|, i requires 0 <= i < |p.fields| =>
        Slot([Key("properties"), Key(p.fields[i].key)], p.fields[i].value, Some(p.fields[i].key)))
    else []
  }

  function ListSlots(key: string, v: Json): seq<Slot> {
    if v.Array? then
      seq(|v.items|, i requires 0 <= i < |v.items| => Slot([Key(key), Index(i)], v.items[i], None))
    else []
  }

  function ItemSlots(fields: seq<Field>): seq<Slot> {
    var v := Get(fields, "items");
    if v.Object? then [Slot([Key("items")], v, None)] else ListSlots("items", v)
  }

  function CombinatorSlots(fields: seq<Field>, keys: seq<string>): seq<Slot> {
    if keys == [] then [] else ListSlots(keys[0], Get(fields, keys[0])) + CombinatorSlots(fields, keys[1..])
  }

  function Slots(fields: seq<Field>, keys: seq<string>): seq<Slot> {
    PropertySlots(fields) + ItemSlots(fields) + CombinatorSlots(fields, keys)
  }

  function Under(segments: seq<Segment>, nodes: seq<Node>): seq<Node> {
    seq(|nodes|, i requires 0 <= i < |nodes| => Node(segments + nodes[i].path, nodes[i].schema, nodes[i].prop))
  }

  ghost predicate Below(j: Json, slots: seq<Slot>) {
    forall i :: 0 <= i < |slots| ==> slots[i].child < j
  }

  ghost function Walk(j: Json, prop: Option<string>, keys: seq<string>): seq<Node>
    decreases j, 1, 0
  {
    if !j.Object? then []
    else
      SlotsAreBelow(j, keys);
      [Node([], j, prop)] + WalkSlots(j, Slots(j.fields, keys), keys)
  }

  ghost function WalkSlots(j: Json, slots: seq<Slot>, keys: seq<string>): seq<Node>
    requires Below(j, slots)
    decreases j, 0, |slots|
  {
    if slots == [] then []
    else Under(slots[0].segments, Walk(slots[0].child, slots[0].prop, keys)) + WalkSlots(j, slots[1..], keys)
  }

  lemma {:induction false} GetIsBelow(fields: seq<Field>, key: string)
    ensures Has(fields, key) ==> exists i :: 0 <= i < |fields| && Get(fields, key) == fields[i].value
    ensures Has(fields, key) || Get(fields, key) == Null
  {
    if !Has(fields, key) {
      GetAbsent(fields, key);
    } else if fields[0].key != key {
      HasUnfold(fields, key);
      GetIsBelow(fields[1..], key);
      var i :| 0 <= i < |fields[1..]| && Get(fields[1..], key) == fields[1..][i].value;
      assert Get(fields, key) == fields[i + 1].value;
    }
  }

  lemma PartIsBelow(j: Json, key: string)
    requires j.Object?
    ensures Has(j.fields, key) ==> Get(j.fields, key) < j
  {
    GetIsBelow(j.fields, key);
    if Has(j.fields, key) {
      var i :| 0 <= i < |j.fields| && Get(j.fields, key) == j.fields[i].value;
      assert j.fields[i].value < j.fields[i] < j;
    }
  }

  lemma ListSlotsAreBelow(j: Json, key: string)
    requires j.Object?
    ensures Below(j, ListSlots(key, Get(j.fields, key)))
  {
    PartIsBelow(j, key);
    GetIsBelow(j.fields, key);
  }

  lemma {:induction false} CombinatorSlotsAreBelow(j: Json, keys: seq<string>)
    requires j.Object?
    ensures Below(j, CombinatorSlots(j.fields, keys))
  {
    if keys != [] {
      ListSlotsAreBelow(j, keys[0]);
      CombinatorSlotsAreBelow(j, keys[1..]);
    }
  }

  lemma SlotsAreBelow(j: Json, keys: seq<string>)
    requires j.Object?
    ensures Below(j, PropertySlots(j.fields)) && Below(j, ItemSlots(j.fields))
    ensures Below(j, CombinatorSlots(j.fields, keys)) && Below(j, Slots(j.fields, keys))
  {
    hide Get, Has;
    PartIsBelow(j, "properties");
    GetIsBelow(j.fields, "properties");
    PartIsBelow(j, "items");
    GetIsBelow(j.fields, "items");
    ListSlotsAreBelow(j, "items");
    CombinatorSlotsAreBelow(j, keys);
    var p := Get(j.fields, "properties");
    if p.Object? {
      forall i | 0 <= i < |p.fields|
        ensures p.fields[i].value < j
      {
        assert p.fields[i].value < p.fields[i] < p < j;
      }
    }
  }

  // ---------------------------------------------------------------- the walker itself

  /** A path as the scripts print it. */
  function Shown(path: seq<Segment>): string {
    if path == [] then ""
    else
      (match path[0]
       case Key(k) => "." + k
       case Index(i) => "[" + Text.Digits(i) + "]") + Shown(path[1..])
  }

  datatype Row = Row(path: string, schema: Json, prop: Option<string>)

  function Rows(prefix: string, nodes: seq<Node>): seq<Row> {
    seq(|nodes|, i requires 0 <= i < |nodes| => Row(prefix + Shown(nodes[i].path), nodes[i].schema, nodes[i].prop))
  }

  /** `rows` is the node itself and everything below the slots of `done`. */
  ghost predicate Walked(schema: Json, path: string, prop: Option<string>, keys: seq<string>, rows: seq<Row>,
      done: seq<Slot>) {
    Below(schema, done) && rows == Rows(path, [Node([], schema, prop)] + WalkSlots(schema, done, keys))
  }

  /** `walk_schema_nodes` with `keys` the three combinators, `walk_schema` with none. */
  method WalkSchemaNodes(schema: Json, path: string, prop: Option<string>, keys: seq<string>) returns (rows: seq<Row>)
    ensures rows == Rows(path, Walk(schema, prop, keys))
    decreases schema, 2
  {
    if !schema.Object? {
      return [];
    }
    hide *;
    ghost var done: seq<Slot> := [];
    rows := [Row(path, schema, prop)];
    WalkedStart(schema, path, prop, keys);
    if Get(schema.fields, "properties").Object? {
      rows, done := WalkProperties(schema, path, prop, keys, rows, done);
    } else {
      NoPropertySlots(schema.fields);
    }
    assert done == PropertySlots(schema.fields);
    rows, done := WalkItems(schema, path, prop, keys, rows, done);
    rows, done := WalkCombinators(schema, path, prop, keys, rows, done);
    WalkedEnd(schema, path, prop, keys, rows, done);
  }

  lemma WalkedEnd(schema: Json, path: string, prop: Option<string>, keys: seq<string>, rows: seq<Row>, done: seq<Slot>)
    requires schema.Object? && Walked(schema, path, prop, keys, rows, done)
    requires done == PropertySlots(schema.fields) + ItemSlots(schema.fields) + CombinatorSlots(schema.fields, keys)
    ensures rows == Rows(path, Walk(schema, prop, keys))
  {
  }

  /** The loop over the combinators. */
  method WalkCombinators(schema: Json, path: string, ghost prop: Option<string>, keys: seq<string>,
      rows0: seq<Row>, ghost done0: seq<Slot>)
    returns (rows: seq<Row>, ghost done: seq<Slot>)
    requires schema.Object? && Walked(schema, path, prop, keys, rows0, done0)
    ensures done == done0 + CombinatorSlots(schema.fields, keys)
    ensures Walked(schema, path, prop, keys, rows, done)
    decreases schema, 1
  {
    hide *;
    rows, done := rows0, done0;
    ghost var all := done0 + CombinatorSlots(schema.fields, keys);
    CombinatorSlotsStep(schema.fields, keys, 0, done, all);
    var k := 0;
    while k < |keys|
      invariant 0 <= k <= |keys|
      invariant done + CombinatorSlots(schema.fields, keys[k..]) == all
      invariant Walked(schema, path, prop, keys, rows, done)
    {
      CombinatorSlotsStep(schema.fields, keys, k, done, all);
      if Get(schema.fields, keys[k]).Array? {
        rows, done := WalkList(schema, keys[k], path, prop, keys, rows, done);
      }
      k := k + 1;
    }
    CombinatorSlotsStep(schema.fields, keys, k, done, all);
  }

  lemma CombinatorSlotsStep(fields: seq<Field>, keys: seq<string>, k: nat, done: seq<Slot>, all: seq<Slot>)
    requires k <= |keys|
    ensures keys[0..] == keys
    ensures k < |keys| && done + CombinatorSlots(fields, keys[k..]) == all ==>
              var here := ListSlots(keys[k], Get(fields, keys[k]));
              && done + here + CombinatorSlots(fields, keys[k + 1..]) == all
              && (!Get(fields, keys[k]).Array? ==> done + CombinatorSlots(fields, keys[k + 1..]) == all)
    ensures k == |keys| ==> done + CombinatorSlots(fields, keys[k..]) == done
  {
    hide Get;
    if k < |keys| {
      assert keys[k..][1..] == keys[k + 1..];
      assert !Get(fields, keys[k]).Array? ==> done + [] == done;
    }
  }

  lemma NoPropertySlots(fields: seq<Field>)
    requires !Get(fields, "properties").Object?
    ensures PropertySlots(fields) == []
  {
  }

  lemma TakeOneMore(before: seq<Slot>, slots: seq<Slot>, i: nat)
    requires i < |slots|
    ensures before + slots[..i] + [slots[i]] == before + slots[..i + 1]
  {
    assert slots[..i + 1] == slots[..i] + [slots[i]];
  }

  lemma ListSlotAt(schema: Json, key: string, i: nat)
    requires schema.Object? && Get(schema.fields, key).Array?
    ensures var list := Get(schema.fields, key).items;
      && |ListSlots(key, Get(schema.fields, key))| == |list|
      && (i < |list| ==>
            && ListSlots(key, Get(schema.fields, key))[i] == Slot([Key(key), Index(i)], list[i], None)
            && list[i] < schema)
  {
    ListSlotsAreBelow(schema, key);
    hide Get;
    if i < |Get(schema.fields, key).items| {
      assert ListSlots(key, Get(schema.fields, key))[i].child == Get(schema.fields, key).items[i];
    }
  }

  lemma PropertySlotAt(schema: Json, i: nat)
    requires schema.Object? && Get(schema.fields, "properties").Object?
    ensures var props := Get(schema.fields, "properties").fields;
      && |PropertySlots(schema.fields)| == |props|
      && (i < |props| ==>
            && PropertySlots(schema.fields)[i]
                 == Slot([Key("properties"), Key(props[i].key)], props[i].value, Some(props[i].key))
            && props[i].value < schema)
  {
    SlotsAreBelow(schema, []);
  }

  /** The loop over the properties. */
  method WalkProperties(schema: Json, path: string, ghost prop: Option<string>, keys: seq<string>,
      rows0: seq<Row>, ghost done0: seq<Slot>)
    returns (rows: seq<Row>, ghost done: seq<Slot>)
    requires schema.Object? && Get(schema.fields, "properties").Object?
    requires Walked(schema, path, prop, keys, rows0, done0)
    ensures done == done0 + PropertySlots(schema.fields)
    ensures Walked(schema, path, prop, keys, rows, done)
    decreases schema, 0
  {
    var props := Get(schema.fields, "properties").fields;
    PropertySlotAt(schema, 0);
    hide *;
    rows, done := rows0, done0;
    var i := 0;
    while i < |props|
      invariant 0 <= i <= |props|
      invariant done == done0 + PropertySlots(schema.fields)[..i]
      invariant Walked(schema, path, prop, keys, rows, done)
    {
      PropertySlotAt(schema, i);
      ghost var slot := PropertySlots(schema.fields)[i];
      TakeOneMore(done0, PropertySlots(schema.fields), i);
      var more := WalkSchemaNodes(props[i].value, path + ".properties." + props[i].key, Some(props[i].key), keys);
      ShownProperty(path, props[i].key);
      WalkedSnoc(schema, path, prop, keys, rows, done, slot);
      done := done + [slot];
      rows := rows + more;
      i := i + 1;
    }
  }

  /** `items` is one schema or a list of them. */
  method WalkItems(schema: Json, path: string, ghost prop: Option<string>, keys: seq<string>,
      rows0: seq<Row>, ghost done0: seq<Slot>)
    returns (rows: seq<Row>, ghost done: seq<Slot>)
    requires schema.Object?
    requires Walked(schema, path, prop, keys, rows0, done0)
    ensures done == done0 + ItemSlots(schema.fields)
    ensures Walked(schema, path, prop, keys, rows, done)
    decreases schema, 1
  {
    SlotsAreBelow(schema, keys);
    hide Walked, Walk, Shown;
    rows, done := rows0, done0;
    var items := Get(schema.fields, "items");
    if items.Object? {
      ghost var slot := Slot([Key("items")], items, None);
      assert ItemSlots(schema.fields) == [slot];
      assert ItemSlots(schema.fields)[0].child < schema;
      ShownItems(path);
      var more := WalkSchemaNodes(items, path + ".items", None, keys);
      WalkedSnoc(schema, path, prop, keys, rows, done, slot);
      done := done + [slot];
      rows := rows + more;
    } else if items.Array? {
      rows, done := WalkList(schema, "items", path, prop, keys, rows, done);
    }
  }

  /** `for i, it in enumerate(...)`: the loop over a list of sub-schemas. */
  method WalkList(schema: Json, key: string, path: string, ghost prop: Option<string>, keys: seq<string>,
      rows0: seq<Row>, ghost done0: seq<Slot>)
    returns (rows: seq<Row>, ghost done: seq<Slot>)
    requires schema.Object? && Get(schema.fields, key).Array?
    requires Walked(schema, path, prop, keys, rows0, done0)
    ensures done == done0 + ListSlots(key, Get(schema.fields, key))
    ensures Walked(schema, path, prop, keys, rows, done)
    decreases schema, 0
  {
    ListSlotAt(schema, key, 0);
    hide *;
    var list := Get(schema.fields, key).items;
    rows, done := rows0, done0;
    var i := 0;
    while i < |list|
      invariant 0 <= i <= |list|
      invariant done == done0 + ListSlots(key, Get(schema.fields, key))[..i]
      invariant Walked(schema, path, prop, keys, rows, done)
    {
      ListSlotAt(schema, key, i);
      ghost var slot := ListSlots(key, Get(schema.fields, key))[i];
      TakeOneMore(done0, ListSlots(key, Get(schema.fields, key)), i);
      var more := WalkSchemaNodes(list[i], path + "." + key + "[" + Text.Digits(i) + "]", None, keys);
      ShownListed(path, key, i);
      WalkedSnoc(schema, path, prop, keys, rows, done, slot);
      done := done + [slot];
      rows := rows + more;
      i := i + 1;
    }
  }

  lemma ShownSegments(key: string, name: string, i: nat)
    ensures Shown([Key(key)]) == "." + key
    ensures Shown([Key(key), Key(name)]) == "." + key + "." + name
    ensures Shown([Key(key), Index(i)]) == "." + key + "[" + Text.Digits(i) + "]"
  {
    ShownConcat([Key(key)], [Key(name)]);
    ShownConcat([Key(key)], [Index(i)]);
    assert [Key(key)] + [Key(name)] == [Key(key), Key(name)] && [Key(key)] + [Index(i)] == [Key(key), Index(i)];
    assert Shown([Index(i)]) == "[" + Text.Digits(i) + "]";
  }

  lemma ShownProperty(path: string, name: string)
    ensures path + Shown([Key("properties"), Key(name)]) == path + ".properties." + name
  {
    ShownSegments("properties", name, 0);
    assert "." + "properties" + "." == ".properties.";
    assert "." + "properties" + "." + name == ".properties." + name;
  }

  lemma ShownItems(path: string)
    ensures path + Shown([Key("items")]) == path + ".items"
  {
    ShownSegments("items", "", 0);
    assert "." + "items" == ".items";
  }

  lemma ShownListed(path: string, key: string, i: nat)
    ensures path + Shown([Key(key), Index(i)]) == path + "." + key + "[" + Text.Digits(i) + "]"
  {
    ShownSegments(key, "", i);
  }

  lemma {:induction false} ShownConcat(a: seq<Segment>, b: seq<Segment>)
    ensures Shown(a + b) == Shown(a) + Shown(b)
  {
    if a == [] {
      assert a + b == b;
    } else {
      assert (a + b)[1..] == a[1..] + b;
      ShownConcat(a[1..], b);
    }
  }

  lemma {:induction false} WalkSlotsConcat(j: Json, a: seq<Slot>, b: seq<Slot>, keys: seq<string>)
    requires Below(j, a) && Below(j, b)
    ensures WalkSlots(j, a + b, keys) == WalkSlots(j, a, keys) + WalkSlots(j, b, keys)
    decreases |a|
  {
    if a == [] {
      assert a + b == b;
    } else {
      assert (a + b)[1..] == a[1..] + b;
      WalkSlotsConcat(j, a[1..], b, keys);
    }
  }

  lemma RowsUnder(path: string, segments: seq<Segment>, nodes: seq<Node>)
    ensures Rows(path, Under(segments, nodes)) == Rows(path + Shown(segments), nodes)
  {
    forall i | 0 <= i < |nodes|
      ensures Shown(segments + nodes[i].path) == Shown(segments) + Shown(nodes[i].path)
    {
      ShownConcat(segments, nodes[i].path);
    }
    forall i | 0 <= i < |nodes|
      ensures path + Shown(segments + nodes[i].path) == path + Shown(segments) + Shown(nodes[i].path)
    {
    }
  }

  lemma WalkedStart(schema: Json, path: string, prop: Option<string>, keys: seq<string>)
    ensures Walked(schema, path, prop, keys, [Row(path, schema, prop)], [])
  {
    assert path + Shown([]) == path;
    assert [Node([], schema, prop)] + [] == [Node([], schema, prop)];
  }

  /** One turn of any of the loops. */
  lemma WalkedSnoc(schema: Json, path: string, prop: Option<string>, keys: seq<string>, rows: seq<Row>,
      done: seq<Slot>, slot: Slot)
    requires Walked(schema, path, prop, keys, rows, done) && slot.child < schema
    ensures Walked(schema, path, prop, keys,
      rows + Rows(path + Shown(slot.segments), Walk(slot.child, slot.prop, keys)), done + [slot])
  {
    hide Walk, Rows, Under;
    WalkSlotsConcat(schema, done, [slot], keys);
    var before, below := WalkSlots(schema, done, keys), Walk(slot.child, slot.prop, keys);
    OneSlot(schema, slot, keys);
    RowsUnder(path, slot.segments, below);
    RowsConcat(path, [Node([], schema, prop)] + before, Under(slot.segments, below));
    assert [Node([], schema, prop)] + before + Under(slot.segments, below)
        == [Node([], schema, prop)] + (before + Under(slot.segments, below));
  }

  lemma OneSlot(schema: Json, slot: Slot, keys: seq<string>)
    requires slot.child < schema
    ensures WalkSlots(schema, [slot], keys) == Under(slot.segments, Walk(slot.child, slot.prop, keys))
  {
    hide Walk;
    assert [slot][1..] == [];
    assert WalkSlots(schema, [], keys) == [];
  }

  lemma RowsConcat(path: string, a: seq<Node>, b: seq<Node>)
    ensures Rows(path, a + b) == Rows(path, a) + Rows(path, b)
  {
  }
}
