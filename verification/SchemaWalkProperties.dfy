/** What the schema walkers emit: every reachable sub-schema, once per path. */
module SchemaWalkProperties {
  import opened Wrappers
  import opened JsonValues
  import opened OpenApi
  import opened SchemaWalk
  import Text

  // ---------------------------------------------------------------- Python dictionaries

  /** A value as Python holds it: no dictionary has a key twice. */
  predicate IsPython(j: Json) {
    match j
    case Object(fields) => DistinctKeys(fields) && forall i :: 0 <= i < |fields| ==> IsPython(fields[i].value)
    case Array(items) => forall i :: 0 <= i < |items| ==> IsPython(items[i])
    case _ => true
  }

  predicate ProperKeys(keys: seq<string>) {
    && (forall a, b :: 0 <= a < b < |keys| ==> keys[a] != keys[b])
    && "properties" !in keys && "items" !in keys
  }

  lemma {:induction false} GetAt(fields: seq<Field>, i: nat)
    requires DistinctKeys(fields) && i < |fields|
    ensures Has(fields, fields[i].key) && Get(fields, fields[i].key) == fields[i].value
  {
    if i > 0 {
      GetAt(fields[1..], i - 1);
    }
  }

  lemma PartIsPython(j: Json, key: string)
    requires j.Object? && IsPython(j)
    ensures IsPython(Get(j.fields, key))
    ensures Child(j, Key(key)) == if Has(j.fields, key) then Some(Get(j.fields, key)) else None
  {
    GetIsBelow(j.fields, key);
  }

  // ---------------------------------------------------------------- what a sub-schema is

  /** One step from a schema to a sub-schema of it: a property, the `items` schema, or an entry of a
      list of `items` or of a combinator. */
  predicate SchemaStep(j: Json, step: seq<Segment>, keys: seq<string>) {
    && Follow(j, step).Some?
    && ((|step| == 2 && step[0] == Key("properties") && step[1].Key?)
        || (step == [Key("items")] && Follow(j, step).value.Object?)
        || (|step| == 2 && step[0].Key? && (step[0].name == "items" || step[0].name in keys) && step[1].Index?))
  }

  /** A path that leads from schema to sub-schema all the way, and ends at a dictionary. */
  predicate Reaches(j: Json, path: seq<Segment>, keys: seq<string>)
    decreases |path|
  {
    j.Object? && (path == [] || exists n :: 1 <= n <= |path| && ReachesBy(j, path, keys, n))
  }

  predicate ReachesBy(j: Json, path: seq<Segment>, keys: seq<string>, n: nat)
    requires 1 <= n <= |path|
    decreases |path|, 0
  {
    SchemaStep(j, path[..n], keys) && Reaches(Follow(j, path[..n]).value, path[n..], keys)
  }

  lemma FollowTwo(j: Json, a: Segment, b: Segment)
    ensures Follow(j, [a, b]) == match Child(j, a) case None => None case Some(c) => Child(c, b)
    ensures Follow(j, [a]) == Child(j, a)
  {
    assert [a, b][1..] == [b] && [b][1..] == [] && [a][1..] == [];
    match Child(j, a) {
      case None =>
      case Some(c) => assert Follow(c, [b]) == match Child(c, b) case None => None case Some(d) => Follow(d, []);
    }
  }

  /** Every slot is a step, and leads where the step leads. */
  lemma SlotIsStep(j: Json, keys: seq<string>, k: nat)
    requires j.Object? && IsPython(j) && k < |Slots(j.fields, keys)|
    ensures var s := Slots(j.fields, keys)[k];
      SchemaStep(j, s.segments, keys) && Follow(j, s.segments) == Some(s.child) && IsPython(s.child)
  {
    hide PropertySlots, ItemSlots, CombinatorSlots, Follow, IsPython;
    var p, i := PropertySlots(j.fields), ItemSlots(j.fields);
    if k < |p| {
      PropertySlotIsStep(j, keys, k);
    } else if k < |p| + |i| {
      ItemSlotIsStep(j, keys, k - |p|);
    } else {
      CombinatorSlotIsStep(j, keys, k - |p| - |i|);
    }
  }

  lemma PropertySlotIsStep(j: Json, keys: seq<string>, k: nat)
    requires j.Object? && IsPython(j) && k < |PropertySlots(j.fields)|
    ensures var s := PropertySlots(j.fields)[k];
      SchemaStep(j, s.segments, keys) && Follow(j, s.segments) == Some(s.child) && IsPython(s.child)
  {
    var s := PropertySlots(j.fields)[k];
    PartIsPython(j, "properties");
    GetIsBelow(j.fields, "properties");
    GetAt(Get(j.fields, "properties").fields, k);
    FollowTwo(j, s.segments[0], s.segments[1]);
  }

  lemma ItemSlotIsStep(j: Json, keys: seq<string>, k: nat)
    requires j.Object? && IsPython(j) && k < |ItemSlots(j.fields)|
    ensures var s := ItemSlots(j.fields)[k];
      SchemaStep(j, s.segments, keys) && Follow(j, s.segments) == Some(s.child) && IsPython(s.child)
  {
    PartIsPython(j, "items");
    GetIsBelow(j.fields, "items");
    if Get(j.fields, "items").Object? {
      FollowTwo(j, Key("items"), Key(""));
    } else {
      ListSlotIsStep(j, "items", k);
    }
  }

  lemma ListSlotIsStep(j: Json, key: string, k: nat)
    requires j.Object? && IsPython(j) && k < |ListSlots(key, Get(j.fields, key))|
    ensures var s := ListSlots(key, Get(j.fields, key))[k];
      s.segments == [Key(key), Index(k)] && Follow(j, s.segments) == Some(s.child) && IsPython(s.child)
  {
    PartIsPython(j, key);
    GetIsBelow(j.fields, key);
    FollowTwo(j, Key(key), Index(k));
  }

  lemma {:induction false} CombinatorSlotIsStep(j: Json, keys: seq<string>, k: nat)
    requires j.Object? && IsPython(j) && k < |CombinatorSlots(j.fields, keys)|
    ensures var s := CombinatorSlots(j.fields, keys)[k];
      && |s.segments| == 2 && s.segments[0].Key? && s.segments[0].name in keys && s.segments[1].Index?
      && Follow(j, s.segments) == Some(s.child) && IsPython(s.child)
  {
    var n := |ListSlots(keys[0], Get(j.fields, keys[0]))|;
    if k < n {
      ListSlotIsStep(j, keys[0], k);
    } else {
      CombinatorSlotIsStep(j, keys[1..], k - n);
    }
  }

  /** Every step is a slot. */
  lemma StepIsSlot(j: Json, step: seq<Segment>, keys: seq<string>) returns (k: nat)
    requires j.Object? && IsPython(j) && SchemaStep(j, step, keys)
    ensures k < |Slots(j.fields, keys)| && Slots(j.fields, keys)[k].segments == step
  {
    hide PropertySlots, ItemSlots, CombinatorSlots, Follow, IsPython, Get;
    var p, i := PropertySlots(j.fields), ItemSlots(j.fields);
    if |step| == 2 && step[1].Key? {
      k := PropertyStepIsSlot(j, step);
    } else if step[0].name == "items" {
      k := ItemStepIsSlot(j, step);
      k := |p| + k;
    } else {
      StepIsEntry(j, step);
      k := EntryIsSlot(j, step[0].name, step[1].position, keys);
      k := |p| + |i| + k;
    }
  }

  lemma PropertyStepIsSlot(j: Json, step: seq<Segment>) returns (k: nat)
    requires j.Object? && |step| == 2 && step[0] == Key("properties") && step[1].Key? && Follow(j, step).Some?
    ensures k < |PropertySlots(j.fields)| && PropertySlots(j.fields)[k].segments == step
  {
    assert step == [step[0], step[1]];
    FollowTwo(j, step[0], step[1]);
    var v := Get(j.fields, "properties");
    k :| 0 <= k < |v.fields| && v.fields[k].key == step[1].name;
  }

  lemma ItemStepIsSlot(j: Json, step: seq<Segment>) returns (k: nat)
    requires j.Object? && 1 <= |step| <= 2 && step[0] == Key("items") && Follow(j, step).Some?
    requires if |step| == 1 then Follow(j, step).value.Object? else step[1].Index?
    ensures k < |ItemSlots(j.fields)| && ItemSlots(j.fields)[k].segments == step
  {
    FollowTwo(j, step[0], Key(""));
    if |step| == 1 {
      assert step == [step[0]];
      k := 0;
    } else {
      assert step == [step[0], step[1]];
      FollowTwo(j, step[0], step[1]);
      k := step[1].position;
    }
  }

  lemma StepIsEntry(j: Json, step: seq<Segment>)
    requires j.Object? && |step| == 2 && step[0].Key? && step[1].Index? && Follow(j, step).Some?
    ensures Get(j.fields, step[0].name).Array? && step[1].position < |Get(j.fields, step[0].name).items|
    ensures step == [Key(step[0].name), Index(step[1].position)]
  {
    assert step == [step[0], step[1]];
    FollowTwo(j, step[0], step[1]);
  }

  lemma {:induction false} EntryIsSlot(j: Json, key: string, i: nat, keys: seq<string>) returns (k: nat)
    requires j.Object? && key in keys && Get(j.fields, key).Array? && i < |Get(j.fields, key).items|
    ensures k < |CombinatorSlots(j.fields, keys)| && CombinatorSlots(j.fields, keys)[k].segments == [Key(key), Index(i)]
  {
    if keys[0] == key {
      k := i;
    } else {
      k := EntryIsSlot(j, key, i, keys[1..]);
      k := k + |ListSlots(keys[0], Get(j.fields, keys[0]))|;
    }
  }

  // ---------------------------------------------------------------- members of the output

  lemma {:induction false} Locate(j: Json, slots: seq<Slot>, keys: seq<string>, i: nat) returns (k: nat, m: nat)
    requires Below(j, slots) && i < |WalkSlots(j, slots, keys)|
    ensures k < |slots| && m < |Walk(slots[k].child, slots[k].prop, keys)|
    ensures var n := Walk(slots[k].child, slots[k].prop, keys)[m];
      WalkSlots(j, slots, keys)[i] == Node(slots[k].segments + n.path, n.schema, n.prop)
    decreases |slots|
  {
    hide Walk;
    var here := Walk(slots[0].child, slots[0].prop, keys);
    if i < |here| {
      k, m := 0, i;
    } else {
      k, m := Locate(j, slots[1..], keys, i - |here|);
      k := k + 1;
    }
  }

  lemma {:induction false} Place(j: Json, slots: seq<Slot>, keys: seq<string>, k: nat, m: nat) returns (i: nat)
    requires Below(j, slots) && k < |slots| && m < |Walk(slots[k].child, slots[k].prop, keys)|
    ensures i < |WalkSlots(j, slots, keys)|
    ensures var n := Walk(slots[k].child, slots[k].prop, keys)[m];
      WalkSlots(j, slots, keys)[i] == Node(slots[k].segments + n.path, n.schema, n.prop)
    decreases |slots|
  {
    hide Walk;
    if k == 0 {
      i := m;
    } else {
      i := Place(j, slots[1..], keys, k - 1, m);
      i := i + |Walk(slots[0].child, slots[0].prop, keys)|;
    }
  }

  lemma WalkUnfold(j: Json, prop: Option<string>, keys: seq<string>)
    requires j.Object?
    ensures Below(j, Slots(j.fields, keys))
    ensures Walk(j, prop, keys) == [Node([], j, prop)] + WalkSlots(j, Slots(j.fields, keys), keys)
  {
    SlotsAreBelow(j, keys);
  }

  /** Following an emitted path from the root yields the emitted node, which is a dictionary. */
  lemma {:induction false} EmittedPathsLeadToTheirNodes(j: Json, prop: Option<string>, keys: seq<string>, i: nat)
    requires IsPython(j) && i < |Walk(j, prop, keys)|
    ensures var n := Walk(j, prop, keys)[i];
      Follow(j, n.path) == Some(n.schema) && n.schema.Object? && Reaches(j, n.path, keys)
    decreases j
  {
    WalkedIsObject(j, prop, keys);
    WalkUnfold(j, prop, keys);
    hide Walk, WalkSlots, Slots, SchemaStep, IsPython;
    if i > 0 {
      var slots := Slots(j.fields, keys);
      var k, m := Locate(j, slots, keys, i - 1);
      hide Follow;
      var s, n := slots[k], Walk(slots[k].child, slots[k].prop, keys)[m];
      SlotIsStep(j, keys, k);
      EmittedPathsLeadToTheirNodes(s.child, s.prop, keys, m);
      FollowConcat(j, s.segments, n.path);
      var path := s.segments + n.path;
      assert path[..|s.segments|] == s.segments && path[|s.segments|..] == n.path;
      StepIsNotEmpty(j, s.segments, keys);
      assert ReachesBy(j, path, keys, |s.segments|);
    }
  }

  lemma StepIsNotEmpty(j: Json, step: seq<Segment>, keys: seq<string>)
    requires SchemaStep(j, step, keys)
    ensures step != []
  {
  }

  /** The first step of a path is a slot, and the rest of the path continues from it. */
  lemma FirstSlot(j: Json, keys: seq<string>, path: seq<Segment>) returns (n: nat, k: nat)
    requires IsPython(j) && Reaches(j, path, keys) && path != []
    ensures 1 <= n <= |path| && k < |Slots(j.fields, keys)|
    ensures var s := Slots(j.fields, keys)[k];
      s.segments == path[..n] && IsPython(s.child) && Reaches(s.child, path[n..], keys)
  {
    hide SchemaStep, Slots, IsPython, Follow;
    n :| 1 <= n <= |path| && ReachesBy(j, path, keys, n);
    k := StepIsSlot(j, path[..n], keys);
    SlotIsStep(j, keys, k);
  }

  /** What a slot's child emits is emitted below that slot. */
  lemma EmittedBelow(j: Json, prop: Option<string>, keys: seq<string>, k: nat, m: nat) returns (i: nat)
    requires j.Object? && k < |Slots(j.fields, keys)|
    requires var s := Slots(j.fields, keys)[k]; m < |Walk(s.child, s.prop, keys)|
    ensures var s := Slots(j.fields, keys)[k];
      i < |Walk(j, prop, keys)| && Walk(j, prop, keys)[i].path == s.segments + Walk(s.child, s.prop, keys)[m].path
  {
    hide *;
    WalkUnfold(j, prop, keys);
    var at := Place(j, Slots(j.fields, keys), keys, k, m);
    AfterFirst(Node([], j, prop), WalkSlots(j, Slots(j.fields, keys), keys), at);
    i := at + 1;
  }

  lemma AfterFirst(first: Node, rest: seq<Node>, i: nat)
    requires i < |rest|
    ensures i + 1 < |[first] + rest| && ([first] + rest)[i + 1] == rest[i]
  {
  }

  lemma Rejoined(path: seq<Segment>, n: nat)
    requires n <= |path|
    ensures path[..n] + path[n..] == path
  {
  }

  lemma RootIsEmitted(j: Json, prop: Option<string>, keys: seq<string>)
    requires j.Object?
    ensures |Walk(j, prop, keys)| > 0 && Walk(j, prop, keys)[0].path == []
  {
    WalkUnfold(j, prop, keys);
    hide *;
  }

  /** What the second walker reports beside a node: the property name where the last step of the path
      is a property, and none where it is an item or a combinator entry. */
  predicate NamedAfterLastStep(n: Node) {
    n.path != [] &&
    match n.prop
    case Some(k) => |n.path| >= 2 && n.path[|n.path| - 2] == Key("properties") && n.path[|n.path| - 1] == Key(k)
    case None => n.path[|n.path| - 1].Index? || n.path[|n.path| - 1] == Key("items")
  }

  lemma {:induction false} CombinatorSlotNames(fields: seq<Field>, keys: seq<string>)
    ensures forall s :: s in CombinatorSlots(fields, keys) ==> NamedAfterLastStep(Node(s.segments, s.child, s.prop))
  {
    if keys != [] {
      CombinatorSlotNames(fields, keys[1..]);
    }
  }

  lemma SlotNames(j: Json, keys: seq<string>, k: nat)
    requires j.Object? && k < |Slots(j.fields, keys)|
    ensures var s := Slots(j.fields, keys)[k]; NamedAfterLastStep(Node(s.segments, s.child, s.prop))
  {
    CombinatorSlotNames(j.fields, keys);
    var p, i := PropertySlots(j.fields), ItemSlots(j.fields);
    if k >= |p| + |i| {
      assert Slots(j.fields, keys)[k] in CombinatorSlots(j.fields, keys);
    }
  }

  lemma WalkedIsObject(j: Json, prop: Option<string>, keys: seq<string>)
    requires |Walk(j, prop, keys)| > 0
    ensures j.Object?
  {
  }

  lemma {:induction false} NodesAreNamedAfterTheirLastStep(j: Json, prop: Option<string>, keys: seq<string>, i: nat)
    requires i < |Walk(j, prop, keys)|
    ensures var n := Walk(j, prop, keys)[i];
      if i == 0 then n == Node([], j, prop) else NamedAfterLastStep(n)
    decreases j
  {
    hide *;
    WalkedIsObject(j, prop, keys);
    WalkUnfold(j, prop, keys);
    if i > 0 {
      var slots := Slots(j.fields, keys);
      var k, m := Locate(j, slots, keys, i - 1);
      AfterFirst(Node([], j, prop), WalkSlots(j, slots, keys), i - 1);
      SlotNames(j, keys, k);
      NodesAreNamedAfterTheirLastStep(slots[k].child, slots[k].prop, keys, m);
      NameBelow(slots[k], Walk(slots[k].child, slots[k].prop, keys)[m], m == 0);
    }
  }

  lemma NameBelow(s: Slot, n: Node, atTop: bool)
    requires NamedAfterLastStep(Node(s.segments, s.child, s.prop))
    requires if atTop then n == Node([], s.child, s.prop) else NamedAfterLastStep(n)
    ensures NamedAfterLastStep(Node(s.segments + n.path, n.schema, n.prop))
  {
    var path := s.segments + n.path;
    if atTop {
      assert path == s.segments;
    } else {
      assert path[|path| - 1] == n.path[|n.path| - 1];
      assert |n.path| >= 2 ==> path[|path| - 2] == n.path[|n.path| - 2];
    }
  }

  lemma {:induction false} ReachedPathsAreEmitted(j: Json, prop: Option<string>, keys: seq<string>, path: seq<Segment>)
    returns (i: nat)
    requires IsPython(j) && Reaches(j, path, keys)
    ensures i < |Walk(j, prop, keys)| && Walk(j, prop, keys)[i].path == path
    decreases |path|
  {
    assert j.Object?;
    hide *;
    if path == [] {
      RootIsEmitted(j, prop, keys);
      i := 0;
    } else {
      var n, k := FirstSlot(j, keys, path);
      var s := Slots(j.fields, keys)[k];
      var m := ReachedPathsAreEmitted(s.child, s.prop, keys, path[n..]);
      i := EmittedBelow(j, prop, keys, k, m);
      Rejoined(path, n);
    }
  }

  /** Complete and sound: a path is emitted exactly when it leads from sub-schema to sub-schema to a
      dictionary. */
  lemma EmittedIffReached(j: Json, prop: Option<string>, keys: seq<string>, path: seq<Segment>)
    requires IsPython(j)
    ensures (exists i :: 0 <= i < |Walk(j, prop, keys)| && Walk(j, prop, keys)[i].path == path)
       <==> Reaches(j, path, keys)
  {
    if i :| 0 <= i < |Walk(j, prop, keys)| && Walk(j, prop, keys)[i].path == path {
      EmittedPathsLeadToTheirNodes(j, prop, keys, i);
    }
    if Reaches(j, path, keys) {
      var i := ReachedPathsAreEmitted(j, prop, keys, path);
    }
  }

  // ---------------------------------------------------------------- once per path

  /** Neither is a prefix of the other. */
  predicate Apart(p: seq<Segment>, q: seq<Segment>) {
    exists d :: 0 <= d < |p| && d < |q| && p[d] != q[d]
  }

  predicate AllApart(slots: seq<Slot>) {
    forall a, b :: 0 <= a < b < |slots| ==> Apart(slots[a].segments, slots[b].segments)
  }

  lemma ApartConcat(x: seq<Slot>, y: seq<Slot>)
    requires AllApart(x) && AllApart(y)
    requires forall a, b :: 0 <= a < |x| && 0 <= b < |y| ==>
      |x[a].segments| > 0 && |y[b].segments| > 0 && x[a].segments[0] != y[b].segments[0]
    ensures AllApart(x + y)
  {
  }

  lemma ListSlotsApart(key: string, v: Json)
    ensures AllApart(ListSlots(key, v))
    ensures forall s :: s in ListSlots(key, v) ==> |s.segments| == 2 && s.segments[0] == Key(key)
  {
    var here := ListSlots(key, v);
    forall a, b | 0 <= a < b < |here|
      ensures Apart(here[a].segments, here[b].segments)
    {
      assert here[a].segments[1] != here[b].segments[1];
    }
  }

  lemma {:induction false} CombinatorSlotsApart(fields: seq<Field>, keys: seq<string>)
    requires forall a, b :: 0 <= a < b < |keys| ==> keys[a] != keys[b]
    ensures AllApart(CombinatorSlots(fields, keys))
    ensures forall s :: s in CombinatorSlots(fields, keys) ==>
      |s.segments| == 2 && s.segments[0].Key? && s.segments[0].name in keys
  {
    if keys != [] {
      CombinatorSlotsApart(fields, keys[1..]);
      ListSlotsApart(keys[0], Get(fields, keys[0]));
      assert keys[0] !in keys[1..];
      hide AllApart, ListSlots, Get;
      ApartConcat(ListSlots(keys[0], Get(fields, keys[0])), CombinatorSlots(fields, keys[1..]));
    }
  }

  lemma OwnSlotsApart(j: Json)
    requires j.Object? && IsPython(j)
    ensures AllApart(PropertySlots(j.fields)) && AllApart(ItemSlots(j.fields))
    ensures forall s :: s in PropertySlots(j.fields) ==> |s.segments| == 2 && s.segments[0] == Key("properties")
    ensures forall s :: s in ItemSlots(j.fields) ==> |s.segments| > 0 && s.segments[0] == Key("items")
  {
    PartIsPython(j, "properties");
    var p, i := PropertySlots(j.fields), ItemSlots(j.fields);
    forall a, b | 0 <= a < b < |p|
      ensures Apart(p[a].segments, p[b].segments)
    {
      assert p[a].segments[1] != p[b].segments[1];
    }
    forall a, b | 0 <= a < b < |i|
      ensures Apart(i[a].segments, i[b].segments)
    {
      assert i[a].segments[1] != i[b].segments[1];
    }
  }

  lemma SlotsApart(j: Json, keys: seq<string>)
    requires j.Object? && IsPython(j) && ProperKeys(keys)
    ensures AllApart(Slots(j.fields, keys))
  {
    OwnSlotsApart(j);
    CombinatorSlotsApart(j.fields, keys);
    assert "properties"[0] != "items"[0];
    hide PropertySlots, ItemSlots, CombinatorSlots, AllApart;
    ApartConcat(PropertySlots(j.fields), ItemSlots(j.fields));
    ApartConcat(PropertySlots(j.fields) + ItemSlots(j.fields), CombinatorSlots(j.fields, keys));
  }

  predicate Once(nodes: seq<Node>) {
    forall a, b :: 0 <= a < b < |nodes| ==> nodes[a].path != nodes[b].path
  }

  lemma PrefixesDiffer(p: seq<Segment>, x: seq<Segment>, q: seq<Segment>, y: seq<Segment>)
    requires Apart(p, q) || (p == q && x != y)
    ensures p + x != q + y
  {
    if p == q {
      assert (p + x)[|p|..] == x && (q + y)[|p|..] == y;
    } else {
      var d :| 0 <= d < |p| && d < |q| && p[d] != q[d];
      assert (p + x)[d] == p[d] && (q + y)[d] == q[d];
    }
  }

  lemma OnceUnder(segments: seq<Segment>, nodes: seq<Node>)
    requires Once(nodes)
    ensures Once(Under(segments, nodes))
  {
    forall a, b | 0 <= a < b < |nodes|
      ensures segments + nodes[a].path != segments + nodes[b].path
    {
      PrefixesDiffer(segments, nodes[a].path, segments, nodes[b].path);
    }
  }

  lemma OnceConcat(x: seq<Node>, y: seq<Node>)
    requires Once(x) && Once(y)
    requires forall a, b :: 0 <= a < |x| && 0 <= b < |y| ==> x[a].path != y[b].path
    ensures Once(x + y)
  {
  }

  lemma {:induction false} WalkSlotsOnce(j: Json, slots: seq<Slot>, keys: seq<string>)
    requires Below(j, slots) && AllApart(slots) && ProperKeys(keys)
    requires forall k :: 0 <= k < |slots| ==> IsPython(slots[k].child)
    ensures Once(WalkSlots(j, slots, keys))
    decreases j, 0, |slots|
  {
    if slots != [] {
      var s, rest := slots[0], slots[1..];
      NoPathTwice(s.child, s.prop, keys);
      WalkSlotsOnce(j, rest, keys);
      hide Walk, Once;
      var here, there := Walk(s.child, s.prop, keys), WalkSlots(j, rest, keys);
      OnceUnder(s.segments, here);
      forall a, b | 0 <= a < |here| && 0 <= b < |there|
        ensures s.segments + here[a].path != there[b].path
      {
        var k, m := Locate(j, rest, keys, b);
        assert rest[k] == slots[k + 1];
        PrefixesDiffer(s.segments, here[a].path, rest[k].segments, Walk(rest[k].child, rest[k].prop, keys)[m].path);
      }
      OnceConcat(Under(s.segments, here), there);
    }
  }

  /** No path is emitted twice. */
  lemma {:induction false} NoPathTwice(j: Json, prop: Option<string>, keys: seq<string>)
    requires IsPython(j) && ProperKeys(keys)
    ensures Once(Walk(j, prop, keys))
    decreases j, 1, 0
  {
    if j.Object? {
      var slots := Slots(j.fields, keys);
      WalkUnfold(j, prop, keys);
      forall k | 0 <= k < |slots|
        ensures IsPython(slots[k].child) && slots[k].segments != []
      {
        SlotIsStep(j, keys, k);
      }
      SlotsApart(j, keys);
      WalkSlotsOnce(j, slots, keys);
      hide Walk;
      forall i | 0 <= i < |WalkSlots(j, slots, keys)|
        ensures WalkSlots(j, slots, keys)[i].path != []
      {
        var k, m := Locate(j, slots, keys, i);
      }
    }
  }

  /** Both walkers meet the conditions on the keys. */
  lemma WalkersHaveProperKeys()
    ensures ProperKeys(COMBINATORS) && ProperKeys([])
  {
    assert "oneOf"[0] != "anyOf"[0] && "oneOf"[0] != "allOf"[0] && "anyOf"[1] != "allOf"[1];
    assert |"properties"| != 5 && "items"[0] == 'i';
  }

  /** So neither walker emits a path twice. */
  lemma WalkersEmitNoPathTwice(j: Json, prop: Option<string>)
    requires IsPython(j)
    ensures Once(Walk(j, prop, COMBINATORS)) && Once(Walk(j, prop, []))
  {
    WalkersHaveProperKeys();
    NoPathTwice(j, prop, COMBINATORS);
    NoPathTwice(j, prop, []);
  }

  // ---------------------------------------------------------------- the two walkers compared

  predicate Subsequence(a: seq<Node>, b: seq<Node>)
    decreases |b|
  {
    a == [] || (b != [] && ((a[0] == b[0] && Subsequence(a[1..], b[1..])) || Subsequence(a, b[1..])))
  }

  lemma {:induction false} SubsequenceConcat(a: seq<Node>, b: seq<Node>, c: seq<Node>, d: seq<Node>)
    requires Subsequence(a, b) && Subsequence(c, d)
    ensures Subsequence(a + c, b + d)
    decreases |b| + |d|
  {
    if b == [] {
      assert a + c == c && b + d == d;
    } else if a != [] && a[0] == b[0] && Subsequence(a[1..], b[1..]) {
      SubsequenceConcat(a[1..], b[1..], c, d);
      assert (a + c)[1..] == a[1..] + c && (b + d)[1..] == b[1..] + d;
    } else {
      SubsequenceConcat(a, b[1..], c, d);
      assert (b + d)[1..] == b[1..] + d;
      if a + c == [] {
      } else {
        assert Subsequence(a + c, (b + d)[1..]);
      }
    }
  }

  lemma {:induction false} SubsequenceUnder(segments: seq<Segment>, a: seq<Node>, b: seq<Node>)
    requires Subsequence(a, b)
    ensures Subsequence(Under(segments, a), Under(segments, b))
    decreases |b|
  {
    if a != [] {
      assert Under(segments, a)[1..] == Under(segments, a[1..]) && Under(segments, b)[1..] == Under(segments, b[1..]);
      if a[0] == b[0] && Subsequence(a[1..], b[1..]) {
        SubsequenceUnder(segments, a[1..], b[1..]);
      } else {
        SubsequenceUnder(segments, a, b[1..]);
      }
    }
  }

  /** No list of alternatives at this node holds a dictionary. */
  predicate NoAlternatives(n: Node, keys: seq<string>) {
    n.schema.Object? ==> forall k :: 0 <= k < |CombinatorSlots(n.schema.fields, keys)| ==>
      !CombinatorSlots(n.schema.fields, keys)[k].child.Object?
  }

  predicate AllPlain(nodes: seq<Node>, keys: seq<string>) {
    forall i :: 0 <= i < |nodes| ==> NoAlternatives(nodes[i], keys)
  }

  /** `a` is what the walker without combinators emits where the other emits `b`. */
  ghost predicate Compared(a: seq<Node>, b: seq<Node>, keys: seq<string>) {
    && Subsequence(a, b) && |a| <= |b|
    && (AllPlain(a, keys) ==> a == b)
    && (!AllPlain(a, keys) ==> |a| < |b|)
  }

  lemma ComparedConcat(a: seq<Node>, b: seq<Node>, c: seq<Node>, d: seq<Node>, keys: seq<string>)
    requires Compared(a, b, keys) && Compared(c, d, keys)
    ensures Compared(a + c, b + d, keys)
  {
    hide NoAlternatives, Subsequence;
    SubsequenceConcat(a, b, c, d);
    assert AllPlain(a, keys) && AllPlain(c, keys) ==> AllPlain(a + c, keys);
    if AllPlain(a + c, keys) {
      assert forall i :: 0 <= i < |a| ==> (a + c)[i] == a[i];
      assert forall i :: 0 <= i < |c| ==> (a + c)[|a| + i] == c[i];
    }
  }

  lemma ComparedUnder(segments: seq<Segment>, a: seq<Node>, b: seq<Node>, keys: seq<string>)
    requires Compared(a, b, keys)
    ensures Compared(Under(segments, a), Under(segments, b), keys)
  {
    SubsequenceUnder(segments, a, b);
    hide Subsequence, CombinatorSlots;
    var u := Under(segments, a);
    assert forall i :: 0 <= i < |a| ==> NoAlternatives(u[i], keys) == NoAlternatives(a[i], keys);
    assert AllPlain(u, keys) <==> AllPlain(a, keys);
  }

  lemma {:induction false} SlotsCompared(j: Json, slots: seq<Slot>, keys: seq<string>)
    requires Below(j, slots)
    ensures Compared(WalkSlots(j, slots, []), WalkSlots(j, slots, keys), keys)
    decreases j, 0, |slots|
  {
    if slots != [] {
      var s := slots[0];
      WalksCompared(s.child, s.prop, keys);
      SlotsCompared(j, slots[1..], keys);
      hide Walk, Compared;
      ComparedUnder(s.segments, Walk(s.child, s.prop, []), Walk(s.child, s.prop, keys), keys);
      ComparedConcat(Under(s.segments, Walk(s.child, s.prop, [])), Under(s.segments, Walk(s.child, s.prop, keys)),
        WalkSlots(j, slots[1..], []), WalkSlots(j, slots[1..], keys), keys);
    }
  }

  lemma {:induction false} NothingBelow(j: Json, slots: seq<Slot>, keys: seq<string>)
    requires Below(j, slots)
    ensures WalkSlots(j, slots, keys) == [] <==> forall k :: 0 <= k < |slots| ==> !slots[k].child.Object?
    decreases |slots|
  {
    if slots != [] {
      NothingBelow(j, slots[1..], keys);
      var s := slots[0];
      assert Walk(s.child, s.prop, keys) == [] <==> !s.child.Object?;
      hide Walk;
      if s.child.Object? {
        assert WalkSlots(j, slots, keys) != [];
      } else {
        assert Under(s.segments, []) == [];
      }
    }
  }

  lemma {:induction false} WalksCompared(j: Json, prop: Option<string>, keys: seq<string>)
    ensures Compared(Walk(j, prop, []), Walk(j, prop, keys), keys)
    decreases j, 1, 0
  {
    if j.Object? {
      var own := PropertySlots(j.fields) + ItemSlots(j.fields);
      OwnSlots(j, keys);
      SlotsCompared(j, own, keys);
      WalkParts(j, prop, keys);
      hide *;
      NodeCompared(j, prop, keys, WalkSlots(j, own, []), WalkSlots(j, own, keys),
        WalkSlots(j, CombinatorSlots(j.fields, keys), keys));
    }
  }

  lemma WalkParts(j: Json, prop: Option<string>, keys: seq<string>)
    requires j.Object?
    ensures var own, c := PropertySlots(j.fields) + ItemSlots(j.fields), CombinatorSlots(j.fields, keys);
      && Below(j, own) && Below(j, c)
      && Walk(j, prop, []) == [Node([], j, prop)] + WalkSlots(j, own, [])
      && Walk(j, prop, keys) == [Node([], j, prop)] + WalkSlots(j, own, keys) + WalkSlots(j, c, keys)
      && (WalkSlots(j, c, keys) == [] <==> NoAlternatives(Node([], j, prop), keys))
  {
    hide *;
    OwnSlots(j, keys);
    var n, own, c :=
      [Node([], j, prop)], PropertySlots(j.fields) + ItemSlots(j.fields), CombinatorSlots(j.fields, keys);
    WalkUnfold(j, prop, keys);
    WalkUnfold(j, prop, []);
    PlainMeansNothingBelow(j, prop, keys);
    WalkSlotsConcat(j, own, c, keys);
    ConcatAssoc(n, WalkSlots(j, own, keys), WalkSlots(j, c, keys));
  }

  lemma ConcatAssoc(x: seq<Node>, y: seq<Node>, z: seq<Node>)
    ensures x + (y + z) == x + y + z
  {
  }

  lemma PlainMeansNothingBelow(j: Json, prop: Option<string>, keys: seq<string>)
    requires j.Object? && Below(j, CombinatorSlots(j.fields, keys))
    ensures WalkSlots(j, CombinatorSlots(j.fields, keys), keys) == [] <==> NoAlternatives(Node([], j, prop), keys)
  {
    NothingBelow(j, CombinatorSlots(j.fields, keys), keys);
    hide WalkSlots, CombinatorSlots, Walk, Below;
  }

  lemma OwnSlots(j: Json, keys: seq<string>)
    requires j.Object?
    ensures var own := PropertySlots(j.fields) + ItemSlots(j.fields);
      && Slots(j.fields, []) == own && Slots(j.fields, keys) == own + CombinatorSlots(j.fields, keys)
      && Below(j, own) && Below(j, CombinatorSlots(j.fields, keys))
  {
    SlotsAreBelow(j, keys);
    SlotsAreBelow(j, []);
  }

  lemma NodeCompared(j: Json, prop: Option<string>, keys: seq<string>, a: seq<Node>, b: seq<Node>, extra: seq<Node>)
    requires j.Object? && Compared(a, b, keys)
    requires extra == [] <==> NoAlternatives(Node([], j, prop), keys)
    ensures Compared([Node([], j, prop)] + a, [Node([], j, prop)] + b + extra, keys)
  {
    var n := [Node([], j, prop)];
    hide NoAlternatives;
    assert n[1..] == [] && Subsequence(n[1..], n[1..]) && Subsequence(n, n);
    SubsequenceConcat(n, n, a, b);
    assert Subsequence([], extra);
    SubsequenceConcat(n + a, n + b, [], extra);
    assert n + a + [] == n + a;
    hide Subsequence;
    assert (n + a)[0] == n[0] && forall i :: 0 <= i < |a| ==> (n + a)[i + 1] == a[i];
    assert AllPlain(n + a, keys) <==> NoAlternatives(n[0], keys) && AllPlain(a, keys);
    assert extra == [] ==> n + b + extra == n + b;
  }

  /** `walk_schema` emits a subsequence of what `walk_schema_nodes` emits, and the same sequence
      exactly when no schema it emits has a dictionary among its oneOf, anyOf or allOf entries. */
  lemma WalkSchemaIsASubsequence(j: Json, prop: Option<string>)
    ensures Subsequence(Walk(j, prop, []), Walk(j, prop, COMBINATORS))
    ensures Walk(j, prop, []) == Walk(j, prop, COMBINATORS) <==> AllPlain(Walk(j, prop, []), COMBINATORS)
  {
    WalksCompared(j, prop, COMBINATORS);
  }

  // ---------------------------------------------------------------- paths as printed

  predicate IsMark(ch: char) {
    ch == '.' || ch == '['
  }

  predicate CleanPath(path: seq<Segment>) {
    forall i :: 0 <= i < |path| && path[i].Key? ==> forall ch :: ch in path[i].name ==> !IsMark(ch)
  }

  lemma ShownStartsWithMark(path: seq<Segment>)
    ensures Shown(path) == "" || IsMark(Shown(path)[0])
    ensures Shown(path) == "" <==> path == []
    ensures path != [] ==> (Shown(path)[0] == '.' <==> path[0].Key?)
  {
  }

  lemma DropFirst(c: char, a: string, r: string)
    ensures ([c] + a + r)[1..] == a + r
  {
  }

  lemma Assoc(a: string, b: string, c: string)
    ensures a + b + c == a + (b + c)
  {
  }

  lemma ShownHead(p: seq<Segment>)
    requires p != []
    ensures p[0].Key? ==> Shown(p) == ['.'] + p[0].name + Shown(p[1..])
    ensures p[0].Index? ==> Shown(p) == "[" + Text.Digits(p[0].position) + "]" + Shown(p[1..])
  {
    hide Text.Digits;
  }

  lemma ShownTail(p: seq<Segment>)
    requires p != []
    ensures Shown(p) != ""
    ensures p[0].Key? ==> Shown(p)[1..] == p[0].name + Shown(p[1..])
    ensures p[0].Index? ==> Shown(p)[1..] == Text.Digits(p[0].position) + ("]" + Shown(p[1..]))
  {
    hide *;
    ShownHead(p);
    var rest := Shown(p[1..]);
    if p[0].Key? {
      DropFirst('.', p[0].name, rest);
    } else {
      var d := Text.Digits(p[0].position);
      Assoc("[", d, "]");
      DropFirst('[', d + "]", rest);
      Assoc(d, "]", rest);
    }
  }

  lemma SameKey(p: seq<Segment>, q: seq<Segment>)
    requires p != [] && q != [] && p[0].Key? && q[0].Key? && CleanPath(p) && CleanPath(q)
    requires Shown(p) == Shown(q)
    ensures p[0] == q[0] && Shown(p[1..]) == Shown(q[1..])
  {
    ShownStartsWithMark(p[1..]);
    ShownStartsWithMark(q[1..]);
    assert (forall ch :: ch in p[0].name ==> !IsMark(ch)) && (forall ch :: ch in q[0].name ==> !IsMark(ch));
    hide *;
    ShownTail(p);
    ShownTail(q);
    Text.CutUnique(IsMark, p[0].name, Shown(p[1..]), q[0].name, Shown(q[1..]));
  }

  lemma SameIndex(p: seq<Segment>, q: seq<Segment>)
    requires p != [] && q != [] && p[0].Index? && q[0].Index?
    requires Shown(p) == Shown(q)
    ensures p[0] == q[0] && Shown(p[1..]) == Shown(q[1..])
  {
    hide Text.Digits, Shown;
    var dp, dq, rp, rq := Text.Digits(p[0].position), Text.Digits(q[0].position), Shown(p[1..]), Shown(q[1..]);
    ShownTail(p);
    ShownTail(q);
    Text.CutUnique(ch => ch == ']', dp, "]" + rp, dq, "]" + rq);
    assert rp == ("]" + rp)[1..] == ("]" + rq)[1..] == rq;
    Text.DigitsInjective(p[0].position, q[0].position);
  }

  /** Printed paths tell nodes apart as long as no key contains a dot or an opening bracket. */
  lemma {:induction false} CleanPathsPrintApart(p: seq<Segment>, q: seq<Segment>)
    requires CleanPath(p) && CleanPath(q) && Shown(p) == Shown(q)
    ensures p == q
  {
    ShownStartsWithMark(p);
    ShownStartsWithMark(q);
    if p != [] && q != [] {
      if p[0].Key? {
        SameKey(p, q);
      } else {
        SameIndex(p, q);
      }
      CleanPathsPrintApart(p[1..], q[1..]);
      assert p == [p[0]] + p[1..] && q == [q[0]] + q[1..];
    }
  }

  lemma DottedPathsPrintAlike()
    ensures Shown([Key("properties"), Key("a.items")]) == Shown([Key("properties"), Key("a")] + [Key("items")])
  {
    ShownConcat([Key("properties"), Key("a")], [Key("items")]);
    ShownSegments("properties", "a.items", 0);
    ShownSegments("properties", "a", 0);
    ShownSegments("items", "", 0);
    assert "a.items" == "a" + "." + "items";
  }

  lemma OnlyField(key: string, v: Json)
    ensures Child(Object([Field(key, v)]), Key(key)) == Some(v)
  {
    GetAt([Field(key, v)], 0);
  }

  lemma PropertyStep(j: Json, name: string)
    requires j.Object? && Follow(j, [Key("properties"), Key(name)]).Some?
    ensures SchemaStep(j, [Key("properties"), Key(name)], [])
  {
  }

  lemma PropertyFound(props: seq<Field>, i: nat)
    requires DistinctKeys(props) && i < |props|
    ensures Follow(Object([Field("properties", Object(props))]), [Key("properties"), Key(props[i].key)])
      == Some(props[i].value)
  {
    OnlyField("properties", Object(props));
    GetAt(props, i);
    FollowTwo(Object([Field("properties", Object(props))]), Key("properties"), Key(props[i].key));
  }

  lemma ReachesProperty(j: Json, name: string, rest: seq<Segment>)
    requires j.Object? && Follow(j, [Key("properties"), Key(name)]).Some?
    requires Reaches(Follow(j, [Key("properties"), Key(name)]).value, rest, [])
    ensures Reaches(j, [Key("properties"), Key(name)] + rest, [])
  {
    PropertyStep(j, name);
    var step := [Key("properties"), Key(name)];
    var path := step + rest;
    assert path[..2] == step && path[2..] == rest;
    assert ReachesBy(j, path, [], 2);
  }

  lemma ReachesItems(y: Json)
    requires y.Object?
    ensures Reaches(Object([Field("items", y)]), [Key("items")], [])
    ensures Follow(Object([Field("items", y)]), [Key("items")]) == Some(y)
  {
    var j, path := Object([Field("items", y)]), [Key("items")];
    OnlyField("items", y);
    FollowTwo(j, Key("items"), Key(""));
    assert path[..1] == path && path[1..] == [];
    assert ReachesBy(j, path, [], 1);
  }

  /** A property called "a.items" prints like the items of a property called "a". */
  lemma DottedKeyPrintsLikeAPath(x: Json, y: Json)
    requires x.Object? && y.Object?
    ensures var j :=
      Object([Field("properties", Object([Field("a.items", x), Field("a", Object([Field("items", y)]))]))]);
      var p, q := [Key("properties"), Key("a.items")], [Key("properties"), Key("a")] + [Key("items")];
      && Reaches(j, p, []) && Follow(j, p) == Some(x)
      && Reaches(j, q, []) && Follow(j, q) == Some(y)
      && p != q && Shown(p) == Shown(q)
  {
    hide Shown, Reaches, Follow;
    var props := [Field("a.items", x), Field("a", Object([Field("items", y)]))];
    assert |"a.items"| != |"a"|;
    assert DistinctKeys(props);
    PropertyFound(props, 0);
    PropertyFound(props, 1);
    var j := Object([Field("properties", Object(props))]);
    ReachesItems(y);
    ReachesNothing(x);
    ReachesProperty(j, "a.items", []);
    ReachesProperty(j, "a", [Key("items")]);
    FollowConcat(j, [Key("properties"), Key("a")], [Key("items")]);
    assert [Key("properties"), Key("a.items")] + [] == [Key("properties"), Key("a.items")];
    assert |[Key("properties"), Key("a.items")]| == 2 && |[Key("properties"), Key("a")] + [Key("items")]| == 3;
    DottedPathsPrintAlike();
  }

  lemma ReachesNothing(x: Json)
    requires x.Object?
    ensures Reaches(x, [], [])
  {
  }
}
