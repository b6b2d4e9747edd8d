/** The order in which `walk_schema_nodes` emits: every schema before what is below it, its properties
    before its items, these before the entries of oneOf, anyOf and allOf, and each list from its front. */
module SchemaWalkOrder {
  import opened Wrappers
  import opened JsonValues
  import opened OpenApi
  import opened SchemaWalk
  import opened SchemaWalkProperties
  import Text

  const THREE: seq<string> := ["oneOf", "anyOf", "allOf"]

  /** The nodes the walker reaches, with its combinators spelled out. */
  lemma WalkerReaches(j: Json, prop: Option<string>, path: seq<Segment>)
    requires IsPython(j)
    ensures (exists i :: 0 <= i < |Walk(j, prop, COMBINATORS)| && Walk(j, prop, COMBINATORS)[i].path == path)
       <==> Reaches(j, path, THREE)
  {
    EmittedIffReached(j, prop, COMBINATORS, path);
    assert COMBINATORS == THREE;
  }

  // ---------------------------------------------------------------- the order of paths

  /** Where a key stands in a dictionary. */
  function PositionOf(fields: seq<Field>, key: string): nat {
    if fields == [] || fields[0].key == key then 0 else 1 + PositionOf(fields[1..], key)
  }

  datatype Rank = Rank(kind: nat, position: nat)

  /** Which place of a schema a step goes to: a property by its place among the properties, an item, or
      an entry of one of the three lists. */
  function RankOf(j: Json, step: seq<Segment>): Rank {
    if |step| == 0 || !step[0].Key? then Rank(9, 0)
    else
      var position := if |step| == 2 && step[1].Index? then step[1].position else 0;
      match step[0].name
      case "properties" =>
        Rank(0, if j.Object? && Get(j.fields, "properties").Object? && |step| == 2 && step[1].Key?
          then PositionOf(Get(j.fields, "properties").fields, step[1].name) else 0)
      case "items" => Rank(1, position)
      case "oneOf" => Rank(2, position)
      case "anyOf" => Rank(3, position)
      case "allOf" => Rank(4, position)
      case _ => Rank(9, 0)
  }

  predicate Less(a: Rank, b: Rank) {
    a.kind < b.kind || (a.kind == b.kind && a.position < b.position)
  }

  /** The path `p` comes before `q`: it is the root's, or parts from it towards a place that comes
      first, at some schema that both lead through. */
  ghost predicate Sooner(j: Json, p: seq<Segment>, q: seq<Segment>)
    decreases |p|
  {
    q != [] && (p == [] || exists a, b :: 1 <= a <= |p| && 1 <= b <= |q| && Parts(j, p, q, a, b))
  }

  ghost predicate Parts(j: Json, p: seq<Segment>, q: seq<Segment>, a: nat, b: nat)
    requires 1 <= a <= |p| && 1 <= b <= |q|
    decreases |p|, 0
  {
    && SchemaStep(j, p[..a], THREE) && SchemaStep(j, q[..b], THREE)
    && (|| Less(RankOf(j, p[..a]), RankOf(j, q[..b]))
        || (p[..a] == q[..b] && Sooner(Follow(j, p[..a]).value, p[a..], q[b..])))
  }

  ghost predicate InOrder(j: Json, nodes: seq<Node>) {
    forall a, b :: 0 <= a < b < |nodes| ==> Sooner(j, nodes[a].path, nodes[b].path)
  }

  // ---------------------------------------------------------------- the places of one schema

  lemma {:induction false} PositionOfField(fields: seq<Field>, i: nat)
    requires DistinctKeys(fields) && i < |fields|
    ensures PositionOf(fields, fields[i].key) == i
  {
    if i > 0 {
      PositionOfField(fields[1..], i - 1);
    }
  }

  lemma PropertyRank(j: Json, k: nat)
    requires j.Object? && IsPython(j) && k < |PropertySlots(j.fields)|
    ensures RankOf(j, PropertySlots(j.fields)[k].segments) == Rank(0, k)
  {
    PartIsPython(j, "properties");
    PositionOfField(Get(j.fields, "properties").fields, k);
  }

  lemma ListRank(j: Json, key: string, v: Json, k: nat)
    requires k < |ListSlots(key, v)|
    ensures var r := RankOf(j, ListSlots(key, v)[k].segments);
      && (key == "items" ==> r == Rank(1, k)) && (key == "oneOf" ==> r == Rank(2, k))
      && (key == "anyOf" ==> r == Rank(3, k)) && (key == "allOf" ==> r == Rank(4, k))
  {
    assert "oneOf"[0] != "anyOf"[0] && "oneOf"[0] != "allOf"[0] && "anyOf"[1] != "allOf"[1];
    assert |"properties"| != 5 && "items"[0] == 'i';
  }

  lemma ItemRank(j: Json, k: nat)
    requires j.Object? && k < |ItemSlots(j.fields)|
    ensures RankOf(j, ItemSlots(j.fields)[k].segments) == Rank(1, k)
  {
    if !Get(j.fields, "items").Object? {
      ListRank(j, "items", Get(j.fields, "items"), k);
    } else {
      assert |"properties"| != 5;
    }
  }

  lemma ThreeLists(fields: seq<Field>)
    ensures CombinatorSlots(fields, COMBINATORS)
         == ListSlots("oneOf", Get(fields, "oneOf")) + ListSlots("anyOf", Get(fields, "anyOf"))
            + ListSlots("allOf", Get(fields, "allOf"))
  {
    hide ListSlots, Get;
    assert COMBINATORS[1..] == ["anyOf", "allOf"] && ["anyOf", "allOf"][1..] == ["allOf"] && ["allOf"][1..] == [];
    var a, b, c := ListSlots("oneOf", Get(fields, "oneOf")), ListSlots("anyOf", Get(fields, "anyOf")),
      ListSlots("allOf", Get(fields, "allOf"));
    assert CombinatorSlots(fields, ["allOf"]) == c + [] == c;
    assert CombinatorSlots(fields, ["anyOf", "allOf"]) == b + c;
    assert a + (b + c) == a + b + c;
  }

  lemma CombinatorRank(j: Json, k: nat) returns (r: Rank)
    requires j.Object? && k < |CombinatorSlots(j.fields, COMBINATORS)|
    ensures RankOf(j, CombinatorSlots(j.fields, COMBINATORS)[k].segments) == r
    ensures var a, b := |ListSlots("oneOf", Get(j.fields, "oneOf"))|, |ListSlots("anyOf", Get(j.fields, "anyOf"))|;
      r == if k < a then Rank(2, k) else if k < a + b then Rank(3, k - a) else Rank(4, k - a - b)
  {
    ThreeLists(j.fields);
    hide ListSlots, RankOf, CombinatorSlots, Get;
    var a, b, c := ListSlots("oneOf", Get(j.fields, "oneOf")), ListSlots("anyOf", Get(j.fields, "anyOf")),
      ListSlots("allOf", Get(j.fields, "allOf"));
    if k < |a| {
      ListRank(j, "oneOf", Get(j.fields, "oneOf"), k);
      r := Rank(2, k);
    } else if k < |a| + |b| {
      ListRank(j, "anyOf", Get(j.fields, "anyOf"), k - |a|);
      r := Rank(3, k - |a|);
    } else {
      ListRank(j, "allOf", Get(j.fields, "allOf"), k - |a| - |b|);
      r := Rank(4, k - |a| - |b|);
    }
  }

  /** The slots of a schema are its places, in their order. */
  lemma SlotsInOrder(j: Json, k: nat, m: nat)
    requires j.Object? && IsPython(j) && k < m < |Slots(j.fields, COMBINATORS)|
    ensures var slots := Slots(j.fields, COMBINATORS);
      Less(RankOf(j, slots[k].segments), RankOf(j, slots[m].segments))
  {
    var a := SlotRank(j, k);
    var b := SlotRank(j, m);
    hide RankOf, Slots, PropertySlots, ItemSlots, ListSlots;
  }

  lemma SlotRank(j: Json, k: nat) returns (r: Rank)
    requires j.Object? && IsPython(j) && k < |Slots(j.fields, COMBINATORS)|
    ensures r == RankOf(j, Slots(j.fields, COMBINATORS)[k].segments)
    ensures var p, i := |PropertySlots(j.fields)|, |ItemSlots(j.fields)|;
      var a, b := |ListSlots("oneOf", Get(j.fields, "oneOf"))|, |ListSlots("anyOf", Get(j.fields, "anyOf"))|;
      r == if k < p then Rank(0, k) else if k < p + i then Rank(1, k - p)
           else if k < p + i + a then Rank(2, k - p - i) else if k < p + i + a + b then Rank(3, k - p - i - a)
           else Rank(4, k - p - i - a - b)
  {
    hide PropertySlots, ItemSlots, CombinatorSlots, ListSlots, RankOf, IsPython, Get;
    var p, i := |PropertySlots(j.fields)|, |ItemSlots(j.fields)|;
    if k < p {
      PropertyRank(j, k);
      r := Rank(0, k);
    } else if k < p + i {
      ItemRank(j, k - p);
      r := Rank(1, k - p);
    } else {
      r := CombinatorRank(j, k - p - i);
    }
  }

  // ---------------------------------------------------------------- the emission

  lemma SoonerAcross(j: Json, s: seq<Segment>, t: seq<Segment>, x: seq<Segment>, y: seq<Segment>)
    requires SchemaStep(j, s, THREE) && SchemaStep(j, t, THREE) && Less(RankOf(j, s), RankOf(j, t))
    ensures Sooner(j, s + x, t + y)
  {
    hide RankOf, Less;
    var p, q := s + x, t + y;
    StepNotEmpty(j, s);
    StepNotEmpty(j, t);
    hide SchemaStep;
    assert p[..|s|] == s && q[..|t|] == t;
    assert Parts(j, p, q, |s|, |t|);
  }

  lemma StepNotEmpty(j: Json, s: seq<Segment>)
    requires SchemaStep(j, s, THREE)
    ensures s != [] && Follow(j, s).Some?
  {
  }

  lemma SoonerUnder(j: Json, s: seq<Segment>, x: seq<Segment>, y: seq<Segment>)
    requires SchemaStep(j, s, THREE) && Follow(j, s).Some? && Sooner(Follow(j, s).value, x, y)
    ensures Sooner(j, s + x, s + y)
  {
    hide RankOf, Less;
    var p, q := s + x, s + y;
    StepNotEmpty(j, s);
    hide SchemaStep;
    assert p[..|s|] == s && q[..|s|] == s && p[|s|..] == x && q[|s|..] == y;
    assert Parts(j, p, q, |s|, |s|);
  }

  lemma InOrderConcat(j: Json, x: seq<Node>, y: seq<Node>)
    requires InOrder(j, x) && InOrder(j, y)
    requires forall a, b :: 0 <= a < |x| && 0 <= b < |y| ==> Sooner(j, x[a].path, y[b].path)
    ensures InOrder(j, x + y)
  {
    hide Sooner;
  }

  lemma NothingInOrder(j: Json)
    ensures InOrder(j, [])
  {
  }

  lemma {:induction false} SlotsEmitInOrder(j: Json, c: nat)
    requires j.Object? && IsPython(j) && c <= |Slots(j.fields, COMBINATORS)|
    requires Below(j, Slots(j.fields, COMBINATORS)[c..])
    ensures InOrder(j, WalkSlots(j, Slots(j.fields, COMBINATORS)[c..], COMBINATORS))
    decreases j, 0, |Slots(j.fields, COMBINATORS)| - c
  {
    hide InOrder, Walk, Slots, Sooner, IsPython, SchemaStep;
    var slots := Slots(j.fields, COMBINATORS);
    if c == |slots| {
      NothingInOrder(j);
      assert slots[c..] == [];
    } else {
      var s, rest := slots[c], slots[c + 1..];
      assert slots[c..][0] == s && slots[c..][1..] == rest;
      assert s.child < j;
      forall i | 0 <= i < |rest|
        ensures rest[i].child < j
      {
        assert rest[i] == slots[c..][i + 1];
      }
      SlotIsStep(j, COMBINATORS, c);
      EmitsInOrder(s.child, s.prop);
      SlotsEmitInOrder(j, c + 1);
      OneSlotInOrder(j, c, Walk(s.child, s.prop, COMBINATORS));
      var here, there := Walk(s.child, s.prop, COMBINATORS), WalkSlots(j, rest, COMBINATORS);
      forall a, b | 0 <= a < |here| && 0 <= b < |there|
        ensures Sooner(j, s.segments + here[a].path, there[b].path)
      {
        SlotBeforeRest(j, c, here[a].path, b);
      }
      InOrderConcat(j, Under(s.segments, here), there);
    }
  }

  lemma OneSlotInOrder(j: Json, c: nat, nodes: seq<Node>)
    requires j.Object? && IsPython(j) && c < |Slots(j.fields, COMBINATORS)|
    requires InOrder(Slots(j.fields, COMBINATORS)[c].child, nodes)
    ensures InOrder(j, Under(Slots(j.fields, COMBINATORS)[c].segments, nodes))
  {
    hide Sooner, Slots, SchemaStep;
    var s := Slots(j.fields, COMBINATORS)[c];
    SlotIsStep(j, COMBINATORS, c);
    forall a, b | 0 <= a < b < |nodes|
      ensures Sooner(j, s.segments + nodes[a].path, s.segments + nodes[b].path)
    {
      SoonerUnder(j, s.segments, nodes[a].path, nodes[b].path);
    }
  }

  lemma SlotBeforeRest(j: Json, c: nat, x: seq<Segment>, b: nat)
    requires j.Object? && IsPython(j) && c < |Slots(j.fields, COMBINATORS)|
    requires Below(j, Slots(j.fields, COMBINATORS)[c + 1..])
    requires b < |WalkSlots(j, Slots(j.fields, COMBINATORS)[c + 1..], COMBINATORS)|
    ensures var slots := Slots(j.fields, COMBINATORS);
      Sooner(j, slots[c].segments + x, WalkSlots(j, slots[c + 1..], COMBINATORS)[b].path)
  {
    hide Slots, Walk, WalkSlots, Sooner, SchemaStep, RankOf, IsPython;
    var slots := Slots(j.fields, COMBINATORS);
    var rest := slots[c + 1..];
    var k, m := Locate(j, rest, COMBINATORS, b);
    assert rest[k] == slots[c + 1 + k];
    SlotIsStep(j, COMBINATORS, c);
    SlotIsStep(j, COMBINATORS, c + 1 + k);
    SlotsInOrder(j, c, c + 1 + k);
    SoonerAcross(j, slots[c].segments, rest[k].segments, x, Walk(rest[k].child, rest[k].prop, COMBINATORS)[m].path);
  }

  /** The walker emits in that order: depth first, places in their order, lists from the front. */
  lemma {:induction false} EmitsInOrder(j: Json, prop: Option<string>)
    requires IsPython(j)
    ensures InOrder(j, Walk(j, prop, COMBINATORS))
    decreases j, 1, 0
  {
    if j.Object? {
      var slots := Slots(j.fields, COMBINATORS);
      WalkUnfold(j, prop, COMBINATORS);
      assert slots[0..] == slots;
      SlotsEmitInOrder(j, 0);
      RootFirst(j, prop);
    }
  }

  lemma RootFirst(j: Json, prop: Option<string>)
    requires j.Object? && IsPython(j) && Below(j, Slots(j.fields, COMBINATORS))
    requires InOrder(j, WalkSlots(j, Slots(j.fields, COMBINATORS), COMBINATORS))
    ensures InOrder(j, [Node([], j, prop)] + WalkSlots(j, Slots(j.fields, COMBINATORS), COMBINATORS))
  {
    var slots := Slots(j.fields, COMBINATORS);
    var nodes := WalkSlots(j, slots, COMBINATORS);
    forall i | 0 <= i < |nodes|
      ensures nodes[i].path != []
    {
      hide Slots, Walk, WalkSlots, SchemaStep;
      var k, m := Locate(j, slots, COMBINATORS, i);
      SlotIsStep(j, COMBINATORS, k);
      StepLeads(j, slots[k].segments);
    }
    InOrderConcat(j, [Node([], j, prop)], nodes);
  }

  lemma StepLeads(j: Json, s: seq<Segment>)
    requires SchemaStep(j, s, COMBINATORS)
    ensures s != []
  {
  }

  // ---------------------------------------------------------------- printed paths

  /** Each step of a path adds a dot and the key, or the position in brackets, to what is printed. */
  lemma {:induction false} PrintedStepByStep(path: seq<Segment>, last: Segment)
    ensures Shown([]) == ""
    ensures Shown(path + [last])
         == Shown(path) + match last case Key(k) => "." + k case Index(i) => "[" + Text.Digits(i) + "]"
  {
    hide Text.Digits;
    if path == [] {
      assert [] + [last] == [last] && [last][1..] == [];
      assert Shown([last]) == (match last case Key(k) => "." + k case Index(i) => "[" + Text.Digits(i) + "]") + "";
    } else {
      assert (path + [last])[1..] == path[1..] + [last];
      PrintedStepByStep(path[1..], last);
    }
  }
}
