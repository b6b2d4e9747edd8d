/** Rewriting OpenAPI documents for the MCP proxy: list-valued `type` entries become one name. */
module OpenApi {
  import opened Wrappers
  import opened JsonValues

  /** The first entry that is not "null", else "string". */
  function Pick(names: seq<Json>): Json {
    if names == [] then String("string")
    else if names[0] != String("null") then names[0]
    else Pick(names[1..])
  }

  predicate IsTypeList(f: Field) {
    f.key == "type" && f.value.Array?
  }

  /** `normalize_openapi_types_for_mcp_proxy` */
  function Normalize(j: Json): Json {
    match j
    case Object(fields) => Object(seq(|fields|, i requires 0 <= i < |fields| =>
      if IsTypeList(fields[i]) then Field(fields[i].key, Pick(fields[i].value.items))
      else Field(fields[i].key, Normalize(fields[i].value))))
    case Array(items) => Array(seq(|items|, i requires 0 <= i < |items| => Normalize(items[i])))
    case _ => j
  }

  /** Keys, their order and all lengths are kept; only the value of a list-valued `type` is replaced. */
  lemma NormalizeShape(j: Json)
    ensures j.Object? ==>
      var out := Normalize(j);
      && out.Object? && |out.fields| == |j.fields|
      && forall i :: 0 <= i < |j.fields| ==>
           var f := j.fields[i];
           out.fields[i] == Field(f.key, if IsTypeList(f) then Pick(f.value.items) else Normalize(f.value))
    ensures j.Array? ==>
      var out := Normalize(j);
      && out.Array? && |out.items| == |j.items|
      && forall i :: 0 <= i < |j.items| ==> out.items[i] == Normalize(j.items[i])
    ensures !j.Object? && !j.Array? ==> Normalize(j) == j
  {
  }

  // ---------------------------------------------------------------- normal form

  /** No key named `type` holds a list, at any depth. */
  predicate NormalForm(j: Json) {
    match j
    case Object(fields) => forall i :: 0 <= i < |fields| ==> !IsTypeList(fields[i]) && NormalForm(fields[i].value)
    case Array(items) => forall i :: 0 <= i < |items| ==> NormalForm(items[i])
    case _ => true
  }

  /** Every list the rewrite replaces has a normal, non-list replacement. */
  predicate Replaceable(j: Json) {
    match j
    case Object(fields) => forall i :: 0 <= i < |fields| ==>
      if IsTypeList(fields[i]) then
        var p := Pick(fields[i].value.items);
        !p.Array? && NormalForm(p)
      else Replaceable(fields[i].value)
    case Array(items) => forall i :: 0 <= i < |items| ==> Replaceable(items[i])
    case _ => true
  }

  predicate TypeListsHoldStrings(j: Json) {
    match j
    case Object(fields) => forall i :: 0 <= i < |fields| ==>
      if IsTypeList(fields[i]) then forall k :: 0 <= k < |fields[i].value.items| ==> fields[i].value.items[k].String?
      else TypeListsHoldStrings(fields[i].value)
    case Array(items) => forall i :: 0 <= i < |items| ==> TypeListsHoldStrings(items[i])
    case _ => true
  }

  lemma {:induction false} PickIsMember(names: seq<Json>)
    ensures Pick(names) in names || Pick(names) == String("string")
    ensures (exists i :: 0 <= i < |names| && names[i] != String("null")) ==>
      Pick(names) in names && Pick(names) != String("null")
    ensures (forall i :: 0 <= i < |names| ==> names[i] == String("null")) ==> Pick(names) == String("string")
  {
    if names != [] && names[0] == String("null") {
      PickIsMember(names[1..]);
      if i :| 0 <= i < |names| && names[i] != String("null") {
        assert names[1..][i - 1] == names[i];
      }
    }
  }

  /** It is the first entry that is not "null", wherever that stands. */
  lemma {:induction false} PickIsFirst(names: seq<Json>, i: nat)
    requires i < |names| && names[i] != String("null") && forall j :: 0 <= j < i ==> names[j] == String("null")
    ensures Pick(names) == names[i]
  {
    if i > 0 {
      PickIsFirst(names[1..], i - 1);
    }
  }

  /** The rewrite changes a document exactly when it has a list-valued `type` somewhere. */
  lemma {:induction false} NormalizeFixesNormalForms(j: Json)
    ensures Normalize(j) == j <==> NormalForm(j)
  {
    match j
    case Object(fields) =>
      var out := Normalize(j).fields;
      forall i | 0 <= i < |fields|
        ensures out[i] == fields[i] <==> !IsTypeList(fields[i]) && NormalForm(fields[i].value)
      {
        if IsTypeList(fields[i]) {
          PickIsMember(fields[i].value.items);
          assert Pick(fields[i].value.items) != fields[i].value;
        } else {
          NormalizeFixesNormalForms(fields[i].value);
        }
      }
      assert NormalForm(j) ==> out == fields;
    case Array(items) =>
      var out := Normalize(j).items;
      forall i | 0 <= i < |items|
        ensures out[i] == items[i] <==> NormalForm(items[i])
      {
        NormalizeFixesNormalForms(items[i]);
      }
      assert NormalForm(j) ==> out == items;
    case _ =>
  }

  /** The result has no list-valued `type` anywhere exactly when every replacement is itself normal
      and no list: a replacement is copied as it is, not rewritten again. */
  lemma {:induction false} NormalizeReachesNormalForm(j: Json)
    ensures NormalForm(Normalize(j)) <==> Replaceable(j)
  {
    NormalizeShape(j);
    match j
    case Object(fields) =>
      var out := Normalize(j).fields;
      forall i | 0 <= i < |fields|
        ensures !IsTypeList(out[i]) && NormalForm(out[i].value)
           <==> if IsTypeList(fields[i]) then
                  !Pick(fields[i].value.items).Array? && NormalForm(Pick(fields[i].value.items))
                else Replaceable(fields[i].value)
      {
        if !IsTypeList(fields[i]) {
          NormalizeReachesNormalForm(fields[i].value);
        }
      }
    case Array(items) =>
      var out := Normalize(j).items;
      forall i | 0 <= i < |items|
        ensures NormalForm(out[i]) <==> Replaceable(items[i])
      {
        NormalizeReachesNormalForm(items[i]);
      }
    case _ =>
  }

  /** One pass is enough exactly when every replacement is normal. */
  lemma NormalizeIdempotent(j: Json)
    ensures Normalize(Normalize(j)) == Normalize(j) <==> Replaceable(j)
  {
    NormalizeFixesNormalForms(Normalize(j));
    NormalizeReachesNormalForm(j);
  }

  /** With type lists of strings, as JSON Schema writes them, the result is always normal. */
  lemma {:induction false} StringTypeListsAreReplaceable(j: Json)
    requires TypeListsHoldStrings(j)
    ensures Replaceable(j) && NormalForm(Normalize(j)) && Normalize(Normalize(j)) == Normalize(j)
  {
    match j {
      case Object(fields) =>
        forall i | 0 <= i < |fields|
          ensures IsTypeList(fields[i]) ==> Pick(fields[i].value.items).String?
          ensures !IsTypeList(fields[i]) ==> Replaceable(fields[i].value)
        {
          if IsTypeList(fields[i]) {
            PickIsMember(fields[i].value.items);
          } else {
            StringTypeListsAreReplaceable(fields[i].value);
          }
        }
      case Array(items) =>
        forall i | 0 <= i < |items|
          ensures Replaceable(items[i])
        {
          StringTypeListsAreReplaceable(items[i]);
        }
      case _ =>
    }
    NormalizeReachesNormalForm(j);
    NormalizeIdempotent(j);
  }

  // ---------------------------------------------------------------- paths

  datatype Segment = Key(name: string) | Index(position: nat)

  function Child(j: Json, s: Segment): Option<Json> {
    match s
    case Key(k) => if j.Object? && Has(j.fields, k) then Some(Get(j.fields, k)) else None
    case Index(i) => if j.Array? && i < |j.items| then Some(j.items[i]) else None
  }

  function Follow(j: Json, path: seq<Segment>): Option<Json>
    decreases |path|
  {
    if path == [] then Some(j)
    else
      match Child(j, path[0])
      case None => None
      case Some(c) => Follow(c, path[1..])
  }

  /** The path does not lead into a list-valued `type`. */
  predicate AvoidsTypeLists(j: Json, path: seq<Segment>)
    decreases |path|
  {
    path == [] ||
    match Child(j, path[0])
    case None => true
    case Some(c) => !(path[0] == Key("type") && c.Array?) && AvoidsTypeLists(c, path[1..])
  }

  function NormalizeFound(r: Option<Json>): Option<Json> {
    match r
    case None => None
    case Some(j) => Some(Normalize(j))
  }

  lemma {:induction false} NormalizeLookup(fields: seq<Field>, key: string)
    ensures var out := Normalize(Object(fields)).fields;
      && (Has(out, key) <==> Has(fields, key))
      && (Has(fields, key) ==>
            var v := Get(fields, key);
            Get(out, key) == if key == "type" && v.Array? then Pick(v.items) else Normalize(v))
  {
    var out := Normalize(Object(fields)).fields;
    if fields != [] {
      NormalizeLookup(fields[1..], key);
      assert out[1..] == Normalize(Object(fields[1..])).fields;
      HasUnfold(fields, key);
      HasUnfold(out, key);
    }
  }

  /** The rewrite commutes with following any path that stays out of list-valued types: the same
      keys and positions exist, and what is found there is the rewrite of what was there. In
      particular every leaf, every key and every list length outside them is kept. */
  lemma {:induction false} NormalizeKeepsPaths(j: Json, path: seq<Segment>)
    requires AvoidsTypeLists(j, path)
    ensures Follow(Normalize(j), path) == NormalizeFound(Follow(j, path))
    decreases |path|
  {
    if path != [] {
      if j.Object? && path[0].Key? {
        NormalizeLookup(j.fields, path[0].name);
      }
      match Child(j, path[0]) {
        case None =>
        case Some(c) => NormalizeKeepsPaths(c, path[1..]);
      }
    }
  }

  lemma {:induction false} FollowConcat(j: Json, p: seq<Segment>, q: seq<Segment>)
    ensures Follow(j, p + q) == match Follow(j, p) case None => None case Some(c) => Follow(c, q)
    decreases |p|
  {
    if p == [] {
      assert p + q == q;
    } else {
      assert (p + q)[1..] == p[1..] + q;
      match Child(j, p[0]) {
        case None =>
        case Some(c) => FollowConcat(c, p[1..], q);
      }
    }
  }

  /** At a list-valued `type` the rewritten document holds the picked name and nothing below it. */
  lemma NormalizeAtTypeList(j: Json, path: seq<Segment>)
    requires AvoidsTypeLists(j, path) && Follow(j, path).Some?
    requires Child(Follow(j, path).value, Key("type")).Some? && Child(Follow(j, path).value, Key("type")).value.Array?
    ensures Follow(Normalize(j), path + [Key("type")])
         == Some(Pick(Child(Follow(j, path).value, Key("type")).value.items))
  {
    NormalizeKeepsPaths(j, path);
    FollowConcat(Normalize(j), path, [Key("type")]);
    NormalizeLookup(Follow(j, path).value.fields, "type");
  }
}
