/** The filtered, paged scan gives the verdict a scan of the whole fleet would give. */
module LeakAuditProperties {
  import opened Wrappers
  import opened LeakAudit
  import Text
  import Sorting

  // ---------------------------------------------------------------- buckets

  lemma {:induction false} FirstPrefixIsFirst(prefixes: seq<string>, name: string)
    ensures var r := FirstPrefix(prefixes, name);
      && (r.None? <==> forall i :: 0 <= i < |prefixes| ==> !(prefixes[i] <= name))
      && (r.Some? ==> exists i ::
            && 0 <= i < |prefixes| && prefixes[i] == r.value && prefixes[i] <= name
            && forall j :: 0 <= j < i ==> !(prefixes[j] <= name))
  {
    if prefixes != [] {
      FirstPrefixIsFirst(prefixes[1..], name);
      var r := FirstPrefix(prefixes, name);
      assert forall i :: 0 < i < |prefixes| ==> prefixes[i] == prefixes[1..][i - 1];
      if prefixes[0] <= name {
        assert prefixes[0] == r.value;
      } else if r.Some? {
        var i :| 0 <= i < |prefixes[1..]| && prefixes[1..][i] == r.value && prefixes[1..][i] <= name
          && forall j :: 0 <= j < i ==> !(prefixes[1..][j] <= name);
        assert prefixes[i + 1] == r.value;
        forall j | 0 <= j < i + 1
          ensures !(prefixes[j] <= name)
        {
          if j > 0 {
            assert prefixes[j] == prefixes[1..][j - 1];
          }
        }
      }
    }
  }

  /** Three characters that tell the `verify_...` prefixes apart, at positions 7, 8 and 10. */
  function Mark(i: nat): (char, char, char) {
    match i
    case 1 => ('l', 'o', 'k')
    case 2 => ('i', 'n', 'e')
    case 3 => ('v', 'e', 'b')
    case 4 => ('v', 'e', 'd')
    case 5 => ('w', 'o', 'k')
    case 6 => ('i', 'g', 'o')
    case 7 => ('t', 'r', 's')
    case _ => ('l', 'i', 'e')
  }

  lemma MarkIsRight(i: nat)
    requires 1 <= i <= 9 && i != 8
    ensures var p := FIXTURE_PREFIXES[i];
      |p| > 10 && p[6] == '_' && (p[7], p[8], p[10]) == Mark(i)
  {
  }

  ghost predicate SpecificFirst(prefixes: seq<string>) {
    forall i, j :: 0 <= i < j < |prefixes| ==> !(prefixes[i] <= prefixes[j])
  }

  /** No prefix in the list is a prefix of a later one. */
  lemma FixturePrefixesAreSpecificFirst()
    ensures SpecificFirst(FIXTURE_PREFIXES)
  {
    forall i, j | 0 <= i < j < |FIXTURE_PREFIXES|
      ensures !(FIXTURE_PREFIXES[i] <= FIXTURE_PREFIXES[j])
    {
      var p, q := FIXTURE_PREFIXES[i], FIXTURE_PREFIXES[j];
      if i == 8 {
        assert p[0] == 'p' && q[0] == 'v';
      } else if j == 8 {
        assert p[0] == 'v' && q[0] == 'p';
      } else if j == 10 {
        assert |p| > |q|;
      } else if i == 0 {
        assert p[6] == '-';
        MarkIsRight(j);
      } else {
        MarkIsRight(i);
        MarkIsRight(j);
        assert Mark(i) != Mark(j);
      }
    }
  }

  lemma PrefixesNest(a: string, b: string, name: string)
    requires a <= name && b <= name
    ensures |a| <= |b| ==> a <= b
  {
  }

  lemma FirstPrefixIsLongest(prefixes: seq<string>, name: string)
    requires SpecificFirst(prefixes)
    ensures var r := FirstPrefix(prefixes, name);
      && (r.Some? <==> exists p :: p in prefixes && p <= name)
      && (r.Some? ==>
            && r.value in prefixes && r.value <= name
            && forall p :: p in prefixes && p <= name ==> |p| <= |r.value|)
  {
    FirstPrefixIsFirst(prefixes, name);
    var r := FirstPrefix(prefixes, name);
    if r.Some? {
      var i :| 0 <= i < |prefixes| && prefixes[i] == r.value && prefixes[i] <= name
        && forall j :: 0 <= j < i ==> !(prefixes[j] <= name);
      assert prefixes[i] in prefixes;
      forall p | p in prefixes && p <= name
        ensures |p| <= |r.value|
      {
        var j :| 0 <= j < |prefixes| && prefixes[j] == p;
        PrefixesNest(prefixes[i], p, name);
        assert j >= i;
      }
    }
  }

  /** A name's bucket is its longest matching fixture prefix, and it has one exactly when some
      prefix matches and the excluded one does not. */
  lemma BucketIsLongestMatch(name: string)
    ensures var b := MatchedBucket(name);
      && (b.Some? <==> (exists p :: p in FIXTURE_PREFIXES && p <= name) && !("verify_editor_" <= name))
      && (b.Some? ==>
            && b.value in FIXTURE_PREFIXES && b.value <= name
            && forall p :: p in FIXTURE_PREFIXES && p <= name ==> |p| <= |b.value|)
  {
    hide FirstPrefix, FIXTURE_PREFIXES;
    FixturePrefixesAreSpecificFirst();
    FirstPrefixIsLongest(FIXTURE_PREFIXES, name);
    ExcludedIffVerifyEditor(name);
    FixturePrefixesAreNotEmpty();
  }

  lemma ExcludedIffVerifyEditor(name: string)
    ensures FirstPrefix(EXCLUDED_PREFIXES, name).Some? <==> "verify_editor_" <= name
  {
    FirstPrefixOfOne("verify_editor_", name);
  }

  lemma FirstPrefixOfOne(prefix: string, name: string)
    ensures FirstPrefix([prefix], name).Some? <==> prefix <= name
  {
  }

  lemma FixturePrefixesAreNotEmpty()
    ensures forall p :: p in FIXTURE_PREFIXES ==> |p| > 0
  {
    assert forall i :: 0 <= i < |FIXTURE_PREFIXES| ==> |FIXTURE_PREFIXES[i]| > 0;
  }

  // ---------------------------------------------------------------- strays as a multiset of projects

  predicate IsStray(p: Project) {
    MatchedBucket(p.name).Some?
  }

  function StrayProjects(rows: seq<Project>): seq<Project> {
    if rows == [] then [] else (if IsStray(rows[0]) then [rows[0]] else []) + StrayProjects(rows[1..])
  }

  function AsStray(p: Project): Stray {
    Stray(p.name, if IsStray(p) then MatchedBucket(p.name).value else "")
  }

  function AsStrays(rows: seq<Project>): seq<Stray> {
    seq(|rows|, i requires 0 <= i < |rows| => AsStray(rows[i]))
  }

  predicate Named(rows: seq<Project>) {
    forall i :: 0 <= i < |rows| ==> rows[i].name != ""
  }

  /** No two rows share an id; rows without one are left open. */
  predicate UniqueIds(rows: seq<Project>) {
    forall i, j :: 0 <= i < j < |rows| ==> rows[i].id == "" || rows[i].id != rows[j].id
  }

  lemma {:induction false} StraysOfNames(rows: seq<Project>)
    requires Named(rows)
    ensures LiveStrays(DisplayNames(rows)) == AsStrays(StrayProjects(rows))
  {
    hide MatchedBucket;
    if rows != [] {
      StraysOfNames(rows[1..]);
      var names := DisplayNames(rows);
      assert names == [rows[0].name] + DisplayNames(rows[1..]);
      assert names[1..] == DisplayNames(rows[1..]);
    }
  }

  lemma Counts(row: Project, rest: seq<Project>)
    ensures forall p :: multiset([row] + rest)[p] == (if p == row then 1 else 0) + multiset(rest)[p]
  {
  }

  lemma {:induction false} StrayProjectsCount(rows: seq<Project>)
    ensures forall p :: multiset(StrayProjects(rows))[p] == if IsStray(p) then multiset(rows)[p] else 0
  {
    hide IsStray;
    if rows != [] {
      StrayProjectsCount(rows[1..]);
      assert rows == [rows[0]] + rows[1..];
      Counts(rows[0], rows[1..]);
      Counts(rows[0], StrayProjects(rows[1..]));
      assert [] + StrayProjects(rows[1..]) == StrayProjects(rows[1..]);
    }
  }

  lemma {:induction false} UniqueIdsCountOnce(rows: seq<Project>)
    requires UniqueIds(rows)
    ensures forall p: Project :: p.id != "" ==> multiset(rows)[p] == if p in rows then 1 else 0
  {
    if rows != [] {
      UniqueIdsCountOnce(rows[1..]);
      assert rows == [rows[0]] + rows[1..];
      Counts(rows[0], rows[1..]);
      assert forall p :: p in rows[1..] ==> exists i :: 0 < i < |rows| && rows[i] == p;
    }
  }

  /** Taking one row out takes one stray out. */
  lemma TakeOut(rows: seq<Project>, k: nat)
    requires k < |rows|
    ensures var rest := rows[..k] + rows[k + 1..];
      && multiset(rest) == multiset(rows) - multiset{rows[k]}
      && multiset(AsStrays(rows)) == multiset(AsStrays(rest)) + multiset{AsStray(rows[k])}
  {
    hide AsStray;
    var rest := rows[..k] + rows[k + 1..];
    assert rows == rows[..k] + [rows[k]] + rows[k + 1..];
    var s := AsStrays(rows);
    assert s == s[..k] + [AsStray(rows[k])] + s[k + 1..];
    assert AsStrays(rest) == s[..k] + s[k + 1..];
  }

  lemma {:induction false} MapKeepsMultiset(a: seq<Project>, b: seq<Project>)
    requires multiset(a) == multiset(b)
    ensures multiset(AsStrays(a)) == multiset(AsStrays(b))
    decreases |a|
  {
    hide AsStray, AsStrays;
    hide Buckets;
    if a == [] {
      assert |b| == |multiset(b)| == 0;
    } else {
      assert a[0] in multiset(b);
      var k :| 0 <= k < |b| && b[k] == a[0];
      TakeOut(a, 0);
      TakeOut(b, k);
      MapKeepsMultiset(a[..0] + a[1..], b[..k] + b[k + 1..]);
    }
  }

  // ---------------------------------------------------------------- the two passes

  /** Rows with the same id are the same row. */
  predicate IdsIdentify(rows: seq<Project>) {
    forall i, j :: 0 <= i < |rows| && 0 <= j < |rows| && rows[i].id == rows[j].id && rows[i].id != "" ==>
      rows[i] == rows[j]
  }

  lemma SameRow(rows: seq<Project>, p: Project)
    requires rows != [] && IdsIdentify(rows)
    ensures p in rows[1..] && p.id == rows[0].id && p.id != "" ==> p == rows[0]
  {
    if p in rows[1..] {
      var i :| 0 <= i < |rows[1..]| && rows[1..][i] == p;
      assert rows[i + 1] == p;
    }
  }

  /** Every row with an id is kept once, every row without one as often as it comes. */
  lemma {:induction false} DedupCounts(rows: seq<Project>, seen: set<string>)
    requires IdsIdentify(rows)
    ensures forall p: Project ::
      multiset(Dedup(rows, seen))[p]
        == (if p.id == "" then multiset(rows)[p] else if p.id in seen || p !in rows then 0 else 1)
  {
    if rows != [] {
      var row, rest := rows[0], rows[1..];
      assert rows == [row] + rest;
      assert IdsIdentify(rest);
      Counts(row, rest);
      if row.id != "" && row.id in seen {
        DedupCounts(rest, seen);
        assert Dedup(rows, seen) == Dedup(rest, seen);
      } else {
        var next := if row.id != "" then seen + {row.id} else seen;
        DedupCounts(rest, next);
        Counts(row, Dedup(rest, next));
        assert Dedup(rows, seen) == [row] + Dedup(rest, next);
      }
      hide Dedup, IdsIdentify;
      forall p: Project
        ensures multiset(Dedup(rows, seen))[p]
          == (if p.id == "" then multiset(rows)[p] else if p.id in seen || p !in rows then 0 else 1)
      {
        assert p in rows <==> p == row || p in rest;
        SameRow(rows, p);
      }
    }
  }

  /** What the server's `name_contains` keeps: the lower-cased name contains the needle. */
  predicate NameContains(p: Project, needle: string) {
    Text.Contains(Text.Lower(p.name), needle)
  }

  /** A pass lists, in some order, the projects of the fleet whose name contains the needle. */
  ghost predicate IsPass(listing: seq<Project>, fleet: seq<Project>, needle: string) {
    forall p :: multiset(listing)[p] == if NameContains(p, needle) then multiset(fleet)[p] else 0
  }

  lemma EveryPrefixHasANeedle(prefix: string)
    requires prefix in FIXTURE_PREFIXES
    ensures "verify" <= prefix || "pipeline_live" <= prefix
  {
    var i :| 0 <= i < |FIXTURE_PREFIXES| && FIXTURE_PREFIXES[i] == prefix;
    if i == 8 {
      assert "pipeline_live" <= prefix;
    } else {
      assert "verify" <= prefix;
    }
  }

  lemma BucketHasANeedle(name: string)
    requires MatchedBucket(name).Some?
    ensures var b := MatchedBucket(name).value;
      b <= name && ("verify" <= b || "pipeline_live" <= b)
  {
    BucketIsLongestMatch(name);
    EveryPrefixHasANeedle(MatchedBucket(name).value);
  }

  predicate IsLower(s: string) {
    forall i :: 0 <= i < |s| ==> Text.LowerChar(s[i]) == s[i]
  }

  lemma NeedlesAreLower()
    ensures IsLower("verify") && IsLower("pipeline_live")
  {
  }

  lemma FixturesContainANeedle(p: Project)
    requires IsStray(p)
    ensures NameContains(p, "verify") || NameContains(p, "pipeline_live")
  {
    hide MatchedBucket, NameContains, IsLower;
    BucketHasANeedle(p.name);
    NeedlesAreLower();
    var b := MatchedBucket(p.name).value;
    if "verify" <= b {
      PrefixSurvivesLower(p, b, "verify");
    } else {
      PrefixSurvivesLower(p, b, "pipeline_live");
    }
  }

  lemma PrefixSurvivesLower(p: Project, prefix: string, needle: string)
    requires prefix <= p.name && needle <= prefix
    requires IsLower(needle)
    ensures NameContains(p, needle)
  {
    var lower := Text.Lower(p.name);
    assert forall i :: 0 <= i < |needle| ==> p.name[i] == prefix[i] == needle[i];
    assert needle <= lower[0..];
  }

  lemma RowsOfPasses(fleet: seq<Project>, first: seq<Project>, second: seq<Project>)
    requires UniqueIds(fleet) && IsPass(first, fleet, "verify") && IsPass(second, fleet, "pipeline_live")
    ensures forall p :: multiset(first + second)[p] == multiset(first)[p] + multiset(second)[p]
    ensures forall p ::
      p in first + second <==> p in fleet && (NameContains(p, "verify") || NameContains(p, "pipeline_live"))
    ensures IdsIdentify(first + second)
  {
    hide NameContains;
    var rows := first + second;
    forall p
      ensures p in rows <==> p in fleet && (NameContains(p, "verify") || NameContains(p, "pipeline_live"))
    {
      assert p in rows <==> p in first || p in second;
      assert p in first <==> multiset(first)[p] > 0;
      assert p in second <==> multiset(second)[p] > 0;
      assert p in fleet <==> multiset(fleet)[p] > 0;
    }
    forall i, j | 0 <= i < |rows| && 0 <= j < |rows| && rows[i].id == rows[j].id && rows[i].id != ""
      ensures rows[i] == rows[j]
    {
      assert rows[i] in rows && rows[j] in rows;
      var k :| 0 <= k < |fleet| && fleet[k] == rows[i];
      var m :| 0 <= m < |fleet| && fleet[m] == rows[j];
    }
  }

  /** How often the two passes together count a stray of the fleet: once if it has an id, otherwise
      once for every needle its name contains, which is once or twice. */
  lemma EachStrayCounts(fleet: seq<Project>, first: seq<Project>, second: seq<Project>, p: Project)
    requires UniqueIds(fleet) && IsStray(p)
    requires IsPass(first, fleet, "verify") && IsPass(second, fleet, "pipeline_live")
    ensures multiset(Dedup(first + second, {}))[p]
      == if p.id == "" && NameContains(p, "verify") && NameContains(p, "pipeline_live") then 2 * multiset(fleet)[p]
         else multiset(fleet)[p]
  {
    hide NameContains, IsStray;
    RowsOfPasses(fleet, first, second);
    DedupCounts(first + second, {});
    UniqueIdsCountOnce(fleet);
    FixturesContainANeedle(p);
    hide Dedup, IdsIdentify, UniqueIds;
    assert p in fleet <==> multiset(fleet)[p] > 0;
  }

  /** A stray that nothing identifies and both passes list. */
  predicate CountedTwice(p: Project) {
    IsStray(p) && p.id == "" && NameContains(p, "verify") && NameContains(p, "pipeline_live")
  }

  lemma PassesCompared(fleet: seq<Project>, first: seq<Project>, second: seq<Project>)
    requires UniqueIds(fleet)
    requires IsPass(first, fleet, "verify") && IsPass(second, fleet, "pipeline_live")
    ensures var kept := StrayProjects(Dedup(first + second, {}));
      && (multiset(kept) == multiset(StrayProjects(fleet)) <==> forall p :: p in fleet ==> !CountedTwice(p))
      && multiset(StrayProjects(fleet)) <= multiset(kept)
      && (kept == [] <==> StrayProjects(fleet) == [])
  {
    hide IsStray, NameContains;
    var rows := Dedup(first + second, {});
    StrayProjectsCount(rows);
    StrayProjectsCount(fleet);
    hide Dedup, StrayProjects, IsPass, UniqueIds;
    var k, f := multiset(StrayProjects(rows)), multiset(StrayProjects(fleet));
    forall p
      ensures k[p] == if CountedTwice(p) then 2 * f[p] else f[p]
    {
      if IsStray(p) {
        EachStrayCounts(fleet, first, second, p);
      }
    }
    assert forall p :: p in fleet <==> multiset(fleet)[p] > 0;
    if p :| p in fleet && CountedTwice(p) {
      assert f[p] > 0 && k[p] == 2 * f[p];
    }
    SameEmptiness(StrayProjects(rows), StrayProjects(fleet));
  }

  lemma SameEmptiness(a: seq<Project>, b: seq<Project>)
    requires forall p :: multiset(a)[p] > 0 <==> multiset(b)[p] > 0
    ensures a == [] <==> b == []
  {
    if a != [] {
      assert a[0] in multiset(a) && a[0] in multiset(b);
    }
    if b != [] {
      assert b[0] in multiset(b) && b[0] in multiset(a);
    }
  }

  lemma KeptAreNamed(fleet: seq<Project>, first: seq<Project>, second: seq<Project>)
    requires Named(fleet) && UniqueIds(fleet)
    requires IsPass(first, fleet, "verify") && IsPass(second, fleet, "pipeline_live")
    ensures Named(Dedup(first + second, {}))
  {
    hide NameContains;
    RowsOfPasses(fleet, first, second);
    DedupCounts(first + second, {});
    hide Dedup, IsPass, UniqueIds, IdsIdentify;
    var kept := Dedup(first + second, {});
    forall i | 0 <= i < |kept|
      ensures kept[i].name != ""
    {
      assert multiset(kept)[kept[i]] > 0;
      assert kept[i] in first + second by {
        assert multiset(first + second)[kept[i]] > 0 <==> kept[i] in first + second;
      }
      assert kept[i] in fleet;
    }
  }

  lemma MoreStrays(a: seq<Project>, b: seq<Project>)
    requires multiset(b) <= multiset(a) && multiset(a) != multiset(b)
    ensures |AsStrays(a)| > |AsStrays(b)|
  {
    assert multiset(a) == multiset(b) + (multiset(a) - multiset(b));
    assert |multiset(a) - multiset(b)| > 0;
    assert |multiset(a)| == |a| && |multiset(b)| == |b|;
  }

  /** The strays found through the two narrow passes are, with multiplicity, those of the fleet if and
      only if no stray of the fleet is without an id and contains both needles. There are any at all
      through the passes exactly if there are any in the fleet. */
  lemma PassesFindEveryStrayOnce(fleet: seq<Project>, first: seq<Project>, second: seq<Project>)
    requires Named(fleet) && UniqueIds(fleet)
    requires IsPass(first, fleet, "verify") && IsPass(second, fleet, "pipeline_live")
    ensures var narrow, full := LiveStrays(DisplayNames(Dedup(first + second, {}))), LiveStrays(DisplayNames(fleet));
      && (multiset(narrow) == multiset(full) <==> forall p :: p in fleet ==> !CountedTwice(p))
      && (!(forall p :: p in fleet ==> !CountedTwice(p)) ==> |narrow| > |full| > 0)
      && (narrow == [] <==> full == [])
  {
    hide LiveStrays, IsStray, CountedTwice, IsPass, UniqueIds, DisplayNames, Dedup, StrayProjects, AsStray;
    var kept := Dedup(first + second, {});
    PassesCompared(fleet, first, second);
    KeptAreNamed(fleet, first, second);
    StraysOfNames(kept);
    StraysOfNames(fleet);
    if forall p :: p in fleet ==> !CountedTwice(p) {
      MapKeepsMultiset(StrayProjects(kept), StrayProjects(fleet));
    } else {
      MoreStrays(StrayProjects(kept), StrayProjects(fleet));
      DifferentLengths(AsStrays(StrayProjects(kept)), AsStrays(StrayProjects(fleet)));
    }
  }

  lemma DifferentLengths(a: seq<Stray>, b: seq<Stray>)
    requires |a| != |b|
    ensures multiset(a) != multiset(b)
  {
    assert |multiset(a)| == |a| && |multiset(b)| == |b|;
  }

  // ---------------------------------------------------------------- the verdict

  lemma {:induction false} BucketsDetermined(a: seq<Stray>, b: seq<Stray>)
    requires multiset(a) == multiset(b)
    ensures multiset(Buckets(a)) == multiset(Buckets(b))
    decreases |a|
  {
    hide Buckets;
    if a == [] {
      assert |b| == |multiset(b)| == 0;
    } else {
      assert a[0] in multiset(b);
      var k :| 0 <= k < |b| && b[k] == a[0];
      TakeOutBucket(a, 0);
      TakeOutBucket(b, k);
      BucketsDetermined(a[..0] + a[1..], b[..k] + b[k + 1..]);
    }
  }

  lemma TakeOutBucket(strays: seq<Stray>, k: nat)
    requires k < |strays|
    ensures var rest := strays[..k] + strays[k + 1..];
      && multiset(rest) == multiset(strays) - multiset{strays[k]}
      && multiset(Buckets(strays)) == multiset(Buckets(rest)) + multiset{strays[k].bucket}
  {
    var rest := strays[..k] + strays[k + 1..];
    assert strays == strays[..k] + [strays[k]] + strays[k + 1..];
    var b := Buckets(strays);
    assert b == b[..k] + [strays[k].bucket] + b[k + 1..];
    assert Buckets(rest) == b[..k] + b[k + 1..];
  }

  lemma {:induction false} SomeLiveStray(names: seq<string>)
    ensures LiveStrays(names) != [] <==> exists n :: n in names && MatchedBucket(n).Some?
  {
    hide MatchedBucket;
    if names != [] {
      SomeLiveStray(names[1..]);
      assert forall n :: n in names <==> n == names[0] || n in names[1..];
      assert MatchedBucket(names[0]).Some? ==> LiveHead(names[0]) != [];
    }
  }

  predicate IsAged(item: TrashItem, now: real, maxAge: real) {
    MatchedBucket(item.originalName).Some? && item.deletedAt.Some? && now - item.deletedAt.value > maxAge
  }

  lemma {:induction false} SomeAgedTrash(items: seq<TrashItem>, now: real, maxAge: real)
    ensures AgedTrash(items, now, maxAge) != [] <==> exists item :: item in items && IsAged(item, now, maxAge)
  {
    hide MatchedBucket;
    if items != [] {
      SomeAgedTrash(items[1..], now, maxAge);
      assert forall item :: item in items <==> item == items[0] || item in items[1..];
      assert IsAged(items[0], now, maxAge) <==> AgedHead(items[0], now, maxAge) != [];
    }
  }

  /** The audit is red exactly when some live project carries a fixture name or some trashed fixture
      is older than the grace window; trash without a readable timestamp never counts. */
  lemma RedIffSomethingStrays(names: seq<string>, items: seq<TrashItem>, now: real, maxAge: real, hours: string)
    ensures Classified(names, items, now, maxAge, hours).verdict == Red
       <==> (|| (exists n :: n in names && MatchedBucket(n).Some?)
             || (exists item :: item in items && IsAged(item, now, maxAge)))
  {
    SomeLiveStray(names);
    SomeAgedTrash(items, now, maxAge);
    hide MatchedBucket, IsAged, LiveStrays, AgedTrash, Reason, Names;
  }

  /** The reason text depends only on which strays there are, not on their order. */
  lemma ReasonIgnoresOrder(a: seq<Stray>, b: seq<Stray>, aged: seq<Stray>, hours: string)
    requires multiset(a) == multiset(b)
    ensures Reason(a, aged, hours) == Reason(b, aged, hours) && (a == [] <==> b == [])
  {
    assert |a| == |multiset(a)| == |multiset(b)| == |b|;
    BucketsDetermined(a, b);
    assert forall y :: y in Buckets(a) <==> y in multiset(Buckets(a));
    assert forall y :: y in Buckets(b) <==> y in multiset(Buckets(b));
    Sorting.SortDependsOnElementsOnly(Buckets(a), Buckets(b));
  }

  lemma NumberThenSpace(m: nat, r: string, n: nat, t: string)
    requires Text.Digits(m) + r == Text.Digits(n) + t && r != "" && t != "" && r[0] == ' ' && t[0] == ' '
    ensures m == n
  {
    var dm, dn := Text.Digits(m), Text.Digits(n);
    hide Text.Digits;
    Text.CutUnique(ch => ch == ' ', dm, r, dn, t);
    Text.DigitsInjective(m, n);
  }

  lemma ReasonStartsWithCount(live: seq<Stray>, aged: seq<Stray>, hours: string) returns (rest: string)
    requires live != []
    ensures rest != "" && rest[0] == ' ' && Reason(live, aged, hours) == Text.Digits(|live|) + rest
  {
    hide Breakdown, Text.Digits;
    var n, tail := Text.Digits(|live|), " live stray fixture project(s) [" + Breakdown(live) + "]";
    var agedPart := Text.Digits(|aged|) + " fixture trash entr" + (if |aged| == 1 then "y" else "ies")
                  + " older than " + hours + "h [" + Breakdown(aged) + "]";
    rest := if aged == [] then tail else tail + "; " + agedPart;
    assert n + " live stray fixture project(s) [" + Breakdown(live) + "]" == n + tail;
    assert n + tail + "; " + agedPart == n + (tail + "; " + agedPart);
  }

  lemma ReasonTellsTheCount(a: seq<Stray>, b: seq<Stray>, aged: seq<Stray>, hours: string)
    requires a != [] && b != [] && |a| != |b|
    ensures Reason(a, aged, hours) != Reason(b, aged, hours)
  {
    var r := ReasonStartsWithCount(a, aged, hours);
    var t := ReasonStartsWithCount(b, aged, hours);
    hide Reason, Text.Digits;
    if Reason(a, aged, hours) == Reason(b, aged, hours) {
      NumberThenSpace(|a|, r, |b|, t);
    }
  }

  /** The filtered scan refines the full one: for every fleet of named projects, every trash inventory
      and every grace window the verdict and the aged trash are the same. The live strays with their
      multiplicity, and with them the reason text, are the same if and only if no stray is without an
      id and contains both needles. */
  lemma FilteredScanRefinesFullScan(
      fleet: seq<Project>, first: seq<Project>, second: seq<Project>,
      items: seq<TrashItem>, now: real, maxAge: real, hours: string)
    requires Named(fleet) && UniqueIds(fleet)
    requires IsPass(first, fleet, "verify") && IsPass(second, fleet, "pipeline_live")
    ensures var narrow := Classified(DisplayNames(Dedup(first + second, {})), items, now, maxAge, hours);
      var full := Classified(DisplayNames(fleet), items, now, maxAge, hours);
      var once := forall p :: p in fleet ==> !CountedTwice(p);
      && narrow.verdict == full.verdict && narrow.aged == full.aged
      && (narrow.reason == full.reason <==> once)
      && (multiset(LiveStrays(DisplayNames(Dedup(first + second, {})))) == multiset(LiveStrays(DisplayNames(fleet)))
           <==> once)
  {
    hide LiveStrays, AgedTrash, DisplayNames, Dedup, CountedTwice, IsPass, UniqueIds, Named, Reason, Names;
    PassesFindEveryStrayOnce(fleet, first, second);
    var narrow, full := LiveStrays(DisplayNames(Dedup(first + second, {}))), LiveStrays(DisplayNames(fleet));
    var aged := AgedTrash(items, now, maxAge);
    if forall p :: p in fleet ==> !CountedTwice(p) {
      ReasonIgnoresOrder(narrow, full, aged, hours);
    } else {
      ReasonTellsTheCount(narrow, full, aged, hours);
    }
  }

  /** `run_live_leak_audit`, paging and all, against a server that lists the fleet by name: unless a
      call fails, it gives the verdict a scan of the whole fleet would give, and the same reason
      exactly if no stray counts twice. */
  method RunLiveLeakAudit(ghost fleet: seq<Project>, first: seq<Project>, second: seq<Project>,
      fails1: nat -> bool, fails2: nat -> bool, trash: Option<seq<TrashItem>>, now: real, maxAge: real, hours: string)
    returns (r: Option<AuditResult>)
    requires Named(fleet) && UniqueIds(fleet)
    requires IsPass(first, fleet, "verify") && IsPass(second, fleet, "pipeline_live")
    ensures r.None? <==> SomePageFails(first, fails1) || SomePageFails(second, fails2) || trash.None?
    ensures r.Some? ==>
              var full := Classified(DisplayNames(fleet), trash.value, now, maxAge, hours);
              && r.value.verdict == full.verdict && r.value.aged == full.aged
              && (r.value.reason == full.reason <==> forall p :: p in fleet ==> !CountedTwice(p))
  {
    hide Classified, DisplayNames, Dedup, CountedTwice, IsPass, UniqueIds, Named;
    var inventory := FetchLiveLeakInventory(first, second, fails1, fails2, trash);
    if inventory.None? {
      return None;
    }
    FilteredScanRefinesFullScan(fleet, first, second, inventory.value.1, now, maxAge, hours);
    var result := ClassifyLeakAudit(inventory.value.0, inventory.value.1, now, maxAge, hours);
    r := Some(result);
  }

  lemma LowerConcat(a: string, b: string)
    ensures Text.Lower(a + b) == Text.Lower(a) + Text.Lower(b)
  {
  }

  lemma LowerOfNeedles()
    ensures Text.Lower("verify") == "verify"
    ensures |Text.Lower("pipeline_live_")| == |"pipeline_live_"| && "pipeline_live" <= Text.Lower("pipeline_live_")
  {
  }

  lemma ContainsAt(haystack: string, needle: string, i: nat)
    requires i <= |haystack| && needle <= haystack[i..]
    ensures Text.Contains(haystack, needle)
  {
  }

  lemma PipelinePrefixIsAFixture(rest: string)
    ensures MatchedBucket("pipeline_live_" + rest).Some?
  {
    var name := "pipeline_live_" + rest;
    var p := FIXTURE_PREFIXES[8];
    assert p == "pipeline_live_" && p in FIXTURE_PREFIXES && p <= name;
    assert name[0] == 'p' && "verify_editor_"[0] == 'v';
    BucketIsLongestMatch(name);
    hide MatchedBucket;
  }

  /** There are such names: any that starts with "pipeline_live_" and goes on with "verify". */
  lemma StrayWithoutIdCountsTwice(rest: string, rootPath: string)
    ensures CountedTwice(Project("", "pipeline_live_" + ("verify" + rest), rootPath))
  {
    hide MatchedBucket, Text.Lower, Text.Contains;
    var a, b := "pipeline_live_", "verify" + rest;
    PipelinePrefixIsAFixture(b);
    LowerConcat(a, b);
    LowerConcat("verify", rest);
    LowerOfNeedles();
    var lower := Text.Lower(a + b);
    assert lower[0..] == lower;
    ContainsAt(lower, "pipeline_live", 0);
    assert lower[|a|..] == Text.Lower(b);
    ContainsAt(lower, "verify", |a|);
  }
}
