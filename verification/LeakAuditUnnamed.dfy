/** Fleets with projects that have no name and are shown by their root path: the narrow passes, which
    look at names, never list them. */
module LeakAuditUnnamed {
  import opened Wrappers
  import opened LeakAudit
  import opened LeakAuditProperties
  import Text

  function NamedOnly(rows: seq<Project>): seq<Project> {
    if rows == [] then [] else (if rows[0].name != "" then [rows[0]] else []) + NamedOnly(rows[1..])
  }

  function UnnamedOnly(rows: seq<Project>): seq<Project> {
    if rows == [] then [] else (if rows[0].name == "" then [rows[0]] else []) + UnnamedOnly(rows[1..])
  }

  /** A stray only a scan of the whole fleet shows, by its root path. */
  predicate Missed(p: Project) {
    p.name == "" && MatchedBucket(p.rootPath).Some?
  }

  lemma {:induction false} LiveStraysConcat(a: seq<string>, b: seq<string>)
    ensures LiveStrays(a + b) == LiveStrays(a) + LiveStrays(b)
  {
    hide LiveHead;
    if a == [] {
      assert a + b == b;
    } else {
      assert (a + b)[1..] == a[1..] + b;
      LiveStraysConcat(a[1..], b);
    }
  }

  lemma {:induction false} DisplayNamesConcat(a: seq<Project>, b: seq<Project>)
    ensures DisplayNames(a + b) == DisplayNames(a) + DisplayNames(b)
  {
    hide DisplayName;
    if a == [] {
      assert a + b == b;
    } else {
      assert (a + b)[1..] == a[1..] + b;
      DisplayNamesConcat(a[1..], b);
    }
  }

  function StraysShown(rows: seq<Project>): multiset<Stray> {
    multiset(LiveStrays(DisplayNames(rows)))
  }

  lemma ShownConcat(a: seq<Project>, b: seq<Project>)
    ensures StraysShown(a + b) == StraysShown(a) + StraysShown(b)
  {
    hide LiveStrays, DisplayNames;
    DisplayNamesConcat(a, b);
    LiveStraysConcat(DisplayNames(a), DisplayNames(b));
  }

  lemma Unfold(rows: seq<Project>)
    requires rows != []
    ensures rows == [rows[0]] + rows[1..]
    ensures NamedOnly(rows) == if rows[0].name != "" then [rows[0]] + NamedOnly(rows[1..]) else NamedOnly(rows[1..])
    ensures UnnamedOnly(rows) == if rows[0].name == "" then [rows[0]] + UnnamedOnly(rows[1..])
      else UnnamedOnly(rows[1..])
  {
  }

  lemma {:induction false} SplitByName(rows: seq<Project>)
    ensures StraysShown(rows) == StraysShown(NamedOnly(rows)) + StraysShown(UnnamedOnly(rows))
  {
    if rows != [] {
      hide *;
      SplitByName(rows[1..]);
      Unfold(rows);
      ShownConcat([rows[0]], rows[1..]);
      ShownConcat([rows[0]], NamedOnly(rows[1..]));
      ShownConcat([rows[0]], UnnamedOnly(rows[1..]));
    }
  }

  lemma {:induction false} NamedOnlyCount(rows: seq<Project>)
    ensures forall p: Project :: multiset(NamedOnly(rows))[p] == if p.name != "" then multiset(rows)[p] else 0
  {
    if rows != [] {
      hide *;
      NamedOnlyCount(rows[1..]);
      Unfold(rows);
      Counts(rows[0], rows[1..]);
      Counts(rows[0], NamedOnly(rows[1..]));
    }
  }

  lemma {:induction false} NamedOnlyUnique(rows: seq<Project>)
    requires UniqueIds(rows)
    ensures UniqueIds(NamedOnly(rows))
  {
    if rows != [] {
      hide NamedOnly;
      Unfold(rows);
      var rest := rows[1..];
      NamedOnlyMembers(rest);
      forall i, j | 0 <= i < j < |rest|
        ensures rest[i].id == "" || rest[i].id != rest[j].id
      {
        assert rest[i] == rows[i + 1] && rest[j] == rows[j + 1];
      }
      NamedOnlyUnique(rest);
      forall j | 0 <= j < |NamedOnly(rest)|
        ensures rows[0].id == "" || rows[0].id != NamedOnly(rest)[j].id
      {
        assert NamedOnly(rest)[j] in rest;
        var k :| 0 <= k < |rest| && rest[k] == NamedOnly(rest)[j];
        assert rows[k + 1] == rest[k];
      }
    }
  }

  lemma NamedOnlyMembers(rows: seq<Project>)
    ensures forall p: Project :: p in NamedOnly(rows) <==> p in rows && p.name != ""
  {
    NamedOnlyCount(rows);
    hide *;
    forall p: Project
      ensures p in NamedOnly(rows) <==> p in rows && p.name != ""
    {
      assert p in NamedOnly(rows) <==> multiset(NamedOnly(rows))[p] > 0;
      assert p in rows <==> multiset(rows)[p] > 0;
    }
  }

  lemma NamedOnlyAre(rows: seq<Project>)
    ensures forall p: Project :: multiset(NamedOnly(rows))[p] == if p.name != "" then multiset(rows)[p] else 0
    ensures forall p: Project :: p in NamedOnly(rows) <==> p in rows && p.name != ""
    ensures Named(NamedOnly(rows)) && (UniqueIds(rows) ==> UniqueIds(NamedOnly(rows)))
  {
    NamedOnlyCount(rows);
    NamedOnlyMembers(rows);
    if UniqueIds(rows) {
      NamedOnlyUnique(rows);
    }
    hide NamedOnly, UniqueIds;
    assert forall i :: 0 <= i < |NamedOnly(rows)| ==> NamedOnly(rows)[i] in NamedOnly(rows);
  }

  lemma PassOfNamed(listing: seq<Project>, fleet: seq<Project>, needle: string)
    requires IsPass(listing, fleet, needle) && needle != ""
    ensures IsPass(listing, NamedOnly(fleet), needle)
  {
    NamedOnlyAre(fleet);
    forall p: Project | p.name == ""
      ensures !NameContains(p, needle)
    {
    }
    hide NameContains, NamedOnly;
  }

  lemma {:induction false} SomeMissed(rows: seq<Project>)
    ensures LiveStrays(DisplayNames(UnnamedOnly(rows))) == [] <==> forall p :: p in rows ==> !Missed(p)
  {
    if rows != [] {
      SomeMissed(rows[1..]);
      var rest, head := UnnamedOnly(rows[1..]), [rows[0]];
      assert forall p :: p in rows <==> p == rows[0] || p in rows[1..];
      assert [] + rest == rest;
      DisplayNamesConcat(head, rest);
      LiveStraysConcat(DisplayNames(head), DisplayNames(rest));
      OneShown(rows[0]);
      hide LiveStrays, DisplayNames, Missed;
    }
  }

  lemma OneShown(p: Project)
    ensures p.name == "" ==> (LiveStrays(DisplayNames([p])) == [] <==> !Missed(p))
    ensures p.name != "" ==> !Missed(p)
  {
    hide MatchedBucket;
    NoNameNoBucket();
    assert [p][1..] == [] && DisplayNames([p][1..]) == [];
    var names := DisplayNames([p]);
    assert names == (if DisplayName(p) != "" then [DisplayName(p)] else []) + [];
    if names != [] {
      assert names == [DisplayName(p)] && names[1..] == [];
      assert LiveStrays(names) == LiveHead(DisplayName(p)) + [];
    }
  }

  lemma NoNameNoBucket()
    ensures MatchedBucket("").None?
  {
  }

  lemma NoShown(rows: seq<Project>)
    ensures StraysShown(rows) == multiset{} <==> LiveStrays(DisplayNames(rows)) == []
  {
    hide LiveStrays, DisplayNames;
    var s := LiveStrays(DisplayNames(rows));
    assert |multiset(s)| == |s|;
  }

  /** For every fleet with unique ids. As long as no stray counts twice, the passes find its strays with
      their multiplicity if and only if none is an unnamed project; and the audit gives the verdict of a
      full scan if and only if no unnamed stray exists, or something else makes it red anyway: a stray
      found through the passes, or aged trash. */
  lemma UnnamedStraysAreMissed(
      fleet: seq<Project>, first: seq<Project>, second: seq<Project>,
      items: seq<TrashItem>, now: real, maxAge: real, hours: string)
    requires UniqueIds(fleet)
    requires IsPass(first, fleet, "verify") && IsPass(second, fleet, "pipeline_live")
    ensures var narrow, full := DisplayNames(Dedup(first + second, {})), DisplayNames(fleet);
      var named := forall p :: p in fleet ==> !Missed(p);
      && ((forall p :: p in fleet ==> !CountedTwice(p)) ==>
            (multiset(LiveStrays(narrow)) == multiset(LiveStrays(full)) <==> named))
      && (Classified(narrow, items, now, maxAge, hours).verdict == Classified(full, items, now, maxAge, hours).verdict
          <==> named || LiveStrays(narrow) != [] || AgedTrash(items, now, maxAge) != [])
  {
    var kept := Dedup(first + second, {});
    NamedOnlyAre(fleet);
    PassOfNamed(first, fleet, "verify");
    PassOfNamed(second, fleet, "pipeline_live");
    PassesFindEveryStrayOnce(NamedOnly(fleet), first, second);
    SplitByName(fleet);
    SomeMissed(fleet);
    NoShown(kept);
    NoShown(fleet);
    NoShown(NamedOnly(fleet));
    NoShown(UnnamedOnly(fleet));
    NamedTwice(fleet);
    hide LiveStrays, AgedTrash, DisplayNames, Dedup, CountedTwice, Missed, IsPass, UniqueIds, Named, Reason, Names;
    hide NamedOnly, UnnamedOnly;
  }

  lemma NamedTwice(fleet: seq<Project>)
    ensures (forall p :: p in fleet ==> !CountedTwice(p)) <==> forall p :: p in NamedOnly(fleet) ==> !CountedTwice(p)
  {
    NamedOnlyAre(fleet);
    NoNameNoBucket();
    hide MatchedBucket, NamedOnly, NameContains;
  }
}
