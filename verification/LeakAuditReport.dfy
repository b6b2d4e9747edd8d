/** What the report of an audit lists and counts. */
module LeakAuditReport {
  import opened Wrappers
  import opened LeakAudit
  import opened LeakAuditProperties
  import Text
  import TextProperties
  import Sorting

  // ---------------------------------------------------------------- which names are fixtures

  /** A name a live test gives its project: one of three stems, and not another project's fixture. */
  predicate FixtureName(name: string) {
    && ("verify_" <= name || "verify-global-search-" <= name || "pipeline_live_" <= name)
    && !("verify_editor_" <= name)
  }

  /** The eleven prefixes, spelled out. */
  predicate IsPrefix(p: string) {
    || p == "verify-global-search-" || p == "verify_lock_" || p == "verify_indexer_usage_idem_"
    || p == "verify_vecbatchcap_" || p == "verify_vecdimparity_" || p == "verify_worker_activity_"
    || p == "verify_ignore_parity_" || p == "verify_trashrestore_" || p == "pipeline_live_"
    || p == "verify_live_" || p == "verify_"
  }

  lemma ThePrefixes(p: string)
    ensures IsPrefix(p) <==> p in FIXTURE_PREFIXES
    ensures IsPrefix(p) ==> "verify_" <= p || p == "verify-global-search-" || p == "pipeline_live_"
  {
    var all := FIXTURE_PREFIXES;
    assert all[0] == "verify-global-search-" && all[1] == "verify_lock_" && all[2] == "verify_indexer_usage_idem_";
    assert all[3] == "verify_vecbatchcap_" && all[4] == "verify_vecdimparity_" && all[5] == "verify_worker_activity_";
    assert all[6] == "verify_ignore_parity_" && all[7] == "verify_trashrestore_" && all[8] == "pipeline_live_";
    assert all[9] == "verify_live_" && all[10] == "verify_";
    assert |all| == 11;
    if p in all {
      var i :| 0 <= i < |all| && all[i] == p;
    }
  }

  /** A name's bucket is the longest of the eleven prefixes it starts with, and it has one exactly when
      it is a fixture's name. */
  lemma BucketOf(name: string)
    ensures MatchedBucket(name).Some? <==> FixtureName(name)
    ensures MatchedBucket(name).Some? ==>
              var b := MatchedBucket(name).value;
              && IsPrefix(b) && b <= name
              && forall p :: IsPrefix(p) && p <= name ==> |p| <= |b|
  {
    BucketIsLongestMatch(name);
    hide MatchedBucket, FIXTURE_PREFIXES, IsPrefix;
    forall p
      ensures IsPrefix(p) <==> p in FIXTURE_PREFIXES
      ensures IsPrefix(p) ==> "verify_" <= p || p == "verify-global-search-" || p == "pipeline_live_"
    {
      ThePrefixes(p);
    }
    ThreeStems();
    if p :| p in FIXTURE_PREFIXES && p <= name && "verify_" <= p {
      assert "verify_" <= name;
    }
  }

  lemma ThreeStems()
    ensures IsPrefix("verify_") && IsPrefix("verify-global-search-") && IsPrefix("pipeline_live_")
  {
  }

  // ---------------------------------------------------------------- what is listed

  function Filter<T>(s: seq<T>, keep: T -> bool): seq<T> {
    if s == [] then [] else (if keep(s[0]) then [s[0]] else []) + Filter(s[1..], keep)
  }

  function Each<T, U>(s: seq<T>, f: T -> U): seq<U> {
    if s == [] then [] else [f(s[0])] + Each(s[1..], f)
  }

  /** The folder a trashed fixture lies in; where none is recorded, its original name. */
  predicate ShownAs(item: TrashItem, shown: string) {
    if item.folderName == "" then shown == item.originalName else shown == item.folderName
  }

  predicate AgedFixture(item: TrashItem, now: real, maxAge: real) {
    FixtureName(item.originalName) && item.deletedAt.Some? && item.deletedAt.value + maxAge < now
  }

  lemma {:induction false} LiveNames(names: seq<string>)
    ensures Names(LiveStrays(names)) == Filter(names, FixtureName)
  {
    if names != [] {
      LiveNames(names[1..]);
      BucketOf(names[0]);
      var rest := LiveStrays(names[1..]);
      assert Names([] + rest) == Names(rest);
      assert forall s: Stray :: Names([s] + rest) == [s.name] + Names(rest);
      hide MatchedBucket, FixtureName;
    }
  }

  lemma AgedOne(item: TrashItem, now: real, maxAge: real, shown: string)
    requires ShownAs(item, shown)
    ensures Names(AgedHead(item, now, maxAge)) == if AgedFixture(item, now, maxAge) then [shown] else []
  {
    BucketOf(item.originalName);
    hide MatchedBucket, FixtureName;
  }

  lemma NamesConcat(a: seq<Stray>, b: seq<Stray>)
    ensures Names(a + b) == Names(a) + Names(b)
  {
  }

  lemma {:induction false} AgedNames(items: seq<TrashItem>, now: real, maxAge: real, keep: TrashItem -> bool,
      f: TrashItem -> string)
    requires forall item: TrashItem :: ShownAs(item, f(item))
    requires forall item: TrashItem :: keep(item) == AgedFixture(item, now, maxAge)
    ensures Names(AgedTrash(items, now, maxAge)) == Each(Filter(items, keep), f)
  {
    hide AgedHead, AgedFixture, ShownAs;
    if items != [] {
      AgedNames(items[1..], now, maxAge, keep, f);
      AgedOne(items[0], now, maxAge, f(items[0]));
      NamesConcat(AgedHead(items[0], now, maxAge), AgedTrash(items[1..], now, maxAge));
      EachHead(items[0], Filter(items[1..], keep), f);
    } else {
      assert Names([]) == [];
    }
  }

  lemma EachHead<T, U>(x: T, s: seq<T>, f: T -> U)
    ensures Each([x] + s, f) == [f(x)] + Each(s, f) && [] + s == s
  {
    assert ([x] + s)[1..] == s;
  }

  /** An audit lists the live fixtures by name and the aged trashed ones by folder, each list in the
      order of the inventory, and is red exactly when either list has an entry. */
  lemma WhatAnAuditLists(names: seq<string>, items: seq<TrashItem>, now: real, maxAge: real, hours: string,
      keep: TrashItem -> bool, f: TrashItem -> string)
    requires forall item: TrashItem :: ShownAs(item, f(item))
    requires forall item: TrashItem :: keep(item) == AgedFixture(item, now, maxAge)
    ensures var r := Classified(names, items, now, maxAge, hours);
      && r.live == Filter(names, FixtureName)
      && r.aged == Each(Filter(items, keep), f)
      && (r.verdict == Red <==> r.live != [] || r.aged != [])
  {
    LiveNames(names);
    AgedNames(items, now, maxAge, keep, f);
    hide LiveStrays, AgedTrash, Reason;
  }

  /** The names an inventory hands over are those of its rows, in order: the name, else the root path,
      and nothing for a row with neither. */
  lemma {:induction false} NamesHandedOver(rows: seq<Project>, shown: Project -> string)
    requires forall p: Project :: shown(p) == if p.name == "" then p.rootPath else p.name
    ensures DisplayNames(rows) == Filter(Each(rows, shown), n => n != "")
  {
    if rows != [] {
      NamesHandedOver(rows[1..], shown);
      assert Each(rows, shown)[1..] == Each(rows[1..], shown);
    }
  }

  /** Of the rows listed, one more is handed over unless its id has been seen in a row before it. */
  lemma {:induction false} RowsHandedOver(rows: seq<Project>, seen: set<string>, last: Project)
    ensures Dedup(rows + [last], seen)
         == Dedup(rows, seen)
            + if last.id != "" && (last.id in seen || exists r :: r in rows && r.id == last.id) then [] else [last]
    decreases |rows|
  {
    if rows == [] {
      assert rows + [last] == [last] && [last][1..] == [];
    } else {
      var first, rest := rows[0], rows[1..];
      assert (rows + [last])[1..] == rest + [last] && (rows + [last])[0] == first;
      RowsHandedOver(rest, if first.id != "" then seen + {first.id} else seen, last);
      RowsHandedOver(rest, seen, last);
      assert forall r :: r in rows <==> r == first || r in rest;
    }
  }

  // ---------------------------------------------------------------- what is counted

  function Joined(parts: seq<string>, mark: string): string {
    if parts == [] then "" else if |parts| == 1 then parts[0] else parts[0] + mark + Joined(parts[1..], mark)
  }

  /** How many strays are in this bucket. */
  function InBucket(strays: seq<Stray>, bucket: string): nat {
    |Filter(strays, (s: Stray) => s.bucket == bucket)|
  }

  lemma {:induction false} InBucketIsCount(strays: seq<Stray>, bucket: string)
    ensures multiset(Buckets(strays))[bucket] == InBucket(strays, bucket)
    ensures InBucket(strays, bucket) > 0 <==> bucket in Buckets(strays)
  {
    if strays == [] {
      assert Buckets(strays) == [];
    } else {
      InBucketIsCount(strays[1..], bucket);
      assert Buckets(strays) == [strays[0].bucket] + Buckets(strays[1..]);
    }
  }

  lemma {:induction false} JoinCountsJoins(strays: seq<Stray>, buckets: seq<string>, f: string -> string)
    requires forall b :: f(b) == Text.Digits(InBucket(strays, b)) + "x " + b
    ensures JoinCounts(buckets, multiset(Buckets(strays))) == Joined(Each(buckets, f), ", ")
  {
    if buckets != [] {
      InBucketIsCount(strays, buckets[0]);
      JoinCountsJoins(strays, buckets[1..], f);
      hide Text.Digits, InBucket, Buckets;
      assert Each(buckets, f)[1..] == Each(buckets[1..], f) && Each(buckets, f)[0] == f(buckets[0]);
      EachLength(buckets, f);
    }
  }

  lemma {:induction false} EachLength<T, U>(s: seq<T>, f: T -> U)
    ensures |Each(s, f)| == |s|
  {
    if s != [] {
      EachLength(s[1..], f);
    }
  }

  /** The breakdown shows every bucket that occurs, in order and once, with the number of its strays. */
  lemma WhatTheBreakdownCounts(strays: seq<Stray>, f: string -> string) returns (buckets: seq<string>)
    requires forall b :: f(b) == Text.Digits(InBucket(strays, b)) + "x " + b
    ensures Sorting.StrictlySorted(buckets) && forall b :: b in buckets <==> InBucket(strays, b) > 0
    ensures Breakdown(strays) == Joined(Each(buckets, f), ", ")
  {
    buckets := Sorting.SortDistinct(Buckets(strays));
    Sorting.SortDistinctSorts(Buckets(strays));
    forall b
      ensures b in buckets <==> InBucket(strays, b) > 0
    {
      InBucketIsCount(strays, b);
    }
    JoinCountsJoins(strays, buckets, f);
  }

  /** The reason of a red audit: how many live strays and how many aged ones, each with its breakdown,
      and of both only what there is. */
  lemma WhatTheReasonSays(live: seq<Stray>, aged: seq<Stray>, hours: string, parts: seq<string>)
    requires live != [] || aged != []
    requires var l := Text.Digits(|live|) + " live stray fixture project(s) [" + Breakdown(live) + "]";
      var a := Text.Digits(|aged|) + " fixture trash entr" + (if |aged| == 1 then "y" else "ies")
             + " older than " + hours + "h [" + Breakdown(aged) + "]";
      parts == (if |live| > 0 then [l] else []) + (if |aged| > 0 then [a] else [])
    ensures Reason(live, aged, hours) == Joined(parts, "; ")
  {
    hide Breakdown, Text.Digits;
    if |parts| == 2 {
      assert parts[1..] == [parts[1]] && Joined(parts[1..], "; ") == parts[1];
    }
  }
}
