/** The live-server leak audit: which project names are livetest fixtures, the paged and filtered
    inventory fetch, and the verdict. */
module LeakAudit {
  import opened Wrappers
  import Text
  import Sorting

  const EXCLUDED_PREFIXES: seq<string> := ["verify_editor_"]

  const FIXTURE_PREFIXES: seq<string> := [
    "verify-global-search-", "verify_lock_", "verify_indexer_usage_idem_", "verify_vecbatchcap_",
    "verify_vecdimparity_", "verify_worker_activity_", "verify_ignore_parity_", "verify_trashrestore_",
    "pipeline_live_", "verify_live_", "verify_"]

  const PAGE_SIZE: nat := 200

  function FirstPrefix(prefixes: seq<string>, name: string): Option<string> {
    if prefixes == [] then None
    else if prefixes[0] <= name then Some(prefixes[0])
    else FirstPrefix(prefixes[1..], name)
  }

  /** `_matched_bucket` */
  function MatchedBucket(name: string): Option<string> {
    if name == "" || FirstPrefix(EXCLUDED_PREFIXES, name).Some? then None
    else FirstPrefix(FIXTURE_PREFIXES, name)
  }

  // ---------------------------------------------------------------- classification

  /** `deletedAt` is the parsed timestamp, absent when it does not parse. */
  datatype TrashItem = TrashItem(originalName: string, folderName: string, deletedAt: Option<real>)

  datatype Stray = Stray(name: string, bucket: string)

  datatype Verdict = Green | Red

  datatype AuditResult = AuditResult(verdict: Verdict, reason: string, live: seq<string>, aged: seq<string>)

  /** What one project name contributes to the live strays. */
  function LiveHead(name: string): seq<Stray> {
    var b := MatchedBucket(name);
    if b.Some? then [Stray(name, b.value)] else []
  }

  /** What one trash item contributes to the aged strays. */
  function AgedHead(item: TrashItem, now: real, maxAge: real): seq<Stray> {
    var b := MatchedBucket(item.originalName);
    if b.Some? && item.deletedAt.Some? && now - item.deletedAt.value > maxAge
    then [Stray(if item.folderName != "" then item.folderName else item.originalName, b.value)] else []
  }

  function LiveStrays(names: seq<string>): seq<Stray> {
    if names == [] then [] else LiveHead(names[0]) + LiveStrays(names[1..])
  }

  function AgedTrash(items: seq<TrashItem>, now: real, maxAge: real): seq<Stray> {
    if items == [] then [] else AgedHead(items[0], now, maxAge) + AgedTrash(items[1..], now, maxAge)
  }

  function Names(strays: seq<Stray>): seq<string> {
    seq(|strays|, i requires 0 <= i < |strays| => strays[i].name)
  }

  function Buckets(strays: seq<Stray>): seq<string> {
    seq(|strays|, i requires 0 <= i < |strays| => strays[i].bucket)
  }

  /** `", ".join(f"{n}x {bucket}" ...)` over the given buckets */
  function JoinCounts(buckets: seq<string>, counts: multiset<string>): string {
    if buckets == [] then ""
    else
      var first := Text.Digits(counts[buckets[0]]) + "x " + buckets[0];
      if |buckets| == 1 then first else first + ", " + JoinCounts(buckets[1..], counts)
  }

  function Breakdown(strays: seq<Stray>): string {
    JoinCounts(Sorting.SortDistinct(Buckets(strays)), multiset(Buckets(strays)))
  }

  /** The reason text; `hours` is the grace window as formatted. */
  function Reason(live: seq<Stray>, aged: seq<Stray>, hours: string): string {
    var livePart := Text.Digits(|live|) + " live stray fixture project(s) [" + Breakdown(live) + "]";
    var agedPart := Text.Digits(|aged|) + " fixture trash entr" + (if |aged| == 1 then "y" else "ies")
                  + " older than " + hours + "h [" + Breakdown(aged) + "]";
    if live == [] && aged == [] then "no live or aged-trash fixture strays found"
    else if aged == [] then livePart
    else if live == [] then agedPart
    else livePart + "; " + agedPart
  }

  function Classified(names: seq<string>, items: seq<TrashItem>, now: real, maxAge: real, hours: string): AuditResult {
    var live, aged := LiveStrays(names), AgedTrash(items, now, maxAge);
    AuditResult(if live == [] && aged == [] then Green else Red, Reason(live, aged, hours), Names(live), Names(aged))
  }

  lemma LiveStep(names: seq<string>, i: nat, live: seq<Stray>, all: seq<Stray>)
    requires i <= |names|
    ensures i < |names| && live + LiveStrays(names[i..]) == all ==>
      live + LiveHead(names[i]) + LiveStrays(names[i + 1..]) == all
    ensures i == |names| ==> live + LiveStrays(names[i..]) == live
    ensures names[0..] == names
  {
    hide MatchedBucket;
    if i < |names| {
      assert names[i..][1..] == names[i + 1..];
    }
  }

  lemma AgedStep(items: seq<TrashItem>, now: real, maxAge: real, i: nat, aged: seq<Stray>, all: seq<Stray>)
    requires i <= |items|
    ensures i < |items| && aged + AgedTrash(items[i..], now, maxAge) == all ==>
              aged + AgedHead(items[i], now, maxAge) + AgedTrash(items[i + 1..], now, maxAge) == all
    ensures i == |items| ==> aged + AgedTrash(items[i..], now, maxAge) == aged
    ensures items[0..] == items
  {
    hide MatchedBucket;
    if i < |items| {
      assert items[i..][1..] == items[i + 1..];
    }
  }

  /** `classify_leak_audit` */
  method ClassifyLeakAudit(names: seq<string>, items: seq<TrashItem>, now: real, maxAge: real, hours: string)
    returns (r: AuditResult)
    ensures r == Classified(names, items, now, maxAge, hours)
  {
    hide MatchedBucket, LiveStrays, AgedTrash, Reason, Names;
    ghost var allLive, allAged := LiveStrays(names), AgedTrash(items, now, maxAge);
    var live: seq<Stray> := [];
    LiveStep(names, 0, [], allLive);
    var i := 0;
    while i < |names|
      invariant 0 <= i <= |names|
      invariant live + LiveStrays(names[i..]) == allLive
    {
      LiveStep(names, i, live, allLive);
      var bucket := MatchedBucket(names[i]);
      if bucket.Some? {
        live := live + [Stray(names[i], bucket.value)];
      } else {
        assert live + [] == live;
      }
      i := i + 1;
    }
    LiveStep(names, i, live, allLive);
    var aged: seq<Stray> := [];
    AgedStep(items, now, maxAge, 0, [], allAged);
    i := 0;
    while i < |items|
      invariant 0 <= i <= |items|
      invariant aged + AgedTrash(items[i..], now, maxAge) == allAged
    {
      AgedStep(items, now, maxAge, i, aged, allAged);
      var item := items[i];
      var bucket := MatchedBucket(item.originalName);
      if bucket.Some? && item.deletedAt.Some? && now - item.deletedAt.value > maxAge {
        aged := aged + [Stray(if item.folderName != "" then item.folderName else item.originalName, bucket.value)];
      } else {
        assert aged + [] == aged;
      }
      i := i + 1;
    }
    AgedStep(items, now, maxAge, i, aged, allAged);
    r := AuditResult(if live == [] && aged == [] then Green else Red,
      Reason(live, aged, hours), Names(live), Names(aged));
  }

  // ---------------------------------------------------------------- the inventory

  datatype Project = Project(id: string, name: string, rootPath: string)

  datatype PageReply = PageFailed | Page(items: seq<Project>, hasMore: bool)

  /** One page of a listing that does not change while it is paged through. */
  function ServePage(listing: seq<Project>, block: nat, fails: nat -> bool): PageReply
    requires block >= 1
  {
    if fails(block) then PageFailed
    else
      var offset := (block - 1) * PAGE_SIZE;
      var from := if offset < |listing| then offset else |listing|;
      var to := if offset + PAGE_SIZE < |listing| then offset + PAGE_SIZE else |listing|;
      Page(listing[from..to], offset + (to - from) < |listing|)
  }

  function PageCount(listing: seq<Project>): nat {
    if listing == [] then 1 else (|listing| + PAGE_SIZE - 1) / PAGE_SIZE
  }

  /** `_fetch_all_pages` asks for every page once, in order, and returns the whole listing; if a page
      fails it raises instead. */
  method FetchAllPages(listing: seq<Project>, fails: nat -> bool) returns (items: Option<seq<Project>>, asked: nat)
    ensures items == if exists b :: 1 <= b <= PageCount(listing) && fails(b) then None else Some(listing)
    ensures items.Some? ==> asked == PageCount(listing)
  {
    var all: seq<Project> := [];
    asked := 0;
    var more := true;
    while more
      invariant asked <= PageCount(listing)
      invariant forall b :: 1 <= b <= asked ==> !fails(b)
      invariant more ==>
        asked < PageCount(listing) && asked * PAGE_SIZE <= |listing| && all == listing[..asked * PAGE_SIZE]
      invariant !more ==> asked == PageCount(listing) && all == listing
      decreases PageCount(listing) - asked
    {
      asked := asked + 1;
      match ServePage(listing, asked, fails)
      case PageFailed => return None, asked;
      case Page(page, hasMore) =>
        all := all + page;
        more := hasMore;
    }
    items := Some(all);
  }

  /** The rows of both passes with every id kept once; rows without an id are all kept. */
  function Dedup(rows: seq<Project>, seen: set<string>): seq<Project> {
    if rows == [] then []
    else if rows[0].id != "" && rows[0].id in seen then Dedup(rows[1..], seen)
    else [rows[0]] + Dedup(rows[1..], if rows[0].id != "" then seen + {rows[0].id} else seen)
  }

  function DisplayName(p: Project): string {
    if p.name != "" then p.name else p.rootPath
  }

  function DisplayNames(rows: seq<Project>): seq<string> {
    if rows == [] then []
    else (if DisplayName(rows[0]) != "" then [DisplayName(rows[0])] else []) + DisplayNames(rows[1..])
  }

  /** What one row contributes, and which ids have been seen after it. */
  function Contribution(row: Project, seen: set<string>): (seq<string>, set<string>) {
    if row.id != "" && row.id in seen then ([], seen)
    else (if DisplayName(row) != "" then [DisplayName(row)] else [], if row.id != "" then seen + {row.id} else seen)
  }

  lemma CollectStep(rows: seq<Project>, seen: set<string>, i: nat, names: seq<string>, all: seq<string>)
    requires i <= |rows|
    ensures i < |rows| && names + DisplayNames(Dedup(rows[i..], seen)) == all ==>
              var (more, next) := Contribution(rows[i], seen);
              names + more + DisplayNames(Dedup(rows[i + 1..], next)) == all
    ensures i == |rows| ==> names + DisplayNames(Dedup(rows[i..], seen)) == names
    ensures rows[0..] == rows
  {
    hide DisplayName;
    if i < |rows| {
      assert rows[i..][1..] == rows[i + 1..];
      var row := rows[i];
      if !(row.id != "" && row.id in seen) {
        var kept := Dedup(rows[i + 1..], if row.id != "" then seen + {row.id} else seen);
        assert ([row] + kept)[1..] == kept;
      } else {
        assert names + [] == names;
      }
    }
  }

  /** The loop of `fetch_live_leak_inventory` over the rows of its two passes, in order. */
  method CollectNames(rows: seq<Project>) returns (names: seq<string>)
    ensures names == DisplayNames(Dedup(rows, {}))
  {
    hide DisplayName, DisplayNames, Dedup;
    ghost var all := DisplayNames(Dedup(rows, {}));
    names := [];
    var seen: set<string> := {};
    CollectStep(rows, {}, 0, [], all);
    var i := 0;
    while i < |rows|
      invariant 0 <= i <= |rows|
      invariant names + DisplayNames(Dedup(rows[i..], seen)) == all
    {
      CollectStep(rows, seen, i, names, all);
      var row := rows[i];
      assert names + [] == names;
      if !(row.id != "" && row.id in seen) {
        if row.id != "" {
          seen := seen + {row.id};
        }
        if DisplayName(row) != "" {
          names := names + [DisplayName(row)];
        }
      }
      i := i + 1;
    }
    CollectStep(rows, seen, i, names, all);
  }

  predicate SomePageFails(listing: seq<Project>, fails: nat -> bool) {
    exists b :: 1 <= b <= PageCount(listing) && fails(b)
  }

  /** `fetch_live_leak_inventory`: the two passes, paged, then the trash in one call (absent when that
      call fails). None is a raised error. */
  method FetchLiveLeakInventory(first: seq<Project>, second: seq<Project>, fails1: nat -> bool, fails2: nat -> bool,
      trash: Option<seq<TrashItem>>)
    returns (r: Option<(seq<string>, seq<TrashItem>)>)
    ensures r == if SomePageFails(first, fails1) || SomePageFails(second, fails2) || trash.None? then None
                 else Some((DisplayNames(Dedup(first + second, {})), trash.value))
  {
    var rows1, _ := FetchAllPages(first, fails1);
    if rows1.None? {
      return None;
    }
    var rows2, _ := FetchAllPages(second, fails2);
    if rows2.None? {
      return None;
    }
    var names := CollectNames(rows1.value + rows2.value);
    if trash.None? {
      return None;
    }
    r := Some((names, trash.value));
  }
}
