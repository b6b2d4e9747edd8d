/** Moving runtime state out of a checkout: entries of one directory into another, with an abort
    where a destination exists, and the command around it. */
module MoveState {
  import opened Wrappers
  import Sorting

  /** What a directory entry is; contents are compared, never inspected. */
  datatype Item = File(data: string) | Dir(tree: string) | Link(to: string)

  /** How far a copy got when the operating system would not rename: done, stopped by an error while
      copying with part of it written, or stopped while removing the original. */
  datatype Fault = Clean | CopyStops(partial: Option<Item>) | RemoveStops(left: Item)

  datatype Attempt = Attempt(renames: bool, fault: Fault)

  /** The world around one call: what happens to each entry, and which links of the target lead nowhere. */
  datatype World = World(attempt: string -> Attempt, broken: set<string>)

  type Entries = map<string, Item>

  function At(entries: Entries, name: string): Option<Item> {
    if name in entries then Some(entries[name]) else None
  }

  /** The destination is a link that leads nowhere, which `exists()` reports as absent. */
  predicate Dangling(w: World, dest: Option<Item>, name: string) {
    dest.Some? && dest.value.Link? && name in w.broken
  }

  /** `destination.exists()` */
  predicate Occupied(w: World, dest: Option<Item>, name: string) {
    dest.Some? && !Dangling(w, dest, name)
  }

  /** What one turn of the loop leaves of an entry, on both sides, and whether it raised. */
  datatype Turn = Turn(source: Option<Item>, target: Option<Item>, raised: bool)

  /** `shutil.move` onto a destination that is absent or a dangling link. Renaming replaces such a
      link unless a directory is moved. Without rename, a link and a directory cannot be created over
      it, and a file is written through it, to wherever it points. */
  function Move(w: World, item: Item, dest: Option<Item>, name: string): Turn {
    var a := w.attempt(name);
    if Dangling(w, dest, name) then
      if item.Dir? || (item.Link? && !a.renames) then Turn(Some(item), dest, true)
      else if a.renames then Turn(None, Some(item), false)
      else match a.fault
        case Clean => Turn(None, dest, false)
        case _ => Turn(Some(item), dest, true)
    else if a.renames then Turn(None, Some(item), false)
    else match a.fault
      case Clean => Turn(None, Some(item), false)
      case CopyStops(partial) => Turn(Some(item), partial, true)
      case RemoveStops(left) => Turn(Some(if item.Dir? then left else item), Some(item), true)
  }

  /** One turn of the loop of `_move_entries`. */
  function TurnFor(w: World, item: Item, dest: Option<Item>, name: string): Turn {
    if Occupied(w, dest, name) then Turn(Some(item), dest, true) else Move(w, item, dest, name)
  }

  function Set(entries: Entries, name: string, item: Option<Item>): Entries {
    if item.Some? then entries[name := item.value] else entries - {name}
  }

  class Directory {
    var entries: Entries

    constructor (entries: Entries)
      ensures this.entries == entries
    {
      this.entries := entries;
    }
  }

  datatype Outcome = Outcome(source: Entries, target: Entries, ok: bool)

  /** The whole loop over the names, up to the first that raises. */
  function MovedAll(w: World, source: Entries, target: Entries, names: seq<string>): Outcome
    requires forall i, j :: 0 <= i < j < |names| ==> names[i] != names[j]
    requires forall n :: n in names ==> n in source
    decreases |names|
  {
    if names == [] then Outcome(source, target, true)
    else
      var t := TurnFor(w, source[names[0]], At(target, names[0]), names[0]);
      var source', target' := Set(source, names[0], t.source), Set(target, names[0], t.target);
      if t.raised then Outcome(source', target', false)
      else MovedAll(w, source', target', names[1..])
  }

  /** `_move_entries`; false is the raised SystemExit or error. */
  method MoveEntries(w: World, root: Directory, target: Directory, names: seq<string>) returns (ok: bool)
    requires root != target
    requires forall i, j :: 0 <= i < j < |names| ==> names[i] != names[j]
    requires forall n :: n in names ==> n in root.entries
    modifies root, target
    ensures Outcome(root.entries, target.entries, ok) == MovedAll(w, old(root.entries), old(target.entries), names)
  {
    var i := 0;
    while i < |names|
      invariant 0 <= i <= |names|
      invariant forall n :: n in names[i..] ==> n in root.entries
      invariant MovedAll(w, root.entries, target.entries, names[i..])
        == MovedAll(w, old(root.entries), old(target.entries), names)
    {
      var name := names[i];
      assert name in names[i..];
      assert names[i..][1..] == names[i + 1..];
      forall n | n in names[i + 1..]
        ensures n in names[i..] && n != name
      {
        assert n in names[i..][1..];
      }
      if Occupied(w, At(target.entries, name), name) {
        assert root.entries[name := root.entries[name]] == root.entries;
        assert target.entries[name := target.entries[name]] == target.entries;
        return false;
      }
      var t := Move(w, root.entries[name], At(target.entries, name), name);
      root.entries, target.entries := Set(root.entries, name, t.source), Set(target.entries, name, t.target);
      if t.raised {
        return false;
      }
      i := i + 1;
    }
    ok := true;
  }

  // ---------------------------------------------------------------- the command

  /** What the command finds: whether state is inside the checkout, whether the state root exists,
      what blocks a move, whether `--apply` was given, and whether the resolver ends at the target. */
  datatype Invocation = Invocation(inTree: bool, exists_: bool, blockers: seq<string>, apply: bool,
    resolvesToTarget: bool)

  /** The exit of the command: a status, or an exception out of the move. */
  datatype Exit = Status(code: int) | Aborted

  /** `main` after its options and configuration are read. `names` is the sorted listing of the state
      root; `rootRemoved` tells whether the emptied root was removed. */
  method Migrate(w: World, root: Directory, target: Directory, names: seq<string>, inv: Invocation)
    returns (exit: Exit, rootRemoved: bool)
    requires root != target && Sorting.StrictlySorted(names) && forall n :: n in names <==> n in root.entries
    modifies root, target
    ensures !inv.inTree || !inv.exists_ || inv.blockers != [] || !inv.apply ==>
              root.entries == old(root.entries) && target.entries == old(target.entries) && !rootRemoved
    ensures inv.inTree && inv.exists_ && inv.blockers != [] ==> exit == Status(1)
    ensures !inv.inTree || !inv.exists_ || (inv.blockers == [] && !inv.apply) ==> exit == Status(0)
    ensures inv.inTree && inv.exists_ && inv.blockers == [] && inv.apply ==>
              && Distinct(names)
              && var o := MovedAll(w, old(root.entries), old(target.entries), names);
              && root.entries == o.source && target.entries == o.target
              && rootRemoved == (o.ok && o.source == map[])
              && exit == if !o.ok then Aborted else Status(if inv.resolvesToTarget then 0 else 1)
  {
    rootRemoved := false;
    SortedIsDistinct(names);
    if !inv.inTree || !inv.exists_ {
      return Status(0), false;
    }
    if inv.blockers != [] {
      return Status(1), false;
    }
    if !inv.apply {
      return Status(0), false;
    }
    if names != [] {
      var ok := MoveEntries(w, root, target, names);
      if !ok {
        return Aborted, false;
      }
    }
    rootRemoved := root.entries == map[];
    exit := Status(if inv.resolvesToTarget then 0 else 1);
  }

  predicate Distinct(names: seq<string>) {
    forall i, j :: 0 <= i < j < |names| ==> names[i] != names[j]
  }

  lemma SortedIsDistinct(names: seq<string>)
    requires Sorting.StrictlySorted(names)
    ensures Distinct(names)
  {
    forall i, j | 0 <= i < j < |names|
      ensures names[i] != names[j]
    {
      Sorting.Text.LessTrichotomy(names[i], names[j]);
    }
  }

  // ---------------------------------------------------------------- what a call does to each entry

  predicate Raises(w: World, source: Entries, target: Entries, name: string)
    requires name in source
  {
    TurnFor(w, source[name], At(target, name), name).raised
  }

  /** How many of the names are moved before one raises. */
  function Reached(w: World, source: Entries, target: Entries, names: seq<string>): (k: nat)
    requires forall n :: n in names ==> n in source
    ensures k <= |names|
    ensures forall i :: 0 <= i < k ==> !Raises(w, source, target, names[i])
    ensures k < |names| ==> Raises(w, source, target, names[k])
  {
    if names == [] || Raises(w, source, target, names[0]) then 0 else 1 + Reached(w, source, target, names[1..])
  }

  /** The call gets to this entry. */
  ghost predicate Tried(w: World, source: Entries, target: Entries, names: seq<string>, n: string)
    requires forall m :: m in names ==> m in source
  {
    exists i :: 0 <= i < |names| && i <= Reached(w, source, target, names) && names[i] == n
  }

  ghost function After(w: World, source: Entries, target: Entries, names: seq<string>, n: string): Turn
    requires forall m :: m in names ==> m in source
  {
    if Tried(w, source, target, names, n) then TurnFor(w, source[n], At(target, n), n)
    else Turn(At(source, n), At(target, n), false)
  }

  /** The call acts on each entry by itself: those it gets to, up to the first that raises, have their
      own turn; all others stay as they are on both sides. */
  lemma {:induction false} EachEntryByItself(w: World, source: Entries, target: Entries, names: seq<string>, n: string)
    requires Distinct(names) && forall m :: m in names ==> m in source
    ensures var o, a := MovedAll(w, source, target, names), After(w, source, target, names, n);
      && (o.ok <==> Reached(w, source, target, names) == |names|)
      && At(o.source, n) == a.source && At(o.target, n) == a.target
    decreases |names|
  {
    hide TurnFor;
    if names != [] {
      var t := TurnFor(w, source[names[0]], At(target, names[0]), names[0]);
      var source', target' := Set(source, names[0], t.source), Set(target, names[0], t.target);
      if t.raised {
        assert n == names[0] <==> Tried(w, source, target, names, n);
      } else {
        var rest := names[1..];
        forall m | m in rest
          ensures m != names[0] && m in source' && source'[m] == source[m] && At(target', m) == At(target, m)
        {
        }
        SameReach(w, source, target, source', target', rest);
        EachEntryByItself(w, source', target', rest, n);
        TriedRest(w, source, target, names, n);
        TriedRest(w, source', target', rest, n);
        assert Tried(w, source', target', rest, n) <==> Tried(w, source, target, rest, n);
      }
    }
  }

  lemma TriedRest(w: World, source: Entries, target: Entries, names: seq<string>, n: string)
    requires forall m :: m in names ==> m in source
    ensures names != [] && !Raises(w, source, target, names[0]) ==>
              (Tried(w, source, target, names, n) <==> n == names[0] || Tried(w, source, target, names[1..], n))
    ensures Tried(w, source, target, names, n) ==> n in names
  {
    hide Raises;
    if names != [] && !Raises(w, source, target, names[0]) {
      var rest, k := names[1..], Reached(w, source, target, names);
      assert k == 1 + Reached(w, source, target, rest);
      if i :| 0 <= i < |names| && i <= k && names[i] == n && i > 0 {
        assert rest[i - 1] == n;
      }
      if i :| 0 <= i < |rest| && i <= k - 1 && rest[i] == n {
        assert names[i + 1] == n;
      }
    }
  }

  lemma {:induction false} SameReach(w: World, source: Entries, target: Entries, source': Entries, target': Entries,
      names: seq<string>)
    requires forall m :: m in names ==>
      m in source && m in source' && source'[m] == source[m] && At(target', m) == At(target, m)
    ensures Reached(w, source', target', names) == Reached(w, source, target, names)
  {
    hide TurnFor;
    if names != [] {
      SameReach(w, source, target, source', target', names[1..]);
    }
  }

  // ---------------------------------------------------------------- conservation

  /** The entry is in exactly one of its two places, unchanged: left alone where it was, or gone from
      there and whole at a destination where nothing was. */
  predicate ConservedAs(before: Option<Item>, dest: Option<Item>, source: Option<Item>, target: Option<Item>) {
    (source == before && target == dest) || (source.None? && target == before && (before.Some? ==> dest.None?))
  }

  ghost predicate Conserved(source: Entries, target: Entries, source': Entries, target': Entries) {
    && (forall n :: n in source ==> ConservedAs(At(source, n), At(target, n), At(source', n), At(target', n)))
    && (forall n :: n !in source ==> n !in source' && At(target', n) == At(target, n))
  }

  /** A name at which the call would not conserve: a file or link moved onto a dangling link, which
      `exists()` did not see, or a copy that stops halfway. */
  predicate Spoils(w: World, item: Item, dest: Option<Item>, name: string) {
    var a := w.attempt(name);
    if Occupied(w, dest, name) then false
    else if Dangling(w, dest, name) then !item.Dir? && (a.renames || (item.File? && a.fault.Clean?))
    else !a.renames && match a.fault
      case Clean => false
      case CopyStops(partial) => partial.Some?
      case RemoveStops(_) => true
  }

  lemma SpoilsIsLocal(w: World, item: Item, dest: Option<Item>, name: string)
    ensures var t := TurnFor(w, item, dest, name);
      ConservedAs(Some(item), dest, t.source, t.target) <==> !Spoils(w, item, dest, name)
  {
  }

  /** State is conserved, whether the move succeeds or stops midway, if and only if no entry it gets
      to meets a dangling link it is put over or written through, or a copy broken off halfway. */
  lemma ConservedIffNothingSpoils(w: World, source: Entries, target: Entries, names: seq<string>)
    requires Distinct(names) && forall m :: m in names ==> m in source
    ensures var o := MovedAll(w, source, target, names);
      Conserved(source, target, o.source, o.target)
      <==> forall n :: n in source && Tried(w, source, target, names, n) ==> !Spoils(w, source[n], At(target, n), n)
  {
    hide TurnFor, Spoils, MovedAll, Tried;
    var o := MovedAll(w, source, target, names);
    forall n | n in source
      ensures ConservedAs(At(source, n), At(target, n), At(o.source, n), At(o.target, n))
         <==> (Tried(w, source, target, names, n) ==> !Spoils(w, source[n], At(target, n), n))
    {
      EachEntryByItself(w, source, target, names, n);
      SpoilsIsLocal(w, source[n], At(target, n), n);
    }
    forall n | n !in source
      ensures n !in o.source && At(o.target, n) == At(target, n)
    {
      EachEntryByItself(w, source, target, names, n);
      TriedRest(w, source, target, names, n);
      assert At(o.source, n) == None;
    }
  }

  /** With renames that work and no dangling links at the destinations, nothing is ever spoiled. */
  lemma RenamesConserve(w: World, source: Entries, target: Entries, names: seq<string>)
    requires Distinct(names) && forall m :: m in names ==> m in source
    requires forall n :: n in names ==> w.attempt(n).renames && !Dangling(w, At(target, n), n)
    ensures var o := MovedAll(w, source, target, names); Conserved(source, target, o.source, o.target)
  {
    ConservedIffNothingSpoils(w, source, target, names);
    forall n | n in source && Tried(w, source, target, names, n)
      ensures !Spoils(w, source[n], At(target, n), n)
    {
      TriedRest(w, source, target, names, n);
    }
  }

  /** A move of everything succeeds exactly when no entry would raise, and then leaves none behind. */
  lemma SuccessLeavesNothing(w: World, source: Entries, target: Entries, names: seq<string>)
    requires Distinct(names) && forall m :: m in names <==> m in source
    ensures var o := MovedAll(w, source, target, names);
      && (o.ok <==> forall n :: n in source ==> !Raises(w, source, target, n))
      && (o.ok ==> o.source == map[])
  {
    var o, k := MovedAll(w, source, target, names), Reached(w, source, target, names);
    hide MovedAll;
    EachEntryByItself(w, source, target, names, "");
    if o.ok {
      forall n
        ensures n in source ==> !Raises(w, source, target, n)
        ensures n !in o.source
      {
        EachEntryByItself(w, source, target, names, n);
        if n in source {
          var i :| 0 <= i < |names| && names[i] == n;
          assert Tried(w, source, target, names, n) && !Raises(w, source, target, n);
          NotRaisedIsGone(w, source[n], At(target, n), n);
        } else {
          TriedRest(w, source, target, names, n);
        }
        assert At(o.source, n) == None;
      }
      assert o.source == map[];
    } else {
      assert names[k] in names && Raises(w, source, target, names[k]);
    }
  }

  lemma NotRaisedIsGone(w: World, item: Item, dest: Option<Item>, name: string)
    ensures var t := TurnFor(w, item, dest, name); !t.raised ==> t.source == None
  {
  }

  // ---------------------------------------------------------------- one entry, spelled out

  /** An entry that the call gets to and whose name is free at the target arrives there whole and is gone
      from the root, if the rename works, or else if it can be copied and the original removed. */
  lemma FreeNameArrives(w: World, source: Entries, target: Entries, names: seq<string>, n: string)
    requires Distinct(names) && forall m :: m in names ==> m in source
    requires Tried(w, source, target, names, n) && n !in target
    requires w.attempt(n).renames || w.attempt(n).fault == Clean
    ensures n in source
    ensures var o := MovedAll(w, source, target, names);
      n !in o.source && n in o.target && o.target[n] == source[n]
  {
    TriedRest(w, source, target, names, n);
    hide MovedAll, Tried;
    EachEntryByItself(w, source, target, names, n);
    var o := MovedAll(w, source, target, names);
    assert At(o.source, n) == None && At(o.target, n) == Some(source[n]);
  }

  /** A name that exists at the target, other than as a link that leads nowhere, ends the call: that entry
      and all after it stay where they are, on both sides. */
  lemma ExistingNameStopsTheMove(w: World, source: Entries, target: Entries, names: seq<string>, i: nat, k: nat)
    requires Distinct(names) && forall m :: m in names ==> m in source
    requires i <= k < |names|
    requires names[i] in target && (target[names[i]].Link? ==> names[i] !in w.broken)
    ensures var o := MovedAll(w, source, target, names);
      !o.ok && At(o.source, names[k]) == Some(source[names[k]]) && At(o.target, names[k]) == At(target, names[k])
  {
    var n := names[k];
    assert names[i] in names && n in names;
    EachEntryByItself(w, source, target, names, n);
    StopsBy(w, source, target, names, i);
    if Tried(w, source, target, names, n) {
      var j :| 0 <= j < |names| && j <= Reached(w, source, target, names) && names[j] == n;
    }
  }

  /** An entry makes the call raise exactly where its name exists at the target, where it is a directory
      that would replace a link leading nowhere, or where it cannot be renamed and the copy does not go
      through; a link cannot be copied onto such a link at all. */
  lemma RaisesIff(w: World, source: Entries, target: Entries, n: string)
    requires n in source
    ensures var onto := n in target && target[n].Link? && n in w.broken;
      Raises(w, source, target, n)
      <==> || (n in target && !onto)
           || (onto && source[n].Dir?)
           || (!w.attempt(n).renames && (w.attempt(n).fault != Clean || (onto && source[n].Link?)))
  {
  }

  /** Onto a link that leads nowhere: a file is written through the link, which stays, or replaces it if
      the rename works, as a link does. */
  lemma OntoALinkToNowhere(w: World, source: Entries, target: Entries, n: string)
    requires n in source && n in target && target[n].Link? && n in w.broken && !Raises(w, source, target, n)
    ensures var t := TurnFor(w, source[n], At(target, n), n);
      && t.source == None && !source[n].Dir?
      && (w.attempt(n).renames ==> t.target == Some(source[n]))
      && (!w.attempt(n).renames ==> source[n].File? && t.target == Some(target[n]))
  {
  }

  /** A move to a free name that breaks off leaves the entry where it was, beside as much of the copy as
      was written; once the copy is whole, a directory may already be gone in part. */
  lemma BrokenOff(w: World, source: Entries, target: Entries, n: string)
    requires n in source && n !in target && Raises(w, source, target, n)
    ensures var t, fault := TurnFor(w, source[n], At(target, n), n), w.attempt(n).fault;
      && (fault.CopyStops? ==> t.source == Some(source[n]) && t.target == fault.partial)
      && (fault.RemoveStops? ==>
            && t.target == Some(source[n])
            && t.source == Some(if source[n].Dir? then fault.left else source[n]))
  {
  }

  lemma StopsBy(w: World, source: Entries, target: Entries, names: seq<string>, i: nat)
    requires i < |names| && (forall m :: m in names ==> m in source) && Raises(w, source, target, names[i])
    ensures Reached(w, source, target, names) <= i
  {
  }
}
