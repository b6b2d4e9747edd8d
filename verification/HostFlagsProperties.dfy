/** What the printed `--add-host` flags mean, and when their names can be read back. */
module HostFlagsProperties {
  import opened Wrappers
  import opened Text
  import opened HostFlags
  import Sorting

  // ---------------------------------------------------------------- a line is its words before the comment

  lemma {:induction false} TrailingSpace(s: string, c: char)
    requires IsSpace(c)
    ensures Words(s + [c]) == Words(s)
    decreases |s|
  {
    var t := s + [c];
    if s == "" {
      assert t[1..] == "";
    } else if IsSpace(s[0]) {
      assert t[1..] == s[1..] + [c];
      TrailingSpace(s[1..], c);
    } else {
      WordLengthAppend(s, c);
      assert t[WordLength(s)..] == s[WordLength(s)..] + [c];
      TrailingSpace(s[WordLength(s)..], c);
      assert t[..WordLength(s)] == s[..WordLength(s)];
    }
  }

  lemma {:induction false} WordLengthAppend(s: string, c: char)
    requires IsSpace(c)
    ensures WordLength(s + [c]) == WordLength(s)
  {
    if s != "" && !IsSpace(s[0]) {
      assert (s + [c])[1..] == s[1..] + [c];
      WordLengthAppend(s[1..], c);
    }
  }

  lemma {:induction false} StripRightKeepsWords(s: string)
    ensures Words(StripRight(s)) == Words(s)
    ensures Words(Before(StripRight(s), '#')) == Words(Before(s, '#'))
  {
    if s != "" && IsSpace(s[|s| - 1]) {
      var t, c := s[..|s| - 1], s[|s| - 1];
      assert s == t + [c];
      StripRightKeepsWords(t);
      TrailingSpace(t, c);
      BeforeSnoc(t, c, '#');
      TrailingSpace(Before(t, '#'), c);
      assert Before(t, '#') + [] == Before(t, '#');
    }
  }

  lemma {:induction false} BeforeSnoc(s: string, c: char, mark: char)
    requires c != mark
    ensures Before(s + [c], mark) == Before(s, mark) + if mark in s then [] else [c]
  {
    var t := s + [c];
    if s == "" {
      assert t[1..] == "";
    } else if s[0] != mark {
      assert t[1..] == s[1..] + [c];
      BeforeSnoc(s[1..], c, mark);
    }
  }

  lemma {:induction false} StripLeftKeepsWords(s: string)
    ensures Words(StripLeft(s)) == Words(s)
    ensures Words(Before(StripLeft(s), '#')) == Words(Before(s, '#'))
  {
    if s != "" && IsSpace(s[0]) {
      StripLeftKeepsWords(s[1..]);
      assert Before(s, '#') == [s[0]] + Before(s[1..], '#');
      assert Before(s, '#')[1..] == Before(s[1..], '#');
    }
  }

  /** All the stripping and cutting comes to this: the words before the first '#'. */
  lemma PartsAreTheWordsBeforeTheComment(raw: string)
    ensures Parts(raw) == Words(Before(raw, '#'))
  {
    StripLeftKeepsWords(raw);
    StripRightKeepsWords(StripLeft(raw));
    var line := Strip(raw);
    BeforeIsClean(line, '#');
    StripLeftKeepsWords(Before(line, '#'));
    StripRightKeepsWords(StripLeft(Before(line, '#')));
  }

  // ---------------------------------------------------------------- the bindings

  lemma {:induction false} NameBindingsHold(names: seq<string>, ip: string, b: Binding)
    ensures b in NameBindings(names, ip) <==> b.ip == ip && b.name in names && !IsLoopbackName(b.name)
  {
    if names != [] {
      NameBindingsHold(names[1..], ip, b);
      assert b.name in names <==> b.name == names[0] || b.name in names[1..];
    }
  }

  /** A line binds a name when its address parses, lies in a subnet, and the name follows it. */
  ghost predicate Binds(parse: string -> Option<Address>, nets: seq<Subnet>, raw: string, b: Binding) {
    var words := Words(Before(raw, '#'));
    && |words| >= 2 && b.name in words[1..]
    && b.name != "localhost" && b.name != "ip6-localhost" && b.name != "ip6-loopback"
    && parse(words[0]).Some?
    && var a := parse(words[0]).value;
    a.text == b.ip && exists net :: net in nets && net.version == a.version && net.holds(a)
  }

  lemma InSome(a: Address, nets: seq<Subnet>)
    ensures InSubnets(a, nets) <==> exists net :: net in nets && net.version == a.version && net.holds(a)
  {
    if net :| net in nets && net.version == a.version && net.holds(a) {
      var i :| 0 <= i < |nets| && nets[i] == net;
    }
  }

  lemma LineBindingsHold(parse: string -> Option<Address>, nets: seq<Subnet>, raw: string, b: Binding)
    ensures b in LineBindings(parse, nets, raw) <==> Binds(parse, nets, raw, b)
  {
    PartsAreTheWordsBeforeTheComment(raw);
    hide Parts, Words, Before, InSubnets;
    var words := Parts(raw);
    if |words| >= 2 && parse(words[0]).Some? {
      NameBindingsHold(words[1..], parse(words[0]).value.text, b);
      InSome(parse(words[0]).value, nets);
    }
  }

  lemma {:induction false} BindingsHold(parse: string -> Option<Address>, nets: seq<Subnet>, lines: seq<string>,
      b: Binding)
    ensures b in Bindings(parse, nets, lines) <==> exists i :: 0 <= i < |lines| && Binds(parse, nets, lines[i], b)
  {
    hide Binds, LineBindings;
    if lines != [] {
      BindingsHold(parse, nets, lines[1..], b);
      LineBindingsHold(parse, nets, lines[0], b);
      SomeLineBinds(parse, nets, lines, b);
    }
  }

  lemma SomeLineBinds(parse: string -> Option<Address>, nets: seq<Subnet>, lines: seq<string>, b: Binding)
    requires lines != []
    ensures (exists i :: 0 <= i < |lines| && Binds(parse, nets, lines[i], b))
       <==> || Binds(parse, nets, lines[0], b)
            || exists i :: 0 <= i < |lines[1..]| && Binds(parse, nets, lines[1..][i], b)
  {
    hide Binds;
    if i :| 0 <= i < |lines[1..]| && Binds(parse, nets, lines[1..][i], b) {
      assert Binds(parse, nets, lines[i + 1], b);
    }
    if i :| 0 <= i < |lines| && Binds(parse, nets, lines[i], b) && i > 0 {
      assert Binds(parse, nets, lines[1..][i - 1], b);
    }
  }

  lemma {:induction false} FirstIsEarliest(bs: seq<Binding>, name: string, ip: string)
    ensures First(bs, name) == Some(ip)
       <==> exists i :: 0 <= i < |bs| && bs[i] == Binding(name, ip) && forall j :: 0 <= j < i ==> bs[j].name != name
  {
    if bs != [] {
      FirstIsEarliest(bs[1..], name, ip);
      if bs[0].name == name {
        assert bs[0] == Binding(name, bs[0].ip);
      } else if i :| 0 <= i < |bs[1..]| && bs[1..][i] == Binding(name, ip) && forall j :: 0 <= j < i ==>
        bs[1..][j].name != name {
        assert bs[i + 1] == Binding(name, ip);
        assert forall j :: 1 <= j < i + 1 ==> bs[j] == bs[1..][j - 1];
      } else if i :| 0 <= i < |bs| && bs[i] == Binding(name, ip) && forall j :: 0 <= j < i ==> bs[j].name != name {
        assert bs[1..][i - 1] == Binding(name, ip);
      }
    }
  }

  /** A line names the host after an address that parses, in a subnet or not. */
  predicate Lists(parse: string -> Option<Address>, raw: string, name: string) {
    var words := Words(Before(raw, '#'));
    |words| >= 2 && name in words[1..] && parse(words[0]).Some?
  }

  /** The driver's address is that of the first line that lists its name after a usable address. */
  lemma {:induction false} FirstIpIsFirstLine(parse: string -> Option<Address>, lines: seq<string>, name: string)
    ensures FirstIp(parse, lines, name).None? <==> forall i :: 0 <= i < |lines| ==> !Lists(parse, lines[i], name)
    ensures forall i ::
      (0 <= i < |lines| && Lists(parse, lines[i], name) && forall j :: 0 <= j < i ==> !Lists(parse, lines[j], name)) ==>
        FirstIp(parse, lines, name) == Some(parse(Words(Before(lines[i], '#'))[0]).value.text)
  {
    hide Words, Before;
    if lines != [] {
      PartsAreTheWordsBeforeTheComment(lines[0]);
      var rest := lines[1..];
      FirstIpIsFirstLine(parse, rest, name);
      assert forall i :: 0 < i < |lines| ==> lines[i] == rest[i - 1];
      if Lists(parse, lines[0], name) {
      } else {
        assert FirstIp(parse, lines, name) == FirstIp(parse, rest, name);
        forall i | 0 <= i < |lines| && Lists(parse, lines[i], name) && forall j :: 0 <= j < i ==>
          !Lists(parse, lines[j], name)
          ensures FirstIp(parse, lines, name) == Some(parse(Words(Before(lines[i], '#'))[0]).value.text)
        {
          assert Lists(parse, rest[i - 1], name);
          forall j | 0 <= j < i - 1
            ensures !Lists(parse, rest[j], name)
          {
            assert rest[j] == lines[j + 1];
          }
        }
      }
    }
  }

  // ---------------------------------------------------------------- the printed list

  lemma {:induction false} PrintedShape(names: seq<string>, bs: seq<Binding>)
    requires forall n :: n in names ==> First(bs, n).Some?
    ensures |Printed(names, bs)| == 2 * |names|
    ensures forall i :: 0 <= i < |names| ==>
      && Printed(names, bs)[2 * i] == FLAG
      && Printed(names, bs)[2 * i + 1] == names[i] + ":" + First(bs, names[i]).value
  {
    if names != [] {
      PrintedShape(names[1..], bs);
      var rest := Printed(names[1..], bs);
      assert Printed(names, bs) == [FLAG, names[0] + ":" + First(bs, names[0]).value] + rest;
      forall i | 0 < i < |names|
        ensures Printed(names, bs)[2 * i] == FLAG
        ensures Printed(names, bs)[2 * i + 1] == names[i] + ":" + First(bs, names[i]).value
      {
        assert Printed(names, bs)[2 * i] == rest[2 * (i - 1)];
        assert Printed(names, bs)[2 * i + 1] == rest[2 * (i - 1) + 1];
      }
    }
  }

  /** The list is a strictly sorted run of `--add-host name:ip` pairs, one for every bound name, each
      with the address of the earliest line that binds the name. */
  lemma PrintedIsSortedAndComplete(bs: seq<Binding>)
    ensures var names := Sorting.SortDistinct(BoundNames(bs));
      && Sorting.StrictlySorted(names)
      && (forall n :: n in names <==> exists b :: b in bs && b.name == n)
      && |Printed(names, bs)| == 2 * |names|
      && forall i :: 0 <= i < |names| ==>
           && First(bs, names[i]).Some?
           && Printed(names, bs)[2 * i] == FLAG
           && Printed(names, bs)[2 * i + 1] == names[i] + ":" + First(bs, names[i]).value
  {
    var names := Sorting.SortDistinct(BoundNames(bs));
    Sorting.SortDistinctSorts(BoundNames(bs));
    forall n
      ensures n in names <==> exists b :: b in bs && b.name == n
      ensures n in names <==> First(bs, n).Some?
    {
      FirstFinds(bs, n);
      if b :| b in bs && b.name == n {
        Bound(bs, b);
      }
    }
    PrintedShape(names, bs);
  }

  // ---------------------------------------------------------------- reading it back

  lemma {:induction false} BeforeJoin(s: string, t: string, mark: char)
    ensures Before(s + [mark] + t, mark) == Before(s, mark)
  {
    var j := s + [mark] + t;
    if s != "" && s[0] != mark {
      assert j[1..] == s[1..] + [mark] + t;
      BeforeJoin(s[1..], t, mark);
    }
  }

  lemma {:induction false} RecoveredNames(names: seq<string>, bs: seq<Binding>)
    ensures FlagNames(Printed(names, bs)) == set n | n in names :: Before(n, ':')
  {
    if names != [] {
      var ip := First(bs, names[0]);
      var value := names[0] + ":" + (if ip.Some? then ip.value else "");
      var args, rest := Printed(names, bs), Printed(names[1..], bs);
      assert args == [FLAG, value] + rest && args[2..] == rest;
      BeforeJoin(names[0], if ip.Some? then ip.value else "", ':');
      assert value[|names[0]|] == ':';
      RecoveredNames(names[1..], bs);
      assert (set n | n in names :: Before(n, ':'))
        == {Before(names[0], ':')} + set n | n in names[1..] :: Before(n, ':');
    }
  }

  lemma CutNames(names: seq<string>)
    ensures (set n | n in names :: Before(n, ':')) == (set n | n in names) <==> forall n :: n in names ==> ':' !in n
  {
    var cut, whole := set n | n in names :: Before(n, ':'), set n | n in names;
    forall n
      ensures ':' !in Before(n, ':') && (':' !in n ==> Before(n, ':') == n)
    {
      BeforeIsClean(n, ':');
    }
    if n :| n in names && ':' in n {
      assert n in whole && n !in cut;
    } else {
      forall n | n in whole
        ensures n in cut
      {
        assert Before(n, ':') in cut;
      }
    }
  }

  /** Reading the printed list back gives exactly the bound names if and only if no bound name
      contains a colon. */
  lemma NamesComeBackIffColonFree(bs: seq<Binding>)
    ensures FlagNames(Printed(Sorting.SortDistinct(BoundNames(bs)), bs)) == (set b | b in bs :: b.name)
       <==> forall b :: b in bs ==> ':' !in b.name
  {
    hide *;
    var names := Sorting.SortDistinct(BoundNames(bs));
    PrintedIsSortedAndComplete(bs);
    RecoveredNames(names, bs);
    CutNames(names);
    assert (set n | n in names) == (set b | b in bs :: b.name);
  }

  /** What a list of flags says a name's address is: the first pair with that name decides. */
  function Lookup(flat: seq<string>, name: string): Option<string>
    decreases |flat|
  {
    if flat == [] then None
    else if flat[0] == "--add-host" && |flat| > 1 then
      if ':' in flat[1] && Before(flat[1], ':') == name then Some(After(flat[1])) else Lookup(flat[2..], name)
    else Lookup(flat[1..], name)
  }

  function After(s: string): string {
    if s == "" then "" else if s[0] == ':' then s[1..] else After(s[1..])
  }

  lemma {:induction false} AfterJoin(s: string, t: string)
    requires ':' !in s
    ensures After(s + ":" + t) == t
  {
    var j := s + ":" + t;
    if s == "" {
      assert j[1..] == t;
    } else {
      assert j[1..] == s[1..] + ":" + t;
      AfterJoin(s[1..], t);
    }
  }

  lemma PairLookup(name: string, ip: string, rest: seq<string>, n: string)
    requires ':' !in name
    ensures Lookup([FLAG, name + ":" + ip] + rest, n) == if n == name then Some(ip) else Lookup(rest, n)
  {
    var flat := [FLAG, name + ":" + ip] + rest;
    assert flat[1][|name|] == ':' && flat[2..] == rest;
    BeforeJoin(name, ip, ':');
    BeforeIsClean(name, ':');
    AfterJoin(name, ip);
  }

  /** Print, then read: every bound name has its first in-subnet address, and no other name has any. */
  lemma {:induction false} PrintedLookup(names: seq<string>, bs: seq<Binding>, n: string)
    requires forall m :: m in names ==> ':' !in m && First(bs, m).Some?
    ensures Lookup(Printed(names, bs), n) == if n in names then First(bs, n) else None
  {
    if names != [] {
      PrintedLookup(names[1..], bs, n);
      PairLookup(names[0], First(bs, names[0]).value, Printed(names[1..], bs), n);
    }
  }

  // ---------------------------------------------------------------- prepending the driver's host

  /** How many pairs define a name. */
  function Listed(flat: seq<string>, name: string): nat
    decreases |flat|
  {
    if flat == [] then 0
    else if flat[0] == "--add-host" && |flat| > 1 then
      (if ':' in flat[1] && Before(flat[1], ':') == name then 1 else 0) + Listed(flat[2..], name)
    else Listed(flat[1..], name)
  }

  lemma {:induction false} ListedMeansNamed(flat: seq<string>, name: string)
    ensures Listed(flat, name) > 0 <==> name in FlagNames(flat)
    decreases |flat|
  {
    if flat != [] {
      if flat[0] == FLAG && |flat| > 1 {
        ListedMeansNamed(flat[2..], name);
      } else {
        ListedMeansNamed(flat[1..], name);
      }
    }
  }

  ghost predicate Defined(parse: string -> Option<Address>, hosts: Option<seq<string>>, driverHost: string) {
    && hosts.Some? && DriverLabel(driverHost).Some?
    && exists ip :: ip != "" && FirstIp(parse, hosts.value, DriverLabel(driverHost).value) == Some(ip)
  }

  /** The old list stays as the suffix, in front of which at most one pair appears; every other name
      is defined as often as before; and a driver name the file defines is defined afterwards, once
      if it was not, unless it contains a colon. */
  lemma PrependAddsAtMostTheDriver(parse: string -> Option<Address>, hosts: Option<seq<string>>, driverHost: string,
      flat: seq<string>, n: string)
    ensures var r := Prepended(parse, hosts, driverHost, flat);
      && (r == flat || (Defined(parse, hosts, driverHost) && |r| == |flat| + 2 && r[2..] == flat))
      && (DriverLabel(driverHost) != Some(n) && ':' !in n && (r == flat || ':' !in DriverLabel(driverHost).value) ==>
            Listed(r, n) == Listed(flat, n) && Lookup(r, n) == Lookup(flat, n))
      && (DriverLabel(driverHost) == Some(n) && ':' !in n ==>
            Listed(r, n) == if Defined(parse, hosts, driverHost) && Listed(flat, n) == 0 then 1 else Listed(flat, n))
      && (DriverLabel(driverHost) == Some(n) && ':' !in n && Defined(parse, hosts, driverHost) ==>
            Lookup(r, n) == if Listed(flat, n) == 0 then DriverIp(parse, hosts, driverHost) else Lookup(flat, n))
  {
    var r := Prepended(parse, hosts, driverHost, flat);
    ListedMeansNamed(flat, n);
    if r != flat {
      var name, ip := DriverLabel(driverHost).value, DriverIp(parse, hosts, driverHost).value;
      assert r[2..] == flat && r[1][|name|] == ':';
      BeforeJoin(name, ip, ':');
      BeforeIsClean(name, ':');
      if ':' !in name {
        PairLookup(name, ip, flat, n);
      }
    }
  }

  /** Prepending twice is prepending once, except that a driver name with a colon, if the file
      defines it, is never recognised among the flags and is added each time. */
  lemma PrependIsIdempotentIffColonFree(parse: string -> Option<Address>, hosts: Option<seq<string>>,
      driverHost: string, flat: seq<string>)
    ensures var once := Prepended(parse, hosts, driverHost, flat);
      Prepended(parse, hosts, driverHost, once) == once
      <==> !Defined(parse, hosts, driverHost) || ':' !in DriverLabel(driverHost).value
  {
    var once := Prepended(parse, hosts, driverHost, flat);
    if Defined(parse, hosts, driverHost) {
      var name := DriverLabel(driverHost).value;
      if ':' in name {
        FlagNamesHaveNoColon(once, name);
      } else {
        PrependAddsAtMostTheDriver(parse, hosts, driverHost, flat, name);
        ListedMeansNamed(once, name);
        ListedMeansNamed(flat, name);
      }
    }
  }

  lemma {:induction false} FlagNamesHaveNoColon(flat: seq<string>, name: string)
    requires ':' in name
    ensures name !in FlagNames(flat)
    decreases |flat|
  {
    if flat != [] {
      if flat[0] == FLAG && |flat| > 1 {
        BeforeIsClean(flat[1], ':');
        FlagNamesHaveNoColon(flat[2..], name);
      } else {
        FlagNamesHaveNoColon(flat[1..], name);
      }
    }
  }

  /** Both steps together: with colon-free names, the container resolves every name to its first
      in-subnet address, the driver's host if it has none to its first address, and nothing else. */
  lemma ContainerResolves(parse: string -> Option<Address>, lines: seq<string>, nets: seq<Subnet>, driverHost: string,
      n: string)
    requires forall b :: b in Bindings(parse, nets, lines) ==> ':' !in b.name
    requires DriverLabel(driverHost).Some? ==> ':' !in DriverLabel(driverHost).value
    requires ':' !in n
    ensures var bs := Bindings(parse, nets, lines);
      var flat := Printed(Sorting.SortDistinct(BoundNames(bs)), bs);
      Lookup(Prepended(parse, Some(lines), driverHost, flat), n)
        == if First(bs, n).Some? then First(bs, n)
           else if DriverLabel(driverHost) == Some(n) && Defined(parse, Some(lines), driverHost)
             then FirstIp(parse, lines, n)
           else None
  {
    var bs := Bindings(parse, nets, lines);
    var names := Sorting.SortDistinct(BoundNames(bs));
    PrintedIsSortedAndComplete(bs);
    forall m | m in names
      ensures ':' !in m && First(bs, m).Some?
    {
    }
    PrintedLookup(names, bs, n);
    FirstFinds(bs, n);
    Sorting.SortDistinctSorts(BoundNames(bs));
    PrependAddsAtMostTheDriver(parse, Some(lines), driverHost, Printed(names, bs), n);
    RecoveredNames(names, bs);
    ListedMeansNamed(Printed(names, bs), n);
    forall m
      ensures ':' !in m ==> Before(m, ':') == m
    {
      BeforeIsClean(m, ':');
    }
  }
}
