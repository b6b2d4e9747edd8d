/** From a hosts file to `docker run --add-host` flags, and back to the names those flags define. */
module HostFlags {
  import opened Wrappers
  import opened Text
  import Sorting

  // ---------------------------------------------------------------- reading a hosts line

  /** The part of `s` before its first `mark`, all of it if there is none. */
  function Before(s: string, mark: char): string {
    if s == "" || s[0] == mark then "" else [s[0]] + Before(s[1..], mark)
  }

  function WordLength(s: string): (n: nat)
    ensures n <= |s|
    ensures s != "" && !IsSpace(s[0]) ==> n > 0
  {
    if s == "" || IsSpace(s[0]) then 0 else 1 + WordLength(s[1..])
  }

  /** `s.split()` */
  function Words(s: string): seq<string>
    decreases |s|
  {
    if s == "" then []
    else if IsSpace(s[0]) then Words(s[1..])
    else [s[..WordLength(s)]] + Words(s[WordLength(s)..])
  }

  /** What both readers of a hosts line make of it; fewer than two parts are skipped. */
  function Parts(raw: string): seq<string> {
    var line := Strip(raw);
    if line == "" || line[0] == '#' then []
    else
      var cut := if '#' in line then Strip(Before(line, '#')) else line;
      if cut == "" then [] else Words(cut)
  }

  // ---------------------------------------------------------------- addresses

  /** A parsed address: `text` is its compressed form. */
  datatype Address = Address(version: int, text: string)

  datatype Subnet = Subnet(version: int, holds: Address -> bool)

  predicate InSubnets(a: Address, nets: seq<Subnet>) {
    exists i :: 0 <= i < |nets| && nets[i].version == a.version && nets[i].holds(a)
  }

  method AddressInDockerSubnets(a: Address, nets: seq<Subnet>) returns (r: bool)
    ensures r == InSubnets(a, nets)
  {
    var i := 0;
    while i < |nets|
      invariant 0 <= i <= |nets|
      invariant forall j :: 0 <= j < i ==> !(nets[j].version == a.version && nets[j].holds(a))
    {
      if nets[i].version == a.version && nets[i].holds(a) {
        return true;
      }
      i := i + 1;
    }
    r := false;
  }

  // ---------------------------------------------------------------- which name gets which address

  datatype Binding = Binding(name: string, ip: string)

  predicate IsLoopbackName(name: string) {
    name in ["localhost", "ip6-localhost", "ip6-loopback"]
  }

  function NameBindings(names: seq<string>, ip: string): seq<Binding> {
    if names == [] then []
    else (if IsLoopbackName(names[0]) then [] else [Binding(names[0], ip)]) + NameBindings(names[1..], ip)
  }

  lemma NameBindingsHead(names: seq<string>, ip: string)
    requires names != []
    ensures NameBindings(names, ip)
         == (if IsLoopbackName(names[0]) then [] else [Binding(names[0], ip)]) + NameBindings(names[1..], ip)
  {
  }

  lemma NameBindingsEnd(names: seq<string>, ip: string)
    ensures names == [] ==> NameBindings(names, ip) == []
  {
  }

  /** The bindings one line offers: none unless its address parses and lies in a subnet. */
  function LineBindings(parse: string -> Option<Address>, nets: seq<Subnet>, raw: string): seq<Binding> {
    var parts := Parts(raw);
    if |parts| < 2 then []
    else
      var a := parse(parts[0]);
      if a.None? || !InSubnets(a.value, nets) then [] else NameBindings(parts[1..], a.value.text)
  }

  function Bindings(parse: string -> Option<Address>, nets: seq<Subnet>, lines: seq<string>): seq<Binding> {
    if lines == [] then [] else LineBindings(parse, nets, lines[0]) + Bindings(parse, nets, lines[1..])
  }

  /** `bs` is what the first `i` lines offer. */
  ghost predicate Offered(parse: string -> Option<Address>, nets: seq<Subnet>, lines: seq<string>, i: nat,
      bs: seq<Binding>) {
    i <= |lines| && bs + Bindings(parse, nets, lines[i..]) == Bindings(parse, nets, lines)
  }

  lemma OfferedSteps(parse: string -> Option<Address>, nets: seq<Subnet>, lines: seq<string>, i: nat, bs: seq<Binding>)
    ensures Offered(parse, nets, lines, 0, [])
    ensures Offered(parse, nets, lines, i, bs) && i < |lines| ==>
              Offered(parse, nets, lines, i + 1, bs + LineBindings(parse, nets, lines[i]))
    ensures Offered(parse, nets, lines, |lines|, bs) ==> bs == Bindings(parse, nets, lines)
  {
    hide LineBindings;
    assert lines[0..] == lines;
    if Offered(parse, nets, lines, i, bs) && i < |lines| {
      assert lines[i..][1..] == lines[i + 1..];
    }
  }

  /** The address of the first binding of a name. */
  function First(bs: seq<Binding>, name: string): Option<string> {
    if bs == [] then None
    else if bs[0].name == name then Some(bs[0].ip)
    else First(bs[1..], name)
  }

  function BoundNames(bs: seq<Binding>): seq<string> {
    seq(|bs|, i requires 0 <= i < |bs| => bs[i].name)
  }

  // ---------------------------------------------------------------- printing and reading flags

  const FLAG := "--add-host"

  function Printed(names: seq<string>, bs: seq<Binding>): seq<string> {
    if names == [] then []
    else
      var ip := First(bs, names[0]);
      [FLAG, names[0] + ":" + (if ip.Some? then ip.value else "")] + Printed(names[1..], bs)
  }

  /** The dictionary `seen` after the bindings of `bs`: the first address of each name. */
  ghost predicate SeenAfter(seen: map<string, string>, order: seq<string>, bs: seq<Binding>) {
    && (forall n :: n in seen <==> First(bs, n).Some?)
    && (forall n :: n in seen ==> First(bs, n) == Some(seen[n]))
    && (forall n :: n in order <==> n in seen)
  }

  /** The bindings that lost against an earlier, different one of the same name. */
  ghost predicate ConflictsAre(conflicts: seq<Binding>, bs: seq<Binding>) {
    forall b :: b in conflicts <==> b in bs && First(bs, b.name) != Some(b.ip)
  }

  /** `_docker_add_host_args_from_etc_hosts`. `hosts` is absent when the file is missing or cannot be
      read. */
  method AddHostArgs(parse: string -> Option<Address>, hosts: Option<seq<string>>, nets: seq<Subnet>)
    returns (args: seq<string>, conflicts: seq<Binding>)
    ensures hosts.None? || nets == [] ==> args == [] && conflicts == []
    ensures hosts.Some? && nets != [] ==>
              var bs := Bindings(parse, nets, hosts.value);
              && args == Printed(Sorting.SortDistinct(BoundNames(bs)), bs)
              && ConflictsAre(conflicts, bs)
  {
    if nets == [] || hosts.None? {
      return [], [];
    }
    var lines := hosts.value;
    NothingSeen();
    OfferedSteps(parse, nets, lines, 0, []);
    hide *;
    var seen: map<string, string>, order: seq<string> := map[], [];
    conflicts := [];
    ghost var bs: seq<Binding> := [];
    var i := 0;
    while i < |lines|
      invariant 0 <= i <= |lines| && Offered(parse, nets, lines, i, bs)
      invariant SeenAfter(seen, order, bs)
      invariant ConflictsAre(conflicts, bs)
    {
      OfferedSteps(parse, nets, lines, i, bs);
      seen, order, conflicts := ScanLine(parse, nets, lines[i], seen, order, conflicts, bs);
      bs := bs + LineBindings(parse, nets, lines[i]);
      i := i + 1;
    }
    OfferedSteps(parse, nets, lines, i, bs);
    args := Render(seen, order, bs);
  }

  /** One turn of the loop over the lines. */
  method ScanLine(parse: string -> Option<Address>, nets: seq<Subnet>, raw: string,
      seen0: map<string, string>, order0: seq<string>, conflicts0: seq<Binding>, ghost bs: seq<Binding>)
    returns (seen: map<string, string>, order: seq<string>, conflicts: seq<Binding>)
    requires SeenAfter(seen0, order0, bs) && ConflictsAre(conflicts0, bs)
    ensures SeenAfter(seen, order, bs + LineBindings(parse, nets, raw))
    ensures ConflictsAre(conflicts, bs + LineBindings(parse, nets, raw))
  {
    hide SeenAfter, ConflictsAre, Parts, First, NameBindings;
    seen, order, conflicts := seen0, order0, conflicts0;
    assert bs + [] == bs;
    var parts := Parts(raw);
    if |parts| < 2 {
      return;
    }
    var addr := parse(parts[0]);
    if addr.None? {
      return;
    }
    var inside := AddressInDockerSubnets(addr.value, nets);
    if !inside {
      return;
    }
    var ip := addr.value.text;
    ghost var done := bs;
    var j := 1;
    while j < |parts|
      invariant 1 <= j <= |parts|
      invariant done + NameBindings(parts[j..], ip) == bs + NameBindings(parts[1..], ip)
      invariant SeenAfter(seen, order, done) && ConflictsAre(conflicts, done)
    {
      var host := parts[j];
      PartsAreClean(raw, j);
      assert host == "" || host[0] in host;
      if host != "" && host[0] == '#' {
        break;
      }
      assert parts[j..][1..] == parts[j + 1..];
      NameBindingsHead(parts[j..], ip);
      if !IsLoopbackName(host) {
        SeenSnoc(seen, order, conflicts, done, Binding(host, ip));
        if host in seen && seen[host] != ip {
          conflicts := conflicts + [Binding(host, ip)];
        } else if host !in seen {
          seen, order := seen[host := ip], order + [host];
        }
        done := done + [Binding(host, ip)];
      }
      j := j + 1;
    }
    NameBindingsEnd(parts[j..], ip);
    assert done == bs + NameBindings(parts[1..], ip);
  }

  /** `for host, ip in sorted(seen.items()): args.extend(...)` */
  method Render(seen: map<string, string>, order: seq<string>, ghost bs: seq<Binding>) returns (args: seq<string>)
    requires SeenAfter(seen, order, bs)
    ensures args == Printed(Sorting.SortDistinct(BoundNames(bs)), bs)
  {
    SeenInOrder(seen, order, bs);
    hide Sorting.SortDistinct, SeenAfter, First;
    var sorted := Sorting.SortDistinct(order);
    args := [];
    var i := 0;
    while i < |sorted|
      invariant 0 <= i <= |sorted|
      invariant args + Printed(sorted[i..], bs) == Printed(sorted, bs)
    {
      assert sorted[i] in sorted;
      PrintedStep(args, sorted, i, bs, seen[sorted[i]]);
      args := args + [FLAG, sorted[i] + ":" + seen[sorted[i]]];
      i := i + 1;
    }
  }

  lemma PrintedStep(args: seq<string>, names: seq<string>, i: nat, bs: seq<Binding>, ip: string)
    requires i < |names| && First(bs, names[i]) == Some(ip)
    ensures args + Printed(names[i..], bs) == args + [FLAG, names[i] + ":" + ip] + Printed(names[i + 1..], bs)
  {
    hide First;
    assert names[i..][1..] == names[i + 1..];
  }

  /** The names `flat` defines. */
  function FlagNames(flat: seq<string>): set<string>
    decreases |flat|
  {
    if flat == [] then {}
    else if flat[0] == FLAG && |flat| > 1 then
      (if ':' in flat[1] then {Before(flat[1], ':')} else {}) + FlagNames(flat[2..])
    else FlagNames(flat[1..])
  }

  /** `_add_host_flags_hostnames` */
  method AddHostFlagsHostnames(flat: seq<string>) returns (names: set<string>)
    ensures names == FlagNames(flat)
  {
    names := {};
    var i := 0;
    while i < |flat|
      invariant 0 <= i <= |flat|
      invariant names + FlagNames(flat[i..]) == FlagNames(flat)
    {
      if flat[i] == FLAG && i + 1 < |flat| {
        assert flat[i..][2..] == flat[i + 2..];
        if ':' in flat[i + 1] {
          names := names + {Before(flat[i + 1], ':')};
        }
        i := i + 2;
      } else {
        assert flat[i..][1..] == flat[i + 1..];
        i := i + 1;
      }
    }
  }

  // ---------------------------------------------------------------- the driver's own host

  function SplitOn(s: string, mark: char): (r: seq<string>)
    ensures |r| > 0
  {
    if s == "" then [""]
    else
      var rest := SplitOn(s[1..], mark);
      if s[0] == mark then [""] + rest else [[s[0]] + rest[0]] + rest[1..]
  }

  /** Four groups of one to three digits: an IPv4 literal as far as the lookup cares. */
  predicate IsDottedQuad(h: string) {
    var groups := SplitOn(h, '.');
    |groups| == 4 && forall g :: g in groups ==> 1 <= |g| <= 3 && forall ch :: ch in g ==> IsDigit(ch)
  }

  /** `_driver_host_for_etc_hosts_lookup` */
  function DriverLabel(raw: string): Option<string> {
    var h := Strip(raw);
    if h == "" || h == "0.0.0.0" || IsDottedQuad(h) then None else Some(h)
  }

  /** The address of the first line that lists the name and whose address parses. */
  function FirstIp(parse: string -> Option<Address>, lines: seq<string>, name: string): Option<string> {
    if lines == [] then None
    else
      var parts := Parts(lines[0]);
      if |parts| >= 2 && name in parts[1..] && parse(parts[0]).Some? then Some(parse(parts[0]).value.text)
      else FirstIp(parse, lines[1..], name)
  }

  /** `_etc_hosts_first_ip_for_hostname` */
  method EtcHostsFirstIp(parse: string -> Option<Address>, hosts: Option<seq<string>>, hostname: string)
    returns (ip: Option<string>)
    ensures ip == if hostname == "" || hosts.None? then None else FirstIp(parse, hosts.value, Strip(hostname))
  {
    hide Parts, Strip;
    if hostname == "" || hosts.None? {
      return None;
    }
    var lines, want := hosts.value, Strip(hostname);
    var i := 0;
    while i < |lines|
      invariant 0 <= i <= |lines|
      invariant FirstIp(parse, lines[i..], want) == FirstIp(parse, lines, want)
    {
      assert lines[i..][1..] == lines[i + 1..];
      var parts := Parts(lines[i]);
      if |parts| >= 2 && want in parts[1..] {
        var addr := parse(parts[0]);
        if addr.Some? {
          return Some(addr.value.text);
        }
      }
      i := i + 1;
    }
    ip := None;
  }

  /** The address the hosts file gives the driver's host, when it is to be looked up at all. */
  function DriverIp(parse: string -> Option<Address>, hosts: Option<seq<string>>, driverHost: string): Option<string> {
    var host := DriverLabel(driverHost);
    if host.None? || hosts.None? then None else FirstIp(parse, hosts.value, host.value)
  }

  function Prepended(parse: string -> Option<Address>, hosts: Option<seq<string>>, driverHost: string,
      flat: seq<string>): seq<string> {
    var ip := DriverIp(parse, hosts, driverHost);
    if ip.None? || ip.value == "" || DriverLabel(driverHost).value in FlagNames(flat) then flat
    else [FLAG, DriverLabel(driverHost).value + ":" + ip.value] + flat
  }

  /** `_prepend_add_host_for_config_driver_hostname` */
  method PrependAddHost(parse: string -> Option<Address>, hosts: Option<seq<string>>, driverHost: string,
      flat: seq<string>)
    returns (r: seq<string>)
    ensures r == Prepended(parse, hosts, driverHost, flat)
  {
    var host := DriverLabel(driverHost);
    if host.None? {
      return flat;
    }
    StripTwice(driverHost);
    var ip := EtcHostsFirstIp(parse, hosts, host.value);
    if ip.None? || ip.value == "" {
      return flat;
    }
    var listed := AddHostFlagsHostnames(flat);
    if host.value in listed {
      return flat;
    }
    r := [FLAG, host.value + ":" + ip.value] + flat;
  }

  // ---------------------------------------------------------------- supporting facts

  lemma {:induction false} FirstSnoc(bs: seq<Binding>, b: Binding)
    ensures forall n :: First(bs + [b], n)
                     == if First(bs, n).Some? then First(bs, n) else if n == b.name then Some(b.ip) else None
  {
    if bs == [] {
      assert [] + [b] == [b] && [b][1..] == [];
    } else {
      assert (bs + [b])[1..] == bs[1..] + [b];
      FirstSnoc(bs[1..], b);
    }
  }

  lemma {:induction false} FirstFinds(bs: seq<Binding>, name: string)
    ensures First(bs, name).Some? <==> name in BoundNames(bs)
    ensures First(bs, name).Some? ==> Binding(name, First(bs, name).value) in bs
  {
    if bs != [] {
      FirstFinds(bs[1..], name);
      assert BoundNames(bs) == [bs[0].name] + BoundNames(bs[1..]);
    }
  }

  lemma Bound(bs: seq<Binding>, b: Binding)
    requires b in bs
    ensures First(bs, b.name).Some?
  {
    var i :| 0 <= i < |bs| && bs[i] == b;
    assert BoundNames(bs)[i] == b.name;
    FirstFinds(bs, b.name);
  }

  lemma NothingSeen()
    ensures SeenAfter(map[], [], []) && ConflictsAre([], [])
  {
  }

  /** One turn of the inner loop: a name's first address is kept, a different later one is reported. */
  lemma SeenSnoc(seen: map<string, string>, order: seq<string>, conflicts: seq<Binding>, bs: seq<Binding>, b: Binding)
    requires SeenAfter(seen, order, bs) && ConflictsAre(conflicts, bs)
    ensures b.name in seen ==> SeenAfter(seen, order, bs + [b])
    ensures b.name !in seen ==> SeenAfter(seen[b.name := b.ip], order + [b.name], bs + [b])
    ensures b.name in seen && seen[b.name] != b.ip ==> ConflictsAre(conflicts + [b], bs + [b])
    ensures b.name in seen && seen[b.name] == b.ip ==> ConflictsAre(conflicts, bs + [b])
    ensures b.name !in seen ==> ConflictsAre(conflicts, bs + [b])
  {
    FirstSnoc(bs, b);
    forall x | x in bs
      ensures First(bs, x.name).Some?
    {
      Bound(bs, x);
    }
  }

  lemma SeenInOrder(seen: map<string, string>, order: seq<string>, bs: seq<Binding>)
    requires SeenAfter(seen, order, bs)
    ensures Sorting.SortDistinct(order) == Sorting.SortDistinct(BoundNames(bs))
    ensures forall n :: n in Sorting.SortDistinct(order) ==> n in seen && First(bs, n) == Some(seen[n])
  {
    forall n
      ensures n in order <==> n in BoundNames(bs)
    {
      FirstFinds(bs, n);
    }
    Sorting.SortDependsOnElementsOnly(order, BoundNames(bs));
    Sorting.SortDistinctSorts(order);
  }

  lemma {:induction false} StripLeftDone(s: string)
    ensures var r := StripLeft(s); r == "" || !IsSpace(r[0])
  {
    if s != "" && IsSpace(s[0]) {
      StripLeftDone(s[1..]);
    }
  }

  lemma {:induction false} StripRightDone(s: string)
    ensures var r := StripRight(s); r <= s && (r == "" || !IsSpace(r[|r| - 1]))
  {
    if s != "" && IsSpace(s[|s| - 1]) {
      StripRightDone(s[..|s| - 1]);
    }
  }

  lemma StripTwice(s: string)
    ensures Strip(Strip(s)) == Strip(s)
  {
    StripLeftDone(s);
    StripRightDone(StripLeft(s));
  }

  lemma {:induction false} BeforeIsClean(s: string, mark: char)
    ensures mark !in Before(s, mark)
    ensures mark !in s ==> Before(s, mark) == s
    ensures forall ch :: ch in Before(s, mark) ==> ch in s
  {
    if s != "" && s[0] != mark {
      BeforeIsClean(s[1..], mark);
      assert s == [s[0]] + s[1..];
    }
  }

  lemma {:induction false} WordLengthStops(s: string)
    ensures forall ch :: ch in s[..WordLength(s)] ==> !IsSpace(ch)
    ensures WordLength(s) < |s| ==> IsSpace(s[WordLength(s)])
  {
    if s != "" && !IsSpace(s[0]) {
      WordLengthStops(s[1..]);
      assert s[..WordLength(s)] == [s[0]] + s[1..][..WordLength(s[1..])];
    }
  }

  /** A word is not empty, and its characters are characters of the text, none of them space. */
  lemma {:induction false} WordsAreClean(s: string, i: nat)
    requires i < |Words(s)|
    ensures Words(s)[i] != "" && forall ch :: ch in Words(s)[i] ==> ch in s && !IsSpace(ch)
    decreases |s|
  {
    if IsSpace(s[0]) {
      WordsAreClean(s[1..], i);
    } else {
      WordLengthStops(s);
      if i > 0 {
        WordsAreClean(s[WordLength(s)..], i - 1);
      }
    }
  }

  lemma PartsAreClean(raw: string, i: nat)
    requires i < |Parts(raw)|
    ensures Parts(raw)[i] != "" && forall ch :: ch in Parts(raw)[i] ==> ch != '#' && !IsSpace(ch)
  {
    var line := Strip(raw);
    BeforeIsClean(line, '#');
    var cut := if '#' in line then Strip(Before(line, '#')) else line;
    if '#' in line {
      StripLeftKeeps(Before(line, '#'));
      StripRightDone(StripLeft(Before(line, '#')));
    }
    WordsAreClean(cut, i);
  }

  lemma {:induction false} StripLeftKeeps(s: string)
    ensures forall ch :: ch in StripLeft(s) ==> ch in s
  {
    if s != "" && IsSpace(s[0]) {
      StripLeftKeeps(s[1..]);
    }
  }
}
