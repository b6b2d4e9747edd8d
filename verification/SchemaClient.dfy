/** One client of the schema cache as the code has it: an object with an in-memory cache, on a disk
    other objects may share. Each call, run without interruption, is a run of the step system of
    `SchemaCache`, so every theorem about runs is about these methods too. */
module SchemaClient {
  import opened Wrappers
  import opened JsonValues
  import opened SchemaCache
  import CacheNames

  /** Where a store gives up: before the temp file exists, with it half written, before the rename,
      or not at all. Disabled caching is a store that gives up at once. */
  datatype Fault = NoTemp | HalfWritten | NotRenamed | NoFault

  function Stored(files: map<Path, File>, target: Path, pid: nat, entry: Entry, fault: Fault): map<Path, File> {
    var temp := TempPath(target, pid);
    match fault
    case NoTemp => files
    case HalfWritten => files[temp := Torn]
    case NotRenamed => files[temp := Whole(entry)]
    case NoFault => (files - {temp})[target := Whole(entry)]
  }

  class Disk {
    var files: map<Path, File>

    constructor (files: map<Path, File>)
      ensures this.files == files
    {
      this.files := files;
    }

    /** `load_cached_schema`; `readable` is false for a disabled cache or an unreadable file. */
    method Load(c: Config, url: string, command: string, now: real, readable: bool) returns (r: Option<Json>)
      ensures var p := FinalPath(c, url, command);
        r == if readable && p in files && files[p].Whole? && files[p].entry.schema.Object?
                && now - files[p].entry.fetchedAt <= c.ttl then Some(files[p].entry.schema) else None
    {
      var p := FinalPath(c, url, command);
      if !readable || p !in files || files[p].Torn? {
        return None;
      }
      var raw := EntryDocument(files[p].entry.fetchedAt, files[p].entry.schema);
      r := LoadDocument(raw, now, c.ttl);
      assert raw.fields[1..] == [Field("schema", files[p].entry.schema)];
      assert Get(raw.fields, "schema") == Get(raw.fields[1..], "schema");
    }

    /** `store_cached_schema` */
    method Store(target: Path, pid: nat, entry: Entry, fault: Fault)
      modifies this
      ensures files == Stored(old(files), target, pid, entry, fault)
    {
      var temp := TempPath(target, pid);
      if fault == NoTemp {
        return;
      }
      files := files[temp := Torn];
      if fault == HalfWritten {
        return;
      }
      files := files[temp := Whole(entry)];
      if fault == NotRenamed {
        return;
      }
      files := (files - {temp})[target := files[temp]];
    }

    /** `clear_cached_schemas`; an entry for which `removable` is false fails to unlink and is skipped. */
    method Clear(dir: string, removable: Path -> bool, ghost c: Config, ghost s: State, ghost k: nat)
      returns (ghost steps: seq<Step>)
      requires k in s.clears && s.disk == files && s.clears[k].remaining == set p | p in files && p.dir == dir
      modifies this
      ensures files == Unlinked(old(files), set p | p in old(files) && p.dir == dir && removable(p))
      ensures Legal(c, s, steps)
      ensures Run(c, s, steps) == Clearing(s, k, {}, files)
    {
      hide Run, Legal, Apply;
      ghost var was := files;
      var remaining := set p | p in files && p.dir == dir;
      steps := [];
      StartOfRun(c, s);
      assert Clearing(s, k, remaining, files) == s;
      while remaining != {}
        invariant remaining <= set p | p in was && p.dir == dir
        invariant files == Unlinked(was, set p | p in was && p.dir == dir && removable(p) && p !in remaining)
        invariant Legal(c, s, steps) && Run(c, s, steps) == Clearing(s, k, remaining, files)
      {
        var p :| p in remaining;
        UnlinkStep(c, s, k, remaining, files, p, removable(p), steps);
        steps := steps + [Unlink(k, p, removable(p))];
        if removable(p) {
          files := files - {p};
        }
        remaining := remaining - {p};
      }
    }
  }

  function Unlinked(files: map<Path, File>, gone: set<Path>): map<Path, File> {
    map p | p in files && p !in gone :: files[p]
  }

  /** The state in which clear `k` still has `remaining` to unlink. */
  ghost function Clearing(s: State, k: nat, remaining: set<Path>, files: map<Path, File>): State
    requires k in s.clears
  {
    s.(disk := files, clears := s.clears[k := s.clears[k].(remaining := remaining)])
  }

  lemma UnlinkStep(c: Config, s: State, k: nat, remaining: set<Path>, files: map<Path, File>, p: Path, ok: bool,
      steps: seq<Step>)
    requires k in s.clears && p in remaining
    requires Legal(c, s, steps) && Run(c, s, steps) == Clearing(s, k, remaining, files)
    ensures Legal(c, s, steps + [Unlink(k, p, ok)])
    ensures Run(c, s, steps + [Unlink(k, p, ok)]) == Clearing(s, k, remaining - {p}, if ok then files - {p} else files)
  {
    hide Run, Legal;
    Extend(c, s, steps, Unlink(k, p, ok));
    var here := Clearing(s, k, remaining, files);
    assert here.clears[k := here.clears[k].(remaining := remaining - {p})]
      == s.clears[k := s.clears[k].(remaining := remaining - {p})];
  }

  lemma StartOfRun(c: Config, s: State)
    ensures Legal(c, s, []) && Run(c, s, []) == s
  {
  }

  lemma {:induction false} Extend(c: Config, s: State, steps: seq<Step>, step: Step)
    requires Legal(c, s, steps) && Enabled(c, Run(c, s, steps), step)
    ensures Legal(c, s, steps + [step])
    ensures Run(c, s, steps + [step]) == Apply(c, Run(c, s, steps), step)
    decreases |steps|
  {
    var longer := steps + [step];
    if steps == [] {
      assert longer[1..] == [];
    } else {
      assert longer[0] == steps[0] && longer[1..] == steps[1..] + [step];
      Extend(c, Apply(c, s, steps[0]), steps[1..], step);
    }
  }

  lemma {:induction false} Join(c: Config, s: State, a: seq<Step>, b: seq<Step>)
    requires Legal(c, s, a) && Legal(c, Run(c, s, a), b)
    ensures Legal(c, s, a + b) && Run(c, s, a + b) == Run(c, Run(c, s, a), b)
    decreases |a|
  {
    if a == [] {
      assert a + b == b;
    } else {
      assert (a + b)[0] == a[0] && (a + b)[1..] == a[1..] + b;
      Join(c, Apply(c, s, a[0]), a[1..], b);
    }
  }

  function StoreSteps(pid: nat, fault: Fault): seq<Step> {
    match fault
    case NoTemp => [Abandon(pid)]
    case HalfWritten => [OpenTemp(pid), Abandon(pid)]
    case NotRenamed => [OpenTemp(pid), WriteTemp(pid), Abandon(pid)]
    case NoFault => [OpenTemp(pid), WriteTemp(pid), Rename(pid)]
  }

  /** A store that is not interrupted is its file operations in order, up to where it gives up. */
  lemma StoreIsARun(c: Config, s: State, pid: nat, fault: Fault)
    requires pid in s.stores && s.stores[pid].Stamped?
    ensures Legal(c, s, StoreSteps(pid, fault))
    ensures Run(c, s, StoreSteps(pid, fault))
         == s.(stores := s.stores - {pid},
               disk := Stored(s.disk, s.stores[pid].target, pid, s.stores[pid].entry, fault))
  {
    hide Run, Legal;
    var temp, entry := TempPath(s.stores[pid].target, pid), s.stores[pid].entry;
    StartOfRun(c, s);
    if fault == NoTemp {
      var _ := Stepped(c, s, [], Abandon(pid));
      assert [] + [Abandon(pid)] == [Abandon(pid)];
    } else {
      var begun := Stepped(c, s, [], OpenTemp(pid));
      assert begun.stores - {pid} == s.stores - {pid};
      if fault == HalfWritten {
        var _ := Stepped(c, s, [] + [OpenTemp(pid)], Abandon(pid));
        assert [] + [OpenTemp(pid)] + [Abandon(pid)] == [OpenTemp(pid), Abandon(pid)];
      } else {
        WrittenRun(c, s, pid, fault, begun);
      }
    }
  }

  lemma WrittenRun(c: Config, s: State, pid: nat, fault: Fault, begun: State)
    requires pid in s.stores && s.stores[pid].Stamped? && (fault == NotRenamed || fault == NoFault)
    requires Legal(c, s, [] + [OpenTemp(pid)]) && begun == Run(c, s, [] + [OpenTemp(pid)]) == Apply(c, s, OpenTemp(pid))
    ensures Legal(c, s, StoreSteps(pid, fault))
    ensures Run(c, s, StoreSteps(pid, fault))
         == s.(stores := s.stores - {pid},
               disk := Stored(s.disk, s.stores[pid].target, pid, s.stores[pid].entry, fault))
  {
    hide Run, Legal;
    var temp, entry := TempPath(s.stores[pid].target, pid), s.stores[pid].entry;
    var written := Stepped(c, s, [] + [OpenTemp(pid)], WriteTemp(pid));
    assert written.stores - {pid} == s.stores - {pid};
    assert s.disk[temp := Torn][temp := Whole(entry)] == s.disk[temp := Whole(entry)];
    assert s.disk[temp := Whole(entry)] - {temp} == s.disk - {temp};
    var last := if fault == NoFault then Rename(pid) else Abandon(pid);
    var _ := Stepped(c, s, [] + [OpenTemp(pid)] + [WriteTemp(pid)], last);
    assert [] + [OpenTemp(pid)] + [WriteTemp(pid)] + [last] == [OpenTemp(pid), WriteTemp(pid), last];
  }

  lemma Stepped(c: Config, s: State, steps: seq<Step>, step: Step) returns (next: State)
    requires Legal(c, s, steps) && Enabled(c, Run(c, s, steps), step)
    ensures Legal(c, s, steps + [step])
    ensures next == Run(c, s, steps + [step]) == Apply(c, Run(c, s, steps), step)
  {
    Extend(c, s, steps, step);
    next := Run(c, s, steps + [step]);
  }

  /** What the network does with one `help` request: when it is answered, when the answer has been
      received and stamped, and whether the call fails instead. */
  datatype Exchange = Exchange(served: real, stamped: real, fails: bool)

  ghost predicate CanFetch(c: Config, s: State, begin: Step, x: Exchange) {
    && begin.BeginFetch? && begin.task == 0 && Enabled(c, s, begin)
    && s.tasks == map[] && s.stores == map[]
    && s.now <= x.served <= x.stamped <= s.now + c.roundTrip
  }

  lemma FetchFailsRun(c: Config, s: State, begin: Step, x: Exchange) returns (steps: seq<Step>)
    requires CanFetch(c, s, begin, x)
    ensures Legal(c, s, steps) && Run(c, s, steps) == s.(now := x.served)
  {
    hide Run, Legal;
    StartOfRun(c, s);
    var t := Stepped(c, s, [], begin);
    t := Stepped(c, s, [] + [begin], Advance(x.served));
    t := Stepped(c, s, [] + [begin] + [Advance(x.served)], FetchFails(0));
    steps := [] + [begin] + [Advance(x.served)] + [FetchFails(0)];
    assert t.tasks == map[];
  }

  lemma FetchRun(c: Config, s: State, begin: Step, x: Exchange) returns (steps: seq<Step>, next: State)
    requires CanFetch(c, s, begin, x)
    requires c.server(s.clients[begin.id].url, begin.command, x.served).Object?
    ensures Legal(c, s, steps) && next == Run(c, s, steps)
    ensures var cl := s.clients[begin.id];
      var schema := c.server(cl.url, begin.command, x.served);
      var origin := Origin(cl.url, begin.command, s.now, x.served);
      next == s.(
        now := x.stamped,
        clients := Remember(s.(now := x.stamped), begin.id, begin.command, schema, origin),
        stores := map[cl.pid := Stamped(FinalPath(c, cl.url, begin.command), Entry(x.stamped, schema, origin))],
        answers := s.answers + [Return(begin.id, begin.command, schema, x.stamped, Network, origin)])
  {
    hide Run, Legal;
    StartOfRun(c, s);
    steps := [];
    next := Stepped(c, s, steps, begin);
    steps := steps + [begin];
    next := Stepped(c, s, steps, Advance(x.served));
    steps := steps + [Advance(x.served)];
    next := Stepped(c, s, steps, Serve(0));
    steps := steps + [Serve(0)];
    next := Stepped(c, s, steps, Advance(x.stamped));
    steps := steps + [Advance(x.stamped)];
    next := Stepped(c, s, steps, Receive(0));
    steps := steps + [Receive(0)];
    assert next.tasks == map[];
  }

  lemma MemoryHitRun(c: Config, s: State, command: string) returns (steps: seq<Step>)
    requires 0 in s.clients && command in s.clients[0].memory
    ensures Legal(c, s, steps)
    ensures var m := s.clients[0].memory[command];
      Run(c, s, steps) == s.(answers := s.answers + [Return(0, command, m.schema, s.now, Memory, m.origin)])
  {
    hide Run, Legal;
    StartOfRun(c, s);
    var _ := Stepped(c, s, [], MemoryHit(0, command));
    steps := [] + [MemoryHit(0, command)];
  }

  lemma DiskHitRun(c: Config, s: State, command: string) returns (steps: seq<Step>)
    requires 0 in s.clients && command in c.commands && command !in s.clients[0].memory
    requires DiskFresh(c, s, s.clients[0].url, command)
    ensures Legal(c, s, steps)
    ensures var e := s.disk[FinalPath(c, s.clients[0].url, command)].entry;
      Run(c, s, steps) == s.(
        clients := Remember(s, 0, command, e.schema, e.origin),
        answers := s.answers + [Return(0, command, e.schema, s.now, Disk, e.origin)])
  {
    hide Run, Legal;
    StartOfRun(c, s);
    var _ := Stepped(c, s, [], DiskHit(0, command));
    steps := [] + [DiskHit(0, command)];
  }

  lemma MayFetch(c: Config, s: State, command: string, refresh: bool, unreadable: bool)
    requires 0 in s.clients && s.tasks == map[] && command in c.commands
    requires refresh || (command !in s.clients[0].memory
                         && (unreadable || !DiskFresh(c, s, s.clients[0].url, command)))
    ensures Enabled(c, s, BeginFetch(0, 0, command, refresh, unreadable))
  {
  }

  /** A fetch that succeeds, and the store after it, as one run. */
  lemma FetchAndStoreRun(c: Config, s: State, begin: Step, x: Exchange, fault: Fault) returns (steps: seq<Step>)
    requires CanFetch(c, s, begin, x)
    requires c.server(s.clients[begin.id].url, begin.command, x.served).Object?
    ensures Legal(c, s, steps)
    ensures var cl := s.clients[begin.id];
      var schema := c.server(cl.url, begin.command, x.served);
      var origin := Origin(cl.url, begin.command, s.now, x.served);
      Run(c, s, steps) == s.(
        now := x.stamped,
        clients := Remember(s.(now := x.stamped), begin.id, begin.command, schema, origin),
        disk := Stored(s.disk, FinalPath(c, cl.url, begin.command), cl.pid, Entry(x.stamped, schema, origin), fault),
        answers := s.answers + [Return(begin.id, begin.command, schema, x.stamped, Network, origin)])
  {
    hide Run, Legal, Stored, Remember, FinalPath;
    var fetched, next := FetchRun(c, s, begin, x);
    var pid := s.clients[begin.id].pid;
    StoreIsARun(c, next, pid, fault);
    Join(c, s, fetched, StoreSteps(pid, fault));
    steps := fetched + StoreSteps(pid, fault);
    assert next.stores - {pid} == map[];
  }

  class SchemaClient {
    const url: string
    const pid: nat
    ghost const created: real
    const disk: Disk
    var memory: map<string, Json>
    var now: real
    // history: where each remembered schema came from, and what was returned
    ghost var cached: map<string, Cached>
    ghost var clears: map<nat, Clear>
    ghost var nextClear: nat
    ghost var answers: seq<Return>

    constructor (url: string, pid: nat, disk: Disk, now: real)
      ensures this.url == url && this.pid == pid && this.disk == disk && this.now == now && created == now
      ensures memory == map[] && answers == [] && Valid()
    {
      this.url, this.pid, this.disk, this.now, created := url, pid, disk, now, now;
      memory, cached, clears, nextClear, answers := map[], map[], map[], 0, [];
    }

    ghost predicate Valid()
      reads this
    {
      && memory == (map k | k in cached :: cached[k].schema)
      && forall k :: k in clears ==> k < nextClear
    }

    /** This client alone on its disk, as a state of the step system. */
    ghost function View(): State
      reads this, disk
    {
      State(now, map[0 := Client(url, pid, created, cached)], map[], map[], clears, disk.files, answers)
    }

    /** `get_command_schema`: memory, then disk, then the server. None is a raised fetch error. */
    method GetCommandSchema(c: Config, command: string, refresh: bool, readable: bool, x: Exchange, fault: Fault)
      returns (r: Option<Json>, ghost steps: seq<Step>)
      requires Valid() && command in c.commands && url in c.urls
      requires now <= x.served <= x.stamped <= now + c.roundTrip
      modifies this, disk
      ensures Valid()
      ensures Legal(c, old(View()), steps) && View() == Run(c, old(View()), steps)
      ensures r.Some? ==> |answers| == |old(answers)| + 1 && answers[..|old(answers)|] == old(answers)
      ensures r.Some? ==> answers[|old(answers)|].command == command && answers[|old(answers)|].schema == r.value
      ensures r.Some? <==>
                || (!refresh && command in old(memory))
                || (!refresh && readable && DiskFresh(c, old(View()), url, command))
                || (!x.fails && c.server(url, command, x.served).Object?)
      ensures r.Some? && answers[|old(answers)|].via == Memory <==> !refresh && command in old(memory)
      ensures r.Some? && answers[|old(answers)|].via == Memory ==> r.value == old(memory)[command]
      ensures r.Some? && answers[|old(answers)|].via == Disk <==>
                !refresh && command !in old(memory) && readable && DiskFresh(c, old(View()), url, command)
      ensures r.Some? && answers[|old(answers)|].via == Disk ==>
                r.value == old(disk.files)[FinalPath(c, url, command)].entry.schema
      ensures r.Some? && answers[|old(answers)|].via == Network ==>
                r.value == c.server(url, command, x.served)
                && disk.files == Stored(old(disk.files), FinalPath(c, url, command), pid,
                     Entry(x.stamped, r.value, Origin(url, command, old(now), x.served)), fault)
      ensures r.Some? && answers[|old(answers)|].via != Network ==> disk.files == old(disk.files) && now == old(now)
      ensures r.Some? ==> memory == old(memory)[command := r.value]
      ensures r.None? ==> answers == old(answers) && memory == old(memory) && disk.files == old(disk.files)
    {
      hide Run, Legal, FinalPath, DiskFresh, Stored, Enabled, Apply;
      ghost var start := View();
      if !refresh && command in memory {
        r := Some(memory[command]);
        steps := MemoryHitRun(c, start, command);
        answers := answers + [Return(0, command, memory[command], now, Memory, cached[command].origin)];
        return;
      }
      if !refresh {
        LoadIsFreshness(c, start, url, command);
        var loaded := disk.Load(c, url, command, now, readable);
        if loaded.Some? {
          ghost var e := disk.files[FinalPath(c, url, command)].entry;
          steps := DiskHitRun(c, start, command);
          r, memory := loaded, memory[command := loaded.value];
          cached := cached[command := Cached(e.schema, e.origin, now)];
          answers := answers + [Return(0, command, e.schema, now, Disk, e.origin)];
          return;
        }
      }
      MayFetch(c, start, command, refresh, !readable);
      r, steps := Fetch(c, command, refresh, x, fault, !readable);
    }

    /** The tail of `get_command_schema`: ask the server, remember, store. */
    method Fetch(c: Config, command: string, ghost refresh: bool, x: Exchange, fault: Fault, ghost unreadable: bool)
      returns (r: Option<Json>, ghost steps: seq<Step>)
      requires Valid() && Enabled(c, View(), BeginFetch(0, 0, command, refresh, unreadable))
      requires now <= x.served <= x.stamped <= now + c.roundTrip
      modifies this, disk
      ensures Valid()
      ensures Legal(c, old(View()), steps) && View() == Run(c, old(View()), steps)
      ensures r.Some? <==> !x.fails && c.server(url, command, x.served).Object?
      ensures r.None? ==> answers == old(answers) && memory == old(memory) && disk.files == old(disk.files)
      ensures r.Some? ==> r.value == c.server(url, command, x.served) && memory == old(memory)[command := r.value]
      ensures r.Some? ==>
                disk.files == Stored(old(disk.files), FinalPath(c, url, command), pid,
                  Entry(x.stamped, r.value, Origin(url, command, old(now), x.served)), fault)
      ensures r.Some? ==>
                answers == old(answers) + [Return(0, command, r.value, x.stamped, Network,
                  Origin(url, command, old(now), x.served))]
    {
      hide Run, Legal, Enabled, Stored, FinalPath, Apply;
      ghost var start, begin := View(), BeginFetch(0, 0, command, refresh, unreadable);
      var asked := now;
      now := x.served;
      var schema := c.server(url, command, now);
      if x.fails || !schema.Object? {
        steps := FetchFailsRun(c, start, begin, x);
        return None, steps;
      }
      steps := FetchAndStoreRun(c, start, begin, x, fault);
      now := x.stamped;
      var origin := Origin(url, command, asked, x.served);
      memory := memory[command := schema];
      cached := cached[command := Cached(schema, origin, now)];
      answers := answers + [Return(0, command, schema, now, Network, origin)];
      disk.Store(FinalPath(c, url, command), pid, Entry(now, schema, origin), fault);
      r := Some(schema);
    }

    /** `clear_command_schema_cache` */
    method ClearCommandSchemaCache(c: Config, removable: Path -> bool) returns (ghost steps: seq<Step>)
      requires Valid()
      modifies this, disk
      ensures Valid() && memory == map[] && now == old(now) && answers == old(answers)
      ensures disk.files
        == Unlinked(old(disk.files), set p | p in old(disk.files) && p.dir == c.serverKey(url) && removable(p))
      ensures Legal(c, old(View()), steps) && View() == Run(c, old(View()), steps)
    {
      hide Run, Legal, Apply, Enabled, Unlinked;
      ghost var start, k := View(), nextClear;
      ghost var s := BeginClearRun(c, start, k);
      memory, cached := map[], map[];
      clears, nextClear := s.clears, nextClear + 1;
      ghost var rest := disk.Clear(c.serverKey(url), removable, c, s, k);
      Join(c, start, [] + [BeginClear(k, 0)], rest);
      steps := [] + [BeginClear(k, 0)] + rest;
      clears := clears[k := clears[k].(remaining := {})];
    }
  }

  lemma BeginClearRun(c: Config, s: State, k: nat) returns (next: State)
    requires 0 in s.clients && k !in s.clears
    ensures Legal(c, s, [] + [BeginClear(k, 0)]) && next == Run(c, s, [] + [BeginClear(k, 0)])
    ensures var cl := s.clients[0];
      var dir := c.serverKey(cl.url);
      next == s.(
        clients := s.clients[0 := cl.(memory := map[])],
        clears := s.clears[k := Clear(0, dir, set p | p in s.disk && p.dir == dir)])
  {
    hide Run, Legal;
    StartOfRun(c, s);
    next := Stepped(c, s, [], BeginClear(k, 0));
  }

  /** With nobody else at work and every file removable, a get right after a clear returns what the
      server answers now, whatever either cache held before. */
  method GetAfterClear(c: Config, client: SchemaClient, command: string, refresh: bool, readable: bool, x: Exchange,
      fault: Fault)
    returns (r: Option<Json>)
    requires client.Valid() && command in c.commands && client.url in c.urls
    requires client.now <= x.served <= x.stamped <= client.now + c.roundTrip
    modifies client, client.disk
    ensures r.Some? ==> r.value == c.server(client.url, command, x.served)
  {
    ghost var _ := client.ClearCommandSchemaCache(c, p => true);
    ghost var cleared := client.View();
    assert FinalPath(c, client.url, command).dir == c.serverKey(client.url);
    assert !DiskFresh(c, cleared, client.url, command);
    ghost var steps;
    r, steps := client.GetCommandSchema(c, command, refresh, readable, x, fault);
  }

  /** Two commands with one file name: what one client stored for the first, the next client gets for
      the second, be that schema what the server gives for the second or not. */
  method CollisionAnswersForAnother(c: Config, url: string, a: string, b: string, pid: nat, now: real, x: Exchange)
    returns (r: Option<Json>)
    requires url in c.urls && a in c.commands && b in c.commands
    requires CacheNames.SafeFilename(c.alnum, a) == CacheNames.SafeFilename(c.alnum, b)
    requires now <= x.served <= x.stamped <= now + c.roundTrip && c.ttl >= 0.0
    requires !x.fails && c.server(url, a, x.served).Object?
    ensures r == Some(c.server(url, a, x.served))
  {
    hide Run, Legal;
    var disk := new Disk(map[]);
    var first := new SchemaClient(url, pid, disk, now);
    ghost var steps;
    r, steps := first.GetCommandSchema(c, a, true, true, x, NoFault);
    var second := new SchemaClient(url, pid, disk, x.stamped);
    LoadIsFreshness(c, second.View(), url, b);
    r, steps := second.GetCommandSchema(c, b, false, true, Exchange(x.stamped, x.stamped, true), NoFault);
  }

  /** Two different commands of letters, digits and the three marks: what was stored for the first never
      answers for the second, whose get goes to the server. */
  method PlainCommandsAnswerForThemselves(c: Config, url: string, a: string, b: string, pid: nat, now: real,
      x: Exchange, y: Exchange)
    returns (r: Option<Json>)
    requires url in c.urls && a in c.commands && b in c.commands && a != b
    requires (forall ch :: ch in a ==> c.alnum(ch) || ch == '-' || ch == '_' || ch == '.')
    requires (forall ch :: ch in b ==> c.alnum(ch) || ch == '-' || ch == '_' || ch == '.')
    requires now <= x.served <= x.stamped <= now + c.roundTrip
    requires x.stamped <= y.served <= y.stamped <= x.stamped + c.roundTrip
    requires !x.fails && c.server(url, a, x.served).Object?
    ensures r == if !y.fails && c.server(url, b, y.served).Object? then Some(c.server(url, b, y.served)) else None
  {
    hide Run, Legal;
    var disk := new Disk(map[]);
    var first := new SchemaClient(url, pid, disk, now);
    ghost var steps;
    r, steps := first.GetCommandSchema(c, a, true, true, x, NoFault);
    var second := new SchemaClient(url, pid, disk, x.stamped);
    CacheNames.PlainCommandsKeepApart(c.alnum, a, b);
    assert FinalPath(c, url, b) !in disk.files;
    LoadIsFreshness(c, second.View(), url, b);
    r, steps := second.GetCommandSchema(c, b, false, true, y, NoFault);
  }

  lemma LoadIsFreshness(c: Config, s: State, url: string, command: string)
    ensures var p := FinalPath(c, url, command);
      DiskFresh(c, s, url, command) <==>
        p in s.disk && s.disk[p].Whole? && s.disk[p].entry.schema.Object? && s.now - s.disk[p].entry.fetchedAt <= c.ttl
  {
    var p := FinalPath(c, url, command);
    if p in s.disk && s.disk[p].Whole? {
      var e := s.disk[p].entry;
      if e.schema.Object? {
        StoreLoadRoundTrip(e.fetchedAt, e.schema, s.now, c.ttl);
      } else {
        var fields := EntryDocument(e.fetchedAt, e.schema).fields;
        assert fields[1..] == [Field("schema", e.schema)];
        assert Get(fields, "schema") == Get(fields[1..], "schema");
      }
    }
  }
}
