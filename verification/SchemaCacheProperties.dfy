/** What holds in every run of the shared schema cache. */
module SchemaCacheProperties {
  import opened Wrappers
  import opened JsonValues
  import opened SchemaCache
  import CacheNames

  // ---------------------------------------------------------------- every step keeps the invariant

  lemma TempPathFacts(p: Path, pid: nat, q: Path, pid': nat)
    ensures !CacheNames.IsFinalName(TempPath(p, pid).name)
    ensures TempPath(p, pid) == TempPath(q, pid') ==> pid == pid'
  {
    CacheNames.TempIsNotFinal(p.name, pid);
    if TempPath(p, pid) == TempPath(q, pid') {
      CacheNames.TempNamesInjective(p.name, pid, q.name, pid');
    }
  }

  lemma TargetIsFinal(c: Config, e: Entry, p: Path, now: real)
    requires EntryOk(c, p, e, now)
    ensures CacheNames.IsFinalName(p.name)
  {
    CacheNames.FinalNames(c.alnum, e.origin.command);
  }

  lemma DiskStep(c: Config, s: State, step: Step)
    requires Inv(c, s) && Enabled(c, s, step)
    ensures DiskOk(c, Apply(c, s, step).disk, Apply(c, s, step).now)
  {
    hide AnswersOk, ClientsOk, ClearsOk, TasksOk, DiskFresh, CacheNames.SafeFilename, CacheNames.TempName;
    hide CacheNames.IsFinalName, LoadDocument;
    var pid := match step case OpenTemp(pid) => pid case WriteTemp(pid) => pid case Rename(pid) => pid case _ => 0;
    if (step.OpenTemp? || step.WriteTemp? || step.Rename?) {
      var st := s.stores[pid];
      TempPathFacts(st.target, pid, st.target, pid);
      TargetIsFinal(c, st.entry, st.target, s.now);
    }
  }

  /** A store in progress is for a proper entry, and its finished temp file holds that entry. */
  ghost predicate StoreOk(c: Config, s: State, pid: nat)
    requires pid in s.stores
  {
    var st := s.stores[pid];
    && EntryOk(c, st.target, st.entry, s.now)
    && (st.Written? && TempPath(st.target, pid) in s.disk ==> s.disk[TempPath(st.target, pid)] == Whole(st.entry))
  }

  predicate WritesFiles(step: Step) {
    step.OpenTemp? || step.WriteTemp? || step.Rename?
  }

  lemma StoreKept(c: Config, s: State, step: Step, pid: nat)
    requires Inv(c, s) && Enabled(c, s, step) && pid in Apply(c, s, step).stores && !WritesFiles(step)
    ensures StoreOk(c, Apply(c, s, step), pid)
  {
    hide DiskOk, ClientsOk, AnswersOk, ClearsOk, TasksOk, DiskFresh, CacheNames.SafeFilename, TempPath;
    assert pid in s.stores ==> StoreOk(c, s, pid);
    if step.Receive? {
      AnsweredTask(c, s, step.task);
    }
  }

  lemma StoreAfterWrite(c: Config, s: State, step: Step, pid: nat)
    requires Inv(c, s) && Enabled(c, s, step) && pid in Apply(c, s, step).stores && WritesFiles(step)
    ensures StoreOk(c, Apply(c, s, step), pid)
  {
    hide DiskOk, ClientsOk, AnswersOk, ClearsOk, TasksOk, Provenance, FinalPath, CacheNames.TempName;
    hide CacheNames.IsFinalName;
    var other, st := step.pid, s.stores[pid];
    assert StoreOk(c, s, pid) && StoreOk(c, s, other);
    TempPathFacts(st.target, pid, s.stores[other].target, other);
    TempPathFacts(s.stores[other].target, other, st.target, pid);
    TargetIsFinal(c, s.stores[other].entry, s.stores[other].target, s.now);
  }

  lemma StoresStep(c: Config, s: State, step: Step)
    requires Inv(c, s) && Enabled(c, s, step)
    ensures StoresOk(c, Apply(c, s, step))
  {
    hide Apply, Inv, EntryOk, TempPath;
    forall pid | pid in Apply(c, s, step).stores
      ensures StoreOk(c, Apply(c, s, step), pid)
    {
      if WritesFiles(step) {
        StoreAfterWrite(c, s, step, pid);
      } else {
        StoreKept(c, s, step, pid);
      }
    }
  }

  /** Remembering a schema that is good now keeps every client's memory good. */
  lemma RememberedOk(c: Config, s: State, id: nat, command: string, schema: Json, origin: Origin, s': State)
    requires ClientsOk(c, s) && id in s.clients
    requires s'.clients == Remember(s, id, command, schema, origin) && s'.now == s.now
    requires CachedOk(c, s.clients[id], command, Cached(schema, origin, s.now), s.now)
    ensures ClientsOk(c, s')
  {
    hide Provenance;
  }

  lemma ClientsStep(c: Config, s: State, step: Step)
    requires Distinct(c) && Inv(c, s) && Enabled(c, s, step)
    ensures ClientsOk(c, Apply(c, s, step))
  {
    hide DiskOk, StoresOk, AnswersOk, ClearsOk, TasksOk, DiskFresh, FinalPath, TempPath;
    var s' := Apply(c, s, step);
    match step
    case DiskHit(id, command) =>
      DiskHitEntry(c, s, id, command);
      var e := s.disk[FinalPath(c, s.clients[id].url, command)].entry;
      RememberedOk(c, s, id, command, e.schema, e.origin, s');
    case Receive(task) =>
      AnsweredTask(c, s, task);
      var t := s.tasks[task];
      RememberedOk(c, s, t.client, t.command, t.schema, t.origin, s');
    case _ => MemoriesKept(c, s, step);
  }

  lemma MemoriesKept(c: Config, s: State, step: Step)
    requires ClientsOk(c, s) && Enabled(c, s, step) && !step.DiskHit? && !step.Receive?
    ensures ClientsOk(c, Apply(c, s, step))
  {
    hide DiskFresh, CacheNames.SafeFilename, CacheNames.TempName;
  }

  lemma AnsweredTask(c: Config, s: State, task: nat)
    requires Inv(c, s) && task in s.tasks && s.tasks[task].Answered?
    ensures var t := s.tasks[task];
      && t.client in s.clients && t.command in c.commands && Provenance(c, t.origin, t.schema, s.now)
      && t.origin.url == s.clients[t.client].url && t.origin.command == t.command
  {
    assert TaskOk(c, s, s.tasks[task]);
  }

  /** A disk hit finds an entry fetched for that very command from that very server, and its age
      since stamping is within the time to live. */
  lemma DiskHitEntry(c: Config, s: State, id: nat, command: string)
    requires Distinct(c) && Inv(c, s) && Enabled(c, s, DiskHit(id, command))
    ensures var p := FinalPath(c, s.clients[id].url, command);
      && p in s.disk && s.disk[p].Whole?
      && var e := s.disk[p].entry;
      && EntryOk(c, p, e, s.now)
      && e.origin.url == s.clients[id].url && e.origin.command == command
      && s.now - e.fetchedAt <= c.ttl
  {
    var p := FinalPath(c, s.clients[id].url, command);
    CacheNames.FinalNames(c.alnum, command);
    var e := s.disk[p].entry;
    StoreLoadRoundTrip(e.fetchedAt, e.schema, s.now, c.ttl);
  }

  lemma TasksStep(c: Config, s: State, step: Step)
    requires Inv(c, s) && Enabled(c, s, step)
    ensures TasksOk(c, Apply(c, s, step))
  {
    hide DiskOk, StoresOk, ClientsOk, ClearsOk, AnswersOk, TaskOk, DiskFresh;
    var s' := Apply(c, s, step);
    forall t | t in s'.tasks
      ensures TaskOk(c, s', s'.tasks[t])
    {
      if t in s.tasks && s'.tasks[t] == s.tasks[t] {
        Growth(c, s, step);
        TaskKept(c, s, s', s.tasks[t]);
      } else {
        NewTaskOk(c, s, step, t);
      }
    }
  }

  lemma TaskKept(c: Config, s: State, s': State, t: Task)
    requires TaskOk(c, s, t) && ClientsGrow(s, s') && s.now <= s'.now
    ensures TaskOk(c, s', t)
  {
  }

  /** The two steps that change a task: it starts asking, or its answer is made. */
  lemma NewTaskOk(c: Config, s: State, step: Step, t: nat)
    requires ClientsOk(c, s) && TasksOk(c, s) && Enabled(c, s, step)
    requires (step.BeginFetch? || step.Serve?) && step.task == t
    ensures t in Apply(c, s, step).tasks && TaskOk(c, Apply(c, s, step), Apply(c, s, step).tasks[t])
  {
    hide DiskFresh;
    if step.Serve? {
      assert TaskOk(c, s, s.tasks[t]);
    }
  }

  /** The answer a step gives, if it gives one, is good. */
  lemma NewAnswerOk(c: Config, s: State, step: Step)
    requires Distinct(c) && Inv(c, s) && Enabled(c, s, step)
    requires step.MemoryHit? || step.DiskHit? || step.Receive?
    ensures var s' := Apply(c, s, step);
      |s'.answers| == |s.answers| + 1 && s'.answers[..|s.answers|] == s.answers
        && ReturnOk(c, s', s'.answers[|s.answers|])
  {
    hide DiskOk, StoresOk, ClearsOk, AnswersOk, TasksOk, DiskFresh, CacheNames.SafeFilename, CacheNames.TempName;
    hide LoadDocument;
    match step
    case MemoryHit(id, command) =>
      assert CachedOk(c, s.clients[id], command, s.clients[id].memory[command], s.now);
    case DiskHit(id, command) => DiskHitEntry(c, s, id, command);
    case Receive(task) => AnsweredTask(c, s, task);
  }

  lemma Growth(c: Config, s: State, step: Step)
    requires Enabled(c, s, step)
    ensures var s' := Apply(c, s, step);
      && ClientsGrow(s, s') && s.now <= s'.now
      && (!step.MemoryHit? && !step.DiskHit? && !step.Receive? ==> s'.answers == s.answers)
  {
    hide DiskFresh, CacheNames.SafeFilename, CacheNames.TempName;
  }

  lemma AnswersStep(c: Config, s: State, step: Step)
    requires Distinct(c) && Inv(c, s) && Enabled(c, s, step)
    ensures AnswersOk(c, Apply(c, s, step))
  {
    hide Apply, DiskOk, StoresOk, ClientsOk, TasksOk, ClearsOk, Enabled, AgeBound;
    var s' := Apply(c, s, step);
    Growth(c, s, step);
    if step.MemoryHit? || step.DiskHit? || step.Receive? {
      NewAnswerOk(c, s, step);
    }
    forall i | 0 <= i < |s.answers|
      ensures ReturnOk(c, s', s.answers[i])
    {
      assert ReturnOk(c, s, s.answers[i]);
      SameBound(c, s, s', s.answers[i]);
    }
    forall i | 0 <= i < |s'.answers|
      ensures ReturnOk(c, s', s'.answers[i])
    {
      if i < |s.answers| {
        assert s'.answers[i] == s'.answers[..|s.answers|][i] == s.answers[i];
      }
    }
  }

  lemma SameBound(c: Config, s: State, s': State, r: Return)
    requires r.client in s.clients && ClientsGrow(s, s')
    ensures AgeBound(c, s'.clients[r.client], r) == AgeBound(c, s.clients[r.client], r)
  {
  }

  ghost predicate ClientsGrow(s: State, s': State) {
    forall id :: id in s.clients ==>
      id in s'.clients && s'.clients[id].url == s.clients[id].url && s'.clients[id].created == s.clients[id].created
  }

  lemma InvStep(c: Config, s: State, step: Step)
    requires Distinct(c) && Inv(c, s) && Enabled(c, s, step)
    ensures Inv(c, Apply(c, s, step))
  {
    DiskStep(c, s, step);
    StoresStep(c, s, step);
    ClientsStep(c, s, step);
    TasksStep(c, s, step);
    AnswersStep(c, s, step);
    ClearsStep(c, s, step);
    hide Apply, Enabled, DiskOk, StoresOk, ClientsOk, TasksOk, AnswersOk, ClearsOk;
  }

  lemma ClearsStep(c: Config, s: State, step: Step)
    requires ClearsOk(s) && Enabled(c, s, step)
    ensures ClearsOk(Apply(c, s, step))
  {
    hide DiskFresh;
  }

  lemma {:induction false} InvRun(c: Config, s: State, steps: seq<Step>)
    requires Distinct(c) && Inv(c, s) && Legal(c, s, steps)
    ensures Inv(c, Run(c, s, steps))
    decreases |steps|
  {
    if steps != [] {
      InvStep(c, s, steps[0]);
      InvRun(c, Apply(c, s, steps[0]), steps[1..]);
    }
  }

  // ---------------------------------------------------------------- theorems over whole runs

  lemma InitialInv(c: Config, s: State)
    requires Initial(c, s)
    ensures Inv(c, s)
  {
  }

  /** Every schema ever returned was served, for that command, by that client's server, at an
      instant not too long ago: at most one round trip for a fetch, the time to live more for a disk
      hit, and the client's lifetime more for a memory hit, which never expires. */
  lemma AnswersAreGenuineAndFresh(c: Config, s: State, steps: seq<Step>)
    requires Distinct(c) && Initial(c, s) && Legal(c, s, steps)
    ensures var end := Run(c, s, steps);
      forall i :: 0 <= i < |end.answers| ==>
        var r := end.answers[i];
        && r.client in end.clients
        && r.schema == c.server(end.clients[r.client].url, r.command, r.origin.served)
        && r.origin.served <= r.at
        && var age, live := r.at - r.origin.served, if c.ttl > 0.0 then c.ttl else 0.0;
        && (r.via == Network ==> age <= c.roundTrip)
        && (r.via == Disk ==> age <= c.roundTrip + c.ttl)
        && (r.via == Memory ==> age <= c.roundTrip + live + (r.at - end.clients[r.client].created))
        && age <= AgeBound(c, end.clients[r.client], r)
  {
    InitialInv(c, s);
    InvRun(c, s, steps);
    var end := Run(c, s, steps);
    forall i | 0 <= i < |end.answers|
      ensures ReturnOk(c, end, end.answers[i])
    {
    }
  }

  /** If a server has not changed a command's schema within the age bound, what the caches return
      for it is what the server would answer now. */
  lemma AgreesWithASettledServer(c: Config, s: State, steps: seq<Step>, i: nat)
    requires Distinct(c) && Initial(c, s) && Legal(c, s, steps)
    requires i < |Run(c, s, steps).answers|
    requires var end := Run(c, s, steps);
      var r := end.answers[i];
      && r.client in end.clients
      && var url := end.clients[r.client].url;
      forall t: real :: r.at - AgeBound(c, end.clients[r.client], r) <= t <= r.at ==>
        c.server(url, r.command, t) == c.server(url, r.command, r.at)
    ensures var end := Run(c, s, steps);
      var r := end.answers[i];
      r.schema == c.server(end.clients[r.client].url, r.command, r.at)
  {
    AnswersAreGenuineAndFresh(c, s, steps);
  }

  /** Whatever the interleaving of partial writes, renames, clears, failures and crashes, a file
      under an entry's name is one complete entry, from one store for that server and command, and
      loads back as the schema the server gave. */
  lemma DiskEntriesAreAtomic(c: Config, s: State, steps: seq<Step>, url: string, command: string)
    requires Distinct(c) && Initial(c, s) && Legal(c, s, steps)
    requires url in c.urls && command in c.commands
    ensures var end := Run(c, s, steps);
      var p := FinalPath(c, url, command);
      p in end.disk ==>
        && end.disk[p].Whole?
        && var e := end.disk[p].entry;
        && e.origin.url == url && e.origin.command == command
        && e.origin.served <= e.fetchedAt <= end.now
        && e.schema == c.server(url, command, e.origin.served)
        && LoadDocument(EntryDocument(e.fetchedAt, e.schema), e.fetchedAt, Max(c.ttl, 0.0)) == Some(e.schema)
  {
    InitialInv(c, s);
    InvRun(c, s, steps);
    var end := Run(c, s, steps);
    var p := FinalPath(c, url, command);
    CacheNames.FinalNames(c.alnum, command);
    if p in end.disk {
      var e := end.disk[p].entry;
      assert EntryOk(c, p, e, end.now);
      StoreLoadRoundTrip(e.fetchedAt, e.schema, e.fetchedAt, Max(c.ttl, 0.0));
    }
  }

  /** Clearing one server's entries leaves every other server's files as they were. */
  lemma ClearTouchesOneServer(c: Config, s: State, step: Step, url: string, other: string, command: string)
    requires Distinct(c) && Inv(c, s) && Enabled(c, s, step)
    requires url in c.urls && other in c.urls && url != other
    requires match step
      case BeginClear(_, id) => s.clients[id].url == url
      case Unlink(k, _, _) => s.clears[k].dir == c.serverKey(url)
      case _ => false
    ensures var s' := Apply(c, s, step);
      && (forall p: Path :: p.dir == c.serverKey(other) ==> (p in s'.disk <==> p in s.disk))
      && (forall p: Path :: p.dir == c.serverKey(other) && p in s.disk ==> s'.disk[p] == s.disk[p])
      && (DiskFresh(c, s', other, command) <==> DiskFresh(c, s, other, command))
  {
    assert c.serverKey(url) != c.serverKey(other);
  }

  // ---------------------------------------------------------------- clearing

  ghost predicate NoWriter(c: Config, s: State, dir: string) {
    && (forall t :: t in s.tasks ==>
         s.tasks[t].client in s.clients && c.serverKey(s.clients[s.tasks[t].client].url) != dir)
    && (forall pid :: pid in s.stores ==> s.stores[pid].target.dir != dir)
  }

  /** While client `id` runs its clear, its own process does nothing else, no fetch for that
      server begins, and none of its unlinks fails. Everything else may happen. */
  ghost predicate Undisturbed(c: Config, s: State, step: Step, clear: nat, id: nat)
    requires Enabled(c, s, step) && id in s.clients
  {
    match step
    case BeginFetch(_, other, _, _, _) => c.serverKey(s.clients[other].url) != c.serverKey(s.clients[id].url)
    case DiskHit(other, _) => other != id
    case Unlink(k, _, ok) => k == clear ==> ok
    case _ => true
  }

  ghost predicate UndisturbedRun(c: Config, s: State, steps: seq<Step>, clear: nat, id: nat)
    decreases |steps|
  {
    id in s.clients && (steps == [] ||
      (&& Enabled(c, s, steps[0]) && Undisturbed(c, s, steps[0], clear, id)
       && UndisturbedRun(c, Apply(c, s, steps[0]), steps[1..], clear, id)))
  }

  ghost predicate Emptying(c: Config, s: State, clear: nat, id: nat) {
    && id in s.clients && s.clients[id].memory == map[]
    && clear in s.clears
    && var dir := c.serverKey(s.clients[id].url);
    && NoWriter(c, s, dir)
    && forall p :: p in s.disk && p.dir == dir ==> p in s.clears[clear].remaining
  }

  lemma MemoryStaysEmpty(c: Config, s: State, step: Step, clear: nat, id: nat)
    requires TasksOk(c, s) && Emptying(c, s, clear, id)
    requires Enabled(c, s, step) && Undisturbed(c, s, step, clear, id)
    ensures var s' := Apply(c, s, step);
      id in s'.clients && s'.clients[id].memory == map[] && s'.clients[id].url == s.clients[id].url
  {
    hide DiskFresh, CacheNames.SafeFilename, CacheNames.TempName, Provenance;
  }

  lemma NoWriterAppears(c: Config, s: State, step: Step, clear: nat, id: nat)
    requires Emptying(c, s, clear, id)
    requires Enabled(c, s, step) && Undisturbed(c, s, step, clear, id)
    ensures NoWriter(c, Apply(c, s, step), c.serverKey(s.clients[id].url))
  {
    hide DiskFresh, CacheNames.SafeFilename, CacheNames.TempName;
  }

  lemma FilesOnlyGo(c: Config, s: State, step: Step, clear: nat, id: nat)
    requires Emptying(c, s, clear, id)
    requires Enabled(c, s, step) && Undisturbed(c, s, step, clear, id)
    ensures var s' := Apply(c, s, step);
      && clear in s'.clears
      && forall p :: p in s'.disk && p.dir == c.serverKey(s.clients[id].url) ==> p in s'.clears[clear].remaining
  {
    hide DiskFresh, CacheNames.SafeFilename, CacheNames.TempName;
  }

  lemma EmptyingStep(c: Config, s: State, step: Step, clear: nat, id: nat)
    requires Inv(c, s) && Emptying(c, s, clear, id)
    requires Enabled(c, s, step) && Undisturbed(c, s, step, clear, id)
    ensures Emptying(c, Apply(c, s, step), clear, id)
  {
    MemoryStaysEmpty(c, s, step, clear, id);
    NoWriterAppears(c, s, step, clear, id);
    FilesOnlyGo(c, s, step, clear, id);
    hide Apply, Inv, NoWriter, Enabled, Undisturbed;
  }

  lemma {:induction false} EmptyingRun(c: Config, s: State, steps: seq<Step>, clear: nat, id: nat)
    requires Distinct(c) && Inv(c, s) && Emptying(c, s, clear, id) && UndisturbedRun(c, s, steps, clear, id)
    ensures Legal(c, s, steps) && Emptying(c, Run(c, s, steps), clear, id)
    decreases |steps|
  {
    if steps != [] {
      InvStep(c, s, steps[0]);
      EmptyingStep(c, s, steps[0], clear, id);
      EmptyingRun(c, Apply(c, s, steps[0]), steps[1..], clear, id);
    }
  }

  /** After a clear that was undisturbed and started with no fetch or store of that server under
      way, neither cache can answer the client: its next get goes to the server. */
  lemma ClearForcesFetch(c: Config, s: State, clear: nat, id: nat, steps: seq<Step>, command: string, task: nat)
    requires Distinct(c) && Inv(c, s) && Enabled(c, s, BeginClear(clear, id))
    requires NoWriter(c, s, c.serverKey(s.clients[id].url))
    requires UndisturbedRun(c, Apply(c, s, BeginClear(clear, id)), steps, clear, id)
    requires command in c.commands
    ensures var begun := Apply(c, s, BeginClear(clear, id));
      && Legal(c, begun, steps)
      && var end := Run(c, begun, steps);
      && clear in end.clears
      && (end.clears[clear].remaining == {} ==>
            && !Enabled(c, end, MemoryHit(id, command)) && !Enabled(c, end, DiskHit(id, command))
            && (task !in end.tasks ==> Enabled(c, end, BeginFetch(task, id, command, false, false))))
  {
    var begun := Apply(c, s, BeginClear(clear, id));
    InvStep(c, s, BeginClear(clear, id));
    EmptyingRun(c, begun, steps, clear, id);
    var end := Run(c, begun, steps);
    assert Emptying(c, end, clear, id);
  }

  /** The condition on fetches is needed: an answer already under way when the clear runs is
      remembered after it, and the next get returns a schema served before the clear. */
  lemma InFlightFetchSurvivesClear(c: Config, s: State, clear: nat, id: nat, task: nat)
    requires Inv(c, s) && Enabled(c, s, BeginClear(clear, id)) && Enabled(c, s, Receive(task))
    requires s.tasks[task].client == id
    ensures var command := s.tasks[task].command;
      var cleared := Apply(c, s, BeginClear(clear, id));
      && Enabled(c, cleared, Receive(task))
      && var after := Apply(c, cleared, Receive(task));
      && Enabled(c, after, MemoryHit(id, command))
      && Apply(c, after, MemoryHit(id, command)).answers
         == after.answers + [Return(id, command, s.tasks[task].schema, s.now, Memory, s.tasks[task].origin)]
      && s.tasks[task].origin.served <= s.now
  {
    assert TaskOk(c, s, s.tasks[task]);
  }

  /** So is the condition on unlinks: an entry whose unlink fails still answers the client's next get. */
  lemma FailedUnlinkSurvivesClear(c: Config, s: State, clear: nat, id: nat, command: string)
    requires Inv(c, s) && id in s.clients && command in c.commands && command !in s.clients[id].memory
    requires var p := FinalPath(c, s.clients[id].url, command);
      Enabled(c, s, Unlink(clear, p, false)) && DiskFresh(c, s, s.clients[id].url, command)
    ensures var p := FinalPath(c, s.clients[id].url, command);
      var after := Apply(c, s, Unlink(clear, p, false));
      && Enabled(c, after, DiskHit(id, command))
      && var r := Apply(c, after, DiskHit(id, command)).answers;
      r == after.answers + [Return(id, command, s.disk[p].entry.schema, s.now, Disk, s.disk[p].entry.origin)]
  {
    hide Inv, LoadDocument;
  }

  /** And that there is no other writer: a store of another process that renames its entry into place
      after the clear listed the files answers the client's next get, however far the clear is. */
  lemma OtherWriterSurvivesClear(c: Config, s: State, id: nat, command: string, pid: nat)
    requires Inv(c, s) && id in s.clients && command in c.commands && command !in s.clients[id].memory
    requires Enabled(c, s, Rename(pid)) && s.stores[pid].target == FinalPath(c, s.clients[id].url, command)
    requires TempPath(s.stores[pid].target, pid) in s.disk && s.now - s.stores[pid].entry.fetchedAt <= c.ttl
    ensures var after := Apply(c, s, Rename(pid));
      && Enabled(c, after, DiskHit(id, command))
      && var r := Apply(c, after, DiskHit(id, command)).answers;
      r == after.answers + [Return(id, command, s.stores[pid].entry.schema, s.now, Disk, s.stores[pid].entry.origin)]
  {
    var st := s.stores[pid];
    assert StoreOk(c, s, pid);
    StoreLoadRoundTrip(st.entry.fetchedAt, st.entry.schema, s.now, c.ttl);
    hide LoadDocument, EntryDocument, DiskOk, ClientsOk, TasksOk, AnswersOk, ClearsOk, FinalPath, TempPath;
  }

  /** A get that is not told to refresh goes one way only: memory where that holds the command; else the
      disk, where its entry is fresh and the file can be read; else the server. */
  lemma OneWayOnly(c: Config, s: State, id: nat, command: string, task: nat)
    requires id in s.clients && command in c.commands && task !in s.tasks
    ensures var memory, disk := command in s.clients[id].memory, DiskFresh(c, s, s.clients[id].url, command);
      && (Enabled(c, s, MemoryHit(id, command)) <==> memory)
      && (Enabled(c, s, DiskHit(id, command)) <==> !memory && disk)
      && (Enabled(c, s, BeginFetch(task, id, command, false, false)) <==> !memory && !disk)
      && (Enabled(c, s, BeginFetch(task, id, command, false, true)) <==> !memory)
      && Enabled(c, s, BeginFetch(task, id, command, true, true))
  {
    hide DiskFresh;
  }

  /** Every answer from disk or network is remembered: the client's next get of that command without
      refresh finds the same schema in memory, whatever has happened to disk and server. */
  lemma AnswerIsRemembered(c: Config, s: State, step: Step)
    requires Inv(c, s) && Enabled(c, s, step) && (step.DiskHit? || step.Receive?)
    ensures var s' := Apply(c, s, step);
      && s'.answers != []
      && var r := s'.answers[|s'.answers| - 1];
      && Enabled(c, s', MemoryHit(r.client, r.command))
      && !Enabled(c, s', DiskHit(r.client, r.command))
      && (forall task, unreadable :: !Enabled(c, s', BeginFetch(task, r.client, r.command, false, unreadable)))
      && Apply(c, s', MemoryHit(r.client, r.command)).answers
         == s'.answers + [Return(r.client, r.command, r.schema, s.now, Memory, r.origin)]
  {
    hide Inv, DiskFresh, FinalPath, TempPath;
  }
}
