/** What a client's next get does after a clear, told from the steps taken since. */
module SchemaCacheClears {
  import opened Wrappers
  import opened JsonValues
  import opened SchemaCache
  import opened SchemaCacheProperties
  import CacheNames

  /** The step gives the client an answer from disk or network, which it then remembers. */
  predicate Fills(s: State, step: Step, id: nat, command: string) {
    match step
    case DiskHit(i, cmd) => i == id && cmd == command
    case Receive(task) => task in s.tasks && s.tasks[task].client == id && s.tasks[task].command == command
    case _ => false
  }

  predicate Empties(step: Step, id: nat) {
    step.BeginClear? && step.id == id
  }

  /** Such an answer was given, and no later clear of this client began. */
  ghost predicate Remembered(c: Config, s: State, steps: seq<Step>, id: nat, command: string, known: bool)
    requires Legal(c, s, steps)
    decreases |steps|
  {
    if steps == [] then known
    else
      Remembered(c, Apply(c, s, steps[0]), steps[1..], id, command,
        !Empties(steps[0], id) && (known || Fills(s, steps[0], id, command)))
  }

  /** A store renames its complete temp file to this path. */
  predicate Puts(s: State, step: Step, p: Path) {
    && step.Rename? && step.pid in s.stores && s.stores[step.pid].target == p
    && TempPath(p, step.pid) in s.disk
  }

  predicate Takes(step: Step, p: Path) {
    step.Unlink? && step.path == p && step.ok
  }

  /** The path was there or was renamed into place, and no later unlink of it succeeded. */
  ghost predicate Stays(c: Config, s: State, steps: seq<Step>, p: Path, there: bool)
    requires Legal(c, s, steps)
    decreases |steps|
  {
    if steps == [] then there
    else Stays(c, Apply(c, s, steps[0]), steps[1..], p, !Takes(steps[0], p) && (there || Puts(s, steps[0], p)))
  }

  lemma MemoryStep(c: Config, s: State, step: Step, id: nat, command: string)
    requires Enabled(c, s, step) && id in s.clients
    ensures var s' := Apply(c, s, step);
      && id in s'.clients && s'.clients[id].url == s.clients[id].url
      && (command in s'.clients[id].memory
          <==> !Empties(step, id) && (command in s.clients[id].memory || Fills(s, step, id, command)))
  {
    hide DiskFresh, CacheNames.SafeFilename, CacheNames.TempName;
  }

  lemma {:induction false} MemoryRun(c: Config, s: State, steps: seq<Step>, id: nat, command: string)
    requires Legal(c, s, steps) && id in s.clients
    ensures var end := Run(c, s, steps);
      && id in end.clients && end.clients[id].url == s.clients[id].url
      && (command in end.clients[id].memory
          <==> Remembered(c, s, steps, id, command, command in s.clients[id].memory))
    decreases |steps|
  {
    hide Apply, Enabled, Fills;
    if steps != [] {
      MemoryStep(c, s, steps[0], id, command);
      MemoryRun(c, Apply(c, s, steps[0]), steps[1..], id, command);
    }
  }

  lemma FileStep(c: Config, s: State, step: Step, p: Path)
    requires Enabled(c, s, step) && CacheNames.IsFinalName(p.name)
    ensures p in Apply(c, s, step).disk <==> !Takes(step, p) && (p in s.disk || Puts(s, step, p))
  {
    if step.OpenTemp? || step.WriteTemp? || step.Rename? {
      var target := s.stores[step.pid].target;
      CacheNames.TempIsNotFinal(target.name, step.pid);
      assert TempPath(target, step.pid) != p;
    }
    hide DiskFresh, CacheNames.SafeFilename, CacheNames.TempName, CacheNames.IsFinalName;
  }

  lemma {:induction false} FileRun(c: Config, s: State, steps: seq<Step>, p: Path)
    requires Legal(c, s, steps) && CacheNames.IsFinalName(p.name)
    ensures p in Run(c, s, steps).disk <==> Stays(c, s, steps, p, p in s.disk)
    decreases |steps|
  {
    hide Apply, Enabled, Puts, CacheNames.IsFinalName;
    if steps != [] {
      FileStep(c, s, steps[0], p);
      FileRun(c, Apply(c, s, steps[0]), steps[1..], p);
    }
  }

  /** Exactly when the next get after a clear goes to the server, whatever happened since the clear
      began: no answer was given to this client in between, and the entry's file is gone (because every
      store of it came before an unlink of it that succeeded) or is older than the time to live. */
  lemma NextGetGoesToTheServerIff(
      c: Config, s: State, clear: nat, id: nat, steps: seq<Step>, command: string, task: nat)
    requires Distinct(c) && Inv(c, s) && Enabled(c, s, BeginClear(clear, id)) && command in c.commands
    requires var begun := Apply(c, s, BeginClear(clear, id));
      Legal(c, begun, steps) && task !in Run(c, begun, steps).tasks
    ensures var begun := Apply(c, s, BeginClear(clear, id));
      var end, p := Run(c, begun, steps), FinalPath(c, s.clients[id].url, command);
      && (Stays(c, begun, steps, p, p in s.disk) <==> p in end.disk)
      && (p in end.disk ==> end.disk[p].Whole?)
      && (Enabled(c, end, BeginFetch(task, id, command, false, false)) <==>
            && !Remembered(c, begun, steps, id, command, false)
            && (Stays(c, begun, steps, p, p in s.disk) ==> end.now - end.disk[p].entry.fetchedAt > c.ttl))
  {
    var begun, p := Apply(c, s, BeginClear(clear, id)), FinalPath(c, s.clients[id].url, command);
    var end := Run(c, begun, steps);
    InvStep(c, s, BeginClear(clear, id));
    InvRun(c, begun, steps);
    CacheNames.FinalNames(c.alnum, command);
    MemoryRun(c, begun, steps, id, command);
    FileRun(c, begun, steps, p);
    if p in end.disk {
      assert EntryOk(c, p, end.disk[p].entry, end.now);
      StoreLoadRoundTrip(end.disk[p].entry.fetchedAt, end.disk[p].entry.schema, end.now, c.ttl);
    }
    hide Run, Legal, Remembered, Stays, LoadDocument, EntryDocument, StoresOk, ClientsOk, TasksOk, AnswersOk, ClearsOk;
  }
}
