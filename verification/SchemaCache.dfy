/** The two-level command-schema cache: every client's in-memory cache, and the disk cache that all
    processes share. A run is a sequence of steps of any number of clients, fetches, stores and
    clears; file operations of different processes interleave freely, and any of them may fail. */
module SchemaCache {
  import opened Wrappers
  import opened JsonValues
  import CacheNames

  // ---------------------------------------------------------------- disk entries

  /** The JSON document a store writes. */
  function EntryDocument(fetchedAt: real, schema: Json): Json {
    Object([Field("fetched_at", Number(fetchedAt)), Field("schema", schema)])
  }

  /** `isinstance(v, (int, float))` also accepts booleans, which count as 0 and 1. */
  function AsNumber(v: Json): Option<real> {
    match v
    case Number(n) => Some(n)
    case Bool(b) => Some(if b then 1.0 else 0.0)
    case _ => None
  }

  /** What `load_cached_schema` makes of a parsed file. */
  function LoadDocument(raw: Json, now: real, ttl: real): Option<Json> {
    if !raw.Object? then None
    else
      var fetchedAt, schema := AsNumber(Get(raw.fields, "fetched_at")), Get(raw.fields, "schema");
      if fetchedAt.None? || !schema.Object? then None
      else if now - fetchedAt.value > ttl then None
      else Some(schema)
  }

  /** A stored schema loads back as itself exactly while it is no older than the time to live. */
  lemma StoreLoadRoundTrip(fetchedAt: real, schema: Json, now: real, ttl: real)
    requires schema.Object?
    ensures LoadDocument(EntryDocument(fetchedAt, schema), now, ttl)
         == if now - fetchedAt <= ttl then Some(schema) else None
  {
    var fields := EntryDocument(fetchedAt, schema).fields;
    assert fields[1..] == [Field("schema", schema)];
    assert Get(fields, "schema") == Get(fields[1..], "schema") == schema;
  }

  /** The time a file says it was written at. Python counts True as 1 and False as 0. */
  predicate WrittenAt(raw: Json, t: real) {
    raw.Object?
    && (|| Get(raw.fields, "fetched_at") == Number(t)
        || (Get(raw.fields, "fetched_at") == Bool(true) && t == 1.0)
        || (Get(raw.fields, "fetched_at") == Bool(false) && t == 0.0))
  }

  /** Any file loads exactly when it says when it was written, that is no longer ago than the time to
      live, and its schema is a dict; and then it loads as that schema. */
  lemma LoadsIff(raw: Json, now: real, ttl: real, schema: Json)
    ensures LoadDocument(raw, now, ttl) == Some(schema)
       <==> && (exists t :: WrittenAt(raw, t) && now <= t + ttl)
            && Get(raw.fields, "schema") == schema && schema.Object?
  {
    hide Get;
    if raw.Object? && AsNumber(Get(raw.fields, "fetched_at")).Some? {
      var t := AsNumber(Get(raw.fields, "fetched_at")).value;
      assert WrittenAt(raw, t);
      assert forall u :: WrittenAt(raw, u) ==> u == t;
    }
  }

  // ---------------------------------------------------------------- state

  /** `server(url, command, t)` is the schema that server answers `help` with at time t;
      `serverKey` is the truncated hash naming a server's directory. Fetches are only considered
      whose round trip, up to the stamping of the entry, takes at most `roundTrip`. */
  datatype Config = Config(
    server: (string, string, real) -> Json,
    serverKey: string -> string,
    alnum: char -> bool,
    ttl: real,
    roundTrip: real,
    urls: set<string>,
    commands: set<string>)

  /** The hypotheses on names: no hash collision among the servers in use, no two commands in use
      that share a file name. */
  ghost predicate Distinct(c: Config) {
    && (forall u, v :: u in c.urls && v in c.urls && c.serverKey(u) == c.serverKey(v) ==> u == v)
    && (forall a, b ::
          (&& a in c.commands && b in c.commands
           && CacheNames.SafeFilename(c.alnum, a) == CacheNames.SafeFilename(c.alnum, b)) ==> a == b)
  }

  datatype Path = Path(dir: string, name: string)

  function FinalPath(c: Config, url: string, command: string): Path {
    Path(c.serverKey(url), CacheNames.SafeFilename(c.alnum, command))
  }

  function TempPath(p: Path, pid: nat): Path {
    Path(p.dir, CacheNames.TempName(p.name, pid))
  }

  /** Where a schema came from: asked for at `requested`, answered by the server at `served`. */
  datatype Origin = Origin(url: string, command: string, requested: real, served: real)

  datatype Entry = Entry(fetchedAt: real, schema: Json, origin: Origin)

  /** Torn is a file whose write has begun and not finished. */
  datatype File = Torn | Whole(entry: Entry)

  datatype Cached = Cached(schema: Json, origin: Origin, since: real)

  datatype Client = Client(url: string, pid: nat, created: real, memory: map<string, Cached>)

  datatype Task =
    | Asking(client: nat, command: string, requested: real)
    | Answered(client: nat, command: string, origin: Origin, schema: Json)

  /** A store in progress: stamped, its temp file opened, its temp file fully written. */
  datatype Store =
    | Stamped(target: Path, entry: Entry)
    | Opened(target: Path, entry: Entry)
    | Written(target: Path, entry: Entry)

  datatype Clear = Clear(client: nat, dir: string, remaining: set<Path>)

  datatype Via = Memory | Disk | Network

  datatype Return = Return(client: nat, command: string, schema: Json, at: real, via: Via, origin: Origin)

  datatype State = State(
    now: real,
    clients: map<nat, Client>,
    tasks: map<nat, Task>,
    stores: map<nat, Store>,   // by process: a process runs one store at a time
    clears: map<nat, Clear>,
    disk: map<Path, File>,
    answers: seq<Return>)

  // ---------------------------------------------------------------- steps

  datatype Step =
    | Advance(to: real)
    | NewClient(id: nat, url: string, pid: nat)
    | MemoryHit(id: nat, command: string)
    | DiskHit(id: nat, command: string)
    | BeginFetch(task: nat, id: nat, command: string, refresh: bool, unreadable: bool)
    | Serve(task: nat)
    | FetchFails(task: nat)
    | Receive(task: nat)
    | OpenTemp(pid: nat)
    | WriteTemp(pid: nat)
    | Rename(pid: nat)
    | Abandon(pid: nat)        // an I/O error or a crash: the temp file may stay behind
    | BeginClear(clear: nat, id: nat)
    | Unlink(clear: nat, path: Path, ok: bool)

  predicate DiskFresh(c: Config, s: State, url: string, command: string) {
    var p := FinalPath(c, url, command);
    && p in s.disk && s.disk[p].Whole?
    && var e := s.disk[p].entry;
    LoadDocument(EntryDocument(e.fetchedAt, e.schema), s.now, c.ttl).Some?
  }

  ghost predicate Enabled(c: Config, s: State, step: Step) {
    match step
    case Advance(to) => s.now <= to
    case NewClient(id, url, pid) => id !in s.clients && url in c.urls
    case MemoryHit(id, command) => id in s.clients && command in s.clients[id].memory
    case DiskHit(id, command) =>
      && id in s.clients && command in c.commands && command !in s.clients[id].memory
      && DiskFresh(c, s, s.clients[id].url, command)
    case BeginFetch(task, id, command, refresh, unreadable) =>
      && id in s.clients && task !in s.tasks && command in c.commands
      && (refresh || (command !in s.clients[id].memory
                      && (unreadable || !DiskFresh(c, s, s.clients[id].url, command))))
    case Serve(task) =>
      && task in s.tasks && s.tasks[task].Asking? && s.tasks[task].client in s.clients
      && c.server(s.clients[s.tasks[task].client].url, s.tasks[task].command, s.now).Object?
    case FetchFails(task) => task in s.tasks
    case Receive(task) =>
      && task in s.tasks && s.tasks[task].Answered? && s.tasks[task].client in s.clients
      && s.clients[s.tasks[task].client].pid !in s.stores
      && s.now - s.tasks[task].origin.requested <= c.roundTrip
    case OpenTemp(pid) => pid in s.stores && s.stores[pid].Stamped?
    case WriteTemp(pid) => pid in s.stores && s.stores[pid].Opened?
    case Rename(pid) => pid in s.stores && s.stores[pid].Written?
    case Abandon(pid) => pid in s.stores
    case BeginClear(clear, id) => clear !in s.clears && id in s.clients
    case Unlink(clear, path, ok) => clear in s.clears && path in s.clears[clear].remaining
  }

  function Remember(s: State, id: nat, command: string, schema: Json, origin: Origin): map<nat, Client>
    requires id in s.clients
  {
    var cl := s.clients[id];
    s.clients[id := cl.(memory := cl.memory[command := Cached(schema, origin, s.now)])]
  }

  ghost function Apply(c: Config, s: State, step: Step): State
    requires Enabled(c, s, step)
  {
    match step
    case Advance(to) => s.(now := to)
    case NewClient(id, url, pid) => s.(clients := s.clients[id := Client(url, pid, s.now, map[])])
    case MemoryHit(id, command) =>
      var m := s.clients[id].memory[command];
      s.(answers := s.answers + [Return(id, command, m.schema, s.now, Memory, m.origin)])
    case DiskHit(id, command) =>
      var e := s.disk[FinalPath(c, s.clients[id].url, command)].entry;
      s.(clients := Remember(s, id, command, e.schema, e.origin),
         answers := s.answers + [Return(id, command, e.schema, s.now, Disk, e.origin)])
    case BeginFetch(task, id, command, refresh, unreadable) =>
      s.(tasks := s.tasks[task := Asking(id, command, s.now)])
    case Serve(task) =>
      var t := s.tasks[task];
      var url := s.clients[t.client].url;
      var origin := Origin(url, t.command, t.requested, s.now);
      s.(tasks := s.tasks[task := Answered(t.client, t.command, origin, c.server(url, t.command, s.now))])
    case FetchFails(task) => s.(tasks := s.tasks - {task})
    case Receive(task) =>
      var t := s.tasks[task];
      var cl := s.clients[t.client];
      var entry := Entry(s.now, t.schema, t.origin);
      s.(tasks := s.tasks - {task},
         clients := Remember(s, t.client, t.command, t.schema, t.origin),
         stores := s.stores[cl.pid := Stamped(FinalPath(c, cl.url, t.command), entry)],
         answers := s.answers + [Return(t.client, t.command, t.schema, s.now, Network, t.origin)])
    case OpenTemp(pid) =>
      var st := s.stores[pid];
      s.(stores := s.stores[pid := Opened(st.target, st.entry)], disk := s.disk[TempPath(st.target, pid) := Torn])
    case WriteTemp(pid) =>
      var st := s.stores[pid];
      var temp := TempPath(st.target, pid);
      // if the temp file was unlinked meanwhile, the bytes go to an inode no path names
      s.(stores := s.stores[pid := Written(st.target, st.entry)],
         disk := if temp in s.disk then s.disk[temp := Whole(st.entry)] else s.disk)
    case Rename(pid) =>
      var st := s.stores[pid];
      var temp := TempPath(st.target, pid);
      s.(stores := s.stores - {pid},
         disk := if temp in s.disk then (s.disk - {temp})[st.target := s.disk[temp]] else s.disk)
    case Abandon(pid) => s.(stores := s.stores - {pid})
    case BeginClear(clear, id) =>
      var cl := s.clients[id];
      var dir := c.serverKey(cl.url);
      s.(clients := s.clients[id := cl.(memory := map[])],
         clears := s.clears[clear := Clear(id, dir, set p | p in s.disk && p.dir == dir)])
    case Unlink(clear, path, ok) =>
      var k := s.clears[clear];
      s.(clears := s.clears[clear := k.(remaining := k.remaining - {path})],
         disk := if ok then s.disk - {path} else s.disk)
  }

  ghost predicate Legal(c: Config, s: State, steps: seq<Step>)
    decreases |steps|
  {
    steps == [] || (Enabled(c, s, steps[0]) && Legal(c, Apply(c, s, steps[0]), steps[1..]))
  }

  ghost function Run(c: Config, s: State, steps: seq<Step>): State
    requires Legal(c, s, steps)
    decreases |steps|
  {
    if steps == [] then s else Run(c, Apply(c, s, steps[0]), steps[1..])
  }

  // ---------------------------------------------------------------- the invariant

  function Max(a: real, b: real): real {
    if a >= b then a else b
  }

  ghost predicate Provenance(c: Config, o: Origin, schema: Json, now: real) {
    && o.url in c.urls && o.command in c.commands
    && o.requested <= o.served <= now
    && schema == c.server(o.url, o.command, o.served)
    && schema.Object?
  }

  ghost predicate EntryOk(c: Config, p: Path, e: Entry, now: real) {
    && Provenance(c, e.origin, e.schema, now)
    && p == FinalPath(c, e.origin.url, e.origin.command)
    && e.origin.served <= e.fetchedAt <= now
    && e.fetchedAt - e.origin.requested <= c.roundTrip
  }

  /** A file under an entry's name is a complete entry, written by one store for that very name. */
  ghost predicate DiskOk(c: Config, disk: map<Path, File>, now: real) {
    forall p :: p in disk && CacheNames.IsFinalName(p.name) ==> disk[p].Whole? && EntryOk(c, p, disk[p].entry, now)
  }

  ghost predicate StoresOk(c: Config, s: State) {
    forall pid :: pid in s.stores ==>
      var st := s.stores[pid];
      && EntryOk(c, st.target, st.entry, s.now)
      && (st.Written? && TempPath(st.target, pid) in s.disk ==> s.disk[TempPath(st.target, pid)] == Whole(st.entry))
  }

  ghost predicate CachedOk(c: Config, cl: Client, command: string, m: Cached, now: real) {
    && Provenance(c, m.origin, m.schema, now)
    && m.origin.url == cl.url && m.origin.command == command
    && cl.created <= m.since <= now
    && m.since - m.origin.served <= Max(c.ttl, 0.0) + c.roundTrip
  }

  ghost predicate ClientsOk(c: Config, s: State) {
    forall id :: id in s.clients ==>
      var cl := s.clients[id];
      && cl.url in c.urls && cl.created <= s.now
      && forall command :: command in cl.memory ==> CachedOk(c, cl, command, cl.memory[command], s.now)
  }

  ghost predicate TaskOk(c: Config, s: State, t: Task) {
    && t.client in s.clients && t.command in c.commands
    && match t
       case Asking(_, _, requested) => requested <= s.now
       case Answered(client, command, origin, schema) =>
         && Provenance(c, origin, schema, s.now)
         && origin.url == s.clients[client].url && origin.command == command
  }

  ghost predicate TasksOk(c: Config, s: State) {
    forall t :: t in s.tasks ==> TaskOk(c, s, s.tasks[t])
  }

  /** How old a returned schema can be, by where it was found. */
  function AgeBound(c: Config, cl: Client, r: Return): real {
    match r.via
    case Network => c.roundTrip
    case Disk => c.ttl + c.roundTrip
    case Memory => Max(c.ttl, 0.0) + c.roundTrip + (r.at - cl.created)
  }

  ghost predicate ReturnOk(c: Config, s: State, r: Return) {
    && r.client in s.clients
    && r.origin.url == s.clients[r.client].url && r.origin.command == r.command
    && r.schema == c.server(r.origin.url, r.origin.command, r.origin.served)
    && r.origin.served <= r.at <= s.now
    && r.at - r.origin.served <= AgeBound(c, s.clients[r.client], r)
  }

  ghost predicate AnswersOk(c: Config, s: State) {
    forall i :: 0 <= i < |s.answers| ==> ReturnOk(c, s, s.answers[i])
  }

  ghost predicate ClearsOk(s: State) {
    forall k :: k in s.clears ==> forall p :: p in s.clears[k].remaining ==> p.dir == s.clears[k].dir
  }

  ghost predicate Inv(c: Config, s: State) {
    DiskOk(c, s.disk, s.now) && StoresOk(c, s) && ClientsOk(c, s) && TasksOk(c, s) && AnswersOk(c, s) && ClearsOk(s)
  }

  /** Nothing is running yet; the disk may hold entries of earlier processes and stray temp files. */
  ghost predicate Initial(c: Config, s: State) {
    && s.clients == map[] && s.tasks == map[] && s.stores == map[] && s.clears == map[] && s.answers == []
    && DiskOk(c, s.disk, s.now)
  }
}
