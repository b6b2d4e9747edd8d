/** The queue-aware client: spotting a queued-job envelope, polling the job to a terminal status,
    and unwrapping the command's own result.

    The server side is a World: for every job and every instant it fixes what a status read at that
    instant answers, together with every delay of the run. All worlds are considered, so every way
    the store's writes can fall between the client's reads is covered. */
module QueueWait {
  import opened Wrappers
  import opened JsonValues
  import Text

  const SERVICE_ENVELOPE_KEYS: set<string> :=
    {"success", "job_id", "jobId", "status", "message", "store", "poll_with", "queued_after_timeout", "data"}
  const QUEUED_STATUSES: set<string> := {"pending", "queued", "running"}
  const TERMINAL_STATUSES: set<string> := {"completed", "failed", "stopped", "cancelled"}
  const FAILED_JOB_STATUSES: set<string> := {"failed", "stopped", "cancelled"}
  const REFETCH_ATTEMPTS: nat := 4
  const REFETCH_SLEEP := 0.5

  // ---------------------------------------------------------------- envelopes

  datatype Detection = Queued | NotQueued | Unhashable

  /** `d.get("job_id") or d.get("jobId")`, falling back to the same under `data`. */
  function RawJobId(fields: seq<Field>): Json {
    var top := Or(Get(fields, "job_id"), Get(fields, "jobId"));
    var data := Get(fields, "data");
    if Truthy(top) then top
    else if data.Object? then Or(Get(data.fields, "job_id"), Get(data.fields, "jobId"))
    else top
  }

  predicate ServiceKeysOnly(fields: seq<Field>) {
    forall i :: 0 <= i < |fields| ==> fields[i].key in SERVICE_ENVELOPE_KEYS
  }

  predicate Marked(fields: seq<Field>) {
    || Get(fields, "poll_with") == String("queue_get_job_status")
    || Get(fields, "store") == String("queuemgr")
    || Truthy(Get(fields, "queued_after_timeout"))
  }

  /** Looking an unhashable status up in the set of queued statuses raises TypeError. */
  function IsQueuedEnvelope(resp: Json): Detection {
    if !resp.Object? then NotQueued
    else if !Truthy(RawJobId(resp.fields)) then NotQueued
    else if Marked(resp.fields) then Queued
    else
      var status := Get(resp.fields, "status");
      if !Hashable(status) then Unhashable
      else if status.String? && status.text in QUEUED_STATUSES && ServiceKeysOnly(resp.fields) then Queued
      else NotQueued
  }

  function ExtractJobId(fields: seq<Field>): PyText {
    Str(RawJobId(fields))
  }

  // ---------------------------------------------------------------- status documents

  /** The `data` dict of a status reply, or the reply itself, or an empty dict. */
  function StatusData(resp: Json): seq<Field> {
    if !resp.Object? then []
    else
      var data := Get(resp.fields, "data");
      if data.Object? then data.fields else resp.fields
  }

  /** `str(d.get("status", "")).strip().lower()` */
  function Status(data: seq<Field>): PyText {
    if !Has(data, "status") then PyText.Text("")
    else
      match Get(data, "status")
      case String(s) => PyText.Text(Text.Lower(Text.Strip(s)))
      case other => Rendered(other)
  }

  predicate IsTerminal(data: seq<Field>) {
    Status(data).Text? && Status(data).s in TERMINAL_STATUSES
  }

  predicate JobFailure(data: seq<Field>) {
    (Status(data).Text? && Status(data).s in FAILED_JOB_STATUSES) || Truthy(Get(data, "error"))
  }

  /** The failed command's structured error: `result.result.error`, else `result.error`. */
  function InnerError(data: seq<Field>): Json {
    var result := Get(data, "result");
    if !result.Object? then Null
    else
      var inner := Get(result.fields, "result");
      if inner.Object? && Get(inner.fields, "error") != Null then Get(inner.fields, "error")
      else Get(result.fields, "error")
  }

  function InnerResult(data: seq<Field>): Json {
    var result := Get(data, "result");
    if result.Object? && Has(result.fields, "result") then Get(result.fields, "result") else result
  }

  predicate CommandFailure(data: seq<Field>) {
    var inner := InnerResult(data);
    || (inner.Object? && Get(inner.fields, "success") == Bool(false))
    || Get(data, "command_success") == Bool(false)
    || Truthy(Get(data, "completed_with_error"))
    || Truthy(Get(data, "native_completed_with_error"))
  }

  // ---------------------------------------------------------------- the world

  type Duration = d: real | d >= 0.0

  datatype Reply = Answer(value: Json) | Fault

  datatype Request = Submit(command: string) | GetStatus(job: PyText)

  /** `outbound` and `inbound` are the delays of the k-th request before and after the server acts
      on it (the second includes the status hook); `oversleep` is by how much the sleep after the
      k-th request overruns. */
  datatype World = World(
    submit: string -> Reply,
    status: (PyText, real) -> Reply,
    outbound: nat -> Duration,
    inbound: nat -> Duration,
    oversleep: nat -> Duration)

  /** A status document together with the instant at which the store was read. */
  datatype Read = Read(at: real, data: seq<Field>)

  /** The client's side of the network: its clock, the requests it sent, the documents it saw. */
  datatype Net = Net(clock: real, sent: seq<Request>, seen: seq<Read>)

  function Sent(w: World, n: Net, r: Request): Net {
    var k := |n.sent|;
    n.(clock := n.clock + w.outbound(k) + w.inbound(k), sent := n.sent + [r])
  }

  function ReadInstant(w: World, n: Net): real {
    n.clock + w.outbound(|n.sent|)
  }

  function Polled(w: World, n: Net, job: PyText): Net {
    var at := ReadInstant(w, n);
    var m := Sent(w, n, GetStatus(job));
    match w.status(job, at)
    case Fault => m
    case Answer(v) => m.(seen := m.seen + [Read(at, StatusData(v))])
  }

  function Slept(w: World, n: Net, seconds: real): Net {
    n.(clock := n.clock + (if seconds > 0.0 then seconds else 0.0) + w.oversleep(|n.sent|))
  }

  datatype Outcome =
    | Returned(value: Json)
    | Handle(job: PyText, envelope: Json)
    | JobFailed(jobId: Json, jobError: Json, status: PyText)
    | CommandFailed(command: Json, jobId: Json, commandError: Json)
    | TimedOut(job: PyText, timeout: real)
    | TypeErr
    | Broken       // the transport raised
    | Unfinished   // the run was cut off after the given number of polls

  datatype Wait = Terminal(data: seq<Field>) | Expired(timeout: real) | WaitBroken | WaitUnfinished

  datatype Options = Options(timeout: Option<real>, pollInterval: real)

  // ---------------------------------------------------------------- specification of the runs

  /** The first `polls` rounds of the polling loop. */
  ghost function WaitRun(w: World, n: Net, job: PyText, start: real, o: Options, polls: nat): (Net, Wait)
    decreases polls
  {
    if polls == 0 then (n, WaitUnfinished)
    else
      var m := Polled(w, n, job);
      match w.status(job, ReadInstant(w, n))
      case Fault => (m, WaitBroken)
      case Answer(v) =>
        if IsTerminal(StatusData(v)) then (m, Terminal(StatusData(v)))
        else if o.timeout.Some? && m.clock - start >= o.timeout.value then (m, Expired(o.timeout.value))
        else WaitRun(w, Slept(w, m, o.pollInterval), job, start, o, polls - 1)
  }

  datatype Refetch = Found(error: Json) | Nothing | RefetchBroken

  ghost function RefetchRun(w: World, n: Net, job: PyText, attempts: nat): (Net, Refetch)
    decreases attempts
  {
    if attempts == 0 then (n, Nothing)
    else
      var awake := Slept(w, n, REFETCH_SLEEP);
      var m := Polled(w, awake, job);
      match w.status(job, ReadInstant(w, awake))
      case Fault => (m, RefetchBroken)
      case Answer(v) =>
        var e := InnerError(StatusData(v));
        if e != Null then (m, Found(e)) else RefetchRun(w, m, job, attempts - 1)
  }

  ghost function UnwrapRun(w: World, n: Net, data: seq<Field>, refetch: bool): (Net, Outcome) {
    var jobId, error := Get(data, "job_id"), Get(data, "error");
    if JobFailure(data) then
      var e := InnerError(data);
      if e != Null then (n, JobFailed(jobId, e, Status(data)))
      else if !refetch || !Truthy(jobId) then (n, JobFailed(jobId, error, Status(data)))
      else
        var (m, r) := RefetchRun(w, n, Str(jobId), REFETCH_ATTEMPTS);
        match r
        case Found(e) => (m, JobFailed(jobId, e, Status(data)))
        case Nothing => (m, JobFailed(jobId, error, Status(data)))
        case RefetchBroken => (m, Broken)
    else
      var inner := InnerResult(data);
      if CommandFailure(data) then
        var result := Get(data, "result");
        var command := if result.Object? then Get(result.fields, "command") else Null;
        (n, CommandFailed(command, jobId, inner))
      else (n, Returned(if inner.Object? then inner else Object([Field("result", inner)])))
  }

  /** Polling to completion and unwrapping, as `QueuedJob.wait` does. */
  ghost function JoinRun(w: World, n: Net, job: PyText, o: Options, polls: nat): (Net, Outcome) {
    var (m, r) := WaitRun(w, n, job, n.clock, o, polls);
    match r
    case Terminal(data) => UnwrapRun(w, m, data, true)
    case Expired(t) => (m, TimedOut(job, t))
    case WaitBroken => (m, Broken)
    case WaitUnfinished => (m, Unfinished)
  }

  ghost function ExecuteRun(w: World, n: Net, command: string, autoPoll: bool, o: Options, polls: nat)
    : (Net, Outcome)
  {
    var m := Sent(w, n, Submit(command));
    match w.submit(command)
    case Fault => (m, Broken)
    case Answer(resp) =>
      match IsQueuedEnvelope(resp)
      case Unhashable => (m, TypeErr)
      case NotQueued => (m, Returned(resp))
      case Queued =>
        var job := ExtractJobId(resp.fields);
        if !autoPoll then (m, Handle(job, resp)) else JoinRun(w, m, job, o, polls)
  }
}
