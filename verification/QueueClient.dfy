/** The client as it runs: one connection with its clock and request log, the polling loop, the
    refetch loop, and the handle returned when polling is opted out of. */
module QueueClient {
  import opened Wrappers
  import opened JsonValues
  import opened QueueWait

  class Session {
    const world: World
    var clock: real
    var sent: seq<Request>
    var seen: seq<Read>

    constructor (world: World, clock: real)
      ensures this.world == world && Snapshot() == Net(clock, [], [])
    {
      this.world := world;
      this.clock := clock;
      this.sent := [];
      this.seen := [];
    }

    function Snapshot(): Net
      reads this
    {
      Net(clock, sent, seen)
    }

    method Sleep(seconds: real)
      modifies this
      ensures Snapshot() == Slept(world, old(Snapshot()), seconds)
      ensures clock == old(clock) + (if seconds > 0.0 then seconds else 0.0) + world.oversleep(|sent|)
    {
      clock := clock + (if seconds > 0.0 then seconds else 0.0) + world.oversleep(|sent|);
    }

    method SubmitCommand(command: string) returns (r: Reply)
      modifies this
      ensures Snapshot() == Sent(world, old(Snapshot()), Submit(command))
      ensures r == world.submit(command)
    {
      r := world.submit(command);
      clock := clock + world.outbound(|sent|) + world.inbound(|sent|);
      sent := sent + [Submit(command)];
    }

    method GetJobStatus(job: PyText) returns (r: Reply)
      modifies this
      ensures Snapshot() == Polled(world, old(Snapshot()), job)
      ensures sent == old(sent) + [GetStatus(job)] && r == world.status(job, old(clock) + world.outbound(|old(sent)|))
      ensures clock == old(clock) + world.outbound(|old(sent)|) + world.inbound(|old(sent)|)
      ensures r == world.status(job, ReadInstant(world, old(Snapshot())))
    {
      var at := clock + world.outbound(|sent|);
      r := world.status(job, at);
      clock := at + world.inbound(|sent|);
      sent := sent + [GetStatus(job)];
      if r.Answer? {
        seen := seen + [Read(at, StatusData(r.value))];
      }
    }

    /** `wait_for_job`, cut off after `polls` rounds so that endless polling is a value too. */
    method WaitForJob(job: PyText, o: Options, polls: nat) returns (r: Wait)
      modifies this
      ensures (Snapshot(), r) == WaitRun(world, old(Snapshot()), job, old(clock), o, polls)
    {
      var start := clock;
      var left := polls;
      while left > 0
        invariant WaitRun(world, Snapshot(), job, start, o, left)
               == WaitRun(world, old(Snapshot()), job, start, o, polls)
      {
        var reply := GetJobStatus(job);
        if reply.Fault? {
          return WaitBroken;
        }
        var data := StatusData(reply.value);
        if IsTerminal(data) {
          return Terminal(data);
        }
        if o.timeout.Some? && clock - start >= o.timeout.value {
          return Expired(o.timeout.value);
        }
        Sleep(o.pollInterval);
        left := left - 1;
      }
      r := WaitUnfinished;
    }

    /** `_refetch_inner_command_error` */
    method RefetchInnerCommandError(job: PyText) returns (r: Refetch)
      modifies this
      ensures (Snapshot(), r) == RefetchRun(world, old(Snapshot()), job, REFETCH_ATTEMPTS)
    {
      var left := REFETCH_ATTEMPTS;
      while left > 0
        invariant RefetchRun(world, Snapshot(), job, left)
               == RefetchRun(world, old(Snapshot()), job, REFETCH_ATTEMPTS)
      {
        Sleep(REFETCH_SLEEP);
        var reply := GetJobStatus(job);
        if reply.Fault? {
          return RefetchBroken;
        }
        var e := InnerError(StatusData(reply.value));
        if e != Null {
          return Found(e);
        }
        left := left - 1;
      }
      r := Nothing;
    }

    /** `unwrap_job_result`; `refetch` says whether a connection was passed in. */
    method UnwrapJobResult(data: seq<Field>, refetch: bool) returns (r: Outcome)
      modifies this
      ensures (Snapshot(), r) == UnwrapRun(world, old(Snapshot()), data, refetch)
    {
      var jobId, error := Get(data, "job_id"), Get(data, "error");
      if JobFailure(data) {
        var inner := InnerError(data);
        if inner == Null && refetch && Truthy(jobId) {
          var again := RefetchInnerCommandError(Str(jobId));
          match again
          case RefetchBroken => return Broken;
          case Found(e) => inner := e;
          case Nothing =>
        }
        return JobFailed(jobId, if inner != Null then inner else error, Status(data));
      }
      var result, inner := Get(data, "result"), InnerResult(data);
      if CommandFailure(data) {
        return CommandFailed(if result.Object? then Get(result.fields, "command") else Null, jobId, inner);
      }
      r := Returned(if inner.Object? then inner else Object([Field("result", inner)]));
    }

    /** Poll to completion, then unwrap. */
    method Join(job: PyText, o: Options, polls: nat) returns (r: Outcome)
      modifies this
      ensures (Snapshot(), r) == JoinRun(world, old(Snapshot()), job, o, polls)
    {
      var w := WaitForJob(job, o, polls);
      match w
      case Terminal(data) => r := UnwrapJobResult(data, true);
      case Expired(t) => r := TimedOut(job, t);
      case WaitBroken => r := Broken;
      case WaitUnfinished => r := Unfinished;
    }

    /** `_execute`, the core every public entry point goes through. */
    method Execute(command: string, autoPoll: bool, o: Options, polls: nat) returns (r: Outcome)
      modifies this
      ensures (Snapshot(), r) == ExecuteRun(world, old(Snapshot()), command, autoPoll, o, polls)
    {
      var reply := SubmitCommand(command);
      if reply.Fault? {
        return Broken;
      }
      match IsQueuedEnvelope(reply.value)
      case Unhashable => return TypeErr;
      case NotQueued => return Returned(reply.value);
      case Queued =>
        var job := ExtractJobId(reply.value.fields);
        if !autoPoll {
          return Handle(job, reply.value);
        }
        r := Join(job, o, polls);
    }
  }

  class QueuedJob {
    const job: PyText
    const envelope: Json
    const rpc: Session

    constructor (job: PyText, envelope: Json, rpc: Session)
      ensures this.job == job && this.envelope == envelope && this.rpc == rpc
    {
      this.job := job;
      this.envelope := envelope;
      this.rpc := rpc;
    }

    method Wait(o: Options, polls: nat) returns (r: Outcome)
      modifies rpc
      ensures (rpc.Snapshot(), r) == JoinRun(rpc.world, old(rpc.Snapshot()), job, o, polls)
    {
      r := rpc.Join(job, o, polls);
    }
  }

  /** Opting out of polling and then waiting on the handle at once is the same as polling: the same
      outcome, the same requests, the same clock. */
  method OptOutThenWait(rpc: Session, command: string, o: Options, polls: nat) returns (r: Outcome)
    modifies rpc
    ensures (rpc.Snapshot(), r) == ExecuteRun(rpc.world, old(rpc.Snapshot()), command, true, o, polls)
  {
    r := rpc.Execute(command, false, o, polls);
    if r.Handle? {
      var handle := new QueuedJob(r.job, r.envelope, rpc);
      r := handle.Wait(o, polls);
    }
  }
}
