/** What the queue-aware client guarantees, over every world and every length of run. */
module QueueProperties {
  import opened Wrappers
  import opened JsonValues
  import opened QueueWait
  import Text

  // ---------------------------------------------------------------- envelope detection

  /** Where a response may carry its job id, in the order in which the places are tried. */
  function JobIdPlaces(fields: seq<Field>): seq<Json> {
    var data := Get(fields, "data");
    [Get(fields, "job_id"), Get(fields, "jobId")]
    + if data.Object? then [Get(data.fields, "job_id"), Get(data.fields, "jobId")] else []
  }

  /** A response has a job id exactly when one of those places holds a truthy value, and it is the
      first such value. */
  lemma JobIdIsTheFirstGiven(fields: seq<Field>)
    ensures var places := JobIdPlaces(fields);
      && (Truthy(RawJobId(fields)) <==> exists i :: 0 <= i < |places| && Truthy(places[i]))
      && forall i :: 0 <= i < |places| && Truthy(places[i]) && (forall j :: 0 <= j < i ==> !Truthy(places[j])) ==>
           RawJobId(fields) == places[i]
  {
    var places := JobIdPlaces(fields);
    hide Get;
    assert places[0] == Get(fields, "job_id") && places[1] == Get(fields, "jobId");
    if Get(fields, "data").Object? {
      assert places[2] == Get(Get(fields, "data").fields, "job_id")
        && places[3] == Get(Get(fields, "data").fields, "jobId");
    }
  }

  /** The documented rule: a job id, and a marker or a queued status with service keys only. */
  predicate DocumentedQueued(resp: Json) {
    && resp.Object?
    && (exists i :: 0 <= i < |JobIdPlaces(resp.fields)| && Truthy(JobIdPlaces(resp.fields)[i]))
    && (|| HasMarker(resp.fields)
        || (&& (forall f :: f in resp.fields ==>
                  f.key in ["success", "job_id", "jobId", "status", "message", "store", "poll_with",
                            "queued_after_timeout", "data"])
            && Get(resp.fields, "status") in [String("pending"), String("queued"), String("running")]))
  }

  /** One of the three signs by which either deployed variant marks a queued response. */
  predicate HasMarker(fields: seq<Field>) {
    || Get(fields, "poll_with") == String("queue_get_job_status")
    || Get(fields, "store") == String("queuemgr")
    || Truthy(Get(fields, "queued_after_timeout"))
  }

  predicate StatusBreaksLookup(resp: Json) {
    && resp.Object?
    && (exists i :: 0 <= i < |JobIdPlaces(resp.fields)| && Truthy(JobIdPlaces(resp.fields)[i]))
    && !HasMarker(resp.fields)
    && (Get(resp.fields, "status").Array? || Get(resp.fields, "status").Object?)
  }

  /** The code follows the documented rule exactly when no unmarked response carries a job id next
      to a list or dict under `status`; on those the lookup raises instead of answering. */
  lemma DetectionMatchesDocumentedRule(resp: Json)
    ensures IsQueuedEnvelope(resp) == (if DocumentedQueued(resp) then Queued else NotQueued)
       <==> !StatusBreaksLookup(resp)
    ensures IsQueuedEnvelope(resp) == Unhashable <==> StatusBreaksLookup(resp)
  {
    if resp.Object? {
      JobIdIsTheFirstGiven(resp.fields);
      hide JobIdPlaces, RawJobId, Get;
      var status := Get(resp.fields, "status");
      assert status in [String("pending"), String("queued"), String("running")]
         <==> status.String? && status.text in QUEUED_STATUSES;
      ServiceKeys(resp.fields);
    }
  }

  lemma ServiceKeys(fields: seq<Field>)
    ensures ServiceKeysOnly(fields) <==> forall f :: f in fields ==>
              f.key in ["success", "job_id", "jobId", "status", "message", "store", "poll_with",
                        "queued_after_timeout", "data"]
  {
    forall f | f in fields
      ensures f.key in SERVICE_ENVELOPE_KEYS
         <==> f.key in ["success", "job_id", "jobId", "status", "message", "store", "poll_with",
                        "queued_after_timeout", "data"]
    {
    }
  }

  /** A command result that carries a job id and a structured status is not passed through. */
  lemma StructuredStatusIsNotPassedThrough() returns (resp: Json)
    ensures !DocumentedQueued(resp)
    ensures IsQueuedEnvelope(resp) == Unhashable
  {
    var fields := [Field("job_id", String("j")), Field("status", Object([])), Field("items", Array([]))];
    resp := Object(fields);
    assert fields[1..][0] == Field("status", Object([])) && fields[1..][1..] == [Field("items", Array([]))];
    assert fields[1..][1..][1..] == [];
    forall k | k in {"poll_with", "store", "queued_after_timeout"}
      ensures Get(fields, k) == Null
    {
      assert Get(fields, k) == Get(fields[1..], k) == Get(fields[1..][1..], k) == Get(fields[1..][1..][1..], k);
    }
    assert Get(fields, "job_id") == String("j");
    assert Get(fields, "status") == Get(fields[1..], "status") == Object([]);
    DetectionMatchesDocumentedRule(resp);
  }

  // ---------------------------------------------------------------- what a wait has read

  predicate ReadsFrom(w: World, job: PyText, r: Read) {
    w.status(job, r.at).Answer? && r.data == StatusData(w.status(job, r.at).value)
  }

  lemma {:induction false} WaitReads(w: World, n: Net, job: PyText, start: real, o: Options, polls: nat)
    returns (added: seq<Read>)
    ensures var m := WaitRun(w, n, job, start, o, polls).0;
      && m.seen == n.seen + added
      && m.clock >= n.clock
      && forall i :: 0 <= i < |added| ==> ReadsFrom(w, job, added[i]) && n.clock <= added[i].at <= m.clock
    decreases polls
  {
    hide IsTerminal, StatusData;
    added := [];
    if polls > 0 {
      var m := Polled(w, n, job);
      match w.status(job, ReadInstant(w, n)) {
        case Fault =>
        case Answer(v) =>
          added := [Read(ReadInstant(w, n), StatusData(v))];
          if !IsTerminal(StatusData(v)) && !(o.timeout.Some? && m.clock - start >= o.timeout.value) {
            var rest := WaitReads(w, Slept(w, m, o.pollInterval), job, start, o, polls - 1);
            added := added + rest;
          }
      }
    }
  }

  /** A wait ends normally with the first terminal document it reads, however late: such a read is
      never turned into a timeout, and no other document is ever taken for the result. */
  lemma {:induction false} WaitEnds(w: World, n: Net, job: PyText, start: real, o: Options, polls: nat)
    returns (added: seq<Read>)
    ensures var (m, r) := WaitRun(w, n, job, start, o, polls);
      && m.seen == n.seen + added
      && (r.Terminal? ==> added != [] && added[|added| - 1].data == r.data && IsTerminal(r.data))
      && (forall i :: 0 <= i < |added| - (if r.Terminal? then 1 else 0) ==> !IsTerminal(added[i].data))
      && (r.Expired? ==> o.timeout == Some(r.timeout) && m.clock - start >= r.timeout)
    decreases polls
  {
    hide IsTerminal;
    added := [];
    if polls > 0 {
      var m := Polled(w, n, job);
      match w.status(job, ReadInstant(w, n)) {
        case Fault =>
        case Answer(v) =>
          added := [Read(ReadInstant(w, n), StatusData(v))];
          if !IsTerminal(StatusData(v)) && !(o.timeout.Some? && m.clock - start >= o.timeout.value) {
            var rest := WaitEnds(w, Slept(w, m, o.pollInterval), job, start, o, polls - 1);
            added := added + rest;
          }
      }
    }
  }

  // ---------------------------------------------------------------- the deadline

  ghost predicate DelaysWithin(w: World, lap: real, over: real) {
    forall k: nat :: w.outbound(k) + w.inbound(k) <= lap && w.oversleep(k) <= over
  }

  function Ceil(x: real): int {
    -((-x).Floor)
  }

  function PollBound(timeout: real, interval: real): int
    requires interval > 0.0
  {
    var c := Ceil(timeout / interval) + 1;
    if c < 1 then 1 else c
  }

  /** The time k intervals take. */
  function Spent(k: nat, interval: real): real {
    if k == 0 then 0.0 else Spent(k - 1, interval) + interval
  }

  lemma {:induction false} SpentIsProduct(k: nat, interval: real)
    ensures Spent(k, interval) == k as real * interval
  {
    if k > 0 {
      SpentIsProduct(k - 1, interval);
      assert k as real * interval == (k - 1) as real * interval + interval;
    }
  }

  /** The k-th round starts no earlier than k intervals after the start, and the one before it had
      not yet reached the deadline. */
  lemma {:induction false} WaitPolls(
      w: World, n: Net, job: PyText, start: real, timeout: real, interval: real, polls: nat, done: nat)
    requires interval > 0.0
    requires n.clock - start >= Spent(done, interval)
    requires done >= 1 ==> Spent(done - 1, interval) < timeout
    ensures var (m, r) := WaitRun(w, n, job, start, Options(Some(timeout), interval), polls);
      && |n.sent| <= |m.sent| <= |n.sent| + polls
      && var total := done + |m.sent| - |n.sent|;
      && (total >= 2 ==> Spent(total - 2, interval) < timeout)
      && (r == WaitUnfinished ==> |m.sent| == |n.sent| + polls)
      && (r == WaitUnfinished && total >= 1 ==> Spent(total - 1, interval) < timeout)
    decreases polls
  {
    hide IsTerminal, StatusData;
    if polls > 0 {
      var m := Polled(w, n, job);
      match w.status(job, ReadInstant(w, n)) {
        case Fault =>
        case Answer(v) =>
          if !IsTerminal(StatusData(v)) && m.clock - start < timeout {
            WaitPolls(w, Slept(w, m, interval), job, start, timeout, interval, polls - 1, done + 1);
          }
      }
    }
  }

  lemma {:induction false} WaitEndsInTime(
      w: World, n: Net, job: PyText, start: real, timeout: real, interval: real, polls: nat, lap: real, over: real)
    requires interval > 0.0 && DelaysWithin(w, lap, over)
    requires n.clock - start < timeout + interval + over
    ensures var (m, r) := WaitRun(w, n, job, start, Options(Some(timeout), interval), polls);
      r != WaitUnfinished ==> m.clock - start < timeout + interval + over + lap
    decreases polls
  {
    if polls > 0 {
      var m := Polled(w, n, job);
      var k := |n.sent|;
      assert w.outbound(k) + w.inbound(k) <= lap && w.oversleep(k + 1) <= over;
      match w.status(job, ReadInstant(w, n)) {
        case Fault =>
        case Answer(v) =>
          if !IsTerminal(StatusData(v)) && m.clock - start < timeout {
            WaitEndsInTime(w, Slept(w, m, interval), job, start, timeout, interval, polls - 1, lap, over);
          }
      }
    }
  }

  lemma QuotientAbove(a: real, b: real, t: real)
    requires b > 0.0 && a * b < t
    ensures a < t / b
  {
    if t / b <= a {
      ProductAbove(a, b, t);
    }
  }

  lemma ProductAbove(a: real, b: real, t: real)
    requires b > 0.0 && t / b <= a
    ensures t <= a * b
  {
    var q := t / b;
    assert q * b == t;
    assert (a - q) * b >= 0.0;
    assert (a - q) * b == a * b - q * b;
  }

  lemma CountFromTime(rounds: nat, timeout: real, interval: real)
    requires interval > 0.0 && Spent(rounds, interval) < timeout
    ensures rounds < Ceil(timeout / interval)
  {
    SpentIsProduct(rounds, interval);
    QuotientAbove(rounds as real, interval, timeout);
    var q := timeout / interval;
    assert -q >= (-q).Floor as real;
  }

  /** With a timeout T and an interval p > 0 the loop polls at most max(1, ceil(T/p) + 1) times,
      given that many rounds it always ends, it never gives up before T, and (for T >= 0) it has
      ended before T + p + one overrun + one round trip. */
  lemma PollDeadline(w: World, n: Net, job: PyText, timeout: real, interval: real, polls: nat, lap: real, over: real)
    requires interval > 0.0 && DelaysWithin(w, lap, over)
    ensures var (m, r) := WaitRun(w, n, job, n.clock, Options(Some(timeout), interval), polls);
      && |m.sent| - |n.sent| <= PollBound(timeout, interval)
      && (polls >= PollBound(timeout, interval) ==> r != WaitUnfinished)
      && (r.Expired? ==> m.clock - n.clock >= timeout)
      && (timeout >= 0.0 && r != WaitUnfinished ==> m.clock - n.clock < timeout + interval + over + lap)
  {
    var (m, r) := WaitRun(w, n, job, n.clock, Options(Some(timeout), interval), polls);
    WaitPolls(w, n, job, n.clock, timeout, interval, polls, 0);
    var made := |m.sent| - |n.sent|;
    if made >= 2 {
      CountFromTime(made - 2, timeout, interval);
    }
    if r == WaitUnfinished && polls >= 1 {
      CountFromTime(polls - 1, timeout, interval);
    }
    var _ := WaitEnds(w, n, job, n.clock, Options(Some(timeout), interval), polls);
    if timeout >= 0.0 {
      assert w.oversleep(0) <= over;
      WaitEndsInTime(w, n, job, n.clock, timeout, interval, polls, lap, over);
    }
  }

  /** A world without delays in which the job never ends. */
  ghost predicate Idle(w: World, job: PyText) {
    && (forall k: nat :: w.outbound(k) == 0.0 && w.inbound(k) == 0.0 && w.oversleep(k) == 0.0)
    && forall t: real :: w.status(job, t).Answer? && !IsTerminal(StatusData(w.status(job, t).value))
  }

  lemma {:induction false} IdleWait(
      w: World, n: Net, job: PyText, start: real, timeout: real, interval: real, polls: nat, done: nat)
    requires Idle(w, job) && interval > 0.0 && n.clock - start == Spent(done, interval)
    ensures var (m, r) := WaitRun(w, n, job, start, Options(Some(timeout), interval), polls);
      && r != WaitBroken && !r.Terminal?
      && (r.Expired? ==>
            |m.sent| > |n.sent| && m.clock - start == Spent(done + |m.sent| - |n.sent| - 1, interval) >= timeout)
    decreases polls
  {
    hide IsTerminal, StatusData;
    if polls > 0 {
      var m := Polled(w, n, job);
      if m.clock - start < timeout {
        IdleWait(w, Slept(w, m, interval), job, start, timeout, interval, polls - 1, done + 1);
      }
    }
  }

  lemma QuotientBelow(a: real, b: real, t: real)
    requires b > 0.0 && t <= a * b
    ensures t / b <= a
  {
    if a < t / b {
      ProductBelow(a, b, t);
    }
  }

  lemma ProductBelow(a: real, b: real, t: real)
    requires b > 0.0 && a < t / b
    ensures a * b < t
  {
    var q := t / b;
    assert q * b == t;
    assert (q - a) * b > 0.0;
    assert (q - a) * b == q * b - a * b;
  }

  /** And the number of polls is no smaller: for a job that never ends, without delays, it is exactly
      max(1, ceil(T/p) + 1). */
  lemma PollBoundIsReached(w: World, n: Net, job: PyText, timeout: real, interval: real, polls: nat)
    requires Idle(w, job) && interval > 0.0 && polls >= PollBound(timeout, interval)
    ensures var (m, r) := WaitRun(w, n, job, n.clock, Options(Some(timeout), interval), polls);
      && r == Expired(timeout)
      && |m.sent| - |n.sent| == if timeout > 0.0 then Ceil(timeout / interval) + 1 else 1
  {
    var (m, r) := WaitRun(w, n, job, n.clock, Options(Some(timeout), interval), polls);
    PollDeadline(w, n, job, timeout, interval, polls, 0.0, 0.0);
    IdleWait(w, n, job, n.clock, timeout, interval, polls, 0);
    var _ := WaitEnds(w, n, job, n.clock, Options(Some(timeout), interval), polls);
    hide WaitRun, Idle, Ceil;
    EnoughPolls(|m.sent| - |n.sent| - 1, timeout, interval);
  }

  lemma EnoughPolls(last: nat, timeout: real, interval: real)
    requires interval > 0.0 && Spent(last, interval) >= timeout && last + 1 <= PollBound(timeout, interval)
    ensures last + 1 == if timeout > 0.0 then Ceil(timeout / interval) + 1 else 1
  {
    SpentIsProduct(last, interval);
    QuotientBelow(last as real, interval, timeout);
    CeilAtMost(timeout / interval, last);
    if timeout <= 0.0 {
      QuotientBelow(0.0, interval, timeout);
      CeilAtMost(timeout / interval, 0);
    } else {
      QuotientAbove(0.0, interval, timeout);
    }
  }

  lemma CeilAtMost(x: real, k: int)
    requires x <= k as real
    ensures Ceil(x) <= k
  {
    assert -x >= (-k) as real;
  }

  /** Without a timeout the loop only ever ends on a terminal status or a transport error. */
  lemma {:induction false} NoTimeoutNoExpiry(w: World, n: Net, job: PyText, start: real, interval: real, polls: nat)
    ensures !WaitRun(w, n, job, start, Options(None, interval), polls).1.Expired?
    decreases polls
  {
    if polls > 0 {
      match w.status(job, ReadInstant(w, n)) {
        case Fault =>
        case Answer(v) =>
          NoTimeoutNoExpiry(w, Slept(w, Polled(w, n, job), interval), job, start, interval, polls - 1);
      }
    }
  }

  // ---------------------------------------------------------------- the write-order race

  ghost function ErrorAt(w: World, job: PyText, t: real): Json {
    match w.status(job, t)
    case Fault => Null
    case Answer(v) => InnerError(StatusData(v))
  }

  /** The refetch reports the first structured error it reads, and gives up only after reading
      four documents, at least half a second apart, none of which shows one. */
  lemma {:induction false} RefetchReads(w: World, n: Net, job: PyText, attempts: nat) returns (added: seq<Read>)
    ensures var (m, r) := RefetchRun(w, n, job, attempts);
      && m.seen == n.seen + added
      && |added| <= attempts
      && (forall i :: 0 <= i < |added| ==>
           ReadsFrom(w, job, added[i]) && added[i].at >= n.clock + (i + 1) as real * 0.5)
      && (r.Found? ==> added != [] && r.error != Null && InnerError(added[|added| - 1].data) == r.error)
      && (r == Nothing ==> |added| == attempts)
      && (forall i :: 0 <= i < |added| - (if r.Found? then 1 else 0) ==> InnerError(added[i].data) == Null)
    decreases attempts
  {
    hide InnerError, StatusData;
    added := [];
    if attempts > 0 {
      var awake := Slept(w, n, REFETCH_SLEEP);
      var m := Polled(w, awake, job);
      match w.status(job, ReadInstant(w, awake)) {
        case Fault =>
        case Answer(v) =>
          added := [Read(ReadInstant(w, awake), StatusData(v))];
          if InnerError(StatusData(v)) == Null {
            var rest := RefetchReads(w, m, job, attempts - 1);
            added := added + rest;
            assert forall i :: 0 < i < |added| ==> added[i] == rest[i - 1];
          }
      }
    }
  }

  /** `JobFailedError.error` is the structured error of the first document that showed one, else
      the queue-level error of the terminal document; it is None if and only if no document showed
      a structured error and the terminal one had no queue-level error either. */
  lemma ErrorSource(w: World, n: Net, data: seq<Field>)
    requires UnwrapRun(w, n, data, true).1.JobFailed?
    ensures var (m, r) := UnwrapRun(w, n, data, true);
      && n.seen <= m.seen
      && var added := m.seen[|n.seen|..];
      && (r.jobError == Null <==>
            && InnerError(data) == Null && Get(data, "error") == Null
            && forall i :: 0 <= i < |added| ==> InnerError(added[i].data) == Null)
      && (InnerError(data) != Null ==> r.jobError == InnerError(data) && added == [])
      && (InnerError(data) == Null && Truthy(Get(data, "job_id")) ==>
            || (added != [] && InnerError(added[|added| - 1].data) == r.jobError != Null)
            || (|added| == 4 && r.jobError == Get(data, "error")))
  {
    hide InnerError, RefetchRun, Status, CommandFailure, InnerResult, ReadsFrom;
    if InnerError(data) == Null && Truthy(Get(data, "job_id")) {
      var added := RefetchReads(w, n, Str(Get(data, "job_id")), REFETCH_ATTEMPTS);
      var (m, r) := RefetchRun(w, n, Str(Get(data, "job_id")), REFETCH_ATTEMPTS);
      assert m.seen[|n.seen|..] == added;
      if r.Found? {
        assert InnerError(added[|added| - 1].data) != Null;
      }
    }
  }

  /** In every status document that is answered the structured error is absent before `at` and
      present, unchanging, from then on. Nothing else about the documents is fixed: they may carry
      a queue-level error and any other field, and reads may fail. */
  ghost predicate Lands(w: World, job: PyText, error: Json, at: real) {
    && error != Null
    && forall t: real :: w.status(job, t).Answer? ==> ErrorAt(w, job, t) == if t >= at then error else Null
  }

  ghost predicate AlwaysAnswers(w: World, job: PyText) {
    forall t: real :: w.status(job, t).Answer?
  }

  /** The instant of the k-th read of a refetch, should it get that far. */
  ghost function RefetchInstant(w: World, n: Net, job: PyText, k: nat): real
    requires k >= 1
    decreases k
  {
    var awake := Slept(w, n, 0.5);
    if k == 1 then ReadInstant(w, awake) else RefetchInstant(w, Polled(w, awake, job), job, k - 1)
  }

  /** Each of those reads comes at least half a second after the one before, and in a world whose
      delays are bounded not much more than that. */
  lemma {:induction false} RefetchInstantBounds(w: World, n: Net, job: PyText, k: nat, lap: real, over: real)
    requires k >= 1
    ensures RefetchInstant(w, n, job, k) >= n.clock + k as real * 0.5
    ensures DelaysWithin(w, lap, over) ==>
              RefetchInstant(w, n, job, k) <= n.clock + k as real * 0.5 + Spent(k, lap + over)
    decreases k
  {
    hide StatusData;
    var awake := Slept(w, n, REFETCH_SLEEP);
    assert DelaysWithin(w, lap, over) ==>
      w.outbound(|n.sent|) + w.inbound(|n.sent|) <= lap && w.oversleep(|n.sent|) <= over;
    if k > 1 {
      RefetchInstantBounds(w, Polled(w, awake, job), job, k - 1, lap, over);
    }
  }

  /** The window of a refetch, exactly, in every world: the error is found if and only if it has
      landed by the instant of the last read. */
  lemma {:induction false} RefetchFinds(w: World, n: Net, job: PyText, error: Json, at: real, attempts: nat)
    requires Lands(w, job, error, at) && attempts >= 1
    ensures var r := RefetchRun(w, n, job, attempts).1;
      && (r == RefetchBroken || r == if at <= RefetchInstant(w, n, job, attempts) then Found(error) else Nothing)
      && (AlwaysAnswers(w, job) ==> r != RefetchBroken)
    decreases attempts
  {
    hide InnerError, StatusData;
    var awake := Slept(w, n, REFETCH_SLEEP);
    var here, m := ReadInstant(w, awake), Polled(w, awake, job);
    if w.status(job, here).Answer? {
      assert ErrorAt(w, job, here) == if here >= at then error else Null;
      if attempts > 1 {
        RefetchInstantBounds(w, m, job, attempts - 1, 0.0, 0.0);
        if here < at {
          RefetchFinds(w, m, job, error, at, attempts - 1);
        }
      } else {
        assert RefetchRun(w, m, job, 0).1 == Nothing;
      }
    }
  }

  // ---------------------------------------------------------------- a wait and what follows it

  /** A wait that ends normally ends with a document the server answered at some instant within it. */
  lemma TerminalRead(w: World, n: Net, job: PyText, o: Options, polls: nat) returns (read: Read)
    ensures var (m, r) := WaitRun(w, n, job, n.clock, o, polls);
      r.Terminal? ==>
        && m.seen != [] && read == m.seen[|m.seen| - 1]
        && ReadsFrom(w, job, read) && read.data == r.data && IsTerminal(r.data)
        && n.clock <= read.at <= m.clock
  {
    hide IsTerminal, WaitRun, StatusData;
    var added := WaitReads(w, n, job, n.clock, o, polls);
    var again := WaitEnds(w, n, job, n.clock, o, polls);
    var m := WaitRun(w, n, job, n.clock, o, polls).0;
    assert added == m.seen[|n.seen|..] == again;
    read := if added != [] then added[|added| - 1] else Read(0.0, []);
  }

  /** If no document is terminal before the terminal status is written, no wait ends with one read
      before that. */
  lemma WaitOnStore(w: World, n: Net, job: PyText, statusAt: real, o: Options, polls: nat)
    requires forall t: real :: t < statusAt && w.status(job, t).Answer? ==>
      !IsTerminal(StatusData(w.status(job, t).value))
    ensures var (m, r) := WaitRun(w, n, job, n.clock, o, polls);
      r.Terminal? ==> m.seen != [] && statusAt <= m.seen[|m.seen| - 1].at <= m.clock
  {
    var _ := TerminalRead(w, n, job, o, polls);
  }

  lemma {:induction false} NoFault(w: World, n: Net, job: PyText, start: real, o: Options, polls: nat)
    requires AlwaysAnswers(w, job)
    ensures WaitRun(w, n, job, start, o, polls).1 != WaitBroken
    decreases polls
  {
    hide IsTerminal, StatusData;
    if polls > 0 {
      NoFault(w, Slept(w, Polled(w, n, job), o.pollInterval), job, start, o, polls - 1);
    }
  }

  /** A job that fails: its terminal documents say so and carry its id. */
  ghost predicate FailsAs(w: World, job: PyText) {
    forall t: real :: w.status(job, t).Answer? ==>
      var d := StatusData(w.status(job, t).value);
      IsTerminal(d) ==> JobFailure(d) && Truthy(Get(d, "job_id")) && Str(Get(d, "job_id")) == job
  }

  /** The last instant at which the client looks for the error of a failed job. */
  ghost function LastLook(w: World, n: Net, job: PyText): real {
    RefetchInstant(w, n, job, 4)
  }

  /** What a failed job's wait raises, exactly, in every world: the structured error if and only if
      it has landed by the last look, otherwise the terminal document's queue-level error. */
  lemma RaceWindowIsExact(w: World, n: Net, job: PyText, error: Json, landed: real, o: Options, polls: nat)
    requires Lands(w, job, error, landed) && FailsAs(w, job)
    ensures var (m, wait) := WaitRun(w, n, job, n.clock, o, polls);
      var r := JoinRun(w, n, job, o, polls).1;
      wait.Terminal? ==>
        && (|| r == Broken
            || r == JobFailed(
                 Get(wait.data, "job_id"),
                 if landed <= LastLook(w, m, job) then error else Get(wait.data, "error"),
                 Status(wait.data)))
        && (AlwaysAnswers(w, job) ==> r != Broken)
  {
    var (m, wait) := WaitRun(w, n, job, n.clock, o, polls);
    var read := TerminalRead(w, n, job, o, polls);
    hide WaitRun, RefetchRun, RefetchInstant, IsTerminal, InnerError, StatusData, JobFailure, Status;
    hide CommandFailure, InnerResult;
    if wait.Terminal? {
      assert ErrorAt(w, job, read.at) == if read.at >= landed then error else Null;
      RefetchInstantBounds(w, m, job, REFETCH_ATTEMPTS, 0.0, 0.0);
      RefetchFinds(w, m, job, error, landed, REFETCH_ATTEMPTS);
    }
  }

  /** The race is ridden out: whenever the structured error lands within 4 x 0.5 s of the terminal
      read, a call raises JobFailedError with that error, in every interleaving, for every timeout,
      interval and delay, and whatever queue-level error the documents carry. */
  lemma RaceRecovered(w: World, n: Net, command: string, job: PyText, error: Json, landed: real, o: Options, polls: nat)
    requires w.submit(command).Answer? && IsQueuedEnvelope(w.submit(command).value) == Queued
    requires ExtractJobId(w.submit(command).value.fields) == job
    requires Lands(w, job, error, landed) && FailsAs(w, job)
    ensures var start := Sent(w, n, Submit(command));
      var (m, wait) := WaitRun(w, start, job, start.clock, o, polls);
      var r := ExecuteRun(w, n, command, true, o, polls).1;
      && (wait.Terminal? ==> m.seen != [])
      && (wait.Terminal? && landed <= m.seen[|m.seen| - 1].at + 2.0 ==>
            r == Broken || r == JobFailed(Get(wait.data, "job_id"), error, Status(wait.data)))
      && (!wait.Terminal? ==> r.TimedOut? || r == Unfinished || r == Broken)
      && (AlwaysAnswers(w, job) ==> r != Broken)
  {
    var start := Sent(w, n, Submit(command));
    var (m, wait) := WaitRun(w, start, job, start.clock, o, polls);
    var _ := TerminalRead(w, start, job, o, polls);
    RefetchInstantBounds(w, m, job, REFETCH_ATTEMPTS, 0.0, 0.0);
    RaceWindowIsExact(w, start, job, error, landed, o, polls);
    if AlwaysAnswers(w, job) {
      NoFault(w, start, job, start.clock, o, polls);
    }
    hide WaitRun, RefetchRun, RefetchInstant, UnwrapRun, IsQueuedEnvelope, ExtractJobId, Lands, FailsAs, Status;
  }

  /** In particular a result written within that time of the status itself is always in time. */
  lemma PromptResultIsAlwaysInTime(w: World, n: Net, command: string, job: PyText, error: Json, statusAt: real,
      landed: real, o: Options, polls: nat)
    requires w.submit(command).Answer? && IsQueuedEnvelope(w.submit(command).value) == Queued
    requires ExtractJobId(w.submit(command).value.fields) == job
    requires Lands(w, job, error, landed) && FailsAs(w, job) && AlwaysAnswers(w, job)
    requires forall t: real :: t < statusAt && w.status(job, t).Answer? ==>
      !IsTerminal(StatusData(w.status(job, t).value))
    requires landed <= statusAt + 2.0
    ensures var r := ExecuteRun(w, n, command, true, o, polls).1;
      (r.JobFailed? && r.jobError == error) || r.TimedOut? || r == Unfinished
  {
    var start := Sent(w, n, Submit(command));
    RaceRecovered(w, n, command, job, error, landed, o, polls);
    WaitOnStore(w, start, job, statusAt, o, polls);
    hide WaitRun, ExecuteRun, Lands, FailsAs;
  }

  /** How a queue words its replies: whether the document comes under `data`, and whether the error
      stands in the command's own result or beside it. */
  datatype Wording = Wording(wrapped: bool, nested: bool)

  function Landed(error: Json, nested: bool): Json {
    var failure := Object([Field("error", error)]);
    if nested then Object([Field("result", failure)]) else failure
  }

  /** A queue that writes the status with an error of its own first, and the result later. */
  function TwoWrites(job: string, queueError: Json, error: Json, statusAt: real, landed: real, nested: bool, t: real)
    : seq<Field>
  {
    [Field("job_id", String(job)), Field("status", String(if t >= statusAt then "failed" else "running")),
     Field("error", if t >= statusAt then queueError else Null),
     Field("result", if t >= landed then Landed(error, nested) else Null)]
  }

  function Worded(d: seq<Field>, wrapped: bool): Json {
    if wrapped then Object([Field("success", Bool(true)), Field("data", Object(d))]) else Object(d)
  }

  lemma FourFields(k0: string, k1: string, k2: string, k3: string, v0: Json, v1: Json, v2: Json, v3: Json)
    requires k0 != k1 && k0 != k2 && k0 != k3 && k1 != k2 && k1 != k3 && k2 != k3
    ensures var d := [Field(k0, v0), Field(k1, v1), Field(k2, v2), Field(k3, v3)];
      && Get(d, k0) == v0 && Get(d, k1) == v1 && Get(d, k2) == v2 && Get(d, k3) == v3 && Has(d, k1)
      && forall k :: k != k0 && k != k1 && k != k2 && k != k3 ==> Get(d, k) == Null
  {
    var d := [Field(k0, v0), Field(k1, v1), Field(k2, v2), Field(k3, v3)];
    assert d[1].key == k1;
    assert d[1..] == [Field(k1, v1), Field(k2, v2), Field(k3, v3)] && d[1..][1..] == [Field(k2, v2), Field(k3, v3)];
    assert d[1..][1..][1..] == [Field(k3, v3)] && d[1..][1..][1..][1..] == [];
    forall k
      ensures k != k0 ==> Get(d, k) == Get(d[1..], k)
      ensures k != k0 && k != k1 ==> Get(d, k) == Get(d[1..][1..], k)
      ensures k != k0 && k != k1 && k != k2 ==> Get(d, k) == Get(d[1..][1..][1..], k)
      ensures k != k0 && k != k1 && k != k2 && k != k3 ==> Get(d, k) == Null
    {
    }
  }

  lemma LandedRead(error: Json, nested: bool)
    ensures var d := [Field("result", Landed(error, nested))]; InnerError(d) == error
  {
    var failure := [Field("error", error)];
    assert failure[1..] == [] && Get(failure, "error") == error && Get(failure, "result") == Null;
    var outer := [Field("result", Object(failure))];
    assert Get(outer, "result") == Object(failure) && outer[1..] == [] && Get(outer, "error") == Null;
  }

  lemma SameResult(d: seq<Field>, e: seq<Field>)
    requires Get(d, "result") == Get(e, "result")
    ensures InnerError(d) == InnerError(e)
  {
  }

  lemma WordedRead(d: seq<Field>, wrapped: bool)
    requires Get(d, "data") == Null
    ensures StatusData(Worded(d, wrapped)) == d
  {
    var outer := [Field("success", Bool(true)), Field("data", Object(d))];
    assert outer[1..] == [Field("data", Object(d))];
    assert Get(outer, "data") == Get(outer[1..], "data") == Object(d);
  }

  lemma TwoWritesRead(job: string, queueError: Json, error: Json, statusAt: real, landed: real, wording: Wording,
      t: real)
    ensures var d := TwoWrites(job, queueError, error, statusAt, landed, wording.nested, t);
      && StatusData(Worded(d, wording.wrapped)) == d
      && Get(d, "job_id") == String(job) && Get(d, "error") == (if t >= statusAt then queueError else Null)
      && InnerError(d) == (if t >= landed then error else Null)
      && Status(d) == PyText.Text(if t >= statusAt then "failed" else "running")
  {
    hide Landed;
    var d := TwoWrites(job, queueError, error, statusAt, landed, wording.nested, t);
    var word := if t >= statusAt then "failed" else "running";
    FourFields("job_id", "status", "error", "result", d[0].value, d[1].value, d[2].value, d[3].value);
    assert Get(d, "data") == Null;
    WordedRead(d, wording.wrapped);
    Plain();
    if t >= landed {
      LandedRead(error, wording.nested);
      var e := [Field("result", Landed(error, wording.nested))];
      assert Get(e, "result") == e[0].value;
      SameResult(d, e);
    }
  }

  lemma Plain()
    ensures Text.Lower(Text.Strip("failed")) == "failed" && Text.Lower(Text.Strip("running")) == "running"
  {
    assert Text.Lower("failed") == "failed" && Text.Lower("running") == "running";
  }

  ghost predicate ServesTwoWrites(
      w: World, job: string, queueError: Json, error: Json, statusAt: real, landed: real, wording: Wording) {
    forall t: real :: w.status(PyText.Text(job), t)
      == Answer(Worded(TwoWrites(job, queueError, error, statusAt, landed, wording.nested, t), wording.wrapped))
  }

  /** What is assumed of a failed job's documents is what such a queue serves, for all instants of the
      two writes, whatever error of its own it writes, and however it words its replies. */
  lemma AQueueInTwoWrites(w: World, job: string, queueError: Json, error: Json, statusAt: real, landed: real,
      wording: Wording)
    requires job != "" && error != Null
    requires ServesTwoWrites(w, job, queueError, error, statusAt, landed, wording)
    ensures Lands(w, PyText.Text(job), error, landed) && FailsAs(w, PyText.Text(job))
      && AlwaysAnswers(w, PyText.Text(job))
  {
    hide TwoWrites, InnerError, Status, StatusData, Get, Worded;
    forall t: real
      ensures var d := StatusData(w.status(PyText.Text(job), t).value);
        && w.status(PyText.Text(job), t).Answer?
        && ErrorAt(w, PyText.Text(job), t) == (if t >= landed then error else Null)
        && (IsTerminal(d) ==> JobFailure(d) && Truthy(Get(d, "job_id")) && Str(Get(d, "job_id")) == PyText.Text(job))
    {
      TwoWritesRead(job, queueError, error, statusAt, landed, wording, t);
      assert "running" !in TERMINAL_STATUSES && "failed" in FAILED_JOB_STATUSES by {
        Words();
      }
    }
  }

  lemma Words()
    ensures "running" !in TERMINAL_STATUSES && "failed" in FAILED_JOB_STATUSES
  {
    assert "running"[0] == 'r' && "completed"[0] == 'c' && "failed"[0] == 'f' && "stopped"[0] == 's'
      && "cancelled"[0] == 'c';
  }

  /** A job that completes without any failure flag, whose inner result is there from `at` on. */
  ghost predicate Completes(w: World, job: PyText, inner: Json, at: real) {
    forall t: real :: w.status(job, t).Answer? ==>
      var d := StatusData(w.status(job, t).value);
      && InnerResult(d) == (if t >= at then inner else Null)
      && (IsTerminal(d) ==> NoFailureFlag(d))
  }

  /** None of the flags that say that the job or its command failed, spelled out, apart from the
      command's own `success`. */
  predicate NoFailureFlag(d: seq<Field>) {
    && Status(d) == PyText.Text("completed")
    && !Truthy(Get(d, "error"))
    && Get(d, "command_success") != Bool(false)
    && !Truthy(Get(d, "completed_with_error")) && !Truthy(Get(d, "native_completed_with_error"))
  }

  /** On the success path nothing rides the race out: a completed job's own envelope is returned if
      and only if its result had been written when the terminal status was read; otherwise the call
      returns a dict whose only entry is a null result. */
  lemma CompletedJobNeedsItsResult(w: World, n: Net, command: string, job: PyText, inner: Json, at: real, o: Options,
      polls: nat)
    requires w.submit(command).Answer? && IsQueuedEnvelope(w.submit(command).value) == Queued
    requires ExtractJobId(w.submit(command).value.fields) == job
    requires Completes(w, job, inner, at) && inner.Object? && Get(inner.fields, "success") != Bool(false)
    ensures var start := Sent(w, n, Submit(command));
      var (m, wait) := WaitRun(w, start, job, start.clock, o, polls);
      var r := ExecuteRun(w, n, command, true, o, polls).1;
      if wait.Terminal? then
        && m.seen != []
        && r == Returned(if at <= m.seen[|m.seen| - 1].at then inner else Object([Field("result", Null)]))
      else r.TimedOut? || r == Unfinished || r == Broken
  {
    var start := Sent(w, n, Submit(command));
    var (m, wait) := WaitRun(w, start, job, start.clock, o, polls);
    var read := TerminalRead(w, start, job, o, polls);
    hide WaitRun, RefetchRun, IsQueuedEnvelope, ExtractJobId, IsTerminal, StatusData, InnerResult, Status, Get;
    if wait.Terminal? {
      assert NoFailureFlag(wait.data);
    }
  }

  // ---------------------------------------------------------------- transparency

  /** The queue or the server says that the job did not succeed as a job. */
  predicate JobFlagged(d: seq<Field>) {
    || Status(d) == PyText.Text("failed") || Status(d) == PyText.Text("stopped")
    || Status(d) == PyText.Text("cancelled")
    || Truthy(Get(d, "error"))
  }

  /** The command's own result: what the `result` dict carries under that key again, or else whatever
      stands under `result`. */
  predicate OwnResult(d: seq<Field>, own: Json) {
    var result := Get(d, "result");
    if result.Object? && (exists f :: f in result.fields && f.key == "result")
    then Get(result.fields, "result") == own else own == result
  }

  /** The command the queue names beside the result. */
  function CommandOf(d: seq<Field>): Json {
    if Get(d, "result").Object? then Get(Get(d, "result").fields, "command") else Null
  }

  predicate SaysNo(own: Json) {
    own.Object? && Get(own.fields, "success") == Bool(false)
  }

  lemma OwnIsInner(d: seq<Field>, own: Json)
    requires OwnResult(d, own)
    ensures InnerResult(d) == own
  {
    hide Get;
    var result := Get(d, "result");
    if result.Object? && Has(result.fields, "result") {
      var i :| 0 <= i < |result.fields| && result.fields[i].key == "result";
      assert result.fields[i] in result.fields;
    }
  }

  predicate CommandFlagged(d: seq<Field>, own: Json) {
    || SaysNo(own)
    || Get(d, "command_success") == Bool(false)
    || Truthy(Get(d, "completed_with_error"))
    || Truthy(Get(d, "native_completed_with_error"))
  }

  /** A call that reads a terminal document returns the command's own result, as a dict, exactly when
      the status is "completed" and none of the failure flags is set, raises JobFailedError exactly
      when the job itself is flagged (unless re-reading it breaks down) and CommandFailedError, with
      the command, the job id and the result, exactly when only the command is; and what is not
      queued comes back as it was, after one request. */
  lemma QueueTransparency(w: World, n: Net, command: string, o: Options, polls: nat, own: Json)
    requires w.submit(command).Answer?
    ensures var resp := w.submit(command).value;
      var (m, r) := ExecuteRun(w, n, command, true, o, polls);
      && (IsQueuedEnvelope(resp) == NotQueued ==> r == Returned(resp) && |m.sent| == |n.sent| + 1)
      && (IsQueuedEnvelope(resp) == Queued ==>
            var start := Sent(w, n, Submit(command));
            var wait := WaitRun(w, start, ExtractJobId(resp.fields), start.clock, o, polls).1;
            wait.Terminal? && OwnResult(wait.data, own) ==>
              var d := wait.data;
              && (r.Returned? <==> NoFailureFlag(d) && !SaysNo(own))
              && (r.Returned? ==> r == Returned(if own.Object? then own else Object([Field("result", own)])))
              && (r.JobFailed? || r == Broken <==> JobFlagged(d))
              && (r.CommandFailed? <==> !JobFlagged(d) && CommandFlagged(d, own))
              && (r.CommandFailed? ==> r == CommandFailed(CommandOf(d), Get(d, "job_id"), own)))
  {
    var resp := w.submit(command).value;
    if IsQueuedEnvelope(resp) == Queued {
      var start := Sent(w, n, Submit(command));
      var job := ExtractJobId(resp.fields);
      var _ := WaitEnds(w, start, job, start.clock, o, polls);
      var wait := WaitRun(w, start, job, start.clock, o, polls).1;
      if wait.Terminal? {
        assert Status(wait.data).s in TERMINAL_STATUSES;
        assert Status(wait.data).s == "completed" <==> Status(wait.data).s !in FAILED_JOB_STATUSES;
        if OwnResult(wait.data, own) {
          OwnIsInner(wait.data, own);
        }
        hide Get, Has, WaitRun, OwnResult, InnerResult, Status, RefetchRun, IsQueuedEnvelope, ExtractJobId;
      }
    }
  }
}
