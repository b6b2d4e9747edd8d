/** How a start-up ends: what the attempts of the background thread did decides it, and the sleeps
    between them decide whether the waiter is still there. */
module StartupProperties {
  import opened Wrappers
  import opened Retry
  import opened Startup

  // ---------------------------------------------------------------- counting attempts over a run

  /** The step is an attempt of the bootstrap failing. */
  predicate FailsAttempt(s: State, step: Step) {
    step.Background? && step.outcome.Fails? && (s.background.Open? || s.background.SetShared? || s.background.Register?)
  }

  /** The step is a call of set_shared_database succeeding. */
  predicate SetsDatabase(s: State, step: Step) {
    step.Background? && step.outcome.Succeeds? && s.background.SetShared?
  }

  function Failures(p: RetryPolicy, s: State, steps: seq<Step>): nat
    requires Legal(p, s, steps)
    decreases |steps|
  {
    if steps == [] then 0
    else (if FailsAttempt(s, steps[0]) then 1 else 0) + Failures(p, Apply(p, s, steps[0]), steps[1..])
  }

  predicate EverSet(p: RetryPolicy, s: State, steps: seq<Step>)
    requires Legal(p, s, steps)
    decreases |steps|
  {
    steps != [] && (SetsDatabase(s, steps[0]) || EverSet(p, Apply(p, s, steps[0]), steps[1..]))
  }

  /** How many attempts have failed, as far as the thread's position tells. */
  predicate FailedSoFar(p: RetryPolicy, s: State, failed: nat) {
    match s.background
    case StartDriver => failed == 0
    case DriverError(_) => failed == 0
    case DriverEvent => failed == 0
    case Open(k) => failed == k - 1
    case SetShared(k) => failed == k - 1
    case Register(k) => failed == k - 1
    case Backoff(k, _) => failed == k
    case RecordError(_) => failed == p.attempts
    case RecordEvent => failed == p.attempts
    case Exit => failed == p.attempts
    case SuccessEvent => failed < p.attempts
    case StartWorker(_) => failed < p.attempts
    case Ended => if s.exited then failed == p.attempts else failed < p.attempts
    case Killed => !s.exited && failed < p.attempts
  }

  lemma FailedStep(p: RetryPolicy, s: State, step: Step, failed: nat)
    requires p.attempts >= 1 && Inv(p, s) && Enabled(p, s, step) && FailedSoFar(p, s, failed)
    ensures FailedSoFar(p, Apply(p, s, step), failed + if FailsAttempt(s, step) then 1 else 0)
    ensures Apply(p, s, step).sharedSet <==> s.sharedSet || SetsDatabase(s, step)
  {
  }

  lemma {:induction false} FailedRun(p: RetryPolicy, s: State, steps: seq<Step>, failed: nat)
    requires p.attempts >= 1 && Inv(p, s) && Legal(p, s, steps) && FailedSoFar(p, s, failed)
    ensures Inv(p, Run(p, s, steps)) && FailedSoFar(p, Run(p, s, steps), failed + Failures(p, s, steps))
    ensures Run(p, s, steps).sharedSet <==> s.sharedSet || EverSet(p, s, steps)
    decreases |steps|
  {
    hide FailedSoFar, Inv, Apply, FailsAttempt, SetsDatabase;
    if steps != [] {
      InvStep(p, s, steps[0]);
      FailedStep(p, s, steps[0], failed);
      FailedRun(p, Apply(p, s, steps[0]), steps[1..], failed + if FailsAttempt(s, steps[0]) then 1 else 0);
    }
  }

  /** For every policy and every finished run: the process exits if and only if every allowed attempt
      failed, and it exits with the shared database set if and only if, besides, some call of
      set_shared_database had succeeded: an attempt can still fail after that call. */
  lemma ExitsIffEveryAttemptFailed(p: RetryPolicy, s: State, steps: seq<Step>)
    requires p.attempts >= 1 && Initial(s) && Legal(p, s, steps) && Run(p, s, steps).background.Ended?
    ensures var end := Run(p, s, steps);
      && (end.exited <==> Failures(p, s, steps) == p.attempts)
      && (end.exited && end.sharedSet <==> Failures(p, s, steps) == p.attempts && EverSet(p, s, steps))
  {
    FailedRun(p, s, steps, 0);
  }

  function LastMessage(s: State, step: Step, last: string): string {
    if FailsAttempt(s, step) then step.outcome.message else last
  }

  /** What the last failed attempt raised, `soFar` if none has failed yet. */
  function LastFailure(p: RetryPolicy, s: State, steps: seq<Step>, soFar: string): string
    requires Legal(p, s, steps)
    decreases |steps|
  {
    if steps == [] then soFar
    else LastFailure(p, Apply(p, s, steps[0]), steps[1..], LastMessage(s, steps[0], soFar))
  }

  /** Once the thread has given up, what it holds or has recorded is the last failure. */
  predicate Remembers(s: State, last: string) {
    match s.background
    case RecordError(m) => m == last
    case RecordEvent => s.error == Some(last)
    case Exit => s.error == Some(last)
    case _ => s.exited ==> s.error == Some(last)
  }

  lemma RememberStep(p: RetryPolicy, s: State, step: Step, last: string)
    requires p.attempts >= 1 && Inv(p, s) && Enabled(p, s, step) && Remembers(s, last)
    ensures Remembers(Apply(p, s, step), LastMessage(s, step, last))
  {
  }

  lemma {:induction false} RememberRun(p: RetryPolicy, s: State, steps: seq<Step>, last: string)
    requires p.attempts >= 1 && Inv(p, s) && Legal(p, s, steps) && Remembers(s, last)
    ensures Remembers(Run(p, s, steps), LastFailure(p, s, steps, last))
    decreases |steps|
  {
    hide Remembers, Inv, Apply, LastMessage;
    if steps != [] {
      InvStep(p, s, steps[0]);
      RememberStep(p, s, steps[0], last);
      RememberRun(p, Apply(p, s, steps[0]), steps[1..], LastMessage(s, steps[0], last));
    }
  }

  /** The error published before the exit is what the last attempt raised, as the retry loop returns it. */
  lemma ExitPublishesTheLastFailure(p: RetryPolicy, s: State, steps: seq<Step>)
    requires p.attempts >= 1 && Initial(s) && Legal(p, s, steps) && Run(p, s, steps).exited
    ensures Run(p, s, steps).error == Some(LastFailure(p, s, steps, ""))
    ensures Failures(p, s, steps) == p.attempts
  {
    RememberRun(p, s, steps, "");
    FailedRun(p, s, steps, 0);
  }

  // ---------------------------------------------------------------- such an exit happens, for every policy

  /** One more step of the background thread. */
  lemma Then(p: RetryPolicy, s: State, step: Step, rest: seq<Step>) returns (steps: seq<Step>)
    requires Enabled(p, s, step) && Legal(p, Apply(p, s, step), rest)
    ensures steps == [step] + rest && Legal(p, s, steps) && Run(p, s, steps) == Run(p, Apply(p, s, step), rest)
  {
    steps := [step] + rest;
    assert steps[1..] == rest;
  }

  lemma GivesUp(p: RetryPolicy, s: State, message: string) returns (steps: seq<Step>)
    requires p.jitter >= 0.0 && !s.exited && s.background == RecordError(message)
    ensures Legal(p, s, steps)
    ensures var end := Run(p, s, steps); end.exited && end.sharedSet == s.sharedSet && end.error == Some(message)
  {
    var go := Background(Succeeds, 0.0);
    var s1 := Apply(p, s, go);
    var s2 := Apply(p, s1, go);
    var s3 := Apply(p, s2, go);
    assert Legal(p, s3, []) && Run(p, s3, []) == s3;
    hide Legal, Run;
    steps := Then(p, s2, go, []);
    steps := Then(p, s1, go, steps);
    steps := Then(p, s, go, steps);
  }

  /** From the k-th attempt on, every attempt can fail in registering the session. */
  lemma {:induction false} EveryAttemptCanFailLate(p: RetryPolicy, s: State, k: nat, message: string)
    returns (steps: seq<Step>)
    requires p.attempts >= 1 && p.jitter >= 0.0 && Inv(p, s) && !s.exited && s.background == Open(k)
    ensures Legal(p, s, steps)
    ensures var end := Run(p, s, steps); end.exited && end.sharedSet && end.error == Some(message)
    decreases p.attempts - k
  {
    var go, fail := Background(Succeeds, 0.0), Background(Fails(message), 0.0);
    var s1 := Apply(p, s, go);
    var s2 := Apply(p, s1, go);
    var s3 := Apply(p, s2, fail);
    assert s2.background == Register(k) && s2.sharedSet;
    InvStep(p, s, go);
    InvStep(p, s1, go);
    InvStep(p, s2, fail);
    if k < p.attempts {
      var tick := Tick(s3.background.until);
      DelayIsNotNegative(p, k, 0.0);
      var s4 := Apply(p, s3, tick);
      var s5 := Apply(p, s4, go);
      InvStep(p, s3, tick);
      InvStep(p, s4, go);
      steps := EveryAttemptCanFailLate(p, s5, k + 1, message);
      hide Inv, Legal, Run, Apply, Enabled;
      steps := Then(p, s4, go, steps);
      steps := Then(p, s3, tick, steps);
    } else {
      steps := GivesUp(p, s3, message);
    }
    hide Inv, Legal, Run;
    steps := Then(p, s2, fail, steps);
    steps := Then(p, s1, go, steps);
    steps := Then(p, s, go, steps);
  }

  lemma DelayIsNotNegative(p: RetryPolicy, attempt: int, u: real)
    ensures DelayForAttempt(p, attempt, u) >= 0.0
  {
  }

  lemma ExitWithDatabaseSet(p: RetryPolicy, s: State, message: string) returns (steps: seq<Step>)
    requires p.attempts >= 1 && p.jitter >= 0.0 && Initial(s)
    ensures Legal(p, s, steps)
    ensures var end := Run(p, s, steps); end.exited && end.sharedSet && end.error == Some(message)
  {
    var go := Background(Succeeds, 0.0);
    InvStep(p, s, go);
    steps := EveryAttemptCanFailLate(p, Apply(p, s, go), 1, message);
    hide Inv, Legal, Run, Apply;
    steps := Then(p, s, go, steps);
  }

  // ---------------------------------------------------------------- the waiter does not give up

  /** How long the thread may stay where it is: `quick` for anything it does, and for a back-off until
      the sleep is over plus `quick` to wake up. `since` is when it got there. */
  function StayUntil(s: State, since: real, quick: real): real {
    if s.background.Backoff? then s.background.until + quick else since + quick
  }

  /** Time passes only as far as that, until the outcome is published. */
  predicate Timely(s: State, step: Step, since: real, quick: real) {
    step.Tick? && !s.done ==> step.to <= StayUntil(s, since, quick)
  }

  function Since(s: State, step: Step, since: real): real {
    if step.Background? then s.now else since
  }

  predicate TimelyRun(p: RetryPolicy, s: State, steps: seq<Step>, since: real, quick: real)
    requires Legal(p, s, steps)
    decreases |steps|
  {
    steps == [] ||
    (Timely(s, steps[0], since, quick)
      && TimelyRun(p, Apply(p, s, steps[0]), steps[1..], Since(s, steps[0], since), quick))
  }

  /** The number of things the thread has done before it got where it is, back-offs included. */
  function Done(p: RetryPolicy, b: Background): nat {
    match b
    case StartDriver => 0
    case DriverError(_) => 1
    case DriverEvent => 2
    case Open(k) => if k >= 1 then 4 * k - 3 else 0
    case SetShared(k) => if k >= 1 then 4 * k - 2 else 0
    case Register(k) => if k >= 1 then 4 * k - 1 else 0
    case Backoff(k, _) => 4 * k
    case RecordError(_) => if p.attempts >= 1 then 4 * p.attempts else 0
    case RecordEvent => if p.attempts >= 1 then 4 * p.attempts + 1 else 0
    case SuccessEvent => if p.attempts >= 1 then 4 * p.attempts else 0
    case _ => 0
  }

  /** The back-offs it has been through. */
  function Slept(p: RetryPolicy, b: Background): nat {
    match b
    case Open(k) => if k >= 1 then k - 1 else 0
    case SetShared(k) => if k >= 1 then k - 1 else 0
    case Register(k) => if k >= 1 then k - 1 else 0
    case Backoff(k, _) => if k >= 1 then k - 1 else 0
    case RecordError(_) => if p.attempts >= 1 then p.attempts - 1 else 0
    case RecordEvent => if p.attempts >= 1 then p.attempts - 1 else 0
    case SuccessEvent => if p.attempts >= 1 then p.attempts - 1 else 0
    case _ => 0
  }

  /** The latest moment at which the thread can have got where it is. */
  function Latest(p: RetryPolicy, s: State, quick: real): real {
    s.startedAt + Spent(Done(p, s.background), quick) + Upper(p, Slept(p, s.background))
  }

  function Spent(n: nat, quick: real): real {
    n as real * quick
  }

  predicate OnTime(p: RetryPolicy, s: State, since: real, quick: real) {
    !s.done && !s.background.Killed? ==>
      && since <= s.now <= StayUntil(s, since, quick)
      && since <= Latest(p, s, quick)
      && (s.background.Backoff? ==>
            && s.background.attempt >= 1
            && s.background.until <= since + Pause(p, s.background.attempt))
  }

  /** The most the sleep after the k-th attempt can take. */
  function Pause(p: RetryPolicy, k: nat): real {
    if k == 0 then 0.0 else p.delaySeconds * Pow(p.backoff, k - 1) + p.jitter
  }

  lemma PauseStep(p: RetryPolicy, k: nat)
    requires k >= 1
    ensures Upper(p, k) == Upper(p, k - 1) + Pause(p, k)
  {
    UpperStep(p, k);
    hide Upper, Pow;
  }

  lemma PauseBound(p: RetryPolicy, k: nat, u: real)
    requires p.delaySeconds >= 0.0 && p.backoff >= 0.0 && p.jitter >= 0.0 && -p.jitter <= u <= p.jitter && k >= 1
    ensures 0.0 <= DelayForAttempt(p, k, u) <= Pause(p, k)
  {
    DelayBound(p, k, u);
    DelayIsNotNegative(p, k, u);
    hide DelayForAttempt, Pow;
  }

  predicate Plausible(p: RetryPolicy, quick: real) {
    p.attempts >= 1 && p.delaySeconds >= 0.0 && p.backoff >= 0.0 && p.jitter >= 0.0 && quick >= 0.0
  }

  lemma SpentGrows(m: nat, n: nat, quick: real)
    requires quick >= 0.0
    ensures m < n ==> Spent(m, quick) + quick <= Spent(n, quick)
    ensures m <= n ==> Spent(m, quick) <= Spent(n, quick)
    ensures Spent(m + 1, quick) == Spent(m, quick) + quick
  {
    SpentOnce(m, quick);
    if m <= n {
      ScaleUp(m, n, quick);
    }
    if m < n {
      ScaleUp(m + 1, n, quick);
    }
    hide Spent;
  }

  lemma SpentOnce(m: nat, quick: real)
    ensures Spent(m + 1, quick) == Spent(m, quick) + quick
  {
    var r := m as real;
    assert (m + 1) as real == r + 1.0;
    assert (r + 1.0) * quick == r * quick + quick;
  }

  /** A step that is no back-off takes the thread on within `quick`. */
  lemma Onward(p: RetryPolicy, s: State, s': State, quick: real)
    requires Plausible(p, quick) && s'.startedAt == s.startedAt
    requires Done(p, s.background) < Done(p, s'.background) && Slept(p, s.background) <= Slept(p, s'.background)
    ensures Latest(p, s, quick) + quick <= Latest(p, s', quick)
  {
    SpentGrows(Done(p, s.background), Done(p, s'.background), quick);
    UpperMonotone(p, Slept(p, s.background), Slept(p, s'.background));
    hide Done, Slept, Upper, Spent;
  }

  lemma OnTimeStep(p: RetryPolicy, s: State, step: Step, since: real, quick: real)
    requires Plausible(p, quick) && Inv(p, s) && Enabled(p, s, step)
    requires OnTime(p, s, since, quick) && Timely(s, step, since, quick)
    ensures OnTime(p, Apply(p, s, step), Since(s, step, since), quick)
  {
    hide OnTime, BackgroundStep, Inv;
    if step.Background? {
      if s.background.Backoff? {
        WakesOnTime(p, s, step, since, quick);
      } else {
        MovesOnTime(p, s, step, since, quick);
      }
    } else {
      TimePasses(p, s, step, since, quick);
    }
  }

  lemma TimePasses(p: RetryPolicy, s: State, step: Step, since: real, quick: real)
    requires Enabled(p, s, step) && !step.Background? && OnTime(p, s, since, quick) && Timely(s, step, since, quick)
    ensures OnTime(p, Apply(p, s, step), since, quick)
  {
    hide Upper, Spent, Pause, Done, Slept;
  }

  lemma MovesOnTime(p: RetryPolicy, s: State, step: Step, since: real, quick: real)
    requires Plausible(p, quick) && Inv(p, s) && Enabled(p, s, step) && step.Background? && !s.background.Backoff?
    requires OnTime(p, s, since, quick)
    ensures OnTime(p, Apply(p, s, step), s.now, quick)
  {
    Progress(p, s, step);
    hide Inv, Apply, Upper, Spent, Pause, Latest, DelayForAttempt, Done, Slept, Enabled;
    var s' := Apply(p, s, step);
    if !s'.done && !s'.background.Killed? {
      Onward(p, s, s', quick);
      if s'.background.Backoff? {
        PauseBound(p, s'.background.attempt, step.jitter);
      }
    }
  }

  /** What a step other than a wake-up does to the thread's position. */
  lemma Progress(p: RetryPolicy, s: State, step: Step)
    requires Inv(p, s) && Enabled(p, s, step) && step.Background? && !s.background.Backoff? && p.attempts >= 1
    ensures var s' := Apply(p, s, step);
      !s'.done && !s'.background.Killed? ==>
        && !s.done && !s.background.Killed?
        && s'.now == s.now && s'.startedAt == s.startedAt
        && Done(p, s.background) < Done(p, s'.background) && Slept(p, s.background) <= Slept(p, s'.background)
        && (s'.background.Backoff? ==>
              && s'.background.attempt >= 1 && -p.jitter <= step.jitter <= p.jitter
              && s'.background.until == s.now + DelayForAttempt(p, s'.background.attempt, step.jitter))
  {
    hide DelayForAttempt;
  }

  lemma WakesOnTime(p: RetryPolicy, s: State, step: Step, since: real, quick: real)
    requires Plausible(p, quick) && Inv(p, s) && Enabled(p, s, step) && step.Background? && s.background.Backoff?
    requires OnTime(p, s, since, quick)
    ensures OnTime(p, Apply(p, s, step), s.now, quick)
  {
    var s' := Apply(p, s, step);
    if !s'.done && !s'.background.Killed? {
      var k := s.background.attempt;
      hide Upper, Spent, Pause;
      PauseStep(p, k);
      SpentGrows(Done(p, s.background), Done(p, s'.background), quick);
    }
  }

  /** No state before the outcome is published lies later than this after the start. */
  function Bound(p: RetryPolicy, quick: real): real
    requires p.attempts >= 1
  {
    Spent(4 * p.attempts + 2, quick) + Upper(p, p.attempts - 1)
  }

  lemma OnTimeMeansEarly(p: RetryPolicy, s: State, since: real, quick: real)
    requires Plausible(p, quick) && Inv(p, s) && OnTime(p, s, since, quick) && !s.done && !s.background.Killed?
    ensures s.now - s.startedAt <= Bound(p, quick)
  {
    hide Upper, Spent, Pause;
    var d, n := Done(p, s.background), 4 * p.attempts + 2;
    SpentGrows(d, n, quick);
    UpperMonotone(p, Slept(p, s.background), p.attempts - 1);
    if s.background.Backoff? {
      PauseStep(p, s.background.attempt);
      UpperMonotone(p, s.background.attempt, p.attempts - 1);
    }
  }

  /** The waiter has given up only on a thread that was killed before publishing anything. */
  predicate WaiterFaithful(s: State) {
    s.waiter.GaveUp? ==> s.background.Killed? && !s.done
  }

  lemma FaithfulStep(p: RetryPolicy, s: State, step: Step, since: real, quick: real)
    requires Plausible(p, quick) && Inv(p, s) && Enabled(p, s, step) && Bound(p, quick) < WAIT_SECONDS
    requires OnTime(p, s, since, quick) && WaiterFaithful(s)
    ensures WaiterFaithful(Apply(p, s, step))
  {
    if step.WaitReturns? && !s.done && !s.background.Killed? {
      OnTimeMeansEarly(p, s, since, quick);
    }
    hide OnTime, Bound, BackgroundOk;
  }

  lemma {:induction false} FaithfulRun(p: RetryPolicy, s: State, steps: seq<Step>, since: real, quick: real)
    requires Plausible(p, quick) && Inv(p, s) && Bound(p, quick) < WAIT_SECONDS
    requires Legal(p, s, steps) && TimelyRun(p, s, steps, since, quick)
    requires OnTime(p, s, since, quick) && WaiterFaithful(s)
    ensures WaiterFaithful(Run(p, s, steps))
    decreases |steps|
  {
    hide Inv, OnTime, WaiterFaithful, Bound, Apply, Timely, Since;
    if steps != [] {
      InvStep(p, s, steps[0]);
      OnTimeStep(p, s, steps[0], since, quick);
      FaithfulStep(p, s, steps[0], since, quick);
      FaithfulRun(p, Apply(p, s, steps[0]), steps[1..], Since(s, steps[0], since), quick);
    }
  }

  /** If nothing the thread does takes longer than `quick`, and all of it with the sleeps fits into the
      minute, the waiter gives up only if the thread is killed before it publishes anything. */
  lemma WaiterDoesNotGiveUp(p: RetryPolicy, s: State, steps: seq<Step>, quick: real)
    requires Plausible(p, quick) && Bound(p, quick) < WAIT_SECONDS
    requires Initial(s) && Legal(p, s, steps) && TimelyRun(p, s, steps, s.startedAt, quick)
    ensures var end := Run(p, s, steps); end.waiter.GaveUp? ==> end.background.Killed? && !end.done
  {
    assert Upper(p, 0) == 0.0 && Spent(0, quick) == 0.0;
    FaithfulRun(p, s, steps, s.startedAt, quick);
  }

  /** For the shipped policy, whose sleeps take 15.8 seconds in all, two seconds each are enough. */
  lemma ShippedWaiterDoesNotGiveUp(s: State, steps: seq<Step>)
    requires var p := DB_OPEN_RETRY_POLICY; Initial(s) && Legal(p, s, steps) && TimelyRun(p, s, steps, s.startedAt, 2.0)
    ensures var end := Run(DB_OPEN_RETRY_POLICY, s, steps); end.waiter.GaveUp? ==> end.background.Killed? && !end.done
  {
    var p := DB_OPEN_RETRY_POLICY;
    assert Spent(22, 2.0) == 44.0;
    assert Pow(2.0, 1) == 2.0 * Pow(2.0, 0);
    assert Pow(2.0, 2) == 2.0 * Pow(2.0, 1);
    assert Pow(2.0, 3) == 2.0 * Pow(2.0, 2);
    assert Pow(2.0, 4) == 16.0;
    UpperIsBound(p);
    WaiterDoesNotGiveUp(p, s, steps, 2.0);
  }

  // ---------------------------------------------------------------- a driver that does not start

  /** After a failed start of the driver: on the way to publishing it, or done with that. */
  predicate DriverGone(s: State, message: string) {
    && !s.sharedSet && !s.exited && s.workers == {} && s.waiter != Ready
    && match s.background
       case DriverError(m) => m == message && !s.done && s.error == None && s.waiter in {Waiting, GaveUp}
       case DriverEvent => !s.done && s.error == Some(message) && s.waiter in {Waiting, GaveUp}
       case Ended => s.done && s.error == Some(message) && s.waiter in {Waiting, GaveUp, SawDone, Degraded(message)}
       case _ => false
  }

  lemma {:induction false} DriverGoneRun(p: RetryPolicy, s: State, steps: seq<Step>, message: string)
    requires DriverGone(s, message) && Legal(p, s, steps)
    ensures DriverGone(Run(p, s, steps), message)
    decreases |steps|
  {
    if steps != [] {
      DriverGoneStep(p, s, steps[0], message);
      DriverGoneRun(p, Apply(p, s, steps[0]), steps[1..], message);
    }
  }

  lemma DriverGoneStep(p: RetryPolicy, s: State, step: Step, message: string)
    requires DriverGone(s, message) && Enabled(p, s, step)
    ensures DriverGone(Apply(p, s, step), message)
  {
  }

  /** While the driver has not been started, nothing else has happened but the passing of time. */
  predicate NothingYet(s: State) {
    s.background.StartDriver? ==>
      !s.sharedSet && !s.exited && !s.done && s.error == None && s.workers == {} && s.waiter in {Waiting, GaveUp}
  }

  lemma {:induction false} NothingYetRun(p: RetryPolicy, s: State, steps: seq<Step>)
    requires NothingYet(s) && Legal(p, s, steps)
    ensures NothingYet(Run(p, s, steps))
    decreases |steps|
  {
    if steps != [] {
      NothingYetStep(p, s, steps[0]);
      NothingYetRun(p, Apply(p, s, steps[0]), steps[1..]);
    }
  }

  lemma NothingYetStep(p: RetryPolicy, s: State, step: Step)
    requires NothingYet(s) && Enabled(p, s, step)
    ensures NothingYet(Apply(p, s, step))
  {
  }

  /** If the driver cannot be started, the database is never opened and no worker is tried, whatever
      happens afterwards; the process goes on, and what is published is the driver's own error. */
  lemma DriverFailureIsPublished(p: RetryPolicy, s: State, before: seq<Step>, message: string, jitter: real,
      after: seq<Step>)
    requires Initial(s) && Legal(p, s, before)
    requires var failed := Background(Fails(message), jitter);
      && Run(p, s, before).background.StartDriver? && Enabled(p, Run(p, s, before), failed)
      && Legal(p, Apply(p, Run(p, s, before), failed), after)
    ensures var end := Run(p, Apply(p, Run(p, s, before), Background(Fails(message), jitter)), after);
      && !end.sharedSet && !end.exited && end.workers == {} && !end.waiter.Ready?
      && (end.done ==> end.error == Some(message)) && (end.background.Ended? <==> end.done)
      && (end.waiter.Degraded? ==> end.waiter.message == message)
  {
    NothingYetRun(p, s, before);
    var failed := Background(Fails(message), jitter);
    DriverFails(p, Run(p, s, before), message, jitter);
    DriverGoneRun(p, Apply(p, Run(p, s, before), failed), after, message);
  }

  lemma DriverFails(p: RetryPolicy, s: State, message: string, jitter: real)
    requires NothingYet(s) && s.background.StartDriver? && Enabled(p, s, Background(Fails(message), jitter))
    ensures DriverGone(Apply(p, s, Background(Fails(message), jitter)), message)
  {
  }

  /** And the waiter can give up as soon as the minute is over. */
  lemma WaiterGivesUpAfterTheMinute(p: RetryPolicy, s: State)
    requires Initial(s)
    ensures var steps := [Tick(s.startedAt + 60.0), WaitReturns];
      Legal(p, s, steps) && Run(p, s, steps).waiter == GaveUp
  {
    var steps := [Tick(s.startedAt + 60.0), WaitReturns];
    assert steps[1..] == [WaitReturns] && [WaitReturns][1..] == [];
    var s1 := Apply(p, s, steps[0]);
    var s2 := Apply(p, s1, WaitReturns);
    assert Legal(p, s2, []) && Run(p, s2, []) == s2;
    assert Legal(p, s1, [WaitReturns]) && Run(p, s1, [WaitReturns]) == s2;
  }

  // ---------------------------------------------------------------- how long retrying takes at least

  /** The least that k sleeps between attempts can add up to. */
  function LeastSlept(p: RetryPolicy, k: int): real
    decreases k
  {
    if k <= 0 then 0.0 else LeastSlept(p, k - 1) + DelayForAttempt(p, k, -p.jitter)
  }

  /** The thread has slept as long as it must have before it can stand where it does. */
  predicate Waited(p: RetryPolicy, s: State) {
    && s.startedAt <= s.now
    && match s.background
       case Open(k) => LeastSlept(p, k - 1) <= s.now - s.startedAt
       case SetShared(k) => LeastSlept(p, k - 1) <= s.now - s.startedAt
       case Register(k) => LeastSlept(p, k - 1) <= s.now - s.startedAt
       case Backoff(k, until) => LeastSlept(p, k) <= until - s.startedAt
       case RecordError(_) => LeastSlept(p, p.attempts - 1) <= s.now - s.startedAt
       case RecordEvent => LeastSlept(p, p.attempts - 1) <= s.now - s.startedAt
       case Exit => LeastSlept(p, p.attempts - 1) <= s.now - s.startedAt
       case _ => s.exited ==> LeastSlept(p, p.attempts - 1) <= s.now - s.startedAt
  }

  lemma LeastDelay(p: RetryPolicy, k: int, u: real)
    requires -p.jitter <= u
    ensures DelayForAttempt(p, k, -p.jitter) <= DelayForAttempt(p, k, u)
  {
  }

  lemma WaitedStep(p: RetryPolicy, s: State, step: Step)
    requires p.attempts >= 1 && Inv(p, s) && Enabled(p, s, step) && Waited(p, s)
    ensures Waited(p, Apply(p, s, step))
  {
    hide DelayForAttempt;
    if step.Background? && (s.background.Open? || s.background.SetShared? || s.background.Register?) {
      LeastDelay(p, s.background.attempt, step.jitter);
    }
  }

  lemma {:induction false} WaitedRun(p: RetryPolicy, s: State, steps: seq<Step>)
    requires p.attempts >= 1 && Inv(p, s) && Waited(p, s) && Legal(p, s, steps)
    ensures Waited(p, Run(p, s, steps))
    decreases |steps|
  {
    hide Waited, Inv, Apply;
    if steps != [] {
      InvStep(p, s, steps[0]);
      WaitedStep(p, s, steps[0]);
      WaitedRun(p, Apply(p, s, steps[0]), steps[1..]);
    }
  }

  /** The process is never exited before all the sleeps between the attempts have been slept. */
  lemma ExitComesAfterTheSleeps(p: RetryPolicy, s: State, steps: seq<Step>)
    requires p.attempts >= 1 && Initial(s) && Legal(p, s, steps) && Run(p, s, steps).exited
    ensures LeastSlept(p, p.attempts - 1) <= Run(p, s, steps).now - s.startedAt
  {
    InvRun(p, s, steps);
    WaitedRun(p, s, steps);
    StartStays(p, s, steps);
  }

  lemma {:induction false} StartStays(p: RetryPolicy, s: State, steps: seq<Step>)
    requires Legal(p, s, steps)
    ensures Run(p, s, steps).startedAt == s.startedAt
    decreases |steps|
  {
    if steps != [] {
      StartStays(p, Apply(p, s, steps[0]), steps[1..]);
    }
  }

  /** With the shipped policy that is 14.2 seconds. */
  lemma ShippedExitTakes14Seconds(s: State, steps: seq<Step>)
    requires Initial(s) && Legal(DB_OPEN_RETRY_POLICY, s, steps) && Run(DB_OPEN_RETRY_POLICY, s, steps).exited
    ensures Run(DB_OPEN_RETRY_POLICY, s, steps).now - s.startedAt >= 14.2
  {
    var p := DB_OPEN_RETRY_POLICY;
    ExitComesAfterTheSleeps(p, s, steps);
    ShippedSleeps(-0.2);
    hide DelayForAttempt, Run, Legal;
    assert LeastSlept(p, 1) == LeastSlept(p, 0) + DelayForAttempt(p, 1, -p.jitter);
    assert LeastSlept(p, 2) == LeastSlept(p, 1) + DelayForAttempt(p, 2, -p.jitter);
    assert LeastSlept(p, 3) == LeastSlept(p, 2) + DelayForAttempt(p, 3, -p.jitter);
    assert LeastSlept(p, 4) == LeastSlept(p, 3) + DelayForAttempt(p, 4, -p.jitter);
  }
}
