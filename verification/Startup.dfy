/** Startup of the server: the background thread that opens the shared database and then starts the
    workers, the startup coroutine that waits for it, and the 60 second timer, interleaved freely. */
module Startup {
  import opened Wrappers
  import opened Retry

  const WAIT_SECONDS := 60.0

  datatype Worker = Indexing | Vectorization | FileWatcher

  /** Where the background thread stands. Attempts count from 1. */
  datatype Background =
    | StartDriver
    | DriverError(message: string)     // about to record the driver's failure
    | DriverEvent                      // about to set the event after it
    | Open(attempt: nat)
    | SetShared(attempt: nat)
    | Register(attempt: nat)
    | Backoff(attempt: nat, until: real)
    | RecordError(message: string)     // the last attempt failed
    | RecordEvent
    | Exit
    | SuccessEvent
    | StartWorker(worker: Worker)
    | Ended
    | Killed                           // by an exception that `except Exception` does not catch

  datatype Waiter = Waiting | SawDone | GaveUp | Degraded(message: string) | Ready

  datatype State = State(
    now: real,
    startedAt: real,
    background: Background,
    waiter: Waiter,
    sharedSet: bool,             // the thread's set_shared_database has succeeded
    done: bool,                  // _db_open_done
    error: Option<string>,       // _db_open_error
    workers: set<Worker>,
    exited: bool)                // os._exit(1) was called

  predicate Initial(s: State) {
    s == State(s.startedAt, s.startedAt, StartDriver, Waiting, false, false, None, {}, false)
  }

  datatype Outcome = Succeeds | Fails(message: string) | Dies

  datatype Step =
    | Tick(to: real)
    | Background(outcome: Outcome, jitter: real)
    | WaitReturns      // Event.wait returns, with the flag as it is or because the minute is over
    | ReadError

  /** The steps at which the thread calls code that may raise. */
  predicate MayRaise(b: Background) {
    b.StartDriver? || b.Open? || b.SetShared? || b.Register? || b.StartWorker?
  }

  predicate Enabled(p: RetryPolicy, s: State, step: Step) {
    && !s.exited
    && match step
       case Tick(to) => s.now <= to
       case Background(outcome, jitter) =>
         && !s.background.Ended? && !s.background.Killed?
         && (s.background.Backoff? ==> s.background.until <= s.now)
         && (outcome.Succeeds? || MayRaise(s.background))
         && -p.jitter <= jitter <= p.jitter
       case WaitReturns => s.waiter == Waiting && (s.done || s.now - s.startedAt >= WAIT_SECONDS)
       case ReadError => s.waiter == SawDone
  }

  /** An attempt failed: sleep and try again, or give up. */
  function AfterFailure(p: RetryPolicy, s: State, attempt: nat, message: string, jitter: real): Background {
    if attempt >= p.attempts then RecordError(message)
    else Backoff(attempt, s.now + DelayForAttempt(p, attempt, jitter))
  }

  function NextWorker(w: Worker): Background {
    match w
    case Indexing => StartWorker(Vectorization)
    case Vectorization => StartWorker(FileWatcher)
    case FileWatcher => Ended
  }

  function BackgroundStep(p: RetryPolicy, s: State, outcome: Outcome, jitter: real): State {
    if outcome.Dies? then s.(background := Killed)
    else
      match s.background
      case StartDriver =>
        if outcome.Fails? then s.(background := DriverError(outcome.message))
        else if p.attempts <= 0 then s.(background := SuccessEvent)
        else s.(background := Open(1))
      case DriverError(m) => s.(background := DriverEvent, error := Some(m))
      case DriverEvent => s.(background := Ended, done := true)
      case Open(k) =>
        if outcome.Fails? then s.(background := AfterFailure(p, s, k, outcome.message, jitter))
        else s.(background := SetShared(k))
      case SetShared(k) =>
        if outcome.Fails? then s.(background := AfterFailure(p, s, k, outcome.message, jitter))
        else s.(background := Register(k), sharedSet := true)
      case Register(k) =>
        if outcome.Fails? then s.(background := AfterFailure(p, s, k, outcome.message, jitter))
        else s.(background := SuccessEvent)
      case Backoff(k, _) => s.(background := Open(k + 1))
      case RecordError(m) => s.(background := RecordEvent, error := Some(m))
      case RecordEvent => s.(background := Exit, done := true)
      case Exit => s.(background := Ended, exited := true)
      case SuccessEvent => s.(background := StartWorker(Indexing), done := true)
      case StartWorker(w) =>
        s.(background := NextWorker(w), workers := if outcome.Fails? then s.workers else s.workers + {w})
      case Ended => s
      case Killed => s
  }

  function Apply(p: RetryPolicy, s: State, step: Step): State
    requires Enabled(p, s, step)
  {
    match step
    case Tick(to) => s.(now := to)
    case Background(outcome, jitter) => BackgroundStep(p, s, outcome, jitter)
    case WaitReturns => s.(waiter := if s.done then SawDone else GaveUp)
    case ReadError => s.(waiter := if s.error.Some? then Degraded(s.error.value) else Ready)
  }

  predicate Legal(p: RetryPolicy, s: State, steps: seq<Step>)
    decreases |steps|
  {
    steps == [] || (Enabled(p, s, steps[0]) && Legal(p, Apply(p, s, steps[0]), steps[1..]))
  }

  function Run(p: RetryPolicy, s: State, steps: seq<Step>): State
    requires Legal(p, s, steps)
    decreases |steps|
  {
    if steps == [] then s else Run(p, Apply(p, s, steps[0]), steps[1..])
  }

  // ---------------------------------------------------------------- invariant

  predicate BackgroundOk(p: RetryPolicy, s: State) {
    match s.background
    case StartDriver => !s.done && s.error.None? && !s.sharedSet
    case DriverError(_) => !s.done && s.error.None?
    case DriverEvent => !s.done && s.error.Some?
    case Open(k) => !s.done && s.error.None? && 1 <= k <= p.attempts
    case SetShared(k) => !s.done && s.error.None? && 1 <= k <= p.attempts
    case Register(k) => !s.done && s.error.None? && 1 <= k <= p.attempts && s.sharedSet
    case Backoff(k, _) => !s.done && s.error.None? && 1 <= k < p.attempts
    case RecordError(_) => !s.done && s.error.None?
    case RecordEvent => !s.done && s.error.Some?
    case Exit => s.done && s.error.Some?
    case SuccessEvent => !s.done && s.error.None? && s.sharedSet
    case StartWorker(_) => s.done && s.error.None? && s.sharedSet
    case Ended => s.done
    case Killed => true
  }

  predicate Inv(p: RetryPolicy, s: State) {
    && BackgroundOk(p, s)
    && (s.workers != {} ==> s.sharedSet && s.done && s.error.None?)
    && (s.done && s.error.None? ==> s.sharedSet)
    && (s.exited ==> s.done && s.error.Some?)
    && match s.waiter
       case Waiting => true
       case SawDone => s.done
       case GaveUp => s.now - s.startedAt >= WAIT_SECONDS
       case Degraded(m) => s.done && s.error == Some(m)
       case Ready => s.done && s.error.None? && s.sharedSet
  }

  lemma InvStep(p: RetryPolicy, s: State, step: Step)
    requires p.attempts >= 1 && Inv(p, s) && Enabled(p, s, step)
    ensures Inv(p, Apply(p, s, step))
    ensures s.done ==> Apply(p, s, step).error == s.error && Apply(p, s, step).done
  {
  }

  lemma {:induction false} InvRun(p: RetryPolicy, s: State, steps: seq<Step>)
    requires p.attempts >= 1 && Inv(p, s) && Legal(p, s, steps)
    ensures Inv(p, Run(p, s, steps))
    ensures s.done ==> Run(p, s, steps).error == s.error && Run(p, s, steps).done
    decreases |steps|
  {
    if steps != [] {
      InvStep(p, s, steps[0]);
      InvRun(p, Apply(p, s, steps[0]), steps[1..]);
    }
  }

  // ---------------------------------------------------------------- theorems

  /** In every interleaving: workers are started only with the shared database set and the event
      published; a thread that has ended, on any path but a kill, has set the event; the process is
      exited only with error and event published; the waiter reports readiness only when the
      database is set, reports the very error recorded, and gives up only after the minute. */
  lemma StartupProtocol(p: RetryPolicy, s: State, steps: seq<Step>)
    requires p.attempts >= 1 && Initial(s) && Legal(p, s, steps)
    ensures var end := Run(p, s, steps);
      && (end.workers != {} ==> end.sharedSet && end.done && end.error.None?)
      && (end.background.Ended? || end.exited ==> end.done)
      && (end.exited ==> end.error.Some?)
      && (end.waiter.Ready? ==> end.sharedSet && end.done && end.error.None?)
      && (end.waiter.Degraded? ==> end.done && end.error == Some(end.waiter.message))
      && (end.waiter.GaveUp? ==> end.now - end.startedAt >= 60.0)
  {
    InvRun(p, s, steps);
  }

  /** What the event publishes is final: whatever happens after it is set, the error cell keeps its
      value, so the waiter reads the outcome that was published. */
  lemma PublishedOutcomeIsFinal(p: RetryPolicy, s: State, before: seq<Step>, after: seq<Step>)
    requires p.attempts >= 1 && Initial(s) && Legal(p, s, before)
    requires Run(p, s, before).done && Legal(p, Run(p, s, before), after)
    ensures Run(p, Run(p, s, before), after).done
    ensures Run(p, Run(p, s, before), after).error == Run(p, s, before).error
  {
    InvRun(p, s, before);
    InvRun(p, Run(p, s, before), after);
  }

  /** A thread killed before it set the event never sets it: from then on the waiter can only time
      out, and no worker is ever started. */
  lemma {:induction false} KilledEarlyNeverPublishes(p: RetryPolicy, s: State, steps: seq<Step>)
    requires p.attempts >= 1 && Inv(p, s) && Legal(p, s, steps)
    requires s.background.Killed? && !s.done
    ensures var end := Run(p, s, steps);
      && !end.done && end.background.Killed? && end.workers == {}
      && !end.waiter.Ready? && !end.waiter.Degraded?
    decreases |steps|
  {
    if steps != [] {
      InvStep(p, s, steps[0]);
      KilledEarlyNeverPublishes(p, Apply(p, s, steps[0]), steps[1..]);
    } else {
      assert s.workers == {};
    }
  }

  /** That success is never published without the database set is owed to the policy allowing an
      attempt at all, as the shipped one does: with none it would be. */
  lemma SuccessMeansDatabaseIffAttemptsAllowed(p: RetryPolicy, s: State)
    requires p.jitter >= 0.0 && Initial(s)
    ensures (forall steps :: Legal(p, s, steps) && Run(p, s, steps).done && Run(p, s, steps).error.None? ==>
      Run(p, s, steps).sharedSet)
       <==> p.attempts >= 1
  {
    if p.attempts >= 1 {
      forall steps | Legal(p, s, steps) && Run(p, s, steps).done && Run(p, s, steps).error.None?
        ensures Run(p, s, steps).sharedSet
      {
        InvRun(p, s, steps);
      }
    } else {
      NoAttemptsPublishesSuccess(p, s);
    }
  }

  /** With none the first worker, too, is started without a database. */
  lemma NoAttemptsPublishesSuccess(p: RetryPolicy, s: State)
    requires p.attempts <= 0 && p.jitter >= 0.0 && Initial(s)
    ensures var steps := [Background(Succeeds, 0.0), Background(Succeeds, 0.0), Background(Succeeds, 0.0)];
      && Legal(p, s, steps)
      && var end := Run(p, s, steps);
      && end.done && end.error.None? && !end.sharedSet && end.workers == {Indexing}
  {
    var go := Background(Succeeds, 0.0);
    var steps := [go, go, go];
    assert steps[1..] == [go, go] && [go, go][1..] == [go] && [go][1..] == [];
    var s1 := Apply(p, s, go);
    var s2 := Apply(p, s1, go);
    var s3 := Apply(p, s2, go);
    assert Legal(p, s3, []) && Run(p, s3, []) == s3;
    assert Legal(p, s2, [go]) && Run(p, s2, [go]) == s3;
    assert Legal(p, s1, [go, go]) && Run(p, s1, [go, go]) == s3;
  }
}
