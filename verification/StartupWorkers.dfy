/** Which workers start-up tries to start, and in which order. */
module StartupWorkers {
  import opened Wrappers
  import opened Retry
  import opened Startup

  /** The worker a step of a run tries to start, if that is what it does. */
  function TriedBy(s: State, step: Step): seq<Worker> {
    if step.Background? && s.background.StartWorker? then [s.background.worker] else []
  }

  /** The workers a run tries to start, in order. */
  function Tried(p: RetryPolicy, s: State, steps: seq<Step>): seq<Worker>
    requires Legal(p, s, steps)
    decreases |steps|
  {
    if steps == [] then [] else TriedBy(s, steps[0]) + Tried(p, Apply(p, s, steps[0]), steps[1..])
  }

  /** Those of them whose start succeeded. */
  function Succeeded(p: RetryPolicy, s: State, steps: seq<Step>): set<Worker>
    requires Legal(p, s, steps)
    decreases |steps|
  {
    if steps == [] then {} else OneTried(s, steps[0]) + Succeeded(p, Apply(p, s, steps[0]), steps[1..])
  }

  function OneTried(s: State, step: Step): set<Worker> {
    if TriedBy(s, step) != [] && step.outcome == Succeeds then {s.background.worker} else {}
  }

  const IN_ORDER: seq<Worker> := [Indexing, Vectorization, FileWatcher]

  /** What a thread at this place has still to try, should nothing stop it. */
  function ToTry(b: Background): seq<Worker> {
    match b
    case StartWorker(w) => IN_ORDER[match w case Indexing => 0 case Vectorization => 1 case FileWatcher => 2..]
    case Ended => []
    case Exit => []
    case DriverEvent => []
    case RecordEvent => []
    case _ => IN_ORDER
  }

  lemma OneStep(p: RetryPolicy, s: State, step: Step)
    requires p.attempts >= 1 && Inv(p, s) && Enabled(p, s, step)
    ensures var s' := Apply(p, s, step);
      && (s'.error.None? && !s'.background.Killed? ==>
            s.error.None? && !s.background.Killed? && TriedBy(s, step) + ToTry(s'.background) == ToTry(s.background))
      && (s.background.Killed? ==> s'.background.Killed? && TriedBy(s, step) == [])
      && (s.error.Some? ==> TriedBy(s, step) == [])
      && (TriedBy(s, step) != [] ==> TriedBy(s, step) <= ToTry(s.background))
      && s'.workers == s.workers + OneTried(s, step)
  {
  }

  lemma {:induction false} RunTries(p: RetryPolicy, s: State, steps: seq<Step>)
    requires p.attempts >= 1 && Inv(p, s) && Legal(p, s, steps)
    ensures var end, tried := Run(p, s, steps), Tried(p, s, steps);
      && (end.error.None? && !end.background.Killed? ==>
            s.error.None? && !s.background.Killed? && tried + ToTry(end.background) == ToTry(s.background))
      && (s.background.Killed? || s.error.Some? ==> tried == [])
      && tried <= ToTry(s.background)
      && end.workers == s.workers + Succeeded(p, s, steps)
    decreases |steps|
  {
    hide Apply, Inv, ToTry, TriedBy, Enabled, OneTried;
    if steps != [] {
      OneStep(p, s, steps[0]);
      InvStep(p, s, steps[0]);
      RunTries(p, Apply(p, s, steps[0]), steps[1..]);
      ErrorsStay(p, s, steps[0]);
    }
  }

  lemma ErrorsStay(p: RetryPolicy, s: State, step: Step)
    requires p.attempts >= 1 && Inv(p, s) && Enabled(p, s, step)
    ensures s.error.Some? ==> Apply(p, s, step).error.Some? && TriedBy(s, step) == []
    ensures Apply(p, s, step).error.Some? && s.error.None? ==> TriedBy(s, step) == []
  {
  }

  /** Unless the thread is killed, a start-up that published success tries each of the three workers
      exactly once, in order, whether or not those before it could be started; and in every run the
      workers running are those whose start succeeded, tried at most once each and in that order. */
  lemma EveryWorkerIsTriedOnce(p: RetryPolicy, s: State, steps: seq<Step>)
    requires p.attempts >= 1 && Initial(s) && Legal(p, s, steps)
    ensures var end := Run(p, s, steps);
      && (end.background.Ended? && !end.exited && end.error.None? ==>
            Tried(p, s, steps) == [Indexing, Vectorization, FileWatcher])
      && Tried(p, s, steps) <= [Indexing, Vectorization, FileWatcher]
      && end.workers == Succeeded(p, s, steps)
  {
    RunTries(p, s, steps);
  }
}
