/** Shutdown of the daemon: the cleanup closures, called from any thread, from signal handlers that
    interrupt each other at any point, from atexit, and from the end of `main`.

    Every thread is a stack of activations; a signal pushes one wherever the thread happens to be,
    and a signal handler ends by raising SystemExit, which unwinds the whole stack below it. The
    lock is not reentrant. */
module Shutdown {
  import opened Wrappers

  /** Where an activation of `_shutdown` (log once, then clean up) or of `cleanup_workers` stands. */
  datatype Pc =
    | LogLock | LogTest | LogSet | LogUnlock(won: bool) | StopHeartbeat | LogLine
    | CleanLock | CleanTest | CleanSet | CleanUnlock(won: bool) | StopWorkers
    | Done

  datatype Caller = Signal | Atexit | Direct

  datatype Frame = Frame(caller: Caller, pc: Pc)

  datatype Holder = Holder(thread: nat, depth: nat)

  /** The end of `main`: serving, the steps of its `finally`, the way out when SystemExit escapes
      from that `finally`, and gone. */
  datatype Main =
    | Serving
    | FinalLog
    | FinalHeartbeat
    | FinalCleanup
    | FinalWait
    | FinalExit
    | Escaping
    | EscapeWait
    | Gone

  const MAIN_THREAD: nat := 0

  datatype State = State(
    threads: map<nat, seq<Frame>>,
    lock: Option<Holder>,
    logged: bool,
    started: bool,
    heartbeatStopped: bool,
    lines: nat,         // shutdown lines written by the closures
    mainLines: nat,     // shutdown lines written by main itself
    stops: nat,         // calls of stop_all_workers
    logClaim: Option<Holder>,    // the activation that claimed the log line and has not written it
    claim: Option<Holder>,       // the activation that claimed the cleanup and has not stopped the workers
    lost: bool,                  // the activation that claimed the cleanup was unwound before doing so
    main: Main)

  ghost predicate Initial(s: State) {
    && MAIN_THREAD in s.threads && (forall t :: t in s.threads ==> s.threads[t] == [])
    && s == State(s.threads, None, false, false, false, 0, 0, 0, None, None, false, Serving)
  }

  datatype Step =
    | Interrupt(thread: nat)     // a signal handler starts on this thread
    | CallCleanup(thread: nat)   // some code on this thread calls cleanup_workers
    | Go(thread: nat)            // the innermost activation of this thread advances
    | MainGoes                   // main's own code advances; first of all, run_server returns or raises

  function Top(s: State, t: nat): Frame
    requires t in s.threads && s.threads[t] != []
  {
    s.threads[t][|s.threads[t]| - 1]
  }

  predicate Enabled(s: State, step: Step) {
    && s.main != Gone
    && match step
       case Interrupt(t) => t in s.threads
       case CallCleanup(t) => t in s.threads
       case Go(t) =>
         && t in s.threads && s.threads[t] != []
         && (Top(s, t).pc.LogLock? || Top(s, t).pc.CleanLock? ==> s.lock == None)
       case MainGoes => MAIN_THREAD in s.threads && s.threads[MAIN_THREAD] == []
  }

  function Push(s: State, t: nat, caller: Caller): State
    requires t in s.threads
  {
    s.(threads := s.threads[t := s.threads[t] + [Frame(caller, if caller == Direct then CleanLock else LogLock)]])
  }

  /** The activation has claimed the cleanup and has not yet called stop_all_workers. */
  predicate ClaimsCleanup(f: Frame) {
    f.pc == CleanUnlock(true) || f.pc == StopWorkers
  }

  predicate ClaimsLog(f: Frame) {
    f.pc == LogUnlock(true) || f.pc == StopHeartbeat || f.pc == LogLine
  }

  function Without(h: Option<Holder>, t: nat): Option<Holder> {
    if h.Some? && h.value.thread == t then None else h
  }

  /** SystemExit unwinds every activation on the thread; on the main thread it then reaches main. */
  function Unwind(s: State, t: nat): State
    requires t in s.threads
  {
    s.(threads := s.threads[t := []],
       lock := Without(s.lock, t),
       logClaim := Without(s.logClaim, t),
       claim := Without(s.claim, t),
       lost := s.lost || (s.claim.Some? && s.claim.value.thread == t),
       main := if t != MAIN_THREAD then s.main
               else match s.main
                    case Serving => FinalLog
                    case EscapeWait => EscapeWait
                    case _ => Escaping)
  }

  /** Where an activation goes next: the flags are tested and set only while the lock is held. */
  function Next(s: State, pc: Pc): Pc {
    match pc
    case LogLock => LogTest
    case LogTest => if s.logged then LogUnlock(false) else LogSet
    case LogSet => LogUnlock(true)
    case LogUnlock(won) => if won then StopHeartbeat else CleanLock
    case StopHeartbeat => LogLine
    case LogLine => CleanLock
    case CleanLock => CleanTest
    case CleanTest => if s.started then CleanUnlock(false) else CleanSet
    case CleanSet => CleanUnlock(true)
    case CleanUnlock(won) => if won then StopWorkers else Done
    case StopWorkers => Done
    case Done => Done
  }

  /** What that step does to everything but the stack. */
  function Effect(s: State, h: Holder, pc: Pc): State {
    match pc
    case LogLock => s.(lock := Some(h))
    case CleanLock => s.(lock := Some(h))
    case LogUnlock(_) => s.(lock := None)
    case CleanUnlock(_) => s.(lock := None)
    case LogSet => s.(logged := true, logClaim := Some(h))
    case CleanSet => s.(started := true, claim := Some(h))
    case StopHeartbeat => s.(heartbeatStopped := true)
    case LogLine => s.(lines := s.lines + 1, logClaim := None)
    case StopWorkers => s.(stops := s.stops + 1, claim := None)
    case _ => s
  }

  function Advance(s: State, t: nat): State
    requires t in s.threads && s.threads[t] != []
  {
    var n, f := |s.threads[t]|, Top(s, t);
    Effect(s, Holder(t, n - 1), f.pc).(threads := s.threads[t := s.threads[t][n - 1 := Frame(f.caller, Next(s, f.pc))]])
  }

  function PopTop(s: State, t: nat): State
    requires t in s.threads && s.threads[t] != []
  {
    s.(threads := s.threads[t := s.threads[t][..|s.threads[t]| - 1]])
  }

  function MainAdvance(s: State): State
    requires MAIN_THREAD in s.threads
  {
    match s.main
    case Serving => s.(main := FinalLog)
    case FinalLog => s.(main := FinalHeartbeat, mainLines := s.mainLines + 1)
    case FinalHeartbeat => s.(main := FinalCleanup, heartbeatStopped := true)
    case FinalCleanup => Push(s, MAIN_THREAD, Direct).(main := FinalWait)
    case FinalWait => s.(main := FinalExit)
    case FinalExit => s.(main := Gone)
    case Escaping => Push(s, MAIN_THREAD, Atexit).(main := EscapeWait)
    case EscapeWait => s.(main := Gone)
    case Gone => s
  }

  function Apply(s: State, step: Step): State
    requires Enabled(s, step)
  {
    match step
    case Interrupt(t) => Push(s, t, Signal)
    case CallCleanup(t) => Push(s, t, Direct)
    case Go(t) =>
      if !Top(s, t).pc.Done? then Advance(s, t)
      else if Top(s, t).caller == Signal then Unwind(s, t)
      else PopTop(s, t)
    case MainGoes => MainAdvance(s)
  }

  predicate Legal(s: State, steps: seq<Step>)
    decreases |steps|
  {
    steps == [] || (Enabled(s, steps[0]) && Legal(Apply(s, steps[0]), steps[1..]))
  }

  function Run(s: State, steps: seq<Step>): State
    requires Legal(s, steps)
    decreases |steps|
  {
    if steps == [] then s else Run(Apply(s, steps[0]), steps[1..])
  }

  // ---------------------------------------------------------------- the invariant

  predicate At(s: State, t: nat, i: nat) {
    t in s.threads && i < |s.threads[t]|
  }

  predicate Critical(f: Frame) {
    f.pc.LogTest? || f.pc.LogSet? || f.pc.LogUnlock? || f.pc.CleanTest? || f.pc.CleanSet? || f.pc.CleanUnlock?
  }

  predicate AtLock(f: Frame) {
    f.pc.LogLock? || f.pc.CleanLock?
  }

  /** What one activation may assume: only the holder is inside the critical section, those above
      the holder wait for the lock, a flag just tested is still as tested, and only the recorded
      claimant is on its way to write the line or to stop the workers. */
  ghost predicate FrameOk(s: State, h: Holder, f: Frame) {
    && (Critical(f) ==> s.lock == Some(h))
    && (s.lock.Some? && s.lock.value.thread == h.thread && s.lock.value.depth < h.depth ==> AtLock(f))
    && (f.pc.LogSet? ==> !s.logged)
    && (ClaimsLog(f) ==> s.logClaim == Some(h))
    && (f.pc.LogLine? ==> s.heartbeatStopped)
    && (f.pc.CleanSet? ==> !s.started)
    && (ClaimsCleanup(f) ==> s.claim == Some(h))
    && (f.pc.CleanUnlock? || f.pc.StopWorkers? || f.pc.Done? ==> s.started)
  }

  ghost predicate FramesOk(s: State) {
    forall t: nat, i: nat :: At(s, t, i) ==> FrameOk(s, Holder(t, i), s.threads[t][i])
  }

  predicate PointsTo(s: State, h: Option<Holder>, test: Frame -> bool) {
    h.Some? ==> At(s, h.value.thread, h.value.depth) && test(s.threads[h.value.thread][h.value.depth])
  }

  predicate HoldersOk(s: State) {
    && PointsTo(s, s.lock, f => Critical(f))
    && PointsTo(s, s.logClaim, f => ClaimsLog(f))
    && PointsTo(s, s.claim, f => ClaimsCleanup(f))
  }

  /** At most one line and one stop; once the cleanup has started, the stop has happened, or its
      claimant is still on the way, or was unwound. */
  predicate TalliesOk(s: State) {
    && s.lines <= 1 && (s.lines == 1 ==> s.logged && s.heartbeatStopped)
    && (s.logClaim.Some? ==> s.logged && s.lines == 0)
    && s.stops <= 1 && (s.stops == 1 ==> s.started && !s.lost)
    && (s.claim.Some? ==> s.started && s.stops == 0 && !s.lost)
    && (s.lost ==> s.started && s.stops == 0)
    && (s.started ==> s.stops == 1 || s.lost || s.claim.Some?)
  }

  ghost predicate CountsOk(s: State) {
    HoldersOk(s) && TalliesOk(s)
  }

  ghost predicate MainOk(s: State) {
    && MAIN_THREAD in s.threads
    && (s.main == FinalWait ==>
          s.started || (s.threads[MAIN_THREAD] != [] && s.threads[MAIN_THREAD][0].caller == Direct))
    && (s.main in {FinalExit, Escaping, EscapeWait, Gone} ==> s.started)
    && s.mainLines <= 1 && (s.main in {Serving, FinalLog} ==> s.mainLines == 0)
    && (s.main in {FinalHeartbeat, FinalCleanup, FinalWait, FinalExit} ==> s.mainLines == 1)
    && (s.main in {FinalCleanup, FinalWait, FinalExit} ==> s.heartbeatStopped)
  }

  ghost predicate Inv(s: State) {
    FramesOk(s) && CountsOk(s) && MainOk(s)
  }
}
