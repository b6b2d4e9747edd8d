/** What every run of the shutdown code keeps. */
module ShutdownProperties {
  import opened Wrappers
  import opened Shutdown

  // ---------------------------------------------------------------- every step keeps the invariant

  lemma PushKeeps(s: State, t: nat, caller: Caller)
    requires FramesOk(s) && CountsOk(s) && t in s.threads
    ensures FramesOk(Push(s, t, caller)) && CountsOk(Push(s, t, caller))
  {
    var s' := Push(s, t, caller);
    forall u: nat, i: nat | At(s', u, i)
      ensures FrameOk(s', Holder(u, i), s'.threads[u][i])
    {
      if At(s, u, i) {
        assert s'.threads[u][i] == s.threads[u][i];
      }
    }
  }

  /** The step of one activation keeps what any other activation relies on. */
  lemma AdvanceKeepsOther(s: State, t: nat, h: Holder, f: Frame)
    requires t in s.threads && s.threads[t] != [] && Enabled(s, Go(t))
    requires (s.logClaim.Some? ==> s.logged) && (s.claim.Some? ==> s.started)
    requires var top := Holder(t, |s.threads[t]| - 1);
      && FrameOk(s, top, Top(s, t))
      && h != top && (h.thread == t ==> h.depth < top.depth)
    requires FrameOk(s, h, f)
    ensures FrameOk(Effect(s, Holder(t, |s.threads[t]| - 1), Top(s, t).pc), h, f)
  {
  }

  lemma AdvanceKeepsTop(s: State, t: nat)
    requires t in s.threads && s.threads[t] != [] && Enabled(s, Go(t))
    requires (s.logClaim.Some? ==> s.logged) && (s.claim.Some? ==> s.started)
    requires FrameOk(s, Holder(t, |s.threads[t]| - 1), Top(s, t))
    ensures var top, f := Holder(t, |s.threads[t]| - 1), Top(s, t);
      FrameOk(Effect(s, top, f.pc), top, Frame(f.caller, Next(s, f.pc)))
  {
  }

  lemma FrameOkIgnoresStacks(s: State, s': State, h: Holder, f: Frame)
    requires FrameOk(s, h, f) && s' == s.(threads := s'.threads)
    ensures FrameOk(s', h, f)
  {
  }

  lemma AdvanceKeepsFrames(s: State, t: nat)
    requires FramesOk(s) && CountsOk(s) && Enabled(s, Go(t))
    ensures FramesOk(Advance(s, t))
  {
    hide FrameOk, Next, Effect;
    var s', n, f := Advance(s, t), |s.threads[t]|, Top(s, t);
    var top := Holder(t, n - 1);
    var e := Effect(s, top, f.pc);
    assert At(s, t, n - 1);
    assert FrameOk(s, top, f);
    forall u: nat, i: nat | At(s', u, i)
      ensures FrameOk(s', Holder(u, i), s'.threads[u][i])
    {
      assert At(s, u, i);
      assert FrameOk(s, Holder(u, i), s.threads[u][i]);
      if u == t && i == n - 1 {
        AdvanceKeepsTop(s, t);
      } else {
        AdvanceKeepsOther(s, t, Holder(u, i), s.threads[u][i]);
      }
      FrameOkIgnoresStacks(e, s', Holder(u, i), s'.threads[u][i]);
    }
  }

  lemma AdvanceKeepsTallies(s: State, t: nat)
    requires t in s.threads && s.threads[t] != [] && Enabled(s, Go(t))
    requires FrameOk(s, Holder(t, |s.threads[t]| - 1), Top(s, t)) && TalliesOk(s)
    ensures TalliesOk(Effect(s, Holder(t, |s.threads[t]| - 1), Top(s, t).pc))
  {
  }

  ghost predicate StillPoints(h: Option<Holder>, h': Option<Holder>, top: Holder, moved: bool) {
    h'.Some? ==> (if h' == Some(top) then moved else h' == h)
  }

  /** After the step each record either points at the moved activation, and fits it, or points
      where it did before. */
  lemma AdvanceRecords(s: State, h: Holder, f: Frame)
    requires FrameOk(s, h, f) && !f.pc.Done?
    requires AtLock(f) ==> s.lock == None
    requires (s.lock == Some(h) ==> Critical(f)) && (s.logClaim == Some(h) ==> ClaimsLog(f))
    requires s.claim == Some(h) ==> ClaimsCleanup(f)
    ensures var e, g := Effect(s, h, f.pc), Frame(f.caller, Next(s, f.pc));
      && StillPoints(s.lock, e.lock, h, Critical(g))
      && StillPoints(s.logClaim, e.logClaim, h, ClaimsLog(g))
      && StillPoints(s.claim, e.claim, h, ClaimsCleanup(g))
  {
    AdvanceLock(s, h, f);
    AdvanceLogClaim(s, h, f);
    AdvanceClaim(s, h, f);
    hide Effect, Next, StillPoints, FrameOk;
  }

  lemma AdvanceLock(s: State, h: Holder, f: Frame)
    requires (Critical(f) ==> s.lock == Some(h)) && !f.pc.Done?
    requires (AtLock(f) ==> s.lock == None) && (s.lock == Some(h) ==> Critical(f))
    ensures StillPoints(s.lock, Effect(s, h, f.pc).lock, h, Critical(Frame(f.caller, Next(s, f.pc))))
  {
  }

  lemma AdvanceLogClaim(s: State, h: Holder, f: Frame)
    requires (ClaimsLog(f) ==> s.logClaim == Some(h)) && (s.logClaim == Some(h) ==> ClaimsLog(f))
    ensures StillPoints(s.logClaim, Effect(s, h, f.pc).logClaim, h, ClaimsLog(Frame(f.caller, Next(s, f.pc))))
  {
    match f.pc
    case LogSet =>
    case LogLine =>
    case CleanSet =>
    case StopWorkers =>
    case _ =>
  }

  lemma AdvanceClaim(s: State, h: Holder, f: Frame)
    requires (ClaimsCleanup(f) ==> s.claim == Some(h)) && (s.claim == Some(h) ==> ClaimsCleanup(f))
    ensures StillPoints(s.claim, Effect(s, h, f.pc).claim, h, ClaimsCleanup(Frame(f.caller, Next(s, f.pc))))
  {
    match f.pc
    case LogSet =>
    case LogLine =>
    case CleanSet =>
    case StopWorkers =>
    case _ =>
  }

  lemma AdvanceKeepsRecord(s: State, t: nat, h: Option<Holder>, h': Option<Holder>, test: Frame -> bool)
    requires t in s.threads && s.threads[t] != []
    requires PointsTo(s, h, test)
    requires StillPoints(h, h', Holder(t, |s.threads[t]| - 1), test(Frame(Top(s, t).caller, Next(s, Top(s, t).pc))))
    ensures PointsTo(Advance(s, t), h', test)
  {
    hide Next;
  }

  lemma AdvanceKeepsHolders(s: State, t: nat)
    requires HoldersOk(s) && t in s.threads && s.threads[t] != [] && Enabled(s, Go(t)) && !Top(s, t).pc.Done?
    requires FrameOk(s, Holder(t, |s.threads[t]| - 1), Top(s, t))
    ensures HoldersOk(Advance(s, t))
  {
    var top := Holder(t, |s.threads[t]| - 1);
    assert At(s, top.thread, top.depth);
    AdvanceRecords(s, top, Top(s, t));
    var e := Effect(s, top, Top(s, t).pc);
    hide Next, Effect, FrameOk, Critical, ClaimsLog, ClaimsCleanup;
    AdvanceKeepsRecord(s, t, s.lock, e.lock, f => Critical(f));
    AdvanceKeepsRecord(s, t, s.logClaim, e.logClaim, f => ClaimsLog(f));
    AdvanceKeepsRecord(s, t, s.claim, e.claim, f => ClaimsCleanup(f));
  }

  lemma AdvanceKeepsCounts(s: State, t: nat)
    requires FramesOk(s) && CountsOk(s) && Enabled(s, Go(t)) && !Top(s, t).pc.Done?
    ensures CountsOk(Advance(s, t))
  {
    assert At(s, t, |s.threads[t]| - 1);
    assert FrameOk(s, Holder(t, |s.threads[t]| - 1), Top(s, t));
    hide FramesOk, FrameOk, HoldersOk, Next, Effect;
    AdvanceKeepsTallies(s, t);
    AdvanceKeepsHolders(s, t);
  }

  lemma PopKeeps(s: State, t: nat)
    requires FramesOk(s) && CountsOk(s) && Enabled(s, Go(t)) && Top(s, t).pc.Done?
    ensures FramesOk(PopTop(s, t)) && CountsOk(PopTop(s, t))
  {
    var s' := PopTop(s, t);
    forall u: nat, i: nat | At(s', u, i)
      ensures FrameOk(s', Holder(u, i), s'.threads[u][i])
    {
      assert At(s, u, i);
    }
  }

  lemma UnwindKeeps(s: State, t: nat)
    requires FramesOk(s) && CountsOk(s) && t in s.threads
    ensures FramesOk(Unwind(s, t)) && CountsOk(Unwind(s, t))
  {
    var s' := Unwind(s, t);
    forall u: nat, i: nat | At(s', u, i)
      ensures FrameOk(s', Holder(u, i), s'.threads[u][i])
    {
      assert u != t && At(s, u, i);
      assert FrameOk(s, Holder(u, i), s.threads[u][i]);
    }
  }

  lemma EffectOnMain(s: State, h: Holder, pc: Pc)
    ensures var e := Effect(s, h, pc);
      e.main == s.main && e.mainLines == s.mainLines && (s.started ==> e.started)
        && (s.heartbeatStopped ==> e.heartbeatStopped)
  {
  }

  lemma AdvanceKeepsMain(s: State, t: nat)
    requires MainOk(s) && Enabled(s, Go(t))
    ensures MainOk(Advance(s, t))
  {
    hide Effect, Next;
    EffectOnMain(s, Holder(t, |s.threads[t]| - 1), Top(s, t).pc);
  }

  lemma ReturnKeepsMain(s: State, t: nat)
    requires MainOk(s) && s.started && t in s.threads && s.threads[t] != []
    ensures MainOk(Unwind(s, t)) && MainOk(PopTop(s, t))
  {
  }

  lemma GoKeepsMain(s: State, t: nat)
    requires Inv(s) && Enabled(s, Go(t))
    ensures MainOk(Apply(s, Go(t)))
  {
    hide MainOk, CountsOk, Next, Effect;
    if Top(s, t).pc.Done? {
      assert At(s, t, |s.threads[t]| - 1);
      assert FrameOk(s, Holder(t, |s.threads[t]| - 1), Top(s, t));
      ReturnKeepsMain(s, t);
    } else {
      AdvanceKeepsMain(s, t);
    }
  }

  /** main's own fields are not looked at by the activations, which only rely on the heartbeat
      having been stopped. */
  lemma MainFieldsAreSeparate(s: State, s': State)
    requires FramesOk(s) && CountsOk(s)
    requires s' == s.(main := s'.main, mainLines := s'.mainLines, heartbeatStopped := s'.heartbeatStopped)
    requires s.heartbeatStopped ==> s'.heartbeatStopped
    ensures FramesOk(s') && CountsOk(s')
  {
    forall u: nat, i: nat | At(s', u, i)
      ensures FrameOk(s', Holder(u, i), s'.threads[u][i])
    {
      assert At(s, u, i);
    }
  }

  lemma MainGoesKeeps(s: State)
    requires Inv(s) && Enabled(s, MainGoes)
    ensures Inv(Apply(s, MainGoes))
  {
    hide FramesOk, CountsOk;
    var s' := Apply(s, MainGoes);
    if s.main == FinalCleanup {
      PushKeeps(s, MAIN_THREAD, Direct);
      MainFieldsAreSeparate(Push(s, MAIN_THREAD, Direct), s');
    } else if s.main == Escaping {
      PushKeeps(s, MAIN_THREAD, Atexit);
      MainFieldsAreSeparate(Push(s, MAIN_THREAD, Atexit), s');
    } else {
      MainFieldsAreSeparate(s, s');
    }
  }

  lemma InvStep(s: State, step: Step)
    requires Inv(s) && Enabled(s, step)
    ensures Inv(Apply(s, step))
  {
    hide FramesOk, CountsOk;
    match step
    case Interrupt(t) => PushKeeps(s, t, Signal);
    case CallCleanup(t) => PushKeeps(s, t, Direct);
    case Go(t) =>
      GoKeepsMain(s, t);
      if !Top(s, t).pc.Done? {
        AdvanceKeepsFrames(s, t);
        AdvanceKeepsCounts(s, t);
      } else if Top(s, t).caller == Signal {
        UnwindKeeps(s, t);
      } else {
        PopKeeps(s, t);
      }
    case MainGoes => MainGoesKeeps(s);
  }

  lemma {:induction false} InvRun(s: State, steps: seq<Step>)
    requires Inv(s) && Legal(s, steps)
    ensures Inv(Run(s, steps))
    decreases |steps|
  {
    if steps != [] {
      InvStep(s, steps[0]);
      InvRun(Apply(s, steps[0]), steps[1..]);
    }
  }

  lemma InitialInv(s: State)
    requires Initial(s)
    ensures Inv(s)
  {
  }

  // ---------------------------------------------------------------- theorems over whole runs

  /** Across any threads, nested signals, atexit and the explicit call: stop_all_workers is called
      at most once and the closures write at most one shutdown line, after the heartbeat was told
      to stop. When the process leaves through main the cleanup has been started, and on the way
      through its `finally` the heartbeat is stopped and main's own line written too. Once started, the
      workers have been stopped exactly when its claimant was neither unwound nor still on the way. */
  lemma ShutdownAtMostOnce(s: State, steps: seq<Step>)
    requires Initial(s) && Legal(s, steps)
    ensures var end := Run(s, steps);
      && end.stops <= 1 && end.lines <= 1 && end.mainLines <= 1
      && (end.lines == 1 ==> end.heartbeatStopped)
      && (end.main == FinalExit || end.main == Gone ==> end.started)
      && (end.main == FinalExit ==> end.heartbeatStopped && end.mainLines == 1)
      && (end.started ==> (end.stops == 1 <==> !end.lost && end.claim == None))
  {
    InitialInv(s);
    InvRun(s, steps);
  }

  lemma {:induction false} LostForGood(s: State, steps: seq<Step>)
    requires Inv(s) && s.lost && Legal(s, steps)
    ensures Run(s, steps).lost && Run(s, steps).stops == 0
    decreases |steps|
  {
    hide Apply, FramesOk, HoldersOk, MainOk, Enabled;
    if steps != [] {
      InvStep(s, steps[0]);
      LostStep(s, steps[0]);
      LostForGood(Apply(s, steps[0]), steps[1..]);
    }
  }

  lemma LostStep(s: State, step: Step)
    requires Enabled(s, step) && s.lost
    ensures Apply(s, step).lost
  {
  }

  /** Appending one step to a run. */
  lemma {:induction false} Extend(s: State, steps: seq<Step>, step: Step) returns (longer: seq<Step>)
    requires Legal(s, steps) && Enabled(Run(s, steps), step)
    ensures longer == steps + [step]
    ensures Legal(s, longer) && Run(s, longer) == Apply(Run(s, steps), step)
    decreases |steps|
  {
    longer := steps + [step];
    if steps == [] {
      assert longer[1..] == [];
    } else {
      var rest := Extend(Apply(s, steps[0]), steps[1..], step);
      assert longer[1..] == rest;
    }
  }

  /** The main thread's innermost activation moves on. */
  lemma ExtendGo(s: State, steps: seq<Step>, below: seq<Frame>, caller: Caller, pc: Pc) returns (longer: seq<Step>)
    requires Legal(s, steps) && !pc.Done?
    requires var m := Run(s, steps);
      && MAIN_THREAD in m.threads && m.threads[MAIN_THREAD] == below + [Frame(caller, pc)]
      && m.main != Gone && (pc.LogLock? || pc.CleanLock? ==> m.lock == None)
    ensures Legal(s, longer) && longer == steps + [Go(MAIN_THREAD)]
    ensures var m, m' := Run(s, steps), Run(s, longer);
      && MAIN_THREAD in m'.threads && m'.threads[MAIN_THREAD] == below + [Frame(caller, Next(m, pc))]
      && m' == Effect(m, Holder(MAIN_THREAD, |below|), pc).(threads := m'.threads)
  {
    longer := Extend(s, steps, Go(MAIN_THREAD));
    var m := Run(s, steps);
    hide Effect, Next, Legal, Run;
    assert Top(m, MAIN_THREAD) == Frame(caller, pc);
    var stack := below + [Frame(caller, pc)];
    assert stack[|stack| - 1 := Frame(caller, Next(m, pc))] == below + [Frame(caller, Next(m, pc))];
  }

  /** A signal is handled up to the end of its log line. */
  lemma FirstSignalLogs(s: State) returns (steps: seq<Step>)
    requires Initial(s)
    ensures Legal(s, steps)
    ensures var m := Run(s, steps);
      && MAIN_THREAD in m.threads && m.threads[MAIN_THREAD] == [] + [Frame(Signal, CleanLock)]
      && m.lock == None && m.logged && !m.started && m.main == Serving
  {
    assert Legal(s, []) && Run(s, []) == s;
    steps := Extend(s, [], Interrupt(MAIN_THREAD));
    assert Run(s, steps) == Push(s, MAIN_THREAD, Signal);
    hide Legal, Run, Initial, Apply, Enabled;
    steps := ExtendGo(s, steps, [], Signal, LogLock);
    steps := ExtendGo(s, steps, [], Signal, LogTest);
    steps := ExtendGo(s, steps, [], Signal, LogSet);
    steps := ExtendGo(s, steps, [], Signal, LogUnlock(true));
    steps := ExtendGo(s, steps, [], Signal, StopHeartbeat);
    steps := ExtendGo(s, steps, [], Signal, LogLine);
  }

  /** The same signal goes on until it has claimed the cleanup. */
  lemma FirstSignalClaims(s: State) returns (steps: seq<Step>)
    requires Initial(s)
    ensures Legal(s, steps)
    ensures var m := Run(s, steps);
      && MAIN_THREAD in m.threads && m.threads[MAIN_THREAD] == [Frame(Signal, StopWorkers)]
      && m.claim == Some(Holder(MAIN_THREAD, 0))
      && m.lock == None && m.logged && m.started && m.main == Serving
  {
    hide Legal, Run, Initial;
    steps := FirstSignalLogs(s);
    steps := ExtendGo(s, steps, [], Signal, CleanLock);
    steps := ExtendGo(s, steps, [], Signal, CleanTest);
    steps := ExtendGo(s, steps, [], Signal, CleanSet);
    steps := ExtendGo(s, steps, [], Signal, CleanUnlock(true));
    assert [] + [Frame(Signal, StopWorkers)] == [Frame(Signal, StopWorkers)];
  }

  /** A second signal at that moment finds everything claimed, and its SystemExit unwinds the first
      handler before it has called stop_all_workers. */
  lemma SecondSignalUnwinds(s: State, steps: seq<Step>) returns (longer: seq<Step>)
    requires Legal(s, steps)
    requires var m := Run(s, steps);
      && MAIN_THREAD in m.threads && m.threads[MAIN_THREAD] == [Frame(Signal, StopWorkers)]
      && m.claim == Some(Holder(MAIN_THREAD, 0))
      && m.lock == None && m.logged && m.started && m.main == Serving
    ensures Legal(s, longer)
    ensures var m := Run(s, longer);
      && MAIN_THREAD in m.threads && m.threads[MAIN_THREAD] == [] && m.lock == None && m.started && m.main == FinalLog
      && m.lost
  {
    hide Legal, Run;
    longer := SecondSignalPasses(s, steps);
    assert Top(Run(s, longer), MAIN_THREAD) == Frame(Signal, Done);
    longer := Extend(s, longer, Go(MAIN_THREAD));
  }

  /** The second handler goes through both critical sections without claiming anything. */
  lemma SecondSignalPasses(s: State, steps: seq<Step>) returns (longer: seq<Step>)
    requires Legal(s, steps)
    requires var m := Run(s, steps);
      && MAIN_THREAD in m.threads && m.threads[MAIN_THREAD] == [Frame(Signal, StopWorkers)]
      && m.lock == None && m.logged && m.started && m.main == Serving
    ensures Legal(s, longer)
    ensures var m, m' := Run(s, steps), Run(s, longer);
      && MAIN_THREAD in m'.threads && m'.threads[MAIN_THREAD] == [Frame(Signal, StopWorkers)] + [Frame(Signal, Done)]
      && m' == m.(threads := m'.threads)
  {
    hide Legal, Run;
    var below := [Frame(Signal, StopWorkers)];
    longer := Extend(s, steps, Interrupt(MAIN_THREAD));
    hide Apply, Enabled;
    longer := ExtendGo(s, longer, below, Signal, LogLock);
    longer := ExtendGo(s, longer, below, Signal, LogTest);
    longer := ExtendGo(s, longer, below, Signal, LogUnlock(false));
    longer := ExtendGo(s, longer, below, Signal, CleanLock);
    longer := ExtendGo(s, longer, below, Signal, CleanTest);
    longer := ExtendGo(s, longer, below, Signal, CleanUnlock(false));
  }

  /** main's `finally` comes to call the cleanup once more. */
  lemma FinallyCalls(s: State, steps: seq<Step>) returns (longer: seq<Step>)
    requires Legal(s, steps)
    requires var m := Run(s, steps);
      && MAIN_THREAD in m.threads && m.threads[MAIN_THREAD] == [] && m.lock == None && m.started && m.main == FinalLog
    ensures Legal(s, longer)
    ensures var m, m' := Run(s, steps), Run(s, longer);
      && MAIN_THREAD in m'.threads && m'.threads[MAIN_THREAD] == [] + [Frame(Direct, CleanLock)]
      && m'.lock == None && m'.started && m'.main == FinalWait && m'.lost == m.lost
  {
    hide Legal, Run;
    longer := Extend(s, steps, MainGoes);
    longer := Extend(s, longer, MainGoes);
    longer := Extend(s, longer, MainGoes);
  }

  /** The cleanup it called finds everything started and returns. */
  lemma FinallySkips(s: State, steps: seq<Step>) returns (longer: seq<Step>)
    requires Legal(s, steps)
    requires var m := Run(s, steps);
      && MAIN_THREAD in m.threads && m.threads[MAIN_THREAD] == [] + [Frame(Direct, CleanLock)]
      && m.lock == None && m.started && m.main == FinalWait
    ensures Legal(s, longer)
    ensures var m, m' := Run(s, steps), Run(s, longer);
      && MAIN_THREAD in m'.threads && m'.threads[MAIN_THREAD] == [] + [Frame(Direct, Done)]
      && m'.main == FinalWait && m'.lost == m.lost
  {
    hide Legal, Run, Apply, Enabled;
    longer := ExtendGo(s, steps, [], Direct, CleanLock);
    longer := ExtendGo(s, longer, [], Direct, CleanTest);
    longer := ExtendGo(s, longer, [], Direct, CleanUnlock(false));
  }

  /** And the process exits. */
  lemma FinallyExits(s: State, steps: seq<Step>) returns (longer: seq<Step>)
    requires Legal(s, steps)
    requires var m := Run(s, steps);
      MAIN_THREAD in m.threads && m.threads[MAIN_THREAD] == [] + [Frame(Direct, Done)] && m.main == FinalWait
    ensures Legal(s, longer) && Run(s, longer).main == Gone && (Run(s, steps).lost ==> Run(s, longer).lost)
  {
    hide Legal, Run;
    assert Top(Run(s, steps), MAIN_THREAD) == Frame(Direct, Done);
    longer := Extend(s, steps, Go(MAIN_THREAD));
    assert Run(s, longer).threads[MAIN_THREAD] == [];
    longer := Extend(s, longer, MainGoes);
    longer := Extend(s, longer, MainGoes);
  }

  /** At most once is all that is promised: two signals in quick succession make the daemon exit
      through main without ever having called stop_all_workers. */
  lemma WorkersMayNeverBeStopped(s: State) returns (steps: seq<Step>)
    requires Initial(s)
    ensures Legal(s, steps)
    ensures Run(s, steps).main == Gone && Run(s, steps).started && Run(s, steps).stops == 0
  {
    steps := FirstSignalClaims(s);
    steps := SecondSignalUnwinds(s, steps);
    steps := FinallyCalls(s, steps);
    steps := FinallySkips(s, steps);
    steps := FinallyExits(s, steps);
    InitialInv(s);
    InvRun(s, steps);
  }

  /** The lock's holder lies below the innermost activation of its own thread. */
  predicate SelfBlocked(s: State, t: nat) {
    t in s.threads && s.lock.Some? && s.lock.value.thread == t && s.lock.value.depth + 1 < |s.threads[t]|
  }

  /** An activation outside the critical section and not entering it leaves lock and flags alone. */
  lemma OutsideCriticalSection(s: State, h: Holder, f: Frame)
    requires !Critical(f) && !AtLock(f)
    ensures var e := Effect(s, h, f.pc);
      && e.lock == s.lock && e.started == s.started && e.logged == s.logged && e.main == s.main
      && e.threads == s.threads
  {
  }

  lemma SelfBlockedGo(s: State, u: nat, t: nat)
    requires SelfBlocked(s, t) && Enabled(s, Go(u)) && u != t && !Critical(Top(s, u)) && !AtLock(Top(s, u))
    ensures var s' := Apply(s, Go(u));
      && SelfBlocked(s', t) && s'.started == s.started && s'.logged == s.logged
      && (t == MAIN_THREAD ==> s'.main == s.main)
  {
    OutsideCriticalSection(s, Holder(u, |s.threads[u]| - 1), Top(s, u));
    hide Effect, Next, Critical, AtLock;
  }

  lemma SelfBlockedStep(s: State, step: Step, t: nat)
    requires Inv(s) && SelfBlocked(s, t) && Enabled(s, step)
    ensures var s' := Apply(s, step);
      && SelfBlocked(s', t) && s'.started == s.started && s'.logged == s.logged
      && (t == MAIN_THREAD ==> s'.main == s.main)
  {
    if step.Go? {
      var u := step.thread;
      assert At(s, t, |s.threads[t]| - 1);
      assert FrameOk(s, Holder(t, |s.threads[t]| - 1), Top(s, t));
      assert At(s, u, |s.threads[u]| - 1);
      assert FrameOk(s, Holder(u, |s.threads[u]| - 1), Top(s, u));
      hide FramesOk, CountsOk, MainOk, Apply;
      SelfBlockedGo(s, u, t);
    } else {
      hide Inv;
      SelfBlockedElsewise(s, step, t);
      hide Apply, Enabled;
    }
  }

  lemma SelfBlockedElsewise(s: State, step: Step, t: nat)
    requires SelfBlocked(s, t) && Enabled(s, step) && !step.Go?
    ensures var s' := Apply(s, step);
      && SelfBlocked(s', t) && s'.started == s.started && s'.logged == s.logged
      && (t == MAIN_THREAD ==> s'.main == s.main)
  {
    match step
    case MainGoes =>
    case Interrupt(_) =>
    case CallCleanup(_) =>
  }

  /** A signal that lands while its own thread holds the lock blocks that thread for good: in every
      continuation the lock stays held and nothing more is ever claimed, and on the main thread the
      process never reaches its exit. */
  lemma {:induction false} SignalInsideLockBlocksForever(s: State, t: nat, steps: seq<Step>)
    requires Inv(s) && SelfBlocked(s, t) && Legal(s, steps)
    ensures var end := Run(s, steps);
      && SelfBlocked(end, t) && end.started == s.started && end.logged == s.logged
      && (t == MAIN_THREAD ==> end.main == s.main)
    decreases |steps|
  {
    if steps != [] {
      InvStep(s, steps[0]);
      SelfBlockedStep(s, steps[0], t);
      SignalInsideLockBlocksForever(Apply(s, steps[0]), t, steps[1..]);
    }
  }
}
