/** Which runs lose the cleanup, and which block: both are decided by where a signal lands. */
module ShutdownSignals {
  import opened Wrappers
  import opened Shutdown
  import opened ShutdownProperties

  // ---------------------------------------------------------------- signals above an activation

  /** A signal handler stands above the activation recorded here. */
  predicate SignalAbove(threads: map<nat, seq<Frame>>, record: Option<Holder>) {
    && record.Some? && record.value.thread in threads
    && var stack := threads[record.value.thread];
    exists i :: record.value.depth < i < |stack| && stack[i].caller == Signal
  }

  /** The record points at an activation that has not returned. */
  predicate Live(s: State, record: Option<Holder>) {
    PointsTo(s, record, (f: Frame) => !f.pc.Done?)
  }

  lemma AboveOnPush(s: State, t: nat, caller: Caller, record: Option<Holder>)
    requires t in s.threads && Live(s, record)
    ensures SignalAbove(Push(s, t, caller).threads, record)
       <==> SignalAbove(s.threads, record) || (caller == Signal && record.Some? && record.value.thread == t)
  {
    if record.Some? {
      var h, s' := record.value, Push(s, t, caller);
      assert s'.threads[t][|s.threads[t]|].caller == caller;
      assert forall i :: 0 <= i < |s.threads[h.thread]| ==> s'.threads[h.thread][i] == s.threads[h.thread][i];
    }
  }

  lemma AboveOnAdvance(s: State, t: nat, record: Option<Holder>)
    requires t in s.threads && s.threads[t] != []
    ensures SignalAbove(Advance(s, t).threads, record) <==> SignalAbove(s.threads, record)
    ensures !SignalAbove(s.threads, Some(Holder(t, |s.threads[t]| - 1)))
  {
    hide Effect, Next;
    if record.Some? && record.value.thread in s.threads {
      var u, s' := record.value.thread, Advance(s, t);
      assert |s'.threads[u]| == |s.threads[u]|;
      assert forall i :: 0 <= i < |s.threads[u]| ==> s'.threads[u][i].caller == s.threads[u][i].caller;
    }
  }

  lemma AboveOnReturn(s: State, t: nat, record: Option<Holder>)
    requires t in s.threads && s.threads[t] != [] && Top(s, t).pc.Done? && Live(s, record)
    ensures Top(s, t).caller == Signal ==>
      if record.Some? && record.value.thread == t then SignalAbove(s.threads, record)
      else SignalAbove(Unwind(s, t).threads, record) <==> SignalAbove(s.threads, record)
    ensures Top(s, t).caller != Signal ==>
      (SignalAbove(PopTop(s, t).threads, record) <==> SignalAbove(s.threads, record))
  {
    if record.Some? {
      var h, n := record.value, |s.threads[t]|;
      assert h.thread == t ==> h.depth < n - 1;
      if Top(s, t).caller != Signal {
        AboveOnPop(s, t, h);
      } else if h.thread == t {
        assert s.threads[t][n - 1].caller == Signal;
      } else {
        assert Unwind(s, t).threads[h.thread] == s.threads[h.thread];
      }
    }
  }

  lemma AboveOnPop(s: State, t: nat, h: Holder)
    requires t in s.threads && s.threads[t] != [] && Top(s, t).caller != Signal && At(s, h.thread, h.depth)
    ensures SignalAbove(PopTop(s, t).threads, Some(h)) <==> SignalAbove(s.threads, Some(h))
  {
    var was, now := s.threads[h.thread], PopTop(s, t).threads[h.thread];
    assert now <= was;
    if SignalAbove(s.threads, Some(h)) {
      var i :| h.depth < i < |was| && was[i].caller == Signal;
      assert i < |now| && now[i].caller == Signal;
    }
    if SignalAbove(PopTop(s, t).threads, Some(h)) {
      var i :| h.depth < i < |now| && now[i].caller == Signal;
      assert was[i].caller == Signal;
    }
  }

  lemma RecordsAreLive(s: State)
    requires HoldersOk(s)
    ensures Live(s, s.claim) && Live(s, s.logClaim)
  {
  }

  lemma TalliesOfInv(s: State)
    requires Inv(s)
    ensures s.claim.Some? ==> s.started && s.stops == 0 && !s.lost
    ensures s.logClaim.Some? ==> s.logged && s.lines == 0
  {
    hide FramesOk, HoldersOk, MainOk;
  }

  // ---------------------------------------------------------------- losing the cleanup

  /** Some activation on this thread has started the cleanup and not yet called stop_all_workers. */
  predicate Claiming(s: State, t: nat) {
    t in s.threads && exists i :: 0 <= i < |s.threads[t]| && ClaimsCleanup(s.threads[t][i])
  }

  lemma ClaimingIsRecorded(s: State, t: nat)
    requires Inv(s)
    ensures Claiming(s, t) <==> s.claim.Some? && s.claim.value.thread == t
  {
    if Claiming(s, t) {
      var i :| 0 <= i < |s.threads[t]| && ClaimsCleanup(s.threads[t][i]);
      assert At(s, t, i);
      assert FrameOk(s, Holder(t, i), s.threads[t][i]);
    }
  }

  /** A signal lands on a thread between the start of the cleanup there and its call. */
  predicate Strikes(s: State, step: Step) {
    step.Interrupt? && Claiming(s, step.thread)
  }

  predicate Struck(s: State, steps: seq<Step>)
    requires Legal(s, steps)
    decreases |steps|
  {
    steps != [] && (Strikes(s, steps[0]) || Struck(Apply(s, steps[0]), steps[1..]))
  }

  /** The cleanup is lost, or a signal handler stands above the activation that started it. */
  predicate Doomed(s: State) {
    s.lost || SignalAbove(s.threads, s.claim)
  }

  /** Effects on the record of the claim: only the claimant itself gives it up, by stopping the
      workers, and it is taken only while nobody has it. */
  lemma ClaimMoves(s: State, h: Holder, f: Frame)
    requires (f.pc.CleanSet? ==> !s.started) && (f.pc.StopWorkers? ==> s.claim == Some(h))
    requires (s.claim.Some? ==> s.started && !s.lost) && (s.lost ==> s.started)
    ensures var e := Effect(s, h, f.pc);
      && e.lost == s.lost
      && (e.claim != s.claim ==>
            || (s.claim == None && !s.lost && e.claim == Some(h))
            || (s.claim == Some(h) && !s.lost && e.claim == None))
  {
  }

  lemma DoomOnGo(s: State, t: nat)
    requires Inv(s) && Enabled(s, Go(t))
    ensures Doomed(Apply(s, Go(t))) <==> Doomed(s)
  {
    RecordsAreLive(s);
    if Top(s, t).pc.Done? {
      AboveOnReturn(s, t, s.claim);
      hide SignalAbove, Live, Inv;
    } else {
      var h, f := Holder(t, |s.threads[t]| - 1), Top(s, t);
      assert At(s, t, h.depth) && FrameOk(s, h, f);
      ClaimMoves(s, h, f);
      AboveOnAdvance(s, t, s.claim);
      AboveOnAdvance(s, t, Some(h));
      hide Inv, Effect, Next, FrameOk, SignalAbove, Live, TalliesOk;
    }
  }

  lemma DoomOnPush(s: State, t: nat, caller: Caller)
    requires Inv(s) && t in s.threads
    ensures Doomed(Push(s, t, caller))
       <==> Doomed(s) || (caller == Signal && s.claim.Some? && s.claim.value.thread == t)
  {
    RecordsAreLive(s);
    TalliesOfInv(s);
    AboveOnPush(s, t, caller, s.claim);
    hide Inv, SignalAbove, Live;
  }

  lemma DoomOnMain(s: State)
    requires Inv(s) && Enabled(s, MainGoes)
    ensures Doomed(Apply(s, MainGoes)) <==> Doomed(s)
  {
    DoomOnPush(s, MAIN_THREAD, Direct);
    DoomOnPush(s, MAIN_THREAD, Atexit);
    hide Inv, SignalAbove;
  }

  lemma DoomStep(s: State, step: Step)
    requires Inv(s) && Enabled(s, step)
    ensures Doomed(Apply(s, step)) <==> Doomed(s) || Strikes(s, step)
  {
    hide Inv, Doomed, Claiming, Push;
    match step
    case Interrupt(t) =>
      ClaimingIsRecorded(s, t);
      DoomOnPush(s, t, Signal);
    case CallCleanup(t) => DoomOnPush(s, t, Direct);
    case Go(t) =>
      DoomOnGo(s, t);
    case MainGoes =>
      DoomOnMain(s);
  }

  lemma {:induction false} DoomRun(s: State, steps: seq<Step>)
    requires Inv(s) && Legal(s, steps)
    ensures Inv(Run(s, steps)) && (Doomed(Run(s, steps)) <==> Doomed(s) || Struck(s, steps))
    decreases |steps|
  {
    hide Inv, Doomed, Strikes, Apply;
    if steps != [] {
      InvStep(s, steps[0]);
      DoomStep(s, steps[0]);
      DoomRun(Apply(s, steps[0]), steps[1..]);
    }
  }

  /** The exact condition for the workers to have been stopped: the cleanup has been started, no
      activation is still on its way to the call, and no signal landed on a thread between the start
      of the cleanup there and the call. */
  lemma WorkersAreStoppedIff(s: State, steps: seq<Step>)
    requires Initial(s) && Legal(s, steps)
    ensures var end := Run(s, steps);
      end.stops == 1 <==> end.started && !Struck(s, steps) && forall t :: !Claiming(end, t)
  {
    InitialInv(s);
    DoomRun(s, steps);
    var end := Run(s, steps);
    assert !Doomed(s);
    forall t
      ensures Claiming(end, t) <==> end.claim.Some? && end.claim.value.thread == t
    {
      ClaimingIsRecorded(end, t);
    }
    assert end.claim.Some? ==> Claiming(end, end.claim.value.thread);
    hide FramesOk, HoldersOk, MainOk, Claiming, Struck;
  }

  /** One such signal is enough: in every continuation the workers are never stopped. */
  lemma StruckMeansNever(s: State, steps: seq<Step>, more: seq<Step>)
    requires Initial(s) && Legal(s, steps) && Struck(s, steps) && Legal(Run(s, steps), more)
    ensures Run(Run(s, steps), more).stops == 0
  {
    InitialInv(s);
    DoomRun(s, steps);
    DoomRun(Run(s, steps), more);
    hide FramesOk, HoldersOk, MainOk, Run;
  }

  // ---------------------------------------------------------------- losing the shutdown line

  /** Some activation on this thread has claimed the shutdown line and not yet written it. */
  predicate LineClaiming(s: State, t: nat) {
    t in s.threads && exists i :: 0 <= i < |s.threads[t]| && ClaimsLog(s.threads[t][i])
  }

  lemma LineClaimingIsRecorded(s: State, t: nat)
    requires Inv(s)
    ensures LineClaiming(s, t) <==> s.logClaim.Some? && s.logClaim.value.thread == t
  {
    if LineClaiming(s, t) {
      var i :| 0 <= i < |s.threads[t]| && ClaimsLog(s.threads[t][i]);
      assert At(s, t, i);
      assert FrameOk(s, Holder(t, i), s.threads[t][i]);
    }
  }

  predicate LineStrikes(s: State, step: Step) {
    step.Interrupt? && LineClaiming(s, step.thread)
  }

  predicate LineStruck(s: State, steps: seq<Step>)
    requires Legal(s, steps)
    decreases |steps|
  {
    steps != [] && (LineStrikes(s, steps[0]) || LineStruck(Apply(s, steps[0]), steps[1..]))
  }

  /** The line is claimed and will not be written: its claimant is gone or below a signal handler. */
  predicate LineDoomed(s: State) {
    s.logged && s.lines == 0 && (s.logClaim == None || SignalAbove(s.threads, s.logClaim))
  }

  lemma LineMoves(s: State, h: Holder, f: Frame)
    requires (f.pc.LogSet? ==> !s.logged) && (f.pc.LogLine? ==> s.logClaim == Some(h))
    ensures var e := Effect(s, h, f.pc);
      || (e.logged == s.logged && e.lines == s.lines && e.logClaim == s.logClaim)
      || (!s.logged && e.logged && e.logClaim == Some(h))
      || (s.logClaim == Some(h) && e.logClaim == None && e.lines == s.lines + 1)
  {
    match f.pc
    case LogSet =>
    case LogLine =>
    case CleanSet =>
    case StopWorkers =>
    case _ =>
  }

  lemma LineOnGo(s: State, t: nat)
    requires Inv(s) && Enabled(s, Go(t))
    ensures LineDoomed(Apply(s, Go(t))) <==> LineDoomed(s)
  {
    RecordsAreLive(s);
    TalliesOfInv(s);
    if Top(s, t).pc.Done? {
      AboveOnReturn(s, t, s.logClaim);
      hide SignalAbove, Live, Inv;
    } else {
      var h, f := Holder(t, |s.threads[t]| - 1), Top(s, t);
      assert At(s, t, h.depth) && FrameOk(s, h, f);
      LineMoves(s, h, f);
      AboveOnAdvance(s, t, s.logClaim);
      AboveOnAdvance(s, t, Some(h));
      hide Inv, Effect, Next, FrameOk, SignalAbove, Live, TalliesOk;
    }
  }

  lemma LineDoomOnPush(s: State, t: nat, caller: Caller)
    requires Inv(s) && t in s.threads
    ensures LineDoomed(Push(s, t, caller))
       <==> LineDoomed(s) || (caller == Signal && s.logClaim.Some? && s.logClaim.value.thread == t)
  {
    RecordsAreLive(s);
    TalliesOfInv(s);
    AboveOnPush(s, t, caller, s.logClaim);
    hide Inv, SignalAbove, Live;
  }

  lemma LineDoomOnMain(s: State)
    requires Inv(s) && Enabled(s, MainGoes)
    ensures LineDoomed(Apply(s, MainGoes)) <==> LineDoomed(s)
  {
    LineDoomOnPush(s, MAIN_THREAD, Direct);
    LineDoomOnPush(s, MAIN_THREAD, Atexit);
    hide Inv, SignalAbove;
  }

  lemma LineStep(s: State, step: Step)
    requires Inv(s) && Enabled(s, step)
    ensures LineDoomed(Apply(s, step)) <==> LineDoomed(s) || LineStrikes(s, step)
  {
    hide Inv, LineDoomed, LineClaiming, Push;
    match step
    case Interrupt(t) =>
      LineClaimingIsRecorded(s, t);
      LineDoomOnPush(s, t, Signal);
    case CallCleanup(t) => LineDoomOnPush(s, t, Direct);
    case Go(t) =>
      LineOnGo(s, t);
    case MainGoes =>
      LineDoomOnMain(s);
  }

  lemma {:induction false} LineRun(s: State, steps: seq<Step>)
    requires Inv(s) && Legal(s, steps)
    ensures Inv(Run(s, steps)) && (LineDoomed(Run(s, steps)) <==> LineDoomed(s) || LineStruck(s, steps))
    decreases |steps|
  {
    hide Inv, LineDoomed, LineStrikes, Apply;
    if steps != [] {
      InvStep(s, steps[0]);
      LineStep(s, steps[0]);
      LineRun(Apply(s, steps[0]), steps[1..]);
    }
  }

  /** The exact condition for the closures to have written their shutdown line: it has been claimed, no
      activation is still on its way to it, and no signal landed on a thread between the claim there
      and the line. */
  lemma ShutdownLineIsWrittenIff(s: State, steps: seq<Step>)
    requires Initial(s) && Legal(s, steps)
    ensures var end := Run(s, steps);
      end.lines == 1 <==> end.logged && !LineStruck(s, steps) && forall t :: !LineClaiming(end, t)
  {
    InitialInv(s);
    LineRun(s, steps);
    var end := Run(s, steps);
    assert !LineDoomed(s);
    forall t
      ensures LineClaiming(end, t) <==> end.logClaim.Some? && end.logClaim.value.thread == t
    {
      LineClaimingIsRecorded(end, t);
    }
    assert end.logClaim.Some? ==> LineClaiming(end, end.logClaim.value.thread);
    hide FramesOk, HoldersOk, MainOk, LineClaiming, LineStruck;
  }

  // ---------------------------------------------------------------- blocking

  predicate HoldsLock(s: State, t: nat) {
    s.lock.Some? && s.lock.value.thread == t
  }

  /** Code that will ask for the lock starts on the very thread that holds it. */
  predicate LandsInside(s: State, step: Step, t: nat) {
    (step == Interrupt(t) || step == CallCleanup(t)) && HoldsLock(s, t)
  }

  predicate Landed(s: State, steps: seq<Step>, t: nat)
    requires Legal(s, steps)
    decreases |steps|
  {
    steps != [] && (LandsInside(s, steps[0], t) || Landed(Apply(s, steps[0]), steps[1..], t))
  }

  /** While a thread holds the lock it can go on exactly when nothing stands above the holder. */
  lemma HolderGoesOnIffNotBlocked(s: State, t: nat)
    requires Inv(s) && s.main != Gone && HoldsLock(s, t)
    ensures Enabled(s, Go(t)) <==> !SelfBlocked(s, t)
  {
    var h := s.lock.value;
    assert At(s, t, h.depth) && Critical(s.threads[t][h.depth]);
    var n := |s.threads[t]|;
    assert At(s, t, n - 1);
    assert FrameOk(s, Holder(t, n - 1), Top(s, t));
  }

  lemma LockMoves(s: State, h: Holder, pc: Pc)
    ensures var e := Effect(s, h, pc); e.lock == s.lock || e.lock == None || e.lock == Some(h)
  {
  }

  lemma NotBlockedByGoing(s: State, u: nat, t: nat)
    requires Enabled(s, Go(u)) && !SelfBlocked(s, t)
    ensures !SelfBlocked(Apply(s, Go(u)), t)
  {
    if !Top(s, u).pc.Done? {
      LockMoves(s, Holder(u, |s.threads[u]| - 1), Top(s, u).pc);
      hide Effect, Next;
      assert forall v :: v in s.threads ==> v in Advance(s, u).threads && |Advance(s, u).threads[v]| == |s.threads[v]|;
    } else if Top(s, u).caller == Signal {
      assert forall v :: v in s.threads && v != u ==> Unwind(s, u).threads[v] == s.threads[v];
    } else {
      assert forall v :: v in s.threads ==> |PopTop(s, u).threads[v]| <= |s.threads[v]|;
    }
  }

  lemma BlockedByPush(s: State, u: nat, caller: Caller, t: nat)
    requires HoldersOk(s) && u in s.threads && !SelfBlocked(s, t)
    ensures SelfBlocked(Push(s, u, caller), t) <==> u == t && HoldsLock(s, t)
  {
    if HoldsLock(s, t) {
      assert At(s, t, s.lock.value.depth);
    }
  }

  lemma BlockStep(s: State, step: Step, t: nat)
    requires Inv(s) && Enabled(s, step)
    ensures SelfBlocked(Apply(s, step), t) <==> SelfBlocked(s, t) || LandsInside(s, step, t)
  {
    if SelfBlocked(s, t) {
      SelfBlockedStep(s, step, t);
    } else {
      hide FramesOk, HoldersOk, MainOk, TalliesOk;
      match step
      case Interrupt(u) => BlockedByPush(s, u, Signal, t);
      case CallCleanup(u) => BlockedByPush(s, u, Direct, t);
      case Go(u) => NotBlockedByGoing(s, u, t);
      case MainGoes => BlockedByMain(s, t);
    }
  }

  /** What main starts on its own thread stands alone there. */
  lemma BlockedByMain(s: State, t: nat)
    requires Enabled(s, MainGoes) && !SelfBlocked(s, t)
    ensures !SelfBlocked(Apply(s, MainGoes), t)
  {
    var s' := Apply(s, MainGoes);
    assert s'.lock == s.lock && |s'.threads[MAIN_THREAD]| <= 1;
    assert t != MAIN_THREAD && t in s'.threads ==> t in s.threads && s'.threads[t] == s.threads[t];
    hide Apply, Enabled;
  }

  /** A thread blocks itself exactly when such code landed on it while it held the lock. */
  lemma {:induction false} BlockRun(s: State, steps: seq<Step>, t: nat)
    requires Inv(s) && Legal(s, steps)
    ensures SelfBlocked(Run(s, steps), t) <==> SelfBlocked(s, t) || Landed(s, steps, t)
    decreases |steps|
  {
    hide Inv, SelfBlocked, LandsInside, Apply;
    if steps != [] {
      InvStep(s, steps[0]);
      BlockStep(s, steps[0], t);
      BlockRun(Apply(s, steps[0]), steps[1..], t);
    }
  }

  /** In a run from the start a thread stands above its own lock, and then can go on in no
      continuation, if and only if a signal or call landed on it while it held the lock. */
  lemma BlockedIffInterruptedInside(s: State, steps: seq<Step>, t: nat)
    requires Initial(s) && Legal(s, steps)
    ensures SelfBlocked(Run(s, steps), t) <==> Landed(s, steps, t)
    ensures Landed(s, steps, t) ==>
      forall more :: Legal(Run(s, steps), more) ==> !Enabled(Run(Run(s, steps), more), Go(t))
  {
    InitialInv(s);
    InvRun(s, steps);
    BlockRun(s, steps, t);
    var end := Run(s, steps);
    assert !SelfBlocked(s, t);
    if Landed(s, steps, t) {
      forall more | Legal(end, more)
        ensures !Enabled(Run(end, more), Go(t))
      {
        InvRun(end, more);
        SignalInsideLockBlocksForever(end, t, more);
        if Run(end, more).main != Gone {
          HolderGoesOnIffNotBlocked(Run(end, more), t);
        }
      }
    }
  }

  // ---------------------------------------------------------------- threads that can never go on

  /** The thread waits for the lock of a thread that has blocked itself, possibly its own. */
  predicate Waiting(s: State, t: nat) {
    && t in s.threads && s.threads[t] != [] && AtLock(Top(s, t))
    && s.lock.Some? && SelfBlocked(s, s.lock.value.thread)
  }

  lemma TopStaysAtLock(s: State, step: Step, t: nat)
    requires t in s.threads && s.threads[t] != [] && AtLock(Top(s, t)) && s.lock.Some? && Enabled(s, step)
    ensures step != Go(t)
    ensures var s' := Apply(s, step); t in s'.threads && s'.threads[t] != [] && AtLock(Top(s', t))
  {
    hide Effect, Next, Without;
  }

  lemma WaitingStep(s: State, step: Step, t: nat)
    requires Inv(s) && Waiting(s, t) && Enabled(s, step)
    ensures Waiting(Apply(s, step), t) && !Enabled(s, Go(t))
  {
    SelfBlockedStep(s, step, s.lock.value.thread);
    TopStaysAtLock(s, step, t);
    HolderOfBlocked(Apply(s, step), s.lock.value.thread);
    hide Inv, SelfBlocked, Apply;
  }

  lemma HolderOfBlocked(s: State, u: nat)
    requires SelfBlocked(s, u)
    ensures s.lock.Some? && s.lock.value.thread == u
  {
  }

  lemma {:induction false} WaitingForever(s: State, t: nat, more: seq<Step>)
    requires Inv(s) && Waiting(s, t) && Legal(s, more)
    ensures !Enabled(Run(s, more), Go(t))
    decreases |more|
  {
    if more != [] {
      InvStep(s, more[0]);
      WaitingStep(s, more[0], t);
      WaitingForever(Apply(s, more[0]), t, more[1..]);
    }
  }

  /** How many steps the holder is from giving the lock back, at most. */
  function Remaining(f: Frame): nat {
    match f.pc
    case LogTest => 3
    case CleanTest => 3
    case LogSet => 2
    case CleanSet => 2
    case LogUnlock(_) => 1
    case CleanUnlock(_) => 1
    case _ => 0
  }

  lemma HolderStep(s: State, u: nat, t: nat)
    requires Inv(s) && s.main != Gone && HoldsLock(s, u) && !SelfBlocked(s, u) && u != t
    ensures Enabled(s, Go(u))
    ensures var s' := Apply(s, Go(u));
      && s'.main == s.main && (t in s.threads ==> t in s'.threads && s'.threads[t] == s.threads[t])
      && u in s'.threads && s'.threads[u] != []
      && (s'.lock == None || (HoldsLock(s', u) && !SelfBlocked(s', u) && Remaining(Top(s', u)) < Remaining(Top(s, u))))
  {
    HolderGoesOnIffNotBlocked(s, u);
    assert At(s, u, s.lock.value.depth) && Critical(s.threads[u][s.lock.value.depth]);
    assert s.lock.value.depth == |s.threads[u]| - 1;
    CriticalStep(s, s.lock.value, Top(s, u));
    hide Inv, Effect, Next, Critical, Remaining;
  }

  /** An activation inside the lock gives it back or comes closer to that. */
  lemma CriticalStep(s: State, h: Holder, f: Frame)
    requires Critical(f) && s.lock == Some(h)
    ensures !f.pc.Done?
    ensures var e, g := Effect(s, h, f.pc), Frame(f.caller, Next(s, f.pc));
      e.lock == None || (e.lock == s.lock && Remaining(g) < Remaining(f))
    ensures var e := Effect(s, h, f.pc); e.main == s.main && e.threads == s.threads
  {
  }

  /** If the lock's holder is not blocked, it gives the lock back in at most three steps of its own. */
  lemma {:induction false} LockComesFree(s: State, u: nat, t: nat) returns (more: seq<Step>)
    requires Inv(s) && s.main != Gone && HoldsLock(s, u) && !SelfBlocked(s, u) && u != t
    requires t in s.threads
    ensures Legal(s, more)
    ensures var end := Run(s, more);
      end.lock == None && end.main == s.main && t in end.threads && end.threads[t] == s.threads[t]
    decreases if u in s.threads && s.threads[u] != [] then Remaining(Top(s, u)) else 0
  {
    HolderStep(s, u, t);
    InvStep(s, Go(u));
    var s', rest := Apply(s, Go(u)), [];
    if s'.lock.Some? {
      rest := LockComesFree(s', u, t);
    } else {
      assert Legal(s', rest) && Run(s', rest) == s';
    }
    more := [Go(u)] + rest;
    assert more[1..] == rest;
  }

  /** No continuation lets the thread go on. */
  ghost predicate NeverGoesOn(s: State, t: nat) {
    forall more :: Legal(s, more) ==> !Enabled(Run(s, more), Go(t))
  }

  /** The exact condition for a thread in the middle of something never to go on again, as long as the
      process lives: it waits for the lock, and the lock's holder has blocked itself. */
  lemma NeverGoesOnIff(s: State, t: nat)
    requires Inv(s) && s.main != Gone && t in s.threads && s.threads[t] != []
    ensures NeverGoesOn(s, t) <==> Waiting(s, t)
  {
    if Waiting(s, t) {
      forall more | Legal(s, more)
        ensures !Enabled(Run(s, more), Go(t))
      {
        WaitingForever(s, t, more);
      }
    } else if Enabled(s, Go(t)) {
      assert Legal(s, []) && Run(s, []) == s;
    } else {
      var u := s.lock.value.thread;
      if u == t {
        TopOfHolder(s, t);
      }
      var more := LockComesFree(s, u, t);
      assert Enabled(Run(s, more), Go(t));
    }
  }

  lemma TopOfHolder(s: State, t: nat)
    requires Inv(s) && t in s.threads && s.threads[t] != [] && AtLock(Top(s, t)) && HoldsLock(s, t)
    ensures SelfBlocked(s, t)
  {
    assert At(s, t, s.lock.value.depth) && Critical(s.threads[t][s.lock.value.depth]);
  }

  /** Over runs from the start: a thread in the middle of something never goes on again if and only if it
      waits for the lock and a signal or call landed on the lock's holder, itself or another thread,
      while it held the lock. */
  lemma NeverGoesOnIffHolderInterrupted(s: State, steps: seq<Step>, t: nat)
    requires Initial(s) && Legal(s, steps)
    requires var end := Run(s, steps); end.main != Gone && t in end.threads && end.threads[t] != []
    ensures var end := Run(s, steps);
      NeverGoesOn(end, t) <==>
        AtLock(Top(end, t)) && end.lock.Some? && Landed(s, steps, end.lock.value.thread)
  {
    InitialInv(s);
    InvRun(s, steps);
    var end := Run(s, steps);
    NeverGoesOnIff(end, t);
    if end.lock.Some? {
      BlockRun(s, steps, end.lock.value.thread);
    }
    hide Inv, NeverGoesOn, Landed, Run;
  }

  /** It happens: a signal, one step into the closure, and a second signal. */
  lemma SignalInsideLockIsReachable(s: State, t: nat)
    requires Initial(s) && t in s.threads
    ensures var steps := [Interrupt(t), Go(t), Interrupt(t)];
      Legal(s, steps) && SelfBlocked(Run(s, steps), t)
  {
    var s1 := Apply(s, Interrupt(t));
    var s2 := Apply(s1, Go(t));
    var s3 := Apply(s2, Interrupt(t));
    var steps := [Interrupt(t), Go(t), Interrupt(t)];
    assert steps[1..] == [Go(t), Interrupt(t)] && [Go(t), Interrupt(t)][1..] == [Interrupt(t)]
      && [Interrupt(t)][1..] == [];
    assert Legal(s3, []) && Run(s3, []) == s3;
    assert Legal(s2, [Interrupt(t)]) && Run(s2, [Interrupt(t)]) == s3;
    assert Legal(s1, [Go(t), Interrupt(t)]) && Run(s1, [Go(t), Interrupt(t)]) == s3;
  }

  // ---------------------------------------------------------------- the atexit handler

  /** Left alone, the atexit handler goes for the shutdown line before the cleanup: it takes the lock,
      and claims the line, stops the heartbeat and writes it unless the line was claimed before. */
  lemma AtexitLogsFirst(s: State) returns (steps: seq<Step>)
    requires MAIN_THREAD in s.threads && s.threads[MAIN_THREAD] == [] && s.lock == None && s.main == Escaping
    ensures |steps| == (if s.logged then 4 else 7) && steps[0] == MainGoes
    ensures Legal(s, steps)
    ensures var end := Run(s, steps);
      && MAIN_THREAD in end.threads && end.threads[MAIN_THREAD] == [Frame(Atexit, CleanLock)]
      && end.logged && end.lock == None && end.started == s.started && end.stops == s.stops
      && (s.logged ==> end.lines == s.lines)
      && (!s.logged ==> end.lines == s.lines + 1 && end.heartbeatStopped)
  {
    steps := AtexitTests(s);
    hide Legal, Run, Apply, Enabled;
    if s.logged {
      steps := ExtendGo(s, steps, [], Atexit, LogUnlock(false));
    } else {
      steps := ExtendGo(s, steps, [], Atexit, LogSet);
      steps := ExtendGo(s, steps, [], Atexit, LogUnlock(true));
      steps := ExtendGo(s, steps, [], Atexit, StopHeartbeat);
      steps := ExtendGo(s, steps, [], Atexit, LogLine);
    }
  }

  lemma AtexitTests(s: State) returns (steps: seq<Step>)
    requires MAIN_THREAD in s.threads && s.threads[MAIN_THREAD] == [] && s.lock == None && s.main == Escaping
    ensures |steps| == 3 && steps[0] == MainGoes && Legal(s, steps)
    ensures var end := Run(s, steps);
      && MAIN_THREAD in end.threads
      && end.threads[MAIN_THREAD] == [] + [Frame(Atexit, if s.logged then LogUnlock(false) else LogSet)]
      && end.logged == s.logged && end.started == s.started && end.stops == s.stops && end.lines == s.lines
      && end.main != Gone
  {
    assert Legal(s, []) && Run(s, []) == s;
    hide Legal, Run;
    steps := Extend(s, [], MainGoes);
    assert Run(s, steps).threads[MAIN_THREAD] == [] + [Frame(Atexit, LogLock)];
    hide Apply, Enabled;
    steps := ExtendGo(s, steps, [], Atexit, LogLock);
    steps := ExtendGo(s, steps, [], Atexit, LogTest);
  }
}
