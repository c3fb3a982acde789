/** Over whole runs: which workers are left without anyone to stop them, and when there are none. */
module AuthOrphans {
  import opened Wrappers
  import opened AuthMachine
  import opened AuthInvariants
  import opened AuthWorkers
  import opened SizeBounds
  import AuthAgreement
  import AuthTheorems
  import Utf8

  // ---------- orphans, exactly ----------

  lemma InitTidy(timeout: int)
    ensures Tidy(Init(timeout))
  {
    AuthTheorems.InitInv(timeout);
  }

  lemma {:induction false} RunIsTidy(timeout: int, states: seq<Daemon>, labels: seq<Label>, n: nat)
    requires Run(timeout, states, labels) && n < |states|
    ensures Wired(states[n]) && Tidy(states[n])
  {
    hide Tidy, Step, Enabled, Wired;
    if n == 0 {
      InitTidy(timeout);
      TidyWired(states[0]);
    } else {
      RunIsTidy(timeout, states, labels, n - 1);
      assert Steps(states, labels, n - 1);
      StepAccounts(states[n - 1], labels[n - 1]);
    }
  }

  lemma TidyWired(d: Daemon)
    ensures Tidy(d) ==> Wired(d)
  {
  }

  /** Step `m` abandoned the session. */
  predicate AbandonedAt(states: seq<Daemon>, labels: seq<Label>, m: nat, s: SessionId) {
    && m < |states| && m < |labels| && Wired(states[m]) && s < |states[m].sessions|
    && Abandons(states[m], labels[m], s)
  }

  lemma NewSessionIsAwaited(d: Daemon, l: Label, s: SessionId)
    requires Wired(d) && Enabled(d, l) && |d.sessions| <= s < |Step(d, l).sessions| && Wired(Step(d, l))
    ensures !Orphan(Step(d, l), s)
  {
    hide Step;
    AuthAgreement.SessionCount(d, l);
    SpawnedIsAwaited(d, l);
  }

  lemma SpawnedIsAwaited(d: Daemon, l: Label)
    requires Wired(d) && Enabled(d, l) && l.WorkerSpawned?
    ensures Awaited(Step(d, l).handler) == Some(|d.sessions|)
  {
  }

  lemma OrphanStep(d: Daemon, l: Label, s: SessionId)
    requires Tidy(d) && Wired(d) && Enabled(d, l) && s < |Step(d, l).sessions|
    ensures Wired(Step(d, l)) && |d.sessions| <= |Step(d, l).sessions|
    ensures Orphan(Step(d, l), s) <==> s < |d.sessions| && (Orphan(d, s) || Abandons(d, l, s))
  {
    hide Tidy, Step, Orphan, Abandons, Enabled, Wired;
    StepAccounts(d, l);
    if s >= |d.sessions| {
      NewSessionIsAwaited(d, l, s);
    } else {
      assert AccountsFor(d, l, Step(d, l), s);
    }
  }

  /**
   * In every state of every run the sessions that nobody is going to settle are exactly those that some
   * step abandoned: once lost, a worker stays lost, and no other step loses one.
   */
  lemma {:induction false} OrphansExactly(timeout: int, states: seq<Daemon>, labels: seq<Label>, n: nat, s: SessionId)
    requires Run(timeout, states, labels) && n < |states| && s < |states[n].sessions|
    ensures Wired(states[n]) && (Orphan(states[n], s) <==> exists m :: 0 <= m < n && AbandonedAt(states, labels, m, s))
  {
    hide Tidy, Step, Enabled, Orphan, Abandons, Wired;
    RunIsTidy(timeout, states, labels, n);
    if n > 0 {
      RunIsTidy(timeout, states, labels, n - 1);
      assert Steps(states, labels, n - 1);
      var d := states[n - 1];
      OrphanStep(d, labels[n - 1], s);
      if s < |d.sessions| {
        OrphansExactly(timeout, states, labels, n - 1, s);
        assert AbandonedAt(states, labels, n - 1, s) <==> Abandons(d, labels[n - 1], s);
      } else {
        forall m | 0 <= m < n
          ensures !AbandonedAt(states, labels, m, s)
        {
          SessionsGrow(timeout, states, labels, m, n - 1);
        }
      }
    }
  }

  lemma {:induction false} SessionsGrow(timeout: int, states: seq<Daemon>, labels: seq<Label>, m: nat, n: nat)
    requires Run(timeout, states, labels) && m <= n < |states|
    ensures |states[m].sessions| <= |states[n].sessions|
    decreases n
  {
    hide Step, Enabled, Wired;
    if m < n {
      SessionsGrow(timeout, states, labels, m, n - 1);
      assert Steps(states, labels, n - 1);
      AuthAgreement.SessionCount(states[n - 1], labels[n - 1]);
    }
  }

  // ---------- the end of shutdown ----------

  lemma JoinedHoldsNothing(d: Daemon, s: SessionId)
    requires Inv(d) && d.sweep.Joined? && s < |d.sessions|
    ensures Wired(d) && (Orphan(d, s) <==> !Settles(d.sessions[s]))
  {
    hide ChannelOk, TimerOk, SpawnsAreAuthorized, LogOk, ResponsesOk, Outstanding;
  }

  /**
   * When shutdown has joined the client's task, a worker is finished exactly if no step of the run
   * abandoned its session.
   */
  lemma JoinedSettles(timeout: int, states: seq<Daemon>, labels: seq<Label>, n: nat, s: SessionId)
    requires Run(timeout, states, labels) && n < |states| && states[n].sweep.Joined? && s < |states[n].sessions|
    ensures Settles(states[n].sessions[s]) <==> !exists m :: 0 <= m < n && AbandonedAt(states, labels, m, s)
  {
    hide Run, Orphan, Settles, AbandonedAt, Inv;
    AuthTheorems.RunKeeps(timeout, states, labels, n);
    OrphansExactly(timeout, states, labels, n, s);
    JoinedHoldsNothing(states[n], s);
  }

  // ---------- runs in which shutdown overtakes nobody ----------

  predicate OvertakesAt(states: seq<Daemon>, labels: seq<Label>, m: nat) {
    m < |states| && m < |labels| && states[m].cur.Some? && Overtakes(states[m], labels[m], states[m].cur.value)
  }

  predicate LosesAt(states: seq<Daemon>, labels: seq<Label>, m: nat, s: SessionId) {
    m < |states| && m < |labels| && Loses(states[m], labels[m], s)
  }

  /** A session that is awaited or being closed by the timer is the current one, unless it is finished. */
  predicate Steady(d: Daemon)
    requires Wired(d)
  {
    && (d.handler.Replying? ==> d.cur == Some(d.handler.session) || Settles(d.sessions[d.handler.session]))
    && (forall s | 0 <= s < |d.sessions| && TimerCloses(d, s) :: d.cur == Some(s) || Settles(d.sessions[s]))
  }

  lemma SteadyLoses(d: Daemon, l: Label, s: SessionId)
    requires Tidy(d) && Wired(d) && Steady(d) && s < |d.sessions|
    ensures Abandons(d, l, s) <==> Loses(d, l, s) || (Overtakes(d, l, s) && Abandons(d, l, s))
  {
    hide Inv, StopsTimer, ClosesFirst;
  }

  /** Without a registered timer and without a reply on its way there is nothing to keep steady. */
  lemma NothingPending(e: Daemon)
    requires Wired(e) && e.authTimer.None? && !e.handler.Replying?
    ensures Steady(e)
  {
  }

  lemma StopSteady(d: Daemon, sendCancel: bool, after: After)
    requires Wired(d)
    ensures Wired(StopSession(d, sendCancel, after)) && Steady(StopSession(d, sendCancel, after))
  {
    hide StopSession;
    StopFrame(d, sendCancel, after);
    StopPlace(d, sendCancel, after);
  }

  lemma StopPlace(d: Daemon, sendCancel: bool, after: After)
    requires Wired(d)
    ensures !StopSession(d, sendCancel, after).handler.Replying?
  {
    hide CancelTimeout;
    CancelFrame(d);
  }

  /** Nothing changed that steadiness speaks of. */
  lemma SteadySame(d: Daemon, e: Daemon)
    requires Wired(d) && Wired(e) && Steady(d) && Unmoved(d, e)
    requires e.handler == d.handler || !e.handler.Replying? || e.cur == Some(e.handler.session)
    ensures Steady(e)
  {
    forall s | 0 <= s < |e.sessions| && TimerCloses(e, s)
      ensures e.cur == Some(s) || Settles(e.sessions[s])
    {
      assert TimerCloses(d, s);
    }
  }

  lemma RequestSteady(d: Daemon, r: Request, fits: bool)
    requires Wired(d) && Steady(d) && d.handler.Idle?
    ensures Wired(OnRequest(d, r, fits)) && Steady(OnRequest(d, r, fits))
  {
    hide StopSession, CancelTimeout, Utf8.DecodeReplace, AuthFieldIsTooLong, Steady, Unmoved;
    var n := d.(requests := d.requests + [r.id]);
    if !StopsTimer(d, Receive(r, fits)) {
      QuietMoves(d, r, fits);
      UnmovedCur(d, OnRequest(d, r, fits));
      SteadySame(d, OnRequest(d, r, fits));
    } else {
      match r.body
      case Create(username) =>
        var user := Utf8.DecodeReplace(username);
        StopSteady(Note(n, LAccept(user, r.id)), true, ThenCreate(r.id, user));
      case CancelSession => StopSteady(Note(n, LCancel), true, ThenAccept(r.id));
      case StartSession(_) =>
        StartMoves(d, r, fits);
        NothingPending(OnRequest(d, r, fits));
    }
  }

  lemma UnmovedCur(d: Daemon, e: Daemon)
    requires Unmoved(d, e)
    ensures e.cur == d.cur
  {
  }

  lemma WorkerSteady(d: Daemon, m: FromWorker, fits: bool)
    requires Wired(d) && Steady(d) && Awaited(d.handler).Some? && (d.handler.FirstMessage? ==> d.cur.None?)
    ensures Wired(OnWorker(d, m, fits)) && Steady(OnWorker(d, m, fits))
  {
    hide StopSession, CancelTimeout;
    var n := Heard(d, m);
    match m
    case Asked(_) => AskedSteady(d, m, fits);
    case IsReady =>
      CancelFrame(n);
      NothingPending(OnWorker(d, m, fits));
    case HasFailed(code) => StopSteady(n, false, ThenRefuse(d.handler.id, code, fits));
    case Closed => StopSteady(n, false, ThenRefuse(d.handler.id, "auth_failed", true));
    case Unexpected => StopSteady(Note(n, LExit), true, ThenExit);
  }

  lemma AskedSteady(d: Daemon, m: FromWorker, fits: bool)
    requires Wired(d) && Steady(d) && Awaited(d.handler).Some? && m.Asked? && (d.handler.FirstMessage? ==> d.cur.None?)
    ensures Wired(OnWorker(d, m, fits)) && Steady(OnWorker(d, m, fits))
  {
    var e := OnWorker(d, m, fits);
    forall s | 0 <= s < |e.sessions| && TimerCloses(e, s)
      ensures e.cur == Some(s) || Settles(e.sessions[s])
    {
      assert TimerCloses(d, s);
    }
  }

  lemma TimerSteady(d: Daemon, t: TimerId)
    requires Tidy(d) && Wired(d) && Steady(d) && t < |d.timers|
    ensures Wired(OnTimer(d, t)) && Steady(OnTimer(d, t))
  {
    hide OnTimer, Inv, Steady, ClosesFirst, NewestIsUnknown;
    InvPlaces(d);
    var timer := d.timers[t];
    if !timer.Armed() || timer.stage in {TNew, TBeforeWarning} {
      EarlySteady(d, t);
    } else if timer.stage.TClosing? {
      ExpiredSteady(d, t);
    } else if timer.stage.TCancelSent? {
      ClosingSteady(d, t);
    } else {
      DecidingSteady(d, t);
    }
  }

  lemma EarlySteady(d: Daemon, t: TimerId)
    requires Wired(d) && Steady(d) && t < |d.timers| && (!d.timers[t].Armed() || d.timers[t].stage in {TNew, TBeforeWarning})
    ensures Wired(OnTimer(d, t)) && Steady(OnTimer(d, t))
  {
    EarlyMoves(d, t);
    hide OnTimer, Settles;
    var e := OnTimer(d, t);
    forall s | 0 <= s < |e.sessions| && TimerCloses(e, s)
      ensures e.cur == Some(s) || Settles(e.sessions[s])
    {
      assert TimerCloses(d, s);
    }
  }

  lemma DecidingSteady(d: Daemon, t: TimerId)
    requires Wired(d) && Steady(d) && t < |d.timers| && d.timers[t].Armed() && d.timers[t].stage.TAfterWarning?
    ensures Wired(OnTimer(d, t)) && Steady(OnTimer(d, t))
  {
    DecidingMoves(d, t);
    hide OnTimer;
    var e := OnTimer(d, t);
    forall s | 0 <= s < |e.sessions| && TimerCloses(e, s)
      ensures e.cur == Some(s) || Settles(e.sessions[s])
    {
      if d.authTimer != Some(t) {
        assert TimerCloses(d, s);
      }
    }
  }

  lemma ClosingSteady(d: Daemon, t: TimerId)
    requires Wired(d) && Steady(d) && t < |d.timers| && d.timers[t].Armed() && d.timers[t].stage.TCancelSent?
    ensures Wired(OnTimer(d, t)) && Steady(OnTimer(d, t))
  {
    ClosingMoves(d, t);
    hide OnTimer;
    var e := OnTimer(d, t);
    forall s | 0 <= s < |e.sessions| && TimerCloses(e, s)
      ensures e.cur == Some(s) || Settles(e.sessions[s])
    {
      assert TimerCloses(d, s);
    }
  }

  lemma ExpiredSteady(d: Daemon, t: TimerId)
    requires Wired(d) && Steady(d) && ClosesFirst(d) && t < |d.timers| && d.timers[t].Armed() && d.timers[t].stage.TClosing?
    requires d.authTimer == Some(t)
    ensures Wired(OnTimer(d, t)) && Steady(OnTimer(d, t))
  {
    ExpiredMoves(d, t);
    hide OnTimer;
    assert d.sessions[d.timers[t].session].closed;
  }

  lemma SweepSteady(d: Daemon)
    requires Wired(d) && Steady(d) && ClosesFirst(d)
    requires d.cur.Some? ==> !Overtakes(d, SweepRuns, d.cur.value)
    ensures Wired(OnSweep(d)) && Steady(OnSweep(d))
  {
    hide OnSweep;
    if d.sweep.NotStarted? {
      SweepBeginsMoves(d);
    } else if d.sweep.SweepStopping? {
      SweepStopsMoves(d);
      SweepStopSteady(d);
    } else {
      SweepJoinsMoves(d);
      SteadyAlike(d, OnSweep(d));
    }
  }

  lemma SweepStopSteady(d: Daemon)
    requires Wired(d) && Steady(d) && ClosesFirst(d) && d.sweep.SweepStopping? && Wired(OnSweep(d))
    requires d.cur.Some? ==> !Overtakes(d, SweepRuns, d.cur.value)
    ensures Steady(OnSweep(d))
  {
    var e := OnSweep(d);
    forall s | 0 <= s < |e.sessions| && TimerCloses(e, s)
      ensures e.cur == Some(s) || Settles(e.sessions[s])
    {
      assert TimerCloses(d, s);
    }
  }

  lemma SweepJoinsMoves(d: Daemon)
    requires Wired(d) && !d.sweep.NotStarted? && !d.sweep.SweepStopping?
    ensures var e := OnSweep(d);
            Wired(e) && e == d.(sweep := e.sweep, open := e.open)
  {
  }

  lemma SteadyAlike(d: Daemon, e: Daemon)
    requires Wired(d) && Wired(e) && Steady(d)
    requires e == d.(sweep := e.sweep, open := e.open, out := e.out, log := e.log, handler := e.handler)
    requires e.handler == d.handler || !e.handler.Replying?
    ensures Steady(e)
  {
    forall s | 0 <= s < |e.sessions| && TimerCloses(e, s)
      ensures e.cur == Some(s) || Settles(e.sessions[s])
    {
      assert TimerCloses(d, s);
    }
  }

  lemma StopStepSteady(d: Daemon)
    requires Tidy(d) && Wired(d) && Steady(d) && d.handler.Stopping?
    ensures Wired(OnStop(d)) && Steady(OnStop(d))
  {
    InvPlaces(d);
    StopStepMoves(d);
    hide Inv, OnStop;
    NothingPending(OnStop(d));
  }

  lemma StopStepMoves(d: Daemon)
    requires Wired(d) && d.handler.Stopping?
    ensures Wired(OnStop(d)) && OnStop(d).authTimer == d.authTimer && !OnStop(d).handler.Replying?
  {
  }

  lemma OtherSteady(d: Daemon, l: Label)
    requires Wired(d) && Steady(d) && Enabled(d, l) && (l.LaunchContinues? || l.WriterCloses? || l.Broadcast?)
    ensures Wired(Step(d, l)) && Steady(Step(d, l))
  {
    hide Steady;
    OtherMoves(d, l);
    SteadySame(d, Step(d, l));
  }

  lemma SpawnSteady(d: Daemon)
    requires Wired(d) && Steady(d) && d.handler.Spawning?
    ensures Wired(OnSpawned(d)) && Steady(OnSpawned(d))
  {
    var e := OnSpawned(d);
    forall s | 0 <= s < |e.sessions| && TimerCloses(e, s)
      ensures e.cur == Some(s) || Settles(e.sessions[s])
    {
      assert TimerCloses(d, s);
    }
  }

  lemma ArmSteady(d: Daemon)
    requires Wired(d) && Steady(d) && d.handler.Arming?
    ensures Wired(OnArm(d)) && Steady(OnArm(d))
  {
    hide CancelTimeout;
    CancelFrame(d);
  }

  lemma StepSteady(d: Daemon, l: Label)
    requires Tidy(d) && Wired(d) && Steady(d) && Enabled(d, l)
    requires d.cur.Some? ==> !Overtakes(d, l, d.cur.value)
    ensures Wired(Step(d, l)) && Steady(Step(d, l))
  {
    hide Inv, Steady, ClosesFirst, NewestIsUnknown, OnRequest, Exit, OnSpawned, OnWorker, OnStop, OnArm, OnLaunch, OnTimer, OnSweep, Send;
    match l
    case Receive(r, fits) => RequestSteady(d, r, fits);
    case ReceiveEnd => ExitSteady(d);
    case WorkerFails => ExitSteady(d);
    case WorkerSpawned => SpawnSteady(d);
    case WorkerSays(m, fits) =>
      InvPlaces(d);
      WorkerSteady(d, m, fits);
    case StopContinues => StopStepSteady(d);
    case Arm => ArmSteady(d);
    case TimerRuns(t) => TimerSteady(d, t);
    case SweepRuns => SweepSteady(d);
    case _ => OtherSteady(d, l);
  }

  lemma ExitSteady(d: Daemon)
    requires Wired(d)
    ensures Wired(Exit(d)) && Steady(Exit(d))
  {
    hide StopSession, Steady;
    ExitFrame(d);
    StopSteady(Note(d, LExit), true, ThenExit);
  }

  lemma {:induction false} RunIsSteady(timeout: int, states: seq<Daemon>, labels: seq<Label>, n: nat)
    requires Run(timeout, states, labels) && n < |states| && forall m | 0 <= m < n :: !OvertakesAt(states, labels, m)
    ensures Wired(states[n]) && Steady(states[n])
  {
    hide Tidy, Step, Enabled, Wired, Steady, Overtakes;
    if n == 0 {
      InitSteady(timeout);
    } else {
      RunIsSteady(timeout, states, labels, n - 1);
      RunIsTidy(timeout, states, labels, n - 1);
      assert Steps(states, labels, n - 1);
      assert !OvertakesAt(states, labels, n - 1);
      StepSteady(states[n - 1], labels[n - 1]);
    }
  }

  lemma InitSteady(timeout: int)
    ensures Wired(Init(timeout)) && Steady(Init(timeout))
  {
  }

  /**
   * As long as shutdown overtakes nobody, the sessions that nobody is going to settle are exactly those
   * whose first message met an exception.
   */
  lemma LostExactly(timeout: int, states: seq<Daemon>, labels: seq<Label>, n: nat, s: SessionId)
    requires Run(timeout, states, labels) && n < |states| && s < |states[n].sessions|
    requires forall m | 0 <= m < n :: !OvertakesAt(states, labels, m)
    ensures Wired(states[n]) && (Orphan(states[n], s) <==> exists m :: 0 <= m < n && LosesAt(states, labels, m, s))
  {
    hide Orphan, Abandons, Loses, OvertakesAt;
    OrphansExactly(timeout, states, labels, n, s);
    forall m | 0 <= m < n
      ensures AbandonedAt(states, labels, m, s) <==> LosesAt(states, labels, m, s)
    {
      RunIsSteady(timeout, states, labels, m);
      RunIsTidy(timeout, states, labels, m);
      AbandonsIsLoses(timeout, states, labels, m, s);
    }
  }

  lemma AbandonsIsLoses(timeout: int, states: seq<Daemon>, labels: seq<Label>, m: nat, s: SessionId)
    requires Run(timeout, states, labels) && m < |labels| && !OvertakesAt(states, labels, m)
    requires Wired(states[m]) && Tidy(states[m]) && Steady(states[m])
    ensures AbandonedAt(states, labels, m, s) <==> LosesAt(states, labels, m, s)
  {
    hide Inv, ClosesFirst, NewestIsUnknown, Steady, Abandons, Step;
    if s < |states[m].sessions| {
      SteadyLoses(states[m], labels[m], s);
    }
  }

  lemma {:induction false} NotStartedBefore(timeout: int, states: seq<Daemon>, labels: seq<Label>, m: nat, n: nat)
    requires Run(timeout, states, labels) && m <= n < |states| && states[n].sweep.NotStarted?
    ensures states[m].sweep.NotStarted?
    decreases n
  {
    hide Step, Enabled, Wired;
    if m < n {
      assert Steps(states, labels, n - 1);
      AuthAgreement.NeverReturns(states[n - 1], labels[n - 1]);
      NotStartedBefore(timeout, states, labels, m, n - 1);
    }
  }

  /**
   * Until shutdown begins every worker ever started is finished, or the client's current one, or waited
   * for, or being closed, except exactly those whose first message met an exception.
   */
  lemma NoWorkerIsForgotten(timeout: int, states: seq<Daemon>, labels: seq<Label>, n: nat, s: SessionId)
    requires Run(timeout, states, labels) && n < |states| && s < |states[n].sessions| && states[n].sweep.NotStarted?
    ensures Wired(states[n]) && (Orphan(states[n], s) <==> exists m :: 0 <= m < n && LosesAt(states, labels, m, s))
  {
    hide Orphan, Loses;
    forall m | 0 <= m < n
      ensures !OvertakesAt(states, labels, m)
    {
      NotStartedBefore(timeout, states, labels, m, n);
    }
    LostExactly(timeout, states, labels, n, s);
  }

  /** When shutdown has joined the client's task and overtook nobody, only those workers are unfinished. */
  lemma JoinedSettlesUnlessLost(timeout: int, states: seq<Daemon>, labels: seq<Label>, n: nat, s: SessionId)
    requires Run(timeout, states, labels) && n < |states| && states[n].sweep.Joined? && s < |states[n].sessions|
    requires forall m | 0 <= m < n :: !OvertakesAt(states, labels, m)
    ensures Settles(states[n].sessions[s]) <==> !exists m :: 0 <= m < n && LosesAt(states, labels, m, s)
  {
    hide Run, Orphan, Settles, LosesAt, OvertakesAt, Inv;
    AuthTheorems.RunKeeps(timeout, states, labels, n);
    LostExactly(timeout, states, labels, n, s);
    JoinedHoldsNothing(states[n], s);
  }

  /** A worker lost in that way is unfinished, and stays so for good, shutdown or not. */
  lemma LostForGood(timeout: int, states: seq<Daemon>, labels: seq<Label>, m: nat, n: nat, s: SessionId)
    requires Run(timeout, states, labels) && m < n < |states| && LosesAt(states, labels, m, s)
    ensures Wired(states[n]) && s < |states[n].sessions| && Orphan(states[n], s) && !Settles(states[n].sessions[s])
  {
    hide Orphan, Step;
    RunIsTidy(timeout, states, labels, m);
    assert Steps(states, labels, m);
    LosesAbandons(states[m], labels[m], s);
    SessionsGrow(timeout, states, labels, m, n);
    assert AbandonedAt(states, labels, m, s);
    OrphansExactly(timeout, states, labels, n, s);
    OrphanIsUnsettled(states[n], s);
  }

  lemma LosesAbandons(d: Daemon, l: Label, s: SessionId)
    requires Tidy(d) && Wired(d) && Loses(d, l, s)
    ensures s < |d.sessions| && Abandons(d, l, s)
  {
    hide Inv, ClosesFirst;
  }

  lemma OrphanIsUnsettled(d: Daemon, s: SessionId)
    requires Wired(d) && s < |d.sessions| && Orphan(d, s)
    ensures !Settles(d.sessions[s])
  {
  }
}
