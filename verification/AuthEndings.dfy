/**
 * How sessions end: what a request, a failure, an expiry or shutdown leaves behind of the session it
 * ends, and which prompts are being timed.
 */
module AuthEndings {
  import opened Wrappers
  import opened AuthMachine
  import opened AuthInvariants
  import opened SizeBounds
  import AuthTheorems
  import Utf8

  // ---------- no worker is cut off ----------

  /** The worker was told to cancel. */
  predicate WasTold(s: Session) {
    Cancel in s.sent
  }

  /** The worker ended the conversation itself. */
  predicate EndedItself(s: Session) {
    exists k :: 0 <= k < |s.received| && (s.received[k].HasFailed? || s.received[k].Closed?)
  }

  predicate ClosedOk(s: Session) {
    s.closed ==> WasTold(s) || EndedItself(s)
  }

  /** What holds of the sessions that shutdown and the timeout tasks are ending. */
  predicate ToldApart(d: Daemon)
    requires Wired(d)
  {
    && (forall s | 0 <= s < |d.sessions| :: ClosedOk(d.sessions[s]))
    && (d.sweep.SweepStopping? ==>
          WasTold(d.sessions[d.sweep.target]) && (d.sweep.stage.ChannelClosed? ==> d.sessions[d.sweep.target].closed))
    && (forall t | 0 <= t < |d.timers| && d.timers[t].stage in {TCancelSent, TClosing} ::
          && WasTold(d.sessions[d.timers[t].session])
          && (d.timers[t].stage.TClosing? ==> d.sessions[d.timers[t].session].closed))
  }

  predicate StoppingOk(d: Daemon)
    requires Wired(d)
  {
    d.handler.Stopping? ==>
      var s := d.sessions[d.handler.target];
      && (if d.handler.after.ThenRefuse? then EndedItself(s) && d.handler.stage.ChannelClosed? else WasTold(s))
      && (d.handler.stage.ChannelClosed? ==> s.closed)
  }

  predicate Told(d: Daemon)
    requires Wired(d)
  {
    ToldApart(d) && StoppingOk(d)
  }

  /** Nothing that was written, read or closed is undone. */
  predicate Grows(d: Daemon, e: Daemon) {
    && |d.sessions| <= |e.sessions|
    && forall s | 0 <= s < |d.sessions| ::
         && d.sessions[s].sent <= e.sessions[s].sent && d.sessions[s].received <= e.sessions[s].received
         && (d.sessions[s].closed ==> e.sessions[s].closed)
  }

  lemma GrownTold(s: Session, t: Session)
    requires s.sent <= t.sent && s.received <= t.received
    ensures WasTold(s) ==> WasTold(t)
    ensures EndedItself(s) ==> EndedItself(t)
  {
    if EndedItself(s) {
      var k :| 0 <= k < |s.received| && (s.received[k].HasFailed? || s.received[k].Closed?);
      assert t.received[k] == s.received[k];
    }
  }

  /** Sessions only grew, nothing else was closed, and no task got further: everything told stays told. */
  lemma ApartStays(d: Daemon, e: Daemon)
    requires Wired(d) && Wired(e) && ToldApart(d) && Grows(d, e) && e.sweep == d.sweep
    requires forall s | 0 <= s < |e.sessions| && e.sessions[s].closed ::
               ClosedOk(e.sessions[s]) || (s < |d.sessions| && d.sessions[s].closed)
    requires forall t | 0 <= t < |e.timers| && e.timers[t].stage in {TCancelSent, TClosing} ::
               t < |d.timers| && d.timers[t].session == e.timers[t].session && d.timers[t].stage == e.timers[t].stage
    ensures ToldApart(e)
  {
    hide WasTold, EndedItself;
    forall s | 0 <= s < |d.sessions|
      ensures WasTold(d.sessions[s]) ==> WasTold(e.sessions[s])
      ensures EndedItself(d.sessions[s]) ==> EndedItself(e.sessions[s])
    {
      GrownTold(d.sessions[s], e.sessions[s]);
    }
  }

  lemma CancelGrows(d: Daemon)
    requires Wired(d)
    ensures var c := CancelTimeout(d);
            && Wired(c) && c == d.(timers := c.timers, authTimer := None) && AuthTheorems.SameStages(d, c)
  {
  }

  lemma CancelTold(d: Daemon)
    requires Wired(d) && ToldApart(d)
    ensures Wired(CancelTimeout(d)) && ToldApart(CancelTimeout(d))
  {
    hide CancelTimeout, ClosedOk, WasTold;
    CancelGrows(d);
    ApartStays(d, CancelTimeout(d));
  }

  lemma WriteTold(d: Daemon, s: SessionId, m: ToWorker)
    requires Wired(d) && s < |d.sessions| && ToldApart(d)
    ensures var e := Write(d, s, m);
            Wired(e) && ToldApart(e) && Grows(d, e) && (m.Cancel? ==> WasTold(e.sessions[s]))
  {
    hide WasTold, EndedItself;
    GrownTold(d.sessions[s], Write(d, s, m).sessions[s]);
    Appended(d.sessions[s].sent, m);
    ApartStays(d, Write(d, s, m));
    assert Write(d, s, m).sessions[s].sent == d.sessions[s].sent + [m];
    if m.Cancel? {
      CancelIn(d.sessions[s].sent, Write(d, s, m).sessions[s]);
    }
  }

  lemma CancelIn(sent: seq<ToWorker>, s: Session)
    requires s.sent == sent + [Cancel]
    ensures WasTold(s)
  {
    assert s.sent[|sent|] == Cancel;
  }

  lemma Appended(sent: seq<ToWorker>, m: ToWorker)
    ensures sent <= sent + [m]
  {
  }

  lemma CloseTold(d: Daemon, s: SessionId)
    requires Wired(d) && s < |d.sessions| && ToldApart(d) && (WasTold(d.sessions[s]) || EndedItself(d.sessions[s]))
    ensures var e := Close(d, s);
            Wired(e) && ToldApart(e) && Grows(d, e)
  {
    hide WasTold, EndedItself;
    GrownTold(d.sessions[s], Close(d, s).sessions[s]);
    ApartStays(d, Close(d, s));
  }

  lemma SetHandlerTold(d: Daemon, e: Daemon)
    requires Wired(d) && Wired(e) && ToldApart(d) && e.sessions == d.sessions && e.timers == d.timers && e.sweep == d.sweep
    ensures ToldApart(e)
  {
  }

  /** Ending the current session, after telling its worker unless the worker ended itself. */
  lemma StopTold(d: Daemon, sendCancel: bool, after: After)
    requires Wired(d) && ToldApart(d) && (sendCancel <==> !after.ThenRefuse?)
    requires !sendCancel && d.cur.Some? ==> EndedItself(d.sessions[d.cur.value])
    ensures var e := StopSession(d, sendCancel, after);
            Wired(e) && Told(e)
  {
    hide CancelTimeout, WasTold, EndedItself, ToldApart;
    CancelGrows(d);
    CancelTold(d);
    var c := CancelTimeout(d);
    var e := StopSession(d, sendCancel, after);
    if c.cur.None? {
      SetHandlerTold(c, e);
    } else if sendCancel {
      WriteTold(c, c.cur.value, Cancel);
      SetHandlerTold(Write(c, c.cur.value, Cancel), e);
    } else {
      CloseTold(c, c.cur.value);
      GrownTold(c.sessions[c.cur.value], e.sessions[c.cur.value]);
      SetHandlerTold(Close(c, c.cur.value), e);
    }
  }

  lemma CreateTold(d: Daemon, r: Request, fits: bool)
    requires Wired(d) && d.handler.Idle? && ToldApart(d) && r.body.Create?
    ensures Wired(OnRequest(d, r, fits)) && Told(OnRequest(d, r, fits))
  {
    hide StopSession, Utf8.DecodeReplace, AuthFieldIsTooLong, ToldApart;
    var user := Utf8.DecodeReplace(r.body.username);
    var n := Note(d.(requests := d.requests + [r.id]), LAccept(user, r.id));
    SetHandlerTold(d, n);
    if AuthFieldIsTooLong(r.body.username) || n.cur.None? {
      SetHandlerTold(d, OnRequest(d, r, fits));
    } else {
      StopTold(n, true, ThenCreate(r.id, user));
    }
  }

  lemma ContinueTold(d: Daemon, r: Request, fits: bool)
    requires Wired(d) && d.handler.Idle? && ToldApart(d) && r.body.Continue?
    ensures Wired(OnRequest(d, r, fits)) && Told(OnRequest(d, r, fits))
  {
    hide AuthFieldIsTooLong, ToldApart;
    var n := d.(requests := d.requests + [r.id]);
    var e := OnRequest(d, r, fits);
    SetHandlerTold(d, n);
    if e.handler.Replying? {
      WriteTold(n, n.cur.value, Answer(r.body.response, r.body.shown, r.id));
      SetHandlerTold(Write(n, n.cur.value, Answer(r.body.response, r.body.shown, r.id)), e);
    } else {
      SetHandlerTold(n, e);
    }
  }

  lemma StartTold(d: Daemon, r: Request, fits: bool)
    requires Wired(d) && d.handler.Idle? && ToldApart(d) && r.body.StartSession?
    ensures Wired(OnRequest(d, r, fits)) && Told(OnRequest(d, r, fits))
  {
    hide CancelTimeout, ToldApart;
    var n := d.(requests := d.requests + [r.id]);
    SetHandlerTold(d, n);
    CancelGrows(n);
    CancelTold(n);
    if OnRequest(d, r, fits).handler.Launching? {
      SetHandlerTold(CancelTimeout(n), OnRequest(d, r, fits));
    } else {
      SetHandlerTold(n, OnRequest(d, r, fits));
    }
  }

  lemma RequestTold(d: Daemon, r: Request, fits: bool)
    requires Wired(d) && d.handler.Idle? && ToldApart(d)
    ensures Wired(OnRequest(d, r, fits)) && Told(OnRequest(d, r, fits))
  {
    match r.body
    case Create(_) => CreateTold(d, r, fits);
    case Continue(_, _) => ContinueTold(d, r, fits);
    case StartSession(_) => StartTold(d, r, fits);
    case CancelSession =>
      hide StopSession, ToldApart;
      var n := Note(d.(requests := d.requests + [r.id]), LCancel);
      SetHandlerTold(d, n);
      StopTold(n, true, ThenAccept(r.id));
    case Query => SetHandlerTold(d, OnRequest(d, r, fits));
  }

  lemma HeardTold(d: Daemon, m: FromWorker)
    requires Inv(d) && Awaited(d.handler).Some?
    ensures Wired(d)
    ensures ToldApart(d) ==> Wired(Heard(d, m)) && ToldApart(Heard(d, m))
    ensures (m.HasFailed? || m.Closed?) && Heard(d, m).cur.Some? ==> EndedItself(Heard(d, m).sessions[Heard(d, m).cur.value])
  {
    hide ChannelOk, TimerOk, SpawnsAreAuthorized, LogOk, ResponsesOk, ChannelsOk, TimersOk, WasTold, EndedItself;
    var s := Awaited(d.handler).value;
    var n := Heard(d, m);
    assert n.sessions[s].received == d.sessions[s].received + [m];
    GrownTold(d.sessions[s], n.sessions[s]);
    if m.HasFailed? || m.Closed? {
      LastEnds(d.sessions[s].received, m, n.sessions[s]);
    }
    if ToldApart(d) {
      ApartStays(d, n);
    }
  }

  lemma LastEnds(received: seq<FromWorker>, m: FromWorker, s: Session)
    requires s.received == received + [m] && (m.HasFailed? || m.Closed?)
    ensures EndedItself(s)
  {
    assert s.received[|received|] == m;
  }

  lemma WorkerTold(d: Daemon, m: FromWorker, fits: bool)
    requires Inv(d) && Wired(d) && Awaited(d.handler).Some? && ToldApart(d)
    ensures Wired(OnWorker(d, m, fits)) && Told(OnWorker(d, m, fits))
  {
    hide Inv, StopSession, CancelTimeout, ToldApart, Heard, EndedItself;
    var n := Heard(d, m);
    var e := OnWorker(d, m, fits);
    HeardTold(d, m);
    OnWorkerIs(d, m, fits);
    match m
    case Asked(_) => SetHandlerTold(n, e);
    case IsReady =>
      CancelGrows(n);
      CancelTold(n);
      SetHandlerTold(CancelTimeout(n), e);
    case HasFailed(code) => StopTold(n, false, ThenRefuse(d.handler.id, code, fits));
    case Closed => StopTold(n, false, ThenRefuse(d.handler.id, "auth_failed", true));
    case Unexpected =>
      SetHandlerTold(n, Note(n, LExit));
      StopTold(Note(n, LExit), true, ThenExit);
  }

  lemma OnWorkerIs(d: Daemon, m: FromWorker, fits: bool)
    requires Wired(d) && Awaited(d.handler).Some?
    ensures var n := Heard(d, m);
            Wired(n) && OnWorker(d, m, fits) ==
            match m
            case Asked(prompt) => Send(n, Response(d.handler.id, Pending(prompt)), fits).(handler := Arming(Awaited(d.handler).value))
            case IsReady =>
              Note(Send(CancelTimeout(n), Response(d.handler.id, Ready), true), LReady(d.sessions[Awaited(d.handler).value].user))
                .(handler := Idle)
            case HasFailed(code) => StopSession(n, false, ThenRefuse(d.handler.id, code, fits))
            case Closed => StopSession(n, false, ThenRefuse(d.handler.id, "auth_failed", true))
            case Unexpected => StopSession(Note(n, LExit), true, ThenExit)
  {
    hide StopSession, CancelTimeout;
  }

  lemma StopStepTold(d: Daemon)
    requires Wired(d) && d.handler.Stopping? && Told(d)
    ensures Wired(OnStop(d)) && Told(OnStop(d))
  {
    hide ToldApart, WasTold, EndedItself;
    if d.handler.stage.CancelWritten? {
      var c := Close(d, d.handler.target);
      CloseTold(d, d.handler.target);
      GrownTold(d.sessions[d.handler.target], c.sessions[d.handler.target]);
      SetHandlerTold(c, OnStop(d));
    } else {
      SetHandlerTold(d, OnStop(d));
    }
  }

  /** A timeout task writes cancel before it closes its session's channel. */
  lemma TimerTold(d: Daemon, t: TimerId)
    requires Wired(d) && t < |d.timers| && ToldApart(d)
    ensures Wired(OnTimer(d, t)) && ToldApart(OnTimer(d, t)) && Grows(d, OnTimer(d, t)) && OnTimer(d, t).handler == d.handler
  {
    hide OnTimer, ToldApart, WasTold;
    var timer := d.timers[t];
    var s := timer.session;
    var e := OnTimer(d, t);
    TimerTouches(d, t);
    if timer.Armed() && timer.stage.TAfterWarning? && IsCurrent(d, s) {
      WriteTold(d, s, Cancel);
      SetTimerTold(Write(d, s, Cancel), e, t);
    } else if timer.Armed() && timer.stage.TCancelSent? {
      ToldTimer(d, t);
      CloseTold(d, s);
      GrownTold(d.sessions[s], Close(d, s).sessions[s]);
      SetTimerTold(Close(d, s), e, t);
    } else {
      SetTimerTold(d, e, t);
    }
  }

  /** What one step of a timeout task does to sessions and tasks. */
  lemma TimerTouches(d: Daemon, t: TimerId)
    requires Wired(d) && t < |d.timers|
    ensures var timer, e := d.timers[t], OnTimer(d, t);
            && Wired(e) && e.handler == d.handler && e.sweep == d.sweep
            && e.timers == d.timers[t := e.timers[t]] && e.timers[t].session == timer.session
            && (if timer.Armed() && timer.stage.TAfterWarning? && IsCurrent(d, timer.session) then
                  e.sessions == Write(d, timer.session, Cancel).sessions && e.timers[t].stage.TCancelSent?
                else if timer.Armed() && timer.stage.TCancelSent? then
                  e.sessions == Close(d, timer.session).sessions && e.timers[t].stage.TClosing?
                else e.sessions == d.sessions && e.timers[t].stage !in {TCancelSent, TClosing})
  {
    hide OnTimer;
    if !d.timers[t].Armed() || d.timers[t].stage in {TNew, TBeforeWarning} {
      WaitingTouches(d, t);
    } else {
      EndingTouches(d, t);
    }
  }

  lemma WaitingTouches(d: Daemon, t: TimerId)
    requires Wired(d) && t < |d.timers| && (!d.timers[t].Armed() || d.timers[t].stage in {TNew, TBeforeWarning})
    ensures var e := OnTimer(d, t);
            && Wired(e) && e.handler == d.handler && e.sweep == d.sweep && e.sessions == d.sessions
            && e.timers == d.timers[t := e.timers[t]] && e.timers[t].session == d.timers[t].session
            && e.timers[t].stage !in {TCancelSent, TClosing}
  {
    hide WarningDelay;
  }

  lemma EndingTouches(d: Daemon, t: TimerId)
    requires Wired(d) && t < |d.timers| && d.timers[t].Armed() && d.timers[t].stage in {TAfterWarning, TCancelSent, TClosing}
    ensures var timer, e := d.timers[t], OnTimer(d, t);
            && Wired(e) && e.handler == d.handler && e.sweep == d.sweep
            && e.timers == d.timers[t := e.timers[t]] && e.timers[t].session == timer.session
            && (if timer.stage.TAfterWarning? && IsCurrent(d, timer.session) then
                  e.sessions == Write(d, timer.session, Cancel).sessions && e.timers[t].stage.TCancelSent?
                else if timer.stage.TCancelSent? then
                  e.sessions == Close(d, timer.session).sessions && e.timers[t].stage.TClosing?
                else e.sessions == d.sessions && e.timers[t].stage !in {TCancelSent, TClosing})
  {
    hide WarningDelay;
  }

  lemma ToldTimer(d: Daemon, t: TimerId)
    requires Wired(d) && t < |d.timers| && ToldApart(d) && d.timers[t].stage in {TCancelSent, TClosing}
    ensures WasTold(d.sessions[d.timers[t].session])
    ensures d.timers[t].stage.TClosing? ==> d.sessions[d.timers[t].session].closed
  {
  }

  /** One task moved, to a place that its session is fit for. */
  lemma SetTimerTold(d: Daemon, e: Daemon, t: TimerId)
    requires Wired(d) && Wired(e) && t < |d.timers| && ToldApart(d) && e.sessions == d.sessions && e.sweep == d.sweep
    requires |e.timers| == |d.timers| && e.timers[t].session == d.timers[t].session
    requires forall u | 0 <= u < |d.timers| && u != t :: e.timers[u] == d.timers[u]
    requires e.timers[t].stage.TCancelSent? ==> WasTold(d.sessions[d.timers[t].session])
    requires e.timers[t].stage.TClosing? ==> WasTold(d.sessions[d.timers[t].session]) && d.sessions[d.timers[t].session].closed
    ensures ToldApart(e)
  {
    hide WasTold, ClosedOk;
  }

  lemma SweepTold(d: Daemon)
    requires Wired(d) && ToldApart(d)
    ensures Wired(OnSweep(d)) && ToldApart(OnSweep(d)) && Grows(d, OnSweep(d)) && OnSweep(d).handler == d.handler
  {
    match d.sweep
    case NotStarted => SweepBeginTold(d);
    case SweepStopping(s, CancelWritten) =>
      hide ToldApart, WasTold, EndedItself, Grows;
      ToldSweep(d);
      CloseTold(d, s);
      GrownTold(d.sessions[s], Close(d, s).sessions[s]);
      SetSweepTold(Close(d, s), OnSweep(d));
    case _ =>
      hide ToldApart;
      SetSweepTold(d, OnSweep(d));
  }

  lemma SweepBeginTold(d: Daemon)
    requires Wired(d) && ToldApart(d) && d.sweep.NotStarted?
    ensures Wired(OnSweep(d)) && ToldApart(OnSweep(d)) && Grows(d, OnSweep(d)) && OnSweep(d).handler == d.handler
  {
    hide CancelTimeout, ToldApart, WasTold, EndedItself;
    CancelGrows(d);
    CancelTold(d);
    var c := CancelTimeout(d);
    if c.cur.Some? {
      WriteTold(c, c.cur.value, Cancel);
      SetSweepTold(Write(c, c.cur.value, Cancel), OnSweep(d));
    } else {
      SetSweepTold(c, OnSweep(d));
    }
  }

  lemma ToldSweep(d: Daemon)
    requires Wired(d) && ToldApart(d) && d.sweep.SweepStopping?
    ensures WasTold(d.sessions[d.sweep.target])
  {
  }

  lemma SetSweepTold(d: Daemon, e: Daemon)
    requires Wired(d) && Wired(e) && ToldApart(d) && e.sessions == d.sessions && e.timers == d.timers
    requires e.sweep.SweepStopping? ==>
               WasTold(d.sessions[e.sweep.target]) && (e.sweep.stage.ChannelClosed? ==> d.sessions[e.sweep.target].closed)
    ensures ToldApart(e)
  {
  }

  lemma StoppingStays(d: Daemon, e: Daemon)
    requires Wired(d) && Wired(e) && StoppingOk(d) && Grows(d, e) && e.handler == d.handler
    ensures StoppingOk(e)
  {
    hide WasTold, EndedItself;
    if d.handler.Stopping? {
      GrownTold(d.sessions[d.handler.target], e.sessions[d.handler.target]);
    }
  }

  lemma OtherTold(d: Daemon, l: Label)
    requires Wired(d) && Enabled(d, l) && Told(d)
    requires l.WorkerSpawned? || l.Arm? || l.LaunchContinues? || l.WriterCloses? || l.Broadcast?
    ensures Wired(Step(d, l)) && Told(Step(d, l))
  {
    hide CancelTimeout, ToldApart, WasTold, EndedItself;
    CancelGrows(d);
    CancelTold(d);
    var e := Step(d, l);
    if l.WorkerSpawned? {
      SpawnTold(d);
    } else if l.Arm? {
      ArmTold(d);
    } else {
      SetHandlerTold(d, e);
    }
  }

  lemma SpawnTold(d: Daemon)
    requires Wired(d) && d.handler.Spawning? && ToldApart(d)
    ensures Wired(OnSpawned(d)) && ToldApart(OnSpawned(d))
  {
    hide WasTold, EndedItself;
    ApartStays(d, OnSpawned(d));
  }

  lemma ArmTold(d: Daemon)
    requires Wired(d) && d.handler.Arming? && ToldApart(d)
    ensures Wired(OnArm(d)) && ToldApart(OnArm(d))
  {
    hide WasTold, EndedItself, CancelTimeout;
    CancelGrows(d);
    ApartStays(d, OnArm(d));
  }

  lemma StepTold(d: Daemon, l: Label)
    requires Inv(d) && Wired(d) && Enabled(d, l) && Told(d)
    ensures Wired(Step(d, l)) && Told(Step(d, l))
  {
    hide Inv, ToldApart, StoppingOk, OnRequest, OnWorker, OnStop, OnTimer, OnSweep, StopSession;
    match l
    case Receive(r, fits) => RequestTold(d, r, fits);
    case WorkerSays(m, fits) => WorkerTold(d, m, fits);
    case ReceiveEnd => ExitTold(d);
    case WorkerFails => ExitTold(d);
    case StopContinues => StopStepTold(d);
    case TimerRuns(t) =>
      TimerTold(d, t);
      StoppingStays(d, OnTimer(d, t));
    case SweepRuns =>
      SweepTold(d);
      StoppingStays(d, OnSweep(d));
    case _ => OtherTold(d, l);
  }

  lemma ExitTold(d: Daemon)
    requires Wired(d) && ToldApart(d)
    ensures Wired(Exit(d)) && Told(Exit(d))
  {
    hide StopSession, ToldApart;
    SetHandlerTold(d, Note(d, LExit));
    StopTold(Note(d, LExit), true, ThenExit);
  }

  lemma InitTold(timeout: int)
    ensures Wired(Init(timeout)) && Told(Init(timeout))
  {
  }

  lemma {:induction false} RunTold(timeout: int, states: seq<Daemon>, labels: seq<Label>, n: nat)
    requires Run(timeout, states, labels) && n < |states|
    ensures Inv(states[n]) && Wired(states[n]) && Told(states[n])
  {
    hide Inv, Told, Step, Enabled, Wired;
    if n == 0 {
      InitTold(timeout);
      AuthTheorems.InitInv(timeout);
    } else {
      RunTold(timeout, states, labels, n - 1);
      assert Steps(states, labels, n - 1);
      StepTold(states[n - 1], labels[n - 1]);
      AuthTheorems.StepKeeps(states[n - 1], labels[n - 1]);
    }
  }

  /** In every state, a worker whose channel the daemon has closed was told to cancel first, or had ended itself. */
  lemma NoWorkerIsCutOff(timeout: int, states: seq<Daemon>, labels: seq<Label>, n: nat, s: SessionId)
    requires Run(timeout, states, labels) && n < |states| && s < |states[n].sessions| && states[n].sessions[s].closed
    ensures WasTold(states[n].sessions[s]) || EndedItself(states[n].sessions[s])
  {
    hide Run, Inv, WasTold, EndedItself;
    RunTold(timeout, states, labels, n);
    assert ClosedOk(states[n].sessions[s]);
  }

  // ---------- what ending a session leaves behind ----------

  /** The label ends session `s`: replaced, cancelled, failed, or left when the client or the worker breaks off. */
  predicate Ends(d: Daemon, l: Label, s: SessionId)
    requires Wired(d) && Enabled(d, l)
  {
    match l
    case Receive(Request(_, Create(username)), _) => d.cur == Some(s) && |username| <= 256
    case Receive(Request(_, CancelSession), _) => d.cur == Some(s)
    case ReceiveEnd => d.cur == Some(s)
    case WorkerFails => d.cur == Some(s)
    case WorkerSays(m, _) =>
      && (m.HasFailed? || m.Closed? || m.Unexpected?)
      && Awaited(d.handler) == Some(s) && (d.handler.FirstMessage? || d.cur == Some(s))
    case _ => false
  }

  /** What is left to do when the session has been ended. */
  function NextUp(d: Daemon, l: Label): After
    requires Wired(d) && Enabled(d, l)
  {
    match l
    case Receive(Request(id, Create(username)), _) => ThenCreate(id, Utf8.DecodeReplace(username))
    case Receive(Request(id, CancelSession), _) => ThenAccept(id)
    case WorkerSays(HasFailed(code), fits) => ThenRefuse(d.handler.id, code, fits)
    case WorkerSays(Closed, _) => ThenRefuse(d.handler.id, "auth_failed", true)
    case _ => ThenExit
  }

  lemma StopBegins(d: Daemon, sendCancel: bool, after: After, s: SessionId)
    requires Wired(d) && d.cur == Some(s)
    ensures StopSession(d, sendCancel, after).handler == Stopping(s, if sendCancel then CancelWritten else ChannelClosed, after)
  {
    hide CancelTimeout;
    CancelGrows(d);
  }

  lemma EndBegins(d: Daemon, l: Label, s: SessionId)
    requires Wired(d) && Enabled(d, l) && Ends(d, l, s)
    ensures var h := Step(d, l).handler;
            h.Stopping? && h.target == s && h.after == NextUp(d, l)
  {
    hide StopSession, Utf8.DecodeReplace, OnWorker, CancelTimeout;
    match l
    case Receive(r, _) =>
      var n := d.(requests := d.requests + [r.id]);
      if r.body.Create? {
        var user := Utf8.DecodeReplace(r.body.username);
        StopBegins(Note(n, LAccept(user, r.id)), true, ThenCreate(r.id, user), s);
      } else {
        StopBegins(Note(n, LCancel), true, ThenAccept(r.id), s);
      }
    case WorkerSays(m, fits) =>
      OnWorkerIs(d, m, fits);
      var n := Heard(d, m);
      if m.Unexpected? {
        StopBegins(Note(n, LExit), true, ThenExit, s);
      } else {
        StopBegins(n, false, NextUp(d, l), s);
      }
    case _ => StopBegins(Note(d, LExit), true, ThenExit, s);
  }

  /** The handler goes on ending a session until the channel is closed and the reference cleared. */
  lemma EndGoesOn(d: Daemon, l: Label)
    requires Wired(d) && Enabled(d, l) && d.handler.Stopping?
    ensures var e := Step(d, l);
            if e.handler.Stopping? then e.handler.target == d.handler.target && e.handler.after == d.handler.after
            else
              && l.StopContinues? && d.handler.stage.ChannelClosed?
              && e.cur.None? && e.authTimer == d.authTimer && e.sessions == d.sessions
              && match d.handler.after
                 case ThenCreate(id, user) => e.handler == Spawning(id, user) && e.out == d.out
                 case ThenAccept(id) => e.handler == Idle && e.out == d.out + [Sent(Response(id, Done), d.open)]
                 case ThenRefuse(id, code, fits) =>
                   e.handler == Idle && e.out == d.out + [Sent(Response(id, Refused(code)), d.open && fits)]
                 case ThenExit => e.handler == Gone && !e.open && e.out == d.out
  {
    hide OnTimer, OnSweep;
    match l
    case TimerRuns(t) => TimerTouches(d, t);
    case SweepRuns => AuthTheorems.SweepKeepsPlace(d);
    case _ =>
  }

  /** From label `m` on the handler has been ending a session, until state `n`. */
  predicate EndedBy(states: seq<Daemon>, m: nat, n: nat) {
    && m < n < |states| && !states[n].handler.Stopping?
    && forall k | m < k < n :: states[k].handler.Stopping?
  }

  lemma {:induction false} Ending(timeout: int, states: seq<Daemon>, labels: seq<Label>, m: nat, k: nat, s: SessionId)
    requires Run(timeout, states, labels) && m < k < |states|
    requires Wired(states[m]) && Enabled(states[m], labels[m]) && Ends(states[m], labels[m], s)
    requires forall j | m < j < k :: states[j].handler.Stopping?
    requires states[k].handler.Stopping?
    ensures states[k].handler.target == s && states[k].handler.after == NextUp(states[m], labels[m])
    decreases k
  {
    hide Step, Enabled, Wired, Ends, NextUp;
    assert Steps(states, labels, k - 1);
    if k == m + 1 {
      EndBegins(states[m], labels[m], s);
    } else {
      Ending(timeout, states, labels, m, k - 1, s);
      EndGoesOn(states[k - 1], labels[k - 1]);
    }
  }

  /** What the request or the worker's end led to, when the session was ended from `c` to `e`. */
  predicate Concluded(d: Daemon, l: Label, c: Daemon, e: Daemon)
    requires Wired(d) && Enabled(d, l)
  {
    match l
    case Receive(Request(id, Create(username)), _) => e.handler == Spawning(id, Utf8.DecodeReplace(username)) && e.out == c.out
    case Receive(Request(id, CancelSession), _) => e.handler == Idle && e.out == c.out + [Sent(Response(id, Done), c.open)]
    case WorkerSays(HasFailed(code), fits) =>
      e.handler == Idle && e.out == c.out + [Sent(Response(d.handler.id, Refused(code)), c.open && fits)]
    case WorkerSays(Closed, _) =>
      e.handler == Idle && e.out == c.out + [Sent(Response(d.handler.id, Refused("auth_failed")), c.open)]
    case _ => e.handler == Gone && !e.open && e.out == c.out
  }

  /**
   * Whatever ends a session leaves no current session, no registered timeout, and a closed channel, with
   * cancel written to it unless the worker ended itself; only then is the request answered, the new
   * worker started, or the connection given up.
   */
  lemma EndIsComplete(timeout: int, states: seq<Daemon>, labels: seq<Label>, m: nat, n: nat, s: SessionId)
    requires Run(timeout, states, labels) && EndedBy(states, m, n)
    requires Wired(states[m]) && Enabled(states[m], labels[m]) && Ends(states[m], labels[m], s)
    ensures var e := states[n];
            && e.cur.None? && e.authTimer.None?
            && s < |e.sessions| && e.sessions[s].closed && (WasTold(e.sessions[s]) || EndedItself(e.sessions[s]))
            && (!labels[m].WorkerSays? ==> WasTold(e.sessions[s]))
            && Concluded(states[m], labels[m], states[n - 1], e)
  {
    hide Run, Inv, Ends, ToldApart, WasTold, EndedItself, Step, Utf8.DecodeReplace;
    StepsOf(timeout, states, labels, m);
    StepsOf(timeout, states, labels, n - 1);
    EndBegins(states[m], labels[m], s);
    var c := states[n - 1];
    EndingBefore(timeout, states, labels, m, n - 1, s);
    EndGoesOn(c, labels[n - 1]);
    RunTold(timeout, states, labels, n - 1);
    StoppingUntimed(c);
  }

  lemma EndingBefore(timeout: int, states: seq<Daemon>, labels: seq<Label>, m: nat, k: nat, s: SessionId)
    requires Run(timeout, states, labels) && m < k < |states|
    requires Wired(states[m]) && Enabled(states[m], labels[m]) && Ends(states[m], labels[m], s)
    requires forall j | m < j <= k :: states[j].handler.Stopping?
    ensures states[k].handler.target == s && states[k].handler.after == NextUp(states[m], labels[m])
  {
    hide Run, Enabled, Wired, Ends, NextUp;
    Ending(timeout, states, labels, m, k, s);
  }

  lemma StepsOf(timeout: int, states: seq<Daemon>, labels: seq<Label>, k: nat)
    requires Run(timeout, states, labels)
    ensures |states| == |labels| + 1 && (k < |labels| ==> Steps(states, labels, k))
  {
  }

  lemma StoppingUntimed(d: Daemon)
    requires Inv(d) && d.handler.Stopping?
    ensures d.authTimer.None?
  {
    hide ChannelOk, TimerOk, SpawnsAreAuthorized, LogOk, ResponsesOk, ChannelsOk, CurOk;
  }

  /**
   * An expiry that runs to its end leaves its session closed and told, no longer current and no longer
   * timed, and announces itself.
   */
  lemma ExpiryIsComplete(timeout: int, states: seq<Daemon>, labels: seq<Label>, n: nat, t: TimerId)
    requires Run(timeout, states, labels) && n < |labels| && labels[n] == TimerRuns(t)
    requires t < |states[n].timers| && !states[n].timers[t].cancelled && states[n].timers[t].stage.TClosing?
    ensures var d, e := states[n], states[n + 1];
            var s := d.timers[t].session;
            && s < |e.sessions| && e.sessions[s].closed && WasTold(e.sessions[s])
            && e.cur != Some(s) && e.authTimer != Some(t)
            && e.out == d.out + [Sent(Notice(AuthExpired(s)), d.open)]
  {
    hide Run, Inv, WasTold, StoppingOk;
    StepsOf(timeout, states, labels, n);
    RunTold(timeout, states, labels, n);
    ToldTimer(states[n], t);
    ExpiryEnds(states[n], t);
  }

  lemma ExpiryEnds(d: Daemon, t: TimerId)
    requires Wired(d) && t < |d.timers| && !d.timers[t].cancelled && d.timers[t].stage.TClosing?
    ensures var e, s := OnTimer(d, t), d.timers[t].session;
            && e.sessions == d.sessions && e.cur != Some(s) && e.authTimer != Some(t)
            && e.out == d.out + [Sent(Notice(AuthExpired(s)), d.open)]
  {
  }

  /**
   * Shutdown begins by ending the timeout and telling the current session's worker to cancel, and is done
   * with the session when its channel is closed and the reference cleared.
   */
  lemma ShutdownIsComplete(timeout: int, states: seq<Daemon>, labels: seq<Label>, n: nat)
    requires Run(timeout, states, labels) && n < |labels| && labels[n].SweepRuns?
    ensures var d, e := states[n], states[n + 1];
            && (d.sweep.NotStarted? ==>
                  && NoneArmed(e)
                  && match d.cur
                     case None => e.sweep == Swept
                     case Some(s) => e.sweep == SweepStopping(s, CancelWritten) && s < |e.sessions| && WasTold(e.sessions[s]))
            && (d.sweep.SweepStopping? && d.sweep.stage.CancelWritten? ==> e.sweep == SweepStopping(d.sweep.target, ChannelClosed))
            && (d.sweep.SweepStopping? && d.sweep.stage.ChannelClosed? ==>
                  && e.sweep == Swept && e.cur.None? && d.sweep.target < |e.sessions|
                  && e.sessions[d.sweep.target].closed && WasTold(e.sessions[d.sweep.target]))
  {
    hide Run, Inv, WasTold, StoppingOk, EndedItself, CancelTimeout;
    StepsOf(timeout, states, labels, n);
    RunTold(timeout, states, labels, n);
    var d := states[n];
    InvBase(d);
    CancelDisarms(d);
    CancelTold(d);
    if d.sweep.NotStarted? && d.cur.Some? {
      WriteTold(CancelTimeout(d), d.cur.value, Cancel);
    }
  }

  // ---------- what is timed ----------

  /** A prompt that waits for the user has its timeout task, which can still act. */
  predicate Timed(d: Daemon)
    requires Wired(d)
  {
    d.timeout > 0 && d.sweep.NotStarted? && d.cur.Some? && !d.sessions[d.cur.value].ready
    && (d.handler.Idle? || d.handler.Replying? || d.handler.Raising?) ==>
      d.authTimer.Some? && d.timers[d.authTimer.value].session == d.cur.value && d.timers[d.authTimer.value].Armed()
  }

  lemma TimedRequest(d: Daemon, r: Request, fits: bool)
    requires Wired(d) && d.handler.Idle? && Timed(d)
    ensures Wired(OnRequest(d, r, fits)) && Timed(OnRequest(d, r, fits))
  {
    var n := d.(requests := d.requests + [r.id]);
    match r.body
    case Create(username) => TimedCreate(d, r, fits);
    case CancelSession =>
      hide StopSession, Timed;
      StopUntimes(Note(n, LCancel), true, ThenAccept(r.id));
      Untimed(OnRequest(d, r, fits));
    case StartSession(_) => TimedStart(d, r, fits);
    case Continue(_, _) => TimedContinue(d, r, fits);
    case Query =>
  }

  lemma Untimed(d: Daemon)
    requires Wired(d) && (d.handler.Stopping? || d.cur.None?)
    ensures Timed(d)
  {
  }

  lemma TimedCreate(d: Daemon, r: Request, fits: bool)
    requires Wired(d) && d.handler.Idle? && Timed(d) && r.body.Create?
    ensures Wired(OnRequest(d, r, fits)) && Timed(OnRequest(d, r, fits))
  {
    hide StopSession, Utf8.DecodeReplace, AuthFieldIsTooLong;
    var user := Utf8.DecodeReplace(r.body.username);
    StopUntimes(Note(d.(requests := d.requests + [r.id]), LAccept(user, r.id)), true, ThenCreate(r.id, user));
  }

  lemma TimedContinue(d: Daemon, r: Request, fits: bool)
    requires Wired(d) && d.handler.Idle? && Timed(d) && r.body.Continue?
    ensures Wired(OnRequest(d, r, fits)) && Timed(OnRequest(d, r, fits))
  {
    hide AuthFieldIsTooLong;
  }

  lemma TimedStart(d: Daemon, r: Request, fits: bool)
    requires Wired(d) && d.handler.Idle? && Timed(d) && r.body.StartSession?
    ensures Wired(OnRequest(d, r, fits)) && Timed(OnRequest(d, r, fits))
  {
    hide CancelTimeout;
    CancelGrows(d.(requests := d.requests + [r.id]));
  }

  lemma StopUntimes(d: Daemon, sendCancel: bool, after: After)
    requires Wired(d)
    ensures var e := StopSession(d, sendCancel, after);
            Wired(e) && (e.handler.Stopping? || e.cur.None?)
  {
    hide CancelTimeout;
    CancelGrows(d);
  }

  lemma TimedWorker(d: Daemon, m: FromWorker, fits: bool)
    requires Inv(d) && Wired(d) && Awaited(d.handler).Some?
    ensures Wired(OnWorker(d, m, fits)) && Timed(OnWorker(d, m, fits))
  {
    hide Inv, StopSession, CancelTimeout, Heard;
    var n := Heard(d, m);
    OnWorkerIs(d, m, fits);
    HeardReady(d, m);
    match m
    case Asked(_) =>
    case IsReady => CancelGrows(n);
    case HasFailed(code) => StopUntimes(n, false, ThenRefuse(d.handler.id, code, fits));
    case Closed => StopUntimes(n, false, ThenRefuse(d.handler.id, "auth_failed", true));
    case Unexpected => StopUntimes(Note(n, LExit), true, ThenExit);
  }

  lemma HeardReady(d: Daemon, m: FromWorker)
    requires Inv(d) && Awaited(d.handler).Some?
    ensures Wired(d)
    ensures m.IsReady? && Heard(d, m).cur.Some? ==>
              Heard(d, m).cur.value < |Heard(d, m).sessions| && Heard(d, m).sessions[Heard(d, m).cur.value].ready
  {
    hide ChannelOk, TimerOk, SpawnsAreAuthorized, LogOk, ResponsesOk, ChannelsOk, TimersOk;
  }

  lemma TimedTimer(d: Daemon, t: TimerId)
    requires Inv(d) && Wired(d) && t < |d.timers| && Timed(d)
    ensures Wired(OnTimer(d, t)) && Timed(OnTimer(d, t))
  {
    hide Inv, TimerOk;
    InvTimers(d, t);
    TimerTouches(d, t);
    TimerClears(d, t);
  }

  lemma TimerClears(d: Daemon, t: TimerId)
    requires Wired(d) && t < |d.timers|
    ensures var timer, e := d.timers[t], OnTimer(d, t);
            && e.timeout == d.timeout && (e.cur == d.cur || e.cur.None?)
            && (forall s | 0 <= s < |d.sessions| :: s < |e.sessions| && e.sessions[s].ready == d.sessions[s].ready)
            && (timer.Armed() && IsCurrent(d, timer.session) && e.cur == d.cur ==> e.timers[t].Armed() && e.authTimer == d.authTimer)
            && (!timer.Armed() ==> e.authTimer == d.authTimer)
  {
    hide OnTimer;
    if !d.timers[t].Armed() || d.timers[t].stage in {TNew, TBeforeWarning} {
      WaitingClears(d, t);
    } else {
      EndingClears(d, t);
    }
  }

  lemma WaitingClears(d: Daemon, t: TimerId)
    requires Wired(d) && t < |d.timers| && (!d.timers[t].Armed() || d.timers[t].stage in {TNew, TBeforeWarning})
    ensures var timer, e := d.timers[t], OnTimer(d, t);
            && e.timeout == d.timeout && e.cur == d.cur && e.sessions == d.sessions && e.authTimer == d.authTimer
            && (timer.Armed() && IsCurrent(d, timer.session) ==> e.timers[t].Armed())
  {
    hide WarningDelay;
  }

  lemma EndingClears(d: Daemon, t: TimerId)
    requires Wired(d) && t < |d.timers| && d.timers[t].Armed() && d.timers[t].stage in {TAfterWarning, TCancelSent, TClosing}
    ensures var timer, e := d.timers[t], OnTimer(d, t);
            && e.timeout == d.timeout && (e.cur == d.cur || e.cur.None?)
            && (forall s | 0 <= s < |d.sessions| :: s < |e.sessions| && e.sessions[s].ready == d.sessions[s].ready)
            && (IsCurrent(d, timer.session) && e.cur == d.cur ==> e.timers[t].Armed() && e.authTimer == d.authTimer)
  {
    hide WarningDelay;
  }

  lemma TimedArm(d: Daemon)
    requires Inv(d) && Wired(d) && d.handler.Arming?
    ensures Wired(OnArm(d)) && Timed(OnArm(d))
  {
    hide CancelTimeout, ChannelOk, TimerOk, SpawnsAreAuthorized, LogOk, ResponsesOk, ChannelsOk, TimersOk;
    CancelGrows(d);
  }

  lemma StepTimed(d: Daemon, l: Label)
    requires Inv(d) && Wired(d) && Enabled(d, l) && Timed(d)
    ensures Wired(Step(d, l)) && Timed(Step(d, l))
  {
    hide Inv, OnRequest, OnWorker, OnTimer, OnSweep, StopSession, OnArm, OnStop, OnLaunch, OnSpawned;
    match l
    case Receive(r, fits) => TimedRequest(d, r, fits);
    case WorkerSays(m, fits) => TimedWorker(d, m, fits);
    case ReceiveEnd => StopUntimes(Note(d, LExit), true, ThenExit);
    case WorkerFails => StopUntimes(Note(d, LExit), true, ThenExit);
    case TimerRuns(t) => TimedTimer(d, t);
    case SweepRuns => SweepHolds(d);
    case Arm => TimedArm(d);
    case StopContinues => StopHolds(d);
    case LaunchContinues => LaunchHolds(d);
    case WorkerSpawned => SpawnHolds(d);
    case WriterCloses =>
    case Broadcast(_) =>
  }

  lemma StopHolds(d: Daemon)
    requires Wired(d) && d.handler.Stopping?
    ensures Wired(OnStop(d)) && (OnStop(d).handler.Stopping? || OnStop(d).cur.None?)
  {
  }

  lemma LaunchHolds(d: Daemon)
    requires Inv(d) && d.handler.Launching?
    ensures Wired(OnLaunch(d)) && OnLaunch(d).cur.None?
  {
    hide ChannelOk, TimerOk, SpawnsAreAuthorized, LogOk, ResponsesOk, ChannelsOk, TimersOk;
  }

  lemma SpawnHolds(d: Daemon)
    requires Wired(d) && d.handler.Spawning?
    ensures Wired(OnSpawned(d)) && OnSpawned(d).handler.FirstMessage?
  {
  }

  lemma SweepHolds(d: Daemon)
    requires Wired(d)
    ensures Wired(OnSweep(d)) && !OnSweep(d).sweep.NotStarted?
  {
    hide CancelTimeout;
    CancelGrows(d);
  }

  /**
   * While the connection is up and a timeout is configured, every current session that is not ready and
   * waits for the user's reply has a timeout task of its own that can still act.
   */
  lemma {:induction false} EveryPromptIsTimed(timeout: int, states: seq<Daemon>, labels: seq<Label>, n: nat)
    requires Run(timeout, states, labels) && n < |states|
    ensures Wired(states[n]) && Timed(states[n])
  {
    hide Inv, Timed, Step, Enabled, Wired;
    if n == 0 {
      InitTimed(timeout);
    } else {
      EveryPromptIsTimed(timeout, states, labels, n - 1);
      AuthTheorems.RunKeeps(timeout, states, labels, n - 1);
      assert Steps(states, labels, n - 1);
      StepTimed(states[n - 1], labels[n - 1]);
    }
  }

  lemma InitTimed(timeout: int)
    ensures Wired(Init(timeout)) && Timed(Init(timeout))
  {
  }
}
