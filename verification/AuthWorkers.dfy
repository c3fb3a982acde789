/**
 * Who looks after the PAM workers: which sessions still have someone to close their channel, which do
 * not, and by exactly which steps of the daemon a worker is lost for good.
 */
module AuthWorkers {
  import opened Wrappers
  import opened AuthMachine
  import opened AuthInvariants
  import opened SizeBounds
  import AuthTheorems
  import Utf8

  /** The worker is finished: it reported ready, or the daemon closed its channel. */
  predicate Settles(s: Session) {
    s.closed || s.ready
  }

  // ---------- who is going to settle a session ----------

  /** The handler has written cancel to the session and is about to close its channel. */
  predicate HandlerCloses(d: Daemon, s: SessionId) {
    d.handler.Stopping? && d.handler.stage.CancelWritten? && d.handler.target == s
  }

  predicate SweepCloses(d: Daemon, s: SessionId) {
    d.sweep.SweepStopping? && d.sweep.stage.CancelWritten? && d.sweep.target == s
  }

  /** The client's registered timeout task has written cancel to the session and is about to close it. */
  predicate TimerCloses(d: Daemon, s: SessionId)
    requires Wired(d)
  {
    d.authTimer.Some? &&
    var t := d.timers[d.authTimer.value];
    t.Armed() && t.stage.TCancelSent? && t.session == s
  }

  predicate Closing(d: Daemon, s: SessionId)
    requires Wired(d)
  {
    HandlerCloses(d, s) || SweepCloses(d, s) || TimerCloses(d, s)
  }

  /** Nobody is going to settle the session: it is not current, not awaited and not being closed. */
  predicate Orphan(d: Daemon, s: SessionId)
    requires Wired(d) && s < |d.sessions|
  {
    !Settles(d.sessions[s]) && d.cur != Some(s) && Awaited(d.handler) != Some(s) && !Closing(d, s)
  }

  // ---------- how a session is lost ----------

  /** An exception while the first message of a new session is awaited: it was never stored anywhere. */
  predicate Loses(d: Daemon, l: Label, s: SessionId) {
    l.WorkerFails? && d.handler.FirstMessage? && d.handler.session == s
  }

  /** Shutdown, having stopped the session it found, clears the one that has taken its place since. */
  predicate Overtakes(d: Daemon, l: Label, s: SessionId) {
    l.SweepRuns? && d.sweep.SweepStopping? && d.sweep.stage.ChannelClosed? && d.sweep.target != s && d.cur == Some(s)
  }

  /** The handler stops waiting for a session that is not the current one any more, without a ready report. */
  predicate StopsWaiting(d: Daemon, l: Label, s: SessionId) {
    && d.handler.Replying? && d.handler.session == s && d.cur != Some(s)
    && (l.WorkerFails? || (l.WorkerSays? && !l.message.IsReady?))
  }

  /** The step calls `cancel_auth_timeout`. */
  predicate StopsTimer(d: Daemon, l: Label)
    requires Wired(d)
  {
    match l
    case Receive(r, _) =>
      (match r.body
       case Create(username) => !AuthFieldIsTooLong(username) && d.cur.Some?
       case CancelSession => true
       case StartSession(_) => d.cur.Some? && d.sessions[d.cur.value].ready
       case _ => false)
    case ReceiveEnd => true
    case WorkerFails => true
    case WorkerSays(m, _) => !m.Asked?
    case Arm => true
    case _ => false
  }

  /** The last one that would have settled the session lets go of it. */
  predicate Abandons(d: Daemon, l: Label, s: SessionId)
    requires Wired(d) && s < |d.sessions|
  {
    && !Settles(d.sessions[s])
    && (|| Loses(d, l, s)
        || (Overtakes(d, l, s) && Awaited(d.handler) != Some(s) && !Closing(d, s))
        || (StopsWaiting(d, l, s) && !SweepCloses(d, s) && (TimerCloses(d, s) ==> StopsTimer(d, l)))
        || (TimerCloses(d, s) && StopsTimer(d, l) && d.cur != Some(s) && Awaited(d.handler) != Some(s)
            && !HandlerCloses(d, s) && !SweepCloses(d, s)))
  }

  // ---------- the invariant ----------

  /** Whoever lets go of a session after closing its channel has closed it. */
  predicate ClosesFirst(d: Daemon)
    requires Wired(d)
  {
    && (d.handler.Stopping? && d.handler.stage.ChannelClosed? ==> d.sessions[d.handler.target].closed)
    && (d.sweep.SweepStopping? && d.sweep.stage.ChannelClosed? ==> d.sessions[d.sweep.target].closed)
    && (forall t | 0 <= t < |d.timers| && d.timers[t].Armed() && d.timers[t].stage.TClosing? ::
          d.sessions[d.timers[t].session].closed)
  }

  /** A session whose first message is awaited is the newest, and nobody else knows of it. */
  predicate NewestIsUnknown(d: Daemon)
    requires Wired(d)
  {
    d.handler.FirstMessage? ==>
      var s := d.handler.session;
      && s == |d.sessions| - 1 && !d.sessions[s].closed && !d.sessions[s].ready
      && (forall t | 0 <= t < |d.timers| :: d.timers[t].session != s)
      && (d.sweep.SweepStopping? ==> d.sweep.target != s)
      && (d.cur != Some(s))
  }

  predicate Tidy(d: Daemon) {
    Inv(d) && ClosesFirst(d) && NewestIsUnknown(d)
  }

  // ---------- pieces ----------

  lemma CancelFrame(d: Daemon)
    requires Wired(d)
    ensures var c := CancelTimeout(d);
            && c == d.(timers := c.timers, authTimer := None) && Wired(c) && |c.timers| == |d.timers|
            && (forall t | 0 <= t < |d.timers| :: c.timers[t].session == d.timers[t].session
                                                   && c.timers[t].stage == d.timers[t].stage
                                                   && (c.timers[t].Armed() ==> d.timers[t].Armed()))
  {
  }

  /** Beginning a stop: the current session is closed or going to be, and the timer is gone. */
  lemma StopFrame(d: Daemon, sendCancel: bool, after: After)
    requires Wired(d)
    ensures var e := StopSession(d, sendCancel, after);
            && |e.sessions| == |d.sessions| && |e.timers| == |d.timers| && e.cur == d.cur && e.sweep == d.sweep
            && e.authTimer.None? && Awaited(e.handler).None? && Wired(e) && !e.handler.FirstMessage?
            && (forall s | 0 <= s < |d.sessions| ::
                  && e.sessions[s].ready == d.sessions[s].ready
                  && e.sessions[s].closed == (d.sessions[s].closed || (!sendCancel && d.cur == Some(s)))
                  && (HandlerCloses(e, s) <==> sendCancel && d.cur == Some(s)))
            && (e.handler.Stopping? && e.handler.stage.ChannelClosed? ==> d.cur == Some(e.handler.target) && !sendCancel)
            && (forall t | 0 <= t < |d.timers| :: e.timers[t].session == d.timers[t].session
                                                   && e.timers[t].stage == d.timers[t].stage
                                                   && (e.timers[t].Armed() ==> d.timers[t].Armed()))
  {
    hide CancelTimeout;
    CancelFrame(d);
  }

  lemma ExitFrame(d: Daemon)
    requires Wired(d)
    ensures Exit(d) == StopSession(Note(d, LExit), true, ThenExit) && Wired(Note(d, LExit))
  {
  }

  /** A stop keeps the order of closing, and loses the timer's promise alone. */
  lemma StopTidy(d: Daemon, n: Daemon, sendCancel: bool, after: After)
    requires Wired(d) && ClosesFirst(d) && Wired(n)
    requires n.timers == d.timers && n.sweep == d.sweep && |n.sessions| == |d.sessions|
    requires forall s | 0 <= s < |d.sessions| :: d.sessions[s].closed ==> n.sessions[s].closed
    ensures var e := StopSession(n, sendCancel, after);
            Wired(e) && ClosesFirst(e) && NewestIsUnknown(e)
  {
    hide StopSession;
    StopFrame(n, sendCancel, after);
  }

  /** From `d` to `e` the orphans stay, and exactly the abandoned sessions are added. */
  predicate Accounts(d: Daemon, l: Label, e: Daemon)
    requires Wired(d) && Wired(e)
  {
    && |d.sessions| <= |e.sessions|
    && forall s | 0 <= s < |d.sessions| :: AccountsFor(d, l, e, s)
  }

  predicate AccountsFor(d: Daemon, l: Label, e: Daemon, s: SessionId)
    requires Wired(d) && Wired(e) && s < |d.sessions| && s < |e.sessions|
  {
    Orphan(e, s) <==> Orphan(d, s) || Abandons(d, l, s)
  }

  // ---------- steps of the handler ----------

  lemma InvPlaces(d: Daemon)
    requires Inv(d)
    ensures Wired(d)
    ensures d.handler.Stopping? && d.cur.Some? ==> d.cur == Some(d.handler.target)
    ensures d.handler.FirstMessage? ==> d.cur.None?
    ensures d.handler.Replying? && d.cur.Some? ==> d.cur == Some(d.handler.session)
    ensures d.handler.Replying? ==> !d.sessions[d.handler.session].ready
    ensures d.handler.Stopping? ==> d.authTimer.None?
    ensures forall t | 0 <= t < |d.timers| && d.timers[t].Armed() :: d.authTimer == Some(t)
    ensures forall t | 0 <= t < |d.timers| && d.timers[t].Armed() && d.timers[t].stage.TCancelSent? && d.sweep.NotStarted? ::
              d.cur == Some(d.timers[t].session)
  {
    hide ChannelOk, TimerOk, SpawnsAreAuthorized, LogOk, ResponsesOk, Outstanding;
  }

  lemma StopRequest(d: Daemon, l: Label, n: Daemon, after: After)
    requires Tidy(d) && Wired(d) && Wired(n) && d.handler.Idle? && l.Receive? && StopsTimer(d, l)
    requires n == d.(requests := n.requests, log := n.log)
    ensures var e := StopSession(n, true, after);
            Wired(e) && ClosesFirst(e) && NewestIsUnknown(e) && Accounts(d, l, e)
  {
    hide Inv, StopSession, StopsTimer, AuthFieldIsTooLong;
    InvPlaces(d);
    StopTidy(d, n, true, after);
    StopFrame(n, true, after);
  }

  lemma RequestAccounts(d: Daemon, r: Request, fits: bool)
    requires Tidy(d) && Wired(d) && d.handler.Idle?
    ensures var e := OnRequest(d, r, fits);
            Wired(e) && ClosesFirst(e) && NewestIsUnknown(e) && Accounts(d, Receive(r, fits), e)
  {
    hide Inv, StopSession, CancelTimeout, Utf8.DecodeReplace, AuthFieldIsTooLong, Accounts, ClosesFirst, Orphan, Abandons;
    var l := Receive(r, fits);
    var n := d.(requests := d.requests + [r.id]);
    match r.body
    case Create(username) =>
      var user := Utf8.DecodeReplace(username);
      if !AuthFieldIsTooLong(username) && d.cur.Some? {
        StopRequest(d, l, Note(n, LAccept(user, r.id)), ThenCreate(r.id, user));
      } else {
        QuietRequest(d, r, fits);
      }
    case CancelSession => StopRequest(d, l, Note(n, LCancel), ThenAccept(r.id));
    case StartSession(_) => StartAccounts(d, r, fits);
    case _ => QuietRequest(d, r, fits);
  }

  /** Nothing changed for any session: channels, timers and shutdown stand where they stood. */
  predicate Unmoved(d: Daemon, e: Daemon) {
    && |e.sessions| == |d.sessions| && e.cur == d.cur && e.sweep == d.sweep
    && e.timers == d.timers && e.authTimer == d.authTimer
    && forall s | 0 <= s < |d.sessions| ::
         e.sessions[s].closed == d.sessions[s].closed && e.sessions[s].ready == d.sessions[s].ready
  }

  /** The handler stayed where it was, or moved among places that hold no session but the current one. */
  predicate HandlerStays(d: Daemon, e: Daemon) {
    || e.handler == d.handler
    || (Awaited(d.handler).None? && !d.handler.Stopping? && Awaited(e.handler).None? && !e.handler.Stopping?)
    || (d.handler.Idle? && e.handler.Replying? && d.cur == Some(e.handler.session))
  }

  lemma UnmovedAccounts(d: Daemon, l: Label, e: Daemon)
    requires Wired(d) && Wired(e) && ClosesFirst(d) && NewestIsUnknown(d) && Unmoved(d, e) && HandlerStays(d, e)
    requires !l.WorkerFails? && !l.WorkerSays? && !l.SweepRuns? && !StopsTimer(d, l)
    ensures ClosesFirst(e) && NewestIsUnknown(e) && Accounts(d, l, e)
  {
    hide StopsTimer, Orphan, Abandons, Wired;
    UnmovedTidy(d, e);
    forall s | 0 <= s < |d.sessions|
      ensures AccountsFor(d, l, e, s)
    {
      UnmovedOrphan(d, l, e, s);
    }
  }

  lemma UnmovedTidy(d: Daemon, e: Daemon)
    requires Wired(d) && Wired(e) && ClosesFirst(d) && NewestIsUnknown(d) && Unmoved(d, e) && HandlerStays(d, e)
    ensures ClosesFirst(e) && NewestIsUnknown(e)
  {
  }

  lemma UnmovedOrphan(d: Daemon, l: Label, e: Daemon, s: SessionId)
    requires Wired(d) && Wired(e) && Unmoved(d, e) && HandlerStays(d, e) && s < |d.sessions|
    requires !l.WorkerFails? && !l.WorkerSays? && !l.SweepRuns? && !StopsTimer(d, l)
    ensures AccountsFor(d, l, e, s)
  {
    hide Wired, StopsTimer;
  }

  /** A request that stops neither a session nor the timer. */
  lemma QuietRequest(d: Daemon, r: Request, fits: bool)
    requires Tidy(d) && Wired(d) && d.handler.Idle? && !StopsTimer(d, Receive(r, fits))
    ensures var e := OnRequest(d, r, fits);
            Wired(e) && ClosesFirst(e) && NewestIsUnknown(e) && Accounts(d, Receive(r, fits), e)
  {
    QuietMoves(d, r, fits);
    hide Inv, Unmoved, OnRequest, StopsTimer, ClosesFirst, NewestIsUnknown, Accounts;
    UnmovedAccounts(d, Receive(r, fits), OnRequest(d, r, fits));
  }

  lemma QuietMoves(d: Daemon, r: Request, fits: bool)
    requires Wired(d) && d.handler.Idle? && !StopsTimer(d, Receive(r, fits))
    ensures var e := OnRequest(d, r, fits);
            Wired(e) && Unmoved(d, e) && !e.handler.Stopping? && !e.handler.FirstMessage?
            && (e.handler.Replying? ==> d.cur == Some(e.handler.session))
  {
    hide StopSession, CancelTimeout, Utf8.DecodeReplace, AuthFieldIsTooLong, Wired, Unmoved;
    if r.body.Continue? {
      ContinueMoves(d, r, fits);
    } else {
      PlainMoves(d, r, fits);
    }
  }

  lemma ContinueMoves(d: Daemon, r: Request, fits: bool)
    requires Wired(d) && d.handler.Idle? && r.body.Continue?
    ensures var e := OnRequest(d, r, fits);
            Wired(e) && Unmoved(d, e) && !e.handler.Stopping? && !e.handler.FirstMessage?
            && (e.handler.Replying? ==> d.cur == Some(e.handler.session))
  {
    hide AuthFieldIsTooLong;
  }

  lemma PlainMoves(d: Daemon, r: Request, fits: bool)
    requires Wired(d) && d.handler.Idle? && !StopsTimer(d, Receive(r, fits)) && !r.body.Continue?
    ensures var e := OnRequest(d, r, fits);
            Wired(e) && Unmoved(d, e) && !e.handler.Stopping? && !e.handler.FirstMessage? && !e.handler.Replying?
  {
    hide StopSession, CancelTimeout, Utf8.DecodeReplace, AuthFieldIsTooLong;
  }

  lemma StartAccounts(d: Daemon, r: Request, fits: bool)
    requires Tidy(d) && Wired(d) && d.handler.Idle? && r.body.StartSession?
    ensures var e := OnRequest(d, r, fits);
            Wired(e) && ClosesFirst(e) && NewestIsUnknown(e) && Accounts(d, Receive(r, fits), e)
  {
    hide Inv, Orphan, Abandons, ClosesFirst, NewestIsUnknown, OnRequest;
    if !StopsTimer(d, Receive(r, fits)) {
      QuietRequest(d, r, fits);
    } else {
      StartTidy(d, r, fits);
      var e := OnRequest(d, r, fits);
      forall s | 0 <= s < |d.sessions|
        ensures AccountsFor(d, Receive(r, fits), e, s)
      {
        StartOrphan(d, r, fits, s);
      }
    }
  }

  /** An accepted start-session lets go of a ready session, and of the timer. */
  lemma StartMoves(d: Daemon, r: Request, fits: bool)
    requires Wired(d) && d.handler.Idle? && r.body.StartSession? && StopsTimer(d, Receive(r, fits))
    ensures var e := OnRequest(d, r, fits);
            && d.cur.Some? && d.sessions[d.cur.value].ready
            && Wired(e) && e.sessions == d.sessions && e.sweep == d.sweep && e.cur.None? && e.handler.Launching? && e.authTimer.None?
            && |e.timers| == |d.timers|
            && (forall t | 0 <= t < |d.timers| :: e.timers[t].session == d.timers[t].session
                                                   && e.timers[t].stage == d.timers[t].stage
                                                   && (e.timers[t].Armed() ==> d.timers[t].Armed()))
  {
    hide CancelTimeout;
    CancelFrame(d.(requests := d.requests + [r.id]));
  }

  lemma StartTidy(d: Daemon, r: Request, fits: bool)
    requires Tidy(d) && Wired(d) && d.handler.Idle? && r.body.StartSession? && StopsTimer(d, Receive(r, fits))
    ensures var e := OnRequest(d, r, fits);
            Wired(e) && |e.sessions| == |d.sessions| && ClosesFirst(e) && NewestIsUnknown(e)
  {
    StartMoves(d, r, fits);
    hide Inv, OnRequest;
  }

  lemma StartOrphan(d: Daemon, r: Request, fits: bool, s: SessionId)
    requires Tidy(d) && Wired(d) && d.handler.Idle? && r.body.StartSession? && StopsTimer(d, Receive(r, fits)) && s < |d.sessions|
    ensures var e := OnRequest(d, r, fits);
            Wired(e) && |e.sessions| == |d.sessions| && AccountsFor(d, Receive(r, fits), e, s)
  {
    StartMoves(d, r, fits);
    hide Inv, OnRequest, ClosesFirst, NewestIsUnknown, Wired, StopsTimer;
  }

  lemma ExitAccounts(d: Daemon, l: Label)
    requires Tidy(d) && Wired(d) && Enabled(d, l) && (l.ReceiveEnd? || l.WorkerFails?)
    ensures var e := Exit(d);
            Wired(e) && ClosesFirst(e) && NewestIsUnknown(e) && Accounts(d, l, e)
  {
    hide Inv, StopSession;
    InvPlaces(d);
    ExitFrame(d);
    StopTidy(d, Note(d, LExit), true, ThenExit);
    StopFrame(Note(d, LExit), true, ThenExit);
  }

  lemma SpawnAccounts(d: Daemon, l: Label)
    requires Tidy(d) && Wired(d) && d.handler.Spawning? && l.WorkerSpawned?
    ensures var e := OnSpawned(d);
            Wired(e) && ClosesFirst(e) && NewestIsUnknown(e) && Accounts(d, l, e)
  {
    hide Inv;
    InvPlaces(d);
  }

  lemma AskedAccounts(d: Daemon, l: Label)
    requires Tidy(d) && Wired(d) && Awaited(d.handler).Some? && l.WorkerSays? && l.message.Asked?
    ensures var e := OnWorker(d, l.message, l.fits);
            Wired(e) && ClosesFirst(e) && NewestIsUnknown(e) && Accounts(d, l, e)
  {
    hide Inv;
    InvPlaces(d);
  }

  lemma ReadyAccounts(d: Daemon, l: Label)
    requires Tidy(d) && Wired(d) && Awaited(d.handler).Some? && l.WorkerSays? && l.message.IsReady?
    ensures var e := OnWorker(d, l.message, l.fits);
            Wired(e) && ClosesFirst(e) && NewestIsUnknown(e) && Accounts(d, l, e)
  {
    InvPlaces(d);
    ReadyMoves(d, l);
    hide Inv, OnWorker, NewestIsUnknown, Orphan, Abandons;
    var e := OnWorker(d, l.message, l.fits);
    NotFirst(e);
    forall s | 0 <= s < |d.sessions|
      ensures AccountsFor(d, l, e, s)
    {
      ReadyOrphan(d, l, s);
    }
  }

  lemma ReadyOrphan(d: Daemon, l: Label, s: SessionId)
    requires Tidy(d) && Wired(d) && Awaited(d.handler).Some? && l.WorkerSays? && l.message.IsReady? && s < |d.sessions|
    ensures var e := OnWorker(d, l.message, l.fits);
            Wired(e) && |e.sessions| == |d.sessions| && AccountsFor(d, l, e, s)
  {
    InvPlaces(d);
    ReadyMoves(d, l);
    hide Inv, OnWorker, ClosesFirst, NewestIsUnknown;
  }

  lemma NotFirst(d: Daemon)
    requires Wired(d) && !d.handler.FirstMessage?
    ensures NewestIsUnknown(d)
  {
  }

  lemma ReadyMoves(d: Daemon, l: Label)
    requires Wired(d) && Awaited(d.handler).Some? && l.WorkerSays? && l.message.IsReady?
    ensures var e := OnWorker(d, l.message, l.fits);
            var s := Awaited(d.handler).value;
            && Wired(e) && |e.sessions| == |d.sessions| && e.sweep == d.sweep && e.handler == Idle
            && e.authTimer.None? && |e.timers| == |d.timers|
            && e.cur == (if d.handler.FirstMessage? then Some(s) else d.cur)
            && (forall x | 0 <= x < |d.sessions| ::
                  e.sessions[x].closed == d.sessions[x].closed && e.sessions[x].ready == (d.sessions[x].ready || x == s))
            && (forall t | 0 <= t < |d.timers| :: e.timers[t].session == d.timers[t].session
                                                   && e.timers[t].stage == d.timers[t].stage
                                                   && (e.timers[t].Armed() ==> d.timers[t].Armed()))
  {
    hide CancelTimeout;
    CancelFrame(Heard(d, IsReady));
  }

  /** A last message of a worker's: its session is stopped if it is the current one. */
  lemma EndAccounts(d: Daemon, l: Label, n: Daemon, sendCancel: bool, after: After)
    requires Tidy(d) && Wired(d) && Awaited(d.handler).Some? && l.WorkerSays? && !l.message.Asked? && !l.message.IsReady?
    requires Wired(n) && n == Heard(d, l.message).(log := n.log)
    ensures var e := StopSession(n, sendCancel, after);
            Wired(e) && ClosesFirst(e) && NewestIsUnknown(e) && Accounts(d, l, e)
  {
    hide Inv, StopSession;
    InvPlaces(d);
    StopTidy(d, n, sendCancel, after);
    StopFrame(n, sendCancel, after);
  }

  lemma WorkerAccounts(d: Daemon, l: Label)
    requires Tidy(d) && Wired(d) && Awaited(d.handler).Some? && l.WorkerSays?
    ensures var e := OnWorker(d, l.message, l.fits);
            Wired(e) && ClosesFirst(e) && NewestIsUnknown(e) && Accounts(d, l, e)
  {
    hide Inv, StopSession, CancelTimeout, Accounts, ClosesFirst, Orphan, Abandons;
    var n := Heard(d, l.message);
    match l.message
    case Asked(_) => AskedAccounts(d, l);
    case IsReady => ReadyAccounts(d, l);
    case HasFailed(code) => EndAccounts(d, l, n, false, ThenRefuse(d.handler.id, code, l.fits));
    case Closed => EndAccounts(d, l, n, false, ThenRefuse(d.handler.id, "auth_failed", true));
    case Unexpected => EndAccounts(d, l, Note(n, LExit), true, ThenExit);
  }

  lemma StopStepAccounts(d: Daemon, l: Label)
    requires Tidy(d) && Wired(d) && d.handler.Stopping? && l.StopContinues?
    ensures var e := OnStop(d);
            Wired(e) && ClosesFirst(e) && NewestIsUnknown(e) && Accounts(d, l, e)
  {
    hide Inv, Resume;
    InvPlaces(d);
    ResumeMoves(d.(cur := None), d.handler.after);
  }

  lemma ResumeMoves(d: Daemon, after: After)
    ensures var e := Resume(d, after);
            e == d.(out := e.out, handler := e.handler, open := e.open)
            && Awaited(e.handler).None? && (e.handler.Idle? || e.handler.Spawning? || e.handler.Gone?)
  {
  }

  lemma ArmAccounts(d: Daemon, l: Label)
    requires Tidy(d) && Wired(d) && d.handler.Arming? && l.Arm?
    ensures var e := OnArm(d);
            Wired(e) && ClosesFirst(e) && NewestIsUnknown(e) && Accounts(d, l, e)
  {
    hide Inv, CancelTimeout;
    InvPlaces(d);
    CancelFrame(d);
  }

  // ---------- steps of the other tasks ----------

  lemma TimerAccounts(d: Daemon, l: Label)
    requires Tidy(d) && Wired(d) && l.TimerRuns? && l.timer < |d.timers|
    ensures var e := OnTimer(d, l.timer);
            Wired(e) && ClosesFirst(e) && NewestIsUnknown(e) && Accounts(d, l, e)
  {
    hide OnTimer, Inv, ClosesFirst, NewestIsUnknown, Accounts, Tidy;
    var t := d.timers[l.timer];
    if !t.Armed() || t.stage in {TNew, TBeforeWarning} {
      EarlyAccounts(d, l);
    } else if t.stage.TClosing? {
      ExpiredAccounts(d, l);
    } else if t.stage.TCancelSent? {
      ClosingAccounts(d, l);
    } else {
      DecidingAccounts(d, l);
    }
  }

  lemma EarlyAccounts(d: Daemon, l: Label)
    requires Tidy(d) && Wired(d) && l.TimerRuns? && l.timer < |d.timers|
    requires !d.timers[l.timer].Armed() || d.timers[l.timer].stage in {TNew, TBeforeWarning}
    ensures var e := OnTimer(d, l.timer);
            Wired(e) && ClosesFirst(e) && NewestIsUnknown(e) && Accounts(d, l, e)
  {
    hide Inv, OnTimer, Orphan, Abandons, ClosesFirst, NewestIsUnknown;
    EarlyTidy(d, l);
    var e := OnTimer(d, l.timer);
    forall s | 0 <= s < |d.sessions|
      ensures AccountsFor(d, l, e, s)
    {
      EarlyOrphan(d, l, s);
    }
  }

  lemma EarlyTidy(d: Daemon, l: Label)
    requires Tidy(d) && Wired(d) && l.TimerRuns? && l.timer < |d.timers|
    requires !d.timers[l.timer].Armed() || d.timers[l.timer].stage in {TNew, TBeforeWarning}
    ensures var e := OnTimer(d, l.timer);
            |e.sessions| == |d.sessions| && Wired(e) && ClosesFirst(e) && NewestIsUnknown(e)
  {
    EarlyMoves(d, l.timer);
    InvPlaces(d);
    hide Inv, OnTimer;
  }

  /** Who holds a session did not change. */
  lemma SameHolders(d: Daemon, e: Daemon, s: SessionId)
    requires Wired(d) && Wired(e) && s < |d.sessions| && s < |e.sessions|
    requires Settles(e.sessions[s]) == Settles(d.sessions[s])
    requires e.cur == d.cur && e.handler == d.handler && e.sweep == d.sweep && TimerCloses(e, s) == TimerCloses(d, s)
    ensures Orphan(e, s) <==> Orphan(d, s)
  {
    hide Wired, Settles, TimerCloses;
  }

  lemma TimersAbandonNothing(d: Daemon, l: Label, s: SessionId)
    requires Wired(d) && s < |d.sessions| && l.TimerRuns?
    ensures !Abandons(d, l, s)
  {
    hide Wired;
  }

  lemma EarlyOrphan(d: Daemon, l: Label, s: SessionId)
    requires Tidy(d) && Wired(d) && l.TimerRuns? && l.timer < |d.timers|
    requires !d.timers[l.timer].Armed() || d.timers[l.timer].stage in {TNew, TBeforeWarning}
    requires s < |d.sessions|
    ensures var e := OnTimer(d, l.timer);
            |e.sessions| == |d.sessions| && Wired(e) && AccountsFor(d, l, e, s)
  {
    EarlyMoves(d, l.timer);
    hide Inv, OnTimer, NewestIsUnknown, ClosesFirst, Orphan, Abandons, Wired;
    TimersAbandonNothing(d, l, s);
    SameHolders(d, OnTimer(d, l.timer), s);
  }

  lemma EarlyMoves(d: Daemon, t: TimerId)
    requires Wired(d) && t < |d.timers| && (!d.timers[t].Armed() || d.timers[t].stage in {TNew, TBeforeWarning})
    ensures var e := OnTimer(d, t);
            && e == d.(timers := d.timers[t := e.timers[t]], out := e.out) && Wired(e)
            && e.timers[t].session == d.timers[t].session
            && (e.timers[t].Armed() ==> d.timers[t].Armed() && e.timers[t].stage in {TNew, TBeforeWarning, TAfterWarning})
  {
    hide WarningDelay;
  }

  lemma DecidingAccounts(d: Daemon, l: Label)
    requires Tidy(d) && Wired(d) && l.TimerRuns? && l.timer < |d.timers|
    requires d.timers[l.timer].Armed() && d.timers[l.timer].stage.TAfterWarning?
    ensures var e := OnTimer(d, l.timer);
            Wired(e) && ClosesFirst(e) && NewestIsUnknown(e) && Accounts(d, l, e)
  {
    hide Inv, OnTimer, Orphan, Abandons, ClosesFirst, NewestIsUnknown;
    DecidingTidy(d, l);
    var e := OnTimer(d, l.timer);
    forall s | 0 <= s < |d.sessions|
      ensures AccountsFor(d, l, e, s)
    {
      DecidingOrphan(d, l, s);
    }
  }

  lemma DecidingTidy(d: Daemon, l: Label)
    requires Tidy(d) && Wired(d) && l.TimerRuns? && l.timer < |d.timers|
    requires d.timers[l.timer].Armed() && d.timers[l.timer].stage.TAfterWarning?
    ensures var e := OnTimer(d, l.timer);
            |e.sessions| == |d.sessions| && Wired(e) && ClosesFirst(e) && NewestIsUnknown(e)
  {
    DecidingMoves(d, l.timer);
    hide Inv, OnTimer;
  }

  lemma DecidingOrphan(d: Daemon, l: Label, s: SessionId)
    requires Tidy(d) && Wired(d) && l.TimerRuns? && l.timer < |d.timers| && s < |d.sessions|
    requires d.timers[l.timer].Armed() && d.timers[l.timer].stage.TAfterWarning?
    ensures var e := OnTimer(d, l.timer);
            |e.sessions| == |d.sessions| && Wired(e) && AccountsFor(d, l, e, s)
  {
    DecidingMoves(d, l.timer);
    InvPlaces(d);
    TimersAbandonNothing(d, l, s);
    hide Inv, OnTimer, NewestIsUnknown, ClosesFirst, Abandons, Wired;
    var e := OnTimer(d, l.timer);
    if d.cur != Some(s) {
      SameHolders(d, e, s);
    }
  }

  lemma DecidingMoves(d: Daemon, t: TimerId)
    requires Wired(d) && t < |d.timers| && d.timers[t].Armed() && d.timers[t].stage.TAfterWarning?
    ensures var e := OnTimer(d, t);
            && e == d.(timers := d.timers[t := e.timers[t]], sessions := e.sessions) && Wired(e) && |e.sessions| == |d.sessions|
            && e.timers[t].session == d.timers[t].session
            && (e.timers[t].Armed() ==> e.timers[t].stage.TCancelSent? && d.cur == Some(d.timers[t].session))
            && forall s | 0 <= s < |d.sessions| ::
                 e.sessions[s].closed == d.sessions[s].closed && e.sessions[s].ready == d.sessions[s].ready
  {
    hide WarningDelay;
  }

  lemma ClosingAccounts(d: Daemon, l: Label)
    requires Tidy(d) && Wired(d) && l.TimerRuns? && l.timer < |d.timers|
    requires d.timers[l.timer].Armed() && d.timers[l.timer].stage.TCancelSent?
    ensures var e := OnTimer(d, l.timer);
            Wired(e) && ClosesFirst(e) && NewestIsUnknown(e) && Accounts(d, l, e)
  {
    hide Inv, OnTimer, Orphan, Abandons, ClosesFirst, NewestIsUnknown;
    ClosingTidy(d, l);
    var e := OnTimer(d, l.timer);
    forall s | 0 <= s < |d.sessions|
      ensures AccountsFor(d, l, e, s)
    {
      ClosingOrphan(d, l, s);
    }
  }

  lemma ClosingTidy(d: Daemon, l: Label)
    requires Tidy(d) && Wired(d) && l.TimerRuns? && l.timer < |d.timers|
    requires d.timers[l.timer].Armed() && d.timers[l.timer].stage.TCancelSent?
    ensures var e := OnTimer(d, l.timer);
            |e.sessions| == |d.sessions| && Wired(e) && ClosesFirst(e) && NewestIsUnknown(e)
  {
    InvPlaces(d);
    hide Inv, WarningDelay;
  }

  lemma ClosingOrphan(d: Daemon, l: Label, s: SessionId)
    requires Tidy(d) && Wired(d) && l.TimerRuns? && l.timer < |d.timers|
    requires d.timers[l.timer].Armed() && d.timers[l.timer].stage.TCancelSent?
    requires s < |d.sessions|
    ensures var e := OnTimer(d, l.timer);
            |e.sessions| == |d.sessions| && Wired(e) && AccountsFor(d, l, e, s)
  {
    ClosingMoves(d, l.timer);
    InvPlaces(d);
    TimersAbandonNothing(d, l, s);
    hide Inv, OnTimer, NewestIsUnknown, ClosesFirst, Abandons, Wired;
    if s != d.timers[l.timer].session {
      SameHolders(d, OnTimer(d, l.timer), s);
    }
  }

  lemma ClosingMoves(d: Daemon, t: TimerId)
    requires Wired(d) && t < |d.timers| && d.timers[t].Armed() && d.timers[t].stage.TCancelSent?
    ensures var e := OnTimer(d, t);
            var s := d.timers[t].session;
            && Wired(e)
            && e == d.(timers := d.timers[t := d.timers[t].(stage := TClosing)],
                       sessions := d.sessions[s := d.sessions[s].(closed := true)])
  {
    hide WarningDelay;
  }

  lemma ExpiredAccounts(d: Daemon, l: Label)
    requires Tidy(d) && Wired(d) && l.TimerRuns? && l.timer < |d.timers|
    requires d.timers[l.timer].Armed() && d.timers[l.timer].stage.TClosing?
    ensures var e := OnTimer(d, l.timer);
            Wired(e) && ClosesFirst(e) && NewestIsUnknown(e) && Accounts(d, l, e)
  {
    hide Inv, OnTimer, Orphan, Abandons, ClosesFirst, NewestIsUnknown;
    ExpiredTidy(d, l);
    var e := OnTimer(d, l.timer);
    forall s | 0 <= s < |d.sessions|
      ensures AccountsFor(d, l, e, s)
    {
      ExpiredOrphan(d, l, s);
    }
  }

  lemma ExpiredTidy(d: Daemon, l: Label)
    requires Tidy(d) && Wired(d) && l.TimerRuns? && l.timer < |d.timers|
    requires d.timers[l.timer].Armed() && d.timers[l.timer].stage.TClosing?
    ensures var e := OnTimer(d, l.timer);
            |e.sessions| == |d.sessions| && Wired(e) && ClosesFirst(e) && NewestIsUnknown(e)
  {
    InvPlaces(d);
    hide Inv, WarningDelay;
  }

  lemma ExpiredOrphan(d: Daemon, l: Label, s: SessionId)
    requires Tidy(d) && Wired(d) && l.TimerRuns? && l.timer < |d.timers|
    requires d.timers[l.timer].Armed() && d.timers[l.timer].stage.TClosing?
    requires s < |d.sessions|
    ensures var e := OnTimer(d, l.timer);
            |e.sessions| == |d.sessions| && Wired(e) && AccountsFor(d, l, e, s)
  {
    ExpiredMoves(d, l.timer);
    InvPlaces(d);
    TimersAbandonNothing(d, l, s);
    hide Inv, OnTimer, NewestIsUnknown, Abandons, Wired;
    assert d.sessions[d.timers[l.timer].session].closed;
  }

  lemma ExpiredMoves(d: Daemon, t: TimerId)
    requires Wired(d) && t < |d.timers| && d.timers[t].Armed() && d.timers[t].stage.TClosing?
    ensures var e := OnTimer(d, t);
            && Wired(e)
            && e == d.(timers := d.timers[t := d.timers[t].(stage := TFinished)], out := e.out, log := e.log,
                       cur := if d.cur == Some(d.timers[t].session) then None else d.cur,
                       authTimer := if d.authTimer == Some(t) then None else d.authTimer)
  {
    hide WarningDelay;
  }

  lemma SweepAccounts(d: Daemon, l: Label)
    requires Tidy(d) && Wired(d) && l.SweepRuns?
    ensures var e := OnSweep(d);
            Wired(e) && ClosesFirst(e) && NewestIsUnknown(e) && Accounts(d, l, e)
  {
    hide OnSweep, Inv, ClosesFirst, NewestIsUnknown, Accounts, Tidy;
    if d.sweep.NotStarted? {
      SweepBegins(d, l);
    } else if d.sweep.SweepStopping? {
      SweepStops(d, l);
    } else {
      SweepJoins(d, l);
    }
  }

  lemma SweepBegins(d: Daemon, l: Label)
    requires Tidy(d) && Wired(d) && l.SweepRuns? && d.sweep.NotStarted?
    ensures var e := OnSweep(d);
            Wired(e) && ClosesFirst(e) && NewestIsUnknown(e) && Accounts(d, l, e)
  {
    hide Inv, OnSweep, Orphan, Abandons, ClosesFirst, NewestIsUnknown;
    SweepBeginsTidy(d, l);
    var e := OnSweep(d);
    forall s | 0 <= s < |d.sessions|
      ensures AccountsFor(d, l, e, s)
    {
      SweepBeginsOrphan(d, l, s);
    }
  }

  lemma SweepBeginsTidy(d: Daemon, l: Label)
    requires Tidy(d) && Wired(d) && l.SweepRuns? && d.sweep.NotStarted?
    ensures var e := OnSweep(d);
            |e.sessions| == |d.sessions| && Wired(e) && ClosesFirst(e) && NewestIsUnknown(e)
  {
    InvPlaces(d);
    CancelFrame(d);
    hide Inv, CancelTimeout;
  }

  lemma SweepBeginsOrphan(d: Daemon, l: Label, s: SessionId)
    requires Tidy(d) && Wired(d) && l.SweepRuns? && d.sweep.NotStarted?
    requires s < |d.sessions|
    ensures var e := OnSweep(d);
            |e.sessions| == |d.sessions| && Wired(e) && AccountsFor(d, l, e, s)
  {
    InvPlaces(d);
    SweepBeginsMoves(d);
    hide Inv, OnSweep, NewestIsUnknown, ClosesFirst, Wired;
  }

  lemma SweepBeginsMoves(d: Daemon)
    requires Wired(d) && d.sweep.NotStarted?
    ensures var e := OnSweep(d);
            && Wired(e) && |e.sessions| == |d.sessions| && e.cur == d.cur && e.handler == d.handler && e.authTimer.None?
            && e.sweep == (if d.cur.Some? then SweepStopping(d.cur.value, CancelWritten) else Swept)
            && forall s | 0 <= s < |d.sessions| ::
                 e.sessions[s].closed == d.sessions[s].closed && e.sessions[s].ready == d.sessions[s].ready
  {
    hide CancelTimeout;
    CancelFrame(d);
  }

  lemma SweepStops(d: Daemon, l: Label)
    requires Tidy(d) && Wired(d) && l.SweepRuns? && d.sweep.SweepStopping?
    ensures var e := OnSweep(d);
            Wired(e) && ClosesFirst(e) && NewestIsUnknown(e) && Accounts(d, l, e)
  {
    hide Inv, OnSweep, Orphan, Abandons, ClosesFirst, NewestIsUnknown;
    SweepStopsTidy(d, l);
    var e := OnSweep(d);
    forall s | 0 <= s < |d.sessions|
      ensures AccountsFor(d, l, e, s)
    {
      SweepStopsOrphan(d, l, s);
    }
  }

  lemma SweepStopsTidy(d: Daemon, l: Label)
    requires Tidy(d) && Wired(d) && l.SweepRuns? && d.sweep.SweepStopping?
    ensures var e := OnSweep(d);
            |e.sessions| == |d.sessions| && Wired(e) && ClosesFirst(e) && NewestIsUnknown(e)
  {
    SweepStopsMoves(d);
    hide Inv, OnSweep, ClosesFirst, NewestIsUnknown;
    if d.sweep.stage.CancelWritten? {
      SweepClosesTidy(d);
    } else {
      SweepClearsTidy(d);
    }
  }

  lemma SweepClosesTidy(d: Daemon)
    requires Wired(d) && ClosesFirst(d) && NewestIsUnknown(d) && d.sweep.SweepStopping? && d.sweep.stage.CancelWritten?
    ensures var t := d.sweep.target;
            var e := d.(sessions := d.sessions[t := d.sessions[t].(closed := true)], sweep := SweepStopping(t, ChannelClosed));
            Wired(e) && ClosesFirst(e) && NewestIsUnknown(e)
  {
  }

  lemma SweepClearsTidy(d: Daemon)
    requires Wired(d) && ClosesFirst(d) && NewestIsUnknown(d) && d.sweep.SweepStopping?
    ensures var e := d.(cur := None, sweep := Swept);
            Wired(e) && ClosesFirst(e) && NewestIsUnknown(e)
  {
  }

  lemma SweepStopsOrphan(d: Daemon, l: Label, s: SessionId)
    requires Tidy(d) && Wired(d) && l.SweepRuns? && d.sweep.SweepStopping?
    requires s < |d.sessions|
    ensures var e := OnSweep(d);
            |e.sessions| == |d.sessions| && Wired(e) && AccountsFor(d, l, e, s)
  {
    SweepStopsMoves(d);
    hide Inv, OnSweep, NewestIsUnknown, Wired, Orphan, Abandons;
    if d.sweep.stage.CancelWritten? {
      SweepClosesOrphan(d, l, s);
    } else {
      SweepClearsOrphan(d, l, s);
    }
  }

  lemma SweepClosesOrphan(d: Daemon, l: Label, s: SessionId)
    requires Wired(d) && l.SweepRuns? && d.sweep.SweepStopping? && d.sweep.stage.CancelWritten? && s < |d.sessions|
    ensures var t := d.sweep.target;
            var e := d.(sessions := d.sessions[t := d.sessions[t].(closed := true)], sweep := SweepStopping(t, ChannelClosed));
            Wired(e) && AccountsFor(d, l, e, s)
  {
  }

  lemma SweepClearsOrphan(d: Daemon, l: Label, s: SessionId)
    requires Wired(d) && ClosesFirst(d) && l.SweepRuns? && d.sweep.SweepStopping? && d.sweep.stage.ChannelClosed? && s < |d.sessions|
    ensures var e := d.(cur := None, sweep := Swept);
            Wired(e) && AccountsFor(d, l, e, s)
  {
  }

  lemma SweepStopsMoves(d: Daemon)
    requires Wired(d) && d.sweep.SweepStopping?
    ensures var e := OnSweep(d);
            var t := d.sweep.target;
            && Wired(e)
            && e == (if d.sweep.stage.CancelWritten? then
                       d.(sessions := d.sessions[t := d.sessions[t].(closed := true)], sweep := SweepStopping(t, ChannelClosed))
                     else d.(cur := None, sweep := Swept))
  {
  }

  lemma SweepJoins(d: Daemon, l: Label)
    requires Tidy(d) && Wired(d) && l.SweepRuns? && !d.sweep.NotStarted? && !d.sweep.SweepStopping?
    ensures var e := OnSweep(d);
            Wired(e) && ClosesFirst(e) && NewestIsUnknown(e) && Accounts(d, l, e)
  {
    hide Inv, CancelTimeout;
  }

  lemma OtherAccounts(d: Daemon, l: Label)
    requires Tidy(d) && Wired(d) && Enabled(d, l) && (l.LaunchContinues? || l.WriterCloses? || l.Broadcast?)
    ensures var e := Step(d, l);
            Wired(e) && ClosesFirst(e) && NewestIsUnknown(e) && Accounts(d, l, e)
  {
    OtherMoves(d, l);
    hide Inv, Unmoved, Step, ClosesFirst, NewestIsUnknown, Accounts;
    UnmovedAccounts(d, l, Step(d, l));
  }

  lemma OtherMoves(d: Daemon, l: Label)
    requires Wired(d) && Enabled(d, l) && (l.LaunchContinues? || l.WriterCloses? || l.Broadcast?)
    ensures var e := Step(d, l);
            Wired(e) && Unmoved(d, e)
            && (e.handler == d.handler || (d.handler.Launching? && (e.handler.Idle? || e.handler.Launching?)))
  {
  }

  lemma StepAccounts(d: Daemon, l: Label)
    requires Tidy(d) && Wired(d) && Enabled(d, l)
    ensures Wired(Step(d, l)) && Tidy(Step(d, l)) && Accounts(d, l, Step(d, l))
  {
    hide Inv, Accounts, ClosesFirst, NewestIsUnknown, OnRequest, Exit, OnSpawned, OnWorker, OnStop, OnArm, OnLaunch, OnTimer, OnSweep, Send;
    AuthTheorems.StepKeeps(d, l);
    match l
    case Receive(r, fits) => RequestAccounts(d, r, fits);
    case ReceiveEnd => ExitAccounts(d, l);
    case WorkerFails => ExitAccounts(d, l);
    case WorkerSpawned => SpawnAccounts(d, l);
    case WorkerSays(_, _) => WorkerAccounts(d, l);
    case StopContinues => StopStepAccounts(d, l);
    case Arm => ArmAccounts(d, l);
    case TimerRuns(_) => TimerAccounts(d, l);
    case SweepRuns => SweepAccounts(d, l);
    case _ => OtherAccounts(d, l);
  }
}
