/**
 * The daemon's tasks for one client as they are written: `ClientState`, authentication sessions and
 * timeout tasks are objects, compared by identity and changed in place. Every method is the code that
 * one task runs between two awaits, and does to the objects what `AuthMachine` does to their values.
 */
module ClientTasks {
  import opened Wrappers
  import opened AuthMachine
  import opened SizeBounds
  import Utf8

  class AuthSessionState {
    const id: SessionId
    const username: string
    const request: nat
    var ready: bool
    var closed: bool
    var sent: seq<ToWorker>
    var received: seq<FromWorker>
    var relayed: seq<nat>

    constructor (id: SessionId, username: string, request: nat)
      ensures this.id == id && Value() == Session(username, request, false, false, [Start(username)], [], [])
    {
      this.id, this.username, this.request := id, username, request;
      ready, closed, sent, received, relayed := false, false, [Start(username)], [], [];
    }

    ghost function Value(): Session
      reads this
    {
      Session(username, request, ready, closed, sent, received, relayed)
    }
  }

  class TimeoutTask {
    const id: TimerId
    const session: AuthSessionState
    var stage: Stage
    var cancelled: bool
    var slept: int
    var warnings: nat

    constructor (id: TimerId, session: AuthSessionState)
      ensures this.id == id && this.session == session && Value() == Timer(session.id, TNew, false, 0, 0)
    {
      this.id, this.session := id, session;
      stage, cancelled, slept, warnings := TNew, false, 0, 0;
    }

    ghost function Value(): Timer
      reads this
    {
      Timer(session.id, stage, cancelled, slept, warnings)
    }
  }

  /** The handler's position names an existing session, if it names one. */
  predicate InRange(h: Handler, sessions: nat) {
    match h
    case FirstMessage(_, s) => s < sessions
    case Replying(_, s) => s < sessions
    case Arming(s) => s < sessions
    case Stopping(s, _, _) => s < sessions
    case _ => true
  }

  class ClientState {
    const timeout: int
    var authSession: AuthSessionState?
    var authTimer: TimeoutTask?
    var hasWriter: bool
    var handler: Handler
    var sweep: Sweep
    /** Every session and timeout task created for the client so far. */
    var sessions: seq<AuthSessionState>
    var timers: seq<TimeoutTask>
    ghost var requests: seq<nat>
    var out: seq<Sent>
    ghost var log: seq<Log>

    ghost predicate Known(s: AuthSessionState)
      reads this
    {
      s.id < |sessions| && sessions[s.id] == s
    }

    ghost predicate Valid()
      reads this, sessions, timers
    {
      && (forall i | 0 <= i < |sessions| :: sessions[i].id == i)
      && (forall i | 0 <= i < |timers| :: timers[i].id == i && Known(timers[i].session))
      && (authSession != null ==> Known(authSession))
      && (authTimer != null ==> authTimer.id < |timers| && timers[authTimer.id] == authTimer)
      && Wired(View())
    }

    ghost function Sessions(): seq<Session>
      reads this, sessions
    {
      seq(|sessions|, i requires 0 <= i < |sessions| reads this, sessions => sessions[i].Value())
    }

    ghost function Timers(): seq<Timer>
      reads this, timers
    {
      seq(|timers|, i requires 0 <= i < |timers| reads this, timers => timers[i].Value())
    }

    /** The value that the objects stand for. */
    ghost function View(): Daemon
      reads this, sessions, timers
    {
      Daemon(timeout,
             if authSession == null then None else Some(authSession.id),
             if authTimer == null then None else Some(authTimer.id),
             Sessions(), Timers(), handler, sweep, hasWriter, requests, out, log)
    }

    constructor (timeout: int)
      ensures Valid() && View() == Init(timeout)
    {
      this.timeout := timeout;
      authSession, authTimer, hasWriter := null, null, true;
      handler, sweep, sessions, timers := Idle, NotStarted, [], [];
      requests, out, log := [], [], [];
    }

    // ---------- pieces ----------

    lemma ValidWired()
      requires Valid()
      ensures Wired(View())
    {
    }

    method CancelAuthTimeout()
      requires Valid()
      modifies this`authTimer, timers
      ensures Valid() && View() == CancelTimeout(old(View()))
    {
      if authTimer != null {
        authTimer.cancelled := true;
        ghost var t := authTimer.id;
        assert Timers() == old(Timers())[t := old(Timers())[t].(cancelled := true)];
        authTimer := null;
      }
    }

    method SendMessage(m: Message, fits: bool)
      requires Valid()
      modifies this`out
      ensures Valid() && View() == Send(old(View()), m, fits)
    {
      out := out + [Sent(m, hasWriter && fits)];
    }

    method WriteTo(s: AuthSessionState, m: ToWorker)
      requires Valid() && Known(s)
      modifies s`sent
      ensures Valid() && View() == Write(old(View()), s.id, m)
    {
      s.sent := s.sent + [m];
      assert Sessions() == old(Sessions())[s.id := s.Value()];
    }

    method CloseChannel(s: AuthSessionState)
      requires Valid() && Known(s)
      modifies s`closed
      ensures Valid() && View() == Close(old(View()), s.id)
    {
      s.closed := true;
      assert Sessions() == old(Sessions())[s.id := s.Value()];
    }

    ghost method Record(entry: Log)
      requires Valid()
      modifies this`log
      ensures Valid() && View() == Note(old(View()), entry)
    {
      log := log + [entry];
    }

    method GoOn(after: After)
      requires Valid()
      modifies this`handler, this`out, this`hasWriter
      ensures Valid() && View() == Resume(old(View()), after)
    {
      hide View, Valid;
      ValidWired();
      match after
      case ThenCreate(id, user) => MoveTo(Spawning(id, user));
      case ThenRefuse(id, code, fits) =>
        SendMessage(Response(id, Refused(code)), fits);
        MoveTo(Idle);
      case ThenAccept(id) =>
        SendMessage(Response(id, Done), true);
        MoveTo(Idle);
      case ThenExit =>
        MoveTo(Gone);
        DropWriter();
    }

    /** The handler task suspends at its next await. */
    method MoveTo(next: Handler)
      requires Valid() && InRange(next, |sessions|)
      modifies this`handler
      ensures Valid() && View() == old(View()).(handler := next)
    {
      handler := next;
      assert Sessions() == old(Sessions()) && Timers() == old(Timers());
    }

    /** `close_client_channel` as far as the channel goes; what is sent afterwards is lost. */
    method DropWriter()
      requires Valid()
      modifies this`hasWriter
      ensures Valid() && View() == old(View()).(open := false)
    {
      hasWriter := false;
      assert Sessions() == old(Sessions()) && Timers() == old(Timers());
    }

    /** `stop_client_auth_session`, up to its first await. */
    method StopClientAuthSession(sendCancel: bool, after: After)
      requires Valid()
      modifies this`authTimer, this`handler, this`out, this`hasWriter, timers, sessions
      ensures Valid() && View() == StopSession(old(View()), sendCancel, after)
    {
      hide CancelTimeout, Resume;
      CancelAuthTimeout();
      if authSession == null {
        GoOn(after);
      } else if sendCancel {
        WriteTo(authSession, Cancel);
        MoveTo(Stopping(authSession.id, CancelWritten, after));
      } else {
        CloseChannel(authSession);
        MoveTo(Stopping(authSession.id, ChannelClosed, after));
      }
    }

    /** What the tasks read of the objects, in terms of the view. */
    lemma Reads()
      requires Valid()
      ensures var d := View();
              && Wired(d) && d.handler == handler && d.sweep == sweep && d.timeout == timeout && d.open == hasWriter
              && |d.sessions| == |sessions| && |d.timers| == |timers|
              && (authSession == null <==> d.cur.None?) && (authTimer == null <==> d.authTimer.None?)
              && (authSession != null ==> d.cur == Some(authSession.id) && Known(authSession))
              && (authTimer != null ==> d.authTimer == Some(authTimer.id) && timers[authTimer.id] == authTimer)
              && (forall s {:trigger d.sessions[s]} | 0 <= s < |sessions| :: d.sessions[s] == sessions[s].Value() && Known(sessions[s]))
              && (forall s {:trigger sessions[s]} | 0 <= s < |sessions| :: sessions[s].id == s && Known(sessions[s]))
              && (forall t {:trigger timers[t]} | 0 <= t < |timers| ::
                    timers[t].id == t && d.timers[t] == timers[t].Value() && Known(timers[t].session))
    {
      hide Wired;
      assert View().sessions == Sessions() && View().timers == Timers();
      forall s {:trigger View().sessions[s]} | 0 <= s < |sessions|
        ensures View().sessions[s] == sessions[s].Value() && Known(sessions[s])
      {
        assert Sessions()[s] == sessions[s].Value() && sessions[s].id == s;
      }
    }

    /** The handler's position among the objects is in range after a change of nothing else. */
    method SetCurrent(s: AuthSessionState?)
      requires Valid() && (s != null ==> Known(s))
      modifies this`authSession
      ensures Valid() && View() == old(View()).(cur := if s == null then None else Some(s.id))
    {
      authSession := s;
      assert Sessions() == old(Sessions()) && Timers() == old(Timers());
    }

    // ---------- the handler task ----------

    /** The `finally` block of `handle_client`. */
    method LeaveLoop()
      requires Valid()
      modifies this`authTimer, this`handler, this`out, this`hasWriter, this`log, timers, sessions
      ensures Valid() && View() == Exit(old(View()))
    {
      hide View, Valid, StopSession;
      ValidWired();
      Record(LExit);
      StopClientAuthSession(true, ThenExit);
    }

    ghost method CountRequest(id: nat)
      requires Valid()
      modifies this`requests
      ensures Valid() && View() == old(View()).(requests := old(View()).requests + [id])
    {
      requests := requests + [id];
    }

    method Reply(id: nat, reply: Reply, fits: bool)
      requires Valid()
      modifies this`out
      ensures Valid() && View() == Send(old(View()), Response(id, reply), fits)
    {
      SendMessage(Response(id, reply), fits);
    }

    method HandleCreate(id: nat, username: Bytes)
      requires Valid() && handler.Idle?
      modifies this`authTimer, this`handler, this`out, this`hasWriter, this`log, timers, sessions
      ensures Valid()
      ensures old(View()).handler == Idle
      ensures View() ==
              var n := old(View());
              if AuthFieldIsTooLong(username) then Send(n, Response(id, Refused("bad_request")), true)
              else
                var user := Utf8.DecodeReplace(username);
                var accepted := Note(n, LAccept(user, id));
                if n.cur.Some? then StopSession(accepted, true, ThenCreate(id, user)) else accepted.(handler := Spawning(id, user))
    {
      hide View, Valid, StopSession, Utf8.DecodeReplace, AuthFieldIsTooLong;
      Reads();
      if AuthFieldIsTooLong(username) {
        Reply(id, Refused("bad_request"), true);
        return;
      }
      var user := Utf8.DecodeReplace(username);
      Record(LAccept(user, id));
      if authSession != null {
        StopClientAuthSession(true, ThenCreate(id, user));
      } else {
        MoveTo(Spawning(id, user));
      }
    }

    /** `shown` is the client's own record of the prompt it answers; it is not on the wire. */
    method HandleContinue(id: nat, response: Bytes, shown: Shown)
      requires Valid() && handler.Idle?
      modifies this`handler, this`out, sessions
      ensures Valid()
      ensures View() ==
              var n := old(View());
              if n.cur.None? then Send(n, Response(id, Refused("session_not_found")), true)
              else if n.sessions[n.cur.value].ready || AuthFieldIsTooLong(response) then
                Send(n, Response(id, Refused("bad_request")), true)
              else if n.sessions[n.cur.value].closed then n.(handler := Raising(id))
              else Write(n, n.cur.value, Answer(response, shown, id)).(handler := Replying(id, n.cur.value))
    {
      hide View, Valid, AuthFieldIsTooLong;
      Reads();
      var s := authSession;
      if s == null {
        Reply(id, Refused("session_not_found"), true);
        return;
      }
      if s.ready {
        Reply(id, Refused("bad_request"), true);
        return;
      }
      if AuthFieldIsTooLong(response) {
        Reply(id, Refused("bad_request"), true);
        return;
      }
      if s.closed {
        MoveTo(Raising(id));
        return;
      }
      WriteTo(s, Answer(response, shown, id));
      MoveTo(Replying(id, s.id));
    }

    /** `process_request` for a start-session, and the response to it. */
    method HandleStart(id: nat, command: string)
      requires Valid() && handler.Idle?
      modifies this`authSession, this`authTimer, this`handler, this`out, this`log, timers
      ensures Valid()
      ensures View() ==
              var n := old(View());
              if n.cur.None? then Send(n, Response(id, Refused("session_not_found")), true)
              else if !n.sessions[n.cur.value].ready then Send(n, Response(id, Refused("session_not_ready")), true)
              else
                var user := n.sessions[n.cur.value].user;
                Note(Send(CancelTimeout(n).(cur := None), Response(id, Done), true), LAuthorize(user, command))
                  .(handler := Launching(user, command, 0))
    {
      hide View, Valid, CancelTimeout;
      Reads();
      var s := authSession;
      if s == null {
        Reply(id, Refused("session_not_found"), true);
        return;
      }
      if !s.ready {
        Reply(id, Refused("session_not_ready"), true);
        return;
      }
      CancelAuthTimeout();
      SetCurrent(null);
      Reply(id, Done, true);
      Record(LAuthorize(s.username, command));
      MoveTo(Launching(s.username, command, 0));
    }

    /** `handle_request_async`, up to its first await. */
    method HandleRequest(r: Request, fits: bool)
      requires Valid() && handler.Idle?
      modifies this`authSession, this`authTimer, this`handler, this`out, this`hasWriter, this`requests, this`log, timers, sessions
      ensures Valid() && View() == OnRequest(old(View()), r, fits)
    {
      hide View, Valid, StopSession, CancelTimeout, Utf8.DecodeReplace, AuthFieldIsTooLong;
      Reads();
      CountRequest(r.id);
      match r.body
      case Create(username) => HandleCreate(r.id, username);
      case Continue(response, shown) => HandleContinue(r.id, response, shown);
      case CancelSession =>
        Record(LCancel);
        StopClientAuthSession(true, ThenAccept(r.id));
      case StartSession(command) => HandleStart(r.id, command);
      case Query => Reply(r.id, Info, fits);
    }

    /** The worker of a create-session is running and has been sent its start message. */
    method WorkerSpawned()
      requires Valid() && handler.Spawning?
      modifies this`sessions, this`handler
      ensures Valid() && View() == OnSpawned(old(View()))
      ensures |sessions| == |old(sessions)| + 1 && old(sessions) <= sessions && fresh(sessions[|old(sessions)|])
    {
      var id, user := handler.id, handler.user;
      var s := new AuthSessionState(|sessions|, user, id);
      sessions := sessions + [s];
      handler := FirstMessage(id, s.id);
      assert Sessions() == old(Sessions()) + [s.Value()];
      assert Timers() == old(Timers());
    }

    /** A worker message has been read for the awaited session. */
    method Hear(s: AuthSessionState, m: FromWorker, id: nat, isFirst: bool)
      requires Valid() && Known(s)
      modifies this`authSession, s`ready, s`received, s`relayed
      ensures Valid()
      ensures var d := old(View());
              var heard := Hears(d.sessions[s.id], m, id);
              View() == d.(sessions := d.sessions[s.id := heard], cur := if isFirst then Some(s.id) else d.cur)
    {
      hide View, Valid;
      Take(s, m, id);
      if isFirst {
        Reads();
        SetCurrent(s);
      }
    }

    method Take(s: AuthSessionState, m: FromWorker, id: nat)
      requires Valid() && Known(s)
      modifies s`ready, s`received, s`relayed
      ensures Valid()
      ensures var d := old(View());
              var heard := Hears(d.sessions[s.id], m, id);
              View() == d.(sessions := d.sessions[s.id := heard])
    {
      hide Wired;
      s.received := s.received + [m];
      if m.IsReady? {
        s.ready := true;
      }
      if m.Asked? {
        s.relayed := s.relayed + [id];
      }
      assert Sessions() == old(Sessions())[s.id := s.Value()];
      assert Timers() == old(Timers());
      StillWired(old(View()), View());
    }

    /** Changing a session's or a timer's own state moves no reference. */
    lemma StillWired(d: Daemon, e: Daemon)
      requires Wired(d) && e.cur == d.cur && e.authTimer == d.authTimer && e.handler == d.handler && e.sweep == d.sweep
      requires |e.sessions| == |d.sessions| && |e.timers| == |d.timers|
      requires forall t | 0 <= t < |d.timers| :: e.timers[t].session == d.timers[t].session
      ensures Wired(e)
    {
    }

    /** What follows a worker message in `handle_request_async`. */
    method WorkerSays(m: FromWorker, fits: bool)
      requires Valid() && Awaited(handler).Some?
      modifies this`authSession, this`authTimer, this`handler, this`out, this`hasWriter, this`log, timers, sessions
      ensures Valid() && View() == OnWorker(old(View()), m, fits)
    {
      hide View, Valid, StopSession, CancelTimeout, Exit;
      Reads();
      var s := sessions[Awaited(handler).value];
      var id := handler.id;
      Hear(s, m, id, handler.FirstMessage?);
      match m
      case Asked(prompt) =>
        Reply(id, Pending(prompt), fits);
        MoveTo(Arming(s.id));
      case IsReady =>
        CancelAuthTimeout();
        Reply(id, Ready, true);
        Record(LReady(s.username));
        MoveTo(Idle);
      case HasFailed(code) => StopClientAuthSession(false, ThenRefuse(id, code, fits));
      case Closed => StopClientAuthSession(false, ThenRefuse(id, "auth_failed", true));
      case Unexpected => LeaveLoop();
    }

    method StopContinues()
      requires Valid() && handler.Stopping?
      modifies this`authSession, this`handler, this`out, this`hasWriter, sessions
      ensures Valid() && View() == OnStop(old(View()))
    {
      hide View, Valid, Resume;
      Reads();
      var Stopping(target, stage, after) := handler;
      if stage.CancelWritten? {
        CloseChannel(sessions[target]);
        MoveTo(Stopping(target, ChannelClosed, after));
      } else {
        SetCurrent(null);
        GoOn(after);
      }
    }

    /** `reset_auth_timeout`, after the prompt was passed on. */
    method ResetAuthTimeout()
      requires Valid() && handler.Arming?
      modifies this`authTimer, this`handler, this`timers, timers
      ensures Valid() && View() == OnArm(old(View()))
    {
      hide View, Valid, CancelTimeout;
      Reads();
      var s := sessions[handler.session];
      CancelAuthTimeout();
      MoveTo(Idle);
      if timeout > 0 {
        AddTimer(s);
      }
    }

    method AddTimer(s: AuthSessionState)
      requires Valid() && Known(s)
      modifies this`authTimer, this`timers
      ensures Valid()
      ensures View() == old(View()).(timers := old(View()).timers + [Timer(s.id, TNew, false, 0, 0)],
                                     authTimer := Some(|old(View()).timers|))
    {
      authTimer := new TimeoutTask(|timers|, s);
      timers := timers + [authTimer];
      assert Sessions() == old(Sessions());
      assert Timers() == old(Timers()) + [authTimer.Value()];
    }

    method LaunchContinues()
      requires Valid() && handler.Launching?
      modifies this`handler, this`out, this`log
      ensures Valid() && View() == OnLaunch(old(View()))
    {
      hide View, Valid;
      Reads();
      var Launching(user, command, step) := handler;
      if step == 0 {
        SendMessage(Notice(SessionStarting), true);
        MoveTo(Launching(user, command, 1));
      } else if step == 1 {
        Record(LSpawn(user, command));
        SendMessage(Notice(StateChanged), true);
        MoveTo(Launching(user, command, 2));
      } else {
        SendMessage(Notice(ReExec), true);
        MoveTo(Idle);
      }
    }

    // ---------- timeout tasks ----------

    /** `client.auth_session is auth_session and not auth_session.ready` */
    predicate StillCurrent(s: AuthSessionState)
      reads this, s
    {
      authSession == s && !s.ready
    }

    method Advance(t: TimeoutTask, stage: Stage, sleep: int, warned: bool)
      requires Valid() && t.id < |timers| && timers[t.id] == t
      modifies t`stage, t`slept, t`warnings
      ensures Valid()
      ensures var v := old(View()).timers[t.id];
              View() == SetTimer(old(View()), t.id, v.(stage := stage, slept := v.slept + sleep,
                                                       warnings := if warned then v.warnings + 1 else v.warnings))
    {
      hide Wired;
      t.stage := stage;
      t.slept := t.slept + sleep;
      if warned {
        t.warnings := t.warnings + 1;
      }
      assert Timers() == old(Timers())[t.id := t.Value()];
      assert Sessions() == old(Sessions());
      StillWired(old(View()), View());
    }

    /** The end of `expire`, and the announcement that follows it. */
    method EndExpiry(t: TimeoutTask)
      requires Valid() && t.id < |timers| && timers[t.id] == t
      modifies this`authSession, this`authTimer, this`out, this`log
      ensures Valid()
      ensures View() ==
              var f := old(View());
              var s := f.timers[t.id].session;
              var cleared := if f.cur == Some(s) then Note(f.(cur := None), LExpire(s)) else f;
              var done := if f.authTimer == Some(t.id) then cleared.(authTimer := None) else cleared;
              Send(done, Notice(AuthExpired(s)), true)
    {
      hide View, Valid;
      Reads();
      if authSession == t.session {
        SetCurrent(null);
        Record(LExpire(t.session.id));
      }
      if authTimer == t {
        ForgetTimer();
      }
      SendMessage(Notice(AuthExpired(t.session.id)), true);
    }

    method ForgetTimer()
      requires Valid()
      modifies this`authTimer
      ensures Valid() && View() == old(View()).(authTimer := None)
    {
      authTimer := null;
      assert Sessions() == old(Sessions()) && Timers() == old(Timers());
    }

    /** `run_auth_timeout`, from one await to the next. */
    method TimerRuns(t: TimeoutTask)
      requires Valid() && t.id < |timers| && timers[t.id] == t
      modifies this`authSession, this`authTimer, this`out, this`log, t`stage, t`slept, t`warnings, sessions
      ensures Valid() && View() == OnTimer(old(View()), t.id)
    {
      hide View, Valid, WarningDelay;
      Reads();
      var s := t.session;
      var delay := WarningDelay(timeout);
      if t.cancelled {
        Advance(t, TFinished, 0, false);
        return;
      }
      match t.stage
      case TNew => Advance(t, if delay > 0 then TBeforeWarning else TAfterWarning, 0, false);
      case TBeforeWarning =>
        if StillCurrent(s) {
          Advance(t, TAfterWarning, delay, true);
          SendMessage(Notice(AuthWarning(s.id)), true);
        } else {
          Advance(t, TFinished, delay, false);
        }
      case TAfterWarning =>
        if StillCurrent(s) {
          Advance(t, TCancelSent, timeout - delay, false);
          WriteTo(s, Cancel);
        } else {
          Advance(t, TFinished, timeout - delay, false);
        }
      case TCancelSent =>
        Advance(t, TClosing, 0, false);
        CloseChannel(s);
      case TClosing =>
        Advance(t, TFinished, 0, false);
        EndExpiry(t);
      case TFinished =>
    }

    // ---------- shutdown ----------

    method MoveSweep(next: Sweep)
      requires Valid() && (next.SweepStopping? ==> next.target < |sessions|)
      modifies this`sweep
      ensures Valid() && View() == old(View()).(sweep := next)
    {
      sweep := next;
      assert Sessions() == old(Sessions()) && Timers() == old(Timers());
    }

    /** What `cleanup_async` does with this client, from one await to the next. */
    method CleanupRuns()
      requires Valid()
      modifies this`authSession, this`authTimer, this`hasWriter, this`sweep, timers, sessions
      ensures Valid() && View() == OnSweep(old(View()))
    {
      hide View, Valid, CancelTimeout;
      Reads();
      match sweep
      case NotStarted =>
        CancelAuthTimeout();
        Reads();
        if authSession == null {
          MoveSweep(Swept);
        } else {
          WriteTo(authSession, Cancel);
          MoveSweep(SweepStopping(authSession.id, CancelWritten));
        }
      case SweepStopping(s, stage) =>
        if stage.CancelWritten? {
          CloseChannel(sessions[s]);
          MoveSweep(SweepStopping(s, ChannelClosed));
        } else {
          SetCurrent(null);
          MoveSweep(Swept);
        }
      case Swept =>
        DropWriter();
        MoveSweep(Joining);
      case Joining =>
        if handler.Gone? {
          MoveSweep(Joined);
        }
      case Joined =>
    }
  }
}
