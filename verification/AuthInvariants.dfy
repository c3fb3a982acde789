/** What every reachable state of the authentication machine satisfies. */
module AuthInvariants {
  import opened Wrappers
  import opened AuthMachine
  import opened SizeBounds
  import Utf8

  // ---------- histories ----------

  function Responded(out: seq<Sent>): seq<nat> {
    if out == [] then []
    else
      var before := Responded(out[..|out| - 1]);
      var m := out[|out| - 1].message;
      if m.Response? then before + [m.id] else before
  }

  /** Replies forwarded to a worker, each with the prompt its reader was looking at. */
  function Answers(sent: seq<ToWorker>): (r: seq<ToWorker>)
    ensures forall k | 0 <= k < |r| :: r[k].Answer? && r[k] in sent
  {
    if sent == [] then []
    else
      var before := Answers(sent[..|sent| - 1]);
      var m := sent[|sent| - 1];
      if m.Answer? then before + [m] else before
  }

  function Prompts(received: seq<FromWorker>): seq<Prompt> {
    if received == [] then []
    else
      var before := Prompts(received[..|received| - 1]);
      var m := received[|received| - 1];
      if m.Asked? then before + [m.prompt] else before
  }

  predicate Accepted(log: seq<Log>, user: string, request: nat) {
    |log| >= 1 && log[|log| - 1] == LAccept(user, request)
  }

  predicate Readied(log: seq<Log>, user: string, request: nat) {
    |log| >= 2 && log[|log| - 1] == LReady(user) && log[|log| - 2] == LAccept(user, request)
  }

  predicate Authorized(log: seq<Log>, user: string, command: string) {
    && |log| >= 3 && log[|log| - 1] == LAuthorize(user, command) && log[|log| - 2] == LReady(user)
    && log[|log| - 3].LAccept? && log[|log| - 3].user == user
  }

  /**
   * A session is spawned only directly after an authorization for the same user and command, itself
   * directly after that user's worker reported ready, directly after that user's create-session was
   * accepted: no replacement, cancel, expiry, exit or other start stands in between.
   */
  predicate SpawnsAreAuthorized(log: seq<Log>) {
    forall k | 0 <= k < |log| && log[k].LSpawn? :: Authorized(log[..k], log[k].user, log[k].command)
  }

  // ---------- the invariant ----------

  predicate CurOk(d: Daemon)
    requires Wired(d)
  {
    match d.handler
    case Idle => true
    case Raising(_) => true
    case FirstMessage(_, s) => d.cur.None? && !d.sessions[s].ready
    case Replying(_, s) => (d.cur.None? || d.cur == Some(s)) && !d.sessions[s].ready
    case Arming(s) => (d.cur.None? || d.cur == Some(s)) && !d.sessions[s].ready
    case Stopping(s, _, _) => d.cur.None? || d.cur == Some(s)
    case _ => d.cur.None?
  }

  predicate TimersOk(d: Daemon)
    requires Wired(d)
  {
    && (d.handler.Stopping? || d.handler.Gone? ==> d.authTimer.None?)
    && (forall t | 0 <= t < |d.timers| && d.timers[t].Armed() ::
          && d.authTimer == Some(t)
          && !d.sessions[d.timers[t].session].ready
          && (d.sweep.NotStarted? && d.timers[t].stage in {TCancelSent, TClosing} ==> d.cur == Some(d.timers[t].session)))
  }

  /** Each task's sleeps and warnings so far; the two sleeps add up to the timeout. */
  predicate TimerOk(timer: Timer, timeout: int) {
    var delay := WarningDelay(timeout);
    var warned := if delay > 0 then 1 else 0;
    && timeout > 0
    && match timer.stage
       case TNew => timer.slept == 0 && timer.warnings == 0
       case TBeforeWarning => timer.slept == 0 && timer.warnings == 0 && delay > 0
       case TAfterWarning => timer.slept == delay && timer.warnings == warned
       case TCancelSent => timer.slept == timeout && timer.warnings == warned
       case TClosing => timer.slept == timeout && timer.warnings == warned
       case TFinished => timer.slept <= timeout && timer.warnings <= warned
  }

  predicate LogOk(d: Daemon)
    requires Wired(d)
  {
    match d.handler
    case Idle =>
      d.cur.Some? ==>
        var s := d.sessions[d.cur.value];
        if s.ready then Readied(d.log, s.user, s.request) else Accepted(d.log, s.user, s.request)
    case Spawning(id, user) => Accepted(d.log, user, id)
    case FirstMessage(_, s) => Accepted(d.log, d.sessions[s].user, d.sessions[s].request)
    case Replying(_, s) => d.cur.Some? ==> Accepted(d.log, d.sessions[s].user, d.sessions[s].request)
    case Arming(s) => d.cur.Some? ==> Accepted(d.log, d.sessions[s].user, d.sessions[s].request)
    case Stopping(_, _, ThenCreate(id, user)) => Accepted(d.log, user, id)
    case Launching(user, command, step) => step <= 1 ==> Authorized(d.log, user, command)
    case _ => true
  }

  /** The request the handler still owes a response. */
  function Owed(h: Handler): Option<nat> {
    match h
    case Spawning(id, _) => Some(id)
    case FirstMessage(id, _) => Some(id)
    case Replying(id, _) => Some(id)
    case Raising(id) => Some(id)
    case Stopping(_, _, ThenCreate(id, _)) => Some(id)
    case Stopping(_, _, ThenRefuse(id, _, _)) => Some(id)
    case Stopping(_, _, ThenAccept(id)) => Some(id)
    case _ => None
  }

  predicate Exiting(h: Handler) {
    h.Gone? || (h.Stopping? && h.after.ThenExit?)
  }

  predicate ResponsesOk(d: Daemon) {
    if Owed(d.handler).Some? then d.requests == Responded(d.out) + [Owed(d.handler).value]
    else if Exiting(d.handler) then
      || d.requests == Responded(d.out)
      || (d.requests != [] && d.requests[..|d.requests| - 1] == Responded(d.out))
    else d.requests == Responded(d.out)
  }

  /** Prompts received and answers forwarded on one channel, counted. */
  predicate ChannelOk(s: Session) {
    && s.sent != [] && s.sent[0] == Start(s.user)
    && |Answers(s.sent)| <= |Prompts(s.received)| <= |Answers(s.sent)| + 1
  }

  predicate Outstanding(s: Session) {
    |Prompts(s.received)| == |Answers(s.sent)| + 1
  }

  predicate ChannelsOk(d: Daemon)
    requires Wired(d)
  {
    && (forall s | 0 <= s < |d.sessions| :: ChannelOk(d.sessions[s]))
    && (match d.handler
        case FirstMessage(_, s) => !Outstanding(d.sessions[s])
        case Replying(_, s) => !Outstanding(d.sessions[s])
        case Arming(s) => Outstanding(d.sessions[s])
        case Idle => d.cur.Some? && !d.sessions[d.cur.value].ready ==> Outstanding(d.sessions[d.cur.value])
        case _ => true)
  }

  predicate SweepOk(d: Daemon) {
    && (d.sweep.Joined? ==> d.handler.Gone?)
    && (d.sweep.Joining? || d.sweep.Joined? || d.handler.Gone? ==> !d.open)
  }

  predicate Inv(d: Daemon) {
    && Wired(d)
    && CurOk(d)
    && TimersOk(d)
    && (forall t | 0 <= t < |d.timers| :: TimerOk(d.timers[t], d.timeout))
    && LogOk(d)
    && SpawnsAreAuthorized(d.log)
    && ResponsesOk(d)
    && ChannelsOk(d)
    && SweepOk(d)
  }

  // ---------- appending to histories ----------

  lemma LogAppend(log: seq<Log>, entry: Log)
    requires SpawnsAreAuthorized(log)
    requires entry.LSpawn? ==> Authorized(log, entry.user, entry.command)
    ensures SpawnsAreAuthorized(log + [entry])
    ensures forall u, i :: Accepted(log, u, i) && entry == LReady(u) ==> Readied(log + [entry], u, i)
    ensures forall u, i, c {:trigger Readied(log, u, i), LAuthorize(u, c)} ::
              Readied(log, u, i) && entry == LAuthorize(u, c) ==> Authorized(log + [entry], u, c)
  {
    var all := log + [entry];
    assert all[..|log|] == log;
    forall k | 0 <= k < |all| && all[k].LSpawn?
      ensures Authorized(all[..k], all[k].user, all[k].command)
    {
      if k < |log| {
        assert all[..k] == log[..k];
      }
    }
  }

  lemma OutAppend(out: seq<Sent>, s: Sent)
    ensures Responded(out + [s]) == if s.message.Response? then Responded(out) + [s.message.id] else Responded(out)
  {
    assert (out + [s])[..|out|] == out;
  }

  lemma SentAppend(sent: seq<ToWorker>, m: ToWorker)
    ensures Answers(sent + [m]) == if m.Answer? then Answers(sent) + [m] else Answers(sent)
  {
    assert (sent + [m])[..|sent|] == sent;
  }

  lemma ReceivedAppend(received: seq<FromWorker>, m: FromWorker)
    ensures Prompts(received + [m]) == if m.Asked? then Prompts(received) + [m.prompt] else Prompts(received)
  {
    assert (received + [m])[..|received|] == received;
  }

  // ---------- pieces ----------

  /** The parts of the invariant that do not look at the handler's position. */
  predicate Base(d: Daemon) {
    && Wired(d)
    && (forall t | 0 <= t < |d.timers| :: TimerOk(d.timers[t], d.timeout))
    && SpawnsAreAuthorized(d.log)
    && (forall s | 0 <= s < |d.sessions| :: ChannelOk(d.sessions[s]))
  }

  predicate NoneArmed(d: Daemon) {
    d.authTimer.None? && forall t | 0 <= t < |d.timers| :: !d.timers[t].Armed()
  }

  predicate OnlyRegisteredArmed(d: Daemon) {
    forall t | 0 <= t < |d.timers| && d.timers[t].Armed() :: d.authTimer == Some(t)
  }

  lemma CancelDisarms(d: Daemon)
    requires Base(d) && OnlyRegisteredArmed(d)
    ensures var c := CancelTimeout(d);
            Base(c) && NoneArmed(c) && c == d.(timers := c.timers, authTimer := None)
  {
    hide ChannelOk, SpawnsAreAuthorized;
  }

  lemma WriteKeeps(d: Daemon, s: SessionId, m: ToWorker)
    requires Base(d) && s < |d.sessions| && (m.Answer? ==> Outstanding(d.sessions[s]))
    ensures var w := Write(d, s, m);
            Base(w) && w.sessions[s].ready == d.sessions[s].ready && w.sessions[s].user == d.sessions[s].user
            && (Outstanding(w.sessions[s]) <==> Outstanding(d.sessions[s]) && !m.Answer?)
  {
    hide TimerOk, SpawnsAreAuthorized;
    SentAppend(d.sessions[s].sent, m);
  }

  lemma CloseKeeps(d: Daemon, s: SessionId)
    requires Base(d) && s < |d.sessions|
    ensures Base(Close(d, s))
  {
    hide TimerOk, SpawnsAreAuthorized, Answers, Prompts;
  }

  /** The request that `after` still owes, or the exit it belongs to, agrees with the responses sent. */
  predicate OwedOk(d: Daemon, after: After) {
    match after
    case ThenExit =>
      || d.requests == Responded(d.out)
      || (d.requests != [] && d.requests[..|d.requests| - 1] == Responded(d.out))
    case ThenCreate(id, user) => d.requests == Responded(d.out) + [id] && Accepted(d.log, user, id)
    case ThenRefuse(id, _, _) => d.requests == Responded(d.out) + [id]
    case ThenAccept(id) => d.requests == Responded(d.out) + [id]
  }

  predicate SweepBusy(d: Daemon) {
    !d.sweep.Joined? && (d.sweep.Joining? ==> !d.open)
  }

  /** Going on after a stop, with no session and no timer left, keeps the invariant. */
  lemma ResumeKeeps(d: Daemon, after: After)
    requires Base(d) && NoneArmed(d) && d.cur.None? && OwedOk(d, after) && SweepBusy(d)
    ensures Inv(Resume(d, after))
  {
    hide ChannelOk, TimerOk, SpawnsAreAuthorized, Responded, Accepted;
    if after.ThenRefuse? {
      OutAppend(d.out, Sent(Response(after.id, Refused(after.code)), d.open && after.fits));
    } else if after.ThenAccept? {
      OutAppend(d.out, Sent(Response(after.id, Done), d.open));
    }
  }

  lemma StoppingKeeps(d: Daemon, s: SessionId, stage: StopStage, after: After)
    requires Base(d) && NoneArmed(d) && d.cur == Some(s) && OwedOk(d, after) && SweepBusy(d)
    ensures Inv(d.(handler := Stopping(s, stage, after)))
  {
    hide ChannelOk, TimerOk, SpawnsAreAuthorized, Responded, Accepted;
  }

  /** Beginning to stop the current session keeps the invariant, given what is owed and logged. */
  lemma StopKeeps(d: Daemon, sendCancel: bool, after: After)
    requires Base(d) && OnlyRegisteredArmed(d) && OwedOk(d, after) && SweepBusy(d)
    ensures Inv(StopSession(d, sendCancel, after))
  {
    hide ChannelOk, TimerOk, SpawnsAreAuthorized, OwedOk, Inv, Base, Resume;
    BaseWired(d);
    CancelDisarms(d);
    var c := CancelTimeout(d);
    OwedIgnores(d, c, after);
    BaseWired(c);
    if c.cur.None? {
      ResumeKeeps(c, after);
    } else if sendCancel {
      var w := Write(c, c.cur.value, Cancel);
      WriteKeeps(c, c.cur.value, Cancel);
      OwedIgnores(c, w, after);
      StoppingKeeps(w, c.cur.value, CancelWritten, after);
    } else {
      var w := Close(c, c.cur.value);
      CloseKeeps(c, c.cur.value);
      OwedIgnores(c, w, after);
      StoppingKeeps(w, c.cur.value, ChannelClosed, after);
    }
  }

  lemma OwedIgnores(d: Daemon, e: Daemon, after: After)
    requires d.requests == e.requests && d.out == e.out && d.log == e.log
    ensures OwedOk(d, after) <==> OwedOk(e, after)
  {
  }

  lemma BaseWired(d: Daemon)
    ensures Base(d) ==> Wired(d)
  {
  }

  // ---------- steps of the handler ----------

  lemma InvBase(d: Daemon)
    requires Inv(d)
    ensures Base(d) && OnlyRegisteredArmed(d)
    ensures !d.handler.Gone? ==> SweepBusy(d)
  {
    hide ChannelOk, TimerOk, SpawnsAreAuthorized, LogOk, ResponsesOk, CurOk, Outstanding;
  }

  lemma ReplyKeeps(d: Daemon, id: nat, reply: Reply, fits: bool)
    requires Inv(d) && d.handler.Idle?
    ensures Inv(Send(d.(requests := d.requests + [id]), Response(id, reply), fits))
  {
    hide ChannelOk, TimerOk, SpawnsAreAuthorized, Responded, Accepted, Readied, Outstanding;
    OutAppend(d.out, Sent(Response(id, reply), d.open && fits));
  }

  lemma CreateKeeps(d: Daemon, r: Request, fits: bool)
    requires Inv(d) && d.handler.Idle? && r.body.Create? && !AuthFieldIsTooLong(r.body.username)
    ensures Inv(OnRequest(d, r, fits))
  {
    hide ChannelOk, TimerOk, SpawnsAreAuthorized, Responded, Outstanding, StopSession, Utf8.DecodeReplace;
    var user := Utf8.DecodeReplace(r.body.username);
    var n := Note(d.(requests := d.requests + [r.id]), LAccept(user, r.id));
    LogAppend(d.log, LAccept(user, r.id));
    InvBase(d);
    if d.cur.Some? {
      StopKeeps(n, true, ThenCreate(r.id, user));
    }
  }

  lemma ContinueKeeps(d: Daemon, r: Request, fits: bool)
    requires Inv(d) && d.handler.Idle? && r.body.Continue?
    requires d.cur.Some? && !d.sessions[d.cur.value].ready && !AuthFieldIsTooLong(r.body.response)
    ensures Inv(OnRequest(d, r, fits))
  {
    hide ChannelOk, TimerOk, SpawnsAreAuthorized, Responded, Accepted, Readied, Authorized, Outstanding;
    var n := d.(requests := d.requests + [r.id]);
    InvBase(d);
    WriteKeeps(n, d.cur.value, Answer(r.body.response, r.body.shown, r.id));
  }

  lemma StartKeeps(d: Daemon, r: Request, fits: bool)
    requires Inv(d) && d.handler.Idle? && r.body.StartSession?
    requires d.cur.Some? && d.sessions[d.cur.value].ready
    ensures Inv(OnRequest(d, r, fits))
  {
    hide ChannelOk, TimerOk, SpawnsAreAuthorized, Responded, Readied, Authorized, Outstanding, CancelTimeout;
    var user := d.sessions[d.cur.value].user;
    var n := d.(requests := d.requests + [r.id]);
    InvBase(d);
    CancelDisarms(n);
    OutAppend(d.out, Sent(Response(r.id, Done), d.open));
    LogAppend(d.log, LAuthorize(user, r.body.command));
  }

  lemma CancelKeeps(d: Daemon, r: Request, fits: bool)
    requires Inv(d) && d.handler.Idle? && r.body.CancelSession?
    ensures Inv(OnRequest(d, r, fits))
  {
    hide ChannelOk, TimerOk, SpawnsAreAuthorized, Responded, Outstanding, StopSession;
    var n := Note(d.(requests := d.requests + [r.id]), LCancel);
    LogAppend(d.log, LCancel);
    InvBase(d);
    StopKeeps(n, true, ThenAccept(r.id));
  }

  lemma RequestKeeps(d: Daemon, r: Request, fits: bool)
    requires Inv(d) && d.handler.Idle?
    ensures Inv(OnRequest(d, r, fits))
  {
    hide Inv, StopSession, Write, CancelTimeout, Utf8.DecodeReplace, Note;
    InvWired(d);
    match r.body
    case Create(username) =>
      if AuthFieldIsTooLong(username) {
        ReplyKeeps(d, r.id, Refused("bad_request"), true);
      } else {
        CreateKeeps(d, r, fits);
      }
    case Continue(response, _) =>
      if d.cur.Some? && !d.sessions[d.cur.value].ready && !AuthFieldIsTooLong(response) {
        ContinueKeeps(d, r, fits);
      } else {
        ReplyKeeps(d, r.id, Refused(if d.cur.None? then "session_not_found" else "bad_request"), true);
      }
    case CancelSession => CancelKeeps(d, r, fits);
    case StartSession(_) =>
      if d.cur.Some? && d.sessions[d.cur.value].ready {
        StartKeeps(d, r, fits);
      } else {
        ReplyKeeps(d, r.id, Refused(if d.cur.None? then "session_not_found" else "session_not_ready"), true);
      }
    case Query => ReplyKeeps(d, r.id, Info, fits);
  }

  lemma InvWired(d: Daemon)
    ensures Inv(d) ==> Wired(d)
  {
  }

  /** Leaving the request loop, from any position where nothing is being stopped. */
  lemma ExitKeeps(d: Daemon)
    requires Base(d) && OnlyRegisteredArmed(d) && OwedOk(d, ThenExit) && SweepBusy(d)
    ensures Inv(Exit(d))
  {
    hide StopSession, ChannelOk, TimerOk, Inv, Base;
    BaseWired(d);
    LogAppendBase(d, LExit);
    StopKeeps(Note(d, LExit), true, ThenExit);
  }

  lemma LogAppendBase(d: Daemon, entry: Log)
    requires Base(d) && !entry.LSpawn?
    ensures Base(Note(d, entry))
  {
    hide ChannelOk, TimerOk, SpawnsAreAuthorized;
    LogAppend(d.log, entry);
  }

  /** A run may end between any two steps of the handler while a request is owed or none is. */
  lemma ExitOwed(d: Daemon)
    requires Inv(d) && !d.handler.Gone? && !d.handler.Stopping?
    ensures OwedOk(d, ThenExit)
  {
    hide ChannelOk, TimerOk, SpawnsAreAuthorized, LogOk, Responded, CurOk, Outstanding;
    if Owed(d.handler).Some? {
      assert d.requests[..|d.requests| - 1] == Responded(d.out);
    }
  }

  lemma FailureKeeps(d: Daemon)
    requires Inv(d) && !d.handler.Gone? && !d.handler.Stopping?
    ensures Inv(Exit(d))
  {
    hide Inv, Exit, Base, OwedOk;
    InvWired(d);
    InvBase(d);
    ExitOwed(d);
    BaseWired(d);
    ExitKeeps(d);
  }

  lemma NewChannel(user: string, request: nat)
    ensures var s := Session(user, request, false, false, [Start(user)], [], []);
            ChannelOk(s) && !Outstanding(s)
  {
    SentAppend([], Start(user));
    assert [] + [Start(user)] == [Start(user)];
  }

  lemma SpawnedKeeps(d: Daemon)
    requires Inv(d) && d.handler.Spawning?
    ensures Inv(OnSpawned(d))
  {
    hide TimerOk, SpawnsAreAuthorized, Responded, Accepted, ChannelOk, Outstanding;
    NewChannel(d.handler.user, d.handler.id);
  }

  lemma ChannelHears(s: Session, m: FromWorker, id: nat)
    requires ChannelOk(s) && !Outstanding(s)
    ensures var heard := Hears(s, m, id);
            ChannelOk(heard) && (Outstanding(heard) <==> m.Asked?)
  {
    ReceivedAppend(s.received, m);
  }

  lemma HeardKeeps(d: Daemon, s: SessionId, m: FromWorker, id: nat)
    requires Base(d) && s < |d.sessions| && !Outstanding(d.sessions[s])
    ensures var heard := Hears(d.sessions[s], m, id);
            Base(d.(sessions := d.sessions[s := heard])) && (Outstanding(heard) <==> m.Asked?)
  {
    hide TimerOk, SpawnsAreAuthorized, ChannelOk, Outstanding;
    ChannelHears(d.sessions[s], m, id);
  }

  /** The state in which the handler has just read `m`, before it acts on it. */
  function Heard(d: Daemon, m: FromWorker): Daemon
    requires Wired(d) && Awaited(d.handler).Some?
  {
    var s := Awaited(d.handler).value;
    var session := d.sessions[s];
    d.(sessions := d.sessions[s := Hears(session, m, d.handler.id)], cur := if d.handler.FirstMessage? then Some(s) else d.cur)
  }

  lemma HeardFacts(d: Daemon, m: FromWorker)
    requires Inv(d) && Awaited(d.handler).Some?
    ensures var s := Awaited(d.handler).value;
            var n := Heard(d, m);
            && Base(n) && OnlyRegisteredArmed(n) && SweepBusy(n)
            && (Outstanding(n.sessions[s]) <==> m.Asked?)
            && n.requests == Responded(n.out) + [d.handler.id]
            && (n.cur.None? || n.cur == Some(s))
            && (n.cur.Some? ==> Accepted(n.log, n.sessions[s].user, n.sessions[s].request))
            && n.sessions[s].ready == m.IsReady?
  {
    hide ChannelOk, TimerOk, SpawnsAreAuthorized, Responded, Accepted, Outstanding;
    InvBase(d);
    HeardKeeps(d, Awaited(d.handler).value, m, d.handler.id);
  }

  lemma AskedKeeps(d: Daemon, prompt: Prompt, fits: bool)
    requires Inv(d) && Awaited(d.handler).Some?
    ensures Inv(OnWorker(d, Asked(prompt), fits))
  {
    hide ChannelOk, SpawnsAreAuthorized, Responded, Accepted, Outstanding, TimerOk;
    HeardFacts(d, Asked(prompt));
    OutAppend(d.out, Sent(Response(d.handler.id, Pending(prompt)), d.open && fits));
  }

  lemma ReadyKeeps(d: Daemon, fits: bool)
    requires Inv(d) && Awaited(d.handler).Some?
    ensures Inv(OnWorker(d, IsReady, fits))
  {
    hide ChannelOk, SpawnsAreAuthorized, Responded, Accepted, Readied, Outstanding, TimerOk, CancelTimeout;
    var n := Heard(d, IsReady);
    HeardFacts(d, IsReady);
    CancelDisarms(n);
    OutAppend(d.out, Sent(Response(d.handler.id, Ready), d.open));
    LogAppend(d.log, LReady(d.sessions[Awaited(d.handler).value].user));
  }

  lemma EndedKeeps(d: Daemon, m: FromWorker, fits: bool)
    requires Inv(d) && Awaited(d.handler).Some? && (m.HasFailed? || m.Closed? || m.Unexpected?)
    ensures Inv(OnWorker(d, m, fits))
  {
    hide ChannelOk, SpawnsAreAuthorized, Responded, Accepted, Outstanding, TimerOk, StopSession, Exit, Inv, Base;
    InvWired(d);
    var n := Heard(d, m);
    HeardFacts(d, m);
    BaseWired(n);
    if m.Unexpected? {
      assert n.requests[..|n.requests| - 1] == Responded(n.out);
      ExitKeeps(n);
    } else {
      StopKeeps(n, false, ThenRefuse(d.handler.id, if m.HasFailed? then m.code else "auth_failed", m.HasFailed? ==> fits));
    }
  }

  lemma WorkerKeeps(d: Daemon, m: FromWorker, fits: bool)
    requires Inv(d) && Awaited(d.handler).Some?
    ensures Inv(OnWorker(d, m, fits))
  {
    hide Inv, OnWorker;
    InvWired(d);
    match m
    case Asked(prompt) => AskedKeeps(d, prompt, fits);
    case IsReady => ReadyKeeps(d, fits);
    case _ => EndedKeeps(d, m, fits);
  }

  lemma StopStepKeeps(d: Daemon)
    requires Inv(d) && d.handler.Stopping?
    ensures Inv(OnStop(d))
  {
    hide ChannelOk, SpawnsAreAuthorized, Responded, Accepted, TimerOk, Resume;
    InvBase(d);
    if d.handler.stage.CancelWritten? {
      CloseKeeps(d, d.handler.target);
    } else {
      ResumeKeeps(d.(cur := None), d.handler.after);
    }
  }

  lemma ArmKeeps(d: Daemon)
    requires Inv(d) && d.handler.Arming?
    ensures Inv(OnArm(d))
  {
    hide ChannelOk, SpawnsAreAuthorized, Responded, Accepted, Readied, Outstanding, CancelTimeout;
    InvBase(d);
    CancelDisarms(d);
  }

  lemma LaunchKeeps(d: Daemon)
    requires Inv(d) && d.handler.Launching?
    ensures Inv(OnLaunch(d))
  {
    hide ChannelOk, SpawnsAreAuthorized, Responded, Authorized, TimerOk, Outstanding;
    var Launching(user, command, step) := d.handler;
    OutAppend(d.out, Sent(Notice(SessionStarting), d.open));
    OutAppend(d.out, Sent(Notice(StateChanged), d.open));
    OutAppend(d.out, Sent(Notice(ReExec), d.open));
    if step == 1 {
      LogAppend(d.log, LSpawn(user, command));
    }
  }

  lemma BroadcastKeeps(d: Daemon, e: Event)
    requires Inv(d)
    ensures Inv(Send(d, Notice(e), true))
  {
    hide ChannelOk, SpawnsAreAuthorized, Responded, Authorized, Accepted, Readied, TimerOk, Outstanding;
    OutAppend(d.out, Sent(Notice(e), d.open));
  }

  // ---------- steps of the timeout task and of shutdown ----------

  /** A timeout task may move on as long as it keeps its session and stays within its budget. */
  lemma SetTimerKeeps(d: Daemon, t: TimerId, timer: Timer)
    requires Inv(d) && t < |d.timers| && timer.session == d.timers[t].session && TimerOk(timer, d.timeout)
    requires timer.Armed() ==> d.timers[t].Armed()
    requires timer.Armed() && timer.stage in {TCancelSent, TClosing} && d.sweep.NotStarted? ==> d.cur == Some(timer.session)
    ensures Inv(SetTimer(d, t, timer))
  {
    hide SpawnsAreAuthorized, Responded, Accepted, Readied, Authorized, ChannelOk, Outstanding, TimerOk;
  }

  /** The last step of an expiry, taken by the registered task when it is done with its session. */
  lemma ExpireKeeps(d: Daemon, t: TimerId, s: SessionId)
    requires Inv(d) && NoneElseArmed(d, t)
    requires d.cur == Some(s) ==> !d.handler.Stopping?
    ensures var cleared := if d.cur == Some(s) then Note(d.(cur := None), LExpire(s)) else d;
            Inv(if d.authTimer == Some(t) then cleared.(authTimer := None) else cleared)
  {
    hide SpawnsAreAuthorized, Responded, Accepted, Readied, Authorized, ChannelOk, Outstanding, TimerOk;
    LogAppend(d.log, LExpire(s));
  }

  predicate NoneElseArmed(d: Daemon, t: TimerId) {
    && d.authTimer == Some(t)
    && forall u | 0 <= u < |d.timers| :: !d.timers[u].Armed()
  }

  lemma TimerWritesKeep(d: Daemon, t: TimerId)
    requires Inv(d) && t < |d.timers| && d.timers[t].Armed() && d.timers[t].stage in {TAfterWarning, TCancelSent, TBeforeWarning}
    ensures Inv(OnTimer(d, t))
  {
    hide SpawnsAreAuthorized, Responded, Accepted, Readied, Authorized, ChannelOk, Outstanding, Inv;
    InvTimers(d, t);
    var timer := d.timers[t];
    var s := timer.session;
    var delay := WarningDelay(d.timeout);
    match timer.stage
    case TBeforeWarning =>
      var slept := timer.(slept := timer.slept + delay);
      if IsCurrent(d, s) {
        var next := slept.(stage := TAfterWarning, warnings := timer.warnings + 1);
        SetTimerKeeps(d, t, next);
        BroadcastKeeps(SetTimer(d, t, next), AuthWarning(s));
      } else {
        SetTimerKeeps(d, t, slept.(stage := TFinished));
      }
    case TAfterWarning =>
      var slept := timer.(slept := timer.slept + (d.timeout - delay));
      if IsCurrent(d, s) {
        SetTimerKeeps(d, t, slept.(stage := TCancelSent));
        WriteKeepsInv(SetTimer(d, t, slept.(stage := TCancelSent)), s);
      } else {
        SetTimerKeeps(d, t, slept.(stage := TFinished));
      }
    case TCancelSent =>
      SetTimerKeeps(d, t, timer.(stage := TClosing));
      CloseKeepsInv(SetTimer(d, t, timer.(stage := TClosing)), s);
  }

  lemma InvTimers(d: Daemon, t: TimerId)
    requires Inv(d) && t < |d.timers|
    ensures Wired(d) && TimerOk(d.timers[t], d.timeout)
    ensures d.timers[t].Armed() ==>
              && d.authTimer == Some(t) && !d.handler.Stopping?
              && (forall u | 0 <= u < |d.timers| && u != t :: !d.timers[u].Armed())
              && (d.sweep.NotStarted? && d.timers[t].stage in {TCancelSent, TClosing} ==> d.cur == Some(d.timers[t].session))
  {
    hide SpawnsAreAuthorized, Responded, Accepted, Readied, Authorized, ChannelOk, Outstanding, TimerOk;
  }

  /** Writing cancel to a channel disturbs nothing but that channel. */
  lemma WriteKeepsInv(d: Daemon, s: SessionId)
    requires Inv(d) && s < |d.sessions|
    ensures Inv(Write(d, s, Cancel))
  {
    hide SpawnsAreAuthorized, Responded, Accepted, Readied, Authorized, ChannelOk, Outstanding, TimerOk;
    InvBase(d);
    WriteKeeps(d, s, Cancel);
  }

  lemma CloseKeepsInv(d: Daemon, s: SessionId)
    requires Inv(d) && s < |d.sessions|
    ensures Inv(Close(d, s))
  {
    hide SpawnsAreAuthorized, Responded, Accepted, Readied, Authorized, TimerOk, Prompts, Answers;
    InvBase(d);
    CloseKeeps(d, s);
  }

  lemma TimerKeeps(d: Daemon, t: TimerId)
    requires Inv(d) && t < |d.timers|
    ensures Inv(OnTimer(d, t))
  {
    hide SpawnsAreAuthorized, Responded, Accepted, Readied, Authorized, ChannelOk, Outstanding, Inv;
    InvTimers(d, t);
    var timer := d.timers[t];
    if !timer.Armed() {
      SetTimerKeeps(d, t, timer.(stage := TFinished));
    } else if timer.stage.TNew? {
      SetTimerKeeps(d, t, timer.(stage := if WarningDelay(d.timeout) > 0 then TBeforeWarning else TAfterWarning));
    } else if timer.stage.TClosing? {
      var s := timer.session;
      var f := SetTimer(d, t, timer.(stage := TFinished));
      SetTimerKeeps(d, t, timer.(stage := TFinished));
      ExpireKeeps(f, t, s);
      var cleared := if f.cur == Some(s) then Note(f.(cur := None), LExpire(s)) else f;
      BroadcastKeeps(cleared.(authTimer := None), AuthExpired(s));
    } else {
      TimerWritesKeep(d, t);
    }
  }

  /** The shutdown task may take its place in the queue as long as the joined handler is gone. */
  lemma SetSweepKeeps(d: Daemon, sweep: Sweep)
    requires Inv(d) && !sweep.NotStarted? && !sweep.Joining?
    requires sweep.SweepStopping? ==> sweep.target < |d.sessions|
    requires sweep.Joined? ==> d.handler.Gone?
    ensures Inv(d.(sweep := sweep))
  {
    hide SpawnsAreAuthorized, Responded, Accepted, Readied, Authorized, ChannelOk, Outstanding, TimerOk;
  }

  lemma CancelKeepsInv(d: Daemon)
    requires Inv(d)
    ensures Inv(CancelTimeout(d))
  {
    hide SpawnsAreAuthorized, Responded, Accepted, Readied, Authorized, ChannelOk, Outstanding, TimerOk;
    InvBase(d);
    CancelDisarms(d);
  }

  lemma ClearKeeps(d: Daemon)
    requires Inv(d) && !d.sweep.NotStarted?
    ensures Inv(d.(cur := None))
  {
    hide SpawnsAreAuthorized, Responded, Accepted, Readied, Authorized, ChannelOk, Outstanding, TimerOk;
  }

  /** The client's writer may be closed at any time, and is once shutdown joins the handler. */
  lemma ShutKeeps(d: Daemon, sweep: Sweep)
    requires Inv(d) && (sweep == d.sweep || (d.sweep.Swept? && sweep.Joining?))
    ensures Inv(d.(open := false, sweep := sweep))
  {
    hide SpawnsAreAuthorized, Responded, Accepted, Readied, Authorized, ChannelOk, Outstanding, TimerOk;
  }

  lemma SweepKeeps(d: Daemon)
    requires Inv(d)
    ensures Inv(OnSweep(d))
  {
    hide Inv, Write, Close;
    InvWired(d);
    match d.sweep
    case NotStarted =>
      CancelKeepsInv(d);
      var c := CancelTimeout(d);
      InvWired(c);
      if c.cur.Some? {
        WriteKeepsInv(c, c.cur.value);
        WriteKeepsSize(c, c.cur.value);
        SetSweepKeeps(Write(c, c.cur.value, Cancel), SweepStopping(c.cur.value, CancelWritten));
      } else {
        SetSweepKeeps(c, Swept);
      }
    case SweepStopping(s, CancelWritten) =>
      CloseKeepsInv(d, s);
      WriteKeepsSize(d, s);
      SetSweepKeeps(Close(d, s), SweepStopping(s, ChannelClosed));
    case SweepStopping(_, ChannelClosed) =>
      ClearKeeps(d);
      SetSweepKeeps(d.(cur := None), Swept);
    case Swept => ShutKeeps(d, Joining);
    case Joining =>
      if d.handler.Gone? {
        SetSweepKeeps(d, Joined);
      }
    case Joined =>
  }

  lemma WriteKeepsSize(d: Daemon, s: SessionId)
    requires s < |d.sessions|
    ensures |Write(d, s, Cancel).sessions| == |d.sessions| == |Close(d, s).sessions|
  {
  }
}
