/**
 * One client's authentication state in the daemon, as a state machine. A step is the code one task
 * runs between two `await` points: the client's handler task, an authentication timeout task, or the
 * shutdown task. Labels say which task runs and what it reads from outside: requests of an arbitrary
 * client and messages of an arbitrary PAM worker, so every result holds for all of them.
 */
module AuthMachine {
  import opened Wrappers
  import opened SizeBounds
  import Utf8

  type Bytes = Utf8.Bytes

  /** Index of an `AuthSessionState` object; object identity is equality of indices. */
  type SessionId = nat

  /** Index of a timeout task. */
  type TimerId = nat

  datatype Prompt = Prompt(style: string, text: string)

  // ---------- messages ----------

  /** A prompt on the client's screen, and the number of the request whose response brought it there. */
  datatype Shown = Shown(prompt: Prompt, request: nat)

  /** `shown` is not on the wire: it records what the client displayed when it read the reply. */
  datatype Body =
    | Create(username: Bytes)
    | Continue(response: Bytes, shown: Shown)
    | CancelSession
    | StartSession(command: string)
    | Query

  /** `id` stands for the request's id and action, which every response copies. */
  datatype Request = Request(id: nat, body: Body)

  /** `Info` answers a `Query`: the daemon's state, or a power action being accepted or refused. */
  datatype Reply = Pending(prompt: Prompt) | Ready | Refused(code: string) | Done | Info

  datatype Event =
    | SessionStarting
    | SessionFinished
    | StateChanged
    | ReExec
    | AuthWarning(session: SessionId)
    | AuthExpired(session: SessionId)

  datatype Message = Response(id: nat, reply: Reply) | Notice(event: Event)

  /** A message passed to `send_message`; it is lost when the writer is gone or it does not fit a frame. */
  datatype Sent = Sent(message: Message, delivered: bool)

  /** `shown` and `request`, the number of the continue-session that was forwarded, are not on the wire. */
  datatype ToWorker = Start(user: string) | Answer(response: Bytes, shown: Shown, request: nat) | Cancel

  /** What the daemon reads from a worker; `Closed` is end of file, `Unexpected` any other kind. */
  datatype FromWorker = Asked(prompt: Prompt) | IsReady | HasFailed(code: string) | Unexpected | Closed

  // ---------- state ----------

  /**
   * `AuthSessionState`, with everything written to and read from its worker channel. The history also
   * holds the number of its create-session, and of the request whose response relayed each prompt.
   */
  datatype Session = Session(
    user: string,
    request: nat,
    ready: bool,
    closed: bool,
    sent: seq<ToWorker>,
    received: seq<FromWorker>,
    relayed: seq<nat>)

  datatype Stage = TNew | TBeforeWarning | TAfterWarning | TCancelSent | TClosing | TFinished

  datatype Timer = Timer(session: SessionId, stage: Stage, cancelled: bool, slept: int, warnings: nat) {
    /** The task may still act on its session. */
    predicate Armed() {
      !cancelled && stage != TFinished
    }
  }

  /** Where `stop_auth_session` waits: after writing cancel, or after closing the channel. */
  datatype StopStage = CancelWritten | ChannelClosed

  datatype After =
    | ThenCreate(id: nat, user: string)
    | ThenRefuse(id: nat, code: string, fits: bool)
    | ThenAccept(id: nat)
    | ThenExit

  /**
   * The `await` at which the handler task is suspended. `Raising` is inside the `drain` of a reply that
   * was written to a closed channel: nothing is sent, and the exception is on its way.
   */
  datatype Handler =
    | Idle
    | Spawning(id: nat, user: string)
    | FirstMessage(id: nat, session: SessionId)
    | Replying(id: nat, session: SessionId)
    | Raising(id: nat)
    | Arming(session: SessionId)
    | Stopping(target: SessionId, stage: StopStage, after: After)
    | Launching(user: string, command: string, step: nat)
    | Gone

  /** The part of `cleanup_async` that concerns this client. */
  datatype Sweep = NotStarted | SweepStopping(target: SessionId, stage: StopStage) | Swept | Joining | Joined

  datatype Log =
    | LAccept(user: string, request: nat)
    | LReady(user: string)
    | LAuthorize(user: string, command: string)
    | LSpawn(user: string, command: string)
    | LCancel
    | LExpire(session: SessionId)
    | LExit

  /**
   * `cur` and `authTimer` are `ClientState.auth_session` and `auth_timer`, `open` says that
   * `ClientState.writer` still leads to the client. The last three fields are the history of the run.
   */
  datatype Daemon = Daemon(
    timeout: int,
    cur: Option<SessionId>,
    authTimer: Option<TimerId>,
    sessions: seq<Session>,
    timers: seq<Timer>,
    handler: Handler,
    sweep: Sweep,
    open: bool,
    requests: seq<nat>,
    out: seq<Sent>,
    log: seq<Log>)

  function Init(timeout: int): Daemon {
    Daemon(timeout, None, None, [], [], Idle, NotStarted, true, [], [], [])
  }

  // ---------- pieces of the handlers ----------

  function Send(d: Daemon, m: Message, fits: bool): Daemon {
    d.(out := d.out + [Sent(m, d.open && fits)])
  }

  function Note(d: Daemon, entry: Log): Daemon {
    d.(log := d.log + [entry])
  }

  /** Every reference of the state points at an existing session or timer. */
  predicate Wired(d: Daemon) {
    && (d.cur.Some? ==> d.cur.value < |d.sessions|)
    && (d.authTimer.Some? ==> d.authTimer.value < |d.timers|)
    && (forall t | 0 <= t < |d.timers| :: d.timers[t].session < |d.sessions|)
    && (match d.handler
        case FirstMessage(_, s) => s < |d.sessions|
        case Replying(_, s) => s < |d.sessions|
        case Arming(s) => s < |d.sessions|
        case Stopping(s, _, _) => s < |d.sessions|
        case _ => true)
    && (d.sweep.SweepStopping? ==> d.sweep.target < |d.sessions|)
  }

  /** `cancel_auth_timeout` */
  function CancelTimeout(d: Daemon): Daemon
    requires Wired(d)
  {
    match d.authTimer
    case None => d
    case Some(t) => d.(timers := d.timers[t := d.timers[t].(cancelled := true)], authTimer := None)
  }

  function Write(d: Daemon, s: SessionId, m: ToWorker): Daemon
    requires s < |d.sessions|
  {
    d.(sessions := d.sessions[s := d.sessions[s].(sent := d.sessions[s].sent + [m])])
  }

  function Close(d: Daemon, s: SessionId): Daemon
    requires s < |d.sessions|
  {
    d.(sessions := d.sessions[s := d.sessions[s].(closed := true)])
  }

  /** What the handler does when `stop_client_auth_session` has returned. */
  function Resume(d: Daemon, after: After): Daemon {
    match after
    case ThenCreate(id, user) => d.(handler := Spawning(id, user))
    case ThenRefuse(id, code, fits) => Send(d, Response(id, Refused(code)), fits).(handler := Idle)
    case ThenAccept(id) => Send(d, Response(id, Done), true).(handler := Idle)
    case ThenExit => d.(handler := Gone, open := false)
  }

  /** `stop_client_auth_session` up to its first await. */
  function StopSession(d: Daemon, sendCancel: bool, after: After): Daemon
    requires Wired(d)
  {
    var c := CancelTimeout(d);
    match c.cur
    case None => Resume(c, after)
    case Some(s) =>
      if sendCancel then Write(c, s, Cancel).(handler := Stopping(s, CancelWritten, after))
      else Close(c, s).(handler := Stopping(s, ChannelClosed, after))
  }

  /** The `finally` block of `handle_client`. */
  function Exit(d: Daemon): Daemon
    requires Wired(d)
  {
    StopSession(Note(d, LExit), true, ThenExit)
  }

  /** One decoded request taken from the idle handler's channel. */
  function OnRequest(d: Daemon, r: Request, fits: bool): Daemon
    requires Wired(d)
  {
    var n := d.(requests := d.requests + [r.id]);
    match r.body
    case Create(username) =>
      if AuthFieldIsTooLong(username) then Send(n, Response(r.id, Refused("bad_request")), true)
      else
        var user := Utf8.DecodeReplace(username);
        var accepted := Note(n, LAccept(user, r.id));
        if n.cur.Some? then StopSession(accepted, true, ThenCreate(r.id, user))
        else accepted.(handler := Spawning(r.id, user))
    case Continue(response, shown) =>
      if n.cur.None? then Send(n, Response(r.id, Refused("session_not_found")), true)
      else
        var s := n.cur.value;
        if n.sessions[s].ready then Send(n, Response(r.id, Refused("bad_request")), true)
        else if AuthFieldIsTooLong(response) then Send(n, Response(r.id, Refused("bad_request")), true)
        else if n.sessions[s].closed then n.(handler := Raising(r.id))
        else Write(n, s, Answer(response, shown, r.id)).(handler := Replying(r.id, s))
    case CancelSession => StopSession(Note(n, LCancel), true, ThenAccept(r.id))
    case StartSession(command) =>
      if n.cur.None? then Send(n, Response(r.id, Refused("session_not_found")), true)
      else
        var s := n.cur.value;
        if !n.sessions[s].ready then Send(n, Response(r.id, Refused("session_not_ready")), true)
        else
          var user := n.sessions[s].user;
          Note(Send(CancelTimeout(n).(cur := None), Response(r.id, Done), true), LAuthorize(user, command))
            .(handler := Launching(user, command, 0))
    case Query => Send(n, Response(r.id, Info), fits)
  }

  /** The worker process is up, its channel connected and the start message written. */
  function OnSpawned(d: Daemon): Daemon
    requires d.handler.Spawning?
  {
    var session := Session(d.handler.user, d.handler.id, false, false, [Start(d.handler.user)], [], []);
    d.(sessions := d.sessions + [session], handler := FirstMessage(d.handler.id, |d.sessions|))
  }

  /** The session the handler awaits a worker message of. */
  function Awaited(h: Handler): Option<SessionId> {
    match h
    case FirstMessage(_, s) => Some(s)
    case Replying(_, s) => Some(s)
    case _ => None
  }

  /** The session when `m` was read for the request `id`. */
  function Hears(session: Session, m: FromWorker, id: nat): Session {
    session.(received := session.received + [m], ready := session.ready || m.IsReady?,
             relayed := if m.Asked? then session.relayed + [id] else session.relayed)
  }

  /** A worker message read by `start_auth_session` or `continue_auth_session`, and what follows it. */
  function OnWorker(d: Daemon, m: FromWorker, fits: bool): Daemon
    requires Wired(d) && Awaited(d.handler).Some?
  {
    var s := Awaited(d.handler).value;
    var id := d.handler.id;
    var session := d.sessions[s];
    var heard := Hears(session, m, id);
    var n := d.(sessions := d.sessions[s := heard], cur := if d.handler.FirstMessage? then Some(s) else d.cur);
    match m
    case Asked(prompt) => Send(n, Response(id, Pending(prompt)), fits).(handler := Arming(s))
    case IsReady => Note(Send(CancelTimeout(n), Response(id, Ready), true), LReady(session.user)).(handler := Idle)
    case HasFailed(code) => StopSession(n, false, ThenRefuse(id, code, fits))
    case Closed => StopSession(n, false, ThenRefuse(id, "auth_failed", true))
    case Unexpected => Exit(n)
  }

  /** The handler is resumed inside `stop_auth_session`. */
  function OnStop(d: Daemon): Daemon
    requires Wired(d) && d.handler.Stopping?
  {
    match d.handler.stage
    case CancelWritten => Close(d, d.handler.target).(handler := d.handler.(stage := ChannelClosed))
    case ChannelClosed => Resume(d.(cur := None), d.handler.after)
  }

  /** `reset_auth_timeout` after the pending response went out. */
  function OnArm(d: Daemon): Daemon
    requires Wired(d) && d.handler.Arming?
  {
    var c := CancelTimeout(d).(handler := Idle);
    if d.timeout <= 0 then c
    else
      c.(timers := c.timers + [Timer(d.handler.session, TNew, false, 0, 0)], authTimer := Some(|c.timers|))
  }

  /** The three parts of a launch: announce it, spawn it and publish the state, ask for a re-exec. */
  function OnLaunch(d: Daemon): Daemon
    requires d.handler.Launching?
  {
    var Launching(user, command, step) := d.handler;
    if step == 0 then Send(d, Notice(SessionStarting), true).(handler := Launching(user, command, 1))
    else if step == 1 then
      Send(Note(d, LSpawn(user, command)), Notice(StateChanged), true).(handler := Launching(user, command, 2))
    else Send(d, Notice(ReExec), true).(handler := Idle)
  }

  // ---------- the timeout task ----------

  /** Seconds left when the warning is given. */
  function WarningTime(timeout: int): int {
    if timeout / 3 > 1 then timeout / 3 else 1
  }

  function WarningDelay(timeout: int): int {
    if timeout > WarningTime(timeout) then timeout - WarningTime(timeout) else 0
  }

  predicate IsCurrent(d: Daemon, s: SessionId)
    requires s < |d.sessions|
  {
    d.cur == Some(s) && !d.sessions[s].ready
  }

  function SetTimer(d: Daemon, t: TimerId, timer: Timer): Daemon
    requires t < |d.timers|
  {
    d.(timers := d.timers[t := timer])
  }

  /** The timeout task `t` runs until its next await; a cancelled task only ends. */
  function OnTimer(d: Daemon, t: TimerId): Daemon
    requires Wired(d) && t < |d.timers|
  {
    var timer := d.timers[t];
    var s := timer.session;
    var delay := WarningDelay(d.timeout);
    if timer.cancelled then SetTimer(d, t, timer.(stage := TFinished))
    else
      match timer.stage
      case TNew => SetTimer(d, t, timer.(stage := if delay > 0 then TBeforeWarning else TAfterWarning))
      case TBeforeWarning =>
        var slept := timer.(slept := timer.slept + delay);
        if !IsCurrent(d, s) then SetTimer(d, t, slept.(stage := TFinished))
        else
          Send(SetTimer(d, t, slept.(stage := TAfterWarning, warnings := timer.warnings + 1)),
               Notice(AuthWarning(s)), true)
      case TAfterWarning =>
        var slept := timer.(slept := timer.slept + (d.timeout - delay));
        if !IsCurrent(d, s) then SetTimer(d, t, slept.(stage := TFinished))
        else Write(SetTimer(d, t, slept.(stage := TCancelSent)), s, Cancel)
      case TCancelSent => Close(SetTimer(d, t, timer.(stage := TClosing)), s)
      case TClosing =>
        var f := SetTimer(d, t, timer.(stage := TFinished));
        var cleared := if d.cur == Some(s) then Note(f.(cur := None), LExpire(s)) else f;
        var done := if d.authTimer == Some(t) then cleared.(authTimer := None) else cleared;
        Send(done, Notice(AuthExpired(s)), true)
      case TFinished => d
  }

  // ---------- shutdown ----------

  /** The cleanup task runs until its next await; it joins the handler task before it goes on. */
  function OnSweep(d: Daemon): Daemon
    requires Wired(d)
  {
    match d.sweep
    case NotStarted =>
      var c := CancelTimeout(d);
      (match c.cur
       case None => c.(sweep := Swept)
       case Some(s) => Write(c, s, Cancel).(sweep := SweepStopping(s, CancelWritten)))
    case SweepStopping(s, CancelWritten) => Close(d, s).(sweep := SweepStopping(s, ChannelClosed))
    case SweepStopping(_, ChannelClosed) => d.(cur := None, sweep := Swept)
    case Swept => d.(open := false, sweep := Joining)
    case Joining => if d.handler.Gone? then d.(sweep := Joined) else d
    case Joined => d
  }

  // ---------- runs ----------

  datatype Label =
    | Receive(request: Request, fits: bool)
    | ReceiveEnd
    | WorkerSpawned
    | WorkerSays(message: FromWorker, fits: bool)
    | WorkerFails
    | StopContinues
    | Arm
    | LaunchContinues
    | TimerRuns(timer: TimerId)
    | SweepRuns
    | WriterCloses
    | Broadcast(event: Event)

  /**
   * When a label may be taken. A closed worker channel yields nothing but end of file, and other
   * tasks broadcast only session events. `ReceiveEnd` covers end of file and malformed frames,
   * `WorkerFails` any exception while a worker is started, written to or read from. `WriterCloses` is
   * `close_client_channel` called by the main loop because the client's process has ended.
   */
  predicate Enabled(d: Daemon, l: Label)
    requires Wired(d)
  {
    match l
    case Receive(_, _) => d.handler.Idle?
    case ReceiveEnd => d.handler.Idle?
    case WorkerSpawned => d.handler.Spawning?
    case WorkerSays(m, _) =>
      Awaited(d.handler).Some? && (d.sessions[Awaited(d.handler).value].closed ==> m.Closed?)
    case WorkerFails => d.handler.Spawning? || d.handler.Raising? || Awaited(d.handler).Some?
    case StopContinues => d.handler.Stopping?
    case Arm => d.handler.Arming?
    case LaunchContinues => d.handler.Launching?
    case TimerRuns(t) => t < |d.timers|
    case SweepRuns => true
    case WriterCloses => true
    case Broadcast(e) => e in {SessionStarting, SessionFinished, StateChanged}
  }

  function Step(d: Daemon, l: Label): Daemon
    requires Wired(d) && Enabled(d, l)
  {
    match l
    case Receive(r, fits) => OnRequest(d, r, fits)
    case ReceiveEnd => Exit(d)
    case WorkerSpawned => OnSpawned(d)
    case WorkerSays(m, fits) => OnWorker(d, m, fits)
    case WorkerFails => Exit(d)
    case StopContinues => OnStop(d)
    case Arm => OnArm(d)
    case LaunchContinues => OnLaunch(d)
    case TimerRuns(t) => OnTimer(d, t)
    case SweepRuns => OnSweep(d)
    case WriterCloses => d.(open := false)
    case Broadcast(e) => Send(d, Notice(e), true)
  }

  /** Step number `n` of a run is the step of its label. */
  predicate Steps(states: seq<Daemon>, labels: seq<Label>, n: nat) {
    && n < |labels| && n + 1 < |states|
    && Wired(states[n]) && Enabled(states[n], labels[n])
    && states[n + 1] == Step(states[n], labels[n])
  }

  /** A run: the states the client goes through from the start, and the step that leads to each next one. */
  predicate Run(timeout: int, states: seq<Daemon>, labels: seq<Label>) {
    && |states| == |labels| + 1
    && states[0] == Init(timeout)
    && forall n {:trigger Steps(states, labels, n)} | 0 <= n < |labels| :: Steps(states, labels, n)
  }
}
