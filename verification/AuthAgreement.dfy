/**
 * What the last answer sent to the client says about the daemon's own state: the facts on the daemon's
 * side that a client can rely on. Requests are numbered in the order they are read.
 */
module AuthAgreement {
  import opened Wrappers
  import opened AuthMachine
  import opened AuthInvariants
  import opened SizeBounds
  import AuthTheorems
  import Utf8

  /** The newest answer that moves a conversation, and whether an expiry was announced after it. */
  datatype Last = NoReply | Last(index: nat, id: nat, reply: Reply, expired: bool)

  predicate Weighty(m: Message) {
    m.Response? && !m.reply.Info?
  }

  function LastOf(out: seq<Sent>): Last {
    if out == [] then NoReply
    else
      var before := LastOf(out[..|out| - 1]);
      var Sent(m, delivered) := out[|out| - 1];
      if Weighty(m) then Last(|out| - 1, m.id, m.reply, false)
      else if m.Notice? && m.event.AuthExpired? && delivered && before.Last? then before.(expired := true)
      else before
  }

  lemma LastAppend(out: seq<Sent>, s: Sent)
    ensures var before := LastOf(out);
            LastOf(out + [s]) ==
            if Weighty(s.message) then Last(|out|, s.message.id, s.message.reply, false)
            else if s.message.Notice? && s.message.event.AuthExpired? && s.delivered && before.Last? then before.(expired := true)
            else before
  {
    assert (out + [s])[..|out|] == out;
  }

  lemma {:induction false} LastInRange(out: seq<Sent>)
    ensures LastOf(out).Last? ==>
              && LastOf(out).index < |out|
              && Weighty(out[LastOf(out).index].message)
              && out[LastOf(out).index].message == Response(LastOf(out).id, LastOf(out).reply)
  {
    if out != [] {
      LastInRange(out[..|out| - 1]);
    }
  }

  /** The prompt most recently received on the session's channel, and the response that relayed it. */
  predicate Shows(s: Session, shown: Shown) {
    && |Prompts(s.received)| > 0 && Prompts(s.received)[|Prompts(s.received)| - 1] == shown.prompt
    && |s.relayed| > 0 && s.relayed[|s.relayed| - 1] == shown.request
  }

  /** No request is being worked on, and the connection is not being torn down by its handler. */
  predicate Settled(d: Daemon) {
    Owed(d.handler).None? && !Exiting(d.handler)
  }

  /** The connection is up: its writer is open, and neither its handler nor the daemon has begun to end. */
  predicate Up(d: Daemon) {
    d.open && d.sweep.NotStarted? && !Exiting(d.handler)
  }

  /** While nothing is owed, the last answer describes the current session; only an expiry ends it. */
  predicate Described(d: Daemon)
    requires Wired(d)
  {
    var last := LastOf(d.out);
    Settled(d) && last.Last? ==>
      && (last.reply.Pending? ==>
            if d.cur.Some? then !d.sessions[d.cur.value].ready && Shows(d.sessions[d.cur.value], Shown(last.reply.prompt, last.id))
            else d.open && d.sweep.NotStarted? ==> last.expired)
      && (last.reply.Ready? ==>
            if d.cur.Some? then d.sessions[d.cur.value].ready else !d.sweep.NotStarted?)
  }

  /** A session that stopped being current under the handler's feet has no open channel. */
  predicate Lapsed(d: Daemon)
    requires Wired(d)
  {
    && (d.sweep.NotStarted? && d.handler.Replying? && d.cur != Some(d.handler.session) ==> d.sessions[d.handler.session].closed)
    && (forall t | 0 <= t < |d.timers| && d.timers[t].Armed() && d.timers[t].stage.TClosing? ::
          d.sessions[d.timers[t].session].closed)
  }

  /** Requests are numbered, and their responses appear in that order. */
  predicate Numbered(d: Daemon) {
    && (forall i | 0 <= i < |d.requests| :: d.requests[i] == i)
    && (forall i | 0 <= i < |d.out| && d.out[i].message.Response? :: d.out[i].message.id < |d.requests|)
    && (forall i, j | 0 <= i < j < |d.out| && d.out[i].message.Response? && d.out[j].message.Response? ::
          d.out[i].message.id < d.out[j].message.id)
    && (Owed(d.handler).Some? ==>
          && Owed(d.handler).value == |d.requests| - 1
          && forall i | 0 <= i < |d.out| && d.out[i].message.Response? :: d.out[i].message.id < |d.requests| - 1)
  }

  predicate Agrees(d: Daemon) {
    Inv(d) && Described(d) && Lapsed(d) && Numbered(d)
  }

  /** The next request to be read carries the next number. */
  predicate InTurn(d: Daemon, l: Label) {
    l.Receive? ==> l.request.id == |d.requests|
  }

  // ---------- numbering ----------

  /** How one step may change the requests read, the messages sent and the request that is owed. */
  predicate Moves(d: Daemon, e: Daemon) {
    && (e.requests == d.requests || e.requests == d.requests + [|d.requests|])
    && (e.out == d.out || (|e.out| == |d.out| + 1 && e.out == d.out + [e.out[|d.out|]]))
    && (Owed(e.handler).Some? ==> Owed(e.handler).value == |e.requests| - 1)
    && (Owed(e.handler).Some? && e.requests == d.requests ==> Owed(d.handler).Some?)
    && (|e.out| > |d.out| && e.out[|d.out|].message.Response? ==>
          && e.out[|d.out|].message.id == |e.requests| - 1
          && Owed(e.handler).None?
          && (e.requests == d.requests ==> Owed(d.handler).Some?))
  }

  lemma MovesKeepNumbers(d: Daemon, e: Daemon)
    requires Numbered(d) && Moves(d, e)
    ensures Numbered(e)
  {
  }

  lemma CancelMoves(d: Daemon)
    requires Wired(d)
    ensures var c := CancelTimeout(d);
            c == d.(timers := c.timers, authTimer := c.authTimer) && Wired(c)
  {
  }

  lemma StopMoves(d: Daemon, sendCancel: bool, after: After)
    requires Wired(d)
    ensures var e := StopSession(d, sendCancel, after);
            && e.requests == d.requests
            && if d.cur.Some? then
                 e.out == d.out && e.handler == Stopping(d.cur.value, if sendCancel then CancelWritten else ChannelClosed, after)
               else e.out == Resume(d, after).out && e.handler == Resume(d, after).handler
  {
    hide CancelTimeout;
    CancelMoves(d);
  }

  lemma RequestMoves(d: Daemon, r: Request, fits: bool)
    requires Wired(d) && d.handler.Idle? && r.id == |d.requests|
    ensures Moves(d, OnRequest(d, r, fits))
  {
    hide StopSession, CancelTimeout, Utf8.DecodeReplace, AuthFieldIsTooLong;
    var n := d.(requests := d.requests + [r.id]);
    CancelMoves(n);
    match r.body
    case Create(username) =>
      var user := Utf8.DecodeReplace(username);
      StopMoves(Note(n, LAccept(user, r.id)), true, ThenCreate(r.id, user));
    case CancelSession => StopMoves(Note(n, LCancel), true, ThenAccept(r.id));
    case _ =>
  }

  lemma WorkerMoves(d: Daemon, m: FromWorker, fits: bool)
    requires Wired(d) && Awaited(d.handler).Some? && d.handler.id == |d.requests| - 1
    ensures Moves(d, OnWorker(d, m, fits))
  {
    hide StopSession, CancelTimeout, Exit;
    var n := Heard(d, m);
    match m
    case Asked(prompt) =>
    case IsReady => CancelMoves(n);
    case HasFailed(code) => StopMoves(n, false, ThenRefuse(d.handler.id, code, fits));
    case Closed => StopMoves(n, false, ThenRefuse(d.handler.id, "auth_failed", true));
    case Unexpected => ExitMoves(n);
  }

  lemma ExitMoves(d: Daemon)
    requires Wired(d)
    ensures Exit(d).requests == d.requests && Exit(d).out == d.out && Exiting(Exit(d).handler)
  {
    hide StopSession;
    StopMoves(Note(d, LExit), true, ThenExit);
  }

  /** A timeout task leaves the handler and the requests alone and sends nothing but notices. */
  lemma TimerMoves(d: Daemon, t: TimerId)
    requires Wired(d) && t < |d.timers|
    ensures var e := OnTimer(d, t);
            && e.handler == d.handler && e.requests == d.requests && e.sweep == d.sweep && e.open == d.open
            && (e.out == d.out
                || e.out == d.out + [Sent(Notice(AuthWarning(d.timers[t].session)), d.open)]
                || e.out == d.out + [Sent(Notice(AuthExpired(d.timers[t].session)), d.open)])
  {
    hide OnTimer;
    if !d.timers[t].Armed() || d.timers[t].stage in {TNew, TBeforeWarning} {
      EarlyTimerMoves(d, t);
    } else {
      LateTimerMoves(d, t);
    }
  }

  lemma EarlyTimerMoves(d: Daemon, t: TimerId)
    requires Wired(d) && t < |d.timers| && (!d.timers[t].Armed() || d.timers[t].stage in {TNew, TBeforeWarning})
    ensures var e := OnTimer(d, t);
            && e.handler == d.handler && e.requests == d.requests && e.sweep == d.sweep && e.open == d.open
            && (e.out == d.out || e.out == d.out + [Sent(Notice(AuthWarning(d.timers[t].session)), d.open)])
  {
    hide WarningDelay;
  }

  lemma LateTimerMoves(d: Daemon, t: TimerId)
    requires Wired(d) && t < |d.timers| && d.timers[t].Armed() && d.timers[t].stage !in {TNew, TBeforeWarning}
    ensures var e := OnTimer(d, t);
            && e.handler == d.handler && e.requests == d.requests && e.sweep == d.sweep && e.open == d.open
            && (e.out == d.out || e.out == d.out + [Sent(Notice(AuthExpired(d.timers[t].session)), d.open)])
  {
    hide WarningDelay;
  }

  lemma SweepMoves(d: Daemon)
    requires Wired(d)
    ensures var e := OnSweep(d);
            && e.handler == d.handler && e.requests == d.requests && e.out == d.out
            && (e.open ==> d.open) && !e.sweep.NotStarted?
  {
  }

  /** Where the handler goes from a stop, and what it says. */
  lemma ContinueMoves(d: Daemon)
    requires Wired(d) && d.handler.Stopping?
    requires Owed(d.handler).Some? ==> Owed(d.handler).value == |d.requests| - 1
    ensures Moves(d, OnStop(d))
  {
  }

  lemma TaskMoves(d: Daemon, l: Label)
    requires Wired(d) && Enabled(d, l) && !l.Receive? && !l.WorkerSays?
    requires Owed(d.handler).Some? ==> Owed(d.handler).value == |d.requests| - 1
    ensures Moves(d, Step(d, l))
  {
    hide Exit, CancelTimeout, WarningDelay, OnTimer, OnSweep, OnStop;
    match l
    case ReceiveEnd => ExitMoves(d);
    case WorkerFails => ExitMoves(d);
    case TimerRuns(t) => TimerMoves(d, t);
    case SweepRuns => SweepMoves(d);
    case StopContinues => ContinueMoves(d);
    case _ => CancelMoves(d);
  }

  lemma StepMoves(d: Daemon, l: Label)
    requires Wired(d) && Enabled(d, l) && InTurn(d, l)
    requires Owed(d.handler).Some? ==> Owed(d.handler).value == |d.requests| - 1
    ensures Moves(d, Step(d, l))
  {
    hide OnRequest, OnWorker, Moves;
    match l
    case Receive(r, fits) => RequestMoves(d, r, fits);
    case WorkerSays(m, fits) => WorkerMoves(d, m, fits);
    case _ => TaskMoves(d, l);
  }

  lemma StepNumbered(d: Daemon, l: Label)
    requires Wired(d) && Enabled(d, l) && InTurn(d, l) && Numbered(d)
    ensures Numbered(Step(d, l))
  {
    StepMoves(d, l);
    MovesKeepNumbers(d, Step(d, l));
  }

  // ---------- counting requests and sessions ----------

  lemma GrowsOnlyByReceive(d: Daemon, l: Label)
    requires Wired(d) && Enabled(d, l) && InTurn(d, l) && !l.Receive?
    ensures Step(d, l).requests == d.requests
  {
    hide OnWorker, Exit, OnTimer, OnSweep, CancelTimeout;
    match l
    case ReceiveEnd => ExitMoves(d);
    case WorkerFails => ExitMoves(d);
    case TimerRuns(t) => TimerMoves(d, t);
    case SweepRuns => SweepMoves(d);
    case WorkerSays(m, fits) => WorkerRequests(d, m, fits);
    case _ => CancelMoves(d);
  }

  lemma WorkerRequests(d: Daemon, m: FromWorker, fits: bool)
    requires Wired(d) && Awaited(d.handler).Some?
    ensures OnWorker(d, m, fits).requests == d.requests
  {
    hide StopSession, CancelTimeout, Exit;
    var n := Heard(d, m);
    match m
    case Asked(_) =>
    case IsReady => CancelMoves(n);
    case HasFailed(code) => StopMoves(n, false, ThenRefuse(d.handler.id, code, fits));
    case Closed => StopMoves(n, false, ThenRefuse(d.handler.id, "auth_failed", true));
    case Unexpected => ExitMoves(n);
  }

  lemma SessionCount(d: Daemon, l: Label)
    requires Wired(d) && Enabled(d, l)
    ensures |Step(d, l).sessions| == |d.sessions| + (if l.WorkerSpawned? then 1 else 0)
  {
    hide StopSession, OnTimer, OnSweep, OnRequest, OnWorker, CancelTimeout;
    match l
    case Receive(r, fits) => RequestSessions(d, r, fits);
    case WorkerSays(m, fits) => WorkerSessions(d, m, fits);
    case TimerRuns(t) => TimerCount(d, t);
    case SweepRuns => SweepSessions(d);
    case _ =>
      CancelMoves(d);
      StopCount(Note(d, LExit), ThenExit);
  }

  lemma SweepSessions(d: Daemon)
    requires Wired(d)
    ensures |OnSweep(d).sessions| == |d.sessions|
  {
    hide CancelTimeout;
    CancelMoves(d);
  }

  lemma RequestSessions(d: Daemon, r: Request, fits: bool)
    requires Wired(d) && d.handler.Idle?
    ensures |OnRequest(d, r, fits).sessions| == |d.sessions|
  {
    hide StopSession, CancelTimeout, Utf8.DecodeReplace, AuthFieldIsTooLong;
    var n := d.(requests := d.requests + [r.id]);
    CancelMoves(n);
    StopCount(Note(n, LCancel), ThenAccept(r.id));
    if r.body.Create? {
      var user := Utf8.DecodeReplace(r.body.username);
      StopCount(Note(n, LAccept(user, r.id)), ThenCreate(r.id, user));
    }
  }

  lemma WorkerSessions(d: Daemon, m: FromWorker, fits: bool)
    requires Wired(d) && Awaited(d.handler).Some?
    ensures |OnWorker(d, m, fits).sessions| == |d.sessions|
  {
    hide StopSession, CancelTimeout;
    var n := Heard(d, m);
    CancelMoves(n);
    StopCount(n, ThenRefuse(d.handler.id, if m.HasFailed? then m.code else "auth_failed", m.HasFailed? ==> fits));
    StopCount(Note(n, LExit), ThenExit);
  }

  lemma StopCount(d: Daemon, after: After)
    requires Wired(d)
    ensures |StopSession(d, true, after).sessions| == |d.sessions| == |StopSession(d, false, after).sessions|
  {
    hide CancelTimeout;
    CancelMoves(d);
  }

  lemma TimerCount(d: Daemon, t: TimerId)
    requires Wired(d) && t < |d.timers|
    ensures |OnTimer(d, t).sessions| == |d.sessions|
  {
    hide WarningDelay;
  }

  lemma RequestCount(d: Daemon, r: Request, fits: bool)
    requires Wired(d) && d.handler.Idle?
    ensures Step(d, Receive(r, fits)).requests == d.requests + [r.id]
  {
    hide StopSession, CancelTimeout, Utf8.DecodeReplace, AuthFieldIsTooLong;
    var n := d.(requests := d.requests + [r.id]);
    CancelMoves(n);
    match r.body
    case Create(username) =>
      var user := Utf8.DecodeReplace(username);
      StopMoves(Note(n, LAccept(user, r.id)), true, ThenCreate(r.id, user));
    case CancelSession => StopMoves(Note(n, LCancel), true, ThenAccept(r.id));
    case _ =>
  }

  // ---------- going down ----------

  lemma StopStays(d: Daemon, sendCancel: bool, after: After)
    requires Wired(d)
    ensures var e := StopSession(d, sendCancel, after);
            e.sweep == d.sweep && (e.open ==> d.open)
  {
    hide CancelTimeout;
    CancelMoves(d);
  }

  lemma RequestStays(d: Daemon, r: Request, fits: bool)
    requires Wired(d) && d.handler.Idle?
    ensures var e := OnRequest(d, r, fits);
            e.sweep == d.sweep && (e.open ==> d.open)
  {
    hide StopSession, CancelTimeout, Utf8.DecodeReplace, AuthFieldIsTooLong;
    var n := d.(requests := d.requests + [r.id]);
    CancelMoves(n);
    match r.body
    case Create(username) =>
      var user := Utf8.DecodeReplace(username);
      StopStays(Note(n, LAccept(user, r.id)), true, ThenCreate(r.id, user));
    case CancelSession => StopStays(Note(n, LCancel), true, ThenAccept(r.id));
    case _ =>
  }

  lemma WorkerStays(d: Daemon, m: FromWorker, fits: bool)
    requires Wired(d) && Awaited(d.handler).Some?
    ensures var e := OnWorker(d, m, fits);
            e.sweep == d.sweep && (e.open ==> d.open)
  {
    hide StopSession, CancelTimeout;
    var n := Heard(d, m);
    match m
    case Asked(prompt) =>
    case IsReady => CancelMoves(n);
    case HasFailed(code) => StopStays(n, false, ThenRefuse(d.handler.id, code, fits));
    case Closed => StopStays(n, false, ThenRefuse(d.handler.id, "auth_failed", true));
    case Unexpected => StopStays(Note(n, LExit), true, ThenExit);
  }

  /** Only the cleanup task moves its position, and it never goes back; a closed writer stays closed. */
  lemma NeverReturns(d: Daemon, l: Label)
    requires Wired(d) && Enabled(d, l)
    ensures var e := Step(d, l);
            (e.sweep.NotStarted? ==> d.sweep.NotStarted?) && (e.open ==> d.open)
  {
    hide StopSession, OnTimer, OnSweep, OnRequest, OnWorker, CancelTimeout;
    match l
    case Receive(r, fits) => RequestStays(d, r, fits);
    case WorkerSays(m, fits) => WorkerStays(d, m, fits);
    case ReceiveEnd => StopStays(Note(d, LExit), true, ThenExit);
    case WorkerFails => StopStays(Note(d, LExit), true, ThenExit);
    case TimerRuns(t) => TimerMoves(d, t);
    case SweepRuns => SweepMoves(d);
    case _ => CancelMoves(d);
  }

  // ---------- the description ----------

  /** From `d` to `e` nothing was heard from any worker, and no channel was opened again. */
  predicate NothingHeard(d: Daemon, e: Daemon) {
    && |d.sessions| <= |e.sessions|
    && forall s | 0 <= s < |d.sessions| ::
         && e.sessions[s].ready == d.sessions[s].ready
         && e.sessions[s].received == d.sessions[s].received
         && e.sessions[s].relayed == d.sessions[s].relayed
         && (d.sessions[s].closed ==> e.sessions[s].closed)
  }

  /** Every task that could still announce an expiry was already that far. */
  predicate NoNewClosing(d: Daemon, e: Daemon) {
    forall t | 0 <= t < |e.timers| && e.timers[t].Armed() && e.timers[t].stage.TClosing? ::
      t < |d.timers| && d.timers[t] == e.timers[t]
  }

  lemma DescribedSame(d: Daemon, e: Daemon)
    requires Wired(d) && Wired(e) && Described(d) && NothingHeard(d, e)
    requires Settled(e) ==> Settled(d)
    requires e.cur == d.cur && (e.sweep.NotStarted? ==> d.sweep.NotStarted?) && (e.open ==> d.open)
    requires LastOf(e.out) == LastOf(d.out)
    ensures Described(e)
  {
    hide LastOf, Prompts;
  }

  lemma LapsedSame(d: Daemon, e: Daemon)
    requires Wired(d) && Wired(e) && Lapsed(d) && NothingHeard(d, e) && NoNewClosing(d, e)
    requires e.handler.Replying? ==> e.cur == Some(e.handler.session) || (e.handler == d.handler && e.cur == d.cur)
    requires e.sweep.NotStarted? ==> d.sweep.NotStarted?
    ensures Lapsed(e)
  {
  }

  /** The description says nothing while a request is owed or after an answer that ends a conversation. */
  lemma DescribedVoid(e: Daemon)
    requires Wired(e)
    requires !Settled(e) || (LastOf(e.out).Last? ==> !LastOf(e.out).reply.Pending? && !LastOf(e.out).reply.Ready?)
    ensures Described(e)
  {
  }

  lemma CancelHears(d: Daemon)
    requires Wired(d)
    ensures NothingHeard(d, CancelTimeout(d)) && NoNewClosing(d, CancelTimeout(d))
  {
  }

  lemma StopHears(d: Daemon, sendCancel: bool, after: After)
    requires Wired(d)
    ensures var e := StopSession(d, sendCancel, after);
            && Wired(e) && NothingHeard(d, e) && NoNewClosing(d, e) && !e.handler.Replying? && e.sweep == d.sweep
            && (Settled(e) ==> LastOf(e.out).Last? && !LastOf(e.out).reply.Pending? && !LastOf(e.out).reply.Ready?)
  {
    hide CancelTimeout, LastOf, NothingHeard, NoNewClosing;
    CancelMoves(d);
    CancelHears(d);
    var c := CancelTimeout(d);
    var e := StopSession(d, sendCancel, after);
    ResumeSays(c, after);
    if c.cur.Some? {
      TouchHears(c, e, c.cur.value);
    } else {
      TouchHears(c, e, 0);
    }
    HearsThrough(d, c, e);
  }

  /** One channel was written to or closed, or none. */
  lemma TouchHears(d: Daemon, e: Daemon, s: SessionId)
    requires e.timers == d.timers && |e.sessions| == |d.sessions|
    requires e.sessions == d.sessions
             || (s < |d.sessions| && (d.sessions[s].closed ==> e.sessions[s].closed)
                 && e.sessions == d.sessions[s := d.sessions[s].(sent := e.sessions[s].sent, closed := e.sessions[s].closed)])
    ensures NothingHeard(d, e) && NoNewClosing(d, e)
  {
  }

  lemma HearsThrough(d: Daemon, c: Daemon, e: Daemon)
    requires NothingHeard(d, c) && NothingHeard(c, e) && NoNewClosing(d, c) && e.timers == c.timers
    ensures NothingHeard(d, e) && NoNewClosing(d, e)
  {
  }

  lemma ResumeSays(d: Daemon, after: After)
    ensures var e := Resume(d, after);
            && e == d.(out := e.out, handler := e.handler, open := e.open)
            && (e.handler.Idle? || e.handler.Spawning? || e.handler.Gone?)
            && (Settled(e) ==> LastOf(e.out).Last? && !LastOf(e.out).reply.Pending? && !LastOf(e.out).reply.Ready?)
  {
    hide LastOf;
    if after.ThenRefuse? {
      LastAppend(d.out, Sent(Response(after.id, Refused(after.code)), d.open && after.fits));
    } else if after.ThenAccept? {
      LastAppend(d.out, Sent(Response(after.id, Done), d.open));
    }
  }

  lemma StopDescribed(d: Daemon, e: Daemon, sendCancel: bool, after: After)
    requires Wired(d) && Wired(e) && Lapsed(d) && NothingHeard(d, e) && NoNewClosing(d, e) && e.sweep == d.sweep
    ensures var f := StopSession(e, sendCancel, after);
            Wired(f) && Described(f) && Lapsed(f)
  {
    hide LastOf, StopSession;
    StopHears(e, sendCancel, after);
    var f := StopSession(e, sendCancel, after);
    DescribedVoid(f);
    LapsedSame(d, f);
  }

  lemma ReplyDescribed(d: Daemon, e: Daemon, m: Message, fits: bool)
    requires Wired(d) && Wired(e) && Described(d) && Lapsed(d) && NothingHeard(d, e) && NoNewClosing(d, e)
    requires d.handler.Idle? && (e.handler.Idle? || e.handler.Launching?) && e.sweep == d.sweep && e.out == d.out && e.open == d.open
    requires m.Response? && !m.reply.Pending? && !m.reply.Ready? && (m.reply.Info? ==> e.cur == d.cur)
    ensures var f := Send(e, m, fits);
            Wired(f) && Described(f) && Lapsed(f)
  {
    hide LastOf;
    LastAppend(e.out, Sent(m, e.open && fits));
    var f := Send(e, m, fits);
    if m.reply.Info? {
      DescribedSame(d, f);
    } else {
      DescribedVoid(f);
    }
    LapsedSame(d, f);
  }

  lemma CreateDescribed(d: Daemon, r: Request, fits: bool)
    requires Wired(d) && d.handler.Idle? && Described(d) && Lapsed(d)
    requires r.body.Create? && !AuthFieldIsTooLong(r.body.username)
    ensures var e := OnRequest(d, r, fits);
            Wired(e) && Described(e) && Lapsed(e)
  {
    hide StopSession, Utf8.DecodeReplace, AuthFieldIsTooLong, LastOf, Described, Lapsed;
    var user := Utf8.DecodeReplace(r.body.username);
    var accepted := Note(d.(requests := d.requests + [r.id]), LAccept(user, r.id));
    if d.cur.Some? {
      StopDescribed(d, accepted, true, ThenCreate(r.id, user));
    } else {
      DescribedVoid(accepted.(handler := Spawning(r.id, user)));
      LapsedSame(d, accepted.(handler := Spawning(r.id, user)));
    }
  }

  lemma ContinueDescribed(d: Daemon, r: Request, fits: bool)
    requires Wired(d) && d.handler.Idle? && Described(d) && Lapsed(d) && r.body.Continue?
    requires d.cur.Some? && !d.sessions[d.cur.value].ready && !AuthFieldIsTooLong(r.body.response)
    ensures var e := OnRequest(d, r, fits);
            Wired(e) && Described(e) && Lapsed(e)
  {
    hide AuthFieldIsTooLong, LastOf, Described, Lapsed;
    var e := OnRequest(d, r, fits);
    DescribedVoid(e);
    LapsedSame(d, e);
  }

  lemma StartDescribed(d: Daemon, r: Request, fits: bool)
    requires Wired(d) && d.handler.Idle? && Described(d) && Lapsed(d) && r.body.StartSession?
    requires d.cur.Some? && d.sessions[d.cur.value].ready
    ensures var e := OnRequest(d, r, fits);
            Wired(e) && Described(e) && Lapsed(e)
  {
    hide CancelTimeout, LastOf, Described, Lapsed;
    var n := d.(requests := d.requests + [r.id]);
    var user := d.sessions[d.cur.value].user;
    CancelMoves(n);
    CancelHears(n);
    var launching := CancelTimeout(n).(
      cur := None, handler := Launching(user, r.body.command, 0), log := d.log + [LAuthorize(user, r.body.command)]);
    ReplyDescribed(d, launching, Response(r.id, Done), true);
    assert OnRequest(d, r, fits) == Send(launching, Response(r.id, Done), true);
  }

  lemma RequestDescribed(d: Daemon, r: Request, fits: bool)
    requires Wired(d) && d.handler.Idle? && Described(d) && Lapsed(d)
    ensures var e := OnRequest(d, r, fits);
            Wired(e) && Described(e) && Lapsed(e)
  {
    hide StopSession, CancelTimeout, Utf8.DecodeReplace, AuthFieldIsTooLong, LastOf, Described, Lapsed;
    var n := d.(requests := d.requests + [r.id]);
    match r.body
    case Create(username) =>
      if AuthFieldIsTooLong(username) {
        ReplyDescribed(d, n, Response(r.id, Refused("bad_request")), true);
      } else {
        CreateDescribed(d, r, fits);
      }
    case Continue(response, _) =>
      if d.cur.Some? && !d.sessions[d.cur.value].ready && !AuthFieldIsTooLong(response) {
        ContinueDescribed(d, r, fits);
      } else {
        ReplyDescribed(d, n, Response(r.id, Refused(if d.cur.None? then "session_not_found" else "bad_request")), true);
      }
    case CancelSession => StopDescribed(d, Note(n, LCancel), true, ThenAccept(r.id));
    case StartSession(_) =>
      if d.cur.Some? && d.sessions[d.cur.value].ready {
        StartDescribed(d, r, fits);
      } else {
        ReplyDescribed(d, n, Response(r.id, Refused(if d.cur.None? then "session_not_found" else "session_not_ready")), true);
      }
    case Query => ReplyDescribed(d, n, Response(r.id, Info), fits);
  }

  /** What was just heard is what the answer says; a lapsed session has nothing more to say. */
  lemma WorkerDescribed(d: Daemon, m: FromWorker, fits: bool)
    requires Inv(d) && Awaited(d.handler).Some? && Described(d) && Lapsed(d)
    requires d.sessions[Awaited(d.handler).value].closed ==> m.Closed?
    ensures Wired(d)
    ensures var e := OnWorker(d, m, fits);
            Wired(e) && Described(e) && Lapsed(e)
  {
    hide StopSession, CancelTimeout, LastOf, Lapsed, Inv, Prompts;
    InvWired(d);
    InvPlace(d);
    var s := Awaited(d.handler).value;
    var n := Heard(d, m);
    HeardLapsed(d, m);
    var e := OnWorker(d, m, fits);
    match m
    case Asked(prompt) =>
      LastAppend(n.out, Sent(Response(d.handler.id, Pending(prompt)), n.open && fits));
      ReceivedAppend(d.sessions[s].received, m);
      LapsedAwaited(d);
      LapsedSame(n.(handler := Arming(s)), e);
    case IsReady =>
      CancelMoves(n);
      CancelHears(n);
      LastAppend(n.out, Sent(Response(d.handler.id, Ready), n.open));
      LapsedAwaited(d);
      LapsedSame(n.(handler := Idle), e);
    case HasFailed(code) => StopDescribed(n.(handler := Idle), n, false, ThenRefuse(d.handler.id, code, fits));
    case Closed => StopDescribed(n.(handler := Idle), n, false, ThenRefuse(d.handler.id, "auth_failed", true));
    case Unexpected => StopDescribed(n.(handler := Idle), Note(n, LExit), true, ThenExit);
  }

  lemma InvPlace(d: Daemon)
    requires Inv(d) && Awaited(d.handler).Some?
    ensures var s := Awaited(d.handler).value;
            && !d.sessions[s].ready
            && (d.cur.None? || (d.handler.Replying? && d.cur == Some(s)))
  {
    hide ChannelOk, TimerOk, SpawnsAreAuthorized, LogOk, ResponsesOk, Outstanding;
  }

  lemma LapsedAwaited(d: Daemon)
    requires Wired(d) && Lapsed(d)
    ensures d.sweep.NotStarted? && d.handler.Replying? && d.cur != Some(d.handler.session) ==> d.sessions[d.handler.session].closed
  {
  }

  lemma HeardLapsed(d: Daemon, m: FromWorker)
    requires Wired(d) && Awaited(d.handler).Some? && Lapsed(d)
    ensures Wired(Heard(d, m)) && Lapsed(Heard(d, m).(handler := Idle)) && Lapsed(Heard(d, m).(handler := Arming(Awaited(d.handler).value)))
  {
  }

  lemma StopStepDescribed(d: Daemon)
    requires Wired(d) && d.handler.Stopping? && Lapsed(d)
    ensures Wired(OnStop(d)) && Described(OnStop(d)) && Lapsed(OnStop(d))
  {
    hide LastOf, Resume;
    ResumeSays(d.(cur := None), d.handler.after);
    DescribedVoid(OnStop(d));
    LapsedSame(d, OnStop(d));
  }

  lemma ArmDescribed(d: Daemon)
    requires Wired(d) && d.handler.Arming? && Described(d) && Lapsed(d)
    ensures Wired(OnArm(d)) && Described(OnArm(d)) && Lapsed(OnArm(d))
  {
    hide LastOf, CancelTimeout, Described, Lapsed;
    CancelMoves(d);
    CancelHears(d);
    DescribedSame(d, OnArm(d));
    LapsedSame(d, OnArm(d));
  }

  lemma NoticeDescribed(d: Daemon, e: Daemon, event: Event)
    requires Wired(d) && Wired(e) && Described(d) && Lapsed(d) && NothingHeard(d, e) && NoNewClosing(d, e)
    requires e.cur == d.cur && e.sweep == d.sweep && e.out == d.out && e.open == d.open
    requires e.handler == d.handler || (d.handler.Launching? && !e.handler.Replying?)
    requires !event.AuthExpired?
    ensures var f := Send(e, Notice(event), true);
            Wired(f) && Described(f) && Lapsed(f)
  {
    hide LastOf;
    LastAppend(e.out, Sent(Notice(event), e.open));
    DescribedSame(d, Send(e, Notice(event), true));
    LapsedSame(d, Send(e, Notice(event), true));
  }

  lemma LaunchDescribed(d: Daemon)
    requires Wired(d) && d.handler.Launching? && Described(d) && Lapsed(d)
    ensures Wired(OnLaunch(d)) && Described(OnLaunch(d)) && Lapsed(OnLaunch(d))
  {
    hide LastOf, Described, Lapsed;
    var Launching(user, command, step) := d.handler;
    NoticeDescribed(d, d.(handler := Launching(user, command, 1)), SessionStarting);
    NoticeDescribed(d, Note(d, LSpawn(user, command)).(handler := Launching(user, command, 2)), StateChanged);
    NoticeDescribed(d, d.(handler := Idle), ReExec);
    assert OnLaunch(d) in {
      Send(d.(handler := Launching(user, command, 1)), Notice(SessionStarting), true),
      Send(Note(d, LSpawn(user, command)).(handler := Launching(user, command, 2)), Notice(StateChanged), true),
      Send(d.(handler := Idle), Notice(ReExec), true)};
  }

  /** An expiry ends the session it announces, after that session's channel was closed. */
  lemma ExpiryDescribed(d: Daemon, t: TimerId)
    requires Inv(d) && Described(d) && Lapsed(d)
    requires t < |d.timers| && d.timers[t].Armed() && d.timers[t].stage.TClosing?
    ensures Wired(d)
    ensures var e := OnTimer(d, t);
            Wired(e) && Described(e) && Lapsed(e)
  {
    hide Inv, LastOf, Prompts, TimerOk;
    InvTimers(d, t);
    var s := d.timers[t].session;
    var e := OnTimer(d, t);
    LastAppend(d.out, Sent(Notice(AuthExpired(s)), d.open));
    if !d.sweep.NotStarted? && d.cur != Some(s) {
      DescribedSweeping(d, e);
    }
    AuthTheorems.ArmedUnready(d, t);
    ReplyingIsCurrent(d);
  }

  /** Once shutdown has begun, an announced expiry changes nothing in the description. */
  lemma DescribedSweeping(d: Daemon, e: Daemon)
    requires Wired(d) && Wired(e) && Described(d) && NothingHeard(d, e)
    requires Settled(e) ==> Settled(d)
    requires e.cur == d.cur && !e.sweep.NotStarted?
    requires LastOf(e.out).Last? ==>
               LastOf(d.out).Last? && LastOf(e.out).reply == LastOf(d.out).reply && LastOf(e.out).id == LastOf(d.out).id
    ensures Described(e)
  {
    hide LastOf, Prompts;
  }

  lemma ReplyingIsCurrent(d: Daemon)
    requires Inv(d)
    ensures d.handler.Replying? && d.cur.Some? ==> d.cur == Some(d.handler.session)
  {
    hide ChannelOk, TimerOk, SpawnsAreAuthorized, LogOk, ResponsesOk, Outstanding, TimersOk;
  }

  // ---------- steps and runs ----------

  lemma TimerDescribed(d: Daemon, t: TimerId)
    requires Inv(d) && Described(d) && Lapsed(d) && t < |d.timers|
    ensures Wired(d)
    ensures var e := OnTimer(d, t);
            Wired(e) && Described(e) && Lapsed(e)
  {
    hide Inv, LastOf, Prompts, TimerOk, WarningDelay, Described, Lapsed, OnTimer;
    InvWired(d);
    if d.timers[t].Armed() && d.timers[t].stage.TClosing? {
      ExpiryDescribed(d, t);
    } else {
      WaitingDescribed(d, t);
    }
  }

  lemma WaitingDescribed(d: Daemon, t: TimerId)
    requires Wired(d) && Described(d) && Lapsed(d) && t < |d.timers|
    requires d.timers[t].Armed() ==> !d.timers[t].stage.TClosing?
    ensures var e := OnTimer(d, t);
            Wired(e) && Described(e) && Lapsed(e)
  {
    hide LastOf, Prompts, WarningDelay, Described, Lapsed;
    var e := OnTimer(d, t);
    WaitingHears(d, t);
    LastAppend(d.out, Sent(Notice(AuthWarning(d.timers[t].session)), d.open));
    DescribedSame(d, e);
    if d.timers[t].Armed() && d.timers[t].stage.TCancelSent? {
      var f := Close(d, d.timers[t].session);
      assert f.timers == d.timers;
      LapsedSame(d, f);
      ClosingLapsed(f, t);
      assert e == SetTimer(f, t, d.timers[t].(stage := TClosing));
    } else {
      LapsedSame(d, e);
    }
  }

  /** A timeout task about to announce an expiry has closed its session's channel. */
  lemma ClosingLapsed(d: Daemon, t: TimerId)
    requires Wired(d) && Lapsed(d) && t < |d.timers| && d.sessions[d.timers[t].session].closed
    ensures var e := SetTimer(d, t, d.timers[t].(stage := TClosing));
            Wired(e) && Lapsed(e)
  {
  }

  lemma WaitingHears(d: Daemon, t: TimerId)
    requires Wired(d) && t < |d.timers|
    requires d.timers[t].Armed() ==> !d.timers[t].stage.TClosing?
    ensures var e := OnTimer(d, t);
            && NothingHeard(d, e) && Wired(e) && e.cur == d.cur && e.handler == d.handler && e.sweep == d.sweep
            && (!(d.timers[t].Armed() && d.timers[t].stage.TCancelSent?) ==> NoNewClosing(d, e))
            && (e.out == d.out || e.out == d.out + [Sent(Notice(AuthWarning(d.timers[t].session)), d.open)])
  {
    hide OnTimer, NothingHeard, NoNewClosing;
    if !d.timers[t].Armed() || d.timers[t].stage in {TNew, TBeforeWarning} {
      EarlyHears(d, t);
    } else {
      LateHears(d, t);
    }
  }

  lemma EarlyHears(d: Daemon, t: TimerId)
    requires Wired(d) && t < |d.timers| && (!d.timers[t].Armed() || d.timers[t].stage in {TNew, TBeforeWarning})
    ensures var e := OnTimer(d, t);
            && NothingHeard(d, e) && Wired(e) && e.cur == d.cur && e.handler == d.handler && e.sweep == d.sweep
            && NoNewClosing(d, e)
            && (e.out == d.out || e.out == d.out + [Sent(Notice(AuthWarning(d.timers[t].session)), d.open)])
  {
    hide WarningDelay;
  }

  lemma LateHears(d: Daemon, t: TimerId)
    requires Wired(d) && t < |d.timers| && d.timers[t].Armed() && d.timers[t].stage in {TAfterWarning, TCancelSent}
    ensures var e := OnTimer(d, t);
            && NothingHeard(d, e) && Wired(e) && e.cur == d.cur && e.handler == d.handler && e.sweep == d.sweep
            && (d.timers[t].stage.TAfterWarning? ==> NoNewClosing(d, e))
            && e.out == d.out
  {
    hide WarningDelay;
  }

  lemma SweepHears(d: Daemon)
    requires Wired(d)
    ensures var e := OnSweep(d);
            && Wired(e) && NothingHeard(d, e) && NoNewClosing(d, e) && !e.sweep.NotStarted?
            && e.handler == d.handler && e.out == d.out && (e.cur == d.cur || e.cur.None?)
  {
    hide CancelTimeout, NothingHeard, NoNewClosing;
    CancelMoves(d);
    CancelHears(d);
    var c := CancelTimeout(d);
    var e := OnSweep(d);
    match d.sweep
    case NotStarted =>
      TouchHears(c, e, if d.cur.Some? then d.cur.value else 0);
      HearsThrough(d, c, e);
    case SweepStopping(s, _) => TouchHears(d, e, s);
    case _ => TouchHears(d, e, 0);
  }

  lemma SweepDescribed(d: Daemon)
    requires Wired(d) && Described(d) && Lapsed(d)
    ensures var e := OnSweep(d);
            Wired(e) && Described(e) && Lapsed(e)
  {
    hide LastOf, Prompts, OnSweep;
    SweepHears(d);
  }

  lemma ShutDescribed(d: Daemon)
    requires Wired(d) && Described(d) && Lapsed(d)
    ensures var e := d.(open := false);
            Wired(e) && Described(e) && Lapsed(e)
  {
    hide LastOf, Prompts;
    DescribedSame(d, d.(open := false));
  }

  lemma StepDescribed(d: Daemon, l: Label)
    requires Agrees(d) && Wired(d) && Enabled(d, l)
    ensures var e := Step(d, l);
            Wired(e) && Described(e) && Lapsed(e)
  {
    hide Inv, Described, Lapsed, Numbered, OnRequest, OnWorker, OnStop, OnArm, OnLaunch, OnTimer, OnSweep, StopSession, Send;
    match l
    case Receive(r, fits) => RequestDescribed(d, r, fits);
    case WorkerSays(m, fits) => WorkerDescribed(d, m, fits);
    case ReceiveEnd => ExitDescribed(d);
    case WorkerFails => ExitDescribed(d);
    case WorkerSpawned => SpawnDescribed(d);
    case StopContinues => StopStepDescribed(d);
    case Arm => ArmDescribed(d);
    case LaunchContinues => LaunchDescribed(d);
    case TimerRuns(t) => TimerDescribed(d, t);
    case SweepRuns => SweepDescribed(d);
    case WriterCloses => ShutDescribed(d);
    case Broadcast(e) => NoticeDescribed(d, d, e);
  }

  lemma ExitDescribed(d: Daemon)
    requires Wired(d) && Lapsed(d)
    ensures Wired(Exit(d)) && Described(Exit(d)) && Lapsed(Exit(d))
  {
    hide StopSession, Described, Lapsed;
    StopDescribed(d, Note(d, LExit), true, ThenExit);
  }

  lemma SpawnDescribed(d: Daemon)
    requires Wired(d) && d.handler.Spawning? && Lapsed(d)
    ensures Wired(OnSpawned(d)) && Described(OnSpawned(d)) && Lapsed(OnSpawned(d))
  {
    hide LastOf, Prompts;
  }

  lemma AgreesStep(d: Daemon, l: Label)
    requires Agrees(d) && Wired(d) && Enabled(d, l) && InTurn(d, l)
    ensures Agrees(Step(d, l))
  {
    hide Inv, Described, Lapsed, Numbered, Step;
    AuthTheorems.StepKeeps(d, l);
    StepDescribed(d, l);
    StepNumbered(d, l);
  }

  lemma InitAgrees(timeout: int)
    ensures Agrees(Init(timeout))
  {
    AuthTheorems.InitInv(timeout);
  }
}
