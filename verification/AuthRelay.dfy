/**
 * What one step of the daemon does to its workers' channels, and how the prompts and replies of a
 * session hang together: each prompt was relayed by the response to one request of that session.
 */
module AuthRelay {
  import opened Wrappers
  import opened AuthMachine
  import opened AuthInvariants
  import AuthTheorems
  import opened AuthAgreement
  import opened SizeBounds
  import Utf8

  // ---------- what one step of the daemon does to the channels ----------

  /** From `a` to `b` at most one message was written, and an answer only if it is `answer`. */
  predicate Wrote(a: Session, b: Session, answer: Option<ToWorker>) {
    || b.sent == a.sent
    || b.sent == a.sent + [Cancel]
    || (answer.Some? && b.sent == a.sent + [answer.value])
  }

  /** From `a` to `b` at most `heard` was read, for the request it names. */
  predicate HeardAtMost(a: Session, b: Session, heard: Option<(FromWorker, nat)>) {
    && b.request == a.request && b.user == a.user
    && ((b.received == a.received && b.relayed == a.relayed)
        || (heard.Some?
            && b.received == a.received + [heard.value.0]
            && b.relayed == if heard.value.0.Asked? then a.relayed + [heard.value.1] else a.relayed))
  }

  /**
   * The step from `d` to `e` starts no session, or one with an empty channel, writes `answer` to
   * the session `s` at most, and reads `heard` from `s` at most.
   */
  predicate Talks(d: Daemon, e: Daemon, s: Option<SessionId>, answer: Option<ToWorker>, heard: Option<(FromWorker, nat)>) {
    && |d.sessions| <= |e.sessions|
    && (forall k | 0 <= k < |d.sessions| ::
          && Wrote(d.sessions[k], e.sessions[k], if s == Some(k) then answer else None)
          && HeardAtMost(d.sessions[k], e.sessions[k], if s == Some(k) then heard else None))
    && (|e.sessions| > |d.sessions| ==>
          && d.handler.Spawning? && |e.sessions| == |d.sessions| + 1
          && IsNew(e.sessions[|d.sessions|], d.handler.id, d.handler.user))
  }

  predicate IsNew(s: Session, id: nat, user: string) {
    s.user == user && s.request == id && s.received == [] && s.relayed == [] && s.sent == [Start(user)]
  }

  predicate Forwards(d: Daemon, l: Label)
    requires Wired(d)
  {
    && l.Receive? && l.request.body.Continue? && d.cur.Some?
    && !d.sessions[d.cur.value].ready && !AuthFieldIsTooLong(l.request.body.response)
    && !d.sessions[d.cur.value].closed
  }

  function Listening(d: Daemon, l: Label): Option<SessionId>
    requires Wired(d)
  {
    if Forwards(d, l) then d.cur else if l.WorkerSays? then Awaited(d.handler) else None
  }

  function Forwarded(d: Daemon, l: Label): Option<ToWorker>
    requires Wired(d)
  {
    if Forwards(d, l) then Some(Answer(l.request.body.response, l.request.body.shown, l.request.id)) else None
  }

  function HeardBy(d: Daemon, l: Label): Option<(FromWorker, nat)> {
    if l.WorkerSays? && Awaited(d.handler).Some? then Some((l.message, d.handler.id)) else None
  }

  lemma StopTalks(d: Daemon, sendCancel: bool, after: After)
    requires Wired(d)
    ensures Talks(d, StopSession(d, sendCancel, after), None, None, None)
  {
    hide CancelTimeout;
    CancelMoves(d);
  }

  lemma TalksFrom(d: Daemon, n: Daemon, e: Daemon)
    requires n.sessions == d.sessions && n.handler == d.handler && Talks(n, e, None, None, None)
    ensures Talks(d, e, None, None, None)
  {
  }

  lemma CancelTalks(d: Daemon, r: Request, fits: bool)
    requires Wired(d) && d.handler.Idle? && r.body.CancelSession?
    ensures Talks(d, OnRequest(d, r, fits), None, None, None)
  {
    hide StopSession, Talks;
    var n := Note(d.(requests := d.requests + [r.id]), LCancel);
    StopTalks(n, true, ThenAccept(r.id));
    TalksFrom(d, n, OnRequest(d, r, fits));
  }

  lemma CreateTalks(d: Daemon, r: Request, fits: bool)
    requires Wired(d) && d.handler.Idle? && r.body.Create?
    ensures Talks(d, OnRequest(d, r, fits), None, None, None)
  {
    hide StopSession, Utf8.DecodeReplace, AuthFieldIsTooLong;
    var user := Utf8.DecodeReplace(r.body.username);
    StopTalks(Note(d.(requests := d.requests + [r.id]), LAccept(user, r.id)), true, ThenCreate(r.id, user));
  }

  lemma RequestTalks(d: Daemon, r: Request, fits: bool)
    requires Wired(d) && d.handler.Idle?
    ensures var l := Receive(r, fits);
            Talks(d, OnRequest(d, r, fits), Listening(d, l), Forwarded(d, l), None)
  {
    hide StopSession, CancelTimeout, Utf8.DecodeReplace, AuthFieldIsTooLong;
    if r.body.Create? {
      CreateTalks(d, r, fits);
    } else if r.body.CancelSession? {
      CancelTalks(d, r, fits);
    } else {
      CancelMoves(d.(requests := d.requests + [r.id]));
    }
  }

  /** Reading `m` touches the awaited session alone. */
  lemma HeardTalks(d: Daemon, m: FromWorker)
    requires Wired(d) && Awaited(d.handler).Some?
    ensures Wired(Heard(d, m)) && Talks(d, Heard(d, m), Awaited(d.handler), None, Some((m, d.handler.id)))
  {
  }

  lemma ThenStops(d: Daemon, n: Daemon, s: SessionId, heard: FromWorker, sendCancel: bool, after: After)
    requires Wired(n) && |n.sessions| == |d.sessions| && Awaited(d.handler).Some? && Talks(d, n, Some(s), None, Some((heard, d.handler.id)))
    requires forall k | 0 <= k < |d.sessions| :: n.sessions[k].sent == d.sessions[k].sent
    ensures Talks(d, StopSession(n, sendCancel, after), Some(s), None, Some((heard, d.handler.id)))
  {
    hide StopSession, Wired;
    StopTalks(n, sendCancel, after);
    StopCount(n, after);
  }

  lemma WorkerTalks(d: Daemon, m: FromWorker, fits: bool)
    requires Wired(d) && Awaited(d.handler).Some?
    ensures Talks(d, OnWorker(d, m, fits), Awaited(d.handler), None, Some((m, d.handler.id)))
  {
    hide StopSession, CancelTimeout, Talks, Wired;
    var s := Awaited(d.handler).value;
    var n := Heard(d, m);
    HeardTalks(d, m);
    HeardWrites(d, m);
    match m
    case Asked(_) => SameTalks(d, n, OnWorker(d, m, fits), s, m);
    case IsReady =>
      CancelMoves(n);
      SameTalks(d, n, OnWorker(d, m, fits), s, m);
    case Unexpected =>
      SameTalks(d, n, Note(n, LExit), s, m);
      NoteWired(n);
      ThenStops(d, Note(n, LExit), s, m, true, ThenExit);
    case HasFailed(code) => ThenStops(d, n, s, m, false, ThenRefuse(d.handler.id, code, fits));
    case Closed => ThenStops(d, n, s, m, false, ThenRefuse(d.handler.id, "auth_failed", true));
  }

  lemma HeardWrites(d: Daemon, m: FromWorker)
    requires Wired(d) && Awaited(d.handler).Some?
    ensures |Heard(d, m).sessions| == |d.sessions|
    ensures forall k | 0 <= k < |d.sessions| :: Heard(d, m).sessions[k].sent == d.sessions[k].sent
  {
  }

  lemma NoteWired(d: Daemon)
    requires Wired(d)
    ensures Wired(Note(d, LExit))
  {
  }

  lemma SameTalks(d: Daemon, n: Daemon, e: Daemon, s: SessionId, m: FromWorker)
    requires Awaited(d.handler).Some? && Talks(d, n, Some(s), None, Some((m, d.handler.id))) && e.sessions == n.sessions
    ensures Talks(d, e, Some(s), None, Some((m, d.handler.id)))
  {
  }

  lemma TimerTalks(d: Daemon, t: TimerId)
    requires Wired(d) && t < |d.timers|
    ensures Talks(d, OnTimer(d, t), None, None, None)
  {
    hide OnTimer, Talks;
    if !d.timers[t].Armed() || d.timers[t].stage in {TNew, TBeforeWarning} {
      EarlyTalks(d, t);
    } else {
      LateTalks(d, t);
    }
  }

  lemma EarlyTalks(d: Daemon, t: TimerId)
    requires Wired(d) && t < |d.timers| && (!d.timers[t].Armed() || d.timers[t].stage in {TNew, TBeforeWarning})
    ensures Talks(d, OnTimer(d, t), None, None, None)
  {
    hide WarningDelay;
  }

  lemma LateTalks(d: Daemon, t: TimerId)
    requires Wired(d) && t < |d.timers| && d.timers[t].Armed() && d.timers[t].stage !in {TNew, TBeforeWarning}
    ensures Talks(d, OnTimer(d, t), None, None, None)
  {
    hide WarningDelay;
  }

  lemma StepTalks(d: Daemon, l: Label)
    requires Wired(d) && Enabled(d, l)
    ensures Talks(d, Step(d, l), Listening(d, l), Forwarded(d, l), HeardBy(d, l))
  {
    hide Talks, StopSession, OnTimer, OnRequest, OnWorker, CancelTimeout, Forwards, OnSweep, OnStop;
    OnlyRequestsForward(d, l);
    match l
    case Receive(r, fits) => RequestTalks(d, r, fits);
    case WorkerSays(m, fits) => WorkerTalks(d, m, fits);
    case TimerRuns(t) => TimerTalks(d, t);
    case SweepRuns => SweepTalks(d);
    case _ => OtherTalks(d, l);
  }

  lemma SweepTalks(d: Daemon)
    requires Wired(d)
    ensures Talks(d, OnSweep(d), None, None, None)
  {
    hide CancelTimeout;
    CancelMoves(d);
  }

  lemma ExitTalks(d: Daemon)
    requires Wired(d)
    ensures Talks(d, Exit(d), None, None, None)
  {
    hide StopSession, Talks;
    StopTalks(Note(d, LExit), true, ThenExit);
    TalksFrom(d, Note(d, LExit), Exit(d));
  }

  lemma OtherTalks(d: Daemon, l: Label)
    requires Wired(d) && Enabled(d, l)
    requires !l.Receive? && !l.WorkerSays? && !l.TimerRuns? && !l.SweepRuns?
    ensures Talks(d, Step(d, l), None, None, None)
  {
    hide StopSession, CancelTimeout, Exit;
    CancelMoves(d);
    ExitTalks(d);
  }

  lemma OnlyRequestsForward(d: Daemon, l: Label)
    requires Wired(d)
    ensures Forwards(d, l) ==> l.Receive?
  {
  }

  // ---------- the thread of a session ----------

  /** The request whose response relayed prompt number `i`: the create-session, then each reply in turn. */
  function AskedBy(s: Session, i: nat): Option<nat> {
    if i == 0 then Some(s.request)
    else if i <= |Answers(s.sent)| then Some(Answers(s.sent)[i - 1].request)
    else None
  }

  predicate Threaded(s: Session) {
    && |s.relayed| == |Prompts(s.received)|
    && forall i | 0 <= i < |s.relayed| :: AskedBy(s, i) == Some(s.relayed[i])
  }

  /** The replies forwarded to a session come after its create-session, each after the one before it. */
  predicate Ordered(s: Session, requests: nat) {
    && s.request < requests
    && (forall i | 0 <= i < |Answers(s.sent)| :: s.request < Answers(s.sent)[i].request < requests)
    && (forall i, j | 0 <= i < j < |Answers(s.sent)| :: Answers(s.sent)[i].request < Answers(s.sent)[j].request)
  }

  /** The handler works on the newest request, for a new session or for the last reply of one. */
  predicate Placed(d: Daemon)
    requires Wired(d)
  {
    match d.handler
    case Spawning(id, _) => Above(d, id)
    case Stopping(_, _, ThenCreate(id, _)) => Above(d, id)
    case FirstMessage(id, s) => d.sessions[s].request == id && Answers(d.sessions[s].sent) == []
    case Replying(id, s) =>
      var answers := Answers(d.sessions[s].sent);
      answers != [] && answers[|answers| - 1].request == id
    case _ => true
  }

  predicate Above(d: Daemon, id: nat) {
    id < |d.requests| && forall s | 0 <= s < |d.sessions| :: d.sessions[s].request < id
  }

  predicate Threads(d: Daemon)
    requires Wired(d)
  {
    && (forall s | 0 <= s < |d.sessions| :: Threaded(d.sessions[s]) && Ordered(d.sessions[s], |d.requests|))
    && (forall s, t | 0 <= s < t < |d.sessions| :: d.sessions[s].request < d.sessions[t].request)
    && Placed(d)
  }

  lemma ThreadedStep(a: Session, b: Session, answer: Option<ToWorker>, heard: Option<(FromWorker, nat)>)
    requires Threaded(a) && ChannelOk(a) && Wrote(a, b, answer) && HeardAtMost(a, b, heard)
    requires answer.Some? ==> answer.value.Answer? && heard.None?
    requires heard.Some? && heard.value.0.Asked? ==> !Outstanding(a) && AskedBy(a, |a.relayed|) == Some(heard.value.1)
    ensures Threaded(b)
  {
    hide Answers, Prompts;
    WroteAnswers(a, b, answer);
    if heard.Some? {
      ReceivedAppend(a.received, heard.value.0);
    }
    forall i | 0 <= i < |b.relayed|
      ensures AskedBy(b, i) == Some(b.relayed[i])
    {
      if i < |a.relayed| {
        assert AskedBy(a, i) == Some(a.relayed[i]);
      }
    }
  }

  lemma WroteAnswers(a: Session, b: Session, answer: Option<ToWorker>)
    requires Wrote(a, b, answer) && (answer.Some? ==> answer.value.Answer?)
    ensures Answers(b.sent) == Answers(a.sent) || (answer.Some? && Answers(b.sent) == Answers(a.sent) + [answer.value])
  {
    hide Answers;
    SentAppend(a.sent, Cancel);
    if answer.Some? {
      SentAppend(a.sent, answer.value);
    }
  }

  lemma OrderedStep(a: Session, b: Session, answer: Option<ToWorker>, n: nat, m: nat)
    requires Ordered(a, n) && Wrote(a, b, answer) && b.request == a.request && n <= m
    requires answer.Some? ==> answer.value.Answer? && n <= answer.value.request < m
    ensures Ordered(b, m)
  {
    hide Answers;
    WroteAnswers(a, b, answer);
    var x, y := Answers(a.sent), Answers(b.sent);
    assert forall i | 0 <= i < |x| :: y[i] == x[i];
  }

  // ---------- where the handler goes ----------

  /** The positions that name a session's request, and where they may come from. */
  predicate Leads(d: Daemon, l: Label, h: Handler)
    requires Wired(d)
  {
    match h
    case FirstMessage(id, s) =>
      h == d.handler || (l.WorkerSpawned? && d.handler.Spawning? && id == d.handler.id && s == |d.sessions|)
    case Replying(id, s) => h == d.handler || (Forwards(d, l) && id == l.request.id && d.cur == Some(s))
    case Spawning(id, _) => h == d.handler || (l.Receive? && id == l.request.id) || Creating(d.handler, id)
    case Stopping(_, _, ThenCreate(id, _)) => Creating(d.handler, id) || (l.Receive? && id == l.request.id)
    case _ => true
  }

  predicate Creating(h: Handler, id: nat) {
    h.Stopping? && h.after.ThenCreate? && h.after.id == id
  }

  lemma StopLeads(d: Daemon, sendCancel: bool, after: After)
    requires Wired(d)
    ensures var h := StopSession(d, sendCancel, after).handler;
            !h.FirstMessage? && !h.Replying? && (h.Spawning? ==> after.ThenCreate? && h.id == after.id) && (h.Stopping? ==> h.after == after)
  {
    hide CancelTimeout;
    CancelMoves(d);
  }

  lemma RequestLeads(d: Daemon, r: Request, fits: bool)
    requires Wired(d) && d.handler.Idle?
    ensures Leads(d, Receive(r, fits), OnRequest(d, r, fits).handler)
  {
    hide StopSession, CancelTimeout, Utf8.DecodeReplace, AuthFieldIsTooLong;
    var n := d.(requests := d.requests + [r.id]);
    StopLeads(Note(n, LCancel), true, ThenAccept(r.id));
    if r.body.Create? {
      var user := Utf8.DecodeReplace(r.body.username);
      StopLeads(Note(n, LAccept(user, r.id)), true, ThenCreate(r.id, user));
    }
  }

  lemma WorkerLeads(d: Daemon, m: FromWorker, fits: bool)
    requires Wired(d) && Awaited(d.handler).Some?
    ensures Leads(d, WorkerSays(m, fits), OnWorker(d, m, fits).handler)
  {
    hide StopSession, CancelTimeout;
    var n := Heard(d, m);
    StopLeads(n, false, ThenRefuse(d.handler.id, if m.HasFailed? then m.code else "auth_failed", m.HasFailed? ==> fits));
    StopLeads(Note(n, LExit), true, ThenExit);
  }

  lemma StepLeads(d: Daemon, l: Label)
    requires Wired(d) && Enabled(d, l)
    ensures Leads(d, l, Step(d, l).handler)
  {
    hide StopSession, OnTimer, OnSweep, OnRequest, OnWorker, CancelTimeout, Forwards;
    match l
    case Receive(r, fits) => RequestLeads(d, r, fits);
    case WorkerSays(m, fits) => WorkerLeads(d, m, fits);
    case TimerRuns(t) => TimerMoves(d, t);
    case SweepRuns => SweepMoves(d);
    case _ => StopLeads(Note(d, LExit), true, ThenExit);
  }

  // ---------- the threads of all sessions ----------

  lemma SessionThreads(d: Daemon, l: Label, s: SessionId)
    requires Inv(d) && Threads(d) && Enabled(d, l) && InTurn(d, l) && s < |d.sessions|
    requires Owed(d.handler).Some? ==> Owed(d.handler).value == |d.requests| - 1
    requires |Step(d, l).sessions| >= |d.sessions|
    ensures Threaded(Step(d, l).sessions[s]) && Ordered(Step(d, l).sessions[s], |Step(d, l).requests|)
    ensures Step(d, l).sessions[s].request == d.sessions[s].request
  {
    hide Inv, Step, Talks, Answers, Prompts, Threaded, Ordered, Outstanding, ChannelOk;
    InvWired(d);
    StepTalks(d, l);
    RequestsGrow(d, l);
    var a, b := d.sessions[s], Step(d, l).sessions[s];
    var mine := Listening(d, l) == Some(s);
    var answer := if mine then Forwarded(d, l) else None;
    var heard := if mine then HeardBy(d, l) else None;
    TalksAt(d, Step(d, l), Listening(d, l), Forwarded(d, l), HeardBy(d, l), s);
    InvChannel(d, s);
    if heard.Some? && heard.value.0.Asked? {
      AskedNext(d, s);
    }
    ThreadedStep(a, b, answer, heard);
    OrderedStep(a, b, answer, |d.requests|, |Step(d, l).requests|);
  }

  lemma TalksAt(d: Daemon, e: Daemon, s: Option<SessionId>, answer: Option<ToWorker>, heard: Option<(FromWorker, nat)>, k: SessionId)
    requires Talks(d, e, s, answer, heard) && k < |d.sessions|
    ensures k < |e.sessions|
    ensures Wrote(d.sessions[k], e.sessions[k], if s == Some(k) then answer else None)
    ensures HeardAtMost(d.sessions[k], e.sessions[k], if s == Some(k) then heard else None)
  {
  }

  lemma RequestsGrow(d: Daemon, l: Label)
    requires Wired(d) && Enabled(d, l) && InTurn(d, l)
    ensures Step(d, l).requests == if l.Receive? then d.requests + [|d.requests|] else d.requests
  {
    hide Step;
    if l.Receive? {
      RequestCount(d, l.request, l.fits);
    } else {
      GrowsOnlyByReceive(d, l);
    }
  }

  lemma InvChannel(d: Daemon, s: SessionId)
    requires Inv(d) && s < |d.sessions|
    ensures ChannelOk(d.sessions[s])
  {
  }

  /** A prompt read now is the next one of its session, and the owed response will relay it. */
  lemma AskedNext(d: Daemon, s: SessionId)
    requires Inv(d) && Threads(d) && Awaited(d.handler) == Some(s)
    ensures s < |d.sessions| && !Outstanding(d.sessions[s])
    ensures AskedBy(d.sessions[s], |d.sessions[s].relayed|) == Some(d.handler.id)
  {
    hide TimerOk, SpawnsAreAuthorized, LogOk, ResponsesOk, TimersOk, CurOk, Answers, Prompts, Ordered;
    assert ChannelOk(d.sessions[s]) && Threaded(d.sessions[s]);
  }

  lemma NewThread(s: Session, id: nat, user: string, n: nat)
    requires IsNew(s, id, user) && id < n
    ensures Threaded(s) && Ordered(s, n) && Answers(s.sent) == []
  {
    SentAppend([], Start(user));
    assert [] + [Start(user)] == s.sent;
  }

  lemma ThreadsStep(d: Daemon, l: Label)
    requires Inv(d) && Wired(d) && Threads(d) && Enabled(d, l) && InTurn(d, l)
    requires Owed(d.handler).Some? ==> Owed(d.handler).value == |d.requests| - 1
    ensures Wired(Step(d, l)) && Threads(Step(d, l))
  {
    hide Inv, Step, Talks, Answers, Prompts, Threaded, Ordered, Placed, IsNew;
    var e := Step(d, l);
    AuthTheorems.StepKeeps(d, l);
    InvWired(e);
    StepTalks(d, l);
    SessionCount(d, l);
    RequestsGrow(d, l);
    forall s | 0 <= s < |e.sessions|
      ensures Threaded(e.sessions[s]) && Ordered(e.sessions[s], |e.requests|)
      ensures s < |d.sessions| ==> e.sessions[s].request == d.sessions[s].request
    {
      if s < |d.sessions| {
        SessionThreads(d, l, s);
      } else {
        NewSession(d, l);
      }
    }
    if l.WorkerSpawned? {
      NewSession(d, l);
    }
    PlacedStep(d, l);
  }

  lemma NewSession(d: Daemon, l: Label)
    requires Wired(d) && Placed(d) && Enabled(d, l) && l.WorkerSpawned?
    requires Step(d, l).requests == d.requests
    ensures var e := Step(d, l);
            && |e.sessions| == |d.sessions| + 1
            && IsNew(e.sessions[|d.sessions|], d.handler.id, d.handler.user)
            && Threaded(e.sessions[|d.sessions|]) && Ordered(e.sessions[|d.sessions|], |e.requests|)
            && (forall s | 0 <= s < |d.sessions| :: d.sessions[s].request < e.sessions[|d.sessions|].request)
            && e.handler == FirstMessage(d.handler.id, |d.sessions|)
  {
    hide Answers, Threaded, Ordered;
    NewThread(Step(d, l).sessions[|d.sessions|], d.handler.id, d.handler.user, |d.requests|);
  }

  lemma PlacedStep(d: Daemon, l: Label)
    requires Inv(d) && Wired(d) && Threads(d) && Enabled(d, l) && InTurn(d, l) && Wired(Step(d, l))
    requires Step(d, l).requests == if l.Receive? then d.requests + [|d.requests|] else d.requests
    requires |Step(d, l).sessions| == |d.sessions| + (if l.WorkerSpawned? then 1 else 0)
    ensures Placed(Step(d, l))
  {
    hide Inv, Step, Talks, Answers, Prompts, Threaded, Outstanding;
    var e := Step(d, l);
    StepLeads(d, l);
    StepTalks(d, l);
    forall s | 0 <= s < |d.sessions|
      ensures e.sessions[s].request == d.sessions[s].request
    {
      TalksAt(d, e, Listening(d, l), Forwarded(d, l), HeardBy(d, l), s);
    }
    if l.WorkerSpawned? {
      NewSession(d, l);
      NewThread(e.sessions[|d.sessions|], d.handler.id, d.handler.user, |d.requests|);
    } else if e.handler.FirstMessage? || e.handler.Replying? {
      var s := e.handler.session;
      TalksAt(d, e, Listening(d, l), Forwarded(d, l), HeardBy(d, l), s);
      AnswersAt(d, l, s);
    }
  }

  /** A forwarded reply is the last one of its session; nothing else adds to a session's replies. */
  lemma AnswersAt(d: Daemon, l: Label, s: SessionId)
    requires Wired(d) && Enabled(d, l) && s < |d.sessions| && s < |Step(d, l).sessions|
    requires Wrote(d.sessions[s], Step(d, l).sessions[s], if Listening(d, l) == Some(s) then Forwarded(d, l) else None)
    ensures Forwards(d, l) && d.cur == Some(s) && Step(d, l).handler.Replying? ==>
              Answers(Step(d, l).sessions[s].sent) == Answers(d.sessions[s].sent) + [Forwarded(d, l).value]
    ensures !l.Receive? ==> Answers(Step(d, l).sessions[s].sent) == Answers(d.sessions[s].sent)
  {
    hide Answers;
    SentAppend(d.sessions[s].sent, Cancel);
    if Forwards(d, l) {
      SentAppend(d.sessions[s].sent, Forwarded(d, l).value);
    }
  }
}
