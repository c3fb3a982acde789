/**
 * What a label does, told without the machine's own log: which labels decide over a session, what an
 * accepted start-session and a spawn go back to, and what ending a session leaves behind.
 */
module AuthEffects {
  import opened Wrappers
  import opened AuthMachine
  import opened AuthInvariants
  import opened SizeBounds
  import AuthTheorems
  import Utf8

  // ---------- the labels that decide ----------

  /** The task is inside `expire`, and its session is still the current one when the task is done with it. */
  predicate ExpiresNow(d: Daemon, t: TimerId) {
    t < |d.timers| && !d.timers[t].cancelled && d.timers[t].stage.TClosing? && d.cur == Some(d.timers[t].session)
  }

  /**
   * What the label decides: a user name is accepted, a worker reports ready, a ready session is handed
   * over to a command and spawned, or a session is cancelled, expired or left.
   */
  function Decision(d: Daemon, l: Label): Option<Log>
    requires Wired(d) && Enabled(d, l)
  {
    match l
    case Receive(Request(id, Create(username)), _) =>
      if |username| <= 256 then Some(LAccept(Utf8.DecodeReplace(username), id)) else None
    case Receive(Request(_, CancelSession), _) => Some(LCancel)
    case Receive(Request(_, StartSession(command)), _) =>
      if d.cur.Some? && d.sessions[d.cur.value].ready then Some(LAuthorize(d.sessions[d.cur.value].user, command)) else None
    case WorkerSays(IsReady, _) => Some(LReady(d.sessions[Awaited(d.handler).value].user))
    case WorkerSays(Unexpected, _) => Some(LExit)
    case WorkerFails => Some(LExit)
    case ReceiveEnd => Some(LExit)
    case LaunchContinues => if d.handler.step == 1 then Some(LSpawn(d.handler.user, d.handler.command)) else None
    case TimerRuns(t) => if ExpiresNow(d, t) then Some(LExpire(d.timers[t].session)) else None
    case _ => None
  }

  function Entry(decision: Option<Log>): seq<Log> {
    if decision.Some? then [decision.value] else []
  }

  lemma CancelLogs(d: Daemon)
    requires Wired(d)
    ensures CancelTimeout(d).log == d.log && CancelTimeout(d).cur == d.cur && Wired(CancelTimeout(d))
  {
  }

  lemma StopLogs(d: Daemon, sendCancel: bool, after: After)
    requires Wired(d)
    ensures StopSession(d, sendCancel, after).log == d.log
  {
    hide CancelTimeout;
    CancelLogs(d);
  }

  lemma RequestLogs(d: Daemon, r: Request, fits: bool)
    requires Wired(d) && d.handler.Idle?
    ensures OnRequest(d, r, fits).log == d.log + Entry(Decision(d, Receive(r, fits)))
  {
    hide StopSession, CancelTimeout, Utf8.DecodeReplace;
    var n := d.(requests := d.requests + [r.id]);
    CancelLogs(n);
    match r.body
    case Create(username) =>
      var user := Utf8.DecodeReplace(username);
      StopLogs(Note(n, LAccept(user, r.id)), true, ThenCreate(r.id, user));
    case CancelSession => StopLogs(Note(n, LCancel), true, ThenAccept(r.id));
    case _ =>
  }

  lemma WorkerLogs(d: Daemon, m: FromWorker, fits: bool)
    requires Wired(d) && Enabled(d, WorkerSays(m, fits))
    ensures OnWorker(d, m, fits).log == d.log + Entry(Decision(d, WorkerSays(m, fits)))
  {
    hide StopSession, CancelTimeout;
    var n := Heard(d, m);
    match m
    case Asked(_) =>
    case IsReady => CancelLogs(n);
    case HasFailed(code) => StopLogs(n, false, ThenRefuse(d.handler.id, code, fits));
    case Closed => StopLogs(n, false, ThenRefuse(d.handler.id, "auth_failed", true));
    case Unexpected => StopLogs(Note(n, LExit), true, ThenExit);
  }

  lemma TimerLogs(d: Daemon, t: TimerId)
    requires Wired(d) && t < |d.timers|
    ensures OnTimer(d, t).log == d.log + Entry(Decision(d, TimerRuns(t)))
  {
    hide WarningDelay;
  }

  lemma SweepLogs(d: Daemon)
    requires Wired(d)
    ensures OnSweep(d).log == d.log
  {
    hide CancelTimeout;
    CancelLogs(d);
  }

  /** The log is the list of the decisions. */
  lemma StepLogs(d: Daemon, l: Label)
    requires Wired(d) && Enabled(d, l)
    ensures Step(d, l).log == d.log + Entry(Decision(d, l))
  {
    hide StopSession, CancelTimeout, OnRequest, OnWorker, OnTimer, OnSweep;
    match l
    case Receive(r, fits) => RequestLogs(d, r, fits);
    case WorkerSays(m, fits) => WorkerLogs(d, m, fits);
    case TimerRuns(t) => TimerLogs(d, t);
    case SweepRuns => SweepLogs(d);
    case _ =>
      CancelLogs(d);
      StopLogs(Note(d, LExit), true, ThenExit);
  }

  // ---------- over runs ----------

  predicate DecidesAt(states: seq<Daemon>, labels: seq<Label>, m: nat, entry: Log) {
    && m < |labels| && m < |states| && Wired(states[m]) && Enabled(states[m], labels[m])
    && Decision(states[m], labels[m]) == Some(entry)
  }

  predicate DecidesNothingAt(states: seq<Daemon>, labels: seq<Label>, m: nat) {
    && m < |labels| && m < |states| && Wired(states[m]) && Enabled(states[m], labels[m])
    && Decision(states[m], labels[m]).None?
  }

  /** Each entry of the log has the label that decided it, and nothing was decided in between. */
  lemma {:induction false} Decided(timeout: int, states: seq<Daemon>, labels: seq<Label>, n: nat, i: nat) returns (m: nat)
    requires Run(timeout, states, labels) && n < |states| && i < |states[n].log|
    ensures m < n && DecidesAt(states, labels, m, states[n].log[i])
    ensures |states[m].log| == i && states[m + 1].log == states[n].log[..i + 1]
  {
    hide Step, Enabled, Wired, Decision;
    if n == 0 {
      assert false;
    } else {
      assert Steps(states, labels, n - 1);
      StepLogs(states[n - 1], labels[n - 1]);
      if i < |states[n - 1].log| {
        m := Decided(timeout, states, labels, n - 1, i);
      } else {
        m := n - 1;
      }
    }
  }

  lemma {:induction false} LogGrows(timeout: int, states: seq<Daemon>, labels: seq<Label>, m: nat, n: nat)
    requires Run(timeout, states, labels) && m <= n < |states|
    ensures |states[m].log| <= |states[n].log|
    decreases n
  {
    hide Step, Enabled, Wired, Decision;
    if m < n {
      LogGrows(timeout, states, labels, m, n - 1);
      assert Steps(states, labels, n - 1);
      StepLogs(states[n - 1], labels[n - 1]);
    }
  }

  /** Two entries that follow each other have nothing decided between them. */
  lemma NothingBetween(timeout: int, states: seq<Daemon>, labels: seq<Label>, m: nat, n: nat, k: nat)
    requires Run(timeout, states, labels) && m < k < n < |states| && |states[m + 1].log| == |states[n].log|
    ensures DecidesNothingAt(states, labels, k)
  {
    hide Run, Step, Decision;
    LogGrows(timeout, states, labels, m + 1, k);
    LogGrows(timeout, states, labels, k + 1, n);
    RunSteps(timeout, states, labels, k);
    StepLogs(states[k], labels[k]);
  }

  lemma RunSteps(timeout: int, states: seq<Daemon>, labels: seq<Label>, k: nat)
    requires Run(timeout, states, labels)
    ensures |states| == |labels| + 1
    ensures k < |labels| ==> Steps(states, labels, k)
  {
  }

  /** The label is a create-session naming this user, and is accepted. */
  predicate Accepts(l: Label, user: string) {
    l.Receive? && l.request.body.Create? && |l.request.body.username| <= 256 && Utf8.DecodeReplace(l.request.body.username) == user
  }

  predicate ReportsReady(l: Label) {
    l.WorkerSays? && l.message.IsReady?
  }

  /**
   * A start-session is accepted only for a user whose create-session was accepted and whose worker then
   * reported ready, with nothing decided since: no other create-session, no cancel, no expiry, no exit
   * and no other start.
   */
  lemma StartFollowsReady(timeout: int, states: seq<Daemon>, labels: seq<Label>, n: nat) returns (a: nat, r: nat)
    requires Run(timeout, states, labels) && n < |labels|
    requires labels[n].Receive? && states[n + 1].handler.Launching?
    ensures labels[n].request.body.StartSession? && states[n + 1].handler.command == labels[n].request.body.command
    ensures a < r < n && Accepts(labels[a], states[n + 1].handler.user) && ReportsReady(labels[r])
    ensures forall k | a < k < n && k != r :: DecidesNothingAt(states, labels, k)
  {
    hide Run, Decision, DecidesNothingAt, Inv, OnRequest, Utf8.DecodeReplace;
    RunSteps(timeout, states, labels, n);
    AuthTheorems.RunKeeps(timeout, states, labels, n);
    var log := states[n].log;
    StartIsReadied(states[n], labels[n].request, labels[n].fits);
    r := Decided(timeout, states, labels, n, |log| - 1);
    a := Decided(timeout, states, labels, n, |log| - 2);
    LogGrows(timeout, states, labels, if r <= a then r else 0, if r <= a then a else 0);
    ReadyDecision(states, labels, r, log[|log| - 1]);
    AcceptDecision(states, labels, a, log[|log| - 2]);
    forall k | a < k < n && k != r
      ensures DecidesNothingAt(states, labels, k)
    {
      if k < r {
        NothingBetween(timeout, states, labels, a, r, k);
      } else {
        NothingBetween(timeout, states, labels, r, n, k);
      }
    }
  }

  lemma StartIsReadied(d: Daemon, r: Request, fits: bool)
    requires Inv(d) && Wired(d) && d.handler.Idle? && OnRequest(d, r, fits).handler.Launching?
    ensures var h := OnRequest(d, r, fits).handler;
            && r.body.StartSession? && h.command == r.body.command
            && exists i :: Readied(d.log, h.user, i)
  {
    hide CancelTimeout, ChannelOk, TimerOk, SpawnsAreAuthorized, ResponsesOk, TimersOk, ChannelsOk, Utf8.DecodeReplace, AuthFieldIsTooLong;
    if r.body.StartSession? {
      var s := d.sessions[d.cur.value];
      assert Readied(d.log, s.user, s.request);
    }
  }

  lemma ReadyDecision(states: seq<Daemon>, labels: seq<Label>, m: nat, entry: Log)
    requires DecidesAt(states, labels, m, entry) && entry.LReady?
    ensures ReportsReady(labels[m])
  {
    hide Utf8.DecodeReplace;
  }

  lemma AcceptDecision(states: seq<Daemon>, labels: seq<Label>, m: nat, entry: Log)
    requires DecidesAt(states, labels, m, entry) && entry.LAccept?
    ensures Accepts(labels[m], entry.user)
  {
    hide Utf8.DecodeReplace;
  }

  /** After a cancel-session no start-session is accepted before a worker has reported ready again. */
  lemma CancelForbidsStart(timeout: int, states: seq<Daemon>, labels: seq<Label>, m: nat, n: nat) returns (r: nat)
    requires Run(timeout, states, labels) && m < n < |labels|
    requires labels[m].Receive? && labels[m].request.body.CancelSession?
    requires labels[n].Receive? && states[n + 1].handler.Launching?
    ensures m < r < n && ReportsReady(labels[r])
  {
    hide Run, Step, OnRequest;
    var a;
    a, r := StartFollowsReady(timeout, states, labels, n);
    RunSteps(timeout, states, labels, m);
    if r < m || (a < m && m != r) {
      assert DecidesNothingAt(states, labels, m);
    }
  }

  // ---------- a launch ----------

  /**
   * A user session is spawned only by the handler that has just accepted a start-session for it: behind
   * its create-session and its ready report, and with nothing decided since but that start.
   */
  lemma SpawnFollowsStart(timeout: int, states: seq<Daemon>, labels: seq<Label>, n: nat) returns (a: nat, r: nat, z: nat)
    requires Run(timeout, states, labels) && n < |labels|
    requires labels[n].LaunchContinues? && states[n].handler.Launching? && states[n].handler.step == 1
    ensures a < r < z < n && Accepts(labels[a], states[n].handler.user) && ReportsReady(labels[r])
    ensures labels[z].Receive? && labels[z].request.body == StartSession(states[n].handler.command)
    ensures forall k | a < k < n && k != r && k != z :: DecidesNothingAt(states, labels, k)
  {
    hide Run, Decision, DecidesNothingAt, Inv, OnRequest, Utf8.DecodeReplace;
    RunSteps(timeout, states, labels, n);
    AuthTheorems.RunKeeps(timeout, states, labels, n);
    var log := states[n].log;
    LaunchIsAuthorized(states[n]);
    z := Decided(timeout, states, labels, n, |log| - 1);
    r := Decided(timeout, states, labels, n, |log| - 2);
    a := Decided(timeout, states, labels, n, |log| - 3);
    LogGrows(timeout, states, labels, if z <= r then z else 0, if z <= r then r else 0);
    LogGrows(timeout, states, labels, if r <= a then r else 0, if r <= a then a else 0);
    StartDecision(states, labels, z, log[|log| - 1]);
    ReadyDecision(states, labels, r, log[|log| - 2]);
    AcceptDecision(states, labels, a, log[|log| - 3]);
    forall k | a < k < n && k != r && k != z
      ensures DecidesNothingAt(states, labels, k)
    {
      if k < r {
        NothingBetween(timeout, states, labels, a, r, k);
      } else if k < z {
        NothingBetween(timeout, states, labels, r, z, k);
      } else {
        NothingBetween(timeout, states, labels, z, n, k);
      }
    }
  }

  lemma LaunchIsAuthorized(d: Daemon)
    requires Inv(d) && d.handler.Launching? && d.handler.step == 1
    ensures Authorized(d.log, d.handler.user, d.handler.command)
  {
    hide ChannelOk, TimerOk, SpawnsAreAuthorized, ResponsesOk, TimersOk, ChannelsOk;
  }

  lemma StartDecision(states: seq<Daemon>, labels: seq<Label>, m: nat, entry: Log)
    requires DecidesAt(states, labels, m, entry) && entry.LAuthorize?
    ensures labels[m].Receive? && labels[m].request.body == StartSession(entry.command)
  {
    hide Utf8.DecodeReplace;
  }

  /** The three steps of a launch: announce it, spawn it and publish the state, ask the greeter to re-exec. */
  lemma LaunchInOrder(d: Daemon)
    requires Wired(d) && d.handler.Launching? && d.handler.step == 0
    ensures var e := Step(d, LaunchContinues);
            && Wired(e) && Enabled(e, LaunchContinues)
            && var f := Step(e, LaunchContinues);
               && Wired(f) && Enabled(f, LaunchContinues)
               && var g := Step(f, LaunchContinues);
                  && g.handler == Idle && e.log == d.log
                  && f.log == g.log == d.log + [LSpawn(d.handler.user, d.handler.command)]
                  && g.out == d.out + [Sent(Notice(SessionStarting), d.open), Sent(Notice(StateChanged), d.open), Sent(Notice(ReExec), d.open)]
  {
  }

  // ---------- what a request is answered with at once ----------

  /** The request was answered with `reply` in this step. */
  predicate Replied(d: Daemon, e: Daemon, r: Request, reply: Reply) {
    |e.out| == |d.out| + 1 && e.out[..|d.out|] == d.out && e.out[|d.out|].message == Response(r.id, reply)
  }

  predicate TooLong(body: Body) {
    (body.Create? && |body.username| > 256) || (body.Continue? && |body.response| > 256)
  }

  predicate Unready(d: Daemon)
    requires Wired(d)
  {
    d.cur.Some? && !d.sessions[d.cur.value].ready
  }

  /** Which requests are answered at once, and how; the others start something with a worker. */
  lemma AnsweredAtOnce(d: Daemon, r: Request, fits: bool)
    requires Wired(d) && d.handler.Idle?
    ensures var e := Step(d, Receive(r, fits));
            && (Replied(d, e, r, Refused("session_not_found")) <==> (r.body.Continue? || r.body.StartSession?) && d.cur.None?)
            && (Replied(d, e, r, Refused("session_not_ready")) <==> r.body.StartSession? && Unready(d))
            && (Replied(d, e, r, Refused("bad_request")) <==>
                  || (r.body.Create? && TooLong(r.body))
                  || (r.body.Continue? && d.cur.Some? && (!Unready(d) || TooLong(r.body))))
            && (Replied(d, e, r, Done) <==>
                  (r.body.CancelSession? && d.cur.None?) || (r.body.StartSession? && d.cur.Some? && !Unready(d)))
            && (Replied(d, e, r, Info) <==> r.body.Query?)
            && (e.out == d.out <==>
                  || (r.body.Create? && !TooLong(r.body)) || (r.body.Continue? && Unready(d) && !TooLong(r.body))
                  || (r.body.CancelSession? && d.cur.Some?))
  {
    hide OnRequest;
    CodesDiffer();
    match r.body
    case Create(_) => CreateAtOnce(d, r, fits);
    case Continue(_, _) => ContinueAtOnce(d, r, fits);
    case CancelSession => CancelAtOnce(d, r, fits);
    case StartSession(_) => StartAtOnce(d, r, fits);
    case Query => QueryAtOnce(d, r, fits);
  }

  predicate Says(d: Daemon, e: Daemon, r: Request, reply: Reply) {
    e.out == d.out + [Sent(Response(r.id, reply), d.open)]
  }

  lemma QueryAtOnce(d: Daemon, r: Request, fits: bool)
    requires Wired(d) && d.handler.Idle? && r.body.Query?
    ensures OnRequest(d, r, fits).out == d.out + [Sent(Response(r.id, Info), d.open && fits)]
  {
  }

  lemma CreateAtOnce(d: Daemon, r: Request, fits: bool)
    requires Wired(d) && d.handler.Idle? && r.body.Create?
    ensures var e := OnRequest(d, r, fits);
            if TooLong(r.body) then Says(d, e, r, Refused("bad_request")) else e.out == d.out
  {
    hide StopSession, Utf8.DecodeReplace;
    var user := Utf8.DecodeReplace(r.body.username);
    StopSaysNothing(Note(d.(requests := d.requests + [r.id]), LAccept(user, r.id)), true, ThenCreate(r.id, user));
  }

  lemma StopSaysNothing(d: Daemon, sendCancel: bool, after: After)
    requires Wired(d) && (d.cur.None? ==> after.ThenCreate? || after.ThenExit?)
    ensures StopSession(d, sendCancel, after).out == d.out
  {
    hide CancelTimeout;
    CancelSpares(d);
  }

  lemma CancelSpares(d: Daemon)
    requires Wired(d)
    ensures CancelTimeout(d) == d.(timers := CancelTimeout(d).timers, authTimer := None) && Wired(CancelTimeout(d))
  {
  }

  lemma ContinueAtOnce(d: Daemon, r: Request, fits: bool)
    requires Wired(d) && d.handler.Idle? && r.body.Continue?
    ensures var e := OnRequest(d, r, fits);
            if d.cur.None? then Says(d, e, r, Refused("session_not_found"))
            else if !Unready(d) || TooLong(r.body) then Says(d, e, r, Refused("bad_request"))
            else e.out == d.out
  {
  }

  lemma CancelAtOnce(d: Daemon, r: Request, fits: bool)
    requires Wired(d) && d.handler.Idle? && r.body.CancelSession?
    ensures var e := OnRequest(d, r, fits);
            if d.cur.None? then Says(d, e, r, Done) else e.out == d.out
  {
    hide CancelTimeout;
    CancelSpares(Note(d.(requests := d.requests + [r.id]), LCancel));
  }

  lemma StartAtOnce(d: Daemon, r: Request, fits: bool)
    requires Wired(d) && d.handler.Idle? && r.body.StartSession?
    ensures var e := OnRequest(d, r, fits);
            if d.cur.None? then Says(d, e, r, Refused("session_not_found"))
            else if Unready(d) then Says(d, e, r, Refused("session_not_ready"))
            else Says(d, e, r, Done)
  {
    hide CancelTimeout;
    CancelSpares(d.(requests := d.requests + [r.id]));
  }

  lemma CodesDiffer()
    ensures "session_not_found" != "session_not_ready" && "bad_request" != "session_not_found" && "bad_request" != "session_not_ready"
  {
    assert "session_not_found"[12] != "session_not_ready"[12];
  }
}
