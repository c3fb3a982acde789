/** Results about every run of one client's authentication state, under every interleaving of its tasks. */
module AuthTheorems {
  import opened Wrappers
  import opened AuthMachine
  import opened AuthInvariants
  import opened SizeBounds
  import Utf8

  lemma InitInv(timeout: int)
    ensures Inv(Init(timeout))
  {
  }

  lemma StepKeeps(d: Daemon, l: Label)
    requires Inv(d) && Wired(d) && Enabled(d, l)
    ensures Inv(Step(d, l))
  {
    hide Inv, OnRequest, Exit, OnSpawned, OnWorker, OnStop, OnArm, OnLaunch, OnTimer, OnSweep, Send;
    match l
    case Receive(r, fits) => RequestKeeps(d, r, fits);
    case ReceiveEnd => FailureKeeps(d);
    case WorkerSpawned => SpawnedKeeps(d);
    case WorkerSays(m, fits) => WorkerKeeps(d, m, fits);
    case WorkerFails => FailureKeeps(d);
    case StopContinues => StopStepKeeps(d);
    case Arm => ArmKeeps(d);
    case LaunchContinues => LaunchKeeps(d);
    case TimerRuns(t) => TimerKeeps(d, t);
    case SweepRuns => SweepKeeps(d);
    case WriterCloses => ShutKeeps(d, d.sweep);
    case Broadcast(e) => BroadcastKeeps(d, e);
  }

  lemma {:induction false} RunKeeps(timeout: int, states: seq<Daemon>, labels: seq<Label>, n: nat)
    requires Run(timeout, states, labels) && n < |states|
    ensures Inv(states[n])
  {
    hide Inv, Step, Enabled, Wired;
    if n == 0 {
      InitInv(timeout);
    } else {
      RunKeeps(timeout, states, labels, n - 1);
      assert Steps(states, labels, n - 1);
      StepKeeps(states[n - 1], labels[n - 1]);
    }
  }

  // ---------- one-shot authorization ----------

  function ReadyReports(log: seq<Log>, user: string): nat {
    if log == [] then 0
    else ReadyReports(log[..|log| - 1], user) + (if log[|log| - 1] == LReady(user) then 1 else 0)
  }

  function Spawns(log: seq<Log>, user: string): nat {
    if log == [] then 0
    else
      var last := log[|log| - 1];
      Spawns(log[..|log| - 1], user) + (if last.LSpawn? && last.user == user then 1 else 0)
  }

  lemma {:induction false} SpawnsAreCovered(log: seq<Log>, user: string)
    requires SpawnsAreAuthorized(log)
    ensures Spawns(log, user) <= ReadyReports(log, user)
    decreases |log|
  {
    if log != [] {
      var n := |log| - 1;
      PrefixAuthorized(log, n);
      CountLast(log, |log|, user);
      if log[n].LSpawn? {
        hide SpawnsAreAuthorized, Spawns, ReadyReports;
        SpawnPredecessors(log, n);
        PrefixAuthorized(log, n - 3);
        SpawnsAreCovered(log[..n - 3], user);
        LaunchCounts(log, n, user);
      } else {
        SpawnsAreCovered(log[..n], user);
      }
    }
  }

  lemma CountLast(log: seq<Log>, n: nat, user: string)
    requires 1 <= n <= |log|
    ensures Spawns(log[..n], user) == Spawns(log[..n - 1], user) + (if log[n - 1].LSpawn? && log[n - 1].user == user then 1 else 0)
    ensures ReadyReports(log[..n], user) == ReadyReports(log[..n - 1], user) + (if log[n - 1] == LReady(user) then 1 else 0)
    ensures log[..|log|] == log
  {
    assert log[..n][..n - 1] == log[..n - 1];
    assert log[..|log|] == log;
  }

  /** The four entries that end in a spawn hold one ready report for its user. */
  lemma LaunchCounts(log: seq<Log>, k: nat, user: string)
    requires k == |log| - 1 >= 3 && log[k].LSpawn? && log[k - 1].LAuthorize?
    requires log[k - 2] == LReady(log[k].user) && log[k - 3].LAccept?
    ensures Spawns(log, user) - Spawns(log[..k - 3], user) <= ReadyReports(log, user) - ReadyReports(log[..k - 3], user)
  {
    hide Spawns, ReadyReports;
    CountLast(log, |log|, user);
    CountLast(log, k, user);
    CountLast(log, k - 1, user);
    CountLast(log, k - 2, user);
  }

  lemma SpawnPredecessors(log: seq<Log>, k: nat)
    requires SpawnsAreAuthorized(log) && k < |log| && log[k].LSpawn?
    ensures k >= 3 && log[k - 1] == LAuthorize(log[k].user, log[k].command)
    ensures log[k - 2] == LReady(log[k].user) && log[k - 3].LAccept? && log[k - 3].user == log[k].user
  {
    assert Authorized(log[..k], log[k].user, log[k].command);
    assert log[..k][k - 1] == log[k - 1] && log[..k][k - 2] == log[k - 2] && log[..k][k - 3] == log[k - 3];
  }

  lemma PrefixAuthorized(log: seq<Log>, n: int)
    requires SpawnsAreAuthorized(log)
    ensures 0 <= n <= |log| ==> SpawnsAreAuthorized(log[..n])
  {
    if 0 <= n <= |log| {
      forall k | 0 <= k < n && log[..n][k].LSpawn?
        ensures Authorized(log[..n][..k], log[..n][k].user, log[..n][k].command)
      {
        assert log[..n][..k] == log[..k];
      }
    }
  }

  /**
   * One-shot authorization over whole runs. Every spawn directly follows an authorization for that user
   * and command, which directly follows that user's ready report, which directly follows the acceptance
   * of a create-session for that user; and a user is given at most one session per ready report.
   */
  lemma OneShotAuthorization(timeout: int, states: seq<Daemon>, labels: seq<Label>, n: nat)
    requires Run(timeout, states, labels) && n < |states|
    ensures var log := states[n].log;
            && (forall k | 0 <= k < |log| && log[k].LSpawn? ::
                  k >= 3
                  && log[k - 1] == LAuthorize(log[k].user, log[k].command)
                  && log[k - 2] == LReady(log[k].user)
                  && log[k - 3].LAccept? && log[k - 3].user == log[k].user)
            && (forall user :: Spawns(log, user) <= ReadyReports(log, user))
  {
    hide Run;
    var log := states[n].log;
    RunKeeps(timeout, states, labels, n);
    forall k | 0 <= k < |log| && log[k].LSpawn?
      ensures k >= 3 && log[k - 1] == LAuthorize(log[k].user, log[k].command)
      ensures log[k - 2] == LReady(log[k].user) && log[k - 3].LAccept? && log[k - 3].user == log[k].user
    {
      SpawnPredecessors(log, k);
    }
    forall user
      ensures Spawns(log, user) <= ReadyReports(log, user)
    {
      SpawnsAreCovered(log, user);
    }
  }

  // ---------- timers ----------

  /** The task has decided to expire its session and is inside `expire`. */
  predicate Expiring(timer: Timer) {
    timer.stage.TCancelSent? || timer.stage.TClosing?
  }

  /** The step of a timeout task announces something to the client. */
  predicate Announces(d: Daemon, e: Daemon) {
    |e.out| > |d.out|
  }

  /**
   * From `d` to `e` the timeout task `t` touched no session but its own, and that only while the
   * session was not ready and still the client's current one, unless shutdown took it away in the
   * middle of the expiry; what it cleared is its own session and its own registration; it left the
   * handler and all other tasks alone.
   */
  predicate Isolated(d: Daemon, e: Daemon, t: TimerId)
    requires Wired(d) && t < |d.timers|
  {
    var s := d.timers[t].session;
    && |e.sessions| == |d.sessions| && |e.timers| == |d.timers|
    && (forall x | 0 <= x < |d.sessions| && x != s :: e.sessions[x] == d.sessions[x])
    && (forall u | 0 <= u < |d.timers| && u != t :: e.timers[u] == d.timers[u])
    && e.handler == d.handler && e.requests == d.requests && e.sweep == d.sweep
    && (e.cur == d.cur || (d.cur == Some(s) && e.cur.None?))
    && (e.authTimer == d.authTimer || (d.authTimer == Some(t) && e.authTimer.None?))
    && (e.sessions[s] != d.sessions[s] || e.cur != d.cur || Announces(d, e) ==>
          && d.authTimer == Some(t) && !d.sessions[s].ready
          && (d.cur == Some(s) || (!d.sweep.NotStarted? && Expiring(d.timers[t]))))
  }

  lemma TimerStepIsolated(d: Daemon, t: TimerId)
    requires Inv(d) && t < |d.timers|
    ensures Wired(d) && Isolated(d, OnTimer(d, t), t)
  {
    hide Inv, TimerOk, OnTimer, Isolated;
    InvTimers(d, t);
    ArmedUnready(d, t);
    if !d.timers[t].Armed() || d.timers[t].stage in {TNew, TBeforeWarning} {
      WaitingIsIsolated(d, t);
    } else if d.timers[t].stage.TClosing? {
      EndingIsIsolated(d, t);
    } else {
      StoppingIsIsolated(d, t);
    }
  }

  lemma WaitingIsIsolated(d: Daemon, t: TimerId)
    requires Wired(d) && t < |d.timers|
    requires d.timers[t].Armed() ==>
               d.timers[t].stage in {TNew, TBeforeWarning} && d.authTimer == Some(t) && !d.sessions[d.timers[t].session].ready
    ensures Isolated(d, OnTimer(d, t), t)
  {
  }

  lemma StoppingIsIsolated(d: Daemon, t: TimerId)
    requires Wired(d) && t < |d.timers|
    requires d.timers[t].Armed() && d.timers[t].stage in {TAfterWarning, TCancelSent} && d.authTimer == Some(t)
    requires !d.sessions[d.timers[t].session].ready
    requires d.sweep.NotStarted? && d.timers[t].stage.TCancelSent? ==> d.cur == Some(d.timers[t].session)
    ensures Isolated(d, OnTimer(d, t), t)
  {
  }

  lemma EndingIsIsolated(d: Daemon, t: TimerId)
    requires Wired(d) && t < |d.timers|
    requires d.timers[t].Armed() && d.timers[t].stage.TClosing? && d.authTimer == Some(t)
    requires !d.sessions[d.timers[t].session].ready
    requires d.sweep.NotStarted? ==> d.cur == Some(d.timers[t].session)
    ensures Isolated(d, OnTimer(d, t), t)
  {
  }

  lemma ArmedUnready(d: Daemon, t: TimerId)
    requires Inv(d) && t < |d.timers|
    ensures Wired(d) && (d.timers[t].Armed() ==> !d.sessions[d.timers[t].session].ready)
  {
    hide SpawnsAreAuthorized, ChannelOk, LogOk, ResponsesOk, Outstanding, TimerOk, CurOk;
  }

  /** In every run, every step of every timeout task is isolated. */
  lemma TimerIsolation(timeout: int, states: seq<Daemon>, labels: seq<Label>, n: nat, t: TimerId)
    requires Run(timeout, states, labels) && n < |labels| && labels[n] == TimerRuns(t)
    ensures Wired(states[n]) && t < |states[n].timers| && Isolated(states[n], states[n + 1], t)
  {
    hide Inv, Isolated, OnTimer;
    RunKeeps(timeout, states, labels, n);
    assert Steps(states, labels, n);
    TimerStepIsolated(states[n], t);
  }

  /** Only the task itself begins an expiry, and only on its client's current, unready session. */
  lemma ExpiryBegins(d: Daemon, l: Label, t: TimerId)
    requires Wired(d) && Enabled(d, l) && t < |Step(d, l).timers| && Expiring(Step(d, l).timers[t])
    ensures t < |d.timers| && d.timers[t].session == Step(d, l).timers[t].session
    ensures Expiring(d.timers[t]) || (l == TimerRuns(t) && IsCurrent(d, d.timers[t].session))
  {
    hide StopSession, CancelTimeout, Utf8.DecodeReplace, OnTimer, OnRequest, OnWorker;
    match l
    case Receive(r, fits) => RequestTimers(d, r, fits);
    case WorkerSays(m, fits) => WorkerTimers(d, m, fits);
    case TimerRuns(u) => TimerTimers(d, u);
    case _ =>
      CancelTimers(d);
      StopTimers(Note(d, LExit), true, ThenExit);
  }

  /** No task moved between `d` and `e`; some may have been cancelled. */
  predicate SameStages(d: Daemon, e: Daemon) {
    && |e.timers| == |d.timers|
    && forall t | 0 <= t < |d.timers| :: e.timers[t].session == d.timers[t].session && e.timers[t].stage == d.timers[t].stage
  }

  lemma CancelTimers(d: Daemon)
    requires Wired(d)
    ensures var c := CancelTimeout(d);
            c == d.(timers := c.timers, authTimer := c.authTimer) && Wired(c) && SameStages(d, c)
  {
  }

  lemma StopTimers(d: Daemon, sendCancel: bool, after: After)
    requires Wired(d)
    ensures SameStages(d, StopSession(d, sendCancel, after))
  {
    hide CancelTimeout;
    CancelTimers(d);
  }

  lemma RequestTimers(d: Daemon, r: Request, fits: bool)
    requires Wired(d) && d.handler.Idle?
    ensures SameStages(d, OnRequest(d, r, fits))
  {
    hide StopSession, CancelTimeout, Utf8.DecodeReplace;
    var n := d.(requests := d.requests + [r.id]);
    CancelTimers(n);
    StopTimers(Note(n, LCancel), true, ThenAccept(r.id));
    if r.body.Create? {
      var user := Utf8.DecodeReplace(r.body.username);
      StopTimers(Note(n, LAccept(user, r.id)), true, ThenCreate(r.id, user));
    }
  }

  lemma WorkerTimers(d: Daemon, m: FromWorker, fits: bool)
    requires Wired(d) && Awaited(d.handler).Some?
    ensures SameStages(d, OnWorker(d, m, fits))
  {
    hide StopSession, CancelTimeout;
    var n := Heard(d, m);
    CancelTimers(n);
    StopTimers(n, false, ThenRefuse(d.handler.id, if m.HasFailed? then m.code else "auth_failed", m.HasFailed? ==> fits));
    StopTimers(Note(n, LExit), true, ThenExit);
  }

  lemma TimerTimers(d: Daemon, u: TimerId)
    requires Wired(d) && u < |d.timers|
    ensures var e := OnTimer(d, u);
            && |e.timers| == |d.timers|
            && (forall t | 0 <= t < |d.timers| && t != u :: e.timers[t] == d.timers[t])
            && e.timers[u].session == d.timers[u].session
            && (Expiring(e.timers[u]) ==> Expiring(d.timers[u]) || IsCurrent(d, d.timers[u].session))
  {
    hide OnTimer, IsCurrent;
    if !d.timers[u].Armed() || d.timers[u].stage in {TNew, TBeforeWarning} {
      EarlyTimers(d, u);
    } else {
      LateTimers(d, u);
    }
  }

  lemma EarlyTimers(d: Daemon, u: TimerId)
    requires Wired(d) && u < |d.timers| && (!d.timers[u].Armed() || d.timers[u].stage in {TNew, TBeforeWarning})
    ensures var e := OnTimer(d, u);
            && e.timers == d.timers[u := e.timers[u]] && e.timers[u].session == d.timers[u].session
            && (Expiring(e.timers[u]) ==> Expiring(d.timers[u]))
  {
    hide WarningDelay;
  }

  lemma LateTimers(d: Daemon, u: TimerId)
    requires Wired(d) && u < |d.timers| && d.timers[u].Armed() && d.timers[u].stage !in {TNew, TBeforeWarning}
    ensures var e := OnTimer(d, u);
            && e.timers == d.timers[u := e.timers[u]] && e.timers[u].session == d.timers[u].session
            && (Expiring(e.timers[u]) ==> Expiring(d.timers[u]) || IsCurrent(d, d.timers[u].session))
  {
    hide WarningDelay;
  }

  /** Every expiry in progress was decided on while its session was current and not ready. */
  lemma {:induction false} ExpiriesAreDecided(timeout: int, states: seq<Daemon>, labels: seq<Label>, n: nat, t: TimerId)
    returns (m: nat)
    requires Run(timeout, states, labels) && n < |states| && t < |states[n].timers| && Expiring(states[n].timers[t])
    ensures m < n && labels[m] == TimerRuns(t) && Wired(states[m]) && t < |states[m].timers|
    ensures states[m].timers[t].session == states[n].timers[t].session
    ensures IsCurrent(states[m], states[m].timers[t].session)
  {
    hide Step, Enabled, Wired, IsCurrent, Expiring;
    if n == 0 {
      assert false;
    } else {
      assert Steps(states, labels, n - 1);
      ExpiryBegins(states[n - 1], labels[n - 1], t);
      if Expiring(states[n - 1].timers[t]) {
        m := ExpiriesAreDecided(timeout, states, labels, n - 1, t);
      } else {
        m := n - 1;
      }
    }
  }

  /** At most one timeout task of a client can still act, and it is the registered one. */
  lemma AtMostOneArmedTimer(timeout: int, states: seq<Daemon>, labels: seq<Label>, n: nat, t: TimerId, u: TimerId)
    requires Run(timeout, states, labels) && n < |states|
    requires t < |states[n].timers| && u < |states[n].timers|
    requires states[n].timers[t].Armed() && states[n].timers[u].Armed()
    ensures t == u && states[n].authTimer == Some(t)
  {
    hide Run, SpawnsAreAuthorized, ChannelOk, LogOk, ResponsesOk, Outstanding, TimerOk, CurOk;
    RunKeeps(timeout, states, labels, n);
  }

  /** A third of the timeout, rounded down, but at least one second. */
  predicate LastThird(left: int, timeout: int) {
    (left >= 1 && 3 * left <= timeout < 3 * (left + 1)) || (left == 1 && timeout < 3)
  }

  lemma WarningIsLastThird(timeout: int)
    requires timeout > 0
    ensures LastThird(WarningTime(timeout), timeout)
    ensures WarningDelay(timeout) > 0 <==> timeout >= 2
  {
  }

  /** What the step of a timeout task from `d` to `e` may announce, and when it acts. */
  predicate OnSchedule(d: Daemon, e: Daemon, t: TimerId)
    requires Wired(d) && t < |d.timers| && t < |e.timers|
  {
    var s := d.timers[t].session;
    && e.timers[t].warnings <= 1
    && d.timeout > 0
    && (Announces(d, e) ==>
          || (e.out == d.out + [Sent(Notice(AuthWarning(s)), d.open)]
              && e.timers[t].warnings == 1
              && LastThird(d.timeout - e.timers[t].slept, d.timeout))
          || (e.out == d.out + [Sent(Notice(AuthExpired(s)), d.open)]
              && e.timers[t].slept == d.timeout))
    && (d.timers[t].stage.TAfterWarning? && IsCurrent(d, s) && !d.timers[t].cancelled ==>
          e.timers[t].slept == d.timeout)
  }

  /**
   * A task warns at most once, and then a third of the timeout is left, rounded down but at least one
   * second; it stops and expires its session after having slept exactly the configured timeout.
   */
  lemma TimerSchedule(timeout: int, states: seq<Daemon>, labels: seq<Label>, n: nat, t: TimerId)
    requires Run(timeout, states, labels) && n < |labels| && labels[n] == TimerRuns(t)
    ensures Wired(states[n]) && t < |states[n].timers| && t < |states[n + 1].timers|
    ensures OnSchedule(states[n], states[n + 1], t)
  {
    hide Inv, OnSchedule, OnTimer, Wired, TimerOk;
    RunKeeps(timeout, states, labels, n);
    assert Steps(states, labels, n);
    InvTimers(states[n], t);
    ScheduledStep(states[n], t);
  }

  lemma ScheduledStep(d: Daemon, t: TimerId)
    requires Wired(d) && t < |d.timers| && TimerOk(d.timers[t], d.timeout)
    ensures t < |OnTimer(d, t).timers| && OnSchedule(d, OnTimer(d, t), t)
  {
    if !d.timers[t].Armed() || d.timers[t].stage in {TNew, TBeforeWarning} {
      WarningScheduled(d, t);
    } else {
      ExpiryScheduled(d, t);
    }
  }

  lemma WarningScheduled(d: Daemon, t: TimerId)
    requires Wired(d) && t < |d.timers| && TimerOk(d.timers[t], d.timeout)
    requires !d.timers[t].Armed() || d.timers[t].stage in {TNew, TBeforeWarning}
    ensures t < |OnTimer(d, t).timers| && OnSchedule(d, OnTimer(d, t), t)
  {
    hide LastThird, WarningTime;
    WarningIsLastThird(d.timeout);
  }

  lemma ExpiryScheduled(d: Daemon, t: TimerId)
    requires Wired(d) && t < |d.timers| && TimerOk(d.timers[t], d.timeout)
    requires d.timers[t].Armed() && d.timers[t].stage !in {TNew, TBeforeWarning}
    ensures t < |OnTimer(d, t).timers| && OnSchedule(d, OnTimer(d, t), t)
  {
    hide LastThird, WarningDelay;
  }

  /** A task that has begun to expire its session has warned before, exactly if the timeout is at least two seconds. */
  lemma WarnsBeforeExpiry(timeout: int, states: seq<Daemon>, labels: seq<Label>, n: nat, t: TimerId)
    requires Run(timeout, states, labels) && n < |states| && t < |states[n].timers| && Expiring(states[n].timers[t])
    ensures states[n].timers[t].warnings == if states[n].timeout >= 2 then 1 else 0
  {
    hide Run, Inv, WarningDelay;
    RunKeeps(timeout, states, labels, n);
    InvTimers(states[n], t);
    WarningIsLastThird(states[n].timeout);
  }

  // ---------- requests and responses ----------

  /**
   * Responses carry the ids of the requests, in their order, each at most once. At most the newest
   * request is unanswered: while the handler still works on it, or for good if an exception ended it.
   */
  lemma ResponsesFollowRequests(timeout: int, states: seq<Daemon>, labels: seq<Label>, n: nat)
    requires Run(timeout, states, labels) && n < |states|
    ensures var d := states[n];
            var answered := Responded(d.out);
            && answered <= d.requests && |d.requests| <= |answered| + 1
            && (|d.requests| > |answered| ==> Owed(d.handler).Some? || Exiting(d.handler))
            && (Owed(d.handler).Some? ==> d.requests == answered + [Owed(d.handler).value])
  {
    hide Run, SpawnsAreAuthorized, ChannelOk, LogOk, TimersOk, TimerOk, Outstanding, CurOk, Responded;
    RunKeeps(timeout, states, labels, n);
  }

  /** Every request read so far has been answered, or is being worked on. */
  predicate Orderly(d: Daemon) {
    Owed(d.handler).None? ==> d.requests == Responded(d.out)
  }

  /** An exception while a worker is started, written to or read from, or an unexpected message of its. */
  predicate Breaks(l: Label) {
    l.WorkerFails? || (l.WorkerSays? && l.message.Unexpected?)
  }

  lemma OrderlyStep(d: Daemon, l: Label)
    requires Inv(d) && Wired(d) && Enabled(d, l) && Orderly(d)
    requires !Breaks(l)
    ensures Orderly(Step(d, l))
  {
    hide Inv, OnRequest, OnSpawned, OnWorker, OnStop, OnArm, OnLaunch, OnTimer, OnSweep, Send, StopSession, Responded;
    StepKeeps(d, l);
    InvResponses(Step(d, l));
    if l.ReceiveEnd? {
      ExitKeepsHistory(d);
    } else if l.StopContinues? {
      StopKeepsHistory(d);
    } else if Exiting(Step(d, l).handler) {
      OnlyExits(d, l);
    }
  }

  lemma InvResponses(d: Daemon)
    requires Inv(d)
    ensures ResponsesOk(d)
  {
  }

  lemma ExitKeepsHistory(d: Daemon)
    requires Wired(d)
    ensures Exit(d).requests == d.requests && Exit(d).out == d.out
  {
  }

  lemma StopKeepsHistory(d: Daemon)
    requires Wired(d) && d.handler.Stopping?
    ensures Exiting(OnStop(d).handler) ==> Exiting(d.handler) && OnStop(d).requests == d.requests && OnStop(d).out == d.out
  {
  }

  lemma RequestsDoNotExit(d: Daemon, r: Request, fits: bool)
    requires Wired(d) && d.handler.Idle?
    ensures !Exiting(OnRequest(d, r, fits).handler)
  {
    hide Utf8.DecodeReplace, CancelTimeout;
    if d.authTimer.Some? {
      CancelKeepsPlace(d.(requests := d.requests + [r.id]));
    }
  }

  lemma CancelKeepsPlace(d: Daemon)
    requires Wired(d)
    ensures var c := CancelTimeout(d);
            c == d.(timers := c.timers, authTimer := c.authTimer)
  {
  }

  lemma RepliesDoNotExit(d: Daemon, m: FromWorker, fits: bool)
    requires Wired(d) && Awaited(d.handler).Some? && !m.Unexpected?
    ensures !Exiting(OnWorker(d, m, fits).handler)
  {
  }

  lemma TimersOnlyNotify(d: Daemon, t: TimerId)
    requires Wired(d) && t < |d.timers|
    ensures var e := OnTimer(d, t);
            e.handler == d.handler && e.requests == d.requests && Responded(e.out) == Responded(d.out)
  {
    hide Responded;
    OutAppend(d.out, Sent(Notice(AuthWarning(d.timers[t].session)), d.open));
    OutAppend(d.out, Sent(Notice(AuthExpired(d.timers[t].session)), d.open));
  }

  /** Other steps end the handler only where it is already ending, and add nothing but notices then. */
  lemma OnlyExits(d: Daemon, l: Label)
    requires Wired(d) && Enabled(d, l) && Exiting(Step(d, l).handler)
    requires !l.WorkerFails? && !l.ReceiveEnd? && !l.StopContinues? && !(l.WorkerSays? && l.message.Unexpected?)
    ensures Exiting(d.handler) && Step(d, l).requests == d.requests && Responded(Step(d, l).out) == Responded(d.out)
  {
    hide Responded, OnRequest, OnWorker, OnTimer;
    match l
    case Receive(r, fits) => RequestsDoNotExit(d, r, fits);
    case WorkerSays(m, fits) => RepliesDoNotExit(d, m, fits);
    case TimerRuns(t) => TimersOnlyNotify(d, t);
    case Broadcast(e) => OutAppend(d.out, Sent(Notice(e), d.open));
    case _ =>
  }

  /** An exception leaves the request being worked on without an answer. */
  lemma BreakCuts(d: Daemon, l: Label)
    requires Inv(d) && Wired(d) && Enabled(d, l) && Breaks(l)
    ensures var e := Step(d, l);
            Owed(d.handler).Some? && Exiting(e.handler) && e.requests == Responded(e.out) + [Owed(d.handler).value]
  {
    hide Inv, Exit, Responded;
    InvResponses(d);
    ExitKeepsHistory(d);
    ExitExits(d);
    if l.WorkerSays? {
      var n := Heard(d, l.message);
      ExitKeepsHistory(n);
      ExitExits(n);
    }
  }

  lemma ExitExits(d: Daemon)
    requires Wired(d)
    ensures Exiting(Exit(d).handler)
  {
  }

  /** An ending handler keeps ending, and answers nothing any more. */
  lemma ExitingStays(d: Daemon, l: Label)
    requires Wired(d) && Enabled(d, l) && Exiting(d.handler)
    ensures var e := Step(d, l);
            Exiting(e.handler) && e.requests == d.requests && Responded(e.out) == Responded(d.out)
  {
    hide Responded, OnRequest, OnWorker, OnTimer, CancelTimeout;
    CancelKeepsPlace(d);
    match l
    case TimerRuns(t) => TimersOnlyNotify(d, t);
    case Broadcast(e) => OutAppend(d.out, Sent(Notice(e), d.open));
    case SweepRuns => SweepKeepsPlace(d);
    case _ =>
  }

  lemma SweepKeepsPlace(d: Daemon)
    requires Wired(d)
    ensures OnSweep(d).handler == d.handler && OnSweep(d).requests == d.requests && OnSweep(d).out == d.out
  {
    hide CancelTimeout;
    CancelKeepsPlace(d);
  }

  /**
   * Every request is answered exactly once, in order, except the one being worked on, in exactly those
   * runs in which no exception happens while the daemon deals with a worker.
   */
  lemma {:induction false} EveryRequestAnswered(timeout: int, states: seq<Daemon>, labels: seq<Label>, n: nat)
    requires Run(timeout, states, labels) && n < |states|
    ensures Orderly(states[n]) <==> forall m | 0 <= m < n :: !Breaks(labels[m])
  {
    hide Inv, Step, Enabled, Wired, Breaks, Responded;
    if n == 0 {
      InitOrderly(timeout);
    } else {
      EveryRequestAnswered(timeout, states, labels, n - 1);
      RunKeeps(timeout, states, labels, n - 1);
      assert Steps(states, labels, n - 1);
      var d, l := states[n - 1], labels[n - 1];
      if Breaks(l) {
        BreakCuts(d, l);
      } else if Orderly(d) {
        OrderlyStep(d, l);
      } else {
        InvResponses(d);
        ExitingStays(d, l);
      }
    }
  }

  lemma InitOrderly(timeout: int)
    ensures Orderly(Init(timeout))
  {
  }

  /** The request that an exception met is never answered, whatever happens later. */
  lemma {:induction false} UnansweredForGood(timeout: int, states: seq<Daemon>, labels: seq<Label>, m: nat, n: nat)
    requires Run(timeout, states, labels) && m < n < |states| && Breaks(labels[m])
    ensures var owed := Owed(states[m].handler);
            && owed.Some? && Exiting(states[n].handler)
            && states[n].requests == Responded(states[n].out) + [owed.value]
    decreases n
  {
    hide Inv, Step, Enabled, Wired, Breaks, Responded;
    assert Steps(states, labels, n - 1);
    if m == n - 1 {
      RunKeeps(timeout, states, labels, m);
      BreakCuts(states[m], labels[m]);
    } else {
      UnansweredForGood(timeout, states, labels, m, n - 1);
      ExitingStays(states[n - 1], labels[n - 1]);
    }
  }

  /** The daemon's own fault: a reply is taken while the current session's channel is closed already. */
  predicate MeetsClosedChannel(d: Daemon, l: Label)
    requires Wired(d)
  {
    && l.Receive? && l.request.body.Continue? && d.cur.Some?
    && !d.sessions[d.cur.value].ready && !AuthFieldIsTooLong(l.request.body.response)
    && d.sessions[d.cur.value].closed
  }

  lemma ClosedChannelRaises(d: Daemon, l: Label)
    requires Wired(d) && Enabled(d, l)
    ensures Step(d, l).handler.Raising? <==> MeetsClosedChannel(d, l) || (d.handler.Raising? && !l.WorkerFails?)
  {
    hide StopSession, OnTimer, CancelTimeout, Utf8.DecodeReplace, AuthFieldIsTooLong, Responded, OnWorker, OnRequest;
    match l
    case Receive(r, fits) => RequestRaises(d, r, fits);
    case WorkerSays(m, fits) => WorkerRaisesNot(d, m, fits);
    case TimerRuns(t) => TimersOnlyNotify(d, t);
    case SweepRuns => SweepKeepsPlace(d);
    case _ =>
      CancelKeepsPlace(d);
      StopRaisesNot(Note(d, LExit), true, ThenExit);
  }

  lemma StopRaisesNot(d: Daemon, sendCancel: bool, after: After)
    requires Wired(d)
    ensures !StopSession(d, sendCancel, after).handler.Raising?
  {
    hide CancelTimeout;
    CancelKeepsPlace(d);
  }

  lemma RequestRaises(d: Daemon, r: Request, fits: bool)
    requires Wired(d) && d.handler.Idle?
    ensures OnRequest(d, r, fits).handler.Raising? <==> MeetsClosedChannel(d, Receive(r, fits))
  {
    hide StopSession, CancelTimeout, Utf8.DecodeReplace, AuthFieldIsTooLong;
    var n := d.(requests := d.requests + [r.id]);
    StopRaisesNot(Note(n, LCancel), true, ThenAccept(r.id));
    if r.body.Create? {
      var user := Utf8.DecodeReplace(r.body.username);
      StopRaisesNot(Note(n, LAccept(user, r.id)), true, ThenCreate(r.id, user));
    }
  }

  lemma WorkerRaisesNot(d: Daemon, m: FromWorker, fits: bool)
    requires Wired(d) && Awaited(d.handler).Some?
    ensures !OnWorker(d, m, fits).handler.Raising?
  {
    hide StopSession, CancelTimeout;
    var n := Heard(d, m);
    StopRaisesNot(n, false, ThenRefuse(d.handler.id, if m.HasFailed? then m.code else "auth_failed", m.HasFailed? ==> fits));
    StopRaisesNot(Note(n, LExit), true, ThenExit);
  }

  /** No worker fails of its own: every exception comes from a channel that the daemon closed itself. */
  predicate WorkersBehave(states: seq<Daemon>, labels: seq<Label>) {
    forall m | 0 <= m < |labels| && m < |states| :: Breaks(labels[m]) ==> states[m].handler.Raising?
  }

  /** Some request has been read that is not going to be answered. */
  predicate Unanswerable(d: Daemon) {
    d.handler.Raising? || !Orderly(d)
  }

  /**
   * If all workers behave, a request goes unanswered in exactly those runs in which a reply is taken
   * while the current session's channel is closed: between the close and the end of an expiry or of
   * shutdown's stop.
   */
  lemma {:induction false} AnsweredUnlessClosed(timeout: int, states: seq<Daemon>, labels: seq<Label>, n: nat)
    requires Run(timeout, states, labels) && WorkersBehave(states, labels) && n < |states|
    ensures Unanswerable(states[n]) <==> exists m :: 0 <= m < n && Wired(states[m]) && MeetsClosedChannel(states[m], labels[m])
  {
    hide Inv, Step, Enabled, Wired, Breaks, Responded, MeetsClosedChannel;
    if n == 0 {
      InitOrderly(timeout);
    } else {
      AnsweredUnlessClosed(timeout, states, labels, n - 1);
      RunKeeps(timeout, states, labels, n - 1);
      assert Steps(states, labels, n - 1);
      var d, l := states[n - 1], labels[n - 1];
      ClosedChannelRaises(d, l);
      UnanswerableStep(d, l);
    }
  }

  lemma UnanswerableStep(d: Daemon, l: Label)
    requires Inv(d) && Wired(d) && Enabled(d, l) && (Breaks(l) ==> d.handler.Raising?)
    ensures Unanswerable(Step(d, l)) <==> Unanswerable(d) || MeetsClosedChannel(d, l)
  {
    hide Inv, Step, Enabled, Responded, MeetsClosedChannel;
    ClosedChannelRaises(d, l);
    BreaksAre(l);
    if Breaks(l) {
      BreakCuts(d, l);
    } else if Orderly(d) {
      OrderlyStep(d, l);
    } else {
      InvResponses(d);
      ExitingStays(d, l);
    }
  }

  lemma BreaksAre(l: Label)
    ensures l.WorkerFails? ==> Breaks(l)
  {
  }

  // ---------- prompts and answers ----------

  /**
   * On every worker channel the daemon writes start first, and answers alternate with prompts: it has
   * never forwarded more answers than it received prompts, and never received two prompts in a row.
   */
  lemma PromptsAndAnswersAlternate(timeout: int, states: seq<Daemon>, labels: seq<Label>, n: nat, s: SessionId)
    requires Run(timeout, states, labels) && n < |states| && s < |states[n].sessions|
    ensures var session := states[n].sessions[s];
            && |session.sent| > 0 && session.sent[0] == Start(session.user)
            && |Answers(session.sent)| <= |Prompts(session.received)| <= |Answers(session.sent)| + 1
  {
    hide Run, SpawnsAreAuthorized, LogOk, TimersOk, TimerOk, ResponsesOk, CurOk, Answers, Prompts;
    RunKeeps(timeout, states, labels, n);
    assert ChannelOk(states[n].sessions[s]);
  }

  /** An answer is forwarded only to the current, unready session and only to an outstanding prompt. */
  lemma AnswersMeetAPrompt(timeout: int, states: seq<Daemon>, labels: seq<Label>, n: nat, r: Request, fits: bool, s: SessionId)
    requires Run(timeout, states, labels) && n < |labels| && labels[n] == Receive(r, fits)
    requires s < |states[n].sessions| && s < |states[n + 1].sessions|
    ensures var d := states[n];
            Answers(states[n + 1].sessions[s].sent) != Answers(d.sessions[s].sent) ==>
              && r.body.Continue? && d.cur == Some(s) && !d.sessions[s].ready && Outstanding(d.sessions[s])
              && Answers(states[n + 1].sessions[s].sent) ==
                   Answers(d.sessions[s].sent) + [Answer(r.body.response, r.body.shown, r.id)]
  {
    hide Inv, Outstanding, Answers, OnRequest;
    RunKeeps(timeout, states, labels, n);
    assert Steps(states, labels, n);
    RequestAnswers(states[n], r, fits, s);
  }

  lemma RequestAnswers(d: Daemon, r: Request, fits: bool, s: SessionId)
    requires Inv(d) && d.handler.Idle? && s < |d.sessions|
    ensures Wired(d)
    ensures var e := OnRequest(d, r, fits);
            |e.sessions| == |d.sessions| &&
            (Answers(e.sessions[s].sent) != Answers(d.sessions[s].sent) ==>
               && r.body.Continue? && d.cur == Some(s) && !d.sessions[s].ready && Outstanding(d.sessions[s])
               && Answers(e.sessions[s].sent) == Answers(d.sessions[s].sent) + [Answer(r.body.response, r.body.shown, r.id)])
  {
    hide Inv, Outstanding, Utf8.DecodeReplace, Answers, StopSession, CancelTimeout;
    InvWired(d);
    IdleOutstanding(d);
    var n := d.(requests := d.requests + [r.id]);
    match r.body
    case Create(username) =>
      var user := Utf8.DecodeReplace(username);
      StopAnswers(Note(n, LAccept(user, r.id)), ThenCreate(r.id, user), s);
    case Continue(response, shown) => SentAppend(d.sessions[s].sent, Answer(response, shown, r.id));
    case CancelSession => StopAnswers(Note(n, LCancel), ThenAccept(r.id), s);
    case StartSession(_) => CancelKeepsSessions(n);
    case Query =>
  }

  lemma IdleOutstanding(d: Daemon)
    requires Inv(d)
    ensures d.handler.Idle? && d.cur.Some? && !d.sessions[d.cur.value].ready ==> Outstanding(d.sessions[d.cur.value])
  {
    hide ChannelOk, TimerOk, SpawnsAreAuthorized, LogOk, ResponsesOk, Outstanding, CurOk, TimersOk;
  }

  lemma CancelKeepsSessions(d: Daemon)
    requires Wired(d)
    ensures CancelTimeout(d).sessions == d.sessions && CancelTimeout(d).cur == d.cur
  {
  }

  lemma StopAnswers(d: Daemon, after: After, s: SessionId)
    requires Wired(d) && s < |d.sessions|
    ensures var e := StopSession(d, true, after);
            |e.sessions| == |d.sessions| && Answers(e.sessions[s].sent) == Answers(d.sessions[s].sent)
  {
    hide CancelTimeout, Answers;
    CancelKeepsSessions(d);
    SentAppend(d.sessions[s].sent, Cancel);
  }

  // ---------- shutdown ----------

  /** Nothing of the client's authentication state is left, and nothing reaches the client any more. */
  predicate Quiescent(d: Daemon) {
    && d.sweep.Joined? && d.handler.Gone? && d.cur.None? && !d.open
    && NoneArmed(d)
  }

  /** Once shutdown has joined the handler, the client is quiescent, whatever was in progress before. */
  lemma JoinedIsQuiescent(timeout: int, states: seq<Daemon>, labels: seq<Label>, n: nat)
    requires Run(timeout, states, labels) && n < |states| && states[n].sweep.Joined?
    ensures Quiescent(states[n])
  {
    hide Run, SpawnsAreAuthorized, LogOk, TimerOk, ResponsesOk, ChannelOk, Outstanding;
    RunKeeps(timeout, states, labels, n);
  }

  /** A quiescent client stays so: no session is authorized, spawned, stopped or created any more. */
  lemma QuiescenceIsStable(d: Daemon, l: Label)
    requires Wired(d) && Enabled(d, l) && Quiescent(d)
    ensures Quiescent(Step(d, l)) && Step(d, l).log == d.log && Step(d, l).sessions == d.sessions
    ensures Step(d, l).requests == d.requests
  {
    hide Utf8.DecodeReplace;
  }
}
