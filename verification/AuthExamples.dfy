/** Runs of one client's authentication that show where its properties need their conditions. */
module AuthExamples {
  import opened Wrappers
  import opened AuthMachine
  import opened SizeBounds
  import AuthInvariants
  import AuthTheorems
  import AuthWorkers
  import AuthOrphans
  import Utf8

  // ---------- runs, step by step ----------

  predicate Leads(d: Daemon, l: Label, e: Daemon) {
    Wired(d) && Enabled(d, l) && Step(d, l) == e
  }

  /** The states follow each other by the labels. */
  lemma IsRun(timeout: int, states: seq<Daemon>, labels: seq<Label>)
    requires |states| == |labels| + 1 && states[0] == Init(timeout)
    requires forall n | 0 <= n < |labels| :: Leads(states[n], labels[n], states[n + 1])
    ensures Run(timeout, states, labels)
  {
    hide Wired, Enabled, Step;
    forall n {:trigger Steps(states, labels, n)} | 0 <= n < |labels|
      ensures Steps(states, labels, n)
    {
      assert Leads(states[n], labels[n], states[n + 1]);
    }
  }

  /** What a client and its workers say in a run; the texts do not matter. */
  datatype Case = Case(username: Bytes, other: Bytes, reply: Bytes, prompt: Prompt, command: string) {
    predicate Ok() {
      !AuthFieldIsTooLong(username) && !AuthFieldIsTooLong(other) && !AuthFieldIsTooLong(reply)
    }

    function User(): string {
      Utf8.DecodeReplace(username)
    }

    function Other(): string {
      Utf8.DecodeReplace(other)
    }

    /** After create-session was read, and after its worker is up. */
    function Spawn(timeout: int): Daemon {
      Init(timeout).(requests := [0], log := [LAccept(User(), 0)], handler := Spawning(0, User()))
    }

    function Channel(): Session {
      Session(User(), 0, false, false, [Start(User())], [], [])
    }

    function First(timeout: int): Daemon {
      Spawn(timeout).(sessions := [Channel()], handler := FirstMessage(0, 0))
    }
  }

  lemma Spawns(x: Case, timeout: int)
    requires x.Ok()
    ensures Leads(Init(timeout), Receive(Request(0, Create(x.username)), true), x.Spawn(timeout))
    ensures Leads(x.Spawn(timeout), WorkerSpawned, x.First(timeout))
  {
    hide AuthFieldIsTooLong, Utf8.DecodeReplace;
    assert [] + [0] == [0];
    assert [] + [LAccept(x.User(), 0)] == [LAccept(x.User(), 0)];
    assert [] + [x.Channel()] == [x.Channel()];
  }

  // ---------- a first message that fails ----------

  /** The handler has left its loop, and nothing knows of the worker. */
  function Forgotten(x: Case, timeout: int): Daemon {
    x.First(timeout).(log := [LAccept(x.User(), 0), LExit], handler := Gone, open := false)
  }

  lemma FirstFails(x: Case, timeout: int)
    ensures Leads(x.First(timeout), WorkerFails, Forgotten(x, timeout))
  {
    hide Utf8.DecodeReplace;
    assert [LAccept(x.User(), 0)] + [LExit] == [LAccept(x.User(), 0), LExit];
  }

  /** An exception while a first message is read loses that worker: its channel stays open for good. */
  lemma AWorkerIsLost(x: Case, timeout: int) returns (states: seq<Daemon>, labels: seq<Label>)
    requires x.Ok()
    ensures Run(timeout, states, labels) && |labels| == 3
    ensures AuthOrphans.LosesAt(states, labels, 2, 0)
    ensures Wired(states[3]) && |states[3].sessions| == 1 && AuthWorkers.Orphan(states[3], 0)
  {
    hide AuthFieldIsTooLong, Utf8.DecodeReplace, Leads;
    states := [Init(timeout), x.Spawn(timeout), x.First(timeout), Forgotten(x, timeout)];
    labels := [Receive(Request(0, Create(x.username)), true), WorkerSpawned, WorkerFails];
    Spawns(x, timeout);
    FirstFails(x, timeout);
    IsRun(timeout, states, labels);
  }

  // ---------- a reply that meets a closed channel ----------

  const TIMEOUT := 60

  /** The prompt was passed on and its timeout task registered. */
  function Asking(x: Case, stage: Stage, slept: int, warnings: nat): Daemon {
    x.First(TIMEOUT).(
      sessions := [x.Channel().(received := [Asked(x.prompt)], relayed := [0])],
      cur := Some(0), handler := Idle, timers := [Timer(0, stage, false, slept, warnings)], authTimer := Some(0),
      out := [Sent(Response(0, Pending(x.prompt)), true)] + (if warnings == 0 then [] else [Sent(Notice(AuthWarning(0)), true)]))
  }

  function Passed(x: Case): Daemon {
    Asking(x, TNew, 0, 0).(timers := [], authTimer := None, handler := Arming(0))
  }

  lemma PromptPassed(x: Case)
    ensures Leads(x.First(TIMEOUT), WorkerSays(Asked(x.prompt), true), Passed(x))
  {
    hide Utf8.DecodeReplace;
    var d, e := x.First(TIMEOUT), Passed(x);
    assert [] + [Asked(x.prompt)] == [Asked(x.prompt)] && [] + [0] == [0];
    assert d.sessions[0 := e.sessions[0]] == e.sessions;
    assert [] + [Sent(Response(0, Pending(x.prompt)), true)] == e.out;
  }

  lemma TimerArmed(x: Case)
    ensures Leads(Passed(x), Arm, Asking(x, TNew, 0, 0))
    ensures Leads(Asking(x, TNew, 0, 0), TimerRuns(0), Asking(x, TBeforeWarning, 0, 0))
  {
    hide Utf8.DecodeReplace;
    assert [] + [Timer(0, TNew, false, 0, 0)] == [Timer(0, TNew, false, 0, 0)];
    var d, e := Asking(x, TNew, 0, 0), Asking(x, TBeforeWarning, 0, 0);
    assert d.timers[0 := e.timers[0]] == e.timers;
  }

  lemma Warned(x: Case)
    ensures Leads(Asking(x, TBeforeWarning, 0, 0), TimerRuns(0), Asking(x, TAfterWarning, 40, 1))
  {
    hide Utf8.DecodeReplace;
    var d, e := Asking(x, TBeforeWarning, 0, 0), Asking(x, TAfterWarning, 40, 1);
    assert d.timers[0 := e.timers[0]] == e.timers;
    assert [Sent(Response(0, Pending(x.prompt)), true)] + [] == d.out;
    assert d.out + [Sent(Notice(AuthWarning(0)), true)] == e.out;
  }

  /** The timeout task is inside `expire`. */
  function ExpiringState(x: Case, stage: Stage, closed: bool): Daemon {
    var d := Asking(x, stage, 60, 1);
    d.(sessions := [d.sessions[0].(sent := [Start(x.User()), Cancel], closed := closed)])
  }

  lemma Expires(x: Case)
    ensures Leads(Asking(x, TAfterWarning, 40, 1), TimerRuns(0), ExpiringState(x, TCancelSent, false))
    ensures Leads(ExpiringState(x, TCancelSent, false), TimerRuns(0), ExpiringState(x, TClosing, true))
  {
    hide Utf8.DecodeReplace;
    var d, e, f := Asking(x, TAfterWarning, 40, 1), ExpiringState(x, TCancelSent, false), ExpiringState(x, TClosing, true);
    assert [Start(x.User())] + [Cancel] == e.sessions[0].sent;
    assert d.timers[0 := e.timers[0]] == e.timers && d.sessions[0 := e.sessions[0]] == e.sessions;
    assert e.timers[0 := f.timers[0]] == f.timers && e.sessions[0 := f.sessions[0]] == f.sessions;
  }

  /** The reply was written to the closed channel; then the exception ended the handler's loop. */
  function Taken(x: Case): Daemon {
    ExpiringState(x, TClosing, true).(requests := [0, 1], handler := Raising(1))
  }

  function Left(x: Case): Daemon {
    var d := Taken(x);
    d.(timers := [d.timers[0].(cancelled := true)], authTimer := None, log := [LAccept(x.User(), 0), LExit],
       sessions := [d.sessions[0].(sent := [Start(x.User()), Cancel, Cancel])],
       handler := Stopping(0, CancelWritten, ThenExit))
  }

  lemma ReplyTaken(x: Case)
    requires x.Ok()
    ensures Leads(ExpiringState(x, TClosing, true), Receive(Request(1, Continue(x.reply, Shown(x.prompt, 0))), true), Taken(x))
  {
    hide Utf8.DecodeReplace, AuthFieldIsTooLong;
    assert [0] + [1] == [0, 1];
  }

  lemma LoopLeft(x: Case)
    ensures Leads(Taken(x), WorkerFails, Left(x))
  {
    hide Utf8.DecodeReplace;
    var d, e := Taken(x), Left(x);
    assert [LAccept(x.User(), 0)] + [LExit] == e.log;
    assert [Start(x.User()), Cancel] + [Cancel] == e.sessions[0].sent;
    assert d.timers[0 := e.timers[0]] == e.timers && d.sessions[0 := e.sessions[0]] == e.sessions;
  }

  /**
   * A reply that arrives while an expiry is closing its session's channel is never answered, although no
   * worker did anything wrong.
   */
  lemma AReplyGoesUnanswered(x: Case) returns (states: seq<Daemon>, labels: seq<Label>)
    requires x.Ok()
    ensures Run(TIMEOUT, states, labels) && AuthTheorems.WorkersBehave(states, labels) && |labels| == 10
    ensures Wired(states[8]) && AuthTheorems.MeetsClosedChannel(states[8], labels[8])
    ensures states[8].handler.Idle? && states[8].cur == Some(0) && |states[8].timers| == 1 && states[8].timers[0].stage.TClosing?
    ensures !AuthTheorems.Orderly(states[10]) && states[10].requests == [0, 1] && AuthInvariants.Responded(states[10].out) == [0]
  {
    hide AuthFieldIsTooLong, Utf8.DecodeReplace, Leads;
    states := [Init(TIMEOUT), x.Spawn(TIMEOUT), x.First(TIMEOUT), Passed(x), Asking(x, TNew, 0, 0), Asking(x, TBeforeWarning, 0, 0),
               Asking(x, TAfterWarning, 40, 1), ExpiringState(x, TCancelSent, false), ExpiringState(x, TClosing, true), Taken(x),
               Left(x)];
    labels := [Receive(Request(0, Create(x.username)), true), WorkerSpawned, WorkerSays(Asked(x.prompt), true), Arm, TimerRuns(0),
               TimerRuns(0), TimerRuns(0), TimerRuns(0), Receive(Request(1, Continue(x.reply, Shown(x.prompt, 0))), true), WorkerFails];
    Spawns(x, TIMEOUT);
    PromptPassed(x);
    TimerArmed(x);
    Warned(x);
    Expires(x);
    ReplyTaken(x);
    LoopLeft(x);
    IsRun(TIMEOUT, states, labels);
    OneAnswered(x);
  }

  lemma OneAnswered(x: Case)
    ensures AuthInvariants.Responded(Left(x).out) == [0]
  {
    hide Utf8.DecodeReplace;
    AuthInvariants.OutAppend([], Sent(Response(0, Pending(x.prompt)), true));
    AuthInvariants.OutAppend([Sent(Response(0, Pending(x.prompt)), true)], Sent(Notice(AuthWarning(0)), true));
    assert [] + [Sent(Response(0, Pending(x.prompt)), true)] == [Sent(Response(0, Pending(x.prompt)), true)];
  }

  // ---------- shutdown overtaking a new session ----------

  /** The first session is ready. */
  function ReadyState(x: Case): Daemon {
    x.First(0).(sessions := [x.Channel().(received := [IsReady], ready := true)], cur := Some(0), handler := Idle,
                log := [LAccept(x.User(), 0), LReady(x.User())], out := [Sent(Response(0, Ready), true)])
  }

  function Sweeping(x: Case, stage: StopStage): Daemon {
    var d := ReadyState(x);
    d.(sessions := [d.sessions[0].(sent := [Start(x.User()), Cancel], closed := stage.ChannelClosed?)], sweep := SweepStopping(0, stage))
  }

  lemma ReadyAndSwept(x: Case)
    ensures Leads(x.First(0), WorkerSays(IsReady, true), ReadyState(x))
    ensures Leads(ReadyState(x), SweepRuns, Sweeping(x, CancelWritten))
    ensures Leads(Sweeping(x, CancelWritten), SweepRuns, Sweeping(x, ChannelClosed))
  {
    hide Utf8.DecodeReplace;
    var d, e, f, g := x.First(0), ReadyState(x), Sweeping(x, CancelWritten), Sweeping(x, ChannelClosed);
    assert [] + [IsReady] == [IsReady] && [] + [Sent(Response(0, Ready), true)] == e.out;
    assert [LAccept(x.User(), 0)] + [LReady(x.User())] == e.log;
    assert [Start(x.User())] + [Cancel] == f.sessions[0].sent;
    assert d.sessions[0 := e.sessions[0]] == e.sessions;
    assert e.sessions[0 := f.sessions[0]] == f.sessions && f.sessions[0 := g.sessions[0]] == g.sessions;
  }

  /** The ready session is started while shutdown still waits for its worker to end. */
  function Launch(x: Case, step: nat): Daemon {
    var d := Sweeping(x, ChannelClosed);
    var authorized := d.log + [LAuthorize(x.User(), x.command)];
    d.(requests := [0, 1], cur := None, handler := if step < 3 then Launching(x.User(), x.command, step) else Idle,
       log := if step < 2 then authorized else authorized + [LSpawn(x.User(), x.command)],
       out := d.out + [Sent(Response(1, Done), true)] + Told(step))
  }

  function Told(step: nat): seq<Sent> {
    if step == 0 then []
    else if step == 1 then [Sent(Notice(SessionStarting), true)]
    else if step == 2 then [Sent(Notice(SessionStarting), true), Sent(Notice(StateChanged), true)]
    else [Sent(Notice(SessionStarting), true), Sent(Notice(StateChanged), true), Sent(Notice(ReExec), true)]
  }

  lemma StartTaken(x: Case)
    ensures Leads(Sweeping(x, ChannelClosed), Receive(Request(1, StartSession(x.command)), true), Launch(x, 0))
  {
    hide Utf8.DecodeReplace;
    assert [0] + [1] == [0, 1];
    var d := Sweeping(x, ChannelClosed);
    assert d.out + [Sent(Response(1, Done), true)] + Told(0) == d.out + [Sent(Response(1, Done), true)];
  }

  lemma Launches(x: Case)
    ensures Leads(Launch(x, 0), LaunchContinues, Launch(x, 1))
    ensures Leads(Launch(x, 1), LaunchContinues, Launch(x, 2))
    ensures Leads(Launch(x, 2), LaunchContinues, Launch(x, 3))
  {
    hide Utf8.DecodeReplace;
    assert Launch(x, 0).out + [Sent(Notice(SessionStarting), true)] == Launch(x, 1).out;
    assert Launch(x, 1).out + [Sent(Notice(StateChanged), true)] == Launch(x, 2).out;
    assert Launch(x, 2).out + [Sent(Notice(ReExec), true)] == Launch(x, 3).out;
  }

  /** A second session has been created in the meantime, and asks its prompt. */
  function Spawn2(x: Case): Daemon {
    var d := Launch(x, 3);
    d.(requests := [0, 1, 2], log := d.log + [LAccept(x.Other(), 2)], handler := Spawning(2, x.Other()))
  }

  function Channel2(x: Case): Session {
    Session(x.Other(), 2, false, false, [Start(x.Other())], [], [])
  }

  function First2(x: Case): Daemon {
    var d := Spawn2(x);
    d.(sessions := [d.sessions[0], Channel2(x)], handler := FirstMessage(2, 1))
  }

  function Asking2(x: Case): Daemon {
    var d := First2(x);
    d.(sessions := [d.sessions[0], Channel2(x).(received := [Asked(x.prompt)], relayed := [2])], cur := Some(1),
       handler := Arming(1), out := d.out + [Sent(Response(2, Pending(x.prompt)), true)])
  }

  lemma CreatesAgain(x: Case)
    requires x.Ok()
    ensures Leads(Launch(x, 3), Receive(Request(2, Create(x.other)), true), Spawn2(x))
    ensures Leads(Spawn2(x), WorkerSpawned, First2(x))
  {
    hide Utf8.DecodeReplace, AuthFieldIsTooLong, Told;
    assert [0, 1] + [2] == [0, 1, 2];
    assert Spawn2(x).sessions + [Channel2(x)] == First2(x).sessions;
  }

  lemma AsksAgain(x: Case)
    ensures Leads(First2(x), WorkerSays(Asked(x.prompt), true), Asking2(x))
    ensures Leads(Asking2(x), Arm, Asking2(x).(handler := Idle))
  {
    hide Utf8.DecodeReplace, Told;
    assert [] + [Asked(x.prompt)] == [Asked(x.prompt)] && [] + [2] == [2];
    assert First2(x).sessions[1 := Asking2(x).sessions[1]] == Asking2(x).sessions;
  }

  /** Shutdown resumes, clears the session it finds and goes on; the handler leaves its loop. */
  function Cleared(x: Case, sweep: Sweep): Daemon {
    Asking2(x).(handler := Idle, cur := None, sweep := sweep, open := sweep.Swept?)
  }

  function Ended(x: Case, sweep: Sweep): Daemon {
    Cleared(x, sweep).(handler := Gone, open := false, log := Asking2(x).log + [LExit])
  }

  lemma Finishes(x: Case)
    ensures Leads(Asking2(x).(handler := Idle), SweepRuns, Cleared(x, Swept))
    ensures Leads(Cleared(x, Swept), SweepRuns, Cleared(x, Joining))
    ensures Leads(Cleared(x, Joining), ReceiveEnd, Ended(x, Joining))
    ensures Leads(Ended(x, Joining), SweepRuns, Ended(x, Joined))
  {
    hide Utf8.DecodeReplace, Told;
  }

  function OvertakenStates(x: Case): seq<Daemon> {
    [Init(0), x.Spawn(0), x.First(0), ReadyState(x), Sweeping(x, CancelWritten), Sweeping(x, ChannelClosed), Launch(x, 0), Launch(x, 1),
     Launch(x, 2), Launch(x, 3), Spawn2(x), First2(x), Asking2(x), Asking2(x).(handler := Idle), Cleared(x, Swept), Cleared(x, Joining),
     Ended(x, Joining), Ended(x, Joined)]
  }

  function OvertakenLabels(x: Case): seq<Label> {
    [Receive(Request(0, Create(x.username)), true), WorkerSpawned, WorkerSays(IsReady, true), SweepRuns, SweepRuns,
     Receive(Request(1, StartSession(x.command)), true), LaunchContinues, LaunchContinues, LaunchContinues,
     Receive(Request(2, Create(x.other)), true), WorkerSpawned, WorkerSays(Asked(x.prompt), true), Arm, SweepRuns, SweepRuns, ReceiveEnd,
     SweepRuns]
  }

  lemma OvertakenRun(x: Case)
    requires x.Ok()
    ensures Run(0, OvertakenStates(x), OvertakenLabels(x))
  {
    hide AuthFieldIsTooLong, Utf8.DecodeReplace, Leads, Told;
    Spawns(x, 0);
    ReadyAndSwept(x);
    StartTaken(x);
    Launches(x);
    CreatesAgain(x);
    AsksAgain(x);
    Finishes(x);
    IsRun(0, OvertakenStates(x), OvertakenLabels(x));
  }

  /**
   * Shutdown can leave a worker behind: if the ready session it is stopping is started meanwhile and a
   * new one is created before the old worker has ended, clearing the reference drops the new one.
   */
  lemma ANewSessionIsOvertaken(x: Case) returns (states: seq<Daemon>, labels: seq<Label>)
    requires x.Ok()
    ensures Run(0, states, labels) && |labels| == 17
    ensures Wired(states[13]) && AuthOrphans.OvertakesAt(states, labels, 13) && AuthOrphans.AbandonedAt(states, labels, 13, 1)
    ensures states[17].sweep.Joined? && |states[17].sessions| == 2 && !AuthWorkers.Settles(states[17].sessions[1])
  {
    OvertakenRun(x);
    states, labels := OvertakenStates(x), OvertakenLabels(x);
    hide AuthFieldIsTooLong, Utf8.DecodeReplace, Told, Run;
    RunLength(0, states, labels);
    assert states[13] == Asking2(x).(handler := Idle) && labels[13] == SweepRuns;
    Overtaking(x);
  }

  lemma RunLength(timeout: int, states: seq<Daemon>, labels: seq<Label>)
    requires Run(timeout, states, labels)
    ensures |states| == |labels| + 1
  {
  }

  lemma Overtaking(x: Case)
    ensures var d := Asking2(x).(handler := Idle);
            && Wired(d) && d.cur == Some(1) && |d.sessions| == 2
            && AuthWorkers.Overtakes(d, SweepRuns, 1) && AuthWorkers.Abandons(d, SweepRuns, 1)
  {
    hide Utf8.DecodeReplace, Told;
  }
}
