/** The model is not empty: every acceptable login can go all the way from the greeter to a session. */
module LoginExample {
  import opened Wrappers
  import opened AuthMachine
  import opened GreeterFlow
  import opened LoginSystem
  import opened LoginAgreement
  import opened AuthAgreement
  import opened SizeBounds
  import P = PamConversation
  import Utf8

  /** Some play of these acts ends in `w`. */
  ghost predicate Reaches(timeout: int, acts: seq<Act>, w: World) {
    exists states :: Play(timeout, states, acts) && states[|acts|] == w
  }

  lemma PlayOn(timeout: int, states: seq<World>, acts: seq<Act>, a: Act)
    requires Play(timeout, states, acts) && May(states[|acts|], a)
    ensures Play(timeout, states + [Do(states[|acts|], a)], acts + [a])
  {
    hide May, Do;
    var longer, all := states + [Do(states[|acts|], a)], acts + [a];
    forall n {:trigger Acts(longer, all, n)} | 0 <= n < |all|
      ensures Acts(longer, all, n)
    {
      if n < |acts| {
        assert Acts(states, acts, n);
      }
    }
  }

  lemma Next(timeout: int, acts: seq<Act>, w: World, a: Act, next: World)
    requires Reaches(timeout, acts, w) && May(w, a) && Do(w, a) == next
    ensures Reaches(timeout, acts + [a], next)
  {
    hide May, Do, Acts;
    var states :| Play(timeout, states, acts) && states[|acts|] == w;
    PlayOn(timeout, states, acts, a);
    assert (states + [next])[|acts + [a]|] == next;
  }

  function LoginActs(username: Bytes, reply: Bytes, command: string, m: P.PamMessage, p: Prompt): (acts: seq<Act>)
    ensures |acts| == 20
  {
    [Login(username, ""), DaemonRuns(Receive(Request(0, Create(username)), true)), DaemonRuns(WorkerSpawned),
     WorkerStarts(0), PamCalls(0, [m]), WorkerAsks(0), DaemonRuns(WorkerSays(Asked(p), true)), DaemonRuns(Arm), GreeterReads,
     Login(reply, ""), DaemonRuns(Receive(Request(1, Continue(reply, Shown(p, 0))), true)), WorkerHears(0), PamGetsArray(0),
     WorkerEnds(0, true, ""), DaemonRuns(WorkerSays(IsReady, true)), GreeterReads,
     Login([], command), DaemonRuns(Receive(Request(2, AuthMachine.StartSession(command)), true)),
     DaemonRuns(LaunchContinues), DaemonRuns(LaunchContinues)]
  }

  predicate Leads(w: World, a: Act, next: World) {
    May(w, a) && Do(w, a) == next
  }

  // ---------- the states along the way ----------

  /** A user's entries and the one message of PAM's; `p` is the prompt for that message. */
  datatype Attempt = Attempt(timeout: int, username: Bytes, reply: Bytes, command: string, m: P.PamMessage) {
    function p(): Prompt {
      Prompt("secret", Utf8.DecodeReplace(m.text))
    }

    function User(): string {
      Utf8.DecodeReplace(username)
    }

    predicate Acceptable() {
      && |username| > 0 && !AuthFieldIsTooLong(username)
      && |reply| > 0 && !AuthFieldIsTooLong(reply)
      && m.style == 1 && P.Asks(m)
    }

    function All(): seq<Act> {
      LoginActs(username, reply, command, m, p())
    }

    function Channel(): Session {
      Session(User(), 0, false, false, [ToWorker.Start(User())], [], [])
    }

    /** The timeout task of the prompt, where a timeout is configured. */
    function Timers(cancelled: bool): seq<Timer> {
      if timeout <= 0 then [] else [Timer(0, TNew, cancelled, 0, 0)]
    }

    /** PAM's call, with the slots filled so far. */
    function Call(slots: seq<P.Slot>): Batch {
      Batch([m], 1, slots)
    }

    /** The worker is running. */
    function Spawned(): World {
      var d := Init(timeout).(requests := [0], log := [LAccept(User(), 0)], handler := FirstMessage(0, 0), sessions := [Channel()]);
      World(d, Greeter(Nothing, true, username, false, Waiting(0, ForCreate), false), [Create(username)], 0, [NewWorker()])
    }

    /** The worker has asked its prompt. */
    function Asking(): World {
      Spawned().(workers := [Worker(1, [Asked(p())], [], true, false, Some(Call([])), [])])
    }

    /** The worker's prompt has reached the daemon, which has passed it on. */
    function Prompted(): World {
      var w := Spawned();
      w.(d := w.d.(sessions := [Channel().(received := [Asked(p())], relayed := [0])], cur := Some(0), handler := Arming(0),
                   out := [Sent(Response(0, Pending(p())), true)]),
         workers := [Worker(1, [Asked(p())], [], true, false, Some(Call([])), [])])
    }

    /** The greeter shows the prompt. */
    function Displayed(): World {
      var w := Prompted();
      w.(d := w.d.(handler := Idle, timers := Timers(false), authTimer := if timeout <= 0 then None else Some(0)),
         g := Greeter(ShowsPrompt(Shown(p(), 0)), false, username, false, NoCall, false), read := 1)
    }

    /** The reply is on its way to PAM. */
    function Replied(): World {
      var w := Displayed();
      w.(d := w.d.(sessions := [Channel().(received := [Asked(p())], relayed := [0], sent := [ToWorker.Start(User()), Answer(reply, Shown(p(), 0), 1)])],
                   requests := [0, 1], handler := Replying(1, 0)),
         g := Greeter(ShowsPrompt(Shown(p(), 0)), true, username, false, Waiting(1, ForContinue(username)), false),
         sent := [Create(username), Continue(reply, Shown(p(), 0))])
    }

    /** PAM is satisfied. */
    function Satisfied(): World {
      var w := Replied();
      w.(workers := [Worker(2, [Asked(p()), IsReady], [reply], false, false, None, [Call([P.SlotFor(m, reply)])])])
    }

    /** The greeter shows a ready session. */
    function Readied(): World {
      var w := Satisfied();
      w.(d := w.d.(sessions := [Channel().(received := [Asked(p()), IsReady], relayed := [0], ready := true,
                                            sent := [ToWorker.Start(User()), Answer(reply, Shown(p(), 0), 1)])],
                   handler := Idle, timers := Timers(true), authTimer := None,
                   log := [LAccept(User(), 0), LReady(User())],
                   out := [Sent(Response(0, Pending(p())), true), Sent(Response(1, Ready), true)]),
         g := Greeter(ShowsReady, false, username, false, NoCall, false), read := 2)
    }

    /** The daemon has accepted to start the session. */
    function Launched(): World {
      var w := Readied();
      w.(d := w.d.(requests := [0, 1, 2], cur := None, handler := Launching(User(), command, 0),
                   log := [LAccept(User(), 0), LReady(User()), LAuthorize(User(), command)],
                   out := w.d.out + [Sent(Response(2, Done), true)]),
         g := Greeter(ShowsReady, true, username, false, Waiting(2, ForStart), false),
         sent := [Create(username), Continue(reply, Shown(p(), 0)), AuthMachine.StartSession(command)])
    }

    /** The user's session is running. */
    function Running(): World {
      var w := Launched();
      w.(d := w.d.(handler := Launching(User(), command, 2), log := w.d.log + [LSpawn(User(), command)],
                   out := w.d.out + [Sent(Notice(SessionStarting), true), Sent(Notice(StateChanged), true)]))
    }

    /** The state after the first `n` acts. */
    function At(n: nat): World {
      match n
      case 0 => Begin(timeout)
      case 1 => Begin(timeout).(g := Spawned().g, sent := Spawned().sent)
      case 2 => At(1).(d := At(1).d.(requests := [0], log := [LAccept(User(), 0)], handler := Spawning(0, User())))
      case 3 => Spawned()
      case 4 => Spawned().(workers := [NewWorker().(consumed := 1)])
      case 5 => Spawned().(workers := [NewWorker().(consumed := 1, batch := Some(Call([])))])
      case 6 => Asking()
      case 7 => Prompted()
      case 8 => Prompted().(d := Displayed().d)
      case 9 => Displayed()
      case 10 => Displayed().(g := Replied().g, sent := Replied().sent)
      case 11 => Replied()
      case 12 => Replied().(workers := [Worker(2, [Asked(p())], [reply], false, false, Some(Call([P.SlotFor(m, reply)])), [])])
      case 13 => Replied().(workers := [Worker(2, [Asked(p())], [reply], false, false, None, [Call([P.SlotFor(m, reply)])])])
      case 14 => Satisfied()
      case 15 => Satisfied().(d := Readied().d)
      case 16 => Readied()
      case 17 => Readied().(g := Launched().g, sent := Launched().sent)
      case 18 => Launched()
      case 19 =>
        Launched().(d := Launched().d.(handler := Launching(User(), command, 1),
                                       out := Launched().d.out + [Sent(Notice(SessionStarting), true)]))
      case _ => Running()
    }
  }

  // ---------- the steps ----------

  lemma LeadsToSpawning(x: Attempt)
    requires x.Acceptable()
    ensures Leads(x.At(0), x.All()[0], x.At(1)) && Leads(x.At(1), x.All()[1], x.At(2))
  {
    hide AuthFieldIsTooLong, Utf8.DecodeReplace, P.Asks;
  }

  lemma LeadsToSpawned(x: Attempt)
    ensures Leads(x.At(2), x.All()[2], x.At(3))
  {
    hide Utf8.DecodeReplace;
  }

  /** A step of the only worker. */
  lemma WorkerLeads(w: World, a: Act, worker: Worker)
    requires |w.workers| == 1 && May(w, a) && !a.DaemonRuns? && Do(w, a) == w.(workers := w.workers[0 := worker])
    ensures Leads(w, a, w.(workers := [worker]))
  {
    hide May, Do;
    assert w.workers[0 := worker] == [worker];
  }

  lemma LeadsToCalled(x: Attempt)
    ensures Leads(x.At(3), WorkerStarts(0), x.At(4)) && Leads(x.At(4), PamCalls(0, [x.m]), x.At(5))
  {
    hide Utf8.DecodeReplace, Leads;
    WorkerLeads(x.At(3), WorkerStarts(0), NewWorker().(consumed := 1));
    WorkerLeads(x.At(4), PamCalls(0, [x.m]), NewWorker().(consumed := 1, batch := Some(x.Call([]))));
  }

  lemma LeadsToAsking(x: Attempt)
    requires x.Acceptable()
    ensures Leads(x.At(5), WorkerAsks(0), x.At(6))
  {
    AskedAs(x);
    hide Utf8.DecodeReplace, Leads, P.PromptFor;
    assert [] + [Asked(x.p())] == [Asked(x.p())];
    WorkerLeads(x.At(5), WorkerAsks(0), x.Asking().workers[0]);
  }

  lemma AskedAs(x: Attempt)
    requires x.Acceptable()
    ensures var prompt := P.PromptFor(x.m);
            prompt.Some? && Prompt(prompt.value.style, prompt.value.text) == x.p()
  {
  }

  lemma LeadsToPrompted(x: Attempt)
    ensures Leads(x.At(6), DaemonRuns(WorkerSays(Asked(x.p()), true)), x.At(7))
  {
    hide Utf8.DecodeReplace;
    var w, e := x.Asking(), x.Prompted();
    assert [] + [Asked(x.p())] == [Asked(x.p())] && [] + [0] == [0];
    assert w.d.sessions[0 := e.d.sessions[0]] == e.d.sessions;
    assert [] + [Sent(Response(0, Pending(x.p())), true)] == e.d.out;
  }

  lemma LeadsToDisplayed(x: Attempt)
    ensures Leads(x.At(7), DaemonRuns(Arm), x.At(8)) && Leads(x.At(8), GreeterReads, x.At(9))
  {
    hide Utf8.DecodeReplace;
    assert x.timeout > 0 ==> x.At(7).d.timers + [Timer(0, TNew, false, 0, 0)] == x.At(8).d.timers;
  }

  lemma LeadsToAnswering(x: Attempt)
    requires x.Acceptable()
    ensures Leads(x.At(9), Login(x.reply, ""), x.At(10))
  {
    hide Utf8.DecodeReplace, AuthFieldIsTooLong, P.Asks;
  }

  lemma LeadsToReplied(x: Attempt)
    requires x.Acceptable()
    ensures Leads(x.At(10), DaemonRuns(Receive(Request(1, Continue(x.reply, Shown(x.p(), 0))), true)), x.At(11))
  {
    hide Utf8.DecodeReplace, AuthFieldIsTooLong, P.Asks;
    var e := x.Replied();
    var sent := [ToWorker.Start(x.User())] + [Answer(x.reply, Shown(x.p(), 0), 1)];
    assert sent == e.d.sessions[0].sent;
    assert x.At(10).d.sessions[0 := e.d.sessions[0]] == e.d.sessions;
    assert [0] + [1] == [0, 1];
  }

  lemma LeadsToHeard(x: Attempt)
    ensures Leads(x.At(11), WorkerHears(0), x.At(12))
  {
    HeardAs(x);
    hide Utf8.DecodeReplace, Leads, P.SlotFor, Hear;
    WorkerLeads(x.At(11), WorkerHears(0), x.At(12).workers[0]);
  }

  lemma HeardAs(x: Attempt)
    ensures var k := x.Replied().workers[0];
            InBatch(k) && Hear(k, Answer(x.reply, Shown(x.p(), 0), 1)) == x.At(12).workers[0]
  {
    hide P.SlotFor, Utf8.DecodeReplace;
    assert [] + [P.SlotFor(x.m, x.reply)] == [P.SlotFor(x.m, x.reply)] && [] + [x.reply] == [x.reply];
  }

  lemma LeadsToReturned(x: Attempt)
    ensures Leads(x.At(12), PamGetsArray(0), x.At(13))
  {
    hide Utf8.DecodeReplace, Leads, P.SlotFor;
    assert [] + [x.Call([P.SlotFor(x.m, x.reply)])] == [x.Call([P.SlotFor(x.m, x.reply)])];
    WorkerLeads(x.At(12), PamGetsArray(0), x.At(13).workers[0]);
  }

  lemma LeadsToSatisfied(x: Attempt)
    ensures Leads(x.At(13), WorkerEnds(0, true, ""), x.At(14))
  {
    hide Utf8.DecodeReplace, Leads, P.SlotFor;
    assert [Asked(x.p())] + [IsReady] == [Asked(x.p()), IsReady];
    WorkerLeads(x.At(13), WorkerEnds(0, true, ""), x.Satisfied().workers[0]);
  }

  lemma LeadsToReady(x: Attempt)
    ensures Leads(x.At(14), DaemonRuns(WorkerSays(IsReady, true)), x.At(15))
  {
    hide Utf8.DecodeReplace, P.SlotFor, OnRequest, OnTimer, OnSweep, OnStop, OnArm, OnSpawned, Exit;
    var w, e := x.Satisfied(), x.Readied();
    assert [Asked(x.p())] + [IsReady] == [Asked(x.p()), IsReady];
    assert w.d.sessions[0 := e.d.sessions[0]] == e.d.sessions;
    assert x.timeout > 0 ==> w.d.timers[0 := e.d.timers[0]] == e.d.timers;
    assert [LAccept(x.User(), 0)] + [LReady(x.User())] == e.d.log;
    assert w.d.out + [Sent(Response(1, Ready), true)] == e.d.out;
  }

  lemma LeadsToReadied(x: Attempt)
    ensures Leads(x.At(15), GreeterReads, x.At(16)) && Leads(x.At(16), Login([], x.command), x.At(17))
  {
    hide Utf8.DecodeReplace, P.SlotFor, Step;
  }

  lemma LeadsToLaunched(x: Attempt)
    ensures Leads(x.At(17), DaemonRuns(Receive(Request(2, AuthMachine.StartSession(x.command)), true)), x.At(18))
  {
    hide Utf8.DecodeReplace, P.SlotFor;
    assert [0, 1] + [2] == [0, 1, 2];
    assert x.At(17).d.log + [LAuthorize(x.User(), x.command)] == x.Launched().d.log;
  }

  lemma LeadsToAnnounced(x: Attempt)
    ensures Leads(x.At(18), DaemonRuns(LaunchContinues), x.At(19))
  {
    hide Utf8.DecodeReplace, P.SlotFor, OnRequest, OnWorker, OnTimer, OnSweep, OnStop, OnArm, OnSpawned, Exit;
  }

  lemma LeadsToRunning(x: Attempt)
    ensures Leads(x.At(19), DaemonRuns(LaunchContinues), x.At(20))
  {
    LaunchedFacts(x);
    hide Utf8.DecodeReplace, P.SlotFor, Attempt.Launched;
    var w, e := x.At(19), x.Running();
    assert w.d.out + [Sent(Notice(StateChanged), true)] == e.d.out;
    LaunchLeads(w, e, x.User(), x.command);
  }

  lemma LaunchedFacts(x: Attempt)
    ensures Wired(x.Launched().d) && x.Launched().d.open && x.Launched().d.cur.None? && x.Launched().d.sweep.NotStarted?
  {
    hide Utf8.DecodeReplace, P.SlotFor;
  }

  lemma LaunchLeads(w: World, e: World, user: string, command: string)
    requires w.d.handler == Launching(user, command, 1) && w.d.open && Wired(w.d)
    requires e == w.(d := w.d.(handler := Launching(user, command, 2), log := e.d.log, out := e.d.out))
    requires e.d.log == w.d.log + [LSpawn(user, command)] && e.d.out == w.d.out + [Sent(Notice(StateChanged), true)]
    ensures Leads(w, DaemonRuns(LaunchContinues), e)
  {
  }

  lemma LeadsOn(x: Attempt, n: nat)
    requires x.Acceptable() && n < 20
    ensures Leads(x.At(n), x.All()[n], x.At(n + 1))
  {
    hide Leads, Utf8.DecodeReplace, AuthFieldIsTooLong, P.Asks;
    LeadsToSpawning(x);
    LeadsToSpawned(x);
    LeadsToCalled(x);
    LeadsToAsking(x);
    LeadsToPrompted(x);
    LeadsToDisplayed(x);
    LeadsToAnswering(x);
    LeadsToReplied(x);
    LeadsToHeard(x);
    LeadsToReturned(x);
    LeadsToSatisfied(x);
    LeadsToReady(x);
    LeadsToReadied(x);
    LeadsToLaunched(x);
    LeadsToAnnounced(x);
    LeadsToRunning(x);
  }

  lemma {:induction false} ReachesAt(x: Attempt, n: nat)
    requires x.Acceptable() && n <= 20
    ensures Reaches(x.timeout, x.All()[..n], x.At(n))
  {
    hide Utf8.DecodeReplace, AuthFieldIsTooLong, P.Asks, Reaches, Leads, LoginActs;
    if n == 0 {
      ReachesStart(x.timeout, x.All());
    } else {
      ReachesAt(x, n - 1);
      LeadsOn(x, n - 1);
      FollowAll(x.timeout, x.All(), n - 1, x.At(n - 1), x.At(n));
    }
  }

  lemma ReachesStart(timeout: int, all: seq<Act>)
    ensures Reaches(timeout, all[..0], Begin(timeout))
  {
    assert Play(timeout, [Begin(timeout)], all[..0]);
  }

  lemma FollowAll(timeout: int, all: seq<Act>, n: nat, w: World, next: World)
    requires n < |all| && Reaches(timeout, all[..n], w) && Leads(w, all[n], next)
    ensures Reaches(timeout, all[..n + 1], next)
  {
    hide Reaches, Leads;
    assert all[..n] + [all[n]] == all[..n + 1];
    Follow(timeout, all[..n], w, all[n], next);
  }

  lemma Follow(timeout: int, acts: seq<Act>, w: World, a: Act, next: World)
    requires Reaches(timeout, acts, w) && Leads(w, a, next)
    ensures Reaches(timeout, acts + [a], next)
  {
    hide May, Do, Reaches;
    Next(timeout, acts, w, a, next);
  }

  /**
   * For every acceptable user name, reply and command some run leads from the greeter to a session of
   * that user with that command, PAM having been given an array with exactly that reply.
   */
  lemma EveryLoginCanSucceed(x: Attempt)
    requires x.Acceptable()
    ensures exists w: World ::
              && Reaches(x.timeout, x.All(), w)
              && |w.workers| == 1 && w.workers[0].got == [x.reply] && w.workers[0].done == [x.Call([P.SlotFor(x.m, x.reply)])]
              && |w.d.log| == 4 && w.d.log[3] == LSpawn(x.User(), x.command)
  {
    hide Reaches, AuthFieldIsTooLong, Utf8.DecodeReplace, P.Asks, P.SlotFor;
    ReachesAt(x, 20);
    assert x.All()[..20] == x.All();
    assert Reaches(x.timeout, x.All(), x.Running());
  }

  // ---------- a connection being torn down ----------

  /** Shutdown has dropped the session whose prompt the greeter shows. */
  function Dropped(x: Attempt): World {
    var w := x.Displayed();
    w.(d := w.d.(timers := x.Timers(true), authTimer := None, cur := None, sweep := Swept,
                 sessions := [w.d.sessions[0].(sent := [ToWorker.Start(x.User()), Cancel], closed := true)]))
  }

  /** The session's channel while shutdown stops it. */
  function Stopped(x: Attempt, closed: bool): Session {
    x.Displayed().d.sessions[0].(sent := [ToWorker.Start(x.User()), Cancel], closed := closed)
  }

  function StoppingState(x: Attempt, stage: StopStage): World {
    var w := x.Displayed();
    w.(d := w.d.(timers := x.Timers(true), authTimer := None, sessions := [Stopped(x, stage.ChannelClosed?)],
                 sweep := SweepStopping(0, stage)))
  }

  lemma SweepBegins(x: Attempt)
    ensures Leads(x.Displayed(), DaemonRuns(SweepRuns), StoppingState(x, CancelWritten))
  {
    hide Utf8.DecodeReplace;
    var w, e := x.Displayed(), StoppingState(x, CancelWritten);
    assert [ToWorker.Start(x.User())] + [Cancel] == Stopped(x, false).sent;
    assert w.d.sessions[0 := Stopped(x, false)] == e.d.sessions;
    assert x.timeout > 0 ==> w.d.timers[0 := e.d.timers[0]] == e.d.timers;
  }

  lemma SweepGoesOn(x: Attempt)
    ensures Leads(StoppingState(x, CancelWritten), DaemonRuns(SweepRuns), StoppingState(x, ChannelClosed))
    ensures Leads(StoppingState(x, ChannelClosed), DaemonRuns(SweepRuns), Dropped(x))
  {
    hide Utf8.DecodeReplace;
    assert StoppingState(x, CancelWritten).d.sessions[0 := Stopped(x, true)] == StoppingState(x, ChannelClosed).d.sessions;
  }

  /**
   * The agreement needs the connection: once shutdown has begun, a greeter with nothing left to read
   * can show a prompt that the daemon no longer holds.
   */
  lemma TornDownClaim(x: Attempt)
    requires x.Acceptable()
    ensures exists acts, w: World ::
              && Reaches(x.timeout, acts, w) && Wired(w.d)
              && !Up(w.d) && !w.g.busy && w.g.claim.ShowsPrompt? && w.read == |w.d.out| && !Held(w)
  {
    hide Reaches, Leads, AuthFieldIsTooLong, Utf8.DecodeReplace, P.SlotFor, P.Asks;
    ReachesAt(x, 9);
    SweepBegins(x);
    SweepGoesOn(x);
    var a := DaemonRuns(SweepRuns);
    Follow(x.timeout, x.All()[..9], x.Displayed(), a, StoppingState(x, CancelWritten));
    Follow(x.timeout, x.All()[..9] + [a], StoppingState(x, CancelWritten), a, StoppingState(x, ChannelClosed));
    Follow(x.timeout, x.All()[..9] + [a] + [a], StoppingState(x, ChannelClosed), a, Dropped(x));
    assert Reaches(x.timeout, x.All()[..9] + [a] + [a] + [a], Dropped(x));
  }
}
