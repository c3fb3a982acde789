/**
 * What the daemon's answers mean to the greeter that asked: every answer fits the request it answers, and
 * an answered cancel-session has ended the daemon's session.
 */
module LoginAnswers {
  import opened AuthMachine
  import opened AuthInvariants
  import opened AuthAgreement
  import opened GreeterFlow
  import opened LoginSystem
  import opened LoginAgreement
  import opened LoginTearDown
  import opened SizeBounds
  import AuthTheorems
  import Utf8

  // ---------- answers fit their requests ----------

  /** The answers that a request may get. */
  predicate Fitting(body: Body, reply: Reply) {
    match body
    case Create(_) => reply.Pending? || reply.Ready? || reply.Refused?
    case Continue(_, _) => reply.Pending? || reply.Ready? || reply.Refused?
    case CancelSession => reply == Done
    case StartSession(_) => reply == Done || reply.Refused?
    case Query => reply == Info
  }

  /** The handler is working on such a request. */
  predicate Serves(h: Handler, body: Body) {
    match h
    case Spawning(_, _) => body.Create?
    case FirstMessage(_, _) => body.Create?
    case Replying(_, _) => body.Continue?
    case Raising(_) => body.Continue?
    case Stopping(_, _, ThenCreate(_, _)) => body.Create?
    case Stopping(_, _, ThenRefuse(_, _, _)) => body.Create? || body.Continue?
    case Stopping(_, _, ThenAccept(_)) => body.CancelSession?
    case _ => true
  }

  /** One step that works on a request with this body goes on doing so, or answers it fittingly. */
  predicate ServesOn(d: Daemon, e: Daemon, body: Body) {
    && Serves(e.handler, body)
    && (|e.out| > |d.out| && e.out[|d.out|].message.Response? ==> Fitting(body, e.out[|d.out|].message.reply))
  }

  lemma StopServes(d: Daemon, sendCancel: bool, after: After, body: Body)
    requires Wired(d)
    requires match after
             case ThenCreate(_, _) => body.Create?
             case ThenRefuse(_, _, _) => body.Create? || body.Continue?
             case ThenAccept(_) => body.CancelSession?
             case ThenExit => true
    ensures ServesOn(d, StopSession(d, sendCancel, after), body)
  {
    hide CancelTimeout;
    CancelMoves(d);
  }

  lemma RequestServes(d: Daemon, r: Request, fits: bool)
    requires Wired(d) && d.handler.Idle?
    ensures ServesOn(d, OnRequest(d, r, fits), r.body)
  {
    hide StopSession, CancelTimeout, Utf8.DecodeReplace, AuthFieldIsTooLong;
    var n := d.(requests := d.requests + [r.id]);
    CancelMoves(n);
    match r.body
    case Create(username) =>
      var user := Utf8.DecodeReplace(username);
      StopServes(Note(n, LAccept(user, r.id)), true, ThenCreate(r.id, user), r.body);
    case CancelSession => StopServes(Note(n, LCancel), true, ThenAccept(r.id), r.body);
    case _ =>
  }

  lemma WorkerServes(d: Daemon, m: FromWorker, fits: bool, body: Body)
    requires Wired(d) && Awaited(d.handler).Some? && Serves(d.handler, body)
    ensures ServesOn(d, OnWorker(d, m, fits), body)
  {
    hide StopSession, CancelTimeout;
    var n := Heard(d, m);
    CancelMoves(n);
    match m
    case Asked(_) =>
    case IsReady =>
    case HasFailed(code) => StopServes(n, false, ThenRefuse(d.handler.id, code, fits), body);
    case Closed => StopServes(n, false, ThenRefuse(d.handler.id, "auth_failed", true), body);
    case Unexpected => StopServes(Note(n, LExit), true, ThenExit, body);
  }

  lemma StepServes(d: Daemon, l: Label, body: Body)
    requires Wired(d) && Enabled(d, l) && (if l.Receive? then body == l.request.body else Serves(d.handler, body))
    ensures ServesOn(d, Step(d, l), body)
  {
    hide OnRequest, OnWorker, StopSession, OnTimer, OnSweep, CancelTimeout;
    match l
    case Receive(r, fits) => RequestServes(d, r, fits);
    case WorkerSays(m, fits) => WorkerServes(d, m, fits, body);
    case ReceiveEnd => StopServes(Note(d, LExit), true, ThenExit, body);
    case WorkerFails => StopServes(Note(d, LExit), true, ThenExit, body);
    case TimerRuns(t) => TimerMoves(d, t);
    case SweepRuns => SweepMoves(d);
    case _ => CancelMoves(d);
  }

  /** The answers given so far fit, and so will the one that is owed. */
  predicate Suited(w: World) {
    && (forall j | 0 <= j < |w.d.out| && w.d.out[j].message.Response? ::
          w.d.out[j].message.id < |w.sent| && Fitting(w.sent[w.d.out[j].message.id], w.d.out[j].message.reply))
    && (Owed(w.d.handler).Some? ==>
          Owed(w.d.handler).value < |w.sent| && Serves(w.d.handler, w.sent[Owed(w.d.handler).value]))
  }

  lemma DaemonSuits(w: World, l: Label)
    requires Consistent(w) && Suited(w) && DaemonMay(w, l)
    ensures Suited(Do(w, DaemonRuns(l)))
  {
    hide Inv, Described, Lapsed, Grounded, Starting, Answering, Coherent, Step, Fitting, Serves, LastOf;
    AgreesOwed(w.d);
    DaemonKeepsQueue(w, l);
    StepMoves(w.d, l);
    var e := Step(w.d, l);
    if l.Receive? {
      StepServes(w.d, l, l.request.body);
    } else if Owed(w.d.handler).Some? {
      StepServes(w.d, l, w.sent[Owed(w.d.handler).value]);
    }
    forall j | 0 <= j < |e.out| && e.out[j].message.Response?
      ensures e.out[j].message.id < |w.sent| && Fitting(w.sent[e.out[j].message.id], e.out[j].message.reply)
    {
      if j < |w.d.out| {
        assert e.out[j] == w.d.out[j];
      }
    }
  }

  lemma SentSuits(w: World, e: World)
    requires Suited(w) && e.d == w.d && w.sent <= e.sent
    ensures Suited(e)
  {
    hide Fitting, Serves;
  }

  lemma DoSuits(w: World, a: Act)
    requires Consistent(w) && Suited(w) && May(w, a)
    ensures Suited(Do(w, a)) && w.sent <= Do(w, a).sent
  {
    hide Consistent, Suited, Step, OnMessage, OnLogin, OnCancel, Hear, Asks, Broken, Return;
    if a.DaemonRuns? {
      DaemonSuits(w, a.task);
    } else {
      SentSuits(w, Do(w, a));
    }
  }

  lemma {:induction false} PlaySuits(timeout: int, states: seq<World>, acts: seq<Act>, n: nat)
    requires Play(timeout, states, acts) && n < |states|
    ensures Suited(states[n])
  {
    hide Consistent, Do, May;
    if n > 0 {
      hide Suited;
      PlaySuits(timeout, states, acts, n - 1);
      PlayKeeps(timeout, states, acts, n - 1);
      assert Acts(states, acts, n - 1);
      DoSuits(states[n - 1], acts[n - 1]);
    }
  }

  /**
   * In every reachable state, each answer of the daemon's carries the number of a request that the greeter
   * sent, and is one that this kind of request may get.
   */
  lemma EveryAnswerFits(timeout: int, states: seq<World>, acts: seq<Act>, n: nat, j: nat)
    requires Play(timeout, states, acts) && n < |states|
    requires j < |states[n].d.out| && states[n].d.out[j].message.Response?
    ensures var w := states[n];
            var m := w.d.out[j].message;
            m.id < |w.sent| && Fitting(w.sent[m.id], m.reply)
  {
    hide Play, Fitting, Serves;
    PlaySuits(timeout, states, acts, n);
  }

  // ---------- an answered cancel-session ----------

  /** A request that was answered with `Done`, and nothing more, leaves no current session. */
  predicate DoneClears(d: Daemon) {
    Owed(d.handler).None? && AuthTheorems.Orderly(d) && LastOf(d.out).Last? && LastOf(d.out).reply.Done? ==> d.cur.None?
  }

  /** A step that answers `Done` leaves no current session. */
  lemma DoneStep(d: Daemon, l: Label)
    requires Wired(d) && Enabled(d, l)
    requires |Step(d, l).out| > |d.out| && Step(d, l).out[|d.out|].message.Response?
    requires Step(d, l).out[|d.out|].message.reply.Done?
    ensures Step(d, l).cur.None?
  {
    hide OnRequest, OnWorker, StopSession, OnTimer, OnSweep, CancelTimeout;
    match l
    case Receive(r, fits) => DoneRequest(d, r, fits);
    case WorkerSays(m, fits) => DoneWorker(d, m, fits);
    case ReceiveEnd => ExitMoves(d);
    case WorkerFails => ExitMoves(d);
    case TimerRuns(t) => TimerMoves(d, t);
    case SweepRuns => SweepMoves(d);
    case _ => CancelMoves(d);
  }

  lemma DoneRequest(d: Daemon, r: Request, fits: bool)
    requires Wired(d) && d.handler.Idle?
    ensures var e := OnRequest(d, r, fits);
            |e.out| > |d.out| && e.out[|d.out|].message.Response? && e.out[|d.out|].message.reply.Done? ==> e.cur.None?
  {
    hide StopSession, CancelTimeout, Utf8.DecodeReplace, AuthFieldIsTooLong;
    var n := d.(requests := d.requests + [r.id]);
    CancelMoves(n);
    match r.body
    case Create(username) =>
      var user := Utf8.DecodeReplace(username);
      StopMoves(Note(n, LAccept(user, r.id)), true, ThenCreate(r.id, user));
    case CancelSession =>
      StopMoves(Note(n, LCancel), true, ThenAccept(r.id));
      if n.cur.None? {
        NoneStops(Note(n, LCancel), ThenAccept(r.id));
      }
    case _ =>
  }

  lemma DoneWorker(d: Daemon, m: FromWorker, fits: bool)
    requires Wired(d) && Awaited(d.handler).Some?
    ensures var e := OnWorker(d, m, fits);
            |e.out| > |d.out| && e.out[|d.out|].message.Response? ==> !e.out[|d.out|].message.reply.Done?
  {
    hide StopSession, CancelTimeout;
    var n := Heard(d, m);
    CancelMoves(n);
    match m
    case Asked(_) =>
    case IsReady =>
    case HasFailed(code) => StopMoves(n, false, ThenRefuse(d.handler.id, code, fits));
    case Closed => StopMoves(n, false, ThenRefuse(d.handler.id, "auth_failed", true));
    case Unexpected => StopMoves(Note(n, LExit), true, ThenExit);
  }

  lemma StepDoneClears(d: Daemon, l: Label)
    requires Agrees(d) && Wired(d) && Enabled(d, l) && InTurn(d, l) && DoneClears(d)
    ensures DoneClears(Step(d, l))
  {
    hide Inv, Described, Lapsed, Numbered, Step, LastOf, Responded, AuthTheorems.Breaks;
    AgreesOwed(d);
    StepMoves(d, l);
    var e := Step(d, l);
    if |e.out| > |d.out| {
      LastAppend(d.out, e.out[|d.out|]);
    }
    if Owed(e.handler).None? && AuthTheorems.Orderly(e) && LastOf(e.out).Last? && LastOf(e.out).reply.Done? {
      if |e.out| > |d.out| && Weighty(e.out[|d.out|].message) {
        DoneStep(d, l);
      } else if AuthTheorems.Breaks(l) {
        BrokenIsDisorderly(d, l);
      } else {
        SilentSteps(d, l);
        NoNewSession(d, l);
      }
    }
  }

  /** Some request that the handler may be working on. */
  function ServedBy(h: Handler): (body: Body)
    ensures Serves(h, body) && !body.Query?
  {
    match h
    case Replying(_, _) => Continue([], Shown(Prompt("", ""), 0))
    case Raising(_) => Continue([], Shown(Prompt("", ""), 0))
    case Stopping(_, _, ThenAccept(_)) => CancelSession
    case _ => Create([])
  }

  /** A step without an answer that matters ends with nothing owed only if nothing was owed before. */
  lemma SilentSteps(d: Daemon, l: Label)
    requires Agrees(d) && Wired(d) && Enabled(d, l) && InTurn(d, l) && !AuthTheorems.Breaks(l)
    requires var e := Step(d, l);
             && Owed(e.handler).None? && AuthTheorems.Orderly(e)
             && (|e.out| > |d.out| ==> !Weighty(e.out[|d.out|].message))
    ensures Owed(d.handler).None? && AuthTheorems.Orderly(d)
  {
    hide Inv, Described, Lapsed, Numbered, LastOf, Responded, Step, Serves;
    var e := Step(d, l);
    AuthTheorems.InvResponses(d);
    AgreesOwed(d);
    if Owed(d.handler).Some? {
      OwedIsBusy(d, l);
      StepMoves(d, l);
      StepServes(d, l, ServedBy(d.handler));
      GrowsOnlyByReceive(d, l);
      if |e.out| > |d.out| {
        OutAppend(d.out, e.out[|d.out|]);
      }
      assert false;
    } else if Exiting(d.handler) {
      AuthTheorems.ExitingStays(d, l);
    }
  }

  lemma OwedIsBusy(d: Daemon, l: Label)
    requires Wired(d) && Enabled(d, l) && Owed(d.handler).Some?
    ensures !l.Receive?
  {
  }

  lemma DaemonDone(w: World, l: Label)
    requires Consistent(w) && DoneClears(w.d) && DaemonMay(w, l)
    ensures DoneClears(Do(w, DaemonRuns(l)).d)
  {
    hide Inv, Described, Lapsed, Grounded, Starting, Answering, Coherent, Step, LastOf, DoneClears;
    AgreesOwed(w.d);
    DaemonKeepsQueue(w, l);
    StepDoneClears(w.d, l);
  }

  lemma {:induction false} PlayDone(timeout: int, states: seq<World>, acts: seq<Act>, n: nat)
    requires Play(timeout, states, acts) && n < |states|
    ensures DoneClears(states[n].d)
  {
    hide Consistent, Do, May;
    if n > 0 {
      hide DoneClears;
      PlayDone(timeout, states, acts, n - 1);
      PlayKeeps(timeout, states, acts, n - 1);
      assert Acts(states, acts, n - 1);
      ActDone(states[n - 1], acts[n - 1]);
    }
  }

  lemma ActDone(w: World, a: Act)
    requires Consistent(w) && May(w, a) && DoneClears(w.d)
    ensures DoneClears(Do(w, a).d)
  {
    hide Consistent, DoneClears, Step, OnMessage, OnLogin, OnCancel, Hear, Asks, Broken, Return;
    if a.DaemonRuns? {
      DaemonDone(w, a.task);
    }
  }

  lemma {:induction false} SentGrows(timeout: int, states: seq<World>, acts: seq<Act>, m: nat, n: nat)
    requires Play(timeout, states, acts) && m <= n < |states|
    ensures states[m].sent <= states[n].sent
    decreases n
  {
    hide Consistent, Suited, Do, May;
    if m < n {
      SentGrows(timeout, states, acts, m, n - 1);
      PlayKeeps(timeout, states, acts, n - 1);
      PlaySuits(timeout, states, acts, n - 1);
      assert Acts(states, acts, n - 1);
      DoSuits(states[n - 1], acts[n - 1]);
    }
  }

  /** What a click of the user sends. */
  lemma ClicksSend(w: World, entered: Bytes, command: string)
    ensures May(w, Login(entered, command)) ==>
              Do(w, Login(entered, command)).sent ==
              w.sent + (var r := Requested(w.g, entered, command); if r.Some? then [r.value] else [])
    ensures May(w, CancelClicked) ==>
              Do(w, CancelClicked).sent == w.sent + if w.g.claim.Nothing? then [] else [CancelSession]
  {
    ClicksAsk(w.g, |w.sent|, entered, command);
  }

  /**
   * A click on cancel while something is on the screen asks the daemon to cancel it; when the greeter reads
   * the answer, the answer is an acceptance, the daemon has no current session, and the screen is cleared.
   */
  lemma CancelIsHeeded(timeout: int, states: seq<World>, acts: seq<Act>, m: nat, n: nat)
    requires Play(timeout, states, acts) && m < n < |acts| && acts[m].CancelClicked? && !states[m].g.claim.Nothing?
    requires var id := |states[m].sent|;
             && acts[n].GreeterReads? && states[n].read < |states[n].d.out| && states[n].g.call == Waiting(id, ForCancel)
             && states[n].d.out[states[n].read].delivered && states[n].d.out[states[n].read].message.Response?
             && states[n].d.out[states[n].read].message.id == id
    ensures states[m + 1].sent == states[m].sent + [CancelSession]
    ensures states[n].d.out[states[n].read].message.reply == Done && states[n].d.cur.None?
    ensures states[n + 1].g.claim.Nothing? && !states[n + 1].g.busy
  {
    hide Consistent, DoneClears, Suited, May, Step, Hear, Asks, Broken, Return, OnLogin;
    assert Acts(states, acts, m) && Acts(states, acts, n);
    ClicksSend(states[m], [], "");
    SentGrows(timeout, states, acts, m + 1, n);
    PlayKeeps(timeout, states, acts, n);
    PlaySuits(timeout, states, acts, n);
    PlayDone(timeout, states, acts, n);
    AnsweredCancel(states[n], |states[m].sent|);
  }

  lemma AnsweredCancel(w: World, id: nat)
    requires Consistent(w) && Suited(w) && DoneClears(w.d) && w.read < |w.d.out|
    requires w.g.call == Waiting(id, ForCancel) && id < |w.sent| && w.sent[id] == CancelSession
    requires w.d.out[w.read].message.Response? && w.d.out[w.read].message.id == id
    ensures w.d.out[w.read].message.reply == Done && w.d.cur.None?
  {
    hide Consistent, AuthTheorems.Orderly, LastOf, Serves;
    AwaitedIsOrderly(w);
  }

  /** A retryable refusal makes the greeter ask again for the user it was asking for, and no other answer does. */
  lemma RetryAsksAgain(w: World)
    requires May(w, GreeterReads) && w.d.out[w.read].delivered && w.d.out[w.read].message.Response?
    ensures var m := w.d.out[w.read].message;
            Do(w, GreeterReads).sent ==
            if w.g.call.Waiting? && w.g.call.id == m.id && w.g.call.kind.ForContinue?
               && m.reply == Refused("auth_retryable") && w.g.call.kind.retry != [] then
              w.sent + [Create(w.g.call.kind.retry)]
            else w.sent
  {
  }
}
