/**
 * How the replies of a login are threaded through greeter, daemon and worker: the invariant behind the
 * relay, kept by every act of the three.
 */
module LoginRelay {
  import opened Wrappers
  import opened AuthMachine
  import opened AuthInvariants
  import AuthTheorems
  import opened AuthAgreement
  import opened AuthRelay
  import opened GreeterFlow
  import opened LoginSystem
  import opened LoginAgreement
  import opened LoginNames
  import opened LoginWorkers
  import opened SizeBounds
  import Utf8

  // ---------- the invariant ----------

  /** Every reply was given to the prompt it answers, as the response to its request had brought it. */
  predicate Prompted(s: Session) {
    AnswersTo(Answers(s.sent), Prompts(s.received), s.relayed)
  }

  predicate AnswersTo(answers: seq<ToWorker>, prompts: seq<Prompt>, relayed: seq<nat>) {
    forall k | 0 <= k < |answers| ::
      k < |prompts| && k < |relayed| && answers[k].Answer? && answers[k].shown == Shown(prompts[k], relayed[k])
  }

  /** A reply as `read_prompt_response` makes it for a prompt. */
  predicate ProperReply(response: Bytes, prompt: Prompt) {
    && KnownStyle(prompt.style)
    && if NeedsNoReply(prompt.style) then response == [] else |response| > 0 && !AuthFieldIsTooLong(response)
  }

  /** The daemon has delivered the prompt as its response to that request. */
  predicate WasShown(out: seq<Sent>, shown: Shown) {
    exists o :: 0 <= o < |out| && out[o] == Sent(Response(shown.request, Pending(shown.prompt)), true)
  }

  /** The replies on their way answer what the greeter displayed when they were entered. */
  predicate RepliesProper(w: World) {
    && (w.g.claim.ShowsPrompt? ==> KnownStyle(w.g.claim.shown.prompt.style) && WasShown(w.d.out, w.g.claim.shown))
    && (forall i | 0 <= i < |w.sent| && w.sent[i].Continue? ::
          ProperReply(w.sent[i].response, w.sent[i].shown.prompt) && WasShown(w.d.out, w.sent[i].shown))
  }

  /** No create-session stands in `sent` after position `from` up to position `to`. */
  predicate NoCreate(sent: seq<Body>, from: nat, to: nat) {
    forall j | from < j <= to && j < |sent| :: !sent[j].Create?
  }

  /** The session stems from its create-session, and its replies from requests before the next one. */
  predicate Situated(s: Session, sent: seq<Body>) {
    && s.request < |sent| && sent[s.request].Create? && Utf8.DecodeReplace(sent[s.request].username) == s.user
    && forall m <- Answers(s.sent) :: Comes(m, s.request, sent)
  }

  predicate Comes(m: ToWorker, request: nat, sent: seq<Body>) {
    m.Answer? ==>
      && m.request < |sent| && sent[m.request] == Continue(m.response, m.shown)
      && NoCreate(sent, request, m.request)
  }

  predicate SessionRelayed(s: Session, k: Worker, sent: seq<Body>) {
    Prompted(s) && Situated(s, sent) && WorkerOk(s, k)
  }

  predicate Relayed(w: World) {
    && Wired(w.d) && Threads(w.d)
    && |w.workers| == |w.d.sessions|
    && RepliesProper(w)
    && forall s | 0 <= s < |w.d.sessions| :: SessionRelayed(w.d.sessions[s], w.workers[s], w.sent)
  }

  // ---------- one session ----------

  lemma PromptedStep(s: Session, t: Session, answer: Option<ToWorker>, heard: Option<(FromWorker, nat)>)
    requires Prompted(s) && Wrote(s, t, answer) && HeardAtMost(s, t, heard)
    requires answer.Some? ==> answer.value.Answer? && Outstanding(s) && Shows(s, answer.value.shown) && |s.relayed| == |Prompts(s.received)|
    ensures Prompted(t)
  {
    hide Answers, Prompts;
    WroteAnswers(s, t, answer);
    if heard.Some? {
      ReceivedAppend(s.received, heard.value.0);
    }
    Aligned(Answers(s.sent), Prompts(s.received), s.relayed, Answers(t.sent), Prompts(t.received), t.relayed, answer);
  }

  lemma Aligned(answers: seq<ToWorker>, prompts: seq<Prompt>, relayed: seq<nat>,
                later: seq<ToWorker>, asked: seq<Prompt>, more: seq<nat>, answer: Option<ToWorker>)
    requires AnswersTo(answers, prompts, relayed) && prompts <= asked && relayed <= more
    requires later == answers || (answer.Some? && later == answers + [answer.value])
    requires answer.Some? ==>
               && answer.value.Answer? && |prompts| == |answers| + 1 == |relayed|
               && answer.value.shown == Shown(prompts[|answers|], relayed[|answers|])
    ensures AnswersTo(later, asked, more)
  {
  }

  lemma SituatedStep(s: Session, t: Session, sent: seq<Body>, answer: Option<ToWorker>)
    requires Situated(s, sent) && Wrote(s, t, answer) && t.request == s.request && t.user == s.user
    requires answer.Some? ==> answer.value.Answer? && Comes(answer.value, s.request, sent)
    ensures Situated(t, sent)
  {
    hide Answers, Utf8.DecodeReplace, NoCreate;
    WroteAnswers(s, t, answer);
  }

  /** More requests of the greeter change nothing for a session. */
  lemma SituatedGrows(s: Session, sent: seq<Body>, more: seq<Body>)
    requires Situated(s, sent) && sent <= more
    ensures Situated(s, more)
  {
    hide Answers, Utf8.DecodeReplace;
    forall m <- Answers(s.sent)
      ensures Comes(m, s.request, more)
    {
      assert Comes(m, s.request, sent);
    }
  }

  // ---------- forwarding a reply ----------

  /** The reply being forwarded answers the prompt the current session's worker asked last. */
  lemma ForwardedMeetsPrompt(w: World, l: Label)
    requires Consistent(w) && DaemonMay(w, l) && Forwards(w.d, l)
    ensures Outstanding(w.d.sessions[w.d.cur.value]) && Shows(w.d.sessions[w.d.cur.value], l.request.body.shown)
  {
    hide LastOf, Lapsed, Numbered, Grounded, Starting, Outstanding, Shows, Inv;
    AuthTheorems.IdleOutstanding(w.d);
  }

  /** No create-session was read between that of the current session and the reply being forwarded. */
  lemma ForwardedComes(w: World, l: Label)
    requires Consistent(w) && Named(w) && DaemonMay(w, l) && Forwards(w.d, l)
    ensures Forwarded(w.d, l).Some? && Comes(Forwarded(w.d, l).value, w.d.sessions[w.d.cur.value].request, w.sent)
  {
    hide Inv, Utf8.DecodeReplace, LastCreate, LastAccept, LastOf;
    CurrentIsLastAccepted(w.d);
    var n := |w.d.requests|;
    var i := LastCreate(w.sent[..n]);
    assert i == Some(w.d.sessions[w.d.cur.value].request);
    forall j | i.value < j <= n
      ensures !w.sent[j].Create?
    {
      assert j < n ==> w.sent[..n][j] == w.sent[j];
    }
  }

  /** A session being started stems from the create-session the handler read last. */
  lemma SpawningIsLastAccepted(w: World)
    requires Consistent(w) && Named(w) && w.d.handler.Spawning?
    ensures var id := w.d.handler.id;
            id < |w.sent| && w.sent[id].Create? && Utf8.DecodeReplace(w.sent[id].username) == w.d.handler.user
  {
    hide ChannelOk, TimerOk, SpawnsAreAuthorized, ResponsesOk, Outstanding, TimersOk, Utf8.DecodeReplace, LastCreate, LastOf,
      Described, Lapsed, Numbered, Grounded, Starting, Answering;
    assert Accepted(w.d.log, w.d.handler.user, w.d.handler.id);
    var n := |w.d.requests|;
    assert CreatedBy(w.sent[..n]) == Some((w.d.handler.user, w.d.handler.id));
    assert w.sent[..n][w.d.handler.id] == w.sent[w.d.handler.id];
  }

  // ---------- steps of the daemon ----------

  lemma SessionStep(w: World, l: Label, s: SessionId)
    requires Consistent(w) && Named(w) && Relayed(w) && DaemonMay(w, l) && s < |w.d.sessions|
    requires |w.d.sessions| <= |Step(w.d, l).sessions|
    ensures SessionRelayed(Step(w.d, l).sessions[s], w.workers[s], w.sent)
  {
    hide Consistent, Named, Answers, Prompts, WorkerOk, Prompted, Situated, Comes, Step, Forwards, Outstanding, Shows, Talks, Threads;
    StepTalks(w.d, l);
    var a := w.d.sessions[s];
    var b := Step(w.d, l).sessions[s];
    var mine := Listening(w.d, l) == Some(s);
    var answer := if mine then Forwarded(w.d, l) else None;
    var heard := if mine then HeardBy(w.d, l) else None;
    TalksAt(w.d, Step(w.d, l), Listening(w.d, l), Forwarded(w.d, l), HeardBy(w.d, l), s);
    if answer.Some? {
      ForwardedIsCurrent(w.d, l);
      ForwardedMeetsPrompt(w, l);
      ForwardedComes(w, l);
    }
    ThreadLength(w.d, s);
    PromptedStep(a, b, answer, heard);
    SituatedStep(a, b, w.sent, answer);
    if b.received == a.received {
      WriteKeepsWorker(a, b, w.workers[s]);
    } else {
      HearKeepsWorker(a, b, w.workers[s], heard.value.0);
    }
  }

  lemma ThreadLength(d: Daemon, s: SessionId)
    requires Wired(d) && Threads(d) && s < |d.sessions|
    ensures |d.sessions[s].relayed| == |Prompts(d.sessions[s].received)|
  {
    hide Prompts, Answers;
    assert Threaded(d.sessions[s]);
  }

  lemma ForwardedIsCurrent(d: Daemon, l: Label)
    requires Wired(d) && Forwarded(d, l).Some?
    ensures Forwards(d, l) && Listening(d, l) == d.cur
  {
  }

  lemma NewSessionRelayed(s: Session, id: nat, user: string, sent: seq<Body>)
    requires IsNew(s, id, user)
    requires id < |sent| && sent[id].Create? && Utf8.DecodeReplace(sent[id].username) == user
    ensures SessionRelayed(s, NewWorker(), sent)
  {
    hide Utf8.DecodeReplace, WorkerOk;
    NewThread(s, id, user, id + 1);
    NewWorkerOk(s);
  }

  lemma DaemonRelays(w: World, l: Label)
    requires Consistent(w) && Named(w) && Relayed(w) && DaemonMay(w, l)
    ensures Relayed(Do(w, DaemonRuns(l)))
  {
    hide Consistent, Named, Threads, SessionRelayed, Step, RepliesProper, Talks, IsNew;
    var e := Do(w, DaemonRuns(l));
    ConsistentDaemon(w);
    ConsistentTurn(w, l);
    StepTalks(w.d, l);
    SessionCount(w.d, l);
    ThreadsStep(w.d, l);
    forall s | 0 <= s < |e.d.sessions|
      ensures SessionRelayed(e.d.sessions[s], e.workers[s], e.sent)
    {
      if s < |w.d.sessions| {
        SessionStep(w, l, s);
      } else {
        SpawningIsLastAccepted(w);
        NewestIsNew(w.d, e.d, l);
        NewSessionRelayed(e.d.sessions[s], w.d.handler.id, w.d.handler.user, w.sent);
      }
    }
    OutGrows(w.d, l);
    RepliesSame(w, e);
  }

  lemma NewestIsNew(d: Daemon, e: Daemon, l: Label)
    requires Wired(d) && Talks(d, e, Listening(d, l), Forwarded(d, l), HeardBy(d, l)) && |e.sessions| > |d.sessions|
    ensures d.handler.Spawning? && IsNew(e.sessions[|d.sessions|], d.handler.id, d.handler.user)
  {
  }

  lemma ConsistentTurn(w: World, l: Label)
    requires Consistent(w) && DaemonMay(w, l)
    ensures InTurn(w.d, l) && (Owed(w.d.handler).Some? ==> Owed(w.d.handler).value == |w.d.requests| - 1)
  {
    AgreesOwed(w.d);
  }

  lemma OutGrows(d: Daemon, l: Label)
    requires Wired(d) && Enabled(d, l) && InTurn(d, l)
    requires Owed(d.handler).Some? ==> Owed(d.handler).value == |d.requests| - 1
    ensures d.out <= Step(d, l).out
  {
    hide Step;
    StepMoves(d, l);
  }

  lemma ShownStays(out: seq<Sent>, more: seq<Sent>, shown: Shown)
    requires WasShown(out, shown) && out <= more
    ensures WasShown(more, shown)
  {
    var o :| 0 <= o < |out| && out[o] == Sent(Response(shown.request, Pending(shown.prompt)), true);
    assert more[o] == out[o];
  }

  lemma RepliesSame(w: World, e: World)
    requires RepliesProper(w) && e.g == w.g && e.sent == w.sent && w.d.out <= e.d.out
    ensures RepliesProper(e)
  {
    hide ProperReply, WasShown;
    if w.g.claim.ShowsPrompt? {
      ShownStays(w.d.out, e.d.out, w.g.claim.shown);
    }
    forall i | 0 <= i < |e.sent| && e.sent[i].Continue?
      ensures ProperReply(e.sent[i].response, e.sent[i].shown.prompt) && WasShown(e.d.out, e.sent[i].shown)
    {
      ShownStays(w.d.out, e.d.out, w.sent[i].shown);
    }
  }

  lemma ConsistentDaemon(w: World)
    requires Consistent(w)
    ensures Inv(w.d)
  {
  }

  // ---------- steps of the greeter ----------

  /** The greeter moves; the channels of the workers stay as they are. */
  lemma GreeterRelays(w: World, e: World)
    requires Relayed(w) && RepliesProper(e)
    requires e.d == w.d && e.workers == w.workers && w.sent <= e.sent
    ensures Relayed(e)
  {
    hide Threads, RepliesProper, Prompted, Situated, WorkerOk;
    forall s | 0 <= s < |e.d.sessions|
      ensures SessionRelayed(e.d.sessions[s], e.workers[s], e.sent)
    {
      SituatedGrows(e.d.sessions[s], w.sent, e.sent);
    }
  }

  lemma MessageReplies(w: World)
    requires RepliesProper(w) && May(w, GreeterReads)
    ensures RepliesProper(Do(w, GreeterReads)) && w.sent <= Do(w, GreeterReads).sent
  {
    hide AuthFieldIsTooLong, ProperReply, WasShown, KnownStyle;
    var Sent(m, delivered) := w.d.out[w.read];
    if delivered && m.Response? && m.reply.Pending? {
      ShownNow(w.d.out, w.read, Shown(m.reply.prompt, m.id));
    }
  }

  lemma ShownNow(out: seq<Sent>, o: nat, shown: Shown)
    requires o < |out| && out[o] == Sent(Response(shown.request, Pending(shown.prompt)), true)
    ensures WasShown(out, shown)
  {
  }

  lemma LoginReplies(w: World, entered: Bytes, command: string)
    requires RepliesProper(w) && May(w, Login(entered, command))
    ensures RepliesProper(Do(w, Login(entered, command))) && w.sent <= Do(w, Login(entered, command)).sent
  {
    hide AuthFieldIsTooLong, WasShown;
  }

  // ---------- steps of the workers ----------

  lemma StartFirst(d: Daemon, s: SessionId)
    requires Inv(d) && s < |d.sessions|
    ensures |d.sessions[s].sent| > 0 && d.sessions[s].sent[0].Start?
  {
    hide TimerOk, SpawnsAreAuthorized, LogOk, ResponsesOk, Outstanding, CurOk, TimersOk;
    assert ChannelOk(d.sessions[s]);
  }

  lemma WorkerRelays(w: World, k: SessionId, worker: Worker)
    requires Relayed(w) && k < |w.workers| && WorkerOk(w.d.sessions[k], worker)
    ensures Relayed(SetWorker(w, k, worker))
  {
    hide WorkerOk, Prompted, Situated, Threads;
  }

  lemma WorkerFacts(w: World, k: SessionId)
    requires Relayed(w) && k < |w.workers|
    ensures k < |w.d.sessions| && WorkerOk(w.d.sessions[k], w.workers[k])
    ensures w.workers[k].asking || w.workers[k].batch.Some? ==> w.workers[k].consumed > 0
  {
    hide Prompted, Situated, Threads, Fed, Prompts, Filled, Replies;
  }

  lemma WorkerDoes(w: World, a: Act)
    requires Relayed(w) && May(w, a)
    requires a.WorkerStarts? || a.PamCalls? || a.WorkerAsks? || a.WorkerHears? || a.WorkerLosesDaemon? || a.PamGetsArray? || a.WorkerEnds?
    ensures Relayed(Do(w, a))
  {
    hide Relayed, WorkerOk, Asks, Hear, Broken, Return;
    var k := a.worker;
    WorkerFacts(w, k);
    var s, worker := w.d.sessions[k], w.workers[k];
    match a {
    case WorkerStarts(_) => StartedKeepsWorker(s, worker);
    case PamCalls(_, messages) => CalledKeepsWorker(s, worker, messages);
    case WorkerAsks(_) => AskedKeepsWorker(s, worker);
    case WorkerHears(_) => HeardKeepsWorker(s, worker);
    case WorkerLosesDaemon(_) => BrokenKeepsWorker(s, worker);
    case PamGetsArray(_) => ReturnKeepsWorker(s, worker);
    case WorkerEnds(_, ready, code) => EndedKeepsWorker(s, worker, if ready then IsReady else HasFailed(code));
    }
    WorkerRelays(w, k, Do(w, a).workers[k]);
  }

  lemma DoRelays(w: World, a: Act)
    requires Consistent(w) && Named(w) && Relayed(w) && May(w, a)
    ensures Relayed(Do(w, a))
  {
    hide Consistent, Named, Step, OnMessage, OnLogin, SessionRelayed, ProperReply, Threads, WasShown;
    match a
    case DaemonRuns(l) => DaemonRelays(w, l);
    case GreeterReads =>
      MessageReplies(w);
      GreeterRelays(w, Do(w, a));
    case Login(entered, command) =>
      LoginReplies(w, entered, command);
      GreeterRelays(w, Do(w, a));
    case CancelClicked => GreeterRelays(w, Do(w, a));
    case PowerClicked => GreeterRelays(w, Do(w, a));
    case GreeterLost => GreeterRelays(w, Do(w, a));
    case _ => WorkerDoes(w, a);
  }

  lemma BeginRelayed(timeout: int)
    ensures Relayed(Begin(timeout))
  {
  }

  lemma {:induction false} PlayRelays(timeout: int, states: seq<World>, acts: seq<Act>, n: nat)
    requires Play(timeout, states, acts) && n < |states|
    ensures Consistent(states[n]) && Relayed(states[n])
  {
    hide Consistent, Named, Relayed, Do, May;
    PlayNames(timeout, states, acts, n);
    if n == 0 {
      BeginRelayed(timeout);
    } else {
      PlayRelays(timeout, states, acts, n - 1);
      PlayNames(timeout, states, acts, n - 1);
      assert Acts(states, acts, n - 1);
      DoRelays(states[n - 1], acts[n - 1]);
    }
  }
}
