/** Greeter and daemon agree: the greeter never claims more of a conversation than the daemon holds. */
module LoginAgreement {
  import opened AuthMachine
  import opened AuthInvariants
  import opened AuthAgreement
  import opened GreeterFlow
  import opened LoginSystem
  import opened SizeBounds
  import AuthTheorems

  // ---------- the invariant ----------

  predicate Queued(w: World) {
    && |w.d.requests| <= |w.sent|
    && w.read <= |w.d.out|
    && |w.workers| == |w.d.sessions|
  }

  /** The greeter's own flags and the request it waits on. */
  predicate Coherent(w: World) {
    && (w.g.quit ==> w.g.claim.Nothing? && w.g.call.NoCall?)
    && (w.g.call.Waiting? ==>
          && w.g.call.id + 1 == |w.sent|
          && (w.g.call.kind.ForQuery? <==> w.sent[w.g.call.id].Query?)
          && (w.g.call.kind.ForStart? <==> w.sent[w.g.call.id].StartSession?)
          && (w.g.call.kind.ForStart? ==> !w.g.started && !w.g.claim.ShowsPrompt?)
          && (!w.g.call.kind.ForQuery? && !w.g.claim.Nothing? ==> w.g.busy))
    && (w.g.started && !w.g.claim.Nothing? ==> w.g.busy && w.g.claim.ShowsReady?)
  }

  predicate Matches(claim: Claim, last: Last) {
    last.Last? && match claim
                  case Nothing => false
                  case ShowsPrompt(shown) => last.reply == Pending(shown.prompt) && last.id == shown.request
                  case ShowsReady => last.reply == Ready
  }

  /** The greeter is at rest with something on its screen that the daemon should know about. */
  predicate Claims(w: World) {
    && (w.g.call.NoCall? || w.g.call.kind.ForQuery?)
    && (w.g.claim.ShowsPrompt? || (w.g.claim.ShowsReady? && !w.g.started && Up(w.d)))
  }

  /** What a greeter at rest shows comes from the daemon's last answer, which it has read. */
  predicate Grounded(w: World)
    requires Queued(w)
  {
    Claims(w) ==>
      && Owed(w.d.handler).None?
      && |w.sent| <= |w.d.requests| + (if w.g.call.NoCall? then 0 else 1)
      && Matches(w.g.claim, LastOf(w.d.out))
      && Matches(w.g.claim, LastOf(w.d.out[..w.read]))
      && LastOf(w.d.out).index == LastOf(w.d.out[..w.read]).index
      && !LastOf(w.d.out[..w.read]).expired
  }

  /** A start-session sent for a ready session is going to be accepted. */
  predicate Starting(w: World) {
    Up(w.d) && w.g.call.Waiting? && w.g.call.kind.ForStart? && w.g.claim.ShowsReady? ==>
      && Owed(w.d.handler).None?
      && LastOf(w.d.out).Last?
      && (|w.d.requests| == w.g.call.id ==> LastOf(w.d.out).reply == Ready)
      && (|w.d.requests| == w.g.call.id + 1 ==> LastOf(w.d.out).reply == Done)
      && w.g.call.id <= |w.d.requests|
  }

  /** A reply on its way to the daemon answers the prompt that the daemon passed on last. */
  predicate Answering(w: World) {
    && (|w.d.requests| < |w.sent| && w.sent[|w.d.requests|].Continue? ==>
          && Owed(w.d.handler).None?
          && LastOf(w.d.out).Last?
          && LastOf(w.d.out).reply == Pending(w.sent[|w.d.requests|].shown.prompt)
          && LastOf(w.d.out).id == w.sent[|w.d.requests|].shown.request)
    && (forall i | |w.d.requests| < i < |w.sent| :: !w.sent[i].Continue?)
  }

  predicate Consistent(w: World) {
    Agrees(w.d) && Queued(w) && Coherent(w) && Grounded(w) && Starting(w) && Answering(w)
  }

  // ---------- the daemon's queue ----------

  lemma {:induction false} PrefixLast(out: seq<Sent>, n: nat)
    requires n <= |out|
    ensures LastOf(out[..n]).Last? ==> LastOf(out).Last? && LastOf(out[..n]).index <= LastOf(out).index
    decreases |out|
  {
    LastInRange(out[..n]);
    if n < |out| {
      PrefixLast(out[..|out| - 1], n);
      assert out[..|out| - 1][..n] == out[..n];
    } else {
      assert out[..n] == out;
    }
  }

  /** If nothing after position `n` is an answer, the last answer of the first `n + 1` messages stays the last. */
  lemma {:induction false} NothingAfter(out: seq<Sent>, n: nat)
    requires n < |out| && forall j | n < j < |out| :: !out[j].message.Response?
    ensures var early := LastOf(out[..n + 1]);
            var last := LastOf(out);
            (early.Last? <==> last.Last?) && (early.Last? ==> early.(expired := last.expired) == last)
    decreases |out|
  {
    if n + 1 < |out| {
      NothingAfter(out[..|out| - 1], n);
      assert out[..|out| - 1][..n + 1] == out[..n + 1];
    } else {
      assert out[..n + 1] == out;
    }
  }

  lemma LastStep(out: seq<Sent>, n: nat)
    requires n < |out|
    ensures var before := LastOf(out[..n]);
            LastOf(out[..n + 1]) ==
            if Weighty(out[n].message) then Last(n, out[n].message.id, out[n].message.reply, false)
            else if out[n].message.Notice? && out[n].message.event.AuthExpired? && out[n].delivered && before.Last? then
              before.(expired := true)
            else before
  {
    LastAppend(out[..n], out[n]);
    assert out[..n] + [out[n]] == out[..n + 1];
  }

  // ---------- steps of the daemon ----------

  /** The daemon works on no request; a query it may read in between is answered at once. */
  lemma QuietStep(d: Daemon, l: Label)
    requires Wired(d) && Enabled(d, l) && InTurn(d, l)
    requires Owed(d.handler).None? && (l.Receive? ==> l.request.body.Query?)
    ensures var e := Step(d, l);
            && Owed(e.handler).None?
            && |d.out| <= |e.out| && e.out[..|d.out|] == d.out
            && (LastOf(e.out).Last? <==> LastOf(d.out).Last?)
            && (LastOf(e.out).Last? ==> LastOf(e.out).(expired := LastOf(d.out).expired) == LastOf(d.out))
  {
    hide LastOf, Step;
    StepMoves(d, l);
    var e := Step(d, l);
    if l.Receive? {
      QueryStep(d, l);
      LastAppend(d.out, Sent(Response(l.request.id, Info), d.open && l.fits));
    } else {
      GrowsOnlyByReceive(d, l);
      if |e.out| > |d.out| {
        LastAppend(d.out, e.out[|d.out|]);
      }
    }
  }

  lemma QueryStep(d: Daemon, l: Label)
    requires Wired(d) && Enabled(d, l) && l.Receive? && l.request.body.Query?
    ensures Step(d, l) == Send(d.(requests := d.requests + [l.request.id]), Response(l.request.id, Info), l.fits)
  {
  }

  /** An upright daemon was upright before. */
  lemma UpBefore(d: Daemon, l: Label)
    requires Wired(d) && Enabled(d, l)
    ensures Up(Step(d, l)) ==> Up(d)
  {
    hide Step;
    NeverReturns(d, l);
    if Exiting(d.handler) {
      AuthTheorems.ExitingStays(d, l);
    }
  }

  /** A start-session read while the last answer was ready is accepted, as long as the daemon is up. */
  lemma StartAccepted(d: Daemon, l: Label)
    requires Agrees(d) && Wired(d) && Enabled(d, l) && Up(d)
    requires l.Receive? && l.request.body.StartSession?
    requires LastOf(d.out).Last? && LastOf(d.out).reply == Ready
    ensures var e := Step(d, l);
            Owed(e.handler).None? && LastOf(e.out).Last? && LastOf(e.out).reply == Done
            && e.requests == d.requests + [l.request.id]
  {
    hide LastOf, Inv, CancelTimeout, Lapsed, Numbered;
    LastAppend(d.out, Sent(Response(l.request.id, Done), d.open));
    CancelMoves(d.(requests := d.requests + [l.request.id]));
  }

  lemma DaemonKeepsQueue(w: World, l: Label)
    requires Queued(w) && DaemonMay(w, l)
    requires Owed(w.d.handler).Some? ==> Owed(w.d.handler).value == |w.d.requests| - 1
    ensures Queued(Do(w, DaemonRuns(l))) && InTurn(w.d, l)
    ensures !l.Receive? ==> Step(w.d, l).requests == w.d.requests
    ensures l.Receive? ==> Step(w.d, l).requests == w.d.requests + [l.request.id]
    ensures |w.d.out| <= |Step(w.d, l).out| && Step(w.d, l).out[..w.read] == w.d.out[..w.read]
  {
    hide Step;
    StepMoves(w.d, l);
    SessionCount(w.d, l);
    if l.Receive? {
      RequestCount(w.d, l.request, l.fits);
    } else {
      GrowsOnlyByReceive(w.d, l);
    }
  }

  lemma DaemonKeepsGrounded(w: World, l: Label)
    requires Consistent(w) && DaemonMay(w, l)
    ensures var e := Do(w, DaemonRuns(l));
            Queued(e) && Grounded(e)
  {
    hide LastOf, Step, Inv, Described, Lapsed, Numbered, Up;
    AgreesOwed(w.d);
    DaemonKeepsQueue(w, l);
    UpBefore(w.d, l);
    if Claims(Do(w, DaemonRuns(l))) {
      QuietStep(w.d, l);
    }
  }

  lemma AgreesOwed(d: Daemon)
    requires Agrees(d)
    ensures Owed(d.handler).Some? ==> Owed(d.handler).value == |d.requests| - 1
  {
    hide Inv, Described, Lapsed;
  }

  lemma DaemonKeepsStarting(w: World, l: Label)
    requires Consistent(w) && DaemonMay(w, l)
    ensures Starting(Do(w, DaemonRuns(l)))
  {
    hide LastOf, Step, Inv, Described, Lapsed, Numbered;
    AgreesOwed(w.d);
    DaemonKeepsQueue(w, l);
    UpBefore(w.d, l);
    if w.g.call.Waiting? && w.g.call.kind.ForStart? && w.g.claim.ShowsReady? && Up(Step(w.d, l)) {
      if l.Receive? {
        StartAccepted(w.d, l);
      } else {
        QuietStep(w.d, l);
      }
    }
  }

  lemma DaemonKeepsAnswering(w: World, l: Label)
    requires Consistent(w) && DaemonMay(w, l)
    ensures Answering(Do(w, DaemonRuns(l)))
  {
    hide LastOf, Step, Inv, Described, Lapsed, Numbered;
    AgreesOwed(w.d);
    DaemonKeepsQueue(w, l);
    if |w.d.requests| < |w.sent| && w.sent[|w.d.requests|].Continue? && !l.Receive? {
      QuietStep(w.d, l);
    }
  }

  lemma DaemonKeeps(w: World, l: Label)
    requires Consistent(w) && DaemonMay(w, l)
    ensures Consistent(Do(w, DaemonRuns(l)))
  {
    hide LastOf, Step, Described, Lapsed, Numbered, Grounded, Starting, Answering, Inv;
    DaemonKeepsGrounded(w, l);
    DaemonKeepsStarting(w, l);
    DaemonKeepsAnswering(w, l);
    AgreesOwed(w.d);
    DaemonKeepsQueue(w, l);
    AgreesStep(w.d, l);
  }

  // ---------- steps of the greeter ----------

  /** Reading a message that is not the awaited answer and does not change the greeter. */
  lemma SkipKeeps(w: World)
    requires Consistent(w) && w.read < |w.d.out|
    requires w.d.out[w.read].delivered ==> !(w.d.out[w.read].message.Notice? && w.d.out[w.read].message.event.AuthExpired?)
    ensures Consistent(w.(read := w.read + 1))
  {
    hide LastOf, Inv, Described, Lapsed, Numbered, Up;
    LastStep(w.d.out, w.read);
    PrefixLast(w.d.out, w.read + 1);
    LastInRange(w.d.out[..w.read]);
  }

  /** A greeter that shows nothing claims nothing. */
  lemma NothingKeeps(w: World, g: Greeter)
    requires Consistent(w) && w.read < |w.d.out| && g.claim.Nothing? && !g.quit
    requires g.call == w.g.call || g.call.NoCall?
    requires g.call.Waiting? && g.call.kind.ForStart? ==> !g.started
    ensures Consistent(w.(g := g, read := w.read + 1))
  {
    hide LastOf, Inv, Described, Lapsed, Numbered, Up;
  }

  lemma EventKeeps(w: World, event: Event)
    requires Consistent(w) && w.read < |w.d.out| && !w.g.quit && w.d.out[w.read].message == Notice(event) && w.d.out[w.read].delivered
    ensures Consistent(w.(g := OnEvent(w.g, event), read := w.read + 1))
  {
    hide LastOf, Inv, Described, Lapsed, Numbered, Up, Grounded, Starting, Answering;
    match event
    case SessionStarting =>
      SkipKeeps(w);
      BusyKeeps(w.(read := w.read + 1));
    case SessionFinished => NothingKeeps(w, OnEvent(w.g, event));
    case AuthExpired(_) => NothingKeeps(w, OnEvent(w.g, event));
    case ReExec => NothingKeeps(w, OnEvent(w.g, event));
    case AuthWarning(_) => SkipKeeps(w);
    case StateChanged => SkipKeeps(w);
  }

  lemma BusyKeeps(w: World)
    requires Consistent(w)
    ensures Consistent(w.(g := w.g.(busy := true)))
  {
    hide LastOf, Inv, Described, Lapsed, Numbered, Up;
  }

  /** The awaited answer is the last answer the daemon gave, and leaves no request unread or owed. */
  lemma AwaitedIsLast(w: World)
    requires Consistent(w) && w.read < |w.d.out| && w.g.call.Waiting?
    requires w.d.out[w.read].message.Response? && w.d.out[w.read].message.id == w.g.call.id
    ensures Owed(w.d.handler).None? && |w.d.requests| == |w.sent|
    ensures var m := w.d.out[w.read].message;
            Weighty(m) ==>
              && LastOf(w.d.out[..w.read + 1]) == Last(w.read, m.id, m.reply, false)
              && LastOf(w.d.out).Last? && LastOf(w.d.out).(expired := false) == Last(w.read, m.id, m.reply, false)
  {
    hide LastOf, Inv, Described, Lapsed, Up, Grounded, Starting, Answering;
    LastStep(w.d.out, w.read);
    NothingAfter(w.d.out, w.read);
  }

  /** The answer to create or continue is what the greeter then shows. */
  lemma ConversationKeeps(w: World, g: Greeter)
    requires Consistent(w) && w.read < |w.d.out| && w.g.call.Waiting?
    requires w.d.out[w.read].message.Response? && w.d.out[w.read].message.id == w.g.call.id
    requires !w.g.quit && !g.quit && g.call.NoCall?
    requires g == Conversation(g.(claim := w.g.claim, started := w.g.started, username := w.g.username), w.g.call.id,
                               w.d.out[w.read].message.reply)
    ensures Consistent(w.(g := g, read := w.read + 1))
  {
    hide LastOf, Inv, Described, Lapsed, Numbered, Up;
    AwaitedIsLast(w);
  }

  predicate Fits(kind: Kind, body: Body) {
    match kind
    case ForCreate => body.Create?
    case ForContinue(_) => body.Continue?
    case ForCancel => body.CancelSession?
    case ForStart => body.StartSession?
    case ForQuery => body.Query?
  }

  /** Sending a request from rest. */
  lemma AskKeeps(w: World, g: Greeter, kind: Kind, body: Body)
    requires Consistent(w) && w.g.call.NoCall? && !w.g.quit && !g.quit
    requires g.call == Waiting(|w.sent|, kind) && Fits(kind, body)
    requires g.claim == w.g.claim && g.started == w.g.started
    requires g.busy || g.claim.Nothing? || (kind.ForQuery? && g.busy == w.g.busy)
    requires kind.ForStart? ==> g.claim.ShowsReady? && !g.started
    requires kind.ForContinue? ==> g.claim == ShowsPrompt(body.shown)
    ensures Consistent(w.(g := g, sent := w.sent + [body]))
  {
    hide LastOf, Inv, Described, Lapsed, Numbered, Up;
  }

  lemma LoginKeeps(w: World, entered: Bytes, command: string)
    requires Consistent(w) && May(w, Login(entered, command))
    ensures Consistent(Do(w, Login(entered, command)))
  {
    hide Consistent, ReadReply, AuthFieldIsTooLong;
    ConsistentCoherent(w);
    var (g, body) := OnLogin(w.g, |w.sent|, entered, command);
    if body.Some? {
      AskKeeps(w, g, g.call.kind, body.value);
    }
  }

  lemma ConsistentCoherent(w: World)
    requires Consistent(w)
    ensures Queued(w) && Coherent(w)
  {
  }

  lemma CancelClickKeeps(w: World)
    requires Consistent(w) && May(w, CancelClicked)
    ensures Consistent(Do(w, CancelClicked))
  {
    hide Consistent;
    var (g, body) := OnCancel(w.g, |w.sent|);
    if body.Some? {
      AskKeeps(w, g, ForCancel, CancelSession);
    } else if g != w.g {
      ResetKeeps(w);
    }
  }

  lemma ResetKeeps(w: World)
    requires Consistent(w) && w.g.call.NoCall? && !w.g.quit
    ensures Consistent(w.(g := Reset(w.g)))
  {
    hide LastOf, Inv, Described, Lapsed, Numbered, Up;
  }

  lemma LostKeeps(w: World)
    requires Consistent(w)
    ensures Consistent(w.(g := Fresh().(quit := true)))
  {
    hide LastOf, Inv, Described, Lapsed, Numbered, Up;
  }

  /** An answered start-session was accepted, unless the daemon is going down. */
  lemma StartAnswerKeeps(w: World, reply: Reply)
    requires Consistent(w) && w.read < |w.d.out| && w.g.call.Waiting? && w.g.call.kind.ForStart? && !w.g.quit
    requires w.d.out[w.read].message == Response(w.g.call.id, reply)
    ensures Consistent(w.(g := OnAnswer(w.g, |w.sent|, reply).0, read := w.read + 1))
  {
    hide LastOf, Inv, Described, Lapsed, Numbered, Up;
    AwaitedIsLast(w);
  }

  lemma QueryAnswerKeeps(w: World, reply: Reply)
    requires Consistent(w) && w.read < |w.d.out| && w.g.call.Waiting? && w.g.call.kind.ForQuery? && !w.g.quit
    requires w.d.out[w.read].message == Response(w.g.call.id, reply)
    ensures Consistent(w.(g := w.g.(call := NoCall), read := w.read + 1))
  {
    hide LastOf, Inv, Described, Lapsed, Numbered, Up;
    AwaitedIsLast(w);
    LastStep(w.d.out, w.read);
    LastInRange(w.d.out[..w.read]);
  }

  lemma AnswerKeeps(w: World, reply: Reply)
    requires Consistent(w) && w.read < |w.d.out| && w.g.call.Waiting? && !w.g.quit
    requires w.d.out[w.read].message == Response(w.g.call.id, reply)
    ensures var n := w.(read := w.read + 1);
            Consistent(Apply(n, OnAnswer(w.g, |w.sent|, reply)))
  {
    hide Consistent;
    var h := w.g.(call := NoCall);
    match w.g.call.kind
    case ForCreate => ConversationKeeps(w, Conversation(h.(busy := false), w.g.call.id, reply));
    case ForContinue(retry) =>
      var c := Conversation(h.(busy := false), w.g.call.id, reply);
      ConversationKeeps(w, c);
      if reply == Refused("auth_retryable") && retry != [] {
        var (g, body) := AskCreate(c, |w.sent|, retry);
        AskKeeps(w.(g := c, read := w.read + 1), g, ForCreate, body.value);
      }
    case ForCancel => NothingKeeps(w, Reset(h));
    case ForStart => StartAnswerKeeps(w, reply);
    case ForQuery => QueryAnswerKeeps(w, reply);
  }

  lemma ReadKeeps(w: World)
    requires Consistent(w) && May(w, GreeterReads)
    ensures Consistent(Do(w, GreeterReads))
  {
    hide Consistent, OnAnswer, OnEvent;
    var Sent(m, delivered) := w.d.out[w.read];
    if !delivered {
      SkipKeeps(w);
    } else if m.Notice? {
      EventKeeps(w, m.event);
    } else if w.g.call.Waiting? && w.g.call.id == m.id {
      AnswerKeeps(w, m.reply);
    } else {
      SkipKeeps(w);
    }
  }

  /** What the workers do on their own is invisible here. */
  lemma WorkersKeep(w: World, workers: seq<Worker>)
    requires Consistent(w) && |workers| == |w.workers|
    ensures Consistent(w.(workers := workers))
  {
    hide LastOf, Inv, Described, Lapsed, Numbered, Up;
  }

  lemma DoKeeps(w: World, a: Act)
    requires Consistent(w) && May(w, a)
    ensures Consistent(Do(w, a))
  {
    hide Consistent, Step, OnMessage, OnLogin, OnCancel, Hear, Asks, Broken, Return;
    match a
    case DaemonRuns(l) => DaemonKeeps(w, l);
    case GreeterReads => ReadKeeps(w);
    case GreeterLost => LostKeeps(w);
    case Login(entered, command) => LoginKeeps(w, entered, command);
    case CancelClicked => CancelClickKeeps(w);
    case PowerClicked => AskKeeps(w, w.g.(call := Waiting(|w.sent|, ForQuery)), ForQuery, Query);
    case _ => WorkersKeep(w, Do(w, a).workers);
  }

  lemma BeginConsistent(timeout: int)
    ensures Consistent(Begin(timeout))
  {
    hide Inv;
    InitAgrees(timeout);
  }

  lemma {:induction false} PlayKeeps(timeout: int, states: seq<World>, acts: seq<Act>, n: nat)
    requires Play(timeout, states, acts) && n < |states|
    ensures Consistent(states[n])
  {
    hide Consistent, Do, May;
    if n == 0 {
      BeginConsistent(timeout);
    } else {
      PlayKeeps(timeout, states, acts, n - 1);
      assert Acts(states, acts, n - 1);
      DoKeeps(states[n - 1], acts[n - 1]);
    }
  }

  // ---------- an answer that was dropped ----------

  /** The response to the greeter's pending request was dropped because it did not fit, or had no writer. */
  predicate AnswerDropped(w: World) {
    w.g.call.Waiting? &&
    exists j :: 0 <= j < |w.d.out| && w.d.out[j].message.Response? && w.d.out[j].message.id == w.g.call.id && !w.d.out[j].delivered
  }

  /** The greeter reads a re-exec, or the end of its connection. */
  predicate Interrupts(w: World, a: Act) {
    || a.GreeterLost?
    || (a.GreeterReads? && w.read < |w.d.out| && w.d.out[w.read] == Sent(Notice(ReExec), true))
  }

  lemma DroppedStep(w: World, a: Act)
    requires Consistent(w) && May(w, a) && AnswerDropped(w) && !Interrupts(w, a)
    ensures AnswerDropped(Do(w, a)) && Do(w, a).g.call == w.g.call
  {
    hide LastOf, Inv, Described, Lapsed, Grounded, Starting, Answering, Step;
    var j :| 0 <= j < |w.d.out| && w.d.out[j].message.Response? && w.d.out[j].message.id == w.g.call.id && !w.d.out[j].delivered;
    var e := Do(w, a);
    if a.DaemonRuns? {
      AgreesOwed(w.d);
      DaemonKeepsQueue(w, a.task);
      StepMoves(w.d, a.task);
    } else if a.GreeterReads? && w.d.out[w.read].message.Response? && w.d.out[w.read].message.id == w.g.call.id {
      assert w.read == j;
    }
    assert e.d.out[j] == w.d.out[j];
  }

  /** A greeter whose answer was dropped waits for it until a re-exec or the end of the connection. */
  lemma {:induction false} DroppedAnswerIsAwaited(timeout: int, states: seq<World>, acts: seq<Act>, m: nat, n: nat)
    requires Play(timeout, states, acts) && m <= n < |states| && AnswerDropped(states[m])
    requires forall k | m <= k < n :: !Interrupts(states[k], acts[k])
    ensures AnswerDropped(states[n]) && states[n].g.call == states[m].g.call
    decreases n
  {
    hide Consistent, Do, May, AnswerDropped, Interrupts;
    if m < n {
      DroppedAnswerIsAwaited(timeout, states, acts, m, n - 1);
      PlayKeeps(timeout, states, acts, n - 1);
      assert Acts(states, acts, n - 1);
      assert !Interrupts(states[n - 1], acts[n - 1]);
      DroppedStep(states[n - 1], acts[n - 1]);
    }
  }

  // ---------- the agreement ----------

  /** Some message the greeter has not read yet announces an expiry. */
  predicate ExpiryUnread(w: World) {
    exists i :: w.read <= i < |w.d.out| && w.d.out[i].message.Notice? && w.d.out[i].message.event.AuthExpired?
  }

  /** The daemon holds what the greeter claims. */
  predicate Held(w: World)
    requires Wired(w.d)
  {
    match w.g.claim
    case Nothing => true
    case ShowsPrompt(shown) =>
      w.d.cur.Some? && !w.d.sessions[w.d.cur.value].ready && Shows(w.d.sessions[w.d.cur.value], shown)
    case ShowsReady => w.d.cur.Some? && w.d.sessions[w.d.cur.value].ready
  }

  lemma {:induction false} UnreadExpiry(out: seq<Sent>, n: nat)
    requires n <= |out| && LastOf(out[..n]).Last? && LastOf(out).Last?
    requires LastOf(out[..n]).index == LastOf(out).index && !LastOf(out[..n]).expired && LastOf(out).expired
    ensures exists i :: n <= i < |out| && out[i].message.Notice? && out[i].message.event.AuthExpired?
  {
    assert out[..|out|] == out;
    if n < |out| {
      var m := out[|out| - 1].message;
      if !(m.Notice? && m.event.AuthExpired?) {
        var before := out[..|out| - 1];
        assert before[..n] == out[..n];
        UnreadExpiry(before, n);
        var i :| n <= i < |before| && before[i].message.Notice? && before[i].message.event.AuthExpired?;
        assert out[i] == before[i];
      }
    }
  }

  /**
   * Three-party agreement, in every reachable state: unless the connection is being torn down, a greeter
   * that is not busy claims nothing that the daemon does not hold, except a conversation whose expiry
   * is already on its way to it. It shows the very prompt that the current session's worker asked last.
   */
  lemma NeverClaimsMore(timeout: int, states: seq<World>, acts: seq<Act>, n: nat)
    requires Play(timeout, states, acts) && n < |states|
    ensures var w := states[n];
            Wired(w.d) && (Up(w.d) && !w.g.busy ==> Held(w) || ExpiryUnread(w))
  {
    hide Play, Inv, Lapsed, Numbered, LastOf;
    PlayKeeps(timeout, states, acts, n);
    var w := states[n];
    InvWired(w.d);
    if Up(w.d) && !w.g.busy && !Held(w) {
      UnreadExpiry(w.d.out, w.read);
    }
  }

  /** With no message left for the greeter to read there is no exception. */
  lemma ThreePartyAgreement(timeout: int, states: seq<World>, acts: seq<Act>, n: nat)
    requires Play(timeout, states, acts) && n < |states|
    ensures var w := states[n];
            Wired(w.d) && (Up(w.d) && !w.g.busy && w.read == |w.d.out| ==> Held(w))
  {
    hide Play, Held, Up;
    NeverClaimsMore(timeout, states, acts, n);
  }
}
