/**
 * What the greeter shows and what the daemon holds, in every reachable state: also while the connection
 * is being torn down by its handler, by the main loop or by shutdown, and while an expiry is on its way.
 */
module LoginTearDown {
  import opened AuthMachine
  import opened AuthInvariants
  import opened AuthAgreement
  import opened GreeterFlow
  import opened LoginSystem
  import opened LoginAgreement
  import opened SizeBounds
  import AuthTheorems
  import Utf8

  // ---------- the daemon's side ----------

  /** The session is what the answer said. */
  predicate Speaks(s: Session, last: Last)
    requires last.Last?
  {
    && (last.reply.Pending? ==> !s.ready && Shows(s, Shown(last.reply.prompt, last.id)))
    && (last.reply.Ready? ==> s.ready)
  }

  /** A handler that ends with nothing left to answer leaves the session as the last answer described it. */
  predicate Departing(d: Daemon)
    requires Wired(d)
  {
    Exiting(d.handler) && AuthTheorems.Orderly(d) && d.cur.Some? && LastOf(d.out).Last? ==>
      Speaks(d.sessions[d.cur.value], LastOf(d.out))
  }

  lemma DescribedSpeaks(d: Daemon)
    requires Wired(d) && Described(d) && Departing(d) && AuthTheorems.Orderly(d) && Owed(d.handler).None?
    requires d.cur.Some? && LastOf(d.out).Last?
    ensures Speaks(d.sessions[d.cur.value], LastOf(d.out))
  {
    hide LastOf, Shows, Responded;
  }

  /** Nothing was heard, and neither the current session nor the last answer is another. */
  predicate SpeaksAsBefore(d: Daemon, e: Daemon)
    requires Wired(d) && Wired(e)
  {
    && NothingHeard(d, e) && (e.cur.Some? ==> e.cur == d.cur)
    && (LastOf(e.out).Last? ==>
          LastOf(d.out).Last? && LastOf(e.out).reply == LastOf(d.out).reply && LastOf(e.out).id == LastOf(d.out).id)
  }

  lemma SpeaksStill(d: Daemon, e: Daemon)
    requires Wired(d) && Wired(e) && SpeaksAsBefore(d, e) && e.cur.Some? && LastOf(e.out).Last?
    requires Speaks(d.sessions[d.cur.value], LastOf(d.out))
    ensures Speaks(e.sessions[e.cur.value], LastOf(e.out))
  {
    hide LastOf, Prompts;
  }

  lemma NoticeSpeaks(out: seq<Sent>, event: Event, delivered: bool)
    ensures var before := LastOf(out);
            var after := LastOf(out + [Sent(Notice(event), delivered)]);
            (after.Last? <==> before.Last?) && (after.Last? ==> after.reply == before.reply && after.id == before.id)
  {
    hide LastOf;
    LastAppend(out, Sent(Notice(event), delivered));
  }

  lemma TimerSpeaks(d: Daemon, t: TimerId)
    requires Wired(d) && t < |d.timers|
    ensures Wired(OnTimer(d, t)) && SpeaksAsBefore(d, OnTimer(d, t))
  {
    hide LastOf, OnTimer, WarningDelay, NothingHeard;
    var s := d.timers[t].session;
    TimerMoves(d, t);
    NoticeSpeaks(d.out, AuthWarning(s), d.open);
    NoticeSpeaks(d.out, AuthExpired(s), d.open);
    if d.timers[t].Armed() && d.timers[t].stage.TClosing? {
      ExpirySpeaks(d, t);
    } else {
      WaitingHears(d, t);
    }
  }

  lemma ExpirySpeaks(d: Daemon, t: TimerId)
    requires Wired(d) && t < |d.timers| && d.timers[t].Armed() && d.timers[t].stage.TClosing?
    ensures var e := OnTimer(d, t);
            Wired(e) && NothingHeard(d, e) && (e.cur.Some? ==> e.cur == d.cur)
  {
  }

  /** What happens to a client whose handler is ending, or waits for nothing a worker could say. */
  lemma QuietSpeaks(d: Daemon, l: Label)
    requires Wired(d) && Enabled(d, l) && (Exiting(d.handler) || l.ReceiveEnd?)
    ensures Wired(Step(d, l)) && SpeaksAsBefore(d, Step(d, l))
  {
    hide LastOf, OnTimer, OnSweep, StopSession, NothingHeard;
    match l
    case TimerRuns(t) => TimerSpeaks(d, t);
    case SweepRuns => SweepHears(d);
    case StopContinues => StopSpeaks(d);
    case ReceiveEnd => EndSpeaks(d);
    case WriterCloses => HeardNothing(d, d.(open := false));
    case Broadcast(e) =>
      NoticeSpeaks(d.out, e, d.open);
      HeardNothing(d, Step(d, l));
  }

  lemma HeardNothing(d: Daemon, e: Daemon)
    requires d.sessions == e.sessions
    ensures NothingHeard(d, e)
  {
  }

  lemma StopSpeaks(d: Daemon)
    requires Wired(d) && d.handler.Stopping? && d.handler.after.ThenExit?
    ensures Wired(OnStop(d)) && SpeaksAsBefore(d, OnStop(d))
  {
    hide LastOf;
  }

  lemma EndSpeaks(d: Daemon)
    requires Wired(d)
    ensures Wired(Exit(d)) && SpeaksAsBefore(d, Exit(d))
  {
    hide LastOf, CancelTimeout;
    CancelMoves(Note(d, LExit));
    CancelHears(Note(d, LExit));
  }

  lemma BrokenIsDisorderly(d: Daemon, l: Label)
    requires Inv(d) && Wired(d) && Enabled(d, l) && AuthTheorems.Breaks(l)
    ensures !AuthTheorems.Orderly(Step(d, l)) && Exiting(Step(d, l).handler)
  {
    hide Inv, Step, Responded, AuthTheorems.Breaks;
    AuthTheorems.BreakCuts(d, l);
  }

  /** A handler that ends in good order was ending already, or meets the end of its idle channel. */
  lemma OrderlyBefore(d: Daemon, l: Label)
    requires Inv(d) && Wired(d) && Enabled(d, l) && !AuthTheorems.Breaks(l)
    requires Exiting(Step(d, l).handler) && AuthTheorems.Orderly(Step(d, l))
    ensures (Exiting(d.handler) || l.ReceiveEnd?) && Owed(d.handler).None? && AuthTheorems.Orderly(d)
  {
    hide Inv, Responded, OnRequest, OnWorker, OnTimer, OnSweep, Exit, StopSession, CancelTimeout;
    if Exiting(d.handler) {
      AuthTheorems.ExitingStays(d, l);
    } else {
      AuthTheorems.InvResponses(d);
      if l.StopContinues? {
        StopGoesOn(d);
      } else if !l.ReceiveEnd? {
        AuthTheorems.OnlyExits(d, l);
      }
    }
  }

  lemma StopGoesOn(d: Daemon)
    requires Wired(d) && d.handler.Stopping? && !Exiting(d.handler)
    ensures !Exiting(OnStop(d).handler)
  {
  }

  lemma DepartingStep(d: Daemon, l: Label)
    requires Inv(d) && Wired(d) && Described(d) && Departing(d) && Enabled(d, l)
    ensures Wired(Step(d, l)) && Departing(Step(d, l))
  {
    hide Inv, LastOf, Step, AuthTheorems.Orderly, AuthTheorems.Breaks, Described, Speaks, SpeaksAsBefore;
    AuthTheorems.StepKeeps(d, l);
    var e := Step(d, l);
    InvWired(e);
    if AuthTheorems.Breaks(l) {
      BrokenIsDisorderly(d, l);
    } else if Exiting(e.handler) && AuthTheorems.Orderly(e) && e.cur.Some? && LastOf(e.out).Last? {
      OrderlyBefore(d, l);
      QuietSpeaks(d, l);
      SpokeBefore(d, e);
      DescribedSpeaks(d);
      SpeaksStill(d, e);
    }
  }

  lemma SpokeBefore(d: Daemon, e: Daemon)
    requires Wired(d) && Wired(e) && SpeaksAsBefore(d, e)
    ensures e.cur.Some? ==> d.cur.Some?
    ensures LastOf(e.out).Last? ==> LastOf(d.out).Last?
  {
    hide LastOf, NothingHeard;
  }

  // ---------- both sides ----------

  /** The greeter waits for nothing that could change what it shows. */
  predicate Rests(w: World) {
    w.g.call.NoCall? || w.g.call.kind.ForQuery?
  }

  /** The last answer was `reply`, or a refusal for want of a session. */
  predicate GivenOrGone(d: Daemon, reply: Reply) {
    LastOf(d.out).Last? && (LastOf(d.out).reply == reply || (LastOf(d.out).reply.Refused? && d.cur.None?))
  }

  /** A greeter at rest that shows something has got every answer; only the start of a ready session may have failed. */
  predicate Attested(w: World) {
    && (Rests(w) && !w.g.claim.Nothing? && !w.g.started ==> Owed(w.d.handler).None? && AuthTheorems.Orderly(w.d))
    && (Rests(w) && w.g.claim.ShowsReady? && !w.g.started ==>
          |w.sent| <= |w.d.requests| + (if w.g.call.NoCall? then 0 else 1) && GivenOrGone(w.d, Ready))
  }

  predicate StartsOnReady(w: World) {
    w.g.call.Waiting? && w.g.call.kind.ForStart? && w.g.claim.ShowsReady? ==>
      && Owed(w.d.handler).None? && AuthTheorems.Orderly(w.d)
      && w.g.call.id <= |w.d.requests|
      && (|w.d.requests| == w.g.call.id ==> GivenOrGone(w.d, Ready))
      && (|w.d.requests| == w.g.call.id + 1 ==> GivenOrGone(w.d, Done))
  }

  predicate Firm(w: World) {
    Consistent(w) && Wired(w.d) && Departing(w.d) && Attested(w) && StartsOnReady(w)
  }

  // ---------- steps of the daemon ----------

  /** Only the first message of a new session makes one current. */
  lemma NoNewSession(d: Daemon, l: Label)
    requires Wired(d) && Enabled(d, l) && Owed(d.handler).None? && d.cur.None?
    ensures Step(d, l).cur.None?
  {
    hide StopSession, OnTimer, OnSweep, CancelTimeout, Utf8.DecodeReplace, AuthFieldIsTooLong;
    match l
    case Receive(r, _) =>
      var n := d.(requests := d.requests + [r.id]);
      CancelMoves(n);
      NoneStops(Note(n, LCancel), ThenAccept(r.id));
    case TimerRuns(t) => TimerClearsOnly(d, t);
    case SweepRuns => SweepHears(d);
    case _ =>
      CancelMoves(d);
      NoneStops(Note(d, LExit), ThenExit);
  }

  lemma NoneStops(d: Daemon, after: After)
    requires Wired(d) && d.cur.None?
    ensures StopSession(d, true, after).cur.None?
  {
    hide CancelTimeout;
    CancelMoves(d);
  }

  lemma TimerClearsOnly(d: Daemon, t: TimerId)
    requires Wired(d) && t < |d.timers|
    ensures OnTimer(d, t).cur.Some? ==> OnTimer(d, t).cur == d.cur
  {
    hide OnTimer, NothingHeard, LastOf;
    TimerSpeaks(d, t);
  }

  /** A daemon that works on no request, and reads at most a query, keeps what its last answer said. */
  lemma QuietKeeps(d: Daemon, l: Label)
    requires Inv(d) && Wired(d) && Enabled(d, l) && InTurn(d, l)
    requires Owed(d.handler).None? && AuthTheorems.Orderly(d) && (l.Receive? ==> l.request.body.Query?)
    ensures var e := Step(d, l);
            && Owed(e.handler).None? && AuthTheorems.Orderly(e)
            && forall reply :: GivenOrGone(d, reply) ==> GivenOrGone(e, reply)
  {
    hide Inv, Step, LastOf, AuthTheorems.Orderly;
    QuietStep(d, l);
    AuthTheorems.OrderlyStep(d, l);
    if d.cur.None? {
      NoNewSession(d, l);
    }
  }

  /** A start-session that follows a ready answer is accepted, or refused because the session is gone. */
  lemma StartRead(d: Daemon, l: Label)
    requires Inv(d) && Wired(d) && Described(d) && Enabled(d, l) && InTurn(d, l)
    requires AuthTheorems.Orderly(d) && GivenOrGone(d, Ready) && l.Receive? && l.request.body.StartSession?
    ensures var e := Step(d, l);
            Owed(e.handler).None? && AuthTheorems.Orderly(e) && GivenOrGone(e, Done)
  {
    AuthTheorems.OrderlyStep(d, l);
    StartAnswer(d, l.request, l.fits);
  }

  lemma StartAnswer(d: Daemon, r: Request, fits: bool)
    requires Wired(d) && Described(d) && d.handler.Idle? && GivenOrGone(d, Ready) && r.body.StartSession?
    ensures var e := OnRequest(d, r, fits);
            Owed(e.handler).None? && GivenOrGone(e, Done)
  {
    hide LastOf, CancelTimeout, AuthTheorems.Orderly;
    CancelMoves(d.(requests := d.requests + [r.id]));
    LastAppend(d.out, Sent(Response(r.id, Done), d.open));
    LastAppend(d.out, Sent(Response(r.id, Refused("session_not_found")), d.open));
  }

  lemma DaemonKeepsAttested(w: World, l: Label)
    requires Firm(w) && DaemonMay(w, l)
    ensures Attested(Do(w, DaemonRuns(l)))
  {
    hide LastOf, Step, Inv, Described, Lapsed, Numbered, Starting, Answering, Departing, StartsOnReady, GivenOrGone, AuthTheorems.Orderly;
    AgreesOwed(w.d);
    DaemonKeepsQueue(w, l);
    if Rests(w) && !w.g.claim.Nothing? && !w.g.started {
      QuietKeeps(w.d, l);
    }
  }

  lemma DaemonKeepsStarts(w: World, l: Label)
    requires Firm(w) && DaemonMay(w, l)
    ensures StartsOnReady(Do(w, DaemonRuns(l)))
  {
    hide LastOf, Step, Inv, Described, Lapsed, Numbered, Starting, Answering, Grounded, Departing, Attested, GivenOrGone, AuthTheorems.Orderly;
    AgreesOwed(w.d);
    DaemonKeepsQueue(w, l);
    if w.g.call.Waiting? && w.g.call.kind.ForStart? && w.g.claim.ShowsReady? {
      if l.Receive? {
        StartRead(w.d, l);
      } else {
        QuietKeeps(w.d, l);
      }
    }
  }

  lemma DaemonFirm(w: World, l: Label)
    requires Firm(w) && DaemonMay(w, l)
    ensures Firm(Do(w, DaemonRuns(l)))
  {
    hide Step, Inv, Departing, Attested, StartsOnReady, Described, Lapsed, Numbered, Grounded, Starting, Answering;
    DaemonKeeps(w, l);
    DepartingStep(w.d, l);
    DaemonKeepsAttested(w, l);
    DaemonKeepsStarts(w, l);
  }

  // ---------- steps of the greeter ----------

  lemma {:induction false} RespondedHas(out: seq<Sent>, k: nat)
    requires k < |out| && out[k].message.Response?
    ensures out[k].message.id in Responded(out)
  {
    if k < |out| - 1 {
      RespondedHas(out[..|out| - 1], k);
    }
  }

  /** When the greeter reads the answer it waits for, nothing else is open. */
  lemma AwaitedIsOrderly(w: World)
    requires Consistent(w) && w.read < |w.d.out| && w.g.call.Waiting?
    requires w.d.out[w.read].message.Response? && w.d.out[w.read].message.id == w.g.call.id
    ensures Owed(w.d.handler).None? && |w.d.requests| == |w.sent| && AuthTheorems.Orderly(w.d)
    ensures Weighty(w.d.out[w.read].message) ==> LastOf(w.d.out).Last? && LastOf(w.d.out).reply == w.d.out[w.read].message.reply
  {
    hide LastOf, Inv, Described, Lapsed, Responded, Grounded, Starting, Answering;
    AwaitedIsLast(w);
    RespondedHas(w.d.out, w.read);
    AuthTheorems.InvResponses(w.d);
  }

  lemma AnswerFirm(w: World, reply: Reply)
    requires Firm(w) && w.read < |w.d.out| && w.g.call.Waiting? && !w.g.quit
    requires w.d.out[w.read].message == Response(w.g.call.id, reply)
    ensures var n := Apply(w.(read := w.read + 1), OnAnswer(w.g, |w.sent|, reply));
            Attested(n) && StartsOnReady(n)
  {
    hide LastOf, Inv, Described, Lapsed, Numbered, Grounded, Starting, Answering, Departing, AuthTheorems.Orderly;
    AwaitedIsOrderly(w);
  }

  lemma EventFirm(w: World, event: Event)
    requires Firm(w)
    ensures var n := w.(g := OnEvent(w.g, event), read := w.read + 1);
            Attested(n) && StartsOnReady(n)
  {
    hide Consistent, Departing, GivenOrGone, AuthTheorems.Orderly;
  }

  lemma ReadFirm(w: World)
    requires Firm(w) && May(w, GreeterReads)
    ensures Attested(Do(w, GreeterReads)) && StartsOnReady(Do(w, GreeterReads))
  {
    hide Consistent, OnAnswer, OnEvent, Departing, GivenOrGone, AuthTheorems.Orderly;
    var Sent(m, delivered) := w.d.out[w.read];
    if delivered && m.Notice? {
      EventFirm(w, m.event);
    } else if delivered && w.g.call.Waiting? && w.g.call.id == m.id {
      AnswerFirm(w, m.reply);
    }
  }

  lemma UserFirm(w: World, a: Act)
    requires Firm(w) && May(w, a) && (a.Login? || a.CancelClicked? || a.PowerClicked?)
    ensures Attested(Do(w, a)) && StartsOnReady(Do(w, a))
  {
    hide LastOf, Inv, Agrees, Grounded, Starting, Answering, Departing, GivenOrGone, AuthTheorems.Orderly, ReadReply, AuthFieldIsTooLong;
  }

  lemma DoFirm(w: World, a: Act)
    requires Firm(w) && May(w, a)
    ensures Firm(Do(w, a))
  {
    hide Consistent, Departing, Attested, StartsOnReady, Step, OnMessage, OnLogin, OnCancel, Hear, Asks, Broken, Return;
    DoKeeps(w, a);
    match a
    case DaemonRuns(l) => DaemonFirm(w, l);
    case GreeterReads => ReadFirm(w);
    case Login(_, _) => UserFirm(w, a);
    case CancelClicked => UserFirm(w, a);
    case PowerClicked => UserFirm(w, a);
    case _ => WorkersFirm(w, Do(w, a));
  }

  lemma WorkersFirm(w: World, e: World)
    requires Attested(w) && StartsOnReady(w) && e.d == w.d && e.sent == w.sent
    requires e.g == w.g || e.g.claim.Nothing?
    ensures Attested(e) && StartsOnReady(e)
  {
    hide GivenOrGone, AuthTheorems.Orderly;
  }

  lemma BeginFirm(timeout: int)
    ensures Firm(Begin(timeout))
  {
    hide Consistent;
    BeginConsistent(timeout);
  }

  lemma {:induction false} PlayIsFirm(timeout: int, states: seq<World>, acts: seq<Act>, n: nat)
    requires Play(timeout, states, acts) && n < |states|
    ensures Firm(states[n])
  {
    hide Firm, Do, May;
    if n == 0 {
      BeginFirm(timeout);
    } else {
      PlayIsFirm(timeout, states, acts, n - 1);
      assert Acts(states, acts, n - 1);
      DoFirm(states[n - 1], acts[n - 1]);
    }
  }

  // ---------- the agreement, without exception ----------

  /**
   * In every reachable state, whatever is being torn down or about to expire: what a greeter that is not
   * busy shows is held by the daemon exactly if the daemon still has a current session at all.
   */
  lemma HeldUnlessCleared(timeout: int, states: seq<World>, acts: seq<Act>, n: nat)
    requires Play(timeout, states, acts) && n < |states|
    ensures var w := states[n];
            Wired(w.d) && (!w.g.busy ==> (Held(w) <==> w.g.claim.Nothing? || w.d.cur.Some?))
  {
    hide Play, Inv, Lapsed, Numbered, LastOf, Described, Departing, Starting, Answering, Speaks, AuthTheorems.Orderly;
    PlayIsFirm(timeout, states, acts, n);
    var w := states[n];
    if !w.g.busy && !w.g.claim.Nothing? && w.d.cur.Some? {
      DescribedSpeaks(w.d);
      SpeaksHeld(w);
    }
  }

  lemma SpeaksHeld(w: World)
    requires Consistent(w) && Attested(w) && Wired(w.d) && w.d.cur.Some? && !w.g.busy && !w.g.claim.Nothing?
    requires LastOf(w.d.out).Last? && Speaks(w.d.sessions[w.d.cur.value], LastOf(w.d.out))
    ensures Held(w)
  {
    hide Inv, Lapsed, Numbered, LastOf, Described, Starting, Answering, Shows, AuthTheorems.Orderly;
  }
}
