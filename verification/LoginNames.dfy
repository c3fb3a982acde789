/** Greeter and daemon agree on the user: the session shown is for the name the greeter sent last. */
module LoginNames {
  import opened Wrappers
  import opened AuthMachine
  import opened AuthInvariants
  import opened AuthAgreement
  import AuthEffects
  import opened GreeterFlow
  import opened LoginSystem
  import opened LoginAgreement
  import opened SizeBounds
  import Utf8

  /** The number of the last create-session. */
  function LastCreate(sent: seq<Body>): (i: Option<nat>)
    ensures i.Some? ==> i.value < |sent| && sent[i.value].Create? && forall j | i.value < j < |sent| :: !sent[j].Create?
    ensures i.None? ==> forall j | 0 <= j < |sent| :: !sent[j].Create?
  {
    if sent == [] then None
    else if sent[|sent| - 1].Create? then Some(|sent| - 1)
    else LastCreate(sent[..|sent| - 1])
  }

  /** The user and the number of the create-session that was accepted last. */
  function LastAccept(log: seq<Log>): Option<(string, nat)> {
    if log == [] then None
    else if log[|log| - 1].LAccept? then Some((log[|log| - 1].user, log[|log| - 1].request))
    else LastAccept(log[..|log| - 1])
  }

  function CreatedBy(sent: seq<Body>): Option<(string, nat)> {
    var i := LastCreate(sent);
    if i.None? then None else Some((Utf8.DecodeReplace(sent[i.value].username), i.value))
  }

  lemma CreateAppend(sent: seq<Body>, body: Body)
    ensures LastCreate(sent + [body]) == if body.Create? then Some(|sent|) else LastCreate(sent)
    ensures CreatedBy(sent + [body]) ==
            if body.Create? then Some((Utf8.DecodeReplace(body.username), |sent|)) else CreatedBy(sent)
  {
    hide Utf8.DecodeReplace;
    assert (sent + [body])[..|sent|] == sent;
  }

  lemma AcceptAppend(log: seq<Log>, entry: Log)
    ensures LastAccept(log + [entry]) == if entry.LAccept? then Some((entry.user, entry.request)) else LastAccept(log)
  {
    assert (log + [entry])[..|log|] == log;
  }

  // ---------- what one step of the daemon logs ----------

  /** From `d` to `e` at most one entry was logged, and an acceptance exactly if it is `accepted`. */
  predicate Logs(d: Daemon, e: Daemon, accepted: Option<(string, nat)>) {
    if accepted.Some? then e.log == d.log + [LAccept(accepted.value.0, accepted.value.1)]
    else e.log == d.log || (|e.log| == |d.log| + 1 && e.log == d.log + [e.log[|d.log|]] && !e.log[|d.log|].LAccept?)
  }

  function AcceptedBy(l: Label): Option<(string, nat)> {
    if l.Receive? && l.request.body.Create? && !AuthFieldIsTooLong(l.request.body.username) then
      Some((Utf8.DecodeReplace(l.request.body.username), l.request.id))
    else None
  }

  lemma StepLogs(d: Daemon, l: Label)
    requires Wired(d) && Enabled(d, l)
    ensures Logs(d, Step(d, l), AcceptedBy(l))
  {
    hide Step, Utf8.DecodeReplace;
    AuthEffects.StepLogs(d, l);
  }

  // ---------- the invariant ----------

  /**
   * The greeter remembers the name of its last create-session or none, and the daemon's last accepted
   * name is that of the last create-session it has read.
   */
  predicate Named(w: World) {
    && |w.d.requests| <= |w.sent|
    && (w.g.username != [] ==> LastCreate(w.sent).Some? && w.sent[LastCreate(w.sent).value].username == w.g.username)
    && (w.g.call.Waiting? && w.g.call.kind.ForContinue? && w.g.call.kind.retry != [] ==>
          !AuthFieldIsTooLong(w.g.call.kind.retry))
    && !AuthFieldIsTooLong(w.g.username)
    && (forall i | 0 <= i < |w.sent| && w.sent[i].Create? :: !AuthFieldIsTooLong(w.sent[i].username))
    && LastAccept(w.d.log) == CreatedBy(w.sent[..|w.d.requests|])
  }

  lemma DaemonNames(w: World, l: Label)
    requires Consistent(w) && Named(w) && DaemonMay(w, l)
    ensures Named(Do(w, DaemonRuns(l)))
  {
    hide Consistent, Step, Utf8.DecodeReplace, LastCreate, LastAccept, AuthFieldIsTooLong;
    ConsistentOwed(w);
    DaemonKeepsQueue(w, l);
    StepLogs(w.d, l);
    var e := Step(w.d, l);
    var n := |w.d.requests|;
    if |e.log| > |w.d.log| {
      AcceptAppend(w.d.log, e.log[|w.d.log|]);
    }
    if l.Receive? {
      CreateAppend(w.sent[..n], w.sent[n]);
      assert w.sent[..n] + [w.sent[n]] == w.sent[..n + 1];
    }
  }

  lemma ConsistentOwed(w: World)
    requires Consistent(w)
    ensures Queued(w) && (Owed(w.d.handler).Some? ==> Owed(w.d.handler).value == |w.d.requests| - 1)
  {
    AgreesOwed(w.d);
  }

  /** A request adds to `sent` only a name the greeter then remembers. */
  lemma AskNames(w: World, e: World)
    requires Named(w) && e.d == w.d
    requires e.sent == w.sent || (|e.sent| == |w.sent| + 1 && e.sent == w.sent + [e.sent[|w.sent|]])
    requires e.g.username == [] || e.g.username == w.g.username ||
             (|e.sent| > |w.sent| && e.sent[|w.sent|] == Create(e.g.username))
    requires |e.sent| > |w.sent| && e.sent[|w.sent|].Create? ==> e.g.username == e.sent[|w.sent|].username
    requires !AuthFieldIsTooLong(e.g.username)
    requires e.g.call.Waiting? && e.g.call.kind.ForContinue? && e.g.call.kind.retry != [] ==> !AuthFieldIsTooLong(e.g.call.kind.retry)
    ensures Named(e)
  {
    hide AuthFieldIsTooLong, LastCreate, Utf8.DecodeReplace;
    var n := |w.d.requests|;
    assert e.sent[..n] == w.sent[..n];
    if |e.sent| > |w.sent| {
      CreateAppend(w.sent, e.sent[|w.sent|]);
    }
  }

  lemma DoNames(w: World, a: Act)
    requires Consistent(w) && Named(w) && May(w, a)
    ensures Named(Do(w, a))
  {
    hide Consistent, Step, Utf8.DecodeReplace, LastCreate, LastAccept, KnownStyle, ReadReply;
    if a.DaemonRuns? {
      DaemonNames(w, a.task);
    } else {
      AskNames(w, Do(w, a));
    }
  }

  lemma {:induction false} PlayNames(timeout: int, states: seq<World>, acts: seq<Act>, n: nat)
    requires Play(timeout, states, acts) && n < |states|
    ensures Consistent(states[n]) && Named(states[n])
  {
    hide Consistent, Do, May;
    PlayKeeps(timeout, states, acts, n);
    if n > 0 {
      hide Named;
      PlayNames(timeout, states, acts, n - 1);
      assert Acts(states, acts, n - 1);
      DoNames(states[n - 1], acts[n - 1]);
    }
  }

  // ---------- agreement on the user ----------

  /** Between requests the current session is for the user accepted last. */
  lemma CurrentIsLastAccepted(d: Daemon)
    requires Inv(d) && Settled(d) && d.cur.Some?
    ensures Wired(d)
    ensures var s := d.sessions[d.cur.value];
            LastAccept(d.log) == Some((s.user, s.request))
  {
    hide ChannelOk, TimerOk, SpawnsAreAuthorized, ResponsesOk, Outstanding, TimersOk;
    var log := d.log;
    if Readied(log, d.sessions[d.cur.value].user, d.sessions[d.cur.value].request) {
      assert log[..|log| - 1][|log| - 2] == log[|log| - 2];
    }
  }

  /**
   * Whenever a greeter that is not busy shows a prompt or a ready session of a name it remembers, and no
   * expiry is on its way, the daemon's current session is for exactly that name.
   */
  lemma UsersAgree(timeout: int, states: seq<World>, acts: seq<Act>, n: nat)
    requires Play(timeout, states, acts) && n < |states|
    ensures var w := states[n];
            Wired(w.d) &&
            (Up(w.d) && !w.g.busy && !w.g.claim.Nothing? && w.g.username != [] && !ExpiryUnread(w) ==>
               w.d.cur.Some? && w.d.sessions[w.d.cur.value].user == Utf8.DecodeReplace(w.g.username))
  {
    hide Play, Inv, Utf8.DecodeReplace, LastOf, LastAccept;
    NeverClaimsMore(timeout, states, acts, n);
    PlayNames(timeout, states, acts, n);
    var w := states[n];
    if Up(w.d) && !w.g.busy && !w.g.claim.Nothing? && w.g.username != [] && !ExpiryUnread(w) {
      CurrentIsLastAccepted(w.d);
      OnlyQueriesUnread(w);
    }
  }

  lemma OnlyQueriesUnread(w: World)
    requires Consistent(w) && Claims(w)
    ensures LastCreate(w.sent[..|w.d.requests|]) == LastCreate(w.sent)
  {
    hide Inv, LastOf, Described, Lapsed, Numbered;
    var n := |w.d.requests|;
    if n < |w.sent| {
      assert w.sent[..n] == w.sent[..|w.sent| - 1];
    } else {
      assert w.sent[..n] == w.sent;
    }
  }
}
