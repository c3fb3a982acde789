/**
 * The daemon's registry of running user sessions and what it tells its clients about them. A step is
 * one that changes the registry together with the messages it broadcasts; a broadcast is one step.
 */
module SessionRegistry {
  import opened Wrappers
  import opened Framing
  import opened Decimal
  import G = GreeterProtocol

  /** One started user session; `serial` tells the objects apart, `pid` need not. */
  datatype Session = Session(serial: nat, pid: int, username: string, command: string)

  datatype Exit = Exit(session: Session, returncode: int)

  /** One client: whether its channel is open, and what was sent over its current channel. */
  datatype Peer = Peer(open: bool, received: seq<G.Message>, since: nat, changed: bool)

  /**
   * `active` is the dictionary `active_sessions` in its order. `started` and `finished` are the history
   * of the run; of a peer, `since` counts the sessions finished before its channel was opened and
   * `changed` says that `active` changed afterwards.
   */
  datatype Registry = Registry(
    seat: string,
    greeterReady: bool,
    active: seq<Session>,
    peers: seq<Peer>,
    started: seq<Session>,
    finished: seq<Exit>)

  // ---------- the dictionary of active sessions ----------

  predicate HasPid(active: seq<Session>, pid: int) {
    exists s :: s in active && s.pid == pid
  }

  /** `active[pid] = session`: an entry with the same pid is replaced where it stands. */
  function Put(active: seq<Session>, s: Session): seq<Session> {
    if active == [] then [s]
    else if active[0].pid == s.pid then [s] + active[1..]
    else [active[0]] + Put(active[1..], s)
  }

  /** `active.pop(pid, None)` */
  function Pop(active: seq<Session>, pid: int): seq<Session> {
    if active == [] then []
    else if active[0].pid == pid then active[1..]
    else [active[0]] + Pop(active[1..], pid)
  }

  // ---------- messages ----------

  function Records(active: seq<Session>): seq<G.SessionRecord> {
    seq(|active|, i requires 0 <= i < |active| => G.SessionRecord(active[i].pid, active[i].username, active[i].command))
  }

  function StateChanged(r: Registry): G.Message {
    G.Event("state-changed", G.StateChanged(G.Snapshot(r.seat, r.greeterReady, Records(r.active))))
  }

  function FinishedBody(e: Exit): G.EventBody {
    var failed := e.returncode != 0;
    G.SessionFinished(e.session.pid, e.returncode, failed,
                      if failed then "Session failed with exit status " + IntText(e.returncode) + "." else "Session finished.")
  }

  function FinishedMessage(e: Exit): G.Message {
    G.Event("session-finished", FinishedBody(e))
  }

  predicate Encodable(m: G.Message) {
    G.EncodeMessage(m).Ok?
  }

  /** `send_message`: a message that does not fit a frame is dropped. */
  function Sent(p: Peer, m: G.Message): Peer {
    if p.open && Encodable(m) then p.(received := p.received + [m]) else p
  }

  function Broadcast(peers: seq<Peer>, m: G.Message): seq<Peer> {
    seq(|peers|, i requires 0 <= i < |peers| => Sent(peers[i], m))
  }

  function Changed(peers: seq<Peer>): seq<Peer> {
    seq(|peers|, i requires 0 <= i < |peers| => peers[i].(changed := true))
  }

  // ---------- steps ----------

  function Publish(r: Registry): Registry {
    r.(peers := Changed(Broadcast(r.peers, StateChanged(r))))
  }

  /** A user session was spawned by `handle_request_async`. */
  function Start(r: Registry, pid: int, username: string, command: string): Registry {
    var s := Session(|r.started|, pid, username, command);
    Publish(r.(active := Put(r.active, s), started := r.started + [s]))
  }

  /** `send_session_finished` */
  function Finish(r: Registry, serial: nat, returncode: int): Registry
    requires serial < |r.started|
  {
    var e := Exit(r.started[serial], returncode);
    Publish(r.(active := Pop(r.active, e.session.pid),
               finished := r.finished + [e],
               peers := Broadcast(r.peers, FinishedMessage(e))))
  }

  datatype Label =
    | Starts(pid: int, username: string, command: string)
    | Finishes(serial: nat, returncode: int)
    | Connects(peer: nat)
    | Disconnects(peer: nat)
    | GreeterReady(ready: bool)
    | Tells(peer: nat, message: G.Message)

  predicate IsDone(r: Registry, serial: nat) {
    exists i :: 0 <= i < |r.finished| && r.finished[i].session.serial == serial
  }

  predicate IsStateEvent(m: G.Message) {
    m.Event? && (m.event.StateChanged? || m.event.SessionFinished?)
  }

  /** Each session is awaited by one monitor task, which runs once; pids and exit codes are C ints. */
  predicate Enabled(r: Registry, l: Label) {
    match l
    case Starts(pid, _, _) => FitsI32(pid)
    case Finishes(serial, returncode) => serial < |r.started| && !IsDone(r, serial) && FitsI32(returncode)
    case Connects(i) => i < |r.peers|
    case Disconnects(i) => i < |r.peers|
    case GreeterReady(_) => true
    case Tells(i, m) => i < |r.peers| && !IsStateEvent(m)
  }

  function Step(r: Registry, l: Label): Registry
    requires Enabled(r, l)
  {
    match l
    case Starts(pid, username, command) => Start(r, pid, username, command)
    case Finishes(serial, returncode) => Finish(r, serial, returncode)
    case Connects(i) => r.(peers := r.peers[i := Peer(true, [], |r.finished|, false)])
    case Disconnects(i) => r.(peers := r.peers[i := r.peers[i].(open := false)])
    case GreeterReady(ready) => r.(greeterReady := ready)
    case Tells(i, m) => r.(peers := r.peers[i := Sent(r.peers[i], m)])
  }

  function Init(seat: string, clients: nat): Registry {
    Registry(seat, false, [], seq(clients, _ => Peer(false, [], 0, false)), [], [])
  }

  /** Step number `n` of a run is the step of its label. */
  predicate Steps(states: seq<Registry>, labels: seq<Label>, n: nat) {
    && n < |labels| && n + 1 < |states|
    && Enabled(states[n], labels[n])
    && states[n + 1] == Step(states[n], labels[n])
  }

  /** A run: the states the registry goes through, and the step that leads to each next one. */
  predicate Run(seat: string, clients: nat, states: seq<Registry>, labels: seq<Label>) {
    && |states| == |labels| + 1
    && states[0] == Init(seat, clients)
    && forall n {:trigger Steps(states, labels, n)} | 0 <= n < |labels| :: Steps(states, labels, n)
  }

  // ---------- conservation ----------

  /** The operating system hands out no pid that the registry still lists. */
  predicate Fresh(r: Registry, l: Label) {
    l.Starts? ==> !HasPid(r.active, l.pid)
  }

  predicate FreshRun(states: seq<Registry>, labels: seq<Label>) {
    forall n | 0 <= n < |labels| && n < |states| :: Fresh(states[n], labels[n])
  }

  function Done(finished: seq<Exit>): seq<Session> {
    seq(|finished|, i requires 0 <= i < |finished| => finished[i].session)
  }

  predicate Serials(r: Registry) {
    forall i | 0 <= i < |r.started| :: r.started[i].serial == i && FitsI32(r.started[i].pid)
  }

  predicate PidsDiffer(active: seq<Session>) {
    active == [] || ((forall s <- active[1..] :: s.pid != active[0].pid) && PidsDiffer(active[1..]))
  }

  /** Every started session is either active or finished, never both, and never twice. */
  predicate Conserved(r: Registry) {
    && Serials(r)
    && PidsDiffer(r.active)
    && multiset(r.started) == multiset(r.active) + multiset(Done(r.finished))
  }

  lemma {:induction false} PutAppends(active: seq<Session>, s: Session)
    requires !HasPid(active, s.pid) && PidsDiffer(active)
    ensures Put(active, s) == active + [s] && PidsDiffer(active + [s])
  {
    if active != [] {
      assert forall x <- active[1..] :: x in active;
      PutAppends(active[1..], s);
      assert (active + [s])[1..] == active[1..] + [s];
      assert active[0] in active;
    }
  }

  lemma {:induction false} PutReplaces(active: seq<Session>, s: Session)
    requires HasPid(active, s.pid)
    ensures |Put(active, s)| == |active|
  {
    var x :| x in active && x.pid == s.pid;
    if active[0].pid != s.pid {
      assert x in active[1..];
      PutReplaces(active[1..], s);
    }
  }

  lemma {:induction false} PopKeeps(active: seq<Session>, pid: int)
    ensures forall x <- Pop(active, pid) :: x in active
  {
    if active != [] {
      PopKeeps(active[1..], pid);
      assert forall x <- active[1..] :: x in active;
    }
  }

  lemma {:induction false} PopRemoves(active: seq<Session>, s: Session)
    requires s in active && PidsDiffer(active)
    ensures multiset(active) == multiset(Pop(active, s.pid)) + multiset{s}
    ensures PidsDiffer(Pop(active, s.pid))
  {
    assert active == [active[0]] + active[1..];
    if active[0].pid == s.pid {
      assert s == active[0];
    } else {
      var rest := Pop(active[1..], s.pid);
      PopRemoves(active[1..], s);
      PopKeeps(active[1..], s.pid);
      assert ([active[0]] + rest)[1..] == rest;
    }
  }

  lemma DoneAppend(finished: seq<Exit>, e: Exit)
    ensures Done(finished + [e]) == Done(finished) + [e.session]
  {
  }

  /** A session that is not finished is listed. */
  lemma Listed(r: Registry, serial: nat)
    requires Conserved(r) && serial < |r.started| && !IsDone(r, serial)
    ensures r.started[serial] in r.active
  {
    var s := r.started[serial];
    assert s in multiset(r.started);
    forall i | 0 <= i < |Done(r.finished)|
      ensures Done(r.finished)[i] != s
    {
      assert r.finished[i].session.serial != serial;
    }
  }

  lemma StartConserves(r: Registry, l: Label)
    requires Conserved(r) && Enabled(r, l) && l.Starts? && Fresh(r, l)
    ensures Conserved(Step(r, l))
  {
    hide Publish, PidsDiffer, HasPid;
    var s := Session(|r.started|, l.pid, l.username, l.command);
    PutAppends(r.active, s);
    PublishFrame(r.(active := r.active + [s], started := r.started + [s]));
  }

  lemma PublishFrame(r: Registry)
    ensures Publish(r) == r.(peers := Publish(r).peers)
  {
  }

  lemma FinishConserves(r: Registry, l: Label)
    requires Conserved(r) && Enabled(r, l) && l.Finishes?
    ensures Conserved(Step(r, l))
  {
    hide Publish, PidsDiffer, IsDone, FinishedMessage;
    var e := Exit(r.started[l.serial], l.returncode);
    Listed(r, l.serial);
    PopRemoves(r.active, e.session);
    DoneAppend(r.finished, e);
    PublishFrame(r.(active := Pop(r.active, e.session.pid), finished := r.finished + [e],
                    peers := Broadcast(r.peers, FinishedMessage(e))));
  }

  lemma StepConserves(r: Registry, l: Label)
    requires Conserved(r) && Enabled(r, l) && Fresh(r, l)
    ensures Conserved(Step(r, l))
  {
    hide Conserved;
    match l
    case Starts(_, _, _) => StartConserves(r, l);
    case Finishes(_, _) => FinishConserves(r, l);
    case _ => OthersConserve(r, l);
  }

  lemma OthersConserve(r: Registry, l: Label)
    requires Conserved(r) && Enabled(r, l) && !l.Starts? && !l.Finishes?
    ensures Conserved(Step(r, l))
  {
  }

  /** Sessions are conserved at every step of a run, if pids are fresh. */
  lemma {:induction false} SessionsAreConserved(seat: string, clients: nat, states: seq<Registry>, labels: seq<Label>, n: nat)
    requires Run(seat, clients, states, labels) && FreshRun(states, labels) && n < |states|
    ensures Conserved(states[n])
  {
    hide Conserved, Step, Enabled, Fresh;
    if n == 0 {
      InitConserved(seat, clients);
    } else {
      SessionsAreConserved(seat, clients, states, labels, n - 1);
      assert Steps(states, labels, n - 1);
      StepConserves(states[n - 1], labels[n - 1]);
    }
  }

  lemma InitConserved(seat: string, clients: nat)
    ensures Conserved(Init(seat, clients))
  {
  }

  /** Starting a session keeps the sessions conserved exactly when its pid is not listed already. */
  lemma ConservedIffFresh(r: Registry, l: Label)
    requires Conserved(r) && Enabled(r, l) && l.Starts?
    ensures Conserved(Step(r, l)) <==> !HasPid(r.active, l.pid)
  {
    if HasPid(r.active, l.pid) {
      var s := Session(|r.started|, l.pid, l.username, l.command);
      var e := Step(r, l);
      PutReplaces(r.active, s);
      assert |multiset(r.started)| == |multiset(r.active)| + |multiset(Done(r.finished))|;
      assert |multiset(e.started)| == |multiset(r.started)| + 1;
      assert |multiset(e.active)| == |multiset(r.active)|;
    } else {
      StartConserves(r, l);
    }
  }

  lemma ListedOnce(r: Registry, x: Session)
    requires Conserved(r) && x in r.active
    ensures x.serial < |r.started| && r.started[x.serial] == x && !IsDone(r, x.serial)
  {
    hide PidsDiffer;
    assert x in multiset(r.started);
    if IsDone(r, x.serial) {
      var i :| 0 <= i < |r.finished| && r.finished[i].session.serial == x.serial;
      var y := Done(r.finished)[i];
      assert y in multiset(r.started);
      assert y == x;
      OnlyOnce(r.started, x);
    }
  }

  lemma OnlyOnce(started: seq<Session>, x: Session)
    requires forall i | 0 <= i < |started| :: started[i].serial == i
    ensures multiset(started)[x] <= 1
  {
    if started != [] {
      var n := |started| - 1;
      OnlyOnce(started[..n], x);
      assert started == started[..n] + [started[n]];
      if x == started[n] {
        assert x !in started[..n];
      }
    }
  }

  /** An entry that was put into the dictionary stays until its own pid is popped. */
  lemma {:induction false} PutThenPop(active: seq<Session>, s: Session, pid: int)
    requires s !in active
    ensures s in Put(active, s)
    ensures s in Pop(Put(active, s), pid) <==> s.pid != pid
  {
    if active != [] && active[0].pid != s.pid {
      PutThenPop(active[1..], s, pid);
      assert Put(active, s)[1..] == Put(active[1..], s);
    }
  }

  /**
   * The end of an earlier session unlists a running one exactly if both have the same pid, as when the
   * system has given the pid out again before the end of its first holder was handled. The running
   * session is then neither listed nor finished, whatever it was that the end announced.
   */
  lemma ReusedPidLosesASession(r: Registry, start: Label, exit: Label)
    requires Conserved(r) && Enabled(r, start) && start.Starts? && Enabled(r, exit) && exit.Finishes?
    ensures var s := Session(|r.started|, start.pid, start.username, start.command);
            var e := Step(r, start);
            s in e.active && Enabled(e, exit) &&
            var f := Step(e, exit);
            && s in f.started && !IsDone(f, s.serial)
            && (s in f.active <==> r.started[exit.serial].pid != start.pid)
  {
    hide Publish, PidsDiffer, FinishedMessage;
    var s := Session(|r.started|, start.pid, start.username, start.command);
    if s in r.active {
      ListedOnce(r, s);
    }
    PutThenPop(r.active, s, r.started[exit.serial].pid);
    StartFrame(r, start);
    if IsDone(r, |r.started|) {
      DoneWasStarted(r, |r.started|);
    }
    FinishFrame(Step(r, start), exit);
  }

  lemma StartFrame(r: Registry, l: Label)
    requires Enabled(r, l) && l.Starts?
    ensures var s := Session(|r.started|, l.pid, l.username, l.command);
            Step(r, l) == r.(active := Put(r.active, s), started := r.started + [s], peers := Step(r, l).peers)
  {
    hide Publish;
    var s := Session(|r.started|, l.pid, l.username, l.command);
    PublishFrame(r.(active := Put(r.active, s), started := r.started + [s]));
  }

  lemma FinishFrame(r: Registry, l: Label)
    requires Enabled(r, l) && l.Finishes?
    ensures var e := Exit(r.started[l.serial], l.returncode);
            Step(r, l) == r.(active := Pop(r.active, e.session.pid), finished := r.finished + [e], peers := Step(r, l).peers)
  {
    hide Publish, FinishedMessage;
    var e := Exit(r.started[l.serial], l.returncode);
    PublishFrame(r.(active := Pop(r.active, e.session.pid), finished := r.finished + [e],
                    peers := Broadcast(r.peers, FinishedMessage(e))));
  }

  /** Only sessions that were started have finished. */
  lemma DoneWasStarted(r: Registry, serial: nat)
    requires Conserved(r) && IsDone(r, serial)
    ensures serial < |r.started|
  {
    hide PidsDiffer;
    var i :| 0 <= i < |r.finished| && r.finished[i].session.serial == serial;
    assert Done(r.finished)[i] in multiset(r.started);
  }

  // ---------- one event for each finished session ----------

  function FinishedSeen(received: seq<G.Message>): seq<G.EventBody> {
    if received == [] then []
    else
      var before := FinishedSeen(received[..|received| - 1]);
      var m := received[|received| - 1];
      if m.Event? && m.event.SessionFinished? then before + [m.event] else before
  }

  /** The newest `state-changed` a client was sent. */
  function LastView(received: seq<G.Message>): Option<seq<G.SessionRecord>> {
    if received == [] then None
    else
      var m := received[|received| - 1];
      if m.Event? && m.event.StateChanged? then Some(m.event.snapshot.sessions)
      else LastView(received[..|received| - 1])
  }

  lemma SeenAppend(received: seq<G.Message>, m: G.Message)
    ensures FinishedSeen(received + [m]) ==
            if m.Event? && m.event.SessionFinished? then FinishedSeen(received) + [m.event] else FinishedSeen(received)
    ensures LastView(received + [m]) ==
            if m.Event? && m.event.StateChanged? then Some(m.event.snapshot.sessions) else LastView(received)
  {
    assert (received + [m])[..|received|] == received;
  }

  function FinishedBodies(finished: seq<Exit>): seq<G.EventBody> {
    seq(|finished|, i requires 0 <= i < |finished| => FinishedBody(finished[i]))
  }

  /** Over an open channel exactly the exits since it was opened were announced, each once, in order. */
  predicate Announced(p: Peer, finished: seq<Exit>) {
    p.open ==> p.since <= |finished| && FinishedSeen(p.received) == FinishedBodies(finished[p.since..])
  }

  function Pow10(k: nat): nat {
    if k == 0 then 1 else 10 * Pow10(k - 1)
  }

  lemma {:induction false} ShortNumber(n: nat, k: nat)
    requires k > 0 && n < Pow10(k)
    ensures |NatText(n)| <= k && forall c | c in NatText(n) :: c < '\U{0080}'
  {
    if n >= 10 {
      ShortNumber(n / 10, k - 1);
    }
  }

  lemma AsciiText(value: string)
    requires forall c | c in value :: c < '\U{0080}'
    requires |value| < 100
    ensures |EncodeText(value)| == HEADER_SIZE + |value| && FitsText(value)
  {
    G.Utf8.EncodeLength(value);
  }

  /** The announcement of a finished session always fits a frame. */
  lemma FinishedEncodable(e: Exit)
    requires FitsI32(e.session.pid) && FitsI32(e.returncode)
    ensures Encodable(FinishedMessage(e))
  {
    hide EncodeText, FitsText, IntText, I32;
    var text := FinishedBody(e).message;
    MessageIsShort(e);
    AsciiText(text);
    AsciiText("session-finished");
    IntSize(e.session.pid);
    IntSize(e.returncode);
    FinishedSize(FinishedBody(e));
  }

  lemma IntSize(v: int)
    requires FitsI32(v)
    ensures |I32(v)| == HEADER_SIZE
  {
  }

  lemma FinishedSize(body: G.EventBody)
    requires body.SessionFinished? && FitsI32(body.pid) && FitsI32(body.returncode)
    ensures G.EventOf("session-finished") == G.EFinished
    ensures |G.EncodeEvent(G.EFinished, body)| == 2 * HEADER_SIZE + 1 + |EncodeText(body.message)|
  {
    hide EncodeText, I32;
    IntSize(body.pid);
    IntSize(body.returncode);
  }

  lemma MessageIsShort(e: Exit)
    requires FitsI32(e.returncode)
    ensures |FinishedBody(e).message| < 60 && forall c | c in FinishedBody(e).message :: c < '\U{0080}'
  {
    hide IntText;
    IntTextIsShort(e.returncode);
    AsciiJoin("Session failed with exit status ", IntText(e.returncode));
    AsciiJoin("Session failed with exit status " + IntText(e.returncode), ".");
  }

  lemma IntTextIsShort(v: int)
    requires FitsI32(v)
    ensures |IntText(v)| <= 11 && forall c | c in IntText(v) :: c < '\U{0080}'
  {
    hide NatText;
    Pow10Is(10);
    ShortNumber(if v < 0 then -v else v, 10);
  }

  lemma AsciiJoin(a: string, b: string)
    requires (forall c | c in a :: c < '\U{0080}') && (forall c | c in b :: c < '\U{0080}')
    ensures forall c | c in a + b :: c < '\U{0080}'
  {
  }

  lemma Pow10Is(k: nat)
    requires k == 10
    ensures Pow10(k) == 10_000_000_000
  {
    assert Pow10(5) == 100_000;
  }

  predicate AllAnnounced(r: Registry) {
    forall i | 0 <= i < |r.peers| :: Announced(r.peers[i], r.finished)
  }

  lemma OtherMessageAnnounced(p: Peer, m: G.Message, finished: seq<Exit>)
    requires Announced(p, finished) && !(m.Event? && m.event.SessionFinished?)
    ensures Announced(Sent(p, m), finished)
  {
    hide Encodable;
    SeenAppend(p.received, m);
  }

  lemma ExitAnnounced(p: Peer, e: Exit, finished: seq<Exit>)
    requires Announced(p, finished) && FitsI32(e.session.pid) && FitsI32(e.returncode)
    ensures Announced(Sent(p, FinishedMessage(e)), finished + [e])
  {
    hide Encodable;
    FinishedEncodable(e);
    SeenAppend(p.received, FinishedMessage(e));
    if p.open {
      assert (finished + [e])[p.since..] == finished[p.since..] + [e];
      assert FinishedBodies(finished[p.since..] + [e]) == FinishedBodies(finished[p.since..]) + [FinishedBody(e)];
    }
  }

  lemma PublishAnnounces(r: Registry)
    requires AllAnnounced(r)
    ensures AllAnnounced(Publish(r))
  {
    hide Encodable, FinishedSeen, Sent, Announced;
    var m := StateChanged(r);
    forall i | 0 <= i < |r.peers|
      ensures Announced(Publish(r).peers[i], r.finished)
    {
      OtherMessageAnnounced(r.peers[i], m, r.finished);
      ChangedAnnounced(Sent(r.peers[i], m), r.finished);
    }
  }

  lemma ChangedAnnounced(p: Peer, finished: seq<Exit>)
    requires Announced(p, finished)
    ensures Announced(p.(changed := true), finished)
  {
  }

  lemma StepAnnounces(r: Registry, l: Label)
    requires AllAnnounced(r) && Serials(r) && Enabled(r, l)
    ensures AllAnnounced(Step(r, l)) && Serials(Step(r, l))
  {
    hide Encodable, FinishedSeen, Sent, Publish, FinishedBodies, IsDone;
    match l
    case Starts(pid, username, command) =>
      var s := Session(|r.started|, pid, username, command);
      PublishFrame(r.(active := Put(r.active, s), started := r.started + [s]));
      PublishAnnounces(r.(active := Put(r.active, s), started := r.started + [s]));
    case Finishes(serial, returncode) =>
      var e := Exit(r.started[serial], returncode);
      var n := r.(active := Pop(r.active, e.session.pid), finished := r.finished + [e],
                  peers := Broadcast(r.peers, FinishedMessage(e)));
      forall i | 0 <= i < |n.peers| ensures Announced(n.peers[i], n.finished) {
        ExitAnnounced(r.peers[i], e, r.finished);
      }
      PublishFrame(n);
      PublishAnnounces(n);
    case Connects(i) => EmptyBodies(r.finished);
    case Tells(i, m) => OtherMessageAnnounced(r.peers[i], m, r.finished);
    case _ =>
  }

  lemma EmptyBodies(finished: seq<Exit>)
    ensures FinishedBodies(finished[|finished|..]) == [] == FinishedSeen([])
  {
  }

  /** Every client is told of each session that finished since it connected exactly once, in order. */
  lemma {:induction false} ExitsAreAnnouncedOnce(seat: string, clients: nat, states: seq<Registry>, labels: seq<Label>, n: nat)
    requires Run(seat, clients, states, labels) && n < |states|
    ensures AllAnnounced(states[n]) && Serials(states[n])
  {
    hide AllAnnounced, Serials, Step, Enabled;
    if n == 0 {
      InitAnnounced(seat, clients);
    } else {
      ExitsAreAnnouncedOnce(seat, clients, states, labels, n - 1);
      assert Steps(states, labels, n - 1);
      StepAnnounces(states[n - 1], labels[n - 1]);
    }
  }

  lemma InitAnnounced(seat: string, clients: nat)
    ensures AllAnnounced(Init(seat, clients)) && Serials(Init(seat, clients))
  {
  }

  // ---------- views converge ----------

  /** A snapshot listing these sessions fits a frame. */
  predicate SnapshotFits(seat: string, records: seq<G.SessionRecord>) {
    Encodable(G.Event("state-changed", G.StateChanged(G.Snapshot(seat, false, records))))
  }

  lemma ReadinessFits(seat: string, ready: bool, records: seq<G.SessionRecord>)
    ensures Encodable(G.Event("state-changed", G.StateChanged(G.Snapshot(seat, ready, records)))) <==> SnapshotFits(seat, records)
  {
    hide EncodeText, FitsText, G.EncodeSessions, G.FitsSessions, U32;
  }

  /** What an open channel last showed is a list that fits, and the current one if that fits. */
  predicate Converged(p: Peer, seat: string, active: seq<Session>) {
    p.open ==>
      && (LastView(p.received).Some? ==> SnapshotFits(seat, LastView(p.received).value))
      && (p.changed && SnapshotFits(seat, Records(active)) ==> LastView(p.received) == Some(Records(active)))
  }

  predicate AllConverged(r: Registry) {
    forall i | 0 <= i < |r.peers| :: Converged(r.peers[i], r.seat, r.active)
  }

  /** Everything a converged channel needs to stay so under other messages. */
  predicate Sound(p: Peer, seat: string) {
    p.open && LastView(p.received).Some? ==> SnapshotFits(seat, LastView(p.received).value)
  }

  lemma PublishConverges(r: Registry)
    requires forall i | 0 <= i < |r.peers| :: Sound(r.peers[i], r.seat)
    ensures AllConverged(Publish(r))
  {
    hide Encodable, LastView, SnapshotFits;
    var m := StateChanged(r);
    ReadinessFits(r.seat, r.greeterReady, Records(r.active));
    forall i | 0 <= i < |r.peers|
      ensures Converged(Publish(r).peers[i], r.seat, r.active)
    {
      SeenAppend(r.peers[i].received, m);
      assert Sound(r.peers[i], r.seat);
    }
  }

  lemma OtherMessageSound(p: Peer, m: G.Message, seat: string, active: seq<Session>)
    requires !(m.Event? && m.event.StateChanged?)
    ensures Sound(p, seat) ==> Sound(Sent(p, m), seat)
    ensures Converged(p, seat, active) ==> Converged(Sent(p, m), seat, active)
  {
    hide Encodable, LastView, SnapshotFits;
    SeenAppend(p.received, m);
  }

  lemma StepConverges(r: Registry, l: Label)
    requires AllConverged(r) && Enabled(r, l)
    ensures AllConverged(Step(r, l))
  {
    hide Encodable, LastView, SnapshotFits, Publish, Sent, IsDone, FinishedMessage;
    match l
    case Starts(pid, username, command) =>
      var s := Session(|r.started|, pid, username, command);
      PublishConverges(r.(active := Put(r.active, s), started := r.started + [s]));
    case Finishes(serial, returncode) =>
      var e := Exit(r.started[serial], returncode);
      var n := r.(active := Pop(r.active, e.session.pid), finished := r.finished + [e],
                  peers := Broadcast(r.peers, FinishedMessage(e)));
      forall i | 0 <= i < |n.peers| ensures Sound(n.peers[i], n.seat) {
        ExitIsNoView(e);
        assert Converged(r.peers[i], r.seat, r.active);
        OtherMessageSound(r.peers[i], FinishedMessage(e), r.seat, r.active);
      }
      PublishConverges(n);
    case Connects(i) => NoView();
    case Tells(i, m) => OtherMessageSound(r.peers[i], m, r.seat, r.active);
    case _ =>
  }

  lemma ExitIsNoView(e: Exit)
    ensures FinishedMessage(e).Event? && !FinishedMessage(e).event.StateChanged?
  {
  }

  lemma NoView()
    ensures LastView([]) == None
  {
  }

  lemma {:induction false} RunConverges(seat: string, clients: nat, states: seq<Registry>, labels: seq<Label>, n: nat)
    requires Run(seat, clients, states, labels) && n < |states|
    ensures AllConverged(states[n]) && states[n].seat == seat
  {
    hide AllConverged, Enabled;
    if n == 0 {
      InitConverged(seat, clients);
    } else {
      RunConverges(seat, clients, states, labels, n - 1);
      assert Steps(states, labels, n - 1);
      StepConverges(states[n - 1], labels[n - 1]);
    }
  }

  lemma InitConverged(seat: string, clients: nat)
    ensures AllConverged(Init(seat, clients))
  {
  }

  /**
   * Once the list of active sessions has changed, what a connected client was last told equals it
   * exactly when the list fits a frame: an over-long snapshot is dropped and the client keeps an old one.
   */
  lemma ViewsConvergeIffTheyFit(seat: string, clients: nat, states: seq<Registry>, labels: seq<Label>, n: nat, i: nat)
    requires Run(seat, clients, states, labels) && n < |states|
    requires i < |states[n].peers| && states[n].peers[i].open && states[n].peers[i].changed
    ensures var r := states[n];
            LastView(r.peers[i].received) == Some(Records(r.active)) <==> SnapshotFits(seat, Records(r.active))
  {
    hide Run, LastView, SnapshotFits;
    RunConverges(seat, clients, states, labels, n);
    assert Converged(states[n].peers[i], seat, states[n].active);
  }

  /** Bytes that a list of sessions takes in a snapshot. */
  function ListSize(records: seq<G.SessionRecord>): nat {
    if records == [] then 0
    else 12 + |G.Utf8.Encode(records[0].username)| + |G.Utf8.Encode(records[0].command)| + ListSize(records[1..])
  }

  lemma SessionSize(s: G.SessionRecord)
    requires FitsI32(s.pid)
    ensures var n := |G.Utf8.Encode(s.username)| + |G.Utf8.Encode(s.command)|;
            |G.EncodeSession(s)| == 12 + n && (n < U32_LIMIT ==> G.FitsSession(s))
  {
    hide I32, G.Utf8.Encode;
    IntSize(s.pid);
  }

  lemma {:induction false} SessionsSize(records: seq<G.SessionRecord>)
    requires forall s <- records :: FitsI32(s.pid)
    ensures |G.EncodeSessions(records)| == ListSize(records)
    ensures |records| <= ListSize(records)
    ensures ListSize(records) <= 2048 ==> G.FitsSessions(records)
  {
    hide G.EncodeSession, G.FitsSession, G.Utf8.Encode;
    if records != [] {
      SessionSize(records[0]);
      assert forall s <- records[1..] :: s in records;
      SessionsSize(records[1..]);
      assert forall s <- records :: s == records[0] || s in records[1..];
    }
  }

  /** A snapshot fits a frame exactly when its texts and integers take no more than 2048 bytes in all. */
  lemma SnapshotFitsExactly(seat: string, records: seq<G.SessionRecord>)
    requires forall s <- records :: FitsI32(s.pid)
    ensures SnapshotFits(seat, records) <==> 28 + |G.Utf8.Encode(seat)| + ListSize(records) <= 2048
  {
    hide ListSize, G.EncodeSessions, G.FitsSessions, G.Utf8.Encode, U32;
    SessionsSize(records);
    AsciiText("state-changed");
    SnapshotSize(seat, records);
  }

  lemma SnapshotSize(seat: string, records: seq<G.SessionRecord>)
    ensures |G.EncodeSnapshot(G.Snapshot(seat, false, records))| == 9 + |G.Utf8.Encode(seat)| + |G.EncodeSessions(records)|
    ensures G.EventOf("state-changed") == G.EStateChanged
  {
    hide G.EncodeSessions, G.Utf8.Encode;
  }

  /** Two sessions whose commands are some 1000 characters long are already too much. */
  lemma LongSnapshotsAreLost(seat: string, a: G.SessionRecord, b: G.SessionRecord)
    requires FitsI32(a.pid) && FitsI32(b.pid) && |a.command| + |b.command| >= 1997
    ensures !SnapshotFits(seat, [a, b])
  {
    hide SnapshotFits, G.Utf8.Encode;
    SnapshotFitsExactly(seat, [a, b]);
    G.Utf8.EncodeLength(a.command);
    G.Utf8.EncodeLength(b.command);
    assert [a, b][1..] == [b] && [b][1..] == [];
    assert ListSize([b]) >= 12 + |b.command|;
  }

  // ---------- what a client is told ----------

  /** The record shows the session. */
  predicate Depicts(record: G.SessionRecord, s: Session) {
    record.pid == s.pid && record.username == s.username && record.command == s.command
  }

  /** The message publishes these sessions on this seat. */
  predicate IsPublished(m: G.Message, r: Registry) {
    && m.Event? && m.name == "state-changed" && m.event.StateChanged?
    && m.event.snapshot.seat == r.seat && m.event.snapshot.greeterReady == r.greeterReady
    && |m.event.snapshot.sessions| == |r.active|
    && forall k | 0 <= k < |r.active| :: Depicts(m.event.snapshot.sessions[k], r.active[k])
  }

  /** The message announces the end of this session. */
  predicate IsAnnounced(m: G.Message, e: Exit) {
    && m.Event? && m.name == "session-finished" && m.event.SessionFinished?
    && m.event.pid == e.session.pid && m.event.returncode == e.returncode && (m.event.failed <==> e.returncode != 0)
    && m.event.message == if e.returncode == 0 then "Session finished."
                          else "Session failed with exit status " + IntText(e.returncode) + "."
  }

  /** A start is published to every connected client whose snapshot fits, and nothing else is sent. */
  lemma StartIsPublished(r: Registry, l: Label, i: nat)
    requires Enabled(r, l) && l.Starts? && i < |r.peers|
    ensures var e := Step(r, l);
            && |e.peers| == |r.peers|
            && var (was, now) := (r.peers[i], e.peers[i]);
               if was.open && SnapshotFits(r.seat, Records(e.active)) then
                 |now.received| == |was.received| + 1 && now.received[..|was.received|] == was.received
                 && IsPublished(now.received[|was.received|], e)
               else now.received == was.received
  {
    hide Encodable, Put;
    var s := Session(|r.started|, l.pid, l.username, l.command);
    var n := r.(active := Put(r.active, s), started := r.started + [s]);
    ReadinessFits(r.seat, r.greeterReady, Records(n.active));
    assert n.peers[i] == r.peers[i];
    assert IsPublished(StateChanged(n), n);
  }

  /** An end is announced to every connected client, and then published to it if the snapshot fits. */
  lemma FinishIsTold(r: Registry, l: Label, i: nat)
    requires Serials(r) && Enabled(r, l) && l.Finishes? && i < |r.peers|
    ensures var e := Step(r, l);
            && |e.peers| == |r.peers|
            && var (was, now) := (r.peers[i], e.peers[i]);
               if was.open then
                 && |now.received| == |was.received| + (if SnapshotFits(r.seat, Records(e.active)) then 2 else 1)
                 && now.received[..|was.received|] == was.received
                 && IsAnnounced(now.received[|was.received|], Exit(r.started[l.serial], l.returncode))
                 && (SnapshotFits(r.seat, Records(e.active)) ==> IsPublished(now.received[|was.received| + 1], e))
               else now.received == was.received
  {
    hide Encodable, Pop, IntText, FinishedMessage, IsDone;
    var x := Exit(r.started[l.serial], l.returncode);
    var n := r.(active := Pop(r.active, x.session.pid), finished := r.finished + [x],
                peers := Broadcast(r.peers, FinishedMessage(x)));
    FinishedEncodable(x);
    AnnouncementSays(x);
    ReadinessFits(r.seat, r.greeterReady, Records(n.active));
    assert IsPublished(StateChanged(n), n);
  }

  lemma AnnouncementSays(e: Exit)
    ensures IsAnnounced(FinishedMessage(e), e)
  {
    hide IntText;
  }
}
