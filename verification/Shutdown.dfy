/**
 * The daemon's shutdown across all clients: `cleanup_async` stops every client's authentication, closes
 * every channel and joins its task, and only then terminates processes and user sessions.
 */
module Shutdown {
  import A = AuthMachine
  import I = AuthInvariants
  import T = AuthTheorems
  import R = SessionRegistry
  import Framing
  import Utf8
  import SizeBounds

  /**
   * Where the cleanup task is: stopping or joining its clients one after the other, terminating the
   * clients' processes, or terminating the user sessions it found.
   */
  datatype Cleanup =
    | NotBegun
    | StoppingAuth(client: nat)
    | Joining(client: nat)
    | TerminatingClients
    | TerminatingSessions(found: seq<R.Session>)

  datatype System = System(clients: seq<A.Daemon>, registry: R.Registry, cleanup: Cleanup)

  /** `pid` is the pid of the user session, in the step that spawns one. */
  datatype Act =
    | ClientRuns(client: nat, task: A.Label, pid: int)
    | SessionEnds(serial: nat, returncode: int)
    | CleanupRuns

  /** The step of a client's handler that spawns a user session. */
  predicate Spawns(d: A.Daemon, l: A.Label) {
    l.LaunchContinues? && d.handler.Launching? && d.handler.step == 1
  }

  predicate May(s: System, a: Act) {
    match a
    case ClientRuns(i, l, pid) =>
      && i < |s.clients| && !l.SweepRuns? && A.Wired(s.clients[i]) && A.Enabled(s.clients[i], l)
      && (Spawns(s.clients[i], l) ==> Framing.FitsI32(pid))
    case SessionEnds(serial, returncode) => R.Enabled(s.registry, R.Finishes(serial, returncode))
    case CleanupRuns => forall i | 0 <= i < |s.clients| :: A.Wired(s.clients[i])
  }

  function SetClient(s: System, i: nat, d: A.Daemon): System
    requires i < |s.clients|
  {
    s.(clients := s.clients[i := d])
  }

  /** One step of the cleanup task. */
  function Clean(s: System): System
    requires May(s, CleanupRuns)
  {
    match s.cleanup
    case NotBegun => s.(cleanup := StoppingAuth(0))
    case StoppingAuth(i) =>
      if i >= |s.clients| then s.(cleanup := Joining(0))
      else if s.clients[i].sweep.Swept? then s.(cleanup := StoppingAuth(i + 1))
      else SetClient(s, i, A.OnSweep(s.clients[i]))
    case Joining(i) =>
      if i >= |s.clients| then s.(cleanup := TerminatingClients)
      else if s.clients[i].sweep.Joined? then s.(cleanup := Joining(i + 1))
      else SetClient(s, i, A.OnSweep(s.clients[i]))
    case TerminatingClients => s.(cleanup := TerminatingSessions(s.registry.active))
    case TerminatingSessions(_) => s
  }

  function Do(s: System, a: Act): System
    requires May(s, a)
  {
    match a
    case ClientRuns(i, l, pid) =>
      var d := s.clients[i];
      var n := SetClient(s, i, A.Step(d, l));
      if Spawns(d, l) then n.(registry := R.Start(s.registry, pid, d.handler.user, d.handler.command)) else n
    case SessionEnds(serial, returncode) => s.(registry := R.Finish(s.registry, serial, returncode))
    case CleanupRuns => Clean(s)
  }

  function Begin(timeout: int, seat: string, clients: nat): System {
    System(seq(clients, _ => A.Init(timeout)), R.Init(seat, clients), NotBegun)
  }

  /** Step number `n` of a play is the step of its act. */
  predicate Acts(states: seq<System>, acts: seq<Act>, n: nat) {
    && n < |acts| && n + 1 < |states|
    && May(states[n], acts[n])
    && states[n + 1] == Do(states[n], acts[n])
  }

  /** A play: the states the daemon goes through from the start, and what leads to each next one. */
  predicate Play(timeout: int, seat: string, clients: nat, states: seq<System>, acts: seq<Act>) {
    && |states| == |acts| + 1
    && states[0] == Begin(timeout, seat, clients)
    && forall n {:trigger Acts(states, acts, n)} | 0 <= n < |acts| :: Acts(states, acts, n)
  }

  /** No spawned session got a pid that the registry still listed. */
  predicate PidsFresh(states: seq<System>, acts: seq<Act>) {
    forall n | 0 <= n < |acts| && n < |states| :: FreshPid(states[n], acts[n])
  }

  predicate FreshPid(s: System, a: Act) {
    a.ClientRuns? && a.client < |s.clients| && Spawns(s.clients[a.client], a.task) ==> !R.HasPid(s.registry.active, a.pid)
  }

  // ---------- the invariant ----------

  /** How far shutdown has come with client number `i`. */
  predicate Progress(d: A.Daemon, cleanup: Cleanup, i: nat) {
    match cleanup
    case NotBegun => d.sweep.NotStarted?
    case StoppingAuth(k) =>
      if i < k then d.sweep.Swept?
      else if i == k then d.sweep.NotStarted? || d.sweep.SweepStopping? || d.sweep.Swept?
      else d.sweep.NotStarted?
    case Joining(k) =>
      if i < k then d.sweep.Joined?
      else if i == k then d.sweep.Swept? || d.sweep.Joining? || d.sweep.Joined?
      else d.sweep.Swept?
    case _ => d.sweep.Joined?
  }

  predicate ClientsOk(s: System) {
    forall i | 0 <= i < |s.clients| :: I.Inv(s.clients[i]) && Progress(s.clients[i], s.cleanup, i)
  }

  /** The list being terminated covers every session still listed as active. */
  predicate Covered(s: System) {
    s.cleanup.TerminatingSessions? ==> forall x <- s.registry.active :: x in s.cleanup.found
  }

  lemma CancelKeepsSweep(d: A.Daemon)
    requires A.Wired(d)
    ensures var c := A.CancelTimeout(d);
            c == d.(timers := c.timers, authTimer := c.authTimer) && A.Wired(c)
  {
  }

  lemma StopKeepsSweep(d: A.Daemon, sendCancel: bool, after: A.After)
    requires A.Wired(d)
    ensures A.StopSession(d, sendCancel, after).sweep == d.sweep
  {
    hide A.CancelTimeout;
    CancelKeepsSweep(d);
  }

  lemma TimerKeepsSweep(d: A.Daemon, t: A.TimerId)
    requires A.Wired(d) && t < |d.timers|
    ensures A.OnTimer(d, t).sweep == d.sweep
  {
    hide A.WarningDelay;
  }

  lemma RequestKeepsSweep(d: A.Daemon, r: A.Request, fits: bool)
    requires A.Wired(d) && d.handler.Idle?
    ensures A.OnRequest(d, r, fits).sweep == d.sweep
  {
    hide A.StopSession, A.CancelTimeout, SizeBounds.AuthFieldIsTooLong, Utf8.DecodeReplace;
    var n := d.(requests := d.requests + [r.id]);
    CancelKeepsSweep(n);
    StopKeepsSweep(A.Note(n, A.LCancel), true, A.ThenAccept(r.id));
    if r.body.Create? {
      var user := Utf8.DecodeReplace(r.body.username);
      StopKeepsSweep(A.Note(n, A.LAccept(user, r.id)), true, A.ThenCreate(r.id, user));
    }
  }

  lemma WorkerKeepsSweep(d: A.Daemon, m: A.FromWorker, fits: bool)
    requires A.Wired(d) && A.Awaited(d.handler).Some?
    ensures A.OnWorker(d, m, fits).sweep == d.sweep
  {
    hide A.StopSession, A.CancelTimeout;
    var n := I.Heard(d, m);
    CancelKeepsSweep(n);
    StopKeepsSweep(n, false, A.ThenRefuse(d.handler.id, if m.HasFailed? then m.code else "auth_failed", m.HasFailed? ==> fits));
    StopKeepsSweep(A.Note(n, A.LExit), true, A.ThenExit);
  }

  /** Only the cleanup task moves its own position. */
  lemma OthersKeepSweep(d: A.Daemon, l: A.Label)
    requires A.Wired(d) && A.Enabled(d, l) && !l.SweepRuns?
    ensures A.Step(d, l).sweep == d.sweep
  {
    hide A.StopSession, A.CancelTimeout, A.OnTimer, A.OnRequest, A.OnWorker;
    match l
    case Receive(r, fits) => RequestKeepsSweep(d, r, fits);
    case WorkerSays(m, fits) => WorkerKeepsSweep(d, m, fits);
    case TimerRuns(t) => TimerKeepsSweep(d, t);
    case _ =>
      CancelKeepsSweep(d);
      StopKeepsSweep(A.Note(d, A.LExit), true, A.ThenExit);
  }

  lemma SweepMoves(d: A.Daemon)
    requires A.Wired(d)
    ensures var e := A.OnSweep(d);
            && (d.sweep.NotStarted? || d.sweep.SweepStopping? ==> e.sweep.SweepStopping? || e.sweep.Swept?)
            && (d.sweep.Swept? || d.sweep.Joining? ==> e.sweep.Joining? || e.sweep.Joined?)
  {
    hide A.CancelTimeout;
    CancelKeepsSweep(d);
  }

  // ---------- steps ----------

  /** A joined client spawns nothing any more. */
  lemma JoinedSpawnsNothing(d: A.Daemon, l: A.Label)
    requires I.Inv(d) && d.sweep.Joined?
    ensures !Spawns(d, l)
  {
    hide I.TimerOk, I.ChannelOk, I.SpawnsAreAuthorized, I.LogOk, I.ResponsesOk, I.Outstanding;
  }

  lemma ClientKeeps(s: System, a: Act)
    requires ClientsOk(s) && May(s, a) && a.ClientRuns?
    ensures ClientsOk(Do(s, a))
  {
    hide I.Inv, A.Step, A.Enabled, R.Start;
    T.StepKeeps(s.clients[a.client], a.task);
    OthersKeepSweep(s.clients[a.client], a.task);
  }

  lemma CleanKeeps(s: System)
    requires ClientsOk(s) && May(s, CleanupRuns)
    ensures ClientsOk(Clean(s))
  {
    hide I.Inv, A.OnSweep;
    if (s.cleanup.StoppingAuth? || s.cleanup.Joining?) && s.cleanup.client < |s.clients| {
      var d := s.clients[s.cleanup.client];
      I.SweepKeeps(d);
      SweepMoves(d);
    }
  }

  lemma DoKeeps(s: System, a: Act)
    requires ClientsOk(s) && May(s, a)
    ensures ClientsOk(Do(s, a))
  {
    hide ClientsOk, Clean;
    match a
    case ClientRuns(_, _, _) => ClientKeeps(s, a);
    case SessionEnds(_, _) => RegistryKeeps(s, Do(s, a));
    case CleanupRuns => CleanKeeps(s);
  }

  lemma RegistryKeeps(s: System, e: System)
    requires ClientsOk(s) && e.clients == s.clients && e.cleanup == s.cleanup
    ensures ClientsOk(e)
  {
    hide I.Inv;
  }

  lemma BeginOk(timeout: int, seat: string, clients: nat)
    ensures ClientsOk(Begin(timeout, seat, clients))
  {
    hide I.Inv;
    T.InitInv(timeout);
  }

  lemma {:induction false} PlayKeeps(timeout: int, seat: string, clients: nat, states: seq<System>, acts: seq<Act>, n: nat)
    requires Play(timeout, seat, clients, states, acts) && n < |states|
    ensures ClientsOk(states[n])
  {
    hide ClientsOk, Do, May;
    if n == 0 {
      BeginOk(timeout, seat, clients);
    } else {
      PlayKeeps(timeout, seat, clients, states, acts, n - 1);
      assert Acts(states, acts, n - 1);
      DoKeeps(states[n - 1], acts[n - 1]);
    }
  }

  // ---------- quiescence of the whole daemon ----------

  predicate Terminating(s: System) {
    s.cleanup.TerminatingClients? || s.cleanup.TerminatingSessions?
  }

  /**
   * When cleanup begins to terminate processes, no client has a handler task, an authentication session
   * or an armed timer left, whatever any of them was waiting for when cleanup began.
   */
  lemma NothingIsLeftRunning(timeout: int, seat: string, clients: nat, states: seq<System>, acts: seq<Act>, n: nat, i: nat)
    requires Play(timeout, seat, clients, states, acts) && n < |states|
    requires Terminating(states[n]) && i < |states[n].clients|
    ensures T.Quiescent(states[n].clients[i])
  {
    hide Play, I.Inv;
    PlayKeeps(timeout, seat, clients, states, acts, n);
    InvQuiescent(states[n].clients[i]);
  }

  lemma InvQuiescent(d: A.Daemon)
    requires I.Inv(d) && d.sweep.Joined?
    ensures T.Quiescent(d)
  {
    hide I.TimerOk, I.ChannelOk, I.SpawnsAreAuthorized, I.LogOk, I.ResponsesOk, I.Outstanding;
  }

  /** From then on the active sessions only become fewer. */
  lemma SessionsOnlyShrink(timeout: int, seat: string, clients: nat, states: seq<System>, acts: seq<Act>, n: nat)
    requires Play(timeout, seat, clients, states, acts) && n < |acts| && Terminating(states[n])
    ensures var s, e := states[n], states[n + 1];
            && Terminating(e) && e.registry.started == s.registry.started
            && forall x <- e.registry.active :: x in s.registry.active
  {
    hide ClientsOk, Do, May;
    PlayKeeps(timeout, seat, clients, states, acts, n);
    assert Acts(states, acts, n);
    StepShrinks(states[n], acts[n]);
  }

  lemma StepShrinks(s: System, a: Act)
    requires ClientsOk(s) && Terminating(s) && May(s, a)
    ensures var e := Do(s, a);
            && Terminating(e) && e.registry.started == s.registry.started
            && forall x <- e.registry.active :: x in s.registry.active
  {
    hide I.Inv, A.Step, R.Publish, A.OnSweep;
    match a
    case ClientRuns(i, l, _) => JoinedSpawnsNothing(s.clients[i], l);
    case SessionEnds(serial, returncode) => FinishShrinks(s.registry, serial, returncode);
    case CleanupRuns =>
  }

  lemma FinishShrinks(r: R.Registry, serial: nat, returncode: int)
    requires serial < |r.started|
    ensures var e := R.Finish(r, serial, returncode);
            e.started == r.started && forall x <- e.active :: x in r.active
  {
    hide R.FinishedMessage, R.Broadcast;
    R.PopKeeps(r.active, r.started[serial].pid);
  }

  lemma {:induction false} PlayCovers(timeout: int, seat: string, clients: nat, states: seq<System>, acts: seq<Act>, n: nat)
    requires Play(timeout, seat, clients, states, acts) && n < |states|
    ensures Covered(states[n])
  {
    hide May, Do;
    if n > 0 {
      PlayCovers(timeout, seat, clients, states, acts, n - 1);
      assert Acts(states, acts, n - 1);
      if states[n - 1].cleanup.TerminatingSessions? {
        SessionsOnlyShrink(timeout, seat, clients, states, acts, n - 1);
        StaysTerminating(states[n - 1], acts[n - 1]);
      } else {
        FindsAll(states[n - 1], acts[n - 1]);
      }
    }
  }

  lemma StaysTerminating(s: System, a: Act)
    requires May(s, a) && s.cleanup.TerminatingSessions?
    ensures Do(s, a).cleanup == s.cleanup
  {
  }

  lemma FindsAll(s: System, a: Act)
    requires May(s, a) && !s.cleanup.TerminatingSessions?
    ensures Covered(Do(s, a))
  {
    hide A.Step, A.OnSweep, R.Start, R.Finish;
  }

  lemma StepConserves(s: System, a: Act)
    requires R.Conserved(s.registry) && May(s, a) && FreshPid(s, a)
    ensures R.Conserved(Do(s, a).registry)
  {
    hide R.Conserved, A.Step, A.OnSweep, R.Start, R.Finish;
    match a
    case ClientRuns(i, l, pid) =>
      if Spawns(s.clients[i], l) {
        var starts := R.Starts(pid, s.clients[i].handler.user, s.clients[i].handler.command);
        R.StepConserves(s.registry, starts);
        assert R.Step(s.registry, starts) == Do(s, a).registry;
      }
    case SessionEnds(serial, returncode) =>
      R.StepConserves(s.registry, R.Finishes(serial, returncode));
      assert R.Step(s.registry, R.Finishes(serial, returncode)) == Do(s, a).registry;
    case CleanupRuns =>
  }

  lemma {:induction false} PlayConserves(timeout: int, seat: string, clients: nat, states: seq<System>, acts: seq<Act>, n: nat)
    requires Play(timeout, seat, clients, states, acts) && PidsFresh(states, acts) && n < |states|
    ensures R.Conserved(states[n].registry)
  {
    hide May, Do, R.Conserved, FreshPid;
    if n == 0 {
      R.InitConserved(seat, clients);
    } else {
      PlayConserves(timeout, seat, clients, states, acts, n - 1);
      assert Acts(states, acts, n - 1);
      StepConserves(states[n - 1], acts[n - 1]);
    }
  }

  /**
   * The user sessions that cleanup terminates include every session that was ever started and has not
   * finished, however clients, monitors and cleanup interleaved.
   */
  lemma TerminatesEverySession(timeout: int, seat: string, clients: nat, states: seq<System>, acts: seq<Act>, n: nat, serial: nat)
    requires Play(timeout, seat, clients, states, acts) && PidsFresh(states, acts) && n < |states|
    requires states[n].cleanup.TerminatingSessions?
    requires serial < |states[n].registry.started| && !R.IsDone(states[n].registry, serial)
    ensures states[n].registry.started[serial] in states[n].cleanup.found
  {
    hide Play, PidsFresh, R.Conserved;
    PlayCovers(timeout, seat, clients, states, acts, n);
    PlayConserves(timeout, seat, clients, states, acts, n);
    R.Listed(states[n].registry, serial);
  }
}
