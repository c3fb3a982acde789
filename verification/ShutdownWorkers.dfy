/** The PAM workers of all clients at the end of the daemon's shutdown. */
module ShutdownWorkers {
  import opened Wrappers
  import opened Shutdown
  import A = AuthMachine
  import G = AuthAgreement
  import I = AuthInvariants
  import K = AuthWorkers
  import O = AuthOrphans
  import R = SessionRegistry

  /** The step that an act is for client number `i`. */
  function LabelFor(s: System, a: Act, i: nat): Option<A.Label>
    requires i < |s.clients|
  {
    match a
    case ClientRuns(j, l, _) => if i == j then Some(l) else None
    case SessionEnds(_, _) => None
    case CleanupRuns =>
      var d := s.clients[i];
      if (s.cleanup.StoppingAuth? && s.cleanup.client == i && !d.sweep.Swept?)
         || (s.cleanup.Joining? && s.cleanup.client == i && !d.sweep.Joined?)
      then Some(A.SweepRuns) else None
  }

  /** An act takes a client's own step, or leaves it alone. */
  lemma ClientStep(s: System, a: Act, i: nat)
    requires May(s, a) && i < |s.clients|
    ensures |Do(s, a).clients| == |s.clients|
    ensures match LabelFor(s, a, i)
            case None => Do(s, a).clients[i] == s.clients[i]
            case Some(l) =>
              A.Wired(s.clients[i]) && A.Enabled(s.clients[i], l) && Do(s, a).clients[i] == A.Step(s.clients[i], l)
  {
    hide R.Start, R.Finish, A.OnSweep, Spawns;
  }

  predicate ClientsTidy(s: System) {
    forall i | 0 <= i < |s.clients| :: K.Tidy(s.clients[i])
  }

  lemma DoTidy(s: System, a: Act)
    requires ClientsTidy(s) && May(s, a)
    ensures ClientsTidy(Do(s, a))
  {
    hide K.Tidy, A.Step, A.Enabled, Do, LabelFor, May;
    ClientCount(s, a);
    forall i | 0 <= i < |s.clients|
      ensures K.Tidy(Do(s, a).clients[i])
    {
      ClientStep(s, a, i);
      if LabelFor(s, a, i).Some? {
        K.StepAccounts(s.clients[i], LabelFor(s, a, i).value);
      }
    }
  }

  lemma ClientCount(s: System, a: Act)
    requires May(s, a)
    ensures |Do(s, a).clients| == |s.clients|
  {
    hide R.Start, R.Finish, A.OnSweep, Spawns, A.Step;
  }

  lemma {:induction false} PlayIsTidy(timeout: int, seat: string, clients: nat, states: seq<System>, acts: seq<Act>, n: nat)
    requires Play(timeout, seat, clients, states, acts) && n < |states|
    ensures ClientsTidy(states[n]) && |states[n].clients| == clients
  {
    hide ClientsTidy, Do, May;
    if n == 0 {
      BeginTidy(timeout, seat, clients);
    } else {
      PlayIsTidy(timeout, seat, clients, states, acts, n - 1);
      assert Acts(states, acts, n - 1);
      DoTidy(states[n - 1], acts[n - 1]);
      ClientCount(states[n - 1], acts[n - 1]);
    }
  }

  lemma BeginTidy(timeout: int, seat: string, clients: nat)
    ensures ClientsTidy(Begin(timeout, seat, clients)) && |Begin(timeout, seat, clients).clients| == clients
  {
    hide K.Tidy;
    O.InitTidy(timeout);
  }

  /** Act number `m` abandoned session `s` of client number `i`. */
  predicate AbandonedIn(states: seq<System>, acts: seq<Act>, m: nat, i: nat, s: A.SessionId) {
    && m < |states| && m < |acts| && i < |states[m].clients|
    && LabelFor(states[m], acts[m], i).Some?
    && A.Wired(states[m].clients[i]) && s < |states[m].clients[i].sessions|
    && K.Abandons(states[m].clients[i], LabelFor(states[m], acts[m], i).value, s)
  }

  lemma ClientOrphans(s: System, a: Act, i: nat, x: A.SessionId)
    requires ClientsTidy(s) && May(s, a) && i < |s.clients|
    ensures |Do(s, a).clients| == |s.clients| && A.Wired(s.clients[i]) && A.Wired(Do(s, a).clients[i])
    ensures |s.clients[i].sessions| <= |Do(s, a).clients[i].sessions|
    ensures x < |Do(s, a).clients[i].sessions| ==>
              (K.Orphan(Do(s, a).clients[i], x) <==>
                 x < |s.clients[i].sessions|
                 && (K.Orphan(s.clients[i], x)
                     || (LabelFor(s, a, i).Some? && K.Abandons(s.clients[i], LabelFor(s, a, i).value, x))))
  {
    hide K.Tidy, K.Orphan, K.Abandons, A.Step, A.Enabled, A.Wired, Do, LabelFor, May;
    ClientStep(s, a, i);
    O.TidyWired(s.clients[i]);
    DoTidy(s, a);
    O.TidyWired(Do(s, a).clients[i]);
    if LabelFor(s, a, i).Some? {
      var l := LabelFor(s, a, i).value;
      G.SessionCount(s.clients[i], l);
      if x < |Do(s, a).clients[i].sessions| {
        O.OrphanStep(s.clients[i], l, x);
      }
    }
  }

  lemma {:induction false} OrphansInPlay(timeout: int, seat: string, clients: nat, states: seq<System>, acts: seq<Act>, n: nat,
                                         i: nat, s: A.SessionId)
    requires Play(timeout, seat, clients, states, acts) && n < |states| && i < clients
    ensures |states[n].clients| == clients && A.Wired(states[n].clients[i])
    ensures s < |states[n].clients[i].sessions| ==>
              (K.Orphan(states[n].clients[i], s) <==> exists m :: 0 <= m < n && AbandonedIn(states, acts, m, i, s))
    ensures s >= |states[n].clients[i].sessions| ==> !exists m :: 0 <= m < n && AbandonedIn(states, acts, m, i, s)
  {
    hide K.Tidy, K.Orphan, K.Abandons, A.Wired, Do, LabelFor, May;
    PlayIsTidy(timeout, seat, clients, states, acts, n);
    O.TidyWired(states[n].clients[i]);
    if n > 0 {
      OrphansInPlay(timeout, seat, clients, states, acts, n - 1, i, s);
      PlayIsTidy(timeout, seat, clients, states, acts, n - 1);
      assert Acts(states, acts, n - 1);
      ClientOrphans(states[n - 1], acts[n - 1], i, s);
      assert AbandonedIn(states, acts, n - 1, i, s) <==>
             s < |states[n - 1].clients[i].sessions| && LabelFor(states[n - 1], acts[n - 1], i).Some?
             && K.Abandons(states[n - 1].clients[i], LabelFor(states[n - 1], acts[n - 1], i).value, s);
    } else {
      FirstIsEmpty(timeout, seat, clients, i);
    }
  }

  lemma FirstIsEmpty(timeout: int, seat: string, clients: nat, i: nat)
    requires i < clients
    ensures |Begin(timeout, seat, clients).clients[i].sessions| == 0
  {
  }

  /**
   * When cleanup begins to terminate processes, every PAM worker of every client has reported ready or
   * had its channel closed, except exactly those that some step before abandoned.
   */
  lemma WorkersAtTheEnd(timeout: int, seat: string, clients: nat, states: seq<System>, acts: seq<Act>, n: nat, i: nat, s: A.SessionId)
    requires Play(timeout, seat, clients, states, acts) && n < |states| && Terminating(states[n])
    requires i < |states[n].clients| && s < |states[n].clients[i].sessions|
    ensures K.Settles(states[n].clients[i].sessions[s]) <==> !exists m :: 0 <= m < n && AbandonedIn(states, acts, m, i, s)
  {
    hide Play, K.Orphan, K.Settles, AbandonedIn, A.Wired;
    PlayIsTidy(timeout, seat, clients, states, acts, n);
    OrphansInPlay(timeout, seat, clients, states, acts, n, i, s);
    PlayKeeps(timeout, seat, clients, states, acts, n);
    JoinedOk(states[n], i);
    O.JoinedHoldsNothing(states[n].clients[i], s);
  }

  lemma JoinedOk(s: System, i: nat)
    requires ClientsOk(s) && Terminating(s) && i < |s.clients|
    ensures I.Inv(s.clients[i]) && s.clients[i].sweep.Joined?
  {
    hide I.Inv;
  }
}
