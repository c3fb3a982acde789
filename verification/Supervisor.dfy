/**
 * Restarting the greeter (the main loop of src/wldm/daemon.py): consecutive exits of greeters that
 * never became ready are counted; the limit first switches the backend to curses, then ends the daemon.
 */
module Supervisor {

  const CURSES := "curses"

  datatype Status = Running | Stopped | GaveUp

  /** `starts` counts started greeters; `failures` is `ClientState.failures` of the greeter. */
  datatype Loop = Loop(backend: string, failures: nat, starts: nat, greeterUp: bool, status: Status)

  /** What the main loop waits for; `Spurious` is a wait that ends with neither. */
  datatype Event = GreeterExit(ready: bool) | AdapterExit | StopSignal | Spurious

  function Init(backend: string): Loop {
    Loop(backend, 0, 0, false, Running)
  }

  /** Failures in a row that are tolerated no more: the comparison is made after counting one. */
  function Limit(maxRestarts: int): (r: nat)
    ensures r >= 1
  {
    if maxRestarts < 1 then 1 else maxRestarts
  }

  function EnsureGreeter(l: Loop): Loop {
    if l.greeterUp then l else l.(greeterUp := true, starts := l.starts + 1)
  }

  function GreeterExited(l: Loop, ready: bool, maxRestarts: int): Loop {
    var down := l.(greeterUp := false);
    if ready then down.(failures := 0)
    else if l.failures + 1 < maxRestarts then down.(failures := l.failures + 1)
    else if l.backend != CURSES then down.(backend := CURSES, failures := 0)
    else down.(failures := l.failures + 1, status := GaveUp)
  }

  function Handle(l: Loop, event: Event, maxRestarts: int): Loop {
    match event
    case GreeterExit(ready) => GreeterExited(l, ready, maxRestarts)
    case AdapterExit => l
    case StopSignal => l.(status := Stopped)
    case Spurious => l
  }

  /** The loop after waiting for each event in turn, until it breaks. */
  function Run(l: Loop, events: seq<Event>, maxRestarts: int): Loop {
    if events == [] then l
    else
      var before := Run(l, events[..|events| - 1], maxRestarts);
      if before.status != Running then before
      else Handle(EnsureGreeter(before), events[|events| - 1], maxRestarts)
  }

  /** The daemon's runtime fields as the main loop updates them. */
  class Daemon {
    var backend: string
    var failures: nat
    var starts: nat
    var greeterUp: bool
    const maxRestarts: int

    function State(status: Status): Loop
      reads this
    {
      Loop(backend, failures, starts, greeterUp, status)
    }

    constructor (backend: string, maxRestarts: int)
      ensures State(Running) == Init(backend) && this.maxRestarts == maxRestarts
    {
      this.backend, this.failures, this.starts, this.greeterUp := backend, 0, 0, false;
      this.maxRestarts := maxRestarts;
    }

    method EnsureManagedClients()
      modifies this
      ensures forall s :: State(s) == EnsureGreeter(old(State(s)))
    {
      if !greeterUp {
        greeterUp := true;
        starts := starts + 1;
      }
    }

    method MainLoop(events: seq<Event>) returns (status: Status)
      modifies this
      ensures State(status) == Run(old(State(Running)), events, maxRestarts)
    {
      status := Running;
      ghost var first := State(Running);
      for i := 0 to |events|
        invariant status == Running
        invariant State(Running) == Run(first, events[..i], maxRestarts)
      {
        assert events[..i + 1][..i] == events[..i];
        EnsureManagedClients();
        match events[i] {
          case StopSignal =>
            status := Stopped;
          case GreeterExit(ready) =>
            greeterUp := false;
            if ready {
              failures := 0;
            } else {
              failures := failures + 1;
              if failures >= maxRestarts {
                if backend != CURSES {
                  backend := CURSES;
                  failures := 0;
                } else {
                  status := GaveUp;
                }
              }
            }
          case _ =>
        }
        if status != Running {
          assert State(status) == Run(first, events[..i + 1], maxRestarts);
          RunStays(first, events, i + 1, maxRestarts);
          return;
        }
      }
      assert events[..|events|] == events;
    }
  }

  lemma {:induction false} RunStays(l: Loop, events: seq<Event>, n: nat, maxRestarts: int)
    requires n <= |events| && Run(l, events[..n], maxRestarts).status != Running
    ensures Run(l, events, maxRestarts) == Run(l, events[..n], maxRestarts)
    decreases |events|
  {
    if n < |events| {
      var m := |events| - 1;
      assert events[..m][..n] == events[..n];
      RunStays(l, events[..m], n, maxRestarts);
    } else {
      assert events[..n] == events;
    }
  }

  // ---------- what the counters mean ----------

  /** Readiness of the greeters that exited, in order; other events leave no trace. */
  function Exits(events: seq<Event>): seq<bool> {
    if events == [] then []
    else
      var last := events[|events| - 1];
      Exits(events[..|events| - 1]) + (if last.GreeterExit? then [last.ready] else [])
  }

  predicate NeverReady(exits: seq<bool>, from: nat, to: nat)
    requires to <= |exits|
  {
    forall k | from <= k < to :: !exits[k]
  }

  /** The last `limit` of the first `n` greeters never became ready. */
  predicate Streak(exits: seq<bool>, n: nat, limit: nat) {
    limit <= n <= |exits| && NeverReady(exits, n - limit, n)
  }

  /** `n` is the first moment at which a streak of `limit` is complete. */
  ghost predicate FirstStreak(exits: seq<bool>, n: nat, limit: nat) {
    Streak(exits, n, limit) && forall m: nat | m < n :: !Streak(exits, m, limit)
  }

  /** Length of the final run of never-ready greeters. */
  function Trailing(exits: seq<bool>): (t: nat)
    ensures t <= |exits| && NeverReady(exits, |exits| - t, |exits|)
    ensures t < |exits| ==> exits[|exits| - t - 1]
  {
    if exits == [] || exits[|exits| - 1] then 0 else 1 + Trailing(exits[..|exits| - 1])
  }

  /** The state of the counters, told from the exits alone. */
  ghost predicate Told(l: Loop, configured: string, exits: seq<bool>, limit: nat) {
    ToldValues(l.backend, l.failures, l.status == GaveUp, configured, exits, limit)
  }

  ghost predicate ToldValues(backend: string, failures: nat, gaveUp: bool, configured: string, exits: seq<bool>, limit: nat) {
    if configured == CURSES then
      backend == CURSES && OnCurses(failures, gaveUp, exits, limit)
    else if backend != CURSES then
      && backend == configured && !gaveUp
      && failures == Trailing(exits) < limit
      && forall m: nat | m <= |exits| :: !Streak(exits, m, limit)
    else
      exists i: nat :: i <= |exits| && FirstStreak(exits, i, limit) && OnCurses(failures, gaveUp, exits[i..], limit)
  }

  ghost predicate OnCurses(failures: nat, gaveUp: bool, exits: seq<bool>, limit: nat) {
    && failures == Trailing(exits) <= limit
    && (gaveUp <==> FirstStreak(exits, |exits|, limit))
    && forall m: nat | m < |exits| :: !Streak(exits, m, limit)
  }

  lemma StreakIsTrailing(exits: seq<bool>, limit: nat)
    requires limit >= 1
    ensures Streak(exits, |exits|, limit) <==> Trailing(exits) >= limit
  {
    var t := Trailing(exits);
    if t < limit <= |exits| {
      assert exits[|exits| - t - 1];
    }
  }

  lemma StreakOfPrefix(exits: seq<bool>, last: bool, limit: nat)
    ensures forall m: nat | m <= |exits| :: Streak(exits + [last], m, limit) <==> Streak(exits, m, limit)
  {
    forall m: nat | m <= |exits|
      ensures Streak(exits + [last], m, limit) <==> Streak(exits, m, limit)
    {
      assert forall k | 0 <= k < |exits| :: (exits + [last])[k] == exits[k];
    }
  }

  lemma OnCursesStep(failures: nat, exits: seq<bool>, ready: bool, limit: nat)
    requires limit >= 1 && OnCurses(failures, false, exits, limit)
    ensures var next := if ready then 0 else failures + 1;
            OnCurses(next, next >= limit, exits + [ready], limit)
  {
    var all := exits + [ready];
    StreakIsTrailing(exits, limit);
    StreakIsTrailing(all, limit);
    StreakOfPrefix(exits, ready, limit);
    assert all[..|exits|] == exits;
  }

  /** One more exit before the loop has fallen back to curses. */
  lemma FirstBackendStep(failures: nat, exits: seq<bool>, ready: bool, limit: nat)
    requires limit >= 1 && failures == Trailing(exits) < limit
    requires forall m: nat | m <= |exits| :: !Streak(exits, m, limit)
    ensures var all := exits + [ready];
            if !ready && failures + 1 >= limit then FirstStreak(all, |all|, limit) && OnCurses(0, false, all[|all|..], limit)
            else
              && (if ready then 0 else failures + 1) == Trailing(all) < limit
              && forall m: nat | m <= |all| :: !Streak(all, m, limit)
  {
    var all := exits + [ready];
    StreakOfPrefix(exits, ready, limit);
    StreakIsTrailing(all, limit);
    assert all[..|exits|] == exits;
    if !ready && failures + 1 >= limit {
      assert all[|all|..] == [];
    } else {
      forall m: nat | m <= |all|
        ensures !Streak(all, m, limit)
      {
        assert m < |all| ==> !Streak(exits, m, limit);
      }
    }
  }

  /** One more exit after the loop has fallen back to curses. */
  lemma FallenBackStep(failures: nat, exits: seq<bool>, ready: bool, limit: nat, i: nat)
    requires limit >= 1 && i <= |exits| && FirstStreak(exits, i, limit) && OnCurses(failures, false, exits[i..], limit)
    ensures var all := exits + [ready];
            var next := if ready then 0 else failures + 1;
            FirstStreak(all, i, limit) && OnCurses(next, next >= limit, all[i..], limit)
  {
    hide OnCurses;
    var all := exits + [ready];
    StreakOfPrefix(exits, ready, limit);
    OnCursesStep(failures, exits[i..], ready, limit);
    assert all[i..] == exits[i..] + [ready];
  }

  lemma ToldStep(l: Loop, configured: string, exits: seq<bool>, ready: bool, maxRestarts: int)
    requires Told(l, configured, exits, Limit(maxRestarts)) && l.status == Running
    ensures Told(GreeterExited(l, ready, maxRestarts), configured, exits + [ready], Limit(maxRestarts))
  {
    hide OnCurses, FirstStreak, Streak;
    var limit := Limit(maxRestarts);
    var all := exits + [ready];
    if configured == CURSES {
      OnCursesStep(l.failures, exits, ready, limit);
    } else if l.backend != CURSES {
      FirstBackendStep(l.failures, exits, ready, limit);
      assert |all| <= |all|;
    } else {
      var i: nat :| i <= |exits| && FirstStreak(exits, i, limit) && OnCurses(l.failures, false, exits[i..], limit);
      FallenBackStep(l.failures, exits, ready, limit, i);
    }
  }

  /** The loop state `l` is explained by the first `n` events, after which nothing changed any more. */
  ghost predicate ToldBy(l: Loop, configured: string, events: seq<Event>, n: nat, maxRestarts: int) {
    && n <= |events|
    && Told(l, configured, Exits(events[..n]), Limit(maxRestarts))
    && (l.status == Running ==> n == |events|)
    && l.starts == |Exits(events[..n])| + (if l.greeterUp then 1 else 0)
    && (l.status == GaveUp ==> !l.greeterUp)
  }

  lemma {:induction false} RunTold(configured: string, events: seq<Event>, maxRestarts: int) returns (n: nat)
    ensures ToldBy(Run(Init(configured), events, maxRestarts), configured, events, n, maxRestarts)
  {
    hide Told;
    if events == [] {
      n := 0;
      assert events[..0] == [];
      NothingTold(configured, Limit(maxRestarts));
    } else {
      var m := |events| - 1;
      var before := Run(Init(configured), events[..m], maxRestarts);
      n := RunTold(configured, events[..m], maxRestarts);
      assert events[..m][..n] == events[..n];
      if before.status != Running {
        assert Run(Init(configured), events, maxRestarts) == before;
      } else {
        assert events[..m][..m] == events[..m];
        assert before.starts == |Exits(events[..m])| + (if before.greeterUp then 1 else 0);
        n := |events|;
        assert events[..n] == events && events[..|events| - 1] == events[..m];
        var up := EnsureGreeter(before);
        assert Told(up, configured, Exits(events[..m]), Limit(maxRestarts)) by {
          SameCounters(before, up, configured, Exits(events[..m]), Limit(maxRestarts));
        }
        if events[m].GreeterExit? {
          ToldStep(up, configured, Exits(events[..m]), events[m].ready, maxRestarts);
        } else {
          assert Exits(events) == Exits(events[..m]);
          SameCounters(up, Handle(up, events[m], maxRestarts), configured, Exits(events), Limit(maxRestarts));
        }
      }
    }
  }

  lemma SameCounters(l: Loop, m: Loop, configured: string, exits: seq<bool>, limit: nat)
    requires l.backend == m.backend && l.failures == m.failures && (l.status == GaveUp <==> m.status == GaveUp)
    ensures Told(l, configured, exits, limit) <==> Told(m, configured, exits, limit)
  {
    hide ToldValues;
  }

  lemma NothingTold(configured: string, limit: nat)
    requires limit >= 1
    ensures Told(Init(configured), configured, [], limit)
  {
  }

  /** The backend is changed only to curses, by exactly the never-ready exit that completes a streak. */
  lemma FallsBackExactly(l: Loop, event: Event, maxRestarts: int)
    ensures var m := Handle(l, event, maxRestarts);
            && (m.backend != l.backend <==> event == GreeterExit(false) && l.backend != CURSES && l.failures + 1 >= Limit(maxRestarts))
            && (m.backend != l.backend ==> m.backend == CURSES && m.failures == 0)
  {
  }

  /** Once on curses, the backend stays there to the end of the run. */
  lemma {:induction false} CursesIsForever(l: Loop, events: seq<Event>, maxRestarts: int, n: nat)
    requires n <= |events| && Run(l, events[..n], maxRestarts).backend == CURSES
    ensures Run(l, events, maxRestarts).backend == CURSES
    decreases |events|
  {
    if n == |events| {
      assert events[..n] == events;
    } else {
      var m := |events| - 1;
      assert events[..m][..n] == events[..n];
      CursesIsForever(l, events[..m], maxRestarts, n);
      FallsBackExactly(EnsureGreeter(Run(l, events[..m], maxRestarts)), events[m], maxRestarts);
    }
  }

  /**
   * The loop stops exactly at the first stop signal it gets while it is still running, and whatever comes
   * after it has ended changes nothing.
   */
  lemma {:induction false} StopsExactly(l: Loop, events: seq<Event>, maxRestarts: int)
    requires l.status == Running
    ensures Run(l, events, maxRestarts).status == Stopped <==>
              exists i: nat :: i < |events| && events[i] == StopSignal && Run(l, events[..i], maxRestarts).status == Running
    decreases |events|
  {
    if events != [] {
      var m := |events| - 1;
      StopsExactly(l, events[..m], maxRestarts);
      forall i: nat | i < m
        ensures events[..m][..i] == events[..i] && events[..m][i] == events[i]
      {
      }
      if Run(l, events, maxRestarts).status == Stopped {
        if Run(l, events[..m], maxRestarts).status == Running {
          assert events[m] == StopSignal;
        }
      }
    }
  }

  /**
   * The daemon gives up exactly at the end of the first streak of never-ready greeters when it was
   * configured for curses, and otherwise exactly at the end of the first streak counted anew after
   * the streak that made it fall back.
   */
  lemma GivesUpExactly(configured: string, events: seq<Event>, maxRestarts: int)
    ensures Run(Init(configured), events, maxRestarts).status == GaveUp ==>
              exists n: nat :: n <= |events| && Exhausted(configured, Exits(events[..n]), Limit(maxRestarts))
    ensures Run(Init(configured), events, maxRestarts).status == Running ==>
              !Exhausted(configured, Exits(events), Limit(maxRestarts))
  {
    var l := Run(Init(configured), events, maxRestarts);
    var n := RunTold(configured, events, maxRestarts);
    assert events[..|events|] == events;
    ToldExhausted(l, configured, Exits(events[..n]), Limit(maxRestarts));
  }

  lemma ToldExhausted(l: Loop, configured: string, exits: seq<bool>, limit: nat)
    requires limit >= 1 && Told(l, configured, exits, limit)
    ensures l.status == GaveUp <==> Exhausted(configured, exits, limit)
  {
    if configured != CURSES && l.backend == CURSES {
      var i: nat :| i <= |exits| && FirstStreak(exits, i, limit)
        && OnCurses(l.failures, l.status == GaveUp, exits[i..], limit);
      forall j: nat | j <= |exits| && FirstStreak(exits, j, limit)
        ensures j == i
      {
        assert !(j < i) && !(i < j);
      }
    }
  }

  ghost predicate Exhausted(configured: string, exits: seq<bool>, limit: nat) {
    if configured == CURSES then FirstStreak(exits, |exits|, limit)
    else exists i: nat :: i <= |exits| && FirstStreak(exits, i, limit) && FirstStreak(exits[i..], |exits| - i, limit)
  }

  /** If no greeter is ever ready, the daemon starts exactly this many before giving up. */
  lemma StartsWhenNeverReady(configured: string, events: seq<Event>, maxRestarts: int)
    requires Run(Init(configured), events, maxRestarts).status == GaveUp
    requires GreeterExit(true) !in events
    ensures Run(Init(configured), events, maxRestarts).starts
            == if configured == CURSES then Limit(maxRestarts) else 2 * Limit(maxRestarts)
  {
    var l := Run(Init(configured), events, maxRestarts);
    var limit := Limit(maxRestarts);
    var n := RunTold(configured, events, maxRestarts);
    var exits := Exits(events[..n]);
    ToldExhausted(l, configured, exits, limit);
    NoneReady(events[..n]);
    if configured == CURSES {
      FirstStreakOfFailures(exits, |exits|, limit);
    } else {
      var i: nat :| i <= |exits| && FirstStreak(exits, i, limit) && FirstStreak(exits[i..], |exits| - i, limit);
      FirstStreakOfFailures(exits, i, limit);
      FirstStreakOfFailures(exits[i..], |exits| - i, limit);
    }
  }

  lemma {:induction false} NoneReady(events: seq<Event>)
    requires GreeterExit(true) !in events
    ensures NeverReady(Exits(events), 0, |Exits(events)|)
  {
    if events != [] {
      NoneReady(events[..|events| - 1]);
      assert events[|events| - 1] in events;
    }
  }

  lemma FirstStreakOfFailures(exits: seq<bool>, n: nat, limit: nat)
    requires FirstStreak(exits, n, limit) && NeverReady(exits, 0, |exits|)
    ensures n == limit
  {
    if n > limit {
      assert Streak(exits, limit, limit);
    }
  }

  /** Every never-ready exit makes the pair (not yet on curses, failures still allowed) smaller. */
  lemma NeverReadyExitsRunOut(l: Loop, maxRestarts: int)
    requires l.failures < Limit(maxRestarts)
    ensures var m := GreeterExited(l, false, maxRestarts);
            || (l.backend != CURSES && m.backend == CURSES)
            || (l.backend == m.backend && Limit(maxRestarts) - m.failures < Limit(maxRestarts) - l.failures)
    ensures GreeterExited(l, true, maxRestarts).failures == 0
  {
  }
}
