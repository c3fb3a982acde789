/**
 * The D-Bus adapter's object registry (src/wldm/dbus_adapter.py): exported object paths that follow
 * the daemon's snapshots, with Added/Removed signals for every change.
 */
module DbusMirror {
  import opened GreeterProtocol
  import opened Wrappers
  import Decimal

  const MANAGER_PATH := "/org/freedesktop/DisplayManager"

  // ---------- object paths ----------

  /** `str.isalnum` per character; the model leaves it open, so all results hold for any choice. */
  type Alnum = char -> bool

  function Component(seat: string, alnum: Alnum): string {
    if seat == "" then "" else [if alnum(seat[0]) then seat[0] else '_'] + Component(seat[1..], alnum)
  }

  /** `component.lower().startswith("seat")` */
  predicate StartsWithSeat(component: string) {
    && |component| >= 4
    && component[0] in {'s', 'S'}
    && component[1] in {'e', 'E'}
    && component[2] in {'a', 'A'}
    && component[3] in {'t', 'T'}
  }

  function SeatPath(seat: string, alnum: Alnum): string {
    var component := Component(seat, alnum);
    MANAGER_PATH + "/" + (if component == "" then "Seat0"
                          else if StartsWithSeat(component) then "Seat" + component[4..]
                          else "Seat" + component)
  }

  function SessionPath(pid: int): string {
    MANAGER_PATH + "/Session" + Decimal.IntText(pid)
  }

  function SeatPaths(s: Snapshot, alnum: Alnum): seq<string> {
    if s.seat == "" then [] else [SeatPath(s.seat, alnum)]
  }

  function SessionPaths(sessions: seq<SessionRecord>): seq<string> {
    if sessions == [] then [] else [SessionPath(sessions[0].pid)] + SessionPaths(sessions[1..])
  }

  function Elements(paths: seq<string>): set<string> {
    set p | p in paths
  }

  /** The objects that mirror a snapshot, besides the manager. */
  datatype View = View(seats: set<string>, sessions: set<string>) {
    function Paths(): set<string> {
      {MANAGER_PATH} + seats + sessions
    }
  }

  function ViewOf(s: Snapshot, alnum: Alnum): View {
    View(Elements(SeatPaths(s, alnum)), Elements(SessionPaths(s.sessions)))
  }

  /** The manager, seats and sessions never share a path, and each pid has its own. */
  lemma PathsNeverCollide(seat: string, p: int, q: int, alnum: Alnum)
    ensures SeatPath(seat, alnum) != MANAGER_PATH && SessionPath(p) != MANAGER_PATH
    ensures SeatPath(seat, alnum) != SessionPath(p)
    ensures SessionPath(p) == SessionPath(q) ==> p == q
  {
    var n := |MANAGER_PATH|;
    assert SeatPath(seat, alnum)[n + 4] == 't' && SessionPath(p)[n + 4] == 's';
    if SessionPath(p) == SessionPath(q) {
      assert SessionPath(p)[n + 8..] == Decimal.IntText(p) && SessionPath(q)[n + 8..] == Decimal.IntText(q);
      Decimal.IntTextInjective(p, q);
    }
  }

  /** In any mixture of letter cases. */
  predicate BeginsWithSeat(seat: string) {
    |seat| >= 4 && seat[0] in "sS" && seat[1] in "eE" && seat[2] in "aA" && seat[3] in "tT"
  }

  lemma {:induction false} ComponentIs(seat: string, alnum: Alnum)
    ensures var c := Component(seat, alnum);
            |c| == |seat| && forall k | 0 <= k < |seat| :: c[k] == if alnum(seat[k]) then seat[k] else '_'
  {
    if seat != "" {
      ComponentIs(seat[1..], alnum);
    }
  }

  /**
   * A seat's path carries its name, with `Seat` in place of a leading "seat" in any letter case and before
   * any other name; a nameless seat counts as number 0, and sessions carry their decimal pid.
   */
  lemma PathsAreNamed(seat: string, pid: int, alnum: Alnum)
    requires forall c | c in seat :: alnum(c)
    ensures SeatPath(seat, alnum) == "/org/freedesktop/DisplayManager/Seat"
                                     + (if seat == "" then "0" else if BeginsWithSeat(seat) then seat[4..] else seat)
    ensures SessionPath(pid) == "/org/freedesktop/DisplayManager/Session" + Decimal.IntText(pid)
  {
    ComponentIs(seat, alnum);
    var c := Component(seat, alnum);
    assert forall k | 0 <= k < |seat| :: c[k] == seat[k] by {
      forall k | 0 <= k < |seat| ensures c[k] == seat[k] {
        assert seat[k] in seat;
      }
    }
    assert c == seat;
  }

  /** Seats named "seat" and something alphanumeric, as logind names them, have paths of their own. */
  lemma SeatPathsDiffer(a: string, b: string, alnum: Alnum)
    requires (forall c | c in "seat" + a :: alnum(c)) && (forall c | c in "seat" + b :: alnum(c))
    requires SeatPath("seat" + a, alnum) == SeatPath("seat" + b, alnum)
    ensures a == b
  {
    PathsAreNamed("seat" + a, 0, alnum);
    PathsAreNamed("seat" + b, 0, alnum);
    var prefix := "/org/freedesktop/DisplayManager/Seat";
    assert ("seat" + a)[4..] == a && ("seat" + b)[4..] == b;
    assert (prefix + a)[|prefix|..] == a && (prefix + b)[|prefix|..] == b;
  }

  lemma {:induction false} SessionPathsAreSessions(sessions: seq<SessionRecord>)
    ensures forall path :: path in SessionPaths(sessions) <==> exists s :: s in sessions && SessionPath(s.pid) == path
  {
    if sessions != [] {
      var first, rest := sessions[0], sessions[1..];
      SessionPathsAreSessions(rest);
      assert forall s :: s in sessions <==> s == first || s in rest;
    }
  }

  /** `session_entry`: the record shown at one session path, `None` where the source raises `KeyError`. */
  function SessionEntry(sessions: seq<SessionRecord>, path: string): (r: Option<SessionRecord>)
    ensures r.Some? <==> path in SessionPaths(sessions)
    ensures r.Some? ==> r.value in sessions && SessionPath(r.value.pid) == path
  {
    if sessions == [] then None
    else if SessionPath(sessions[0].pid) == path then Some(sessions[0])
    else SessionEntry(sessions[1..], path)
  }

  // ---------- signals ----------

  datatype Signal =
    | SeatAdded(path: string)
    | SeatRemoved(path: string)
    | SessionAdded(path: string)
    | SessionRemoved(path: string)
    | ManagerPropertiesChanged(view: View)
    | SeatPropertiesChanged(path: string)

  /** A client's view after one signal; `None` when the signal makes no sense to that client. */
  function Observe(v: View, signal: Signal): Option<View> {
    match signal
    case SeatAdded(p) => if p in v.seats then None else Some(v.(seats := v.seats + {p}))
    case SeatRemoved(p) => if p in v.seats then Some(v.(seats := v.seats - {p})) else None
    case SessionAdded(p) => if p in v.sessions then None else Some(v.(sessions := v.sessions + {p}))
    case SessionRemoved(p) => if p in v.sessions then Some(v.(sessions := v.sessions - {p})) else None
    case ManagerPropertiesChanged(view) => if view == v then Some(v) else None
    case SeatPropertiesChanged(p) => if p in v.seats then Some(v) else None
  }

  function Replay(v: View, signals: seq<Signal>): Option<View> {
    if signals == [] then Some(v)
    else
      var before :- Replay(v, signals[..|signals| - 1]);
      Observe(before, signals[|signals| - 1])
  }

  // ---------- the bus connection ----------

  /** The bus side of the adapter: live registrations, how often each id was released, signals sent. */
  class Bus {
    var nextId: nat
    var objects: map<nat, string>
    var releases: multiset<nat>
    var signals: seq<Signal>

    /** Every id handed out is live and unreleased, or was released exactly once. */
    ghost predicate Valid()
      reads this`nextId, this`objects, this`releases
    {
      && (forall id | id in objects :: id < nextId)
      && (forall id: nat | id < nextId :: releases[id] == if id in objects then 0 else 1)
      && (forall id: nat | id >= nextId :: releases[id] == 0)
    }

    constructor ()
      ensures Valid() && objects == map[] && signals == [] && nextId == 0
    {
      nextId, objects, releases, signals := 0, map[], multiset{}, [];
    }

    method RegisterObject(path: string) returns (id: nat)
      requires Valid()
      modifies this`nextId, this`objects
      ensures Valid()
      ensures id == old(nextId) && nextId == id + 1
      ensures objects == old(objects)[id := path]
    {
      id := nextId;
      objects := objects[id := path];
      nextId := nextId + 1;
    }

    method UnregisterObject(id: nat)
      requires Valid() && id in objects
      modifies this`objects, this`releases
      ensures Valid()
      ensures objects == old(objects) - {id}
      ensures releases == old(releases) + multiset{id}
    {
      objects := objects - {id};
      releases := releases + multiset{id};
    }

    method EmitSignal(signal: Signal)
      modifies this`signals
      ensures signals == old(signals) + [signal]
    {
      signals := signals + [signal];
    }
  }

  // ---------- the service ----------

  class DisplayManagerService {
    var snapshot: Snapshot
    var registrationIds: map<string, nat>
    const bus: Bus
    const alnum: Alnum

    /** The bus exports exactly the registered paths, each under the id recorded for it. */
    ghost predicate Consistent()
      reads this`registrationIds, bus`nextId, bus`objects, bus`releases
    {
      && bus.Valid()
      && (forall p | p in registrationIds :: registrationIds[p] in bus.objects && bus.objects[registrationIds[p]] == p)
      && (forall id | id in bus.objects :: bus.objects[id] in registrationIds && registrationIds[bus.objects[id]] == id)
    }

    /** The exported objects are exactly the manager plus the seat and sessions of the snapshot. */
    ghost predicate Mirrors()
      reads this, bus
    {
      Consistent() && registrationIds.Keys == ViewOf(snapshot, alnum).Paths()
    }

    method RegisterObject(path: string)
      requires Consistent()
      modifies this`registrationIds, bus`nextId, bus`objects
      ensures Consistent()
      ensures registrationIds.Keys == old(registrationIds.Keys) + {path}
    {
      if path in registrationIds {
        return;
      }
      var id := bus.RegisterObject(path);
      registrationIds := registrationIds[path := id];
    }

    method UnregisterObject(path: string)
      requires Consistent()
      modifies this`registrationIds, bus`objects, bus`releases
      ensures Consistent()
      ensures registrationIds.Keys == old(registrationIds.Keys) - {path}
    {
      if path in registrationIds {
        var id := registrationIds[path];
        registrationIds := registrationIds - {path};
        bus.UnregisterObject(id);
      }
    }

    method RegisterSessions(paths: seq<string>)
      requires Consistent()
      modifies this`registrationIds, bus`nextId, bus`objects
      ensures Consistent()
      ensures registrationIds.Keys == old(registrationIds.Keys) + Elements(paths)
    {
      hide Consistent;
      for i := 0 to |paths|
        invariant Consistent()
        invariant registrationIds.Keys == old(registrationIds.Keys) + Elements(paths[..i])
      {
        RegisterObject(paths[i]);
        assert paths[..i + 1] == paths[..i] + [paths[i]];
      }
      assert paths[..|paths|] == paths;
    }

    /** Starts mirroring; without a seat the source raises after registering the manager. */
    constructor (snapshot: Snapshot, bus: Bus, alnum: Alnum)
      requires bus.Valid() && bus.objects == map[]
      modifies bus`nextId, bus`objects
      ensures this.bus == bus && this.alnum == alnum && this.snapshot == snapshot
      ensures Consistent() && (snapshot.seat != "" ==> Mirrors())
    {
      hide SeatPath, SessionPaths, Elements, Consistent;
      this.snapshot := snapshot;
      this.bus := bus;
      this.alnum := alnum;
      this.registrationIds := map[];
      new;
      NothingRegistered();
      RegisterObject(MANAGER_PATH);
      if snapshot.seat == "" {
        return;
      }
      RegisterObject(SeatPath(snapshot.seat, alnum));
      RegisterSessions(SessionPaths(snapshot.sessions));
      OneElement(SeatPath(snapshot.seat, alnum));
    }

    lemma NothingRegistered()
      requires bus.Valid() && bus.objects == map[] && registrationIds == map[]
      ensures Consistent()
    {
    }

    /** What the signals sent since `start` do to a client that saw the view `before` at that point. */
    ghost predicate Announced(start: nat, before: View, now: View)
      reads bus`signals
    {
      start <= |bus.signals| && Replay(before, bus.signals[start..]) == Some(now)
    }

    method Emit(signal: Signal, ghost start: nat, ghost before: View, ghost now: View)
      requires Announced(start, before, now) && Observe(now, signal).Some?
      modifies bus`signals
      ensures bus.signals == old(bus.signals) + [signal]
      ensures Announced(start, before, Observe(now, signal).value)
    {
      ghost var was := bus.signals;
      bus.EmitSignal(signal);
      assert bus.signals[start..][..|bus.signals[start..]| - 1] == was[start..];
    }

    method RemoveSessions(gone: set<string>, ghost start: nat, ghost before: View, ghost now: View)
      requires Consistent() && Announced(start, before, now)
      requires registrationIds.Keys == now.Paths() && gone <= now.sessions
      requires now.seats !! now.sessions && MANAGER_PATH !in now.seats + now.sessions
      modifies this`registrationIds, bus
      ensures old(bus.signals) <= bus.signals
      ensures Consistent() && Announced(start, before, now.(sessions := now.sessions - gone))
      ensures registrationIds.Keys == now.(sessions := now.sessions - gone).Paths()
    {
      hide Consistent, Announced;
      var todo := gone;
      ghost var v := now;
      assert now.sessions - {} == now.sessions;
      while todo != {}
        invariant old(bus.signals) <= bus.signals
        invariant todo <= gone && v == now.(sessions := now.sessions - (gone - todo))
        invariant Consistent() && Announced(start, before, v)
        invariant registrationIds.Keys == v.Paths()
        decreases todo
      {
        var path :| path in todo;
        UnregisterObject(path);
        Emit(SessionRemoved(path), start, before, v);
        v := v.(sessions := v.sessions - {path});
        todo := todo - {path};
        assert v.sessions == now.sessions - (gone - todo);
      }
      assert gone - todo == gone;
    }

    method AddSessions(added: set<string>, ghost start: nat, ghost before: View, ghost now: View)
      requires Consistent() && Announced(start, before, now)
      requires registrationIds.Keys == now.Paths() && added !! now.sessions
      modifies this`registrationIds, bus
      ensures old(bus.signals) <= bus.signals
      ensures Consistent() && Announced(start, before, now.(sessions := now.sessions + added))
      ensures registrationIds.Keys == now.(sessions := now.sessions + added).Paths()
    {
      hide Consistent, Announced;
      var todo := added;
      ghost var v := now;
      assert now.sessions + {} == now.sessions;
      while todo != {}
        invariant old(bus.signals) <= bus.signals
        invariant todo <= added && v == now.(sessions := now.sessions + (added - todo))
        invariant Consistent() && Announced(start, before, v)
        invariant registrationIds.Keys == v.Paths()
        decreases todo
      {
        var path :| path in todo;
        RegisterObject(path);
        Emit(SessionAdded(path), start, before, v);
        v := v.(sessions := v.sessions + {path});
        todo := todo - {path};
        assert v.sessions == now.sessions + (added - todo);
      }
      assert added - todo == added;
    }

    /** The two seat loops of `update_state`, each over at most one path. */
    method UpdateSeats(next: Snapshot, ghost start: nat, ghost before: View)
      requires Mirrors() && Announced(start, before, ViewOf(snapshot, alnum))
      modifies this`registrationIds, bus
      ensures Consistent() && old(bus.signals) <= bus.signals
      ensures var v := ViewOf(snapshot, alnum).(seats := ViewOf(next, alnum).seats);
              registrationIds.Keys == v.Paths() && Announced(start, before, v)
    {
      hide Consistent, Announced, SeatPath, SessionPaths;
      ghost var v := ViewOf(snapshot, alnum);
      SeatNotSession(snapshot, snapshot, alnum);
      var was, will := SeatPaths(snapshot, alnum), SeatPaths(next, alnum);
      if was != [] && was[0] !in will {
        UnregisterObject(was[0]);
        Emit(SeatRemoved(was[0]), start, before, v);
        v := v.(seats := v.seats - {was[0]});
        assert v.seats == {};
      }
      if will != [] && will[0] !in was {
        RegisterObject(will[0]);
        Emit(SeatAdded(will[0]), start, before, v);
        v := v.(seats := v.seats + {will[0]});
      }
      assert v.seats == ViewOf(next, alnum).seats;
    }

    /**
     * Applies a new snapshot. The registry then mirrors it, and a client that has followed the signals
     * since `start`, when it knew the view `before`, knows exactly the new view. The last signals are the
     * changed properties of the manager and, if there is one, of the seat. `ok` is false where
     * the source raises for want of a seat, with registry and signals already up to date.
     */
    method UpdateState(next: Snapshot, ghost start: nat, ghost before: View) returns (ok: bool)
      requires Mirrors() && Announced(start, before, ViewOf(snapshot, alnum))
      modifies this, bus
      ensures Mirrors() && snapshot == next
      ensures Announced(start, before, ViewOf(next, alnum))
      ensures ok == (next.seat != "")
      ensures old(bus.signals) <= bus.signals
      ensures var closing := [ManagerPropertiesChanged(ViewOf(next, alnum))]
                             + if ok then [SeatPropertiesChanged(SeatPath(next.seat, alnum))] else [];
              |old(bus.signals)| + |closing| <= |bus.signals| && bus.signals[|bus.signals| - |closing|..] == closing
    {
      hide Consistent, Announced, SeatPath, SessionPaths, Elements, Observe, Replay;
      var oldSessions, newSessions :=
        Elements(SessionPaths(snapshot.sessions)), Elements(SessionPaths(next.sessions));
      SeatNotSession(next, snapshot, alnum);
      PropertySignals(next, alnum);
      ghost var v := ViewOf(snapshot, alnum).(seats := ViewOf(next, alnum).seats);
      UpdateSeats(next, start, before);
      RemoveSessions(oldSessions - newSessions, start, before, v);
      v := v.(sessions := v.sessions - (oldSessions - newSessions));
      AddSessions(newSessions - oldSessions, start, before, v);
      v := v.(sessions := v.sessions + (newSessions - oldSessions));
      assert v.sessions == newSessions;
      snapshot := next;
      assert v == ViewOf(next, alnum);
      Emit(ManagerPropertiesChanged(View(Elements(SeatPaths(next, alnum)), newSessions)), start, before, v);
      if SeatPaths(next, alnum) == [] {
        return false;
      }
      Emit(SeatPropertiesChanged(SeatPaths(next, alnum)[0]), start, before, v);
      ok := true;
    }

    /**
     * The adapter's event loop: after any run of snapshots the registry mirrors the latest one, and so
     * does every client that started from the initial list and replayed the signals. The loop ends
     * early where `UpdateState` raises.
     */
    method Follow(snapshots: seq<Snapshot>, ghost start: nat, ghost before: View) returns (applied: nat)
      requires Mirrors() && Announced(start, before, ViewOf(snapshot, alnum))
      modifies this, bus
      ensures applied <= |snapshots|
      ensures snapshot == if applied == 0 then old(snapshot) else snapshots[applied - 1]
      ensures Mirrors() && Announced(start, before, ViewOf(snapshot, alnum))
      ensures applied < |snapshots| ==> snapshot.seat == ""
    {
      hide Consistent, Announced, ViewOf;
      applied := 0;
      while applied < |snapshots|
        invariant applied <= |snapshots|
        invariant snapshot == if applied == 0 then old(snapshot) else snapshots[applied - 1]
        invariant Mirrors() && Announced(start, before, ViewOf(snapshot, alnum))
      {
        var ok := UpdateState(snapshots[applied], start, before);
        applied := applied + 1;
        if !ok {
          return;
        }
      }
    }

    /** Releases every registration; over the whole life of the service each id is released exactly once. */
    method Close()
      requires Consistent()
      modifies this`registrationIds, bus
      ensures registrationIds == map[] && bus.objects == map[]
      ensures forall id: nat :: bus.releases[id] == if id < bus.nextId then 1 else 0
    {
      var todo := registrationIds.Keys;
      while todo != {}
        invariant Consistent() && registrationIds.Keys == todo
        decreases todo
      {
        var path :| path in todo;
        UnregisterObject(path);
        todo := todo - {path};
      }
      assert registrationIds == map[];
      assert bus.objects.Keys == {};
    }
  }

  lemma OneElement(path: string)
    ensures Elements([path]) == {path}
  {
  }

  lemma SeatNotSession(seats: Snapshot, sessions: Snapshot, alnum: Alnum)
    ensures var seats, sessions := ViewOf(seats, alnum).seats, ViewOf(sessions, alnum).sessions;
            seats !! sessions && MANAGER_PATH !in seats + sessions
  {
    hide SeatPath, SessionPath;
    SessionPathsAreSessions(sessions.sessions);
    forall r | r in sessions.sessions
      ensures SessionPath(r.pid) != SeatPath(seats.seat, alnum) && SessionPath(r.pid) != MANAGER_PATH
    {
      PathsNeverCollide(seats.seat, r.pid, r.pid, alnum);
    }
    PathsNeverCollide(seats.seat, 0, 0, alnum);
  }

  lemma PropertySignals(s: Snapshot, alnum: Alnum)
    ensures var v := ViewOf(s, alnum);
            && Observe(v, ManagerPropertiesChanged(v)) == Some(v)
            && (s.seat != "" ==> Observe(v, SeatPropertiesChanged(SeatPaths(s, alnum)[0])) == Some(v))
  {
    hide SeatPath, SessionPaths;
  }
}
