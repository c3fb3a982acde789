/** The registry as the daemon keeps it: objects updated in place, and a loop over the clients. */
module DaemonSessions {
  import opened SessionRegistry
  import G = GreeterProtocol

  /** The part of `ClientState` that broadcasts use; `received` stands for the bytes written so far. */
  class Client {
    var hasWriter: bool
    var received: seq<G.Message>
    ghost var since: nat
    ghost var changed: bool

    constructor ()
      ensures ViewOf() == Peer(false, [], 0, false)
    {
      hasWriter, received, since, changed := false, [], 0, false;
    }

    ghost function ViewOf(): Peer
      reads this
    {
      Peer(hasWriter, received, since, changed)
    }

    /** `send_message`: false without a writer or when encoding fails. */
    method SendMessage(m: G.Message) returns (sent: bool)
      modifies this`received
      ensures ViewOf() == SessionRegistry.Sent(old(ViewOf()), m)
      ensures sent <==> hasWriter && Encodable(m)
    {
      if !hasWriter {
        return false;
      }
      var frame := G.EncodeMessage(m);
      if frame.Ok? {
        received := received + [m];
      }
      sent := frame.Ok?;
    }
  }

  class DaemonState {
    const seat: string
    const clients: seq<Client>
    var greeterReady: bool
    var activeSessions: seq<Session>
    var started: seq<Session>
    ghost var finished: seq<Exit>

    ghost predicate Valid() {
      forall i, j | 0 <= i < j < |clients| :: clients[i] != clients[j]
    }

    ghost function Peers(): seq<Peer>
      reads clients
    {
      seq(|clients|, i requires 0 <= i < |clients| reads clients => clients[i].ViewOf())
    }

    ghost function View(): Registry
      reads this, clients
    {
      Registry(seat, greeterReady, activeSessions, Peers(), started, finished)
    }

    constructor (seat: string, clients: seq<Client>)
      requires forall i, j | 0 <= i < j < |clients| :: clients[i] != clients[j]
      requires forall c <- clients :: c.ViewOf() == Peer(false, [], 0, false)
      ensures Valid() && View() == Init(seat, |clients|)
    {
      this.seat, this.clients := seat, clients;
      greeterReady, activeSessions, started, finished := false, [], [], [];
    }

    function StateSnapshot(): G.Message
      reads this
    {
      G.Event("state-changed", G.StateChanged(G.Snapshot(seat, greeterReady, Records(activeSessions))))
    }

    /** Every client gets the message, whatever becomes of the others. */
    method BroadcastMessage(m: G.Message)
      requires Valid()
      modifies clients`received
      ensures View() == old(View()).(peers := Broadcast(old(Peers()), m))
    {
      for i := 0 to |clients|
        invariant forall j | 0 <= j < i :: clients[j].ViewOf() == SessionRegistry.Sent(old(clients[j].ViewOf()), m)
        invariant forall j | i <= j < |clients| :: clients[j].ViewOf() == old(clients[j].ViewOf())
      {
        var sent := clients[i].SendMessage(m);
      }
      assert Peers() == Broadcast(old(Peers()), m);
    }

    method BroadcastStateChanged()
      requires Valid()
      modifies clients
      ensures View() == Publish(old(View()))
    {
      BroadcastMessage(StateSnapshot());
      ghost var peers := Peers();
      forall c | c in clients {
        c.changed := true;
      }
      assert Peers() == Changed(peers);
    }

    /** The registration of a spawned user session. */
    method TrackSession(pid: int, username: string, command: string)
      requires Valid()
      modifies this, clients
      ensures Valid() && View() == Start(old(View()), pid, username, command)
    {
      var session := Session(|started|, pid, username, command);
      activeSessions := Put(activeSessions, session);
      started := started + [session];
      BroadcastStateChanged();
    }

    method SendSessionFinished(session: Session, returncode: int)
      requires Valid() && session.serial < |started| && started[session.serial] == session
      modifies this, clients
      ensures Valid() && View() == Finish(old(View()), session.serial, returncode)
    {
      activeSessions := Pop(activeSessions, session.pid);
      finished := finished + [Exit(session, returncode)];
      BroadcastMessage(FinishedMessage(Exit(session, returncode)));
      BroadcastStateChanged();
    }
  }
}
