/**
 * A blocking call of the greeter: what it makes of the messages on the daemon's channel until it ends,
 * and how the step machine of `GreeterFlow` is driven by such calls until no request is pending.
 */
module GreeterClient {
  import opened Wrappers
  import opened AuthMachine
  import opened GreeterFlow

  /** What the greeter finds when it reads the daemon's channel; end of file follows the last one. */
  datatype Incoming = Arrived(message: Message) | Malformed

  // ---------- blocking calls ----------

  datatype Ending = Answered(reply: Reply) | Lost | Replaced

  /** The greeter when `send_recv_answer` ends, how it ended, and what is left to read. */
  datatype Waited = Waited(g: Greeter, ending: Ending, rest: seq<Incoming>)

  function Wait(g: Greeter, id: nat, inbox: seq<Incoming>): Waited
    decreases |inbox|
  {
    if inbox == [] then Waited(g, Lost, [])
    else
      match inbox[0]
      case Malformed => Waited(g, Lost, inbox[1..])
      case Arrived(Notice(event)) =>
        if event.ReExec? then Waited(OnEvent(g, event), Replaced, inbox[1..]) else Wait(OnEvent(g, event), id, inbox[1..])
      case Arrived(Response(answered, reply)) =>
        if answered == id then Waited(g, Answered(reply), inbox[1..]) else Wait(g, id, inbox[1..])
  }

  /** The greeter after the events of `seen`, each handled once, in order. */
  function AfterEvents(g: Greeter, seen: seq<Incoming>): Greeter {
    if seen == [] then g
    else
      var before := AfterEvents(g, seen[..|seen| - 1]);
      var last := seen[|seen| - 1];
      if last.Arrived? && last.message.Notice? then OnEvent(before, last.message.event) else before
  }

  /** A message that a call for `id` handles or skips before it goes on reading. */
  predicate PassedOver(m: Incoming, id: nat) {
    m.Arrived? && if m.message.Notice? then !m.message.event.ReExec? else m.message.id != id
  }

  predicate AnswerAt(inbox: seq<Incoming>, id: nat, k: nat) {
    && k < |inbox|
    && inbox[k].Arrived? && inbox[k].message.Response? && inbox[k].message.id == id
    && forall j | 0 <= j < k :: PassedOver(inbox[j], id)
  }

  lemma {:induction false} EventsFromFront(g: Greeter, first: Incoming, rest: seq<Incoming>)
    ensures AfterEvents(g, [first] + rest) == AfterEvents(AfterEvents(g, [first]), rest)
    decreases |rest|
  {
    var all := [first] + rest;
    if rest == [] {
      assert all == [first];
    } else {
      assert all[..|all| - 1] == [first] + rest[..|rest| - 1];
      EventsFromFront(g, first, rest[..|rest| - 1]);
    }
  }

  /**
   * If a response with the request's id is read before anything that ends the call, the call returns
   * exactly that response, having handled every event before it exactly once and in order.
   */
  lemma {:induction false} CallReturnsItsAnswer(g: Greeter, id: nat, inbox: seq<Incoming>, k: nat)
    requires AnswerAt(inbox, id, k)
    ensures Wait(g, id, inbox) == Waited(AfterEvents(g, inbox[..k]), Answered(inbox[k].message.reply), inbox[k + 1..])
    decreases k
  {
    if k > 0 {
      var first := inbox[0];
      var h := if first.message.Notice? then OnEvent(g, first.message.event) else g;
      assert forall j | 0 < j < |inbox| :: inbox[1..][j - 1] == inbox[j];
      CallReturnsItsAnswer(h, id, inbox[1..], k - 1);
      assert inbox[..k] == [first] + inbox[1..][..k - 1];
      assert [first][..0] == [];
      EventsFromFront(g, first, inbox[1..][..k - 1]);
      assert PassedOver(first, id);
    }
  }

  /** A call that returned an answer found it in its channel. */
  lemma {:induction false} AnswersAreFound(g: Greeter, id: nat, inbox: seq<Incoming>) returns (k: nat)
    requires Wait(g, id, inbox).ending.Answered?
    ensures AnswerAt(inbox, id, k)
    decreases |inbox|
  {
    if inbox[0].message.Notice? {
      k := AnswersAreFound(OnEvent(g, inbox[0].message.event), id, inbox[1..]);
      AnswerNext(inbox, id, k);
      k := k + 1;
    } else if inbox[0].message.id == id {
      k := 0;
    } else {
      k := AnswersAreFound(g, id, inbox[1..]);
      AnswerNext(inbox, id, k);
      k := k + 1;
    }
  }

  lemma AnswerNext(inbox: seq<Incoming>, id: nat, k: nat)
    requires inbox != [] && PassedOver(inbox[0], id) && AnswerAt(inbox[1..], id, k)
    ensures AnswerAt(inbox, id, k + 1)
  {
    forall j | 0 <= j < k + 1
      ensures PassedOver(inbox[j], id)
    {
      if j > 0 {
        assert inbox[1..][j - 1] == inbox[j];
      }
    }
  }

  /**
   * A call passes over messages until the first that ends it: its answer, a malformed frame or a re-exec;
   * without any it ends with the channel.
   */
  lemma {:induction false} CallEndsAt(g: Greeter, id: nat, inbox: seq<Incoming>) returns (k: nat)
    ensures k <= |inbox| && forall j | 0 <= j < k :: PassedOver(inbox[j], id)
    ensures var w := Wait(g, id, inbox);
            if k == |inbox| then w == Waited(AfterEvents(g, inbox), Lost, [])
            else
              && w.rest == inbox[k + 1..]
              && match inbox[k]
                 case Malformed => w.ending == Lost && w.g == AfterEvents(g, inbox[..k])
                 case Arrived(Notice(event)) => event.ReExec? && w.ending == Replaced && w.g == Fresh()
                 case Arrived(Response(answered, reply)) =>
                   answered == id && w.ending == Answered(reply) && w.g == AfterEvents(g, inbox[..k])
    decreases |inbox|
  {
    k := 0;
    if inbox != [] && PassedOver(inbox[0], id) {
      var first := inbox[0];
      var h := if first.message.Notice? then OnEvent(g, first.message.event) else g;
      assert [first][..0] == [];
      assert AfterEvents(g, [first]) == h;
      k := CallEndsAt(h, id, inbox[1..]);
      assert forall j | 0 < j < |inbox| :: inbox[1..][j - 1] == inbox[j];
      EventsFromFront(g, first, inbox[1..][..k]);
      assert inbox[..k + 1] == [first] + inbox[1..][..k] && inbox[1..][..|inbox[1..]|] == inbox[1..];
      assert inbox[..|inbox|] == inbox;
      k := k + 1;
    }
  }

  // ---------- polling ----------

  /** The greeter reads no further: a malformed frame loses the connection, a re-exec replaces the program. */
  predicate EndsPolling(m: Incoming) {
    m.Malformed? || (m.message.Notice? && m.message.event.ReExec?)
  }

  /** How many messages stand before the first that ends polling. */
  function Handled(inbox: seq<Incoming>): (k: nat)
    ensures k <= |inbox|
    ensures forall j | 0 <= j < k :: !EndsPolling(inbox[j])
    ensures k < |inbox| ==> EndsPolling(inbox[k])
  {
    if inbox == [] || EndsPolling(inbox[0]) then 0 else 1 + Handled(inbox[1..])
  }

  // ---------- a whole user action ----------

  /** The connection is gone: the pending action sees an empty answer, and the greeter quits. */
  function Lose(g: Greeter): Greeter
    requires g.call.Waiting?
  {
    OnAnswer(g, 0, Refused("")).0.(quit := true)
  }

  datatype Outcome = Outcome(g: Greeter, sent: seq<Body>, rest: seq<Incoming>)

  function Sending(body: Option<Body>): seq<Body> {
    if body.Some? then [body.value] else []
  }

  /** `GreeterFlow`, message by message, until no request is pending; `id` is the next request's id. */
  function Drive(g: Greeter, id: nat, inbox: seq<Incoming>): Outcome
    decreases |inbox|
  {
    if g.call.NoCall? then Outcome(g, [], inbox)
    else if inbox == [] then Outcome(Lose(g), [], [])
    else if inbox[0].Malformed? then Outcome(Lose(g), [], inbox[1..])
    else
      var (h, body) := OnMessage(g, id, inbox[0].message);
      var after := Drive(h, id + |Sending(body)|, inbox[1..]);
      after.(sent := Sending(body) + after.sent)
  }

  lemma {:induction false} WaitKeepsCall(g: Greeter, id: nat, inbox: seq<Incoming>)
    ensures !Wait(g, id, inbox).ending.Replaced? ==> Wait(g, id, inbox).g.call == g.call
    decreases |inbox|
  {
    if inbox != [] && inbox[0].Arrived? && inbox[0].message.Notice? {
      WaitKeepsCall(OnEvent(g, inbox[0].message.event), id, inbox[1..]);
    } else if inbox != [] && inbox[0].Arrived? {
      WaitKeepsCall(g, id, inbox[1..]);
    }
  }

  /** What follows the answer of a pending request. */
  function GoOn(g: Greeter, id: nat, reply: Reply, rest: seq<Incoming>): Outcome
    requires g.call.Waiting?
  {
    var (h, body) := OnAnswer(g, id, reply);
    var after := Drive(h, id + |Sending(body)|, rest);
    after.(sent := Sending(body) + after.sent)
  }

  /** The outcome of a call, once `send_recv_answer` has ended as `w`. */
  function AfterWait(w: Waited, id: nat): Outcome
    requires w.ending.Replaced? || w.g.call.Waiting?
  {
    match w.ending
    case Lost => Outcome(Lose(w.g), [], w.rest)
    case Replaced => Outcome(Fresh(), [], w.rest)
    case Answered(reply) => GoOn(w.g, id, reply, w.rest)
  }

  /** Driving a pending request is waiting for its answer, and then going on from the answer. */
  lemma {:induction false} DriveWaits(g: Greeter, id: nat, inbox: seq<Incoming>)
    requires g.call.Waiting?
    ensures var w := Wait(g, g.call.id, inbox);
            (w.ending.Replaced? || w.g.call.Waiting?) && Drive(g, id, inbox) == AfterWait(w, id)
    decreases |inbox|
  {
    WaitKeepsCall(g, g.call.id, inbox);
    hide OnAnswer, Lose;
    if inbox != [] && inbox[0].Arrived? {
      match inbox[0].message
      case Notice(event) =>
        NoticeDrives(g, id, event, inbox);
        if !event.ReExec? {
          DriveWaits(OnEvent(g, event), id, inbox[1..]);
        }
      case Response(answered, reply) =>
        if answered != g.call.id {
          SkipDrives(g, id, inbox);
          DriveWaits(g, id, inbox[1..]);
        }
    }
  }

  lemma NoticeDrives(g: Greeter, id: nat, event: Event, inbox: seq<Incoming>)
    requires g.call.Waiting? && inbox != [] && inbox[0] == Arrived(Notice(event))
    ensures Drive(g, id, inbox) == Drive(OnEvent(g, event), id, inbox[1..])
    ensures if event.ReExec? then OnEvent(g, event) == Fresh() else OnEvent(g, event).call == g.call
  {
    hide OnAnswer;
    assert id + |Sending(None)| == id;
  }

  lemma SkipDrives(g: Greeter, id: nat, inbox: seq<Incoming>)
    requires g.call.Waiting? && inbox != [] && inbox[0].Arrived? && inbox[0].message.Response? && inbox[0].message.id != g.call.id
    ensures Drive(g, id, inbox) == Drive(g, id, inbox[1..])
  {
    hide OnAnswer;
    assert id + |Sending(None)| == id;
  }
}
