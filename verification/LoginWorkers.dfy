/**
 * The worker's side of the relay: what it read and answered, and the response arrays it gave to PAM,
 * in terms of the messages the daemon wrote to its channel.
 */
module LoginWorkers {
  import opened Wrappers
  import opened AuthMachine
  import opened AuthInvariants
  import opened LoginSystem
  import P = PamConversation
  import W = PamWorkerProtocol

  // ---------- the invariant ----------

  /** What was read from a worker: the beginning of what it said, then end of file. */
  predicate Fed(received: seq<FromWorker>, said: seq<FromWorker>) {
    received == [] ||
    (var n := |received| - 1;
     Fed(received[..n], said) &&
     (received[n].Closed? || (Closed !in received[..n] && n < |said| && received[n] == said[n])))
  }

  /** The prompt that the worker asks for a message of PAM's. */
  function PromptOf(m: P.PamMessage): Option<Prompt> {
    var prompt :- P.PromptFor(m);
    Some(Prompt(prompt.style, prompt.text))
  }

  /**
   * The filled slots of a batch: slot `j` holds the reply to prompt number `start - 1 + j` of the
   * session, which was asked for message `j`.
   */
  predicate Filled(b: Batch, got: seq<Bytes>, asked: seq<Prompt>) {
    && 1 <= b.start && |b.slots| <= |b.messages| && b.start - 1 + |b.slots| <= |got| <= |asked|
    && forall j | 0 <= j < |b.slots| ::
         && PromptOf(b.messages[j]) == Some(asked[b.start - 1 + j])
         && b.slots[j] == P.SlotFor(b.messages[j], got[b.start - 1 + j])
  }

  /** The messages after the start message are the replies in `got`, as far as that goes. */
  predicate Replies(sent: seq<ToWorker>, got: seq<Bytes>) {
    forall i | 0 <= i < |got| :: IsReply(sent, i + 1, got[i])
  }

  predicate IsReply(sent: seq<ToWorker>, n: nat, response: Bytes) {
    n < |sent| && sent[n].Answer? && sent[n].response == response
  }

  predicate WorkerOk(s: Session, k: Worker) {
    && k.consumed <= |s.sent|
    && Fed(s.received, k.said)
    && Replies(s.sent, k.got)
    && |k.got| <= |Prompts(k.said)|
    && (k.consumed == 0 ==> k == NewWorker())
    && (k.asking ==> InBatch(k))
    && (!k.broken && k.consumed > 0 ==>
          && k.consumed == |k.got| + 1
          && |Prompts(k.said)| == |k.got| + (if k.asking then 1 else 0)
          && (k.batch.Some? ==>
                && Filled(k.batch.value, k.got, Prompts(k.said))
                && k.batch.value.start - 1 + |k.batch.value.slots| == |k.got|)
          && (k.asking ==> PromptOf(NextMessage(k)) == Some(Prompts(k.said)[|k.got|])))
    && (forall b <- k.done :: Filled(b, k.got, Prompts(k.said)) && |b.slots| == |b.messages|)
  }

  // ---------- histories ----------

  lemma {:induction false} PromptsPrefix(said: seq<FromWorker>, n: nat)
    requires n <= |said|
    ensures Prompts(said[..n]) <= Prompts(said)
    decreases |said|
  {
    if n == |said| {
      assert said[..n] == said;
    } else {
      PromptsPrefix(said[..|said| - 1], n);
      assert said[..|said| - 1][..n] == said[..n];
    }
  }

  lemma {:induction false} FedOpen(received: seq<FromWorker>, said: seq<FromWorker>)
    requires Fed(received, said) && Closed !in received
    ensures received <= said
  {
    if received != [] {
      FedOpen(received[..|received| - 1], said);
    }
  }

  lemma {:induction false} FedPrompts(received: seq<FromWorker>, said: seq<FromWorker>)
    requires Fed(received, said)
    ensures Prompts(received) <= Prompts(said)
  {
    if received != [] {
      var n := |received| - 1;
      if received[n].Closed? {
        FedPrompts(received[..n], said);
      } else {
        FedOpen(received[..n], said);
        assert received == said[..n + 1];
        PromptsPrefix(said, n + 1);
      }
    }
  }

  lemma {:induction false} FedGrows(received: seq<FromWorker>, said: seq<FromWorker>, m: FromWorker)
    requires Fed(received, said)
    ensures Fed(received, said + [m])
  {
    if received != [] {
      FedGrows(received[..|received| - 1], said, m);
    }
  }

  lemma FedNext(received: seq<FromWorker>, said: seq<FromWorker>, m: FromWorker)
    requires Fed(received, said)
    requires m.Closed? || (Closed !in received && |received| < |said| && m == said[|received|])
    ensures Fed(received + [m], said)
  {
    assert (received + [m])[..|received|] == received;
  }

  lemma FilledGrows(b: Batch, got: seq<Bytes>, asked: seq<Prompt>, more: seq<Bytes>, later: seq<Prompt>)
    requires Filled(b, got, asked) && got <= more && asked <= later && |more| <= |later|
    ensures Filled(b, more, later)
  {
    hide PromptOf;
  }

  // ---------- what the daemon does ----------

  /** Nothing the daemon writes later changes what the worker has read. */
  lemma WriteKeepsWorker(s: Session, t: Session, k: Worker)
    requires WorkerOk(s, k) && s.sent <= t.sent && t.received == s.received
    ensures WorkerOk(t, k)
  {
    hide Fed, Prompts, Filled, PromptOf;
    RepliesStay(s.sent, t.sent, k.got);
  }

  lemma RepliesStay(sent: seq<ToWorker>, more: seq<ToWorker>, got: seq<Bytes>)
    requires Replies(sent, got) && sent <= more
    ensures Replies(more, got)
  {
  }

  lemma HearKeepsWorker(s: Session, t: Session, k: Worker, m: FromWorker)
    requires WorkerOk(s, k) && s.sent <= t.sent && t.received == s.received + [m]
    requires m.Closed? || (Closed !in s.received && |s.received| < |k.said| && m == k.said[|s.received|])
    ensures WorkerOk(t, k)
  {
    hide Fed, Prompts, Filled, PromptOf;
    FedNext(s.received, k.said, m);
    RepliesStay(s.sent, t.sent, k.got);
  }

  lemma NewWorkerOk(s: Session)
    requires s.received == []
    ensures WorkerOk(s, NewWorker())
  {
  }

  // ---------- what the worker does ----------

  lemma StartedKeepsWorker(s: Session, k: Worker)
    requires WorkerOk(s, k) && k.consumed == 0 < |s.sent|
    ensures WorkerOk(s, k.(consumed := 1))
  {
  }

  lemma CalledKeepsWorker(s: Session, k: Worker, messages: seq<P.PamMessage>)
    requires WorkerOk(s, k) && k.consumed > 0 && !k.asking && k.batch.None?
    ensures WorkerOk(s, k.(batch := Some(Batch(messages, k.consumed, []))))
  {
    hide Fed, Prompts, PromptOf;
  }

  lemma BrokenKeepsWorker(s: Session, k: Worker)
    requires WorkerOk(s, k) && k.consumed > 0
    ensures WorkerOk(s, Broken(k))
  {
    hide Fed, Prompts, PromptOf, Filled;
  }

  lemma AskedKeepsWorker(s: Session, k: Worker)
    requires WorkerOk(s, k) && k.consumed > 0 && !k.asking && InBatch(k)
    ensures WorkerOk(s, Asks(k))
  {
    hide Fed, Prompts, Filled, P.PromptFor;
    var prompt := P.PromptFor(NextMessage(k));
    if prompt.None? {
      BrokenKeepsWorker(s, k);
    } else {
      var m := Asked(Prompt(prompt.value.style, prompt.value.text));
      FedGrows(s.received, k.said, m);
      ReceivedAppend(k.said, m);
      FillsGrow(k, k.got, Prompts(k.said + [m]));
    }
  }

  /** The batches of a worker stay filled when it goes on. */
  lemma FillsGrow(k: Worker, got: seq<Bytes>, asked: seq<Prompt>)
    requires k.got <= got && Prompts(k.said) <= asked && |got| <= |asked|
    ensures forall b <- k.done :: Filled(b, k.got, Prompts(k.said)) ==> Filled(b, got, asked)
    ensures k.batch.Some? && Filled(k.batch.value, k.got, Prompts(k.said)) ==> Filled(k.batch.value, got, asked)
  {
    hide Filled, Prompts;
    forall b <- k.done | Filled(b, k.got, Prompts(k.said))
      ensures Filled(b, got, asked)
    {
      FilledGrows(b, k.got, Prompts(k.said), got, asked);
    }
    if k.batch.Some? && Filled(k.batch.value, k.got, Prompts(k.said)) {
      FilledGrows(k.batch.value, k.got, Prompts(k.said), got, asked);
    }
  }

  lemma EndedKeepsWorker(s: Session, k: Worker, m: FromWorker)
    requires WorkerOk(s, k) && !m.Asked? && k.consumed > 0
    ensures WorkerOk(s, k.(said := k.said + [m]))
  {
    hide Fed, Prompts, Filled, PromptOf;
    FedGrows(s.received, k.said, m);
    ReceivedAppend(k.said, m);
  }

  lemma ReturnKeepsWorker(s: Session, k: Worker)
    requires WorkerOk(s, k) && k.consumed > 0 && !k.asking && k.batch.Some?
    requires |k.batch.value.slots| == |k.batch.value.messages|
    ensures WorkerOk(s, Return(k))
  {
    hide Fed, Prompts, Filled, PromptOf;
  }

  lemma HeardKeepsWorker(s: Session, k: Worker)
    requires WorkerOk(s, k) && k.asking && 0 < k.consumed < |s.sent|
    ensures WorkerOk(s, Hear(k, s.sent[k.consumed]))
  {
    hide Fed, Prompts, PromptOf, P.SlotFor, Filled;
    var m := s.sent[k.consumed];
    if !m.Answer? {
      BrokenKeepsWorker(s, k.(consumed := k.consumed + 1, asking := false, broken := true));
    } else if !k.broken {
      FillsGrow(k, k.got + [m.response], Prompts(k.said));
      FillsNext(k.batch.value, k.got, Prompts(k.said), m.response);
    }
  }

  lemma FillsNext(b: Batch, got: seq<Bytes>, asked: seq<Prompt>, reply: Bytes)
    requires Filled(b, got, asked) && b.start - 1 + |b.slots| == |got| < |asked| && |b.slots| < |b.messages|
    requires PromptOf(b.messages[|b.slots|]) == Some(asked[|got|])
    ensures Filled(b.(slots := b.slots + [P.SlotFor(b.messages[|b.slots|], reply)]), got + [reply], asked)
  {
    hide PromptOf, P.SlotFor;
  }

  // ---------- the response array is the conversation's ----------

  /** A message of the daemon's as the worker's socket yields it. */
  function ItemOf(m: ToWorker): P.Item {
    match m
    case Start(user) => P.Good(W.Start("login", user, ""))
    case Answer(response, _, _) => P.Good(W.Answer(response))
    case Cancel => P.Good(W.Cancel)
  }

  function Inbox(sent: seq<ToWorker>): seq<P.Item> {
    seq(|sent|, i requires 0 <= i < |sent| => ItemOf(sent[i]))
  }

  /**
   * The steps by which a worker asks and hears one batch are the callback: on the channel as it stood
   * when the batch began, `Converse` gives the same array and leaves the same rest.
   */
  lemma ArrayIsConverse(s: Session, k: Worker, b: Batch)
    requires WorkerOk(s, k) && b in k.done
    ensures b.start + |b.messages| <= |s.sent|
    ensures var c := P.Converse(b.messages, Inbox(s.sent[b.start..]));
            c.slots == Some(b.slots) && c.rest == Inbox(s.sent[b.start + |b.messages|..])
  {
    hide Fed, Prompts, P.PromptFor, P.Converse;
    DoneInRange(s, k, b);
    assert Filled(b, k.got, Prompts(k.said)) && |b.slots| == |b.messages|;
    var inbox := Inbox(s.sent[b.start..]);
    forall j | 0 <= j < |b.messages|
      ensures j < |inbox| && P.Asks(b.messages[j]) && P.IsAnswer(inbox[j]) && inbox[j].message.response == k.got[b.start - 1 + j]
    {
      assert b.slots[j] == P.SlotFor(b.messages[j], k.got[b.start - 1 + j]);
      assert IsReply(s.sent, b.start - 1 + j + 1, k.got[b.start - 1 + j]);
    }
    P.BatchSucceedsExactly(b.messages, inbox);
    assert P.AllAnswered(b.messages, inbox);
    var c := P.Converse(b.messages, inbox);
    assert c.slots.value == b.slots;
    assert inbox[|b.messages|..] == Inbox(s.sent[b.start + |b.messages|..]);
  }

  lemma DoneInRange(s: Session, k: Worker, b: Batch)
    requires WorkerOk(s, k) && b in k.done
    ensures 1 <= b.start && b.start + |b.messages| <= |s.sent| && b.start - 1 + |b.messages| <= |k.got| <= |Prompts(k.said)|
  {
    hide Fed, Prompts, PromptOf;
    assert Filled(b, k.got, Prompts(k.said)) && |b.slots| == |b.messages|;
    if |k.got| > 0 {
      assert IsReply(s.sent, |k.got| - 1 + 1, k.got[|k.got| - 1]);
    }
  }
}
