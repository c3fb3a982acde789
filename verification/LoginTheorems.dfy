/**
 * Relay: what PAM gets as the answer to its i-th prompt is the one reply the greeter sent to the one
 * response that brought that prompt to its screen, across greeter, daemon and worker and all their
 * queues; and PAM's response arrays hold those replies in the order of the batch.
 */
module LoginTheorems {
  import opened Wrappers
  import opened AuthMachine
  import opened AuthInvariants
  import opened AuthRelay
  import opened GreeterFlow
  import opened LoginSystem
  import opened LoginAgreement
  import opened LoginWorkers
  import opened LoginRelay
  import P = PamConversation
  import Utf8

  // ---------- the relay ----------

  /** The replies after the start message are the session's replies, as far as the worker has read them. */
  lemma {:induction false} AnswersFollow(sent: seq<ToWorker>, got: seq<Bytes>)
    requires sent != [] && sent[0].Start? && Replies(sent, got)
    ensures |got| <= |Answers(sent)|
    ensures forall i | 0 <= i < |got| :: i + 1 < |sent| && Answers(sent)[i] == sent[i + 1] && sent[i + 1].response == got[i]
    decreases |got|
  {
    hide Answers;
    if got != [] {
      var n := |got| - 1;
      AnswersFollow(sent, got[..n]);
      assert IsReply(sent, n + 1, got[n]);
      forall i | 1 <= i < n + 1
        ensures sent[i].Answer?
      {
        assert IsReply(sent, i - 1 + 1, got[i - 1]);
      }
      FirstAnswers(sent, n + 1);
      AnswersPrefix(sent, n + 2);
      assert sent[..n + 2] == sent[..n + 1] + [sent[n + 1]];
      SentAppend(sent[..n + 1], sent[n + 1]);
      assert Answers(sent)[n] == Answers(sent[..n + 2])[n];
    }
  }

  lemma {:induction false} AnswersPrefix(sent: seq<ToWorker>, n: nat)
    requires n <= |sent|
    ensures Answers(sent[..n]) <= Answers(sent)
    decreases |sent|
  {
    if n == |sent| {
      assert sent[..n] == sent;
    } else {
      AnswersPrefix(sent[..|sent| - 1], n);
      assert sent[..|sent| - 1][..n] == sent[..n];
    }
  }

  /** If only replies follow the start message, they are numbered one by one. */
  lemma {:induction false} FirstAnswers(sent: seq<ToWorker>, n: nat)
    requires 1 <= n <= |sent| && sent[0].Start? && forall i | 1 <= i < n :: sent[i].Answer?
    ensures |Answers(sent[..n])| == n - 1
  {
    if n > 1 {
      FirstAnswers(sent, n - 1);
      assert sent[..n][..n - 1] == sent[..n - 1];
    } else {
      assert sent[..1] == [] + [sent[0]];
      SentAppend([], sent[0]);
    }
  }

  /** The position, among all requests of the greeter, of the reply that answered prompt number `i`. */
  function ReplyAt(s: Session, i: nat): nat
    requires i < |Answers(s.sent)|
  {
    Answers(s.sent)[i].request
  }

  /**
   * In every reachable state, the i-th answer PAM was given for a session is the reply at position
   * `ReplyAt` of the greeter's requests. That position lies after the session's create-session, after
   * the replies to its earlier prompts, and before the next create-session. The reply was entered
   * while the greeter showed the session's i-th prompt, as the response to the session's previous
   * request had brought it; it is empty for a prompt that only informs, and otherwise what the user
   * entered, neither empty nor over-long.
   */
  lemma RelayIsExact(timeout: int, states: seq<World>, acts: seq<Act>, n: nat, k: SessionId, i: nat)
    requires Play(timeout, states, acts) && n < |states|
    requires k < |states[n].workers| && i < |states[n].workers[k].got|
    ensures var w := states[n];
            var worker := w.workers[k];
            && k < |w.d.sessions| && i < |Prompts(worker.said)| && i < |Answers(w.d.sessions[k].sent)|
            && var s := w.d.sessions[k];
               var at := ReplyAt(s, i);
               var shown := Shown(Prompts(worker.said)[i], if i == 0 then s.request else ReplyAt(s, i - 1));
               && shown.request < at < |w.sent|
               && w.sent[at] == Continue(worker.got[i], shown)
               && WasShown(w.d.out, shown)
               && ProperReply(worker.got[i], shown.prompt)
               && s.request <= shown.request && NoCreate(w.sent, s.request, at)
               && w.sent[s.request].Create? && Utf8.DecodeReplace(w.sent[s.request].username) == s.user
  {
    hide Play, Consistent, Prompts, Answers, ProperReply, WasShown, NoCreate, Utf8.DecodeReplace;
    PlayRelays(timeout, states, acts, n);
    var w := states[n];
    RelayedReply(w, k, i);
  }

  lemma RelayedReply(w: World, k: SessionId, i: nat)
    requires Consistent(w) && Relayed(w) && k < |w.workers| && i < |w.workers[k].got|
    ensures k < |w.d.sessions| && i < |Prompts(w.workers[k].said)| && i < |Answers(w.d.sessions[k].sent)|
    ensures var s := w.d.sessions[k];
            var at := ReplyAt(s, i);
            var shown := Shown(Prompts(w.workers[k].said)[i], if i == 0 then s.request else ReplyAt(s, i - 1));
            && s.request <= shown.request < at < |w.sent|
            && w.sent[at] == Continue(w.workers[k].got[i], shown)
            && NoCreate(w.sent, s.request, at)
            && WasShown(w.d.out, shown) && ProperReply(w.workers[k].got[i], shown.prompt)
            && w.sent[s.request].Create? && Utf8.DecodeReplace(w.sent[s.request].username) == s.user
  {
    hide Consistent, Prompts, Answers, ProperReply, WasShown, NoCreate, Utf8.DecodeReplace, Fed, Filled, Threads;
    var s, worker := w.d.sessions[k], w.workers[k];
    ConsistentDaemon(w);
    StartFirst(w.d, k);
    AnswersFollow(s.sent, worker.got);
    FedPrompts(s.received, worker.said);
    var m := Answers(s.sent)[i];
    assert Comes(m, s.request, w.sent);
    ThreadOf(w.d, k);
    ThreadLength(w.d, k);
    assert m.shown == Shown(Prompts(s.received)[i], s.relayed[i]);
    assert AskedBy(s, i) == Some(s.relayed[i]);
    assert w.sent[m.request].Continue?;
  }

  lemma ThreadOf(d: Daemon, s: SessionId)
    requires Wired(d) && Threads(d) && s < |d.sessions|
    ensures Threaded(d.sessions[s]) && Ordered(d.sessions[s], |d.requests|)
  {
  }

  /** No reply of the greeter's reaches PAM twice: not as two answers, and not in two sessions. */
  lemma NoReplyServesTwice(timeout: int, states: seq<World>, acts: seq<Act>, n: nat, k: SessionId, i: nat, l: SessionId, j: nat)
    requires Play(timeout, states, acts) && n < |states|
    requires k < |states[n].workers| && i < |states[n].workers[k].got|
    requires l < |states[n].workers| && j < |states[n].workers[l].got|
    requires k != l || i != j
    ensures var d := states[n].d;
            && k < |d.sessions| && i < |Answers(d.sessions[k].sent)|
            && l < |d.sessions| && j < |Answers(d.sessions[l].sent)|
            && ReplyAt(d.sessions[k], i) != ReplyAt(d.sessions[l], j)
  {
    hide Play, Consistent, Prompts, Answers, ProperReply, WasShown, Utf8.DecodeReplace, Prompted, Situated, WorkerOk;
    PlayRelays(timeout, states, acts, n);
    var w := states[n];
    RelayedReply(w, k, i);
    RelayedReply(w, l, j);
    ThreadOf(w.d, k);
    ThreadOf(w.d, l);
    var x, y := ReplyAt(w.d.sessions[k], i), ReplyAt(w.d.sessions[l], j);
    if k < l {
      CreatesDiffer(w.d, k, l);
      assert w.sent[w.d.sessions[l].request].Create?;
    } else if l < k {
      CreatesDiffer(w.d, l, k);
      assert w.sent[w.d.sessions[k].request].Create?;
    }
  }

  lemma CreatesDiffer(d: Daemon, k: SessionId, l: SessionId)
    requires Wired(d) && Threads(d) && k < l < |d.sessions|
    ensures d.sessions[k].request < d.sessions[l].request
  {
  }

  /** Until a prompt is cancelled, every prompt but a last one still open has been answered, in order. */
  lemma EveryPromptAnswered(timeout: int, states: seq<World>, acts: seq<Act>, n: nat, k: SessionId)
    requires Play(timeout, states, acts) && n < |states|
    requires k < |states[n].workers| && !states[n].workers[k].broken
    ensures var worker := states[n].workers[k];
            |Prompts(worker.said)| == |worker.got| + (if worker.asking then 1 else 0)
  {
    hide Play, Consistent, Threads, Prompted, Situated, RepliesProper, Fed, Filled, Replies;
    PlayRelays(timeout, states, acts, n);
    assert WorkerOk(states[n].d.sessions[k], states[n].workers[k]);
  }

  /**
   * Slot `j` of the array holds the reply at its position among the greeter's requests, which answered
   * the prompt that was asked for message `j`: what the user entered, not empty, for a message of PAM's
   * that asks, and nothing for an error or a text that only informs.
   */
  predicate SlotHolds(s: Session, k: Worker, b: Batch, j: nat, sent: seq<Body>) {
    && j < |b.messages| && |b.slots| == |b.messages| && 1 <= b.start
    && var i := b.start - 1 + j;
       && i < |k.got| && i < |Prompts(k.said)| && i < |Answers(s.sent)| && ReplyAt(s, i) < |sent|
       && PromptOf(b.messages[j]) == Some(Prompts(k.said)[i])
       && b.slots[j] == P.SlotFor(b.messages[j], k.got[i])
       && b.messages[j].style in {1, 2, 3, 4}
       && (b.messages[j].style in {1, 2} ==> b.slots[j] == P.Slot(Some(k.got[i]), 0) && 0 < |k.got[i]| <= 256)
       && (b.messages[j].style in {3, 4} ==> b.slots[j] == P.Slot(None, 0))
       && sent[ReplyAt(s, i)].Continue? && sent[ReplyAt(s, i)].response == k.got[i]
  }

  /** What the conversation callback computes for the batch from the daemon's messages since it began. */
  function Called(s: Session, b: Batch): P.Conv {
    P.Converse(b.messages, if b.start <= |s.sent| then Inbox(s.sent[b.start..]) else [])
  }

  /**
   * A response array given to PAM has one slot for each message of its batch, in their order: slot `j`
   * holds the reply of `RelayIsExact` to the prompt that was asked for message `j`, or nothing if the
   * message only informs. It is what the conversation callback computes from the daemon's messages.
   */
  lemma ArraysHoldTheReplies(timeout: int, states: seq<World>, acts: seq<Act>, n: nat, k: SessionId, a: nat)
    requires Play(timeout, states, acts) && n < |states|
    requires k < |states[n].workers| && a < |states[n].workers[k].done|
    ensures var w := states[n];
            var b := w.workers[k].done[a];
            && k < |w.d.sessions| && |b.slots| == |b.messages|
            && Called(w.d.sessions[k], b).slots == Some(b.slots)
            && forall j | 0 <= j < |b.messages| :: SlotHolds(w.d.sessions[k], w.workers[k], b, j, w.sent)
  {
    hide Play, Consistent, Prompts, Answers, Fed, Threads, P.Converse, SlotHolds;
    PlayRelays(timeout, states, acts, n);
    var w := states[n];
    var s, worker, b := w.d.sessions[k], w.workers[k], w.workers[k].done[a];
    assert b in worker.done;
    ArrayIsConverse(s, worker, b);
    DoneIsFilled(s, worker, b);
    forall j | 0 <= j < |b.messages|
      ensures SlotHolds(s, worker, b, j, w.sent)
    {
      SlotIsReply(w, k, b, j);
    }
  }

  lemma SlotIsReply(w: World, k: SessionId, b: Batch, j: nat)
    requires Consistent(w) && Relayed(w) && k < |w.workers| && b in w.workers[k].done && j < |b.messages|
    ensures k < |w.d.sessions| && SlotHolds(w.d.sessions[k], w.workers[k], b, j, w.sent)
  {
    hide Consistent, Prompts, Answers, ProperReply, WasShown, NoCreate, Utf8.DecodeReplace, Fed, Threads, PromptOf, Prompted, Situated,
      RepliesProper, P.SlotFor;
    DoneInRange(w.d.sessions[k], w.workers[k], b);
    DoneIsFilled(w.d.sessions[k], w.workers[k], b);
    RelayedReply(w, k, b.start - 1 + j);
    var i := b.start - 1 + j;
    PromptStyles(b.messages[j], Prompts(w.workers[k].said)[i], w.workers[k].got[i]);
  }

  /** Exactly PAM's errors and informing texts need no reply of the user, and the greeter knows all four styles. */
  lemma PromptStyles(m: P.PamMessage, prompt: Prompt, reply: Bytes)
    requires PromptOf(m) == Some(prompt)
    ensures m.style in {1, 2, 3, 4} && KnownStyle(prompt.style) && (NeedsNoReply(prompt.style) <==> m.style in {3, 4})
    ensures ProperReply(reply, prompt) && m.style in {1, 2} ==> 0 < |reply| <= 256
    ensures P.SlotFor(m, reply) == if m.style in {3, 4} then P.Slot(None, 0) else P.Slot(Some(reply), 0)
  {
    P.StylesMean(m, reply);
  }

  lemma DoneIsFilled(s: Session, k: Worker, b: Batch)
    requires WorkerOk(s, k) && b in k.done
    ensures Filled(b, k.got, Prompts(k.said)) && |b.slots| == |b.messages|
  {
  }
}
