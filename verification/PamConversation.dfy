/**
 * The PAM worker's side of a login: PAM hands over batches of messages, each message is put to the
 * daemon as a prompt, and the replies fill the response array of the batch. PAM itself is an oracle.
 */
module PamConversation {
  import opened Wrappers
  import opened Utf8
  import opened Framing
  import SizeBounds
  import W = PamWorkerProtocol

  const PAM_SUCCESS := 0
  const PAM_AUTH_ERR := 7
  const PAM_CRED_INSUFFICIENT := 8
  const PAM_USER_UNKNOWN := 10
  const PAM_MAXTRIES := 11
  const PAM_NEW_AUTHTOK_REQD := 12
  const PAM_ACCT_EXPIRED := 13
  const PAM_CONV_ERR := 19
  const PAM_AUTHTOK_LOCK_BUSY := 22
  const PAM_AUTHTOK_DISABLE_AGING := 23
  const PAM_ABORT := 26

  /** Bytes of style and text that a prompt frame can carry. */
  const PROMPT_LIMIT := 2029

  datatype PamMessage = PamMessage(style: int, text: Bytes)

  /** What the worker finds when it reads the daemon's channel; end of file follows the last one. */
  datatype Item = Good(message: W.Message) | Malformed

  /** One `pam_response`: `reply` is `None` for a null pointer. */
  datatype Slot = Slot(reply: Option<Bytes>, code: int)

  /** The result of `PromptBroker.ask`; `Broken` is a `ConversationError`. */
  datatype Reply = Answered(bytes: Bytes) | Cancelled | Broken

  /** `_prompt_style`; `None` where the source raises. */
  function StyleName(style: int): Option<string> {
    match style
    case 1 => Some("secret")
    case 2 => Some("visible")
    case 3 => Some("error")
    case 4 => Some("info")
    case _ => None
  }

  predicate Informs(style: int) {
    style == 3 || style == 4
  }

  /** The prompt sent for a message, if its style is known and its texts fit a prompt frame. */
  function PromptFor(m: PamMessage): (r: Option<W.Message>)
    ensures r.Some? ==> r.value.Prompt? && StyleName(m.style) == Some(r.value.style)
  {
    var style :- StyleName(m.style);
    var text := DecodeReplace(m.text);
    if |Utf8.Encode(style)| + |Utf8.Encode(text)| <= PROMPT_LIMIT then Some(W.Prompt(style, text)) else None
  }

  /** The limit is exactly what the encoder accepts. */
  lemma PromptIsSent(m: PamMessage)
    requires StyleName(m.style).Some?
    ensures var prompt := W.Prompt(StyleName(m.style).value, DecodeReplace(m.text));
            PromptFor(m) == if W.Encode(prompt).Ok? then Some(prompt) else None
  {
    hide W.Encode, DecodeReplace, Utf8.Encode;
    SizeBounds.WorkerPromptFits(StyleName(m.style).value, DecodeReplace(m.text));
  }

  lemma UnknownStyle(m: PamMessage)
    requires StyleName(m.style).None?
    ensures PromptFor(m).None?
  {
  }

  function SlotFor(m: PamMessage, reply: Bytes): Slot {
    Slot(if Informs(m.style) then None else Some(reply), 0)
  }

  /**
   * The four message styles of PAM: echo off is asked in secret, echo on visibly, and an error or an
   * informing text asks for nothing; no other style can be put. What asks has the reply in its slot.
   */
  lemma StylesMean(m: PamMessage, reply: Bytes)
    ensures PromptFor(m).Some? <==>
              || (m.style == 1 && 6 + |Utf8.Encode(DecodeReplace(m.text))| <= 2029)
              || (m.style == 2 && 7 + |Utf8.Encode(DecodeReplace(m.text))| <= 2029)
              || (m.style == 3 && 5 + |Utf8.Encode(DecodeReplace(m.text))| <= 2029)
              || (m.style == 4 && 4 + |Utf8.Encode(DecodeReplace(m.text))| <= 2029)
    ensures PromptFor(m).Some? ==>
              var p := PromptFor(m).value;
              && p.text == DecodeReplace(m.text)
              && (p.style == "secret" <==> m.style == 1) && (p.style == "visible" <==> m.style == 2)
              && (p.style == "error" <==> m.style == 3) && (p.style == "info" <==> m.style == 4)
    ensures SlotFor(m, reply) == if m.style == 3 || m.style == 4 then Slot(None, 0) else Slot(Some(reply), 0)
  {
    hide PromptFor, DecodeReplace;
    if 1 <= m.style <= 4 {
      StyleMeans(m);
    } else {
      UnknownStyle(m);
    }
  }

  lemma StyleMeans(m: PamMessage)
    requires 1 <= m.style <= 4
    ensures var style := if m.style == 1 then "secret" else if m.style == 2 then "visible" else if m.style == 3 then "error" else "info";
            && (PromptFor(m).Some? <==> |style| + |Utf8.Encode(DecodeReplace(m.text))| <= 2029)
            && (PromptFor(m).Some? ==> PromptFor(m).value.style == style && PromptFor(m).value.text == DecodeReplace(m.text))
  {
    hide DecodeReplace, Utf8.Encode;
    AsciiStyle(StyleName(m.style).value);
  }

  lemma AsciiStyle(style: string)
    requires forall c | c in style :: c < '\U{0080}'
    ensures |Utf8.Encode(style)| == |style|
  {
    EncodeLength(style);
  }

  // ---------- what a batch means ----------

  /** The slots if every message was answered, what was written, and what is left to read. */
  datatype Conv = Conv(slots: Option<seq<Slot>>, written: seq<W.Message>, rest: seq<Item>)

  function ReplyOf(inbox: seq<Item>): Reply {
    if inbox == [] || inbox[0].Malformed? then Broken
    else
      match inbox[0].message
      case Answer(response) => Answered(response)
      case Cancel => Cancelled
      case _ => Broken
  }

  function Converse(messages: seq<PamMessage>, inbox: seq<Item>): Conv {
    if messages == [] then Conv(Some([]), [], inbox)
    else
      var prompt := PromptFor(messages[0]);
      if prompt.None? then Conv(None, [], inbox)
      else
        var reply := ReplyOf(inbox);
        var rest := if inbox == [] then [] else inbox[1..];
        if !reply.Answered? then Conv(None, [prompt.value], rest)
        else
          var after := Converse(messages[1..], rest);
          Conv(if after.slots.None? then None else Some([SlotFor(messages[0], reply.bytes)] + after.slots.value),
               [prompt.value] + after.written, after.rest)
  }

  predicate Asks(m: PamMessage) {
    PromptFor(m).Some?
  }

  predicate IsAnswer(item: Item) {
    item.Good? && item.message.Answer?
  }

  /** The batch succeeds exactly when every message can be put as a prompt and meets an answer. */
  predicate AllAnswered(messages: seq<PamMessage>, inbox: seq<Item>) {
    && |messages| <= |inbox|
    && forall k | 0 <= k < |messages| :: Asks(messages[k]) && IsAnswer(inbox[k])
  }

  /**
   * A batch succeeds exactly if all its messages are answered; then the k-th slot holds the k-th answer
   * (nothing for a message that only informs) and the prompts went out in the order of the batch.
   */
  lemma {:induction false} BatchSucceedsExactly(messages: seq<PamMessage>, inbox: seq<Item>)
    ensures var c := Converse(messages, inbox);
            && (c.slots.Some? <==> AllAnswered(messages, inbox))
            && (c.slots.Some? ==>
                  && |c.slots.value| == |messages| == |c.written|
                  && c.rest == inbox[|messages|..]
                  && forall k | 0 <= k < |messages| ::
                       && c.written[k] == PromptFor(messages[k]).value
                       && c.slots.value[k] == SlotFor(messages[k], inbox[k].message.response))
  {
    hide PromptFor;
    if messages != [] {
      if Asks(messages[0]) && ReplyOf(inbox).Answered? {
        var rest := inbox[1..];
        BatchSucceedsExactly(messages[1..], rest);
        assert forall k | 0 < k < |messages| :: messages[k] == messages[1..][k - 1];
        assert forall k | 0 < k < |inbox| :: inbox[k] == rest[k - 1];
        if AllAnswered(messages[1..], rest) {
          assert inbox[|messages|..] == rest[|messages| - 1..];
        }
      }
    }
  }

  /** Message `k` is the first that cannot be put or meets no answer. */
  predicate FailsAt(messages: seq<PamMessage>, inbox: seq<Item>, k: nat) {
    && k < |messages| && k <= |inbox|
    && (forall j | 0 <= j < k :: Asks(messages[j]) && IsAnswer(inbox[j]))
    && (!Asks(messages[k]) || k == |inbox| || !IsAnswer(inbox[k]))
  }

  /** The first messages of the batch were put, in their order, and nothing else. */
  predicate Put(messages: seq<PamMessage>, written: seq<W.Message>) {
    && |written| <= |messages|
    && forall j | 0 <= j < |written| :: Asks(messages[j]) && written[j] == PromptFor(messages[j]).value
  }

  lemma PutNext(messages: seq<PamMessage>, written: seq<W.Message>)
    requires messages != [] && Asks(messages[0]) && Put(messages[1..], written)
    ensures Put(messages, [PromptFor(messages[0]).value] + written)
  {
    hide PromptFor;
    var all := [PromptFor(messages[0]).value] + written;
    forall j | 0 <= j < |all|
      ensures Asks(messages[j]) && all[j] == PromptFor(messages[j]).value
    {
      if j > 0 {
        assert messages[1..][j - 1] == messages[j] && all[j] == written[j - 1];
      }
    }
  }

  lemma FailsNext(messages: seq<PamMessage>, inbox: seq<Item>, k: nat)
    requires messages != [] && inbox != [] && Asks(messages[0]) && IsAnswer(inbox[0])
    requires FailsAt(messages[1..], inbox[1..], k)
    ensures FailsAt(messages, inbox, k + 1)
  {
    hide Asks, IsAnswer;
    forall j | 0 <= j < k + 1
      ensures Asks(messages[j]) && IsAnswer(inbox[j])
    {
      if j > 0 {
        assert messages[1..][j - 1] == messages[j] && inbox[1..][j - 1] == inbox[j];
      }
    }
  }

  /**
   * A batch that fails stops at its first message that cannot be put or is not answered: the messages
   * before it, and that one if possible, were put, and nothing was read beyond its reply.
   */
  lemma {:induction false} BatchFailsAtFirst(messages: seq<PamMessage>, inbox: seq<Item>) returns (k: nat)
    requires Converse(messages, inbox).slots.None?
    ensures FailsAt(messages, inbox, k)
    ensures var c := Converse(messages, inbox);
            && Put(messages, c.written)
            && |c.written| == (if Asks(messages[k]) then k + 1 else k)
            && c.rest == (if Asks(messages[k]) && k < |inbox| then inbox[k + 1..] else inbox[k..])
  {
    hide PromptFor, FailsAt, Put;
    if Asks(messages[0]) && ReplyOf(inbox).Answered? {
      k := BatchFailsAtFirst(messages[1..], inbox[1..]);
      FailsNext(messages, inbox, k);
      PutNext(messages, Converse(messages[1..], inbox[1..]).written);
      FailsInRange(messages[1..], inbox[1..], k);
      k := k + 1;
    } else {
      k := 0;
      FailsAtStart(messages, inbox);
    }
  }

  lemma FailsInRange(messages: seq<PamMessage>, inbox: seq<Item>, k: nat)
    requires FailsAt(messages, inbox, k)
    ensures k < |messages| && k <= |inbox|
  {
  }

  lemma FailsAtStart(messages: seq<PamMessage>, inbox: seq<Item>)
    requires messages != [] && !(Asks(messages[0]) && ReplyOf(inbox).Answered?)
    ensures FailsAt(messages, inbox, 0) && Put(messages, []) && (Asks(messages[0]) ==> Put(messages, [PromptFor(messages[0]).value]))
  {
    hide PromptFor;
  }

  /** What the rest of a batch means after one message of it was answered. */
  lemma OneAnswered(messages: seq<PamMessage>, index: nat, inbox: seq<Item>)
    requires index < |messages| && Asks(messages[index]) && ReplyOf(inbox).Answered?
    ensures inbox != []
    ensures var c := Converse(messages[index..], inbox);
            var d := Converse(messages[index + 1..], inbox[1..]);
            && c.written == [PromptFor(messages[index]).value] + d.written && c.rest == d.rest
            && (c.slots.Some? <==> d.slots.Some?)
            && (c.slots.Some? ==> c.slots.value == [SlotFor(messages[index], ReplyOf(inbox).bytes)] + d.slots.value)
  {
    hide PromptFor;
    assert messages[index..][1..] == messages[index + 1..];
  }

  /** What the rest of a batch means if its first message fails. */
  lemma NoneAnswered(messages: seq<PamMessage>, index: nat, inbox: seq<Item>)
    requires index < |messages| && !(Asks(messages[index]) && ReplyOf(inbox).Answered?)
    ensures Converse(messages[index..], inbox) ==
            if Asks(messages[index]) then Conv(None, [PromptFor(messages[index]).value], if inbox == [] then [] else inbox[1..])
            else Conv(None, [], inbox)
  {
    hide PromptFor, ReplyOf;
  }

  /** `whole` is what was done so far, followed by what `rest` means. */
  ghost predicate Extends(whole: Conv, written: seq<W.Message>, slots: seq<Slot>, rest: Conv) {
    && whole.written == written + rest.written && whole.rest == rest.rest
    && (whole.slots.Some? <==> rest.slots.Some?)
    && (rest.slots.Some? ==> whole.slots.value == slots + rest.slots.value)
  }

  lemma ExtendsNext(whole: Conv, written: seq<W.Message>, slots: seq<Slot>, prompt: W.Message, slot: Slot, c: Conv, d: Conv)
    requires Extends(whole, written, slots, c)
    requires c.written == [prompt] + d.written && c.rest == d.rest && (c.slots.Some? <==> d.slots.Some?)
    requires c.slots.Some? ==> c.slots.value == [slot] + d.slots.value
    ensures Extends(whole, written + [prompt], slots + [slot], d)
  {
    assert written + ([prompt] + d.written) == (written + [prompt]) + d.written;
    if d.slots.Some? {
      assert slots + ([slot] + d.slots.value) == (slots + [slot]) + d.slots.value;
    }
  }

  lemma NothingLeft(messages: seq<PamMessage>, inbox: seq<Item>)
    ensures Converse(messages[|messages|..], inbox) == Conv(Some([]), [], inbox)
  {
  }

  // ---------- a whole session ----------

  /** A run of the PAM library: the batches it hands over and the codes it returns. */
  datatype PamRun = PamRun(setupError: Option<string>, batches: seq<seq<PamMessage>>, authenticate: int, account: int)

  function ConverseAll(batches: seq<seq<PamMessage>>, inbox: seq<Item>): (seq<W.Message>, seq<Item>) {
    if batches == [] then ([], inbox)
    else
      var before := ConverseAll(batches[..|batches| - 1], inbox);
      var c := Converse(batches[|batches| - 1], before.1);
      (before.0 + c.written, c.rest)
  }

  datatype Stage = Auth | Acct

  function FailureCode(stage: Stage, rc: int): string {
    if stage.Auth? && rc == PAM_AUTH_ERR then "auth_retryable" else "auth_failed"
  }

  function UserFacingError(stage: Stage, rc: int): string {
    match stage
    case Auth =>
      if rc in {PAM_AUTH_ERR, PAM_USER_UNKNOWN, PAM_MAXTRIES} then "Authentication failed."
      else if rc in {PAM_CRED_INSUFFICIENT, PAM_ABORT} then "Authentication service unavailable."
      else "Authentication failed."
    case Acct =>
      if rc == PAM_NEW_AUTHTOK_REQD then "Password change required."
      else if rc == PAM_ACCT_EXPIRED then "Account expired."
      else if rc in {PAM_AUTH_ERR, PAM_USER_UNKNOWN} then "Authentication failed."
      else if rc in {PAM_CRED_INSUFFICIENT, PAM_ABORT, PAM_AUTHTOK_LOCK_BUSY, PAM_AUTHTOK_DISABLE_AGING} then
        "Authentication service unavailable."
      else "Authentication failed."
  }

  function Verdict(run: PamRun): W.Message {
    if run.setupError.Some? then W.Failed("auth_failed", run.setupError.value)
    else if run.authenticate != PAM_SUCCESS then
      W.Failed(FailureCode(Auth, run.authenticate), UserFacingError(Auth, run.authenticate))
    else if run.account != PAM_SUCCESS then
      W.Failed(FailureCode(Acct, run.account), UserFacingError(Acct, run.account))
    else W.Ready
  }

  /**
   * The worker reports ready exactly when PAM both authenticated the user and admitted the account, and
   * invites a retry exactly when authentication itself was refused.
   */
  lemma VerdictIsPams(run: PamRun)
    ensures Verdict(run).Ready? <==> run.setupError.None? && run.authenticate == 0 == run.account
    ensures Verdict(run).Failed? && Verdict(run).code == "auth_retryable" <==>
            run.setupError.None? && run.authenticate == 7
    ensures Verdict(run).Failed? && Verdict(run).code != "auth_retryable" ==> Verdict(run).code == "auth_failed"
    ensures !Verdict(run).Ready? ==> Verdict(run).Failed?
  {
    assert "auth_retryable"[5] != "auth_failed"[5];
  }

  /** What the user is told: a setup error as it is, and otherwise what authentication or the account failed on. */
  lemma VerdictTells(run: PamRun)
    requires Verdict(run).Failed?
    ensures var told := Verdict(run).message;
            var account := run.setupError.None? && run.authenticate == 0;
            && (run.setupError.Some? ==> told == run.setupError.value)
            && (run.setupError.None? ==>
                  && (told == "Password change required." <==> account && run.account == 12)
                  && (told == "Account expired." <==> account && run.account == 13)
                  && (told == "Authentication service unavailable." <==>
                        if account then run.account in {8, 22, 23, 26} else run.authenticate in {8, 26})
                  && (told in {"Password change required.", "Account expired.", "Authentication service unavailable.",
                               "Authentication failed."}))
  {
    assert "Authentication service unavailable."[15] != "Authentication failed."[15];
    assert "Password change required."[0] != "A"[0] && "Account expired."[1] != "Authentication failed."[1];
    assert "Account expired."[1] != "Authentication service unavailable."[1];
  }

  /** Once PAM was set up the verdict always reaches the daemon. */
  lemma VerdictFits(run: PamRun)
    requires run.setupError.None?
    ensures W.Encode(Verdict(run)).Ok?
  {
    hide EncodeText, FitsText, FailureCode, UserFacingError;
    ShortText("ready");
    ShortText("failed");
    ShortCode(Auth, run.authenticate);
    ShortCode(Acct, run.account);
  }

  lemma ShortCode(stage: Stage, rc: int)
    ensures FitsText(FailureCode(stage, rc)) && FitsText(UserFacingError(stage, rc))
    ensures |EncodeText(FailureCode(stage, rc))| <= 404 && |EncodeText(UserFacingError(stage, rc))| <= 404
  {
    hide EncodeText, FitsText;
    ShortText(FailureCode(stage, rc));
    ShortText(UserFacingError(stage, rc));
  }

  lemma ShortText(value: string)
    requires |value| <= 100
    ensures FitsText(value) && |EncodeText(value)| <= 404
  {
    EncodeLength(value);
  }

  // ---------- the worker itself ----------

  class PromptBroker {
    /** Messages of the daemon not read yet, and messages written to it. */
    var inbox: seq<Item>
    var written: seq<W.Message>

    constructor (inbox: seq<Item>)
      ensures this.inbox == inbox && written == []
    {
      this.inbox, written := inbox, [];
    }

    /** Writes one prompt and blocks for what the daemon sends next. */
    method Ask(prompt: W.Message) returns (reply: Reply)
      modifies this
      ensures W.Encode(prompt).Err? ==> reply == Broken && inbox == old(inbox) && written == old(written)
      ensures W.Encode(prompt).Ok? ==>
                && reply == ReplyOf(old(inbox))
                && inbox == (if old(inbox) == [] then [] else old(inbox)[1..])
                && written == old(written) + [prompt]
    {
      var frame := W.Encode(prompt);
      if frame.Err? {
        return Broken;
      }
      written := written + [prompt];
      if inbox == [] {
        return Broken;
      }
      var item := inbox[0];
      inbox := inbox[1..];
      if item.Malformed? {
        return Broken;
      }
      match item.message
      case Answer(response) => reply := Answered(response);
      case Cancel => reply := Cancelled;
      case _ => reply := Broken;
    }

    /** `_conversation_conv`: one slot for each message, filled in their order until one fails. */
    method Conversation(messages: seq<PamMessage>) returns (rc: int, response: array?<Slot>)
      modifies this
      ensures var c := Converse(messages, old(inbox));
              && inbox == c.rest && written == old(written) + c.written
              && (rc == PAM_SUCCESS <==> c.slots.Some?) && (rc != PAM_SUCCESS ==> rc == PAM_CONV_ERR)
              && (response != null <==> c.slots.Some?)
              && (response != null ==> fresh(response) && response[..] == c.slots.value)
    {
      hide Converse, ReplyOf, PromptFor, W.Encode, DecodeReplace;
      var slots := new Slot[|messages|](_ => Slot(None, 0));
      ghost var whole := Converse(messages, inbox);
      ghost var start := written;
      ghost var sent: seq<W.Message> := [];
      assert messages[0..] == messages;
      for index := 0 to |messages|
        invariant fresh(slots)
        invariant written == start + sent
        invariant Extends(whole, sent, slots[..index], Converse(messages[index..], inbox))
      {
        var m := messages[index];
        ghost var before := inbox;
        ghost var filled := slots[..index];
        var style := StyleName(m.style);
        if style.None? {
          UnknownStyle(m);
          NoneAnswered(messages, index, before);
          return PAM_CONV_ERR, null;
        }
        var prompt := W.Prompt(style.value, DecodeReplace(m.text));
        PromptIsSent(m);
        var reply := Ask(prompt);
        if !reply.Answered? {
          NoneAnswered(messages, index, before);
          return PAM_CONV_ERR, null;
        }
        OneAnswered(messages, index, before);
        sent := sent + [prompt];
        slots[index] := SlotFor(m, reply.bytes);
        assert slots[..index + 1] == filled + [slots[index]];
        ExtendsNext(whole, sent[..|sent| - 1], filled, prompt, slots[index],
                    Converse(messages[index..], before), Converse(messages[index + 1..], inbox));
      }
      NothingLeft(messages, inbox);
      assert slots[..|messages|] == slots[..];
      return PAM_SUCCESS, slots;
    }

    /** The last message; nothing is written if it does not fit a frame. */
    method Report(verdict: W.Message) returns (reported: bool)
      modifies this`written
      ensures reported <==> W.Encode(verdict).Ok?
      ensures written == old(written) + (if reported then [verdict] else [])
    {
      reported := W.Encode(verdict).Ok?;
      if reported {
        written := written + [verdict];
      }
    }

    /** `run_auth_session`: PAM's batches, then one verdict. */
    method RunAuthSession(run: PamRun) returns (reported: bool)
      modifies this
      ensures reported <==> W.Encode(Verdict(run)).Ok?
      ensures var (prompts, rest) := if run.setupError.Some? then ([], old(inbox)) else ConverseAll(run.batches, old(inbox));
              written == old(written) + prompts + (if reported then [Verdict(run)] else []) && inbox == rest
    {
      hide Converse, W.Encode, UserFacingError, FailureCode;
      if run.setupError.Some? {
        reported := Report(W.Failed("auth_failed", run.setupError.value));
        return;
      }
      for i := 0 to |run.batches|
        invariant written == old(written) + ConverseAll(run.batches[..i], old(inbox)).0
        invariant inbox == ConverseAll(run.batches[..i], old(inbox)).1
      {
        assert run.batches[..i + 1][..i] == run.batches[..i];
        var rc, response := Conversation(run.batches[i]);
      }
      assert run.batches[..|run.batches|] == run.batches;
      if run.authenticate != PAM_SUCCESS {
        reported := Report(W.Failed(FailureCode(Auth, run.authenticate), UserFacingError(Auth, run.authenticate)));
      } else if run.account != PAM_SUCCESS {
        reported := Report(W.Failed(FailureCode(Acct, run.account), UserFacingError(Acct, run.account)));
      } else {
        reported := Report(W.Ready);
      }
    }
  }
}
