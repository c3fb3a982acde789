/** The greeter's application object: conversation flags changed in place, and its blocking actions. */
module GreeterUi {
  import opened Wrappers
  import opened AuthMachine
  import opened GreeterFlow
  import opened GreeterClient
  import opened SizeBounds

  datatype Focus = OnUsername | OnPassword | OnSessions

  /** The call changes nothing about how a waiting greeter handles events. */
  lemma {:induction false} WaitIgnoresCall(g: Greeter, call: Call, id: nat, inbox: seq<Incoming>)
    ensures var w := Wait(g, id, inbox);
            Wait(g.(call := call), id, inbox) == if w.ending.Replaced? then w else w.(g := w.g.(call := call))
    decreases |inbox|
  {
    if inbox != [] && inbox[0].Arrived? {
      if inbox[0].message.Notice? {
        WaitIgnoresCall(OnEvent(g, inbox[0].message.event), call, id, inbox[1..]);
      } else {
        WaitIgnoresCall(g, call, id, inbox[1..]);
      }
    }
  }

  /** A request's outcome, in terms of what `send_recv_answer` does to the greeter. */
  lemma AskedOutcome(g: Greeter, id: nat, kind: Kind, inbox: seq<Incoming>)
    requires g.call.NoCall?
    ensures var w := Wait(g, id, inbox);
            var call := Waiting(id, kind);
            Drive(g.(call := call), id + 1, inbox) ==
            match w.ending
            case Replaced => Outcome(Fresh(), [], w.rest)
            case Lost => Outcome(Lose(w.g.(call := call)), [], w.rest)
            case Answered(reply) => GoOn(w.g.(call := call), id + 1, reply, w.rest)
    ensures Wait(g, id, inbox).g.call.NoCall?
  {
    hide Wait, OnAnswer;
    WaitIgnoresCall(g, Waiting(id, kind), id, inbox);
    WaitIgnoresCall(g, NoCall, id, inbox);
    WaitKeepsCall(g, id, inbox);
    ReplacedIsFresh(g, id, inbox);
    DriveWaits(g.(call := Waiting(id, kind)), id + 1, inbox);
  }

  lemma {:induction false} ReplacedIsFresh(g: Greeter, id: nat, inbox: seq<Incoming>)
    ensures Wait(g, id, inbox).ending.Replaced? ==> Wait(g, id, inbox).g == Fresh()
    decreases |inbox|
  {
    if inbox != [] && inbox[0].Arrived? {
      if inbox[0].message.Notice? {
        ReplacedIsFresh(OnEvent(g, inbox[0].message.event), id, inbox[1..]);
      } else {
        ReplacedIsFresh(g, id, inbox[1..]);
      }
    }
  }

  /** The reply that an action goes on from; a lost connection counts as a refusal. */
  function ReplyOrLost(ending: Ending): Reply {
    if ending.Answered? then ending.reply else Refused("")
  }

  lemma CreateOutcome(g: Greeter, id: nat, inbox: seq<Incoming>)
    requires g.call.NoCall?
    ensures var w := Wait(g, id, inbox);
            Drive(g.(call := Waiting(id, ForCreate)), id + 1, inbox) ==
            if w.ending.Replaced? then Outcome(Fresh(), [], w.rest)
            else
              var c := Conversation(w.g.(busy := false), id, ReplyOrLost(w.ending));
              Outcome(if w.ending.Lost? then c.(quit := true) else c, [], w.rest)
    ensures Wait(g, id, inbox).ending.Replaced? ==> Wait(g, id, inbox).g == Fresh()
  {
    hide Wait;
    AskedOutcome(g, id, ForCreate, inbox);
    ReplacedIsFresh(g, id, inbox);
  }

  lemma CancelOutcome(g: Greeter, id: nat, inbox: seq<Incoming>)
    requires g.call.NoCall?
    ensures var w := Wait(g, id, inbox);
            Drive(g.(call := Waiting(id, ForCancel)), id + 1, inbox) ==
            if w.ending.Replaced? then Outcome(Fresh(), [], w.rest)
            else Outcome(if w.ending.Lost? then Reset(w.g).(quit := true) else Reset(w.g), [], w.rest)
    ensures Wait(g, id, inbox).ending.Replaced? ==> Wait(g, id, inbox).g == Fresh()
  {
    hide Wait;
    AskedOutcome(g, id, ForCancel, inbox);
    ReplacedIsFresh(g, id, inbox);
  }

  lemma StartOutcome(g: Greeter, id: nat, inbox: seq<Incoming>)
    requires g.call.NoCall?
    ensures var w := Wait(g, id, inbox);
            Drive(g.(call := Waiting(id, ForStart)), id + 1, inbox) ==
            match w.ending
            case Replaced => Outcome(Fresh(), [], w.rest)
            case Lost => Outcome(w.g.(busy := false, quit := true), [], w.rest)
            case Answered(reply) => Outcome(if reply.Refused? then w.g.(busy := false) else w.g.(started := true), [], w.rest)
    ensures Wait(g, id, inbox).ending.Replaced? ==> Wait(g, id, inbox).g == Fresh()
  {
    hide Wait;
    AskedOutcome(g, id, ForStart, inbox);
    ReplacedIsFresh(g, id, inbox);
  }

  lemma ContinueOutcome(g: Greeter, id: nat, retry: Bytes, inbox: seq<Incoming>)
    requires g.call.NoCall?
    ensures var w := Wait(g, id, inbox);
            var c := Conversation(w.g.(busy := false), id, ReplyOrLost(w.ending));
            Drive(g.(call := Waiting(id, ForContinue(retry))), id + 1, inbox) ==
            if w.ending.Replaced? then Outcome(Fresh(), [], w.rest)
            else if w.ending == Answered(Refused("auth_retryable")) && retry != [] then
              var o := Drive(AskCreate(c, id + 1, retry).0, id + 2, w.rest);
              Outcome(o.g, [Create(retry)] + o.sent, o.rest)
            else Outcome(if w.ending.Lost? then c.(quit := true) else c, [], w.rest)
    ensures Wait(g, id, inbox).ending.Replaced? ==> Wait(g, id, inbox).g == Fresh()
  {
    hide Wait, KnownStyle, Drive;
    AskedOutcome(g, id, ForContinue(retry), inbox);
    ReplacedIsFresh(g, id, inbox);
    var w := Wait(g, id, inbox);
    if w.ending.Answered? {
      var (h, body) := OnAnswer(w.g.(call := Waiting(id, ForContinue(retry))), id + 1, w.ending.reply);
      if body.None? {
        DriveRests(h, id + 1, w.rest);
        assert id + 1 + |Sending(None)| == id + 1;
      } else {
        assert id + 1 + |Sending(body)| == id + 2;
      }
    } else if w.ending.Lost? {
      assert "" != "auth_retryable";
    }
  }

  lemma DriveRests(g: Greeter, id: nat, inbox: seq<Incoming>)
    requires g.call.NoCall?
    ensures Drive(g, id, inbox) == Outcome(g, [], inbox)
  {
  }

  /** The request that a refused reply is followed up with. */
  function Again(ending: Ending, username: Bytes): seq<Body> {
    if ending == Answered(Refused("auth_retryable")) && username != [] then [Create(username)] else []
  }

  /** All that one click writes, whatever the daemon answers. */
  lemma LoginWrites(g: Greeter, id: nat, entered: Bytes, command: string, inbox: seq<Incoming>)
    requires g.call.NoCall?
    ensures var step := OnLogin(g, id, entered, command);
            && step.1 == Requested(g, entered, command)
            && (step.1.Some? ==>
                  Drive(step.0, id + 1, inbox).sent ==
                  if g.claim.ShowsPrompt? then Again(Wait(g.(busy := true), id, inbox).ending, g.username) else [])
  {
    hide Wait, Drive, KnownStyle;
    var b := g.(busy := true);
    ClicksAsk(g, id, entered, command);
    if Requested(g, entered, command).Some? {
      match g.claim
      case ShowsReady => StartOutcome(b, id, inbox);
      case Nothing => CreateOutcome(b.(username := entered), id, inbox);
      case ShowsPrompt(_) =>
        ContinueOutcome(b, id, g.username, inbox);
        AgainCreates(b, id, inbox);
    }
  }

  lemma AgainCreates(b: Greeter, id: nat, inbox: seq<Incoming>)
    requires b.call.NoCall?
    ensures var w := Wait(b, id, inbox);
            w.ending == Answered(Refused("auth_retryable")) ==>
              var c := Conversation(w.g.(busy := false), id, Refused("auth_retryable"));
              Drive(AskCreate(c, id + 1, b.username).0, id + 2, w.rest).sent == []
  {
    hide Wait, Drive;
    var w := Wait(b, id, inbox);
    WaitKeepsCall(b, id, inbox);
    if w.ending == Answered(Refused("auth_retryable")) {
      var c := Conversation(w.g.(busy := false), id, Refused("auth_retryable"));
      CreateOutcome(c.(busy := true, username := b.username), id + 1, w.rest);
    }
  }

  /** A click for a ready session. */
  lemma StartClick(g: Greeter, id: nat, command: string, inbox: seq<Incoming>)
    requires g.call.NoCall? && g.claim.ShowsReady? && !g.busy
    ensures var step := OnLogin(g, id, [], command);
            var w := Wait(g.(busy := true), id, inbox);
            && step.1 == Some(StartSession(command))
            && Drive(step.0, id + 1, inbox) ==
               (match w.ending
                case Replaced => Outcome(Fresh(), [], w.rest)
                case Lost => Outcome(w.g.(busy := false, quit := true), [], w.rest)
                case Answered(reply) => Outcome(if reply.Refused? then w.g.(busy := false) else w.g.(started := true), [], w.rest))
            && (w.ending.Replaced? ==> w.g == Fresh())
  {
    hide Wait, Drive;
    StartOutcome(g.(busy := true), id, inbox);
  }

  /** A click for a prompt that gets no usable reply. */
  lemma SilentClick(g: Greeter, id: nat, entered: Bytes)
    requires g.claim.ShowsPrompt? && !g.busy && ReadReply(g.claim.shown.prompt.style, entered).None?
    ensures OnLogin(g, id, entered, "") == (g, None)
  {
    hide ReadReply;
  }

  /** A click for a prompt that is given a reply. */
  lemma ContinueClick(g: Greeter, id: nat, entered: Bytes, shown: Shown, inbox: seq<Incoming>)
    requires g.call.NoCall? && g.claim == ShowsPrompt(shown) && !g.busy && ReadReply(shown.prompt.style, entered).Some?
    ensures var step := OnLogin(g, id, entered, "");
            var w := Wait(g.(busy := true), id, inbox);
            var c := Conversation(w.g.(busy := false), id, ReplyOrLost(w.ending));
            && step.1 == Some(Continue(ReadReply(shown.prompt.style, entered).value, shown))
            && Drive(step.0, id + 1, inbox) ==
               (if w.ending.Replaced? then Outcome(Fresh(), [], w.rest)
                else if w.ending == Answered(Refused("auth_retryable")) && g.username != [] then
                  var o := Drive(AskCreate(c, id + 1, g.username).0, id + 2, w.rest);
                  Outcome(o.g, [Create(g.username)] + o.sent, o.rest)
                else Outcome(if w.ending.Lost? then c.(quit := true) else c, [], w.rest))
            && (w.ending.Replaced? ==> w.g == Fresh())
  {
    hide Wait, Drive, ReadReply, Conversation;
    ContinueOutcome(g.(busy := true), id, g.username, inbox);
  }

  lemma NoEvents(g: Greeter)
    ensures AfterEvents(g, []) == g
  {
  }

  lemma OneMore(g: Greeter, seen: seq<Incoming>, m: Incoming)
    ensures AfterEvents(g, seen + [m]) ==
            if m.Arrived? && m.message.Notice? then OnEvent(AfterEvents(g, seen), m.message.event) else AfterEvents(g, seen)
  {
    assert (seen + [m])[..|seen|] == seen;
  }

  class GreeterApp {
    var conversationPending: bool
    var promptStyle: string
    var promptText: string
    /** The number of the request whose response brought the prompt; the program itself has no use for it. */
    var promptFor: nat
    var sessionReady: bool
    var authUsername: Bytes
    var authInProgress: bool
    var quit: bool
    var replaced: bool
    var focus: Focus
    var statusMessage: string
    var statusError: bool
    /** The daemon's channel: what is still to be read, and what was written. */
    var inbox: seq<Incoming>
    var outbox: seq<Body>
    ghost var started: bool

    constructor (inbox: seq<Incoming>)
      ensures Valid() && Face() == Fresh() && !replaced && this.inbox == inbox && outbox == []
    {
      conversationPending, promptStyle, promptText, promptFor, sessionReady := false, "", "", 0, false;
      authUsername, authInProgress, quit, replaced := [], false, false, false;
      focus, statusMessage, statusError := OnUsername, "", false;
      this.inbox, outbox, started := inbox, [], false;
    }

    ghost predicate Valid()
      reads this
    {
      !(conversationPending && sessionReady)
    }

    /** The greeter of the step machine that this object is, between its requests. */
    ghost function Face(): Greeter
      reads this
    {
      var claim := if conversationPending then ShowsPrompt(Shown(Prompt(promptStyle, promptText), promptFor))
                   else if sessionReady then ShowsReady else Nothing;
      Greeter(claim, authInProgress, authUsername, started, NoCall, quit)
    }

    // ---------- conversation state ----------

    method SetStatus(message: string, error: bool)
      modifies this`statusMessage, this`statusError
      ensures statusMessage == message && statusError == error
    {
      statusMessage, statusError := message, error;
    }

    method SetAuthState(busy: bool)
      modifies this`authInProgress, this`statusMessage, this`statusError
      ensures Face() == old(Face()).(busy := busy)
      ensures statusMessage == (if busy then "Authenticating..." else old(statusMessage))
    {
      authInProgress := busy;
      if busy {
        SetStatus("Authenticating...", false);
      }
    }

    method ClearConversationState()
      modifies this`conversationPending, this`promptStyle, this`promptText, this`sessionReady, this`authUsername, this`started
      ensures Valid() && Face() == Clear(old(Face()))
    {
      conversationPending, promptStyle, promptText, sessionReady, authUsername := false, "", "", false, [];
      started := false;
    }

    method SetConversationPrompt(style: string, text: string, id: nat)
      modifies this`conversationPending, this`promptStyle, this`promptText, this`promptFor, this`sessionReady, this`started
      modifies this`focus, this`statusMessage, this`statusError
      ensures Valid() && Face() == old(Face()).(claim := ShowsPrompt(Shown(Prompt(style, text), id)), started := false)
      ensures if NeedsNoReply(style) && text != "" then
                statusMessage == text && statusError == (style == "error") && focus == old(focus)
              else statusMessage == "" && focus == OnPassword
    {
      conversationPending, sessionReady, promptStyle, promptText, promptFor := true, false, style, text, id;
      started := false;
      if NeedsNoReply(style) && text != "" {
        SetStatus(text, style == "error");
        return;
      }
      SetStatus("", false);
      focus := OnPassword;
    }

    method SetSessionReady()
      modifies this`conversationPending, this`promptStyle, this`promptText, this`sessionReady, this`started
      modifies this`focus, this`statusMessage, this`statusError
      ensures Valid() && Face() == old(Face()).(claim := ShowsReady, started := false)
      ensures focus == OnSessions && statusMessage == ""
    {
      conversationPending, promptStyle, promptText, sessionReady := false, "", "", true;
      started := false;
      SetStatus("", false);
      focus := OnSessions;
    }

    method ResetAuthFlow()
      modifies this
      ensures Valid() && Face() == Reset(old(Face())) && Keeps(old(Channels()))
      ensures focus == OnUsername && statusMessage == ""
    {
      SetAuthState(false);
      ClearConversationState();
      SetStatus("", false);
      focus := OnUsername;
    }

    // ---------- events ----------

    ghost function Channels(): (seq<Incoming>, seq<Body>, bool)
      reads this
    {
      (inbox, outbox, replaced)
    }

    /** The conversation as it stands: prompt, ready session and the name it is for. */
    ghost function Conversing(): (bool, string, string, nat, bool, Bytes)
      reads this
    {
      (conversationPending, promptStyle, promptText, promptFor, sessionReady, authUsername)
    }

    ghost predicate Keeps(before: (seq<Incoming>, seq<Body>, bool))
      reads this
    {
      Channels() == before
    }

    /** `reexec_self` does not return: a new program starts from nothing over the same channel. */
    method ReExecSelf()
      modifies this
      ensures Valid() && Face() == Fresh() && replaced && inbox == old(inbox) && outbox == old(outbox)
    {
      replaced := true;
      conversationPending, promptStyle, promptText, sessionReady := false, "", "", false;
      authUsername, authInProgress, quit, started := [], false, false, false;
      focus, statusMessage, statusError := OnUsername, "", false;
    }

    method HandleEvent(event: Event)
      requires Valid() && !replaced
      modifies this
      ensures Valid() && Face() == OnEvent(old(Face()), event)
      ensures event.SessionStarting? ==>
                authInProgress && statusMessage == "Starting session..." && Conversing() == old(Conversing())
      ensures event.AuthWarning? || event.StateChanged? ==>
                authInProgress == old(authInProgress) && Conversing() == old(Conversing())
      ensures event.SessionFinished? || event.AuthExpired? ==>
                !authInProgress && !conversationPending && !sessionReady && authUsername == []
      ensures event.AuthExpired? ==> statusMessage == "Authentication timed out." && statusError
      ensures event.ReExec? ==> Face() == Fresh()
      ensures inbox == old(inbox) && outbox == old(outbox) && (replaced <==> event.ReExec?)
    {
      match event
      case SessionStarting =>
        SetAuthState(true);
        SetStatus("Starting session...", false);
      case ReExec => ReExecSelf();
      case AuthWarning(_) => SetStatus("Authentication time is running out. Hurry up...", false);
      case AuthExpired(_) =>
        ResetAuthFlow();
        SetStatus("Authentication timed out.", true);
      case SessionFinished =>
        SetAuthState(false);
        ClearConversationState();
      case StateChanged =>
    }

    method HandleConnectionLost()
      modifies this`quit, this`statusMessage, this`statusError
      ensures Face() == old(Face()).(quit := true)
    {
      SetStatus("Connection to daemon lost.", true);
      quit := true;
    }

    /**
     * Handles what has arrived while no request is pending, up to the first message that ends polling, or
     * the end of the channel if that has arrived as well; responses are dropped.
     */
    method PollEvents(readable: nat, ended: bool)
      requires Valid() && !replaced && readable <= |inbox| && (ended ==> readable == |inbox|)
      modifies this
      ensures Valid() && outbox == old(outbox)
      ensures var seen := old(inbox)[..readable];
              var k := Handled(seen);
              if k == readable then
                && !replaced && inbox == old(inbox)[readable..]
                && Face() == if ended then AfterEvents(old(Face()), seen).(quit := true) else AfterEvents(old(Face()), seen)
              else
                && (replaced <==> seen[k].Arrived?) && inbox == old(inbox)[k + 1..]
                && Face() == if replaced then Fresh() else AfterEvents(old(Face()), seen[..k]).(quit := true)
    {
      hide OnEvent, Conversing, Acted, AfterEvents, Handled;
      ghost var all := inbox;
      ghost var seen := inbox[..readable];
      ghost var start := Face();
      var left := readable;
      NoEvents(start);
      assert all[..0] == [];
      while left > 0
        invariant Valid() && !replaced && outbox == old(outbox) && 0 <= left <= readable
        invariant inbox == all[readable - left..]
        invariant Face() == AfterEvents(start, all[..readable - left])
        invariant forall j | 0 <= j < readable - left :: !EndsPolling(seen[j])
      {
        var first := inbox[0];
        ghost var n := readable - left;
        assert first == seen[n] && all[..n + 1] == all[..n] + [first] && seen[..n] == all[..n];
        inbox := inbox[1..];
        left := left - 1;
        if first.Malformed? {
          HandleConnectionLost();
          assert Handled(seen) == n;
          return;
        }
        OneMore(start, all[..n], first);
        if first.message.Notice? {
          HandleEvent(first.message.event);
          if replaced {
            assert Handled(seen) == n;
            return;
          }
        }
      }
      assert Handled(seen) == readable;
      if ended {
        HandleConnectionLost();
      }
    }

    // ---------- blocking calls ----------

    /** `send_recv_answer`: writes a request and reads until its response, handling events on the way. */
    method SendRecvAnswer(request: Body) returns (answer: Option<Reply>)
      requires Valid() && !replaced
      modifies this
      ensures Valid() && outbox == old(outbox) + [request]
      ensures var w := Wait(old(Face()), |old(outbox)|, old(inbox));
              && inbox == w.rest
              && (replaced <==> w.ending.Replaced?)
              && (answer == match w.ending case Answered(reply) => Some(reply) case _ => None)
              && Face() == if w.ending.Lost? then w.g.(quit := true) else w.g
    {
      hide OnEvent, Conversing;
      var id := |outbox|;
      outbox := outbox + [request];
      answer := None;
      ghost var all := Wait(Face(), id, inbox);
      var waiting := true;
      while waiting
        invariant Valid() && !replaced && outbox == old(outbox) + [request]
        invariant waiting ==> answer.None? && all == Wait(Face(), id, inbox)
        invariant !waiting ==>
                    && inbox == all.rest
                    && if answer.Some? then all.ending == Answered(answer.value) && Face() == all.g
                       else all.ending.Lost? && Face() == all.g.(quit := true)
        decreases waiting, |inbox|
      {
        if inbox == [] {
          HandleConnectionLost();
          waiting := false;
        } else {
          var first := inbox[0];
          inbox := inbox[1..];
          if first.Malformed? {
            HandleConnectionLost();
            waiting := false;
          } else if first.message.Notice? {
            HandleEvent(first.message.event);
            if replaced {
              return;
            }
          } else if first.message.id == id {
            answer := Some(first.message.reply);
            waiting := false;
          }
        }
      }
    }

    /** Where an answer leads: to a prompt the greeter can show, to a ready session, or nowhere. */
    ghost predicate Turned(id: nat, answer: Option<Reply>)
      reads this
    {
      if answer.Some? && answer.value.Pending? && answer.value.prompt.style in {"secret", "visible", "info", "error"} then
        && conversationPending && !sessionReady && promptFor == id
        && promptStyle == answer.value.prompt.style && promptText == answer.value.prompt.text
      else if answer == Some(Ready) then sessionReady && !conversationPending
      else
        && !conversationPending && !sessionReady && authUsername == []
        && statusMessage == "Authentication failed." && statusError
    }

    /** `handle_conversation_answer` for the request `id`; `None` is the empty answer of a lost connection. */
    method HandleConversationAnswer(id: nat, answer: Option<Reply>) returns (advanced: bool)
      requires Valid()
      modifies this
      ensures Valid() && Keeps(old(Channels()))
      ensures Face() == Conversation(old(Face()), id, if answer.Some? then answer.value else Refused(""))
      ensures advanced <==> !Face().claim.Nothing?
      ensures Turned(id, answer)
    {
      advanced := false;
      if answer.Some? && answer.value.Pending? {
        var Prompt(style, text) := answer.value.prompt;
        if KnownStyle(style) {
          SetConversationPrompt(style, text, id);
          return true;
        }
      }
      if answer.Some? && answer.value.Ready? {
        SetSessionReady();
        return true;
      }
      ClearConversationState();
      SetStatus("Authentication failed.", true);
    }

    /** The object did what the step machine does with `step` and then with the unread messages. */
    ghost predicate Acted(step: (Greeter, Option<Body>), written: seq<Body>, unread: seq<Incoming>)
      reads this
    {
      if step.1.None? then Face() == step.0 && outbox == written && inbox == unread
      else
        var o := Drive(step.0, |written| + 1, unread);
        Face() == o.g && outbox == written + [step.1.value] + o.sent && inbox == o.rest
    }

    method CreateSessionForUsername(username: Bytes) returns (advanced: bool)
      requires Valid() && !replaced
      modifies this
      ensures Valid()
      ensures Acted(AskCreate(old(Face()), old(|outbox|), username), old(outbox), old(inbox))
    {
      hide Wait, Drive, KnownStyle, Turned, Conversing;
      SetAuthState(true);
      authUsername := username;
      var id := |outbox|;
      CreateOutcome(Face(), id, inbox);
      var answer := SendRecvAnswer(Create(username));
      if replaced {
        return false;
      }
      SetAuthState(false);
      advanced := HandleConversationAnswer(id, answer);
    }

    method ReadPromptResponse(entered: Bytes) returns (response: Option<Bytes>)
      modifies this`statusMessage, this`statusError
      ensures response == ReadReply(promptStyle, entered) && Face() == old(Face())
    {
      if NeedsNoReply(promptStyle) {
        return Some([]);
      }
      if |entered| == 0 {
        SetStatus(if promptText != "" then promptText else "Enter a response.", true);
        return None;
      }
      if AuthFieldIsTooLong(entered) {
        SetStatus("Response must be 256 bytes or less.", true);
        return None;
      }
      return Some(entered);
    }

    /**
     * `on_cancel_clicked`: whatever is on the screen is cancelled at the daemon, and gone afterwards.
     */
    method OnCancelClicked()
      requires Valid() && !replaced
      modifies this
      ensures Valid()
      ensures Acted(OnCancel(old(Face()), old(|outbox|)), old(outbox), old(inbox))
      ensures outbox == old(outbox) + if old(conversationPending || sessionReady) then [CancelSession] else []
      ensures !conversationPending && !sessionReady && authUsername == []
    {
      hide Wait, Drive;
      if !conversationPending && !sessionReady && authUsername == [] {
        return;
      }
      SetAuthState(true);
      if conversationPending || sessionReady {
        CancelOutcome(Face(), |outbox|, inbox);
        ReplacedIsFresh(Face(), |outbox|, inbox);
        var answer := SendRecvAnswer(CancelSession);
        if replaced {
          return;
        }
      }
      ResetAuthFlow();
    }

    /** What becomes of a start-session: the greeter waits for the session, or can be used again. */
    ghost predicate Launched(w: Waited)
      reads this
    {
      w.ending.Answered? ==>
        if w.ending.reply.Refused? then !authInProgress && statusMessage == "Unable to start session." && statusError
        else authInProgress == w.g.busy && statusMessage == "Authentication accepted. Waiting for session..."
    }

    /** The branch of `on_login_clicked` for an authenticated user. */
    method StartSelectedSession(command: string)
      requires Valid() && !replaced && sessionReady && !authInProgress
      modifies this
      ensures Valid()
      ensures Acted(OnLogin(old(Face()), old(|outbox|), [], command), old(outbox), old(inbox))
      ensures Launched(Wait(old(Face()).(busy := true), old(|outbox|), old(inbox)))
    {
      hide Wait, Drive, OnLogin, OnEvent;
      StartClick(Face(), |outbox|, command, inbox);
      SetAuthState(true);
      var answer := SendRecvAnswer(StartSession(command));
      if replaced {
        return;
      }
      if answer.Some? && !answer.value.Refused? {
        started := true;
        SetStatus("Authentication accepted. Waiting for session...", false);
        return;
      }
      SetAuthState(false);
      SetStatus("Unable to start session.", true);
    }

    /** The branch of `on_login_clicked` for a prompt on the screen. */
    method ContinueConversation(entered: Bytes)
      requires Valid() && !replaced && conversationPending && !authInProgress
      modifies this
      ensures Valid()
      ensures Acted(OnLogin(old(Face()), old(|outbox|), entered, ""), old(outbox), old(inbox))
    {
      hide Wait, Drive, KnownStyle, AuthFieldIsTooLong, ReadReply, Turned, OnEvent, OnLogin;
      var response := ReadPromptResponse(entered);
      if response.None? {
        SilentClick(Face(), |outbox|, entered);
        return;
      }
      ContinueClick(Face(), |outbox|, entered, Shown(Prompt(promptStyle, promptText), promptFor), inbox);
      var retry := authUsername;
      SetAuthState(true);
      var request := Continue(response.value, Shown(Prompt(promptStyle, promptText), promptFor));
      var id := |outbox|;
      var answer := SendRecvAnswer(request);
      if replaced {
        return;
      }
      SetAuthState(false);
      var advanced := HandleConversationAnswer(id, answer);
      if advanced {
        return;
      }
      if answer == Some(Refused("auth_retryable")) && retry != [] {
        advanced := CreateSessionForUsername(retry);
      }
    }

    /**
     * `on_login_clicked`: one click is the step machine, run until no request is pending. What it asks
     * the daemon for depends on what is on the screen; only a retryable refusal of a reply makes it ask
     * twice, for the same user again.
     */
    method OnLoginClicked(entered: Bytes, command: string)
      requires Valid() && !replaced
      modifies this
      ensures Valid()
      ensures Acted(OnLogin(old(Face()), old(|outbox|), entered, command), old(outbox), old(inbox))
      ensures old(authInProgress) ==> outbox == old(outbox)
      ensures old(!authInProgress && sessionReady) ==>
                && outbox == old(outbox) + [StartSession(command)]
                && Launched(Wait(old(Face()).(busy := true), old(|outbox|), old(inbox)))
      ensures old(!authInProgress && !sessionReady && !conversationPending) ==>
                outbox == old(outbox) + if 0 < |entered| <= 256 then [Create(entered)] else []
      ensures old(!authInProgress && conversationPending) ==>
                var shown := old(Shown(Prompt(promptStyle, promptText), promptFor));
                var silent := shown.prompt.style in {"info", "error"};
                if silent || 0 < |entered| <= 256 then
                  outbox == old(outbox) + [Continue(if silent then [] else entered, shown)]
                            + Again(Wait(old(Face()).(busy := true), |old(outbox)|, old(inbox)).ending, old(authUsername))
                else outbox == old(outbox)
    {
      hide Wait, Drive, KnownStyle, AuthFieldIsTooLong, ReadReply;
      LoginWrites(Face(), |outbox|, entered, command, inbox);
      if authInProgress {
        return;
      }
      if sessionReady {
        StartSelectedSession(command);
        return;
      }
      if conversationPending {
        ContinueConversation(entered);
        return;
      }
      if |entered| == 0 {
        SetStatus("Enter a username.", true);
        return;
      }
      if AuthFieldIsTooLong(entered) {
        SetStatus("Username must be 256 bytes or less.", true);
        return;
      }
      var advanced := CreateSessionForUsername(entered);
    }
  }
}
