/**
 * The login conversation as the greeter sees it: what it shows, what it asks the daemon for, and how
 * answers and events change it. A request blocks the greeter until its response has been read.
 */
module GreeterFlow {
  import opened Wrappers
  import opened AuthMachine
  import opened SizeBounds

  /** `conversation_pending` with its prompt, `session_ready`, or neither. */
  datatype Claim = Nothing | ShowsPrompt(shown: Shown) | ShowsReady

  datatype Kind = ForCreate | ForContinue(retry: Bytes) | ForCancel | ForStart | ForQuery

  /** The request whose response `send_recv_answer` is waiting for. */
  datatype Call = NoCall | Waiting(id: nat, kind: Kind)

  /**
   * `busy` is `auth_in_progress`, `username` is `auth_username` (empty when there is none). `started`
   * records that a start-session was answered while the greeter showed a ready session.
   */
  datatype Greeter = Greeter(claim: Claim, busy: bool, username: Bytes, started: bool, call: Call, quit: bool)

  function Fresh(): Greeter {
    Greeter(Nothing, false, [], false, NoCall, false)
  }

  /** `clear_conversation_state` */
  function Clear(g: Greeter): Greeter {
    g.(claim := Nothing, username := [], started := false)
  }

  /** `reset_auth_flow`, as far as the conversation is concerned */
  function Reset(g: Greeter): Greeter {
    Clear(g).(busy := false)
  }

  predicate NeedsNoReply(style: string) {
    style == "info" || style == "error"
  }

  predicate KnownStyle(style: string) {
    NeedsNoReply(style) || style == "secret" || style == "visible"
  }

  /** `read_prompt_response`: nothing is sent for an empty or over-long reply. */
  function ReadReply(style: string, entered: Bytes): Option<Bytes> {
    if NeedsNoReply(style) then Some([])
    else if |entered| == 0 || AuthFieldIsTooLong(entered) then None
    else Some(entered)
  }

  // ---------- user actions; `id` is the id of the request, if one is sent ----------

  function Ask(g: Greeter, id: nat, kind: Kind, body: Body): (Greeter, Option<Body>) {
    (g.(call := Waiting(id, kind)), Some(body))
  }

  /** `create_session_for_username` up to the request */
  function AskCreate(g: Greeter, id: nat, username: Bytes): (Greeter, Option<Body>) {
    Ask(g.(busy := true, username := username), id, ForCreate, Create(username))
  }

  /** `on_login_clicked` up to its first request; `entered` is the text of the field in use. */
  function OnLogin(g: Greeter, id: nat, entered: Bytes, command: string): (Greeter, Option<Body>) {
    if g.busy then (g, None)
    else
      match g.claim
      case ShowsReady => Ask(g.(busy := true), id, ForStart, StartSession(command))
      case ShowsPrompt(shown) =>
        var reply := ReadReply(shown.prompt.style, entered);
        if reply.None? then (g, None)
        else Ask(g.(busy := true), id, ForContinue(g.username), Continue(reply.value, shown))
      case Nothing =>
        if |entered| == 0 || AuthFieldIsTooLong(entered) then (g, None) else AskCreate(g, id, entered)
  }

  /** `on_cancel_clicked` */
  function OnCancel(g: Greeter, id: nat): (Greeter, Option<Body>) {
    if g.claim.Nothing? && g.username == [] then (g, None)
    else if g.claim.Nothing? then (Reset(g), None)
    else Ask(g.(busy := true), id, ForCancel, CancelSession)
  }

  /** A power action; it leaves the conversation alone. */
  function OnPower(g: Greeter, id: nat): (Greeter, Option<Body>) {
    Ask(g, id, ForQuery, Query)
  }

  /** What one click on the login button asks for. */
  function Requested(g: Greeter, entered: Bytes, command: string): Option<Body> {
    if g.busy then None
    else
      match g.claim
      case ShowsReady => Some(StartSession(command))
      case ShowsPrompt(shown) =>
        if shown.prompt.style in {"info", "error"} then Some(Continue([], shown))
        else if 0 < |entered| <= 256 then Some(Continue(entered, shown)) else None
      case Nothing => if 0 < |entered| <= 256 then Some(Create(entered)) else None
  }

  /** What the user's clicks ask the daemon for. */
  lemma ClicksAsk(g: Greeter, id: nat, entered: Bytes, command: string)
    ensures OnLogin(g, id, entered, command).1 == Requested(g, entered, command)
    ensures OnCancel(g, id).1 == if g.claim.Nothing? then None else Some(CancelSession)
    ensures OnPower(g, id).1 == Some(Query)
  {
  }

  // ---------- messages ----------

  /** `handle_conversation_answer` on the response to the request `id` */
  function Conversation(g: Greeter, id: nat, reply: Reply): Greeter {
    match reply
    case Pending(p) => if KnownStyle(p.style) then g.(claim := ShowsPrompt(Shown(p, id)), started := false) else Clear(g)
    case Ready => g.(claim := ShowsReady, started := false)
    case _ => Clear(g)
  }

  /** What the interrupted action does with its answer; a retry asks again under the id `id`. */
  function OnAnswer(g: Greeter, id: nat, reply: Reply): (Greeter, Option<Body>)
    requires g.call.Waiting?
  {
    var h := g.(call := NoCall);
    match g.call.kind
    case ForCreate => (Conversation(h.(busy := false), g.call.id, reply), None)
    case ForContinue(retry) =>
      var c := Conversation(h.(busy := false), g.call.id, reply);
      if reply == Refused("auth_retryable") && retry != [] then AskCreate(c, id, retry) else (c, None)
    case ForCancel => (Reset(h), None)
    case ForStart => if reply.Refused? then (h.(busy := false), None) else (h.(started := true), None)
    case ForQuery => (h, None)
  }

  /** `handle_event`; after a re-exec the greeter is a new program. */
  function OnEvent(g: Greeter, event: Event): Greeter {
    match event
    case SessionStarting => g.(busy := true)
    case SessionFinished => Reset(g)
    case AuthExpired(_) => Reset(g)
    case ReExec => Fresh()
    case AuthWarning(_) => g
    case StateChanged => g
  }

  /** A message taken from the channel, by the waiting call or by the idle poll. */
  function OnMessage(g: Greeter, id: nat, m: Message): (Greeter, Option<Body>) {
    match m
    case Notice(event) => (OnEvent(g, event), None)
    case Response(answered, reply) =>
      if g.call.Waiting? && g.call.id == answered then OnAnswer(g, id, reply) else (g, None)
  }
}
