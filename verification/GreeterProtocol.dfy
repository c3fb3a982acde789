/** The daemon/greeter wire protocol (src/wldm/protocol/greeter.py). */
module GreeterProtocol {
  import opened Utf8
  import opened Wrappers
  import opened Framing

  const VERSION := 1
  const AUTH_FIELD_MAX_LENGTH := 256

  // ---------- messages ----------

  datatype SessionRecord = SessionRecord(pid: int, username: string, command: string)

  datatype Snapshot = Snapshot(seat: string, greeterReady: bool, sessions: seq<SessionRecord>)

  datatype PromptText = PromptText(style: string, text: string)

  datatype RequestBody =
    | CreateSession(username: Bytes)
    | ContinueSession(response: Bytes)
    | StartSession(command: string, desktopNames: seq<string>, name: string, icon: string, desktopFile: string)
    | Bare

  datatype ReplyBody =
    | Conversation(state: string, prompt: Option<PromptText>)
    | State(snapshot: Snapshot)
    | Control(accepted: bool)
    | Empty

  datatype Outcome = Success(body: ReplyBody) | Failure(code: string, message: string)

  datatype EventBody =
    | SessionStarting(command: string, desktopNames: seq<string>)
    | SessionFinished(pid: int, returncode: int, failed: bool, message: string)
    | StateChanged(snapshot: Snapshot)
    | AuthMessage(style: string, text: string)
    | NoPayload

  datatype Message =
    | Request(id: string, action: string, request: RequestBody)
    | Response(id: string, action: string, outcome: Outcome)
    | Event(name: string, event: EventBody)

  /** What an action name means to the codec. */
  datatype ActionClass = ACreate | AContinue | AStart | AGetState | AControl | AOther

  function ActionOf(action: string): ActionClass {
    if action == "create-session" then ACreate
    else if action == "continue-session" then AContinue
    else if action == "start-session" then AStart
    else if action == "get-state" then AGetState
    else if action in {"poweroff", "reboot", "suspend", "hibernate"} then AControl
    else AOther
  }

  datatype EventClass = EStarting | EFinished | EStateChanged | EAuthMessage | EOther

  function EventOf(name: string): EventClass {
    if name == "session-starting" then EStarting
    else if name == "session-finished" then EFinished
    else if name == "state-changed" then EStateChanged
    else if name == "auth-message" then EAuthMessage
    else EOther
  }

  /** The payload has the shape that the action or event name calls for. */
  predicate WellFormed(m: Message) {
    match m
    case Request(_, action, body) =>
      (match ActionOf(action)
       case ACreate => body.CreateSession?
       case AContinue => body.ContinueSession?
       case AStart => body.StartSession?
       case _ => body.Bare?)
    case Response(_, action, Success(body)) => ReplyShape(ActionOf(action), body)
    case Response(_, _, Failure(_, _)) => true
    case Event(name, body) =>
      (match EventOf(name)
       case EStarting => body.SessionStarting?
       case EFinished => body.SessionFinished?
       case EStateChanged => body.StateChanged?
       case EAuthMessage => body.AuthMessage?
       case EOther => body.NoPayload?)
  }

  predicate ReplyShape(action: ActionClass, body: ReplyBody) {
    match action
    case ACreate => body.Conversation?
    case AContinue => body.Conversation?
    case AGetState => body.State?
    case AControl => body.Control?
    case _ => body.Empty?
  }

  // ---------- lists ----------

  function EncodeTexts(values: seq<string>): Bytes {
    if values == [] then [] else EncodeText(values[0]) + EncodeTexts(values[1..])
  }

  function EncodeStringList(values: seq<string>): Bytes {
    U32(|values|) + EncodeTexts(values)
  }

  predicate FitsTexts(values: seq<string>) {
    forall v | v in values :: FitsText(v)
  }

  predicate FitsStringList(values: seq<string>) {
    |values| < U32_LIMIT && FitsTexts(values)
  }

  function DecodeTexts(p: Bytes, o: nat, count: nat): (r: Decoded<seq<string>>)
    ensures r.Ok? ==> |r.value.0| == count && o + HEADER_SIZE * count <= r.value.1
    ensures r.Ok? && o <= |p| ==> r.value.1 <= |p|
    decreases count
  {
    if count == 0 then Ok(([], o))
    else
      var (first, o1) :- DecodeText(p, o);
      var (rest, o2) :- DecodeTexts(p, o1, count - 1);
      Ok(([first] + rest, o2))
  }

  function DecodeCount(p: Bytes, o: nat, message: string): (r: Decoded<nat>)
    ensures r.Ok? ==> r.value.1 == o + HEADER_SIZE <= |p| && r.value.0 < U32_LIMIT
  {
    if o + HEADER_SIZE > |p| then Err(ProtocolError(message))
    else Ok((ReadU32(p[o..o + HEADER_SIZE]), o + HEADER_SIZE))
  }

  function DecodeStringList(p: Bytes, o: nat): (r: Decoded<seq<string>>)
    ensures r.Ok? ==> o + HEADER_SIZE * (1 + |r.value.0|) <= r.value.1 <= |p|
  {
    var (count, o1) :- DecodeCount(p, o, "truncated string list length");
    DecodeTexts(p, o1, count)
  }

  function EncodeSession(s: SessionRecord): Bytes {
    I32(s.pid) + (EncodeText(s.username) + EncodeText(s.command))
  }

  function EncodeSessions(sessions: seq<SessionRecord>): Bytes {
    if sessions == [] then [] else EncodeSession(sessions[0]) + EncodeSessions(sessions[1..])
  }

  predicate FitsSession(s: SessionRecord) {
    FitsI32(s.pid) && FitsText(s.username) && FitsText(s.command)
  }

  predicate FitsSessions(sessions: seq<SessionRecord>) {
    forall s | s in sessions :: FitsSession(s)
  }

  function DecodeSession(p: Bytes, o: nat): (r: Decoded<SessionRecord>)
    ensures r.Ok? ==> o + 3 * HEADER_SIZE <= r.value.1 <= |p|
  {
    var (pid, o1) :- DecodeSignedInt(p, o);
    var (username, o2) :- DecodeText(p, o1);
    var (command, o3) :- DecodeText(p, o2);
    Ok((SessionRecord(pid, username, command), o3))
  }

  function DecodeSessions(p: Bytes, o: nat, count: nat): (r: Decoded<seq<SessionRecord>>)
    ensures r.Ok? ==> |r.value.0| == count && o + 3 * HEADER_SIZE * count <= r.value.1
    ensures r.Ok? && o <= |p| ==> r.value.1 <= |p|
    decreases count
  {
    if count == 0 then Ok(([], o))
    else
      var (first, o1) :- DecodeSession(p, o);
      var (rest, o2) :- DecodeSessions(p, o1, count - 1);
      Ok(([first] + rest, o2))
  }

  // ---------- payload groups ----------

  function EncodeSnapshot(s: Snapshot): Bytes {
    EncodeText(s.seat) + (EncodeBool(s.greeterReady) + (U32(|s.sessions|) + EncodeSessions(s.sessions)))
  }

  predicate FitsSnapshot(s: Snapshot) {
    FitsText(s.seat) && |s.sessions| < U32_LIMIT && FitsSessions(s.sessions)
  }

  function DecodeSnapshot(p: Bytes, o: nat): (r: Decoded<Snapshot>)
    ensures r.Ok? ==> o <= r.value.1 <= |p|
  {
    var (seat, o1) :- DecodeText(p, o);
    var (ready, o2) :- DecodeBool(p, o1);
    var (count, o3) :- DecodeCount(p, o2, "truncated active session list length");
    var (sessions, o4) :- DecodeSessions(p, o3, count);
    Ok((Snapshot(seat, ready, sessions), o4))
  }

  function EncodeTextPair(a: string, b: string): Bytes {
    EncodeText(a) + EncodeText(b)
  }

  function DecodeTextPair(p: Bytes, o: nat): (r: Decoded<(string, string)>)
    ensures r.Ok? ==> o <= r.value.1 <= |p|
  {
    var (a, o1) :- DecodeText(p, o);
    var (b, o2) :- DecodeText(p, o1);
    Ok(((a, b), o2))
  }

  function EncodePrompt(prompt: Option<PromptText>): Bytes {
    match prompt
    case None => []
    case Some(t) => EncodeTextPair(t.style, t.text)
  }

  function EncodeConversation(state: string, prompt: Option<PromptText>): Bytes {
    EncodeText(state) + (EncodeBool(prompt.Some?) + EncodePrompt(prompt))
  }

  function DecodeConversation(p: Bytes, o: nat): (r: Decoded<(string, Option<PromptText>)>)
    ensures r.Ok? ==> o <= r.value.1 <= |p|
  {
    var (state, o1) :- DecodeText(p, o);
    var (hasMessage, o2) :- DecodeBool(p, o1);
    if hasMessage then
      var (texts, o3) :- DecodeTextPair(p, o2);
      Ok(((state, Some(PromptText(texts.0, texts.1))), o3))
    else Ok(((state, None), o2))
  }

  /** Encodes what the action reads from the payload; a missing key counts as its default. */
  function EncodeReply(action: ActionClass, body: ReplyBody): Bytes {
    match action
    case ACreate => if body.Conversation? then EncodeConversation(body.state, body.prompt) else EncodeConversation("", None)
    case AContinue => if body.Conversation? then EncodeConversation(body.state, body.prompt) else EncodeConversation("", None)
    case AGetState => EncodeSnapshot(if body.State? then body.snapshot else Snapshot("", false, []))
    case AControl => EncodeBool(body.Control? && body.accepted)
    case _ => []
  }

  predicate FitsReply(body: ReplyBody) {
    match body
    case Conversation(state, prompt) =>
      FitsText(state) && (prompt.Some? ==> FitsText(prompt.value.style) && FitsText(prompt.value.text))
    case State(snapshot) => FitsSnapshot(snapshot)
    case _ => true
  }

  function DecodeReply(action: ActionClass, p: Bytes, o: nat): (r: Decoded<ReplyBody>)
    ensures r.Ok? && o <= |p| ==> o <= r.value.1 <= |p|
  {
    match action
    case ACreate =>
      var (texts, o1) :- DecodeConversation(p, o);
      Ok((Conversation(texts.0, texts.1), o1))
    case AContinue =>
      var (texts, o1) :- DecodeConversation(p, o);
      Ok((Conversation(texts.0, texts.1), o1))
    case AGetState =>
      var (snapshot, o1) :- DecodeSnapshot(p, o);
      Ok((State(snapshot), o1))
    case AControl =>
      var (accepted, o1) :- DecodeBool(p, o);
      Ok((Control(accepted), o1))
    case _ => Ok((Empty, o))
  }

  function EncodeOutcome(action: ActionClass, outcome: Outcome): Bytes {
    match outcome
    case Success(body) => EncodeBool(true) + EncodeReply(action, body)
    case Failure(code, message) => EncodeBool(false) + EncodeTextPair(code, message)
  }

  predicate FitsOutcome(outcome: Outcome) {
    match outcome
    case Success(body) => FitsReply(body)
    case Failure(code, message) => FitsText(code) && FitsText(message)
  }

  function DecodeOutcome(action: ActionClass, p: Bytes, o: nat): (r: Decoded<Outcome>)
    ensures r.Ok? ==> o <= r.value.1 <= |p|
  {
    var (ok, o1) :- DecodeBool(p, o);
    if ok then
      var (body, o2) :- DecodeReply(action, p, o1);
      Ok((Success(body), o2))
    else
      var (texts, o2) :- DecodeTextPair(p, o1);
      Ok((Failure(texts.0, texts.1), o2))
  }

  function EncodeStart(body: RequestBody): Bytes
    requires body.StartSession?
  {
    EncodeText(body.command) + (EncodeStringList(body.desktopNames)
      + (EncodeText(body.name) + EncodeTextPair(body.icon, body.desktopFile)))
  }

  function DecodeStart(p: Bytes, o: nat): (r: Decoded<RequestBody>)
    ensures r.Ok? ==> o <= r.value.1 <= |p|
  {
    var (command, o1) :- DecodeText(p, o);
    var (desktopNames, o2) :- DecodeStringList(p, o1);
    var (name, o3) :- DecodeText(p, o2);
    var (texts, o4) :- DecodeTextPair(p, o3);
    Ok((StartSession(command, desktopNames, name, texts.0, texts.1), o4))
  }

  function EncodeRequest(action: ActionClass, body: RequestBody): Bytes {
    match action
    case ACreate => EncodeBlob(if body.CreateSession? then body.username else [])
    case AContinue => EncodeBlob(if body.ContinueSession? then body.response else [])
    case AStart => EncodeStart(if body.StartSession? then body else StartSession("", [], "", "", ""))
    case _ => []
  }

  predicate FitsRequest(body: RequestBody) {
    match body
    case CreateSession(username) => |username| < U32_LIMIT
    case ContinueSession(response) => |response| < U32_LIMIT
    case StartSession(command, desktopNames, name, icon, desktopFile) =>
      FitsText(command) && FitsStringList(desktopNames) && FitsText(name) && FitsText(icon) && FitsText(desktopFile)
    case Bare => true
  }

  function DecodeRequest(action: ActionClass, p: Bytes, o: nat): (r: Decoded<RequestBody>)
    ensures r.Ok? && o <= |p| ==> o <= r.value.1 <= |p|
  {
    match action
    case ACreate =>
      var (username, o1) :- DecodeBlob(p, o);
      Ok((CreateSession(username), o1))
    case AContinue =>
      var (response, o1) :- DecodeBlob(p, o);
      Ok((ContinueSession(response), o1))
    case AStart => DecodeStart(p, o)
    case _ => Ok((Bare, o))
  }

  function EncodeFinished(body: EventBody): Bytes
    requires body.SessionFinished?
  {
    I32(body.pid) + (I32(body.returncode) + (EncodeBool(body.failed) + EncodeText(body.message)))
  }

  function DecodeFinished(p: Bytes, o: nat): (r: Decoded<EventBody>)
    ensures r.Ok? ==> o <= r.value.1 <= |p|
  {
    var (pid, o1) :- DecodeSignedInt(p, o);
    var (returncode, o2) :- DecodeSignedInt(p, o1);
    var (failed, o3) :- DecodeBool(p, o2);
    var (message, o4) :- DecodeText(p, o3);
    Ok((SessionFinished(pid, returncode, failed, message), o4))
  }

  function EncodeStarting(command: string, desktopNames: seq<string>): Bytes {
    EncodeText(command) + EncodeStringList(desktopNames)
  }

  function DecodeStarting(p: Bytes, o: nat): (r: Decoded<EventBody>)
    ensures r.Ok? ==> o <= r.value.1 <= |p|
  {
    var (command, o1) :- DecodeText(p, o);
    var (desktopNames, o2) :- DecodeStringList(p, o1);
    Ok((SessionStarting(command, desktopNames), o2))
  }

  function EncodeEvent(event: EventClass, body: EventBody): Bytes {
    match event
    case EStarting => if body.SessionStarting? then EncodeStarting(body.command, body.desktopNames) else EncodeStarting("", [])
    case EFinished => EncodeFinished(if body.SessionFinished? then body else SessionFinished(0, 0, false, ""))
    case EStateChanged => EncodeSnapshot(if body.StateChanged? then body.snapshot else Snapshot("", false, []))
    case EAuthMessage => if body.AuthMessage? then EncodeTextPair(body.style, body.text) else EncodeTextPair("", "")
    case EOther => []
  }

  predicate FitsEvent(body: EventBody) {
    match body
    case SessionStarting(command, desktopNames) => FitsText(command) && FitsStringList(desktopNames)
    case SessionFinished(pid, returncode, _, message) => FitsI32(pid) && FitsI32(returncode) && FitsText(message)
    case StateChanged(snapshot) => FitsSnapshot(snapshot)
    case AuthMessage(style, text) => FitsText(style) && FitsText(text)
    case NoPayload => true
  }

  function DecodeEvent(event: EventClass, p: Bytes, o: nat): (r: Decoded<EventBody>)
    ensures r.Ok? && o <= |p| ==> o <= r.value.1 <= |p|
  {
    match event
    case EStarting => DecodeStarting(p, o)
    case EFinished => DecodeFinished(p, o)
    case EStateChanged =>
      var (snapshot, o1) :- DecodeSnapshot(p, o);
      Ok((StateChanged(snapshot), o1))
    case EAuthMessage =>
      var (texts, o1) :- DecodeTextPair(p, o);
      Ok((AuthMessage(texts.0, texts.1), o1))
    case EOther => Ok((NoPayload, o))
  }

  // ---------- whole messages ----------

  function Tag(m: Message): Byte {
    match m
    case Request(_, _, _) => 1
    case Response(_, _, _) => 2
    case Event(_, _) => 3
  }

  function Fields(m: Message): Bytes {
    match m
    case Request(id, action, body) => EncodeTextPair(id, action) + EncodeRequest(ActionOf(action), body)
    case Response(id, action, outcome) => EncodeTextPair(id, action) + EncodeOutcome(ActionOf(action), outcome)
    case Event(name, body) => EncodeText(name) + EncodeEvent(EventOf(name), body)
  }

  function Body(m: Message): Bytes {
    [VERSION, Tag(m)] + Fields(m)
  }

  /**
   * No length or integer of `m` makes the packing raise `struct.error`. A payload of another shape
   * than the action calls for is not read: the encoder then packs the defaults.
   */
  predicate Packable(m: Message) {
    match m
    case Request(id, action, body) => FitsText(id) && FitsText(action) && (WellFormed(m) ==> FitsRequest(body))
    case Response(id, action, outcome) => FitsText(id) && FitsText(action) && (WellFormed(m) ==> FitsOutcome(outcome))
    case Event(name, body) => FitsText(name) && (WellFormed(m) ==> FitsEvent(body))
  }

  function EncodeMessage(m: Message): Result<Bytes, Error> {
    if !Packable(m) then Err(StructError) else EncodeFrame(Body(m))
  }

  function DecodeFields(tag: Byte, p: Bytes, o: nat): (r: Decoded<Message>)
    ensures r.Ok? && o <= |p| ==> o <= r.value.1 <= |p|
  {
    if tag == 1 then
      var (names, o1) :- DecodeTextPair(p, o);
      var (body, o2) :- DecodeRequest(ActionOf(names.1), p, o1);
      Ok((Request(names.0, names.1, body), o2))
    else if tag == 2 then
      var (names, o1) :- DecodeTextPair(p, o);
      var (outcome, o2) :- DecodeOutcome(ActionOf(names.1), p, o1);
      Ok((Response(names.0, names.1, outcome), o2))
    else if tag == 3 then
      var (name, o1) :- DecodeText(p, o);
      var (body, o2) :- DecodeEvent(EventOf(name), p, o1);
      Ok((Event(name, body), o2))
    else Err(ProtocolError("unknown protocol message type tag"))
  }

  function DecodeMessage(raw: Bytes): Result<Message, Error> {
    var p :- FramePayload(raw);
    if |p| < 2 then Err(ProtocolError("truncated protocol body"))
    else if p[0] != VERSION then Err(ProtocolError("unsupported protocol version"))
    else
      var (message, end) :- DecodeFields(p[1], p, 2);
      if end != |p| then Err(ProtocolError("trailing bytes after protocol message")) else Ok(message)
  }
}
