/**
 * Both wire protocols at their literal names: which bytes stand for which message, and that every message
 * of every named kind comes back. Nothing here relies on the codec's own tables of names.
 */
module WireLayouts {
  import opened Utf8
  import opened Wrappers
  import opened Framing
  import opened GreeterProtocol
  import GreeterCodecProofs
  import W = PamWorkerProtocol

  // ---------- the greeter protocol ----------

  /** The payload that goes with a request's action. */
  predicate RequestNamed(action: string, body: RequestBody) {
    match body
    case CreateSession(_) => action == "create-session"
    case ContinueSession(_) => action == "continue-session"
    case StartSession(_, _, _, _, _) => action == "start-session"
    case Bare => action in {"cancel-session", "get-state", "poweroff", "reboot", "suspend", "hibernate"}
  }

  /** The payload of a successful response; `cancel-session` and `start-session` are answered with none. */
  predicate ReplyNamed(action: string, body: ReplyBody) {
    match body
    case Conversation(_, _) => action in {"create-session", "continue-session"}
    case State(_) => action == "get-state"
    case Control(_) => action in {"poweroff", "reboot", "suspend", "hibernate"}
    case Empty => action in {"cancel-session", "start-session"}
  }

  predicate EventNamed(name: string, body: EventBody) {
    match body
    case SessionStarting(_, _) => name == "session-starting"
    case SessionFinished(_, _, _, _) => name == "session-finished"
    case StateChanged(_) => name == "state-changed"
    case AuthMessage(_, _) => name == "auth-message"
    case NoPayload => name == "re-exec"
  }

  /** The messages that greeter and daemon exchange. */
  predicate Named(m: Message) {
    match m
    case Request(_, action, body) => RequestNamed(action, body)
    case Response(_, action, Success(body)) => ReplyNamed(action, body)
    case Response(_, _, Failure(_, _)) => true
    case Event(name, body) => EventNamed(name, body)
  }

  /** Every message under one of the protocol's names that encodes is read back unchanged. */
  lemma NamedRoundTrip(m: Message, frame: Bytes)
    requires Named(m) && EncodeMessage(m) == Ok(frame)
    ensures DecodeMessage(frame) == Ok(m)
  {
    hide EncodeMessage, DecodeMessage;
    GreeterCodecProofs.RoundTrip(m, frame);
  }

  function Texts(a: string, b: string): Bytes {
    EncodeText(a) + EncodeText(b)
  }

  /** The payload of a request: the blob, or the five fields of a start-session in this order. */
  function RequestPayload(body: RequestBody): Bytes {
    match body
    case CreateSession(username) => EncodeBlob(username)
    case ContinueSession(response) => EncodeBlob(response)
    case StartSession(command, desktopNames, name, icon, desktopFile) =>
      EncodeText(command) + (EncodeStringList(desktopNames) + (EncodeText(name) + Texts(icon, desktopFile)))
    case Bare => []
  }

  function SnapshotBytes(s: Snapshot): Bytes {
    EncodeText(s.seat) + ([if s.greeterReady then 1 else 0] + (U32(|s.sessions|) + EncodeSessions(s.sessions)))
  }

  function ReplyPayload(body: ReplyBody): Bytes {
    match body
    case Conversation(state, Some(prompt)) => EncodeText(state) + ([1] + Texts(prompt.style, prompt.text))
    case Conversation(state, None) => EncodeText(state) + ([0] + [])
    case State(snapshot) => SnapshotBytes(snapshot)
    case Control(accepted) => [if accepted then 1 else 0]
    case Empty => []
  }

  function EventPayload(body: EventBody): Bytes {
    match body
    case SessionStarting(command, desktopNames) => EncodeText(command) + EncodeStringList(desktopNames)
    case SessionFinished(pid, returncode, failed, message) =>
      I32(pid) + (I32(returncode) + ([if failed then 1 else 0] + EncodeText(message)))
    case StateChanged(snapshot) => SnapshotBytes(snapshot)
    case AuthMessage(style, text) => Texts(style, text)
    case NoPayload => []
  }

  /** Version, tag, names and payload of each message, byte for byte. */
  function Layout(m: Message): Bytes {
    match m
    case Request(id, action, body) => [1, 1] + (Texts(id, action) + RequestPayload(body))
    case Response(id, action, Success(body)) => [1, 2] + (Texts(id, action) + ([1] + ReplyPayload(body)))
    case Response(id, action, Failure(code, message)) => [1, 2] + (Texts(id, action) + ([0] + Texts(code, message)))
    case Event(name, body) => [1, 3] + (EncodeText(name) + EventPayload(body))
  }

  /** A message under one of the protocol's names is encoded as its layout behind the length of it. */
  lemma MessageLayout(m: Message, frame: Bytes)
    requires Named(m) && EncodeMessage(m) == Ok(frame)
    ensures |Layout(m)| <= 2048 && frame == U32(|Layout(m)|) + Layout(m)
  {
    hide EncodeText, EncodeStringList, EncodeSessions, EncodeBlob, U32, I32;
    LayoutIsBody(m);
  }

  lemma LayoutIsBody(m: Message)
    requires Named(m)
    ensures Layout(m) == Body(m)
  {
    hide EncodeText, EncodeStringList, EncodeSessions, EncodeBlob, U32, I32;
    match m
    case Request(_, _, _) =>
    case Response(_, _, _) =>
    case Event(_, _) =>
  }

  /** The items of a list stand one behind the other, in their order. */
  lemma {:induction false} ListsAppend(values: seq<string>, text: string, sessions: seq<SessionRecord>, s: SessionRecord)
    ensures EncodeTexts([]) == [] && EncodeTexts(values + [text]) == EncodeTexts(values) + EncodeText(text)
    ensures EncodeSessions([]) == []
    ensures EncodeSessions(sessions + [s]) == EncodeSessions(sessions) + (I32(s.pid) + Texts(s.username, s.command))
    decreases |values| + |sessions|
  {
    hide EncodeText, I32;
    if values == [] {
      assert [text][1..] == [];
    } else {
      ListsAppend(values[1..], text, sessions, s);
      assert (values + [text])[1..] == values[1..] + [text];
    }
    if sessions == [] {
      assert [s][1..] == [];
    } else {
      ListsAppend(values, text, sessions[1..], s);
      assert (sessions + [s])[1..] == sessions[1..] + [s];
    }
  }

  // ---------- the PAM worker's protocol ----------

  function WorkerLayout(m: W.Message): Bytes {
    match m
    case Start(service, username, tty) =>
      [1] + (EncodeText("start") + (EncodeText(service) + (EncodeText(username) + EncodeText(tty))))
    case Answer(response) => [1] + (EncodeText("answer") + EncodeBlob(response))
    case Cancel => [1] + (EncodeText("cancel") + [])
    case Prompt(style, text) => [1] + (EncodeText("prompt") + Texts(style, text))
    case Ready => [1] + (EncodeText("ready") + [])
    case Failed(code, message) => [1] + (EncodeText("failed") + Texts(code, message))
    case Other(_) => []
  }

  /** A worker message is encoded as its layout behind the length of it; no other kind encodes. */
  lemma WorkerMessageLayout(m: W.Message, frame: Bytes)
    requires W.Encode(m) == Ok(frame)
    ensures !m.Other? && |WorkerLayout(m)| <= 2048 && frame == U32(|WorkerLayout(m)|) + WorkerLayout(m)
  {
    hide EncodeText, EncodeBlob, U32;
  }

  // ---------- integers ----------

  function BytesValue(b: Bytes): int
    requires |b| == 4
  {
    0x100_0000 * (b[0] as int) + 0x1_0000 * (b[1] as int) + 0x100 * (b[2] as int) + (b[3] as int)
  }

  /** Lengths and integers take four bytes, most significant first, negative ones as two's complement. */
  lemma IntegerBytes(n: nat, v: int)
    requires n < 0x1_0000_0000 && -0x8000_0000 <= v < 0x8000_0000
    ensures BytesValue(U32(n)) == n
    ensures |I32(v)| == 4 && BytesValue(I32(v)) == if v < 0 then v + 0x1_0000_0000 else v
  {
    ReadU32Inverts(n);
    ValueOf4(U32(n));
    var unsigned := if v < 0 then v + 0x1_0000_0000 else v;
    ReadU32Inverts(unsigned);
    ValueOf4(U32(unsigned));
  }

  lemma ValueOf4(b: Bytes)
    requires |b| == 4
    ensures Value(b) == BytesValue(b)
  {
    assert b[..3][..2] == b[..2] && b[..2][..1] == b[..1] && b[..1][..0] == [];
    assert Value(b[..1]) == b[0];
    assert Value(b[..2]) == Value(b[..1]) * 256 + b[1];
    assert Value(b[..3]) == Value(b[..2]) * 256 + b[2];
  }
}
