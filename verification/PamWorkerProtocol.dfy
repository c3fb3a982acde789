/** The daemon/PAM-worker wire protocol (src/wldm/protocol/pam_worker.py). */
module PamWorkerProtocol {
  import opened Utf8
  import opened Wrappers
  import opened Framing

  const VERSION := 1

  /** One message; `Other` is a message whose kind is none of the six below. */
  datatype Message =
    | Start(service: string, username: string, tty: string)
    | Answer(response: Bytes)
    | Cancel
    | Prompt(style: string, text: string)
    | Ready
    | Failed(code: string, message: string)
    | Other(kind: string)

  datatype Kind = KStart | KAnswer | KCancel | KPrompt | KReady | KFailed {
    function Name(): string {
      match this
      case KStart => "start"
      case KAnswer => "answer"
      case KCancel => "cancel"
      case KPrompt => "prompt"
      case KReady => "ready"
      case KFailed => "failed"
    }
  }

  function KindNamed(name: string): Option<Kind> {
    if name == "start" then Some(KStart)
    else if name == "answer" then Some(KAnswer)
    else if name == "cancel" then Some(KCancel)
    else if name == "prompt" then Some(KPrompt)
    else if name == "ready" then Some(KReady)
    else if name == "failed" then Some(KFailed)
    else None
  }

  lemma KindNames(k: Kind, name: string)
    ensures KindNamed(name) == Some(k) <==> name == k.Name()
  {
  }

  function KindOf(m: Message): Kind
    requires !m.Other?
  {
    match m
    case Start(_, _, _) => KStart
    case Answer(_) => KAnswer
    case Cancel => KCancel
    case Prompt(_, _) => KPrompt
    case Ready => KReady
    case Failed(_, _) => KFailed
  }

  function Fields(m: Message): Bytes {
    match m
    case Start(service, username, tty) => EncodeText(service) + (EncodeText(username) + EncodeText(tty))
    case Answer(response) => EncodeBlob(response)
    case Prompt(style, text) => EncodeText(style) + EncodeText(text)
    case Failed(code, message) => EncodeText(code) + EncodeText(message)
    case _ => []
  }

  predicate Packable(m: Message) {
    match m
    case Start(service, username, tty) => FitsText(service) && FitsText(username) && FitsText(tty)
    case Answer(response) => |response| < U32_LIMIT
    case Prompt(style, text) => FitsText(style) && FitsText(text)
    case Failed(code, message) => FitsText(code) && FitsText(message)
    case Other(kind) => FitsText(kind)
    case _ => true
  }

  function Body(m: Message): Bytes
    requires !m.Other?
  {
    [VERSION] + (EncodeText(KindOf(m).Name()) + Fields(m))
  }

  function Encode(m: Message): Result<Bytes, Error> {
    if !Packable(m) then Err(StructError)
    else if m.Other? then Err(ProtocolError("unsupported PAM worker message kind"))
    else EncodeFrame(Body(m))
  }

  /** The encoder as the source writes it: a buffer extended field by field. */
  method EncodeMessage(m: Message) returns (r: Result<Bytes, Error>)
    ensures r == Encode(m)
  {
    hide EncodeText, EncodeBlob;
    if !Packable(m) {
      return Err(StructError);
    }
    if m.Other? {
      return Err(ProtocolError("unsupported PAM worker message kind"));
    }
    var body: Bytes := [VERSION];
    var kind := EncodeText(KindOf(m).Name());
    body := body + kind;
    ghost var prefix := body;
    match m {
      case Start(service, username, tty) =>
        body := body + EncodeText(service);
        body := body + EncodeText(username);
        body := body + EncodeText(tty);
        Appended(prefix, EncodeText(service), EncodeText(username), EncodeText(tty));
      case Answer(response) =>
        body := body + EncodeBlob(response);
      case Prompt(style, text) =>
        body := body + EncodeText(style);
        body := body + EncodeText(text);
        Appended(prefix, EncodeText(style), EncodeText(text), []);
      case Failed(code, message) =>
        body := body + EncodeText(code);
        body := body + EncodeText(message);
        Appended(prefix, EncodeText(code), EncodeText(message), []);
      case _ =>
    }
    assert body == prefix + Fields(m);
    assert body == Body(m);
    r := EncodeFrame(body);
  }

  lemma Appended(x: Bytes, a: Bytes, b: Bytes, c: Bytes)
    ensures ((x + a) + b) + c == x + (a + (b + c))
    ensures x + [] == x && b + [] == b
  {
  }

  function DecodeFields(kind: Kind, p: Bytes, o: nat): (r: Decoded<Message>) {
    match kind
    case KStart =>
      var (service, o1) :- DecodeText(p, o);
      var (username, o2) :- DecodeText(p, o1);
      var (tty, o3) :- DecodeText(p, o2);
      Ok((Start(service, username, tty), o3))
    case KAnswer =>
      var (response, o1) :- DecodeBlob(p, o);
      Ok((Answer(response), o1))
    case KCancel => Ok((Cancel, o))
    case KPrompt =>
      var (style, o1) :- DecodeText(p, o);
      var (text, o2) :- DecodeText(p, o1);
      Ok((Prompt(style, text), o2))
    case KReady => Ok((Ready, o))
    case KFailed =>
      var (code, o1) :- DecodeText(p, o);
      var (message, o2) :- DecodeText(p, o1);
      Ok((Failed(code, message), o2))
  }

  function Decode(frame: Bytes): Result<Message, Error> {
    var p :- FramePayload(frame);
    if p == [] then Err(ProtocolError("missing protocol body"))
    else if p[0] != VERSION then Err(ProtocolError("unsupported protocol version"))
    else
      var (name, o) :- DecodeText(p, 1);
      match KindNamed(name)
      case None => Err(ProtocolError("unsupported PAM worker message kind"))
      case Some(kind) =>
        var (message, end) :- DecodeFields(kind, p, o);
        if end != |p| then Err(ProtocolError("trailing bytes after protocol message")) else Ok(message)
  }

  /** The fields of `m` are read exactly where their encoding stands. */
  lemma FieldsDecode(m: Message, p: Bytes, o: nat)
    requires !m.Other? && o <= |p|
    ensures Yields(DecodeFields(KindOf(m), p, o), m) <==> Packable(m) && At(p, o, Fields(m))
    ensures Yields(DecodeFields(KindOf(m), p, o), m) ==>
              DecodeFields(KindOf(m), p, o).value.1 == o + |Fields(m)|
  {
    hide DecodeText, DecodeBlob, EncodeText, EncodeBlob, FitsText;
    match m
    case Start(service, username, tty) =>
      AtSplit(p, o, EncodeText(service), EncodeText(username) + EncodeText(tty));
      TextDecodes(p, o, service);
      TwoTextsDecode(p, o + |EncodeText(service)|, username, tty);
    case Answer(response) => BlobDecodes(p, o, response);
    case Prompt(style, text) => TwoTextsDecode(p, o, style, text);
    case Failed(code, message) => TwoTextsDecode(p, o, code, message);
    case _ =>
  }

  lemma DecodedKind(kind: Kind, p: Bytes, o: nat)
    requires DecodeFields(kind, p, o).Ok?
    ensures !DecodeFields(kind, p, o).value.0.Other? && KindOf(DecodeFields(kind, p, o).value.0) == kind
  {
    hide DecodeText, DecodeBlob;
  }

  /**
   * Encoder and decoder are inverse relations on all messages and all byte strings: every encodable
   * message is read back unchanged, and every accepted frame is the one encoding of its message.
   */
  lemma EncoderInvertsDecoder(m: Message, frame: Bytes)
    ensures Encode(m) == Ok(frame) <==> Decode(frame) == Ok(m)
  {
    hide DecodeText, DecodeBlob, EncodeText, EncodeBlob, FitsText, DecodeFields, Fields;
    if Encode(m) == Ok(frame) {
      var p := Body(m);
      var name := KindOf(m).Name();
      FrameRoundTrip(frame, p);
      assert At(p, 0, Body(m));
      AtSplit(p, 0, [VERSION], EncodeText(name) + Fields(m));
      AtSplit(p, 1, EncodeText(name), Fields(m));
      NameFits(KindOf(m));
      TextDecodes(p, 1, name);
      KindNames(KindOf(m), name);
      FieldsDecode(m, p, 1 + |EncodeText(name)|);
    }
    if Decode(frame) == Ok(m) {
      var p := FramePayload(frame).value;
      var (name, o) := DecodeText(p, 1).value;
      var kind := KindNamed(name).value;
      TextDecodes(p, 1, name);
      KindNames(kind, name);
      DecodedKind(kind, p, o);
      FieldsDecode(m, p, o);
      AtSplit(p, 1, EncodeText(name), Fields(m));
      AtSplit(p, 0, [VERSION], EncodeText(name) + Fields(m));
      assert p == Body(m);
      FrameRoundTrip(frame, p);
    }
  }

  lemma NameFits(k: Kind)
    ensures FitsText(k.Name())
  {
    Utf8.EncodeLength(k.Name());
  }
}
