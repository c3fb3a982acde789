/** Which messages along the authentication path fit the 2048-byte frame body. */
module SizeBounds {
  import opened Utf8
  import opened Wrappers
  import opened Framing
  import G = GreeterProtocol
  import W = PamWorkerProtocol

  /** `auth_field_is_too_long` on the byte fields that carry usernames and prompt replies. */
  predicate AuthFieldIsTooLong(field: Bytes) {
    |field| > G.AUTH_FIELD_MAX_LENGTH
  }

  /** `new_request` ids are "req-" and a 36-character UUID. */
  predicate IsRequestId(id: string) {
    |id| == 40 && forall c | c in id :: c < '\U{0080}'
  }

  lemma TextSize(value: string)
    ensures |EncodeText(value)| == HEADER_SIZE + |Utf8.Encode(value)|
  {
  }

  lemma AsciiSize(value: string)
    requires forall c | c in value :: c < '\U{0080}'
    ensures |EncodeText(value)| == HEADER_SIZE + |value|
    ensures |value| < U32_LIMIT ==> FitsText(value)
  {
    Utf8.EncodeLength(value);
  }

  /** The greeter's create and continue requests always fit once the field passed the length check. */
  lemma AuthRequestsFit(id: string, field: Bytes)
    requires IsRequestId(id) && !AuthFieldIsTooLong(field)
    ensures G.EncodeMessage(G.Request(id, "create-session", G.CreateSession(field))).Ok?
    ensures G.EncodeMessage(G.Request(id, "continue-session", G.ContinueSession(field))).Ok?
  {
    hide EncodeText, FitsText, EncodeBlob;
    AsciiSize(id);
    AsciiSize("create-session");
    AsciiSize("continue-session");
    BlobSize(field);
  }

  lemma BlobSize(field: Bytes)
    ensures |EncodeBlob(field)| == HEADER_SIZE + |field|
  {
  }

  /**
   * Forwarding an accepted field to the PAM worker always fits, even after replacement decoding has
   * made the username up to three times as long.
   */
  lemma ForwardedFieldsFit(field: Bytes, tty: string)
    requires !AuthFieldIsTooLong(field) && |Utf8.Encode(tty)| <= 1024
    ensures W.Encode(W.Start("login", Utf8.DecodeReplace(field), tty)).Ok?
    ensures W.Encode(W.Answer(field)).Ok?
  {
    hide EncodeText, EncodeBlob, Utf8.Encode, Utf8.DecodeReplace;
    var username := Utf8.DecodeReplace(field);
    Utf8.ReplaceGrowth(field);
    TextSize(username);
    TextSize(tty);
    AsciiSize("login");
    AsciiSize("start");
    AsciiSize("answer");
    BlobSize(field);
  }

  /** Bytes of prompt style and text the worker's `prompt` frame can carry. */
  lemma WorkerPromptFits(style: string, text: string)
    ensures W.Encode(W.Prompt(style, text)).Ok? <==> |Utf8.Encode(style)| + |Utf8.Encode(text)| <= 2029
  {
    hide EncodeText, Utf8.Encode;
    TextSize(style);
    TextSize(text);
    AsciiSize("prompt");
  }

  /**
   * The greeter's `pending` responses carry fewer prompt bytes than the worker's frame: a first prompt,
   * in the response to create-session, up to 1963, a later one up to 1961. A longer prompt of up to 2029
   * bytes reaches the daemon, but its response does not fit and is never sent.
   */
  lemma PendingResponseFits(id: string, style: string, text: string)
    requires IsRequestId(id)
    ensures var size := |Utf8.Encode(style)| + |Utf8.Encode(text)|;
            var body := G.Success(G.Conversation("pending", Some(G.PromptText(style, text))));
            && (G.EncodeMessage(G.Response(id, "create-session", body)).Ok? <==> size <= 1963)
            && (G.EncodeMessage(G.Response(id, "continue-session", body)).Ok? <==> size <= 1961)
  {
    hide EncodeText, Utf8.Encode, G.EncodeOutcome, G.FitsOutcome, G.ActionOf, G.ReplyShape;
    AsciiSize(id);
    AsciiSize("create-session");
    AsciiSize("continue-session");
    PendingSize(style, text);
  }

  lemma PendingSize(style: string, text: string)
    ensures var outcome := G.Success(G.Conversation("pending", Some(G.PromptText(style, text))));
            && G.ActionOf("create-session") == G.ACreate && G.ActionOf("continue-session") == G.AContinue
            && G.ReplyShape(G.ACreate, outcome.body) && G.ReplyShape(G.AContinue, outcome.body)
            && |G.EncodeOutcome(G.ACreate, outcome)| == 21 + |Utf8.Encode(style)| + |Utf8.Encode(text)|
            && |G.EncodeOutcome(G.AContinue, outcome)| == 21 + |Utf8.Encode(style)| + |Utf8.Encode(text)|
            && (|Utf8.Encode(style)| + |Utf8.Encode(text)| < U32_LIMIT ==> G.FitsOutcome(outcome))
  {
    hide EncodeText, Utf8.Encode, EncodeBool;
    AsciiSize("pending");
    TextSize(style);
    TextSize(text);
    BoolSize(true);
  }

  /** Bytes of code and message that the worker's `failed` frame can carry. */
  lemma WorkerFailureFits(code: string, message: string)
    ensures W.Encode(W.Failed(code, message)).Ok? <==> |Utf8.Encode(code)| + |Utf8.Encode(message)| <= 2029
  {
    hide EncodeText, Utf8.Encode;
    TextSize(code);
    TextSize(message);
    AsciiSize("failed");
  }

  /** The error response that passes a failure on carries fewer: 1975 bytes, or 1973 for a later step. */
  lemma FailureResponseFits(id: string, code: string, message: string)
    requires IsRequestId(id)
    ensures var size := |Utf8.Encode(code)| + |Utf8.Encode(message)|;
            && (G.EncodeMessage(G.Response(id, "create-session", G.Failure(code, message))).Ok? <==> size <= 1975)
            && (G.EncodeMessage(G.Response(id, "continue-session", G.Failure(code, message))).Ok? <==> size <= 1973)
  {
    hide EncodeText, Utf8.Encode, G.ActionOf, EncodeBool;
    AsciiSize(id);
    AsciiSize("create-session");
    AsciiSize("continue-session");
    TextSize(code);
    TextSize(message);
    BoolSize(false);
  }

  lemma BoolSize(value: bool)
    ensures |EncodeBool(value)| == 1
  {
  }
}
