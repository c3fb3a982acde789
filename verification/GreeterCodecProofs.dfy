/** The greeter protocol's decoder accepts exactly the encoder's frames, up to nonzero booleans. */
module GreeterCodecProofs {
  import opened Utf8
  import opened Wrappers
  import opened Framing
  import opened GreeterProtocol

  // ---------- where booleans stand in an encoded payload ----------

  function SnapshotBools(s: Snapshot, o: nat): set<nat> {
    {o + |EncodeText(s.seat)|}
  }

  function ReplyBools(body: ReplyBody, o: nat): set<nat> {
    match body
    case Conversation(state, _) => {o + |EncodeText(state)|}
    case State(snapshot) => SnapshotBools(snapshot, o)
    case Control(_) => {o}
    case Empty => {}
  }

  function OutcomeBools(outcome: Outcome, o: nat): set<nat> {
    {o} + (if outcome.Success? then ReplyBools(outcome.body, o + 1) else {})
  }

  function EventBools(body: EventBody, o: nat): set<nat> {
    match body
    case SessionFinished(_, _, _, _) => {o + 2 * HEADER_SIZE}
    case StateChanged(snapshot) => SnapshotBools(snapshot, o)
    case _ => {}
  }

  /** Offsets of the boolean bytes in the body of the encoding of `m`. */
  function BoolOffsets(m: Message): set<nat> {
    match m
    case Request(_, _, _) => {}
    case Response(id, action, outcome) => OutcomeBools(outcome, 2 + |EncodeTextPair(id, action)|)
    case Event(name, body) => EventBools(body, 2 + |EncodeText(name)|)
  }

  // ---------- lists ----------

  lemma {:induction false} TextsDecode(p: Bytes, o: nat, values: seq<string>)
    requires o <= |p|
    ensures Yields(DecodeTexts(p, o, |values|), values) <==> FitsTexts(values) && At(p, o, EncodeTexts(values))
    ensures Yields(DecodeTexts(p, o, |values|), values) ==>
              DecodeTexts(p, o, |values|).value.1 == o + |EncodeTexts(values)|
    decreases values
  {
    hide DecodeText, EncodeText, FitsText;
    if values != [] {
      var head, tail := values[0], values[1..];
      var o1 := o + |EncodeText(head)|;
      TextDecodes(p, o, head);
      AtSplit(p, o, EncodeText(head), EncodeTexts(tail));
      assert values == [head] + tail;
      if o1 <= |p| {
        TextsDecode(p, o1, tail);
      }
    }
  }

  lemma CountDecodes(p: Bytes, o: nat, n: nat, message: string)
    ensures Yields(DecodeCount(p, o, message), n) <==> n < U32_LIMIT && At(p, o, U32(n))
  {
    if n < U32_LIMIT {
      ReadU32Inverts(n);
    }
  }

  lemma StringListDecodes(p: Bytes, o: nat, values: seq<string>)
    ensures Yields(DecodeStringList(p, o), values) <==>
              FitsStringList(values) && At(p, o, EncodeStringList(values))
    ensures Yields(DecodeStringList(p, o), values) ==>
              DecodeStringList(p, o).value.1 == o + |EncodeStringList(values)|
  {
    hide DecodeTexts, EncodeTexts, U32, DecodeCount, FitsTexts;
    CountDecodes(p, o, |values|, "truncated string list length");
    AtSplit(p, o, U32(|values|), EncodeTexts(values));
    if o + HEADER_SIZE <= |p| {
      TextsDecode(p, o + HEADER_SIZE, values);
    }
  }

  lemma SessionDecodes(p: Bytes, o: nat, s: SessionRecord)
    ensures Yields(DecodeSession(p, o), s) <==> FitsSession(s) && At(p, o, EncodeSession(s))
    ensures Yields(DecodeSession(p, o), s) ==> DecodeSession(p, o).value.1 == o + |EncodeSession(s)|
  {
    hide DecodeText, EncodeText, FitsText, DecodeSignedInt, I32, FitsI32;
    IntLength(s.pid);
    SignedIntDecodes(p, o, s.pid);
    TwoTextsDecode(p, o + HEADER_SIZE, s.username, s.command);
    AtSplit(p, o, I32(s.pid), EncodeText(s.username) + EncodeText(s.command));
    SignedIntAdvances(p, o);
  }

  lemma IntLength(v: int)
    ensures |I32(v)| == HEADER_SIZE
  {
  }

  lemma SignedIntAdvances(p: Bytes, o: nat)
    ensures DecodeSignedInt(p, o).Ok? ==> DecodeSignedInt(p, o).value.1 == o + HEADER_SIZE
  {
  }

  lemma BoolAdvances(p: Bytes, o: nat)
    ensures DecodeBool(p, o).Ok? ==> DecodeBool(p, o).value.1 == o + 1
  {
  }

  lemma {:induction false} SessionsDecode(p: Bytes, o: nat, sessions: seq<SessionRecord>)
    requires o <= |p|
    ensures Yields(DecodeSessions(p, o, |sessions|), sessions) <==>
              FitsSessions(sessions) && At(p, o, EncodeSessions(sessions))
    ensures Yields(DecodeSessions(p, o, |sessions|), sessions) ==>
              DecodeSessions(p, o, |sessions|).value.1 == o + |EncodeSessions(sessions)|
    decreases sessions
  {
    hide DecodeSession, EncodeSession, FitsSession;
    if sessions != [] {
      var head, tail := sessions[0], sessions[1..];
      var o1 := o + |EncodeSession(head)|;
      SessionDecodes(p, o, head);
      AtSplit(p, o, EncodeSession(head), EncodeSessions(tail));
      assert sessions == [head] + tail;
      if o1 <= |p| {
        SessionsDecode(p, o1, tail);
      }
    }
  }

  // ---------- payload groups ----------

  lemma SnapshotDecodes(p: Bytes, o: nat, s: Snapshot)
    ensures Yields(DecodeSnapshot(p, o), s) <==>
              FitsSnapshot(s) && AtUpTo(p, o, EncodeSnapshot(s), SnapshotBools(s, o))
    ensures Yields(DecodeSnapshot(p, o), s) ==> DecodeSnapshot(p, o).value.1 == o + |EncodeSnapshot(s)|
  {
    hide DecodeText, EncodeText, FitsText, DecodeBool, EncodeBool, DecodeCount, U32, DecodeSessions, EncodeSessions,
         FitsSessions, At, AtUpTo;
    var seat, ready, count, sessions :=
      EncodeText(s.seat), EncodeBool(s.greeterReady), U32(|s.sessions|), EncodeSessions(s.sessions);
    var o1 := o + |seat|;
    var bools := {o1};
    TextDecodes(p, o, s.seat);
    BoolDecodes(p, o1, s.greeterReady);
    BoolAdvances(p, o1);
    BoolLength(s.greeterReady);
    CountDecodes(p, o1 + 1, |s.sessions|, "truncated active session list length");
    if o1 + 1 + HEADER_SIZE <= |p| {
      SessionsDecode(p, o1 + 1 + HEADER_SIZE, s.sessions);
    }
    AtUpToSplit(p, o, seat, ready + (count + sessions), bools);
    AtUpToSplit(p, o1, ready, count + sessions, bools);
    AtIsExact(p, o, seat, bools);
    AtIsExact(p, o1 + 1, count + sessions, bools);
    AtSplit(p, o1 + 1, count, sessions);
    AtFits(p, o1 + 1, count);
  }

  lemma AtFits(p: Bytes, o: nat, s: Bytes)
    ensures At(p, o, s) ==> o + |s| <= |p|
  {
  }

  lemma BoolLength(value: bool)
    ensures |EncodeBool(value)| == 1
  {
  }

  lemma TextPairDecodes(p: Bytes, o: nat, a: string, b: string)
    ensures Yields(DecodeTextPair(p, o), (a, b)) <==> FitsText(a) && FitsText(b) && At(p, o, EncodeTextPair(a, b))
    ensures Yields(DecodeTextPair(p, o), (a, b)) ==> DecodeTextPair(p, o).value.1 == o + |EncodeTextPair(a, b)|
  {
    hide DecodeText, EncodeText, FitsText;
    TwoTextsDecode(p, o, a, b);
  }

  lemma ConversationDecodes(p: Bytes, o: nat, state: string, prompt: Option<PromptText>)
    ensures Yields(DecodeConversation(p, o), (state, prompt)) <==>
              FitsReply(Conversation(state, prompt))
              && AtUpTo(p, o, EncodeConversation(state, prompt), {o + |EncodeText(state)|})
    ensures Yields(DecodeConversation(p, o), (state, prompt)) ==>
              DecodeConversation(p, o).value.1 == o + |EncodeConversation(state, prompt)|
  {
    hide DecodeText, EncodeText, FitsText, DecodeBool, EncodeBool, DecodeTextPair, EncodeTextPair, At, AtUpTo;
    var text, has, rest := EncodeText(state), EncodeBool(prompt.Some?), EncodePrompt(prompt);
    var o1 := o + |text|;
    var bools := {o1};
    TextDecodes(p, o, state);
    BoolDecodes(p, o1, prompt.Some?);
    BoolAdvances(p, o1);
    BoolLength(prompt.Some?);
    AtUpToSplit(p, o, text, has + rest, bools);
    AtUpToSplit(p, o1, has, rest, bools);
    AtIsExact(p, o, text, bools);
    AtIsExact(p, o1 + 1, rest, bools);
    BoolInside(p, o1);
    match prompt
    case Some(t) => TextPairDecodes(p, o1 + 1, t.style, t.text);
    case None => AtEmpty(p, o1 + 1);
  }

  lemma BoolInside(p: Bytes, o: nat)
    ensures DecodeBool(p, o).Ok? ==> o + 1 <= |p|
  {
  }

  lemma AtEmpty(p: Bytes, o: nat)
    ensures At(p, o, []) <==> o <= |p|
  {
  }

  lemma ReplyDecodes(action: ActionClass, p: Bytes, o: nat, body: ReplyBody)
    requires o <= |p|
    ensures Yields(DecodeReply(action, p, o), body) <==>
              ReplyShape(action, body) && FitsReply(body)
              && AtUpTo(p, o, EncodeReply(action, body), ReplyBools(body, o))
    ensures Yields(DecodeReply(action, p, o), body) ==>
              DecodeReply(action, p, o).value.1 == o + |EncodeReply(action, body)|
  {
    hide DecodeConversation, EncodeConversation, DecodeSnapshot, EncodeSnapshot, FitsSnapshot, DecodeBool, EncodeBool,
         AtUpTo, EncodeText, FitsText;
    match body
    case Conversation(state, prompt) => ConversationDecodes(p, o, state, prompt);
    case State(snapshot) => SnapshotDecodes(p, o, snapshot);
    case Control(accepted) =>
      BoolDecodes(p, o, accepted);
      BoolAdvances(p, o);
      BoolLength(accepted);
    case Empty => AtUpToEmpty(p, o, {});
  }

  lemma AtUpToEmpty(p: Bytes, o: nat, bools: set<nat>)
    ensures AtUpTo(p, o, [], bools) <==> o <= |p|
  {
  }

  lemma OutcomeDecodes(action: ActionClass, p: Bytes, o: nat, outcome: Outcome)
    ensures Yields(DecodeOutcome(action, p, o), outcome) <==>
              (outcome.Success? ==> ReplyShape(action, outcome.body)) && FitsOutcome(outcome)
              && AtUpTo(p, o, EncodeOutcome(action, outcome), OutcomeBools(outcome, o))
    ensures Yields(DecodeOutcome(action, p, o), outcome) ==>
              DecodeOutcome(action, p, o).value.1 == o + |EncodeOutcome(action, outcome)|
  {
    hide DecodeBool, EncodeBool, DecodeReply, EncodeReply, FitsReply, ReplyShape, ReplyBools, DecodeTextPair,
         EncodeTextPair, FitsText, At, AtUpTo;
    var bools := OutcomeBools(outcome, o);
    var ok := EncodeBool(outcome.Success?);
    BoolDecodes(p, o, outcome.Success?);
    BoolAdvances(p, o);
    BoolLength(outcome.Success?);
    BoolInside(p, o);
    BoolUpToInside(p, o, outcome.Success?, {o});
    match outcome
    case Success(body) =>
      var rest := EncodeReply(action, body);
      ReplyBoolsAfter(body, o + 1);
      AtUpToSplit(p, o, ok, rest, bools);
      AtUpToWithin(p, o, ok, bools, {o});
      AtUpToWithin(p, o + 1, rest, bools, ReplyBools(body, o + 1));
      if o + 1 <= |p| {
        ReplyDecodes(action, p, o + 1, body);
      }
    case Failure(code, message) =>
      var rest := EncodeTextPair(code, message);
      assert bools == {o};
      AtUpToSplit(p, o, ok, rest, bools);
      AtIsExact(p, o + 1, rest, bools);
      TextPairDecodes(p, o + 1, code, message);
  }

  lemma BoolUpToInside(p: Bytes, o: nat, value: bool, bools: set<nat>)
    ensures AtUpTo(p, o, EncodeBool(value), bools) ==> o + 1 <= |p|
  {
  }

  lemma ReplyBoolsAfter(body: ReplyBody, o: nat)
    ensures forall x | x in ReplyBools(body, o) :: o <= x
  {
  }

  lemma StartDecodes(p: Bytes, o: nat, body: RequestBody)
    requires body.StartSession?
    ensures Yields(DecodeStart(p, o), body) <==> FitsRequest(body) && At(p, o, EncodeStart(body))
    ensures Yields(DecodeStart(p, o), body) ==> DecodeStart(p, o).value.1 == o + |EncodeStart(body)|
  {
    hide DecodeText, EncodeText, FitsText, DecodeStringList, EncodeStringList, FitsStringList, DecodeTextPair,
         EncodeTextPair, At;
    var command, names, name, texts := EncodeText(body.command), EncodeStringList(body.desktopNames),
      EncodeText(body.name), EncodeTextPair(body.icon, body.desktopFile);
    var o1 := o + |command|;
    var o2 := o1 + |names|;
    TextDecodes(p, o, body.command);
    StringListDecodes(p, o1, body.desktopNames);
    TextDecodes(p, o2, body.name);
    TextPairDecodes(p, o2 + |name|, body.icon, body.desktopFile);
    AtSplit(p, o, command, names + (name + texts));
    AtSplit(p, o1, names, name + texts);
    AtSplit(p, o2, name, texts);
  }

  lemma RequestDecodes(action: ActionClass, p: Bytes, o: nat, id: string, name: string, body: RequestBody)
    requires o <= |p| && action == ActionOf(name)
    ensures Yields(DecodeRequest(action, p, o), body) <==>
              WellFormed(Request(id, name, body)) && FitsRequest(body) && At(p, o, EncodeRequest(action, body))
    ensures Yields(DecodeRequest(action, p, o), body) ==>
              DecodeRequest(action, p, o).value.1 == o + |EncodeRequest(action, body)|
  {
    hide DecodeBlob, EncodeBlob, DecodeStart, EncodeStart, At, ActionOf, FitsText, FitsStringList;
    AtEmpty(p, o);
    StartShape(p, o);
    match body
    case CreateSession(username) => BlobDecodes(p, o, username);
    case ContinueSession(response) => BlobDecodes(p, o, response);
    case StartSession(_, _, _, _, _) => StartDecodes(p, o, body);
    case Bare =>
  }

  lemma StartShape(p: Bytes, o: nat)
    ensures DecodeStart(p, o).Ok? ==> DecodeStart(p, o).value.0.StartSession?
  {
    hide DecodeText, DecodeStringList, DecodeTextPair;
  }

  lemma FinishedDecodes(p: Bytes, o: nat, body: EventBody)
    requires body.SessionFinished?
    ensures Yields(DecodeFinished(p, o), body) <==>
              FitsEvent(body) && AtUpTo(p, o, EncodeFinished(body), {o + 2 * HEADER_SIZE})
    ensures Yields(DecodeFinished(p, o), body) ==> DecodeFinished(p, o).value.1 == o + |EncodeFinished(body)|
  {
    hide DecodeText, EncodeText, FitsText, DecodeSignedInt, I32, FitsI32, DecodeBool, EncodeBool, At, AtUpTo;
    var pid, code, failed, text := I32(body.pid), I32(body.returncode), EncodeBool(body.failed), EncodeText(body.message);
    var o2 := o + 2 * HEADER_SIZE;
    var bools := {o2};
    IntLength(body.pid);
    IntLength(body.returncode);
    BoolLength(body.failed);
    SignedIntDecodes(p, o, body.pid);
    SignedIntAdvances(p, o);
    SignedIntDecodes(p, o + HEADER_SIZE, body.returncode);
    SignedIntAdvances(p, o + HEADER_SIZE);
    BoolDecodes(p, o2, body.failed);
    BoolAdvances(p, o2);
    TextDecodes(p, o2 + 1, body.message);
    AtUpToSplit(p, o, pid, code + (failed + text), bools);
    AtUpToSplit(p, o + HEADER_SIZE, code, failed + text, bools);
    AtUpToSplit(p, o2, failed, text, bools);
    AtIsExact(p, o, pid, bools);
    AtIsExact(p, o + HEADER_SIZE, code, bools);
    AtIsExact(p, o2 + 1, text, bools);
  }

  lemma StartingDecodes(p: Bytes, o: nat, command: string, desktopNames: seq<string>)
    ensures Yields(DecodeStarting(p, o), SessionStarting(command, desktopNames)) <==>
              FitsText(command) && FitsStringList(desktopNames) && At(p, o, EncodeStarting(command, desktopNames))
    ensures Yields(DecodeStarting(p, o), SessionStarting(command, desktopNames)) ==>
              DecodeStarting(p, o).value.1 == o + |EncodeStarting(command, desktopNames)|
  {
    hide DecodeText, EncodeText, FitsText, DecodeStringList, EncodeStringList, FitsStringList, At;
    TextDecodes(p, o, command);
    StringListDecodes(p, o + |EncodeText(command)|, desktopNames);
    AtSplit(p, o, EncodeText(command), EncodeStringList(desktopNames));
  }

  lemma EventShapes(p: Bytes, o: nat)
    ensures DecodeStarting(p, o).Ok? ==> DecodeStarting(p, o).value.0.SessionStarting?
    ensures DecodeFinished(p, o).Ok? ==> DecodeFinished(p, o).value.0.SessionFinished?
  {
    hide DecodeText, DecodeStringList, DecodeSignedInt, DecodeBool;
  }

  lemma EventDecodes(event: EventClass, p: Bytes, o: nat, name: string, body: EventBody)
    requires o <= |p| && event == EventOf(name)
    ensures Yields(DecodeEvent(event, p, o), body) <==>
              WellFormed(Event(name, body)) && FitsEvent(body)
              && AtUpTo(p, o, EncodeEvent(event, body), EventBools(body, o))
    ensures Yields(DecodeEvent(event, p, o), body) ==>
              DecodeEvent(event, p, o).value.1 == o + |EncodeEvent(event, body)|
  {
    hide DecodeStarting, EncodeStarting, DecodeFinished, EncodeFinished, DecodeSnapshot, EncodeSnapshot, FitsSnapshot,
         DecodeTextPair, EncodeTextPair, EventOf, At, AtUpTo, FitsText, FitsStringList, FitsI32, SnapshotBools;
    EventShapes(p, o);
    match body
    case SessionStarting(command, desktopNames) =>
      StartingDecodes(p, o, command, desktopNames);
      AtIsExact(p, o, EncodeStarting(command, desktopNames), {});
    case SessionFinished(_, _, _, _) => FinishedDecodes(p, o, body);
    case StateChanged(snapshot) => SnapshotDecodes(p, o, snapshot);
    case AuthMessage(style, text) =>
      TextPairDecodes(p, o, style, text);
      AtIsExact(p, o, EncodeTextPair(style, text), {});
    case NoPayload => AtUpToEmpty(p, o, {});
  }

  // ---------- whole messages ----------

  lemma FieldsDecode(p: Bytes, m: Message)
    requires |p| >= 2
    ensures Yields(DecodeFields(Tag(m), p, 2), m) <==>
              WellFormed(m) && Packable(m) && AtUpTo(p, 2, Fields(m), BoolOffsets(m))
    ensures Yields(DecodeFields(Tag(m), p, 2), m) ==> DecodeFields(Tag(m), p, 2).value.1 == 2 + |Fields(m)|
  {
    hide DecodeText, EncodeText, FitsText, DecodeTextPair, EncodeTextPair, DecodeRequest, EncodeRequest, FitsRequest,
         DecodeOutcome, EncodeOutcome, FitsOutcome, DecodeEvent, EncodeEvent, FitsEvent, At, AtUpTo,
         OutcomeBools, EventBools, ActionOf, EventOf, ReplyShape;
    match m
    case Request(id, action, body) =>
      var names := EncodeTextPair(id, action);
      var o1 := 2 + |names|;
      TextPairDecodes(p, 2, id, action);
      AtSplit(p, 2, names, EncodeRequest(ActionOf(action), body));
      AtIsExact(p, 2, Fields(m), {});
      AtFits(p, 2, names);
      if o1 <= |p| {
        RequestDecodes(ActionOf(action), p, o1, id, action, body);
      }
    case Response(id, action, outcome) =>
      var names := EncodeTextPair(id, action);
      var o1 := 2 + |names|;
      var bools := OutcomeBools(outcome, o1);
      TextPairDecodes(p, 2, id, action);
      OutcomeBoolsAfter(outcome, o1);
      AtUpToSplit(p, 2, names, EncodeOutcome(ActionOf(action), outcome), bools);
      AtIsExact(p, 2, names, bools);
      OutcomeDecodes(ActionOf(action), p, o1, outcome);
    case Event(name, body) =>
      var text := EncodeText(name);
      var o1 := 2 + |text|;
      var bools := EventBools(body, o1);
      TextDecodes(p, 2, name);
      EventBoolsAfter(body, o1);
      AtUpToSplit(p, 2, text, EncodeEvent(EventOf(name), body), bools);
      AtIsExact(p, 2, text, bools);
      AtFits(p, 2, text);
      if o1 <= |p| {
        EventDecodes(EventOf(name), p, o1, name, body);
      }
  }

  lemma OutcomeBoolsAfter(outcome: Outcome, o: nat)
    ensures forall x | x in OutcomeBools(outcome, o) :: o <= x
  {
  }

  lemma EventBoolsAfter(body: EventBody, o: nat)
    ensures forall x | x in EventBools(body, o) :: o <= x
  {
  }

  /** Offsets of the boolean bytes in the frame of `m`. */
  function FrameBools(m: Message): set<nat> {
    set x | x in BoolOffsets(m) :: HEADER_SIZE + x
  }

  /** `raw` is `frame` except that a boolean of `m` encoded as 1 may be any nonzero byte of `raw`. */
  ghost predicate SameUpToBooleans(raw: Bytes, frame: Bytes, m: Message) {
    |raw| == |frame| && AtUpTo(raw, 0, frame, FrameBools(m))
  }

  /**
   * The decoder yields `m` on exactly those byte strings that are the encoding of the well-formed
   * message `m`, up to nonzero boolean bytes.
   */
  lemma DecoderAcceptsExactly(raw: Bytes, m: Message)
    ensures DecodeMessage(raw) == Ok(m) <==>
              WellFormed(m) && EncodeMessage(m).Ok? && SameUpToBooleans(raw, EncodeMessage(m).value, m)
  {
    hide DecodeFields, Fields, WellFormed, Packable, BoolOffsets, FramePayload, SameUpToBooleans, AtUpTo;
    var fields := Fields(m);
    if DecodeMessage(raw) == Ok(m) {
      var p := FramePayload(raw).value;
      TagDecodes(p[1], p, 2);
      FieldsDecode(p, m);
      HeaderedBody(raw, p);
      FrameUpToBooleans(raw, p, m);
    }
    if WellFormed(m) && EncodeMessage(m).Ok? && SameUpToBooleans(raw, EncodeMessage(m).value, m) {
      var frame := EncodeMessage(m).value;
      SameHeader(raw, frame, m);
      var p := raw[HEADER_SIZE..];
      assert raw == U32(|p|) + p;
      HeaderedBody(raw, p);
      FrameUpToBooleans(raw, p, m);
      FieldsDecode(p, m);
    }
  }

  lemma SameHeader(raw: Bytes, frame: Bytes, m: Message)
    requires SameUpToBooleans(raw, frame, m) && HEADER_SIZE <= |frame|
    ensures |raw| == |frame| && raw[..HEADER_SIZE] == frame[..HEADER_SIZE]
  {
    hide BoolOffsets;
    OffsetsInFields(m);
    assert forall k | 0 <= k < HEADER_SIZE :: frame[k] == raw[0 + k];
  }

  lemma TagDecodes(tag: Byte, p: Bytes, o: nat)
    ensures DecodeFields(tag, p, o).Ok? ==> Tag(DecodeFields(tag, p, o).value.0) == tag
  {
    hide DecodeTextPair, DecodeRequest, DecodeOutcome, DecodeText, DecodeEvent, ActionOf, EventOf;
  }

  lemma OffsetsInFields(m: Message)
    ensures forall x | x in BoolOffsets(m) :: 2 <= x
  {
    match m
    case Request(_, _, _) =>
    case Response(id, action, outcome) => OutcomeBoolsAfter(outcome, 2 + |EncodeTextPair(id, action)|);
    case Event(name, body) => EventBoolsAfter(body, 2 + |EncodeText(name)|);
  }

  lemma HeaderedBody(raw: Bytes, p: Bytes)
    ensures FramePayload(raw) == Ok(p) <==> |p| <= MAX_FRAME_BODY_LENGTH && raw == U32(|p|) + p
  {
    FrameRoundTrip(raw, p);
  }

  /** Comparing whole frames is comparing the two leading body bytes and the fields. */
  lemma FrameUpToBooleans(raw: Bytes, p: Bytes, m: Message)
    requires |p| >= 2 && raw == U32(|p|) + p
    ensures |p| == |Body(m)| && SameUpToBooleans(raw, U32(|p|) + Body(m), m) <==>
              p[0] == VERSION && p[1] == Tag(m) && |p| == 2 + |Fields(m)| && AtUpTo(p, 2, Fields(m), BoolOffsets(m))
  {
    hide BoolOffsets, Fields, U32, AtUpTo, At;
    var header, lead, fields := U32(|p|), [VERSION, Tag(m)], Fields(m);
    var bools := FrameBools(m);
    OffsetsInFields(m);
    AtUpToSplit(raw, 0, header, lead + fields, bools);
    AtUpToSplit(raw, HEADER_SIZE, lead, fields, bools);
    AtIsExact(raw, 0, header, bools);
    AtIsExact(raw, HEADER_SIZE, lead, bools);
    HeaderAt(raw, p, lead);
    UpToShift(raw, header, p, 2, fields, BoolOffsets(m));
  }

  lemma HeaderAt(raw: Bytes, p: Bytes, lead: Bytes)
    requires |p| >= 2 == |lead| && raw == U32(|p|) + p
    ensures At(raw, 0, U32(|p|))
    ensures At(raw, HEADER_SIZE, lead) <==> p[0] == lead[0] && p[1] == lead[1]
  {
    hide U32;
    assert raw[HEADER_SIZE..HEADER_SIZE + 2] == p[..2];
    assert lead == [lead[0], lead[1]];
  }

  lemma UpToShift(raw: Bytes, header: Bytes, p: Bytes, o: nat, s: Bytes, bools: set<nat>)
    requires raw == header + p && |header| == HEADER_SIZE
    ensures var shifted := set x | x in bools :: HEADER_SIZE + x;
            AtUpTo(raw, HEADER_SIZE + o, s, shifted) <==> AtUpTo(p, o, s, bools)
  {
    var shifted := set x | x in bools :: HEADER_SIZE + x;
    if o + |s| <= |p| {
      forall k {:trigger s[k]} | 0 <= k < |s|
        ensures raw[HEADER_SIZE + o + k] == p[o + k]
        ensures HEADER_SIZE + o + k in shifted <==> o + k in bools
      {
      }
    }
  }

  /** Every well-formed message that fits a frame is read back unchanged. */
  lemma RoundTrip(m: Message, frame: Bytes)
    requires WellFormed(m) && EncodeMessage(m) == Ok(frame)
    ensures DecodeMessage(frame) == Ok(m)
  {
    hide BoolOffsets, EncodeMessage, DecodeMessage, WellFormed;
    DecoderAcceptsExactly(frame, m);
  }

  /** Any two byte strings decoded to the same message re-encode to the same frame. */
  lemma Canonical(raw: Bytes)
    ensures DecodeMessage(raw).Ok? ==>
              var m := DecodeMessage(raw).value;
              && WellFormed(m) && EncodeMessage(m).Ok?
              && SameUpToBooleans(raw, EncodeMessage(m).value, m)
              && DecodeMessage(EncodeMessage(m).value) == Ok(m)
  {
    hide BoolOffsets, EncodeMessage, DecodeMessage, WellFormed, SameUpToBooleans;
    if DecodeMessage(raw).Ok? {
      var m := DecodeMessage(raw).value;
      DecoderAcceptsExactly(raw, m);
      RoundTrip(m, EncodeMessage(m).value);
    }
  }
}
