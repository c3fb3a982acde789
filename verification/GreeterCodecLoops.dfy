/** The list codecs of the greeter protocol as the loops the source runs, with the work each can cause. */
module GreeterCodecLoops {
  import opened Utf8
  import opened Wrappers
  import opened Framing
  import opened GreeterProtocol

  function Prepend<T>(values: seq<T>, r: Decoded<seq<T>>): Decoded<seq<T>> {
    match r
    case Ok((rest, o)) => Ok((values + rest, o))
    case Err(e) => Err(e)
  }

  method EncodeStringListLoop(values: seq<string>) returns (encoded: Bytes)
    ensures encoded == EncodeStringList(values)
  {
    encoded := U32(|values|);
    for i := 0 to |values|
      invariant encoded + EncodeTexts(values[i..]) == EncodeStringList(values)
    {
      hide EncodeText, U32;
      var text := EncodeText(values[i]);
      assert values[i..][1..] == values[i + 1..];
      assert encoded + EncodeTexts(values[i..]) == (encoded + text) + EncodeTexts(values[i + 1..]);
      encoded := encoded + text;
    }
  }

  /**
   * Reads `count` texts. Whatever count the sender declares (up to 2^32 - 1), the loop body runs at
   * most once per four remaining bytes, plus one failing round.
   */
  method DecodeTextsLoop(p: Bytes, start: nat, count: nat) returns (r: Decoded<seq<string>>, ghost rounds: nat)
    requires start <= |p|
    ensures r == DecodeTexts(p, start, count)
    ensures rounds <= (|p| - start) / HEADER_SIZE + 1
    ensures r.Ok? ==> rounds == count
  {
    hide DecodeText;
    var values: seq<string> := [];
    var offset := start;
    rounds := 0;
    ghost var whole := DecodeTexts(p, start, count);
    assert whole.Ok? ==> [] + whole.value.0 == whole.value.0;
    for i := 0 to count
      invariant rounds == i
      invariant start + HEADER_SIZE * i <= offset <= |p|
      invariant DecodeTexts(p, start, count) == Prepend(values, DecodeTexts(p, offset, count - i))
    {
      TextAdvances(p, offset);
      rounds := rounds + 1;
      var text := DecodeText(p, offset);
      if text.Err? {
        return Err(text.error), rounds;
      }
      var rest := DecodeTexts(p, text.value.1, count - i - 1);
      assert rest.Ok? ==> values + ([text.value.0] + rest.value.0) == (values + [text.value.0]) + rest.value.0;
      values := values + [text.value.0];
      offset := text.value.1;
    }
    assert values + [] == values;
    r := Ok((values, offset));
  }

  lemma TextAdvances(p: Bytes, o: nat)
    ensures DecodeText(p, o).Ok? ==> o + HEADER_SIZE <= DecodeText(p, o).value.1 <= |p|
  {
  }

  lemma SessionAdvances(p: Bytes, o: nat)
    ensures DecodeSession(p, o).Ok? ==> o + 3 * HEADER_SIZE <= DecodeSession(p, o).value.1 <= |p|
  {
  }

  /** As above for session records, each of which takes at least twelve bytes. */
  method DecodeSessionsLoop(p: Bytes, start: nat, count: nat)
    returns (r: Decoded<seq<SessionRecord>>, ghost rounds: nat)
    requires start <= |p|
    ensures r == DecodeSessions(p, start, count)
    ensures rounds <= (|p| - start) / (3 * HEADER_SIZE) + 1
    ensures r.Ok? ==> rounds == count
  {
    hide DecodeSession;
    var sessions: seq<SessionRecord> := [];
    var offset := start;
    rounds := 0;
    ghost var whole := DecodeSessions(p, start, count);
    assert whole.Ok? ==> [] + whole.value.0 == whole.value.0;
    for i := 0 to count
      invariant rounds == i
      invariant start + 3 * HEADER_SIZE * i <= offset <= |p|
      invariant DecodeSessions(p, start, count) == Prepend(sessions, DecodeSessions(p, offset, count - i))
    {
      SessionAdvances(p, offset);
      rounds := rounds + 1;
      var session := DecodeSession(p, offset);
      if session.Err? {
        return Err(session.error), rounds;
      }
      var rest := DecodeSessions(p, session.value.1, count - i - 1);
      assert rest.Ok? ==>
          sessions + ([session.value.0] + rest.value.0) == (sessions + [session.value.0]) + rest.value.0;
      sessions := sessions + [session.value.0];
      offset := session.value.1;
    }
    assert sessions + [] == sessions;
    r := Ok((sessions, offset));
  }

  method EncodeSessionsLoop(sessions: seq<SessionRecord>) returns (encoded: Bytes)
    ensures encoded == U32(|sessions|) + EncodeSessions(sessions)
  {
    hide EncodeSession, U32;
    encoded := U32(|sessions|);
    for i := 0 to |sessions|
      invariant encoded + EncodeSessions(sessions[i..]) == U32(|sessions|) + EncodeSessions(sessions)
    {
      var record := EncodeSession(sessions[i]);
      assert sessions[i..][1..] == sessions[i + 1..];
      assert encoded + EncodeSessions(sessions[i..]) == (encoded + record) + EncodeSessions(sessions[i + 1..]);
      encoded := encoded + record;
    }
  }

  /** A declared count that the payload cannot hold is rejected: the list is never longer than its bytes allow. */
  lemma CountIsBounded(p: Bytes, o: nat)
    ensures DecodeStringList(p, o).Ok? ==> HEADER_SIZE * (1 + |DecodeStringList(p, o).value.0|) <= |p| - o
    ensures DecodeSnapshot(p, o).Ok? ==> 3 * HEADER_SIZE * |DecodeSnapshot(p, o).value.0.sessions| <= |p| - o
  {
    hide DecodeText, DecodeBool, DecodeCount;
    if DecodeSnapshot(p, o).Ok? {
      var o1 := DecodeText(p, o).value.1;
      TextAdvances(p, o);
      BoolInside(p, o1);
      CountInside(p, o1 + 1);
    }
  }

  lemma BoolInside(p: Bytes, o: nat)
    ensures DecodeBool(p, o).Ok? ==> DecodeBool(p, o).value.1 == o + 1 <= |p|
  {
  }

  lemma CountInside(p: Bytes, o: nat)
    ensures var r := DecodeCount(p, o, "truncated active session list length");
            r.Ok? ==> r.value.1 == o + HEADER_SIZE <= |p|
  {
  }
}
