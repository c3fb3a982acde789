/** Sending a list of messages and reading them back through any chunking of the bytes. */
module MessageStream {
  import opened Utf8
  import opened Wrappers
  import opened Framing
  import FrameReader
  import G = GreeterProtocol
  import GreeterCodecProofs
  import W = PamWorkerProtocol

  predicate Sendable(m: G.Message) {
    G.WellFormed(m) && G.EncodeMessage(m).Ok?
  }

  function FrameOf(m: G.Message): Bytes
    requires Sendable(m)
  {
    G.EncodeMessage(m).value
  }

  function Frames(messages: seq<G.Message>): (frames: seq<Bytes>)
    requires forall m | m in messages :: Sendable(m)
    ensures |frames| == |messages|
    ensures forall i | 0 <= i < |messages| :: messages[i] in messages && frames[i] == FrameOf(messages[i])
  {
    if messages == [] then [] else [FrameOf(messages[0])] + Frames(messages[1..])
  }

  /**
   * Every sendable list of messages is received complete, in order and unchanged, before end of file, by
   * both readers of the protocol: the daemon's, which names an error for a cut header, and the greeter's,
   * which names none and so does not notice if a last header is cut.
   */
  lemma SentIsReceived(messages: seq<G.Message>, tail: Bytes, truncated: Option<string>)
    requires forall m | m in messages :: Sendable(m)
    requires FrameReader.CleanTail(tail, truncated)
    ensures var (frames, end) := FrameReader.ReadAll(FrameReader.Concat(Frames(messages)) + tail, truncated);
            && end == FrameReader.Closed
            && |frames| == |messages|
            && forall i | 0 <= i < |messages| :: G.DecodeMessage(frames[i]) == Ok(messages[i])
  {
    hide G.EncodeMessage, G.DecodeMessage, G.WellFormed, FrameReader.ReadAll;
    var frames := Frames(messages);
    forall i | 0 <= i < |messages|
      ensures G.DecodeMessage(frames[i]) == Ok(messages[i]) && FrameReader.IsFrame(frames[i])
    {
      assert messages[i] in messages;
      GreeterCodecProofs.RoundTrip(messages[i], frames[i]);
      EncodedIsFrame(messages[i]);
    }
    FramesAreReceived(frames, tail, truncated);
  }

  lemma FramesAreReceived(frames: seq<Bytes>, tail: Bytes, truncated: Option<string>)
    requires forall i | 0 <= i < |frames| :: FrameReader.IsFrame(frames[i])
    requires FrameReader.CleanTail(tail, truncated)
    ensures FrameReader.ReadAll(FrameReader.Concat(frames) + tail, truncated) == (frames, FrameReader.Closed)
  {
    hide FrameReader.ReadAll, FrameReader.IsFrame;
    var stream := FrameReader.Concat(frames) + tail;
    assert stream[|FrameReader.Concat(frames)|..] == tail;
    FrameReader.ReassemblesExactly(stream, frames, truncated);
  }

  lemma EncodedIsFrame(m: G.Message)
    requires G.EncodeMessage(m).Ok?
    ensures FrameReader.IsFrame(G.EncodeMessage(m).value)
  {
    hide G.Body, G.Packable;
    FrameRoundTrip(G.EncodeMessage(m).value, G.Body(m));
  }

  // ---------- the PAM worker's protocol ----------

  function WorkerFrames(messages: seq<W.Message>): (frames: seq<Bytes>)
    requires forall m | m in messages :: W.Encode(m).Ok?
    ensures |frames| == |messages|
    ensures forall i | 0 <= i < |messages| :: messages[i] in messages && W.Encode(messages[i]) == Ok(frames[i])
  {
    if messages == [] then [] else [W.Encode(messages[0]).value] + WorkerFrames(messages[1..])
  }

  /**
   * The same between daemon and PAM worker: every list of messages that encode is received complete, in
   * order and unchanged. Both of its readers name an error for a cut header.
   */
  lemma WorkerSentIsReceived(messages: seq<W.Message>, tail: Bytes, truncated: string)
    requires forall m | m in messages :: W.Encode(m).Ok?
    requires FrameReader.CleanTail(tail, Some(truncated))
    ensures var (frames, end) := FrameReader.ReadAll(FrameReader.Concat(WorkerFrames(messages)) + tail, Some(truncated));
            && end == FrameReader.Closed
            && |frames| == |messages|
            && forall i | 0 <= i < |messages| :: W.Decode(frames[i]) == Ok(messages[i])
  {
    hide W.Encode, W.Decode, FrameReader.ReadAll, FrameReader.IsFrame;
    var frames := WorkerFrames(messages);
    forall i | 0 <= i < |messages|
      ensures W.Decode(frames[i]) == Ok(messages[i]) && FrameReader.IsFrame(frames[i])
    {
      W.EncoderInvertsDecoder(messages[i], frames[i]);
      WorkerFrameIsFrame(messages[i], frames[i]);
    }
    FramesAreReceived(frames, tail, Some(truncated));
  }

  lemma WorkerFrameIsFrame(m: W.Message, frame: Bytes)
    requires W.Encode(m) == Ok(frame)
    ensures FrameReader.IsFrame(frame)
  {
    hide W.Body, W.Packable;
    FrameRoundTrip(frame, W.Body(m));
  }
}
