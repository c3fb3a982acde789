/**
 * Reassembling frames from a byte stream: the blocking socket reader, the asyncio reader, and the
 * proof that both depend on the bytes alone, never on how they were cut into chunks.
 */
module FrameReader {
  import opened Utf8
  import opened Wrappers
  import opened Framing

  function Concat(chunks: seq<Bytes>): Bytes {
    if chunks == [] then [] else chunks[0] + Concat(chunks[1..])
  }

  // ---------- what a reader makes of a byte stream ----------

  /** `_recv_exact`: all `size` bytes, fewer at the end of the stream, `None` for none at all. */
  function Exactly(stream: Bytes, size: nat): (Option<Bytes>, Bytes) {
    if size <= |stream| then (Some(stream[..size]), stream[size..])
    else if stream == [] then (None, [])
    else (Some(stream), [])
  }

  type Frame = Result<Option<Bytes>, Error>

  /** Result of `read_frame_socket` on `stream`, and the bytes left unread. */
  function SocketFrame(stream: Bytes, truncated: Option<string>): (Frame, Bytes) {
    var (header, rest) := Exactly(stream, HEADER_SIZE);
    match header
    case None => (Ok(None), rest)
    case Some(h) =>
      if |h| != HEADER_SIZE then
        (if truncated.Some? then Err(ProtocolError(truncated.value)) else Ok(None), rest)
      else
        var bodyLength := ReadU32(h);
        if bodyLength > MAX_FRAME_BODY_LENGTH then (Err(ProtocolError("protocol frame body is too large")), rest)
        else
          var (body, rest') := Exactly(rest, bodyLength);
          if body.None? || |body.value| != bodyLength then
            (Err(ProtocolError("truncated protocol frame body")), rest')
          else (Ok(Some(h + body.value)), rest')
  }

  /** Result of `read_frame_async` on `stream`, and the bytes left unread. */
  function AsyncFrame(stream: Bytes, truncated: string): (Frame, Bytes) {
    if |stream| < HEADER_SIZE then
      (if stream == [] then Ok(None) else Err(ProtocolError(truncated)), [])
    else
      var bodyLength := ReadU32(stream[..HEADER_SIZE]);
      var rest := stream[HEADER_SIZE..];
      if bodyLength > MAX_FRAME_BODY_LENGTH then (Err(ProtocolError("protocol frame body is too large")), rest)
      else if |rest| < bodyLength then (Err(ProtocolError("truncated protocol frame body")), [])
      else (Ok(Some(stream[..HEADER_SIZE] + rest[..bodyLength])), rest[bodyLength..])
  }

  /** The two readers agree on every stream, given the same message for a truncated header. */
  lemma ReadersAgree(stream: Bytes, truncated: string)
    ensures SocketFrame(stream, Some(truncated)) == AsyncFrame(stream, truncated)
  {
    BoundedExactly(stream);
  }

  /** Without that message they differ on exactly the streams that end inside a header. */
  lemma ReadersAgreeUnlessHeaderCut(stream: Bytes, truncated: string)
    ensures SocketFrame(stream, None) == AsyncFrame(stream, truncated) <==> !(0 < |stream| < HEADER_SIZE)
  {
    BoundedExactly(stream);
  }

  lemma BoundedExactly(stream: Bytes)
    ensures |stream| >= HEADER_SIZE ==>
              forall n: nat :: var (body, _) := Exactly(stream[HEADER_SIZE..], n);
                (body.Some? && |body.value| == n) <==> n <= |stream| - HEADER_SIZE
  {
  }

  // ---------- the readers as the source runs them ----------

  /** A connected socket: the chunks the peer's writes will arrive in, then end of file. */
  class Socket {
    var chunks: seq<Bytes>

    ghost predicate Valid()
      reads this
    {
      forall c | c in chunks :: c != []
    }

    ghost function Stream(): Bytes
      reads this
    {
      Concat(chunks)
    }

    constructor (chunks: seq<Bytes>)
      requires forall c | c in chunks :: c != []
      ensures Valid() && Stream() == Concat(chunks)
    {
      this.chunks := chunks;
    }

    /** One `recv`: at least one byte unless the stream has ended, at most `size`, in order. */
    method Recv(size: nat) returns (data: Bytes)
      requires Valid() && size > 0
      modifies this
      ensures Valid()
      ensures data + Stream() == old(Stream())
      ensures |data| <= size
      ensures data == [] <==> old(Stream()) == []
    {
      if chunks == [] {
        return [];
      }
      var head, tail := chunks[0], chunks[1..];
      assert head in chunks && forall c | c in tail :: c in chunks;
      if |head| <= size {
        data, chunks := head, tail;
      } else {
        data, chunks := head[..size], [head[size..]] + tail;
        assert ([head[size..]] + tail)[1..] == tail;
      }
    }
  }

  method RecvExact(sock: Socket, size: nat) returns (r: Option<Bytes>)
    requires sock.Valid()
    modifies sock
    ensures sock.Valid()
    ensures (r, sock.Stream()) == Exactly(old(sock.Stream()), size)
  {
    var chunks: Bytes := [];
    while |chunks| < size
      invariant sock.Valid()
      invariant |chunks| <= size
      invariant chunks + sock.Stream() == old(sock.Stream())
      decreases size - |chunks|
    {
      ghost var before := sock.Stream();
      var chunk := sock.Recv(size - |chunks|);
      if chunk == [] {
        assert chunks + [] == chunks;
        if chunks == [] {
          return None;
        }
        return Some(chunks);
      }
      assert chunks + before == (chunks + chunk) + sock.Stream();
      chunks := chunks + chunk;
    }
    r := Some(chunks);
  }

  method ReadFrameSocket(sock: Socket, truncated: Option<string>) returns (r: Frame)
    requires sock.Valid()
    modifies sock
    ensures sock.Valid()
    ensures (r, sock.Stream()) == SocketFrame(old(sock.Stream()), truncated)
  {
    var header := RecvExact(sock, HEADER_SIZE);
    if header.None? {
      return Ok(None);
    }
    if |header.value| != HEADER_SIZE {
      if truncated.Some? {
        return Err(ProtocolError(truncated.value));
      }
      return Ok(None);
    }
    var bodyLength := ReadU32(header.value);
    if bodyLength > MAX_FRAME_BODY_LENGTH {
      return Err(ProtocolError("protocol frame body is too large"));
    }
    var body := RecvExact(sock, bodyLength);
    if body.None? || |body.value| != bodyLength {
      return Err(ProtocolError("truncated protocol frame body"));
    }
    r := Ok(Some(header.value + body.value));
  }

  /** asyncio's reader: everything the peer will send before closing. */
  class StreamReader {
    var stream: Bytes

    constructor (stream: Bytes)
      ensures this.stream == stream
    {
      this.stream := stream;
    }

    /** `readexactly`: on `IncompleteReadError` the partial data is consumed as well. */
    method ReadExactly(size: nat) returns (complete: bool, data: Bytes)
      modifies this
      ensures complete == (size <= |old(stream)|)
      ensures complete ==> data == old(stream)[..size] && stream == old(stream)[size..]
      ensures !complete ==> data == old(stream) && stream == []
    {
      if size <= |stream| {
        complete, data, stream := true, stream[..size], stream[size..];
      } else {
        complete, data, stream := false, stream, [];
      }
    }
  }

  method ReadFrameAsync(reader: StreamReader, truncated: string) returns (r: Frame)
    modifies reader
    ensures (r, reader.stream) == AsyncFrame(old(reader.stream), truncated)
  {
    var complete, header := reader.ReadExactly(HEADER_SIZE);
    if !complete {
      if header == [] {
        return Ok(None);
      }
      return Err(ProtocolError(truncated));
    }
    var bodyLength := ReadU32(header);
    if bodyLength > MAX_FRAME_BODY_LENGTH {
      return Err(ProtocolError("protocol frame body is too large"));
    }
    var body;
    complete, body := reader.ReadExactly(bodyLength);
    if !complete {
      return Err(ProtocolError("truncated protocol frame body"));
    }
    r := Ok(Some(header + body));
  }

  // ---------- whole streams ----------

  predicate IsFrame(frame: Bytes) {
    FramePayload(frame).Ok?
  }

  lemma FirstFrame(frame: Bytes, rest: Bytes, truncated: Option<string>)
    requires IsFrame(frame)
    ensures SocketFrame(frame + rest, truncated) == (Ok(Some(frame)), rest)
  {
    var stream := frame + rest;
    assert stream[..HEADER_SIZE] == frame[..HEADER_SIZE];
    var after := stream[HEADER_SIZE..];
    assert after == frame[HEADER_SIZE..] + rest;
    var n := |frame| - HEADER_SIZE;
    assert after[..n] == frame[HEADER_SIZE..] && after[n..] == rest;
    assert frame == frame[..HEADER_SIZE] + frame[HEADER_SIZE..];
  }

  lemma FrameRead(stream: Bytes, truncated: Option<string>)
    requires SocketFrame(stream, truncated).0.Ok? && SocketFrame(stream, truncated).0.value.Some?
    ensures var (r, rest) := SocketFrame(stream, truncated);
            IsFrame(r.value.value) && stream == r.value.value + rest && |rest| < |stream|
  {
    var (r, rest) := SocketFrame(stream, truncated);
    var frame := r.value.value;
    assert frame[..HEADER_SIZE] == stream[..HEADER_SIZE];
    assert stream == frame + rest;
  }

  /** How a sequence of reads ends: end of file or the error of the last read. */
  datatype End = Closed | Broken(error: Error)

  /** Reading frame after frame until the end of the stream or an error. */
  function ReadAll(stream: Bytes, truncated: Option<string>): (seq<Bytes>, End)
    decreases |stream|
  {
    match SocketFrame(stream, truncated).0
    case Err(e) => ([], Broken(e))
    case Ok(None) => ([], Closed)
    case Ok(Some(frame)) =>
      FrameRead(stream, truncated);
      var (frames, end) := ReadAll(SocketFrame(stream, truncated).1, truncated);
      ([frame] + frames, end)
  }

  /**
   * What may follow the last frame of a stream that reads cleanly: nothing, or, for a reader that is
   * given no message for a truncated header, the beginning of a header.
   */
  predicate CleanTail(tail: Bytes, truncated: Option<string>) {
    tail == [] || (truncated.None? && |tail| < HEADER_SIZE)
  }

  /** The stream consists of these frames and a clean tail. */
  predicate MadeOf(stream: Bytes, frames: seq<Bytes>, truncated: Option<string>) {
    && (forall f | f in frames :: IsFrame(f))
    && Concat(frames) <= stream && CleanTail(stream[|Concat(frames)|..], truncated)
  }

  /**
   * Repeated reads give certain frames in order and then end of file on exactly those streams that are
   * made of these frames: no byte is lost or invented, and only a cut header may pass unnoticed, only by
   * a reader without a message for it.
   */
  lemma {:induction false} ReassemblesExactly(stream: Bytes, frames: seq<Bytes>, truncated: Option<string>)
    ensures ReadAll(stream, truncated) == (frames, Closed) <==> MadeOf(stream, frames, truncated)
    decreases frames
  {
    hide SocketFrame, IsFrame;
    if frames != [] {
      var first, others := frames[0], frames[1..];
      assert frames == [first] + others;
      if MadeOf(stream, frames, truncated) {
        var rest := stream[|first|..];
        assert stream == first + rest;
        assert rest[|Concat(others)|..] == stream[|Concat(frames)|..];
        assert stream[..|Concat(frames)|] == first + rest[..|Concat(others)|];
        assert Concat(others) <= rest;
        FirstFrame(first, rest, truncated);
        ReassemblesExactly(rest, others, truncated);
      }
      if ReadAll(stream, truncated) == (frames, Closed) {
        FrameRead(stream, truncated);
        var rest := SocketFrame(stream, truncated).1;
        ReassemblesExactly(rest, others, truncated);
        assert stream == first + rest;
        assert rest[|Concat(others)|..] == stream[|Concat(frames)|..];
      }
    } else {
      assert stream[0..] == stream;
      CleanEnd(stream, truncated);
    }
  }

  lemma CleanEnd(stream: Bytes, truncated: Option<string>)
    ensures SocketFrame(stream, truncated).0 == Ok(None) <==> CleanTail(stream, truncated)
  {
  }

  function After(frames: seq<Bytes>, stream: Bytes, truncated: Option<string>): (seq<Bytes>, End) {
    (frames + ReadAll(stream, truncated).0, ReadAll(stream, truncated).1)
  }

  lemma OneMoreRead(frames: seq<Bytes>, stream: Bytes, truncated: Option<string>)
    ensures match SocketFrame(stream, truncated).0
            case Err(e) => After(frames, stream, truncated) == (frames, Broken(e))
            case Ok(None) => After(frames, stream, truncated) == (frames, Closed)
            case Ok(Some(frame)) =>
              var rest := SocketFrame(stream, truncated).1;
              |rest| < |stream| && After(frames, stream, truncated) == After(frames + [frame], rest, truncated)
  {
    hide SocketFrame;
    match SocketFrame(stream, truncated).0
    case Ok(Some(frame)) =>
      var rest := SocketFrame(stream, truncated).1;
      FrameRead(stream, truncated);
      assert frames + ([frame] + ReadAll(rest, truncated).0) == (frames + [frame]) + ReadAll(rest, truncated).0;
    case _ =>
      assert frames + [] == frames;
  }

  /** A client's read loop: whatever the chunking, it collects exactly the frames of the byte stream. */
  method ReadFrames(sock: Socket, truncated: Option<string>) returns (frames: seq<Bytes>, end: End)
    requires sock.Valid()
    modifies sock
    ensures (frames, end) == ReadAll(old(sock.Stream()), truncated)
  {
    hide SocketFrame, ReadAll, Concat;
    frames := [];
    ghost var all := ReadAll(sock.Stream(), truncated);
    assert [] + all.0 == all.0;
    while true
      invariant sock.Valid()
      invariant After(frames, sock.Stream(), truncated) == all
      decreases |sock.Stream()|
    {
      OneMoreRead(frames, sock.Stream(), truncated);
      var r := ReadFrameSocket(sock, truncated);
      match r {
        case Err(e) => return frames, Broken(e);
        case Ok(None) => return frames, Closed;
        case Ok(Some(frame)) => frames := frames + [frame];
      }
    }
  }
}
