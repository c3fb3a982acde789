/**
 * The fields and frames shared by both wire protocols: big-endian 32-bit lengths, length-prefixed
 * blobs and texts, booleans, signed integers, and the length-prefixed frame around a body.
 */
module Framing {
  import opened Utf8
  import opened Wrappers

  const HEADER_SIZE := 4
  const U32_LIMIT := 0x1_0000_0000
  const MAX_FRAME_BODY_LENGTH := 2048

  /** `ProtocolError` of either protocol, or the `struct.error` of an integer that does not fit. */
  datatype Error = ProtocolError(message: string) | StructError

  /** A decoder's result: the value and the offset just after it. */
  type Decoded<T> = Result<(T, nat), Error>

  // ---------- integers ----------

  /** `n` modulo 256 to the power `width`, most significant byte first. */
  function BigEndian(n: nat, width: nat): (r: Bytes)
    ensures |r| == width
  {
    if width == 0 then [] else BigEndian(n / 256, width - 1) + [n % 256]
  }

  function Value(b: Bytes): nat {
    if b == [] then 0 else Value(b[..|b| - 1]) * 256 + b[|b| - 1]
  }

  function Pow256(width: nat): (r: nat)
    ensures r > 0
  {
    if width == 0 then 1 else Pow256(width - 1) * 256
  }

  lemma {:induction false} ValueBigEndian(n: nat, width: nat)
    requires n < Pow256(width)
    ensures Value(BigEndian(n, width)) == n
  {
    if width > 0 {
      ValueBigEndian(n / 256, width - 1);
      assert BigEndian(n, width)[..width - 1] == BigEndian(n / 256, width - 1);
    }
  }

  lemma {:induction false} BigEndianValue(b: Bytes)
    ensures Value(b) < Pow256(|b|)
    ensures BigEndian(Value(b), |b|) == b
  {
    if b != [] {
      BigEndianValue(b[..|b| - 1]);
      assert b == b[..|b| - 1] + [b[|b| - 1]];
    }
  }

  lemma Pow256Of4()
    ensures Pow256(HEADER_SIZE) == U32_LIMIT
  {
    assert Pow256(2) == 65536;
    assert Pow256(3) == 65536 * 256;
  }

  /** `struct.pack("!I", n)`; callers check `n < U32_LIMIT` first. */
  function U32(n: nat): (r: Bytes)
    ensures |r| == HEADER_SIZE
  {
    BigEndian(n, HEADER_SIZE)
  }

  function ReadU32(b: Bytes): (n: nat)
    requires |b| == HEADER_SIZE
    ensures n < U32_LIMIT
    ensures U32(n) == b
  {
    BigEndianValue(b);
    Pow256Of4();
    Value(b)
  }

  lemma ReadU32Inverts(n: nat)
    requires n < U32_LIMIT
    ensures ReadU32(U32(n)) == n
  {
    Pow256Of4();
    ValueBigEndian(n, HEADER_SIZE);
  }

  predicate FitsI32(v: int) {
    -0x8000_0000 <= v < 0x8000_0000
  }

  function I32(v: int): Bytes {
    if v < 0 then U32((v + U32_LIMIT) % U32_LIMIT) else U32(v)
  }

  function ReadI32(b: Bytes): (v: int)
    requires |b| == HEADER_SIZE
    ensures FitsI32(v)
    ensures I32(v) == b
  {
    var n := ReadU32(b);
    if n < 0x8000_0000 then n else n - U32_LIMIT
  }

  lemma ReadI32Inverts(v: int)
    requires FitsI32(v)
    ensures ReadI32(I32(v)) == v
  {
    ReadU32Inverts(if v < 0 then v + U32_LIMIT else v);
  }

  // ---------- where encoded bytes sit inside a payload ----------

  /** `s` stands in `p` at offset `o`. */
  predicate At(p: Bytes, o: nat, s: Bytes) {
    o + |s| <= |p| && p[o..o + |s|] == s
  }

  lemma AtSplit(p: Bytes, o: nat, a: Bytes, b: Bytes)
    ensures At(p, o, a + b) <==> At(p, o, a) && At(p, o + |a|, b)
  {
    if At(p, o, a + b) {
      assert p[o..o + |a|] == p[o..o + |a + b|][..|a|] == a;
      assert p[o + |a|..o + |a| + |b|] == p[o..o + |a + b|][|a|..] == b;
    }
    if At(p, o, a) && At(p, o + |a|, b) {
      assert p[o..o + |a + b|] == p[o..o + |a|] + p[o + |a|..o + |a| + |b|];
    }
  }

  /** As `At`, except that at the offsets in `bools` a 1 of `s` may stand for any nonzero byte. */
  ghost predicate AtUpTo(p: Bytes, o: nat, s: Bytes, bools: set<nat>) {
    && o + |s| <= |p|
    && forall k {:trigger s[k]} | 0 <= k < |s| ::
      s[k] == p[o + k] || (o + k in bools && s[k] == 1 && p[o + k] != 0)
  }

  lemma AtUpToSplit(p: Bytes, o: nat, a: Bytes, b: Bytes, bools: set<nat>)
    ensures AtUpTo(p, o, a + b, bools) <==> AtUpTo(p, o, a, bools) && AtUpTo(p, o + |a|, b, bools)
  {
    var ab := a + b;
    if AtUpTo(p, o, ab, bools) {
      assert forall k {:trigger a[k]} | 0 <= k < |a| :: a[k] == ab[k];
      assert forall k {:trigger b[k]} | 0 <= k < |b| :: b[k] == ab[|a| + k];
    }
  }

  /** Only the offsets of `bools` that `s` covers matter. */
  lemma AtUpToWithin(p: Bytes, o: nat, s: Bytes, bools: set<nat>, others: set<nat>)
    requires forall x | o <= x < o + |s| :: x in bools <==> x in others
    ensures AtUpTo(p, o, s, bools) <==> AtUpTo(p, o, s, others)
  {
  }

  lemma AtIsExact(p: Bytes, o: nat, s: Bytes, bools: set<nat>)
    requires forall x | x in bools :: !(o <= x < o + |s|)
    ensures At(p, o, s) <==> AtUpTo(p, o, s, bools)
  {
    if At(p, o, s) {
      assert forall k {:trigger s[k]} | 0 <= k < |s| :: s[k] == p[o..o + |s|][k];
    }
  }

  // ---------- fields ----------

  function EncodeBool(value: bool): Bytes {
    [if value then 1 else 0]
  }

  function DecodeBool(p: Bytes, o: nat): (r: Decoded<bool>)
    ensures r.Ok? ==> r.value.1 == o + 1 <= |p|
  {
    if o >= |p| then Err(ProtocolError("truncated boolean field")) else Ok((p[o] != 0, o + 1))
  }

  function EncodeBlob(data: Bytes): Bytes {
    U32(|data|) + data
  }

  function DecodeBlob(p: Bytes, o: nat): (r: Decoded<Bytes>)
    ensures r.Ok? ==> o + HEADER_SIZE <= r.value.1 <= |p|
  {
    if o + HEADER_SIZE > |p| then Err(ProtocolError("truncated length-prefixed field"))
    else
      var size := ReadU32(p[o..o + HEADER_SIZE]);
      var start := o + HEADER_SIZE;
      if start + size > |p| then Err(ProtocolError("truncated protocol field data"))
      else Ok((p[start..start + size], start + size))
  }

  function EncodeText(value: string): Bytes {
    EncodeBlob(Utf8.Encode(value))
  }

  function DecodeText(p: Bytes, o: nat): (r: Decoded<string>)
    ensures r.Ok? ==> o + HEADER_SIZE <= r.value.1 <= |p|
  {
    var (data, next) :- DecodeBlob(p, o);
    match Utf8.Decode(data)
    case Some(text) => Ok((text, next))
    case None => Err(ProtocolError("invalid utf-8 in protocol field"))
  }

  function DecodeSignedInt(p: Bytes, o: nat): (r: Decoded<int>)
    ensures r.Ok? ==> r.value.1 == o + HEADER_SIZE <= |p|
  {
    if o + HEADER_SIZE > |p| then Err(ProtocolError("truncated signed integer field"))
    else Ok((ReadI32(p[o..o + HEADER_SIZE]), o + HEADER_SIZE))
  }

  /** Lengths for which the source's packing of a text field does not raise `struct.error`. */
  predicate FitsText(value: string) {
    |Utf8.Encode(value)| < U32_LIMIT
  }

  /** The decoder result `r` is the value `x`. */
  ghost predicate Yields<T(!new)>(r: Decoded<T>, x: T) {
    r.Ok? && r.value.0 == x
  }

  lemma BlobDecodes(p: Bytes, o: nat, data: Bytes)
    ensures Yields(DecodeBlob(p, o), data) <==> |data| < U32_LIMIT && At(p, o, EncodeBlob(data))
    ensures Yields(DecodeBlob(p, o), data) ==> DecodeBlob(p, o).value.1 == o + |EncodeBlob(data)|
  {
    AtSplit(p, o, U32(|data|), data);
    if |data| < U32_LIMIT {
      ReadU32Inverts(|data|);
    }
  }

  /** A text is read exactly where its encoding stands, and the offset moves past that encoding. */
  lemma TextDecodes(p: Bytes, o: nat, value: string)
    ensures Yields(DecodeText(p, o), value) <==> FitsText(value) && At(p, o, EncodeText(value))
    ensures Yields(DecodeText(p, o), value) ==> DecodeText(p, o).value.1 == o + |EncodeText(value)|
  {
    BlobDecodes(p, o, Utf8.Encode(value));
    Utf8.DecodeEncode(value);
    if DecodeText(p, o).Ok? {
      Utf8.EncodeDecode(DecodeBlob(p, o).value.0);
    }
  }

  lemma TwoTextsDecode(p: Bytes, o: nat, a: string, b: string)
    ensures var next := o + |EncodeText(a)|;
            && (FitsText(a) && FitsText(b) && At(p, o, EncodeText(a) + EncodeText(b))
                <==> Yields(DecodeText(p, o), a) && Yields(DecodeText(p, next), b))
            && (Yields(DecodeText(p, o), a) ==> DecodeText(p, o).value.1 == next)
            && (Yields(DecodeText(p, next), b) ==> DecodeText(p, next).value.1 == next + |EncodeText(b)|)
  {
    hide DecodeText, EncodeText, FitsText, At;
    AtSplit(p, o, EncodeText(a), EncodeText(b));
    TextDecodes(p, o, a);
    TextDecodes(p, o + |EncodeText(a)|, b);
  }

  /** A boolean is read from 0 or, when true, from any nonzero byte. */
  lemma BoolDecodes(p: Bytes, o: nat, value: bool)
    ensures Yields(DecodeBool(p, o), value) <==> AtUpTo(p, o, EncodeBool(value), {o})
  {
    if AtUpTo(p, o, EncodeBool(value), {o}) {
      assert EncodeBool(value)[0] == p[o + 0] || p[o + 0] != 0;
    }
  }

  lemma SignedIntDecodes(p: Bytes, o: nat, value: int)
    ensures Yields(DecodeSignedInt(p, o), value) <==> FitsI32(value) && At(p, o, I32(value))
  {
    if FitsI32(value) {
      ReadI32Inverts(value);
    }
  }

  // ---------- frames ----------

  function EncodeFrame(body: Bytes): Result<Bytes, Error> {
    if |body| > MAX_FRAME_BODY_LENGTH then Err(ProtocolError("protocol frame body is too large"))
    else Ok(U32(|body|) + body)
  }

  function FramePayload(frame: Bytes): Result<Bytes, Error> {
    if |frame| < HEADER_SIZE then Err(ProtocolError("truncated protocol frame"))
    else
      var bodyLength := ReadU32(frame[..HEADER_SIZE]);
      var body := frame[HEADER_SIZE..];
      if bodyLength > MAX_FRAME_BODY_LENGTH then Err(ProtocolError("protocol frame body is too large"))
      else if |body| != bodyLength then Err(ProtocolError("protocol frame length mismatch"))
      else Ok(body)
  }

  /** Frames and bodies within the limit correspond one to one. */
  lemma FrameRoundTrip(frame: Bytes, body: Bytes)
    ensures EncodeFrame(body) == Ok(frame) <==> FramePayload(frame) == Ok(body)
  {
    if EncodeFrame(body) == Ok(frame) {
      assert frame[..HEADER_SIZE] == U32(|body|);
      ReadU32Inverts(|body|);
    }
    if FramePayload(frame) == Ok(body) {
      assert frame == frame[..HEADER_SIZE] + frame[HEADER_SIZE..];
    }
  }
}
