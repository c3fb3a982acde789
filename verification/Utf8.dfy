/**
 * UTF-8 as Python's codec applies it to the text fields of the wire protocols: the strict decoder
 * used by every text field, and the `errors="replace"` decoder the daemon applies to usernames.
 * A Dafny `char` is a Unicode scalar value, so every `string` here can be encoded.
 */
module Utf8 {
  import opened Wrappers

  type Byte = b: int | 0 <= b < 256
  type Bytes = seq<Byte>

  const REPLACEMENT: char := '\U{FFFD}'

  function EncodeChar(c: char): (r: Bytes)
    ensures 1 <= |r| <= 4
  {
    EncodeValue(c as int)
  }

  function EncodeValue(n: int): (r: Bytes)
    requires 0 <= n < 0x110000
    ensures 1 <= |r| <= 4
    ensures |r| == LeadLength(r[0])
  {
    if n < 0x80 then [n]
    else if n < 0x800 then [0xC0 + n / 64, 0x80 + n % 64]
    else if n < 0x10000 then [0xE0 + n / 64 / 64, 0x80 + n / 64 % 64, 0x80 + n % 64]
    else [0xF0 + n / 64 / 64 / 64, 0x80 + n / 64 / 64 % 64, 0x80 + n / 64 % 64, 0x80 + n % 64]
  }

  function Encode(s: string): Bytes {
    if s == [] then [] else EncodeChar(s[0]) + Encode(s[1..])
  }

  predicate IsContinuation(b: Byte) {
    0x80 <= b < 0xC0
  }

  /** Number of bytes announced by a lead byte, 0 when no sequence may start with it. */
  function LeadLength(lead: Byte): nat {
    if lead < 0x80 then 1
    else if 0xC2 <= lead < 0xE0 then 2
    else if 0xE0 <= lead < 0xF0 then 3
    else if 0xF0 <= lead < 0xF5 then 4
    else 0
  }

  /** The second byte rules out overlong forms, surrogates and values past U+10FFFF. */
  predicate SecondOk(lead: Byte, second: Byte) {
    && IsContinuation(second)
    && (lead == 0xE0 ==> 0xA0 <= second)
    && (lead == 0xED ==> second < 0xA0)
    && (lead == 0xF0 ==> 0x90 <= second)
    && (lead == 0xF4 ==> second < 0x90)
  }

  /** Length of the longest prefix that could still begin a well-formed sequence (at least 1). */
  function GoodPrefix(b: Bytes): (n: nat)
    requires |b| > 0
    ensures 1 <= n <= |b|
    ensures n <= 4
  {
    var need := LeadLength(b[0]);
    if need < 2 || |b| < 2 || !SecondOk(b[0], b[1]) then 1
    else if need < 3 || |b| < 3 || !IsContinuation(b[2]) then 2
    else if need < 4 || |b| < 4 || !IsContinuation(b[3]) then 3
    else 4
  }

  /** Appends the six payload bits of one continuation byte to `high`. */
  function Join(high: int, continuation: Byte): (v: int)
    requires 0 <= high && IsContinuation(continuation)
    ensures v / 64 == high && 0x80 + v % 64 == continuation
  {
    high * 64 + (continuation - 0x80)
  }

  /** The value of the well-formed sequence `b` starts with. */
  function Scalar(b: Bytes): (v: int)
    requires |b| > 0 && LeadLength(b[0]) != 0 && GoodPrefix(b) == LeadLength(b[0])
    ensures 0 <= v < 0xD800 || 0xE000 <= v < 0x110000
    ensures EncodeValue(v) == b[..LeadLength(b[0])]
  {
    var n := LeadLength(b[0]);
    if n == 1 then b[0]
    else if n == 2 then Join(b[0] - 0xC0, b[1])
    else if n == 3 then Join(Join(b[0] - 0xE0, b[1]), b[2])
    else Join(Join(Join(b[0] - 0xF0, b[1]), b[2]), b[3])
  }

  /** First character of `b` and its length in bytes; `None` where the strict decoder raises. */
  function DecodeFirst(b: Bytes): (r: Option<(char, nat)>)
    requires |b| > 0
    ensures r.Some? ==> 1 <= r.value.1 <= |b| && b[..r.value.1] == EncodeChar(r.value.0)
  {
    if LeadLength(b[0]) != 0 && GoodPrefix(b) == LeadLength(b[0]) then
      Some((Scalar(b) as char, LeadLength(b[0])))
    else None
  }

  function Decode(b: Bytes): Option<string> {
    if b == [] then Some([])
    else
      var (c, n) :- DecodeFirst(b);
      var rest :- Decode(b[n..]);
      Some([c] + rest)
  }

  /** `bytes.decode("utf-8", errors="replace")`: one U+FFFD for each maximal ill-formed part. */
  function DecodeReplace(b: Bytes): string {
    if b == [] then []
    else match DecodeFirst(b)
      case Some((c, n)) => [c] + DecodeReplace(b[n..])
      case None => [REPLACEMENT] + DecodeReplace(b[GoodPrefix(b)..])
  }

  lemma FirstOfEncoded(c: char, rest: Bytes)
    ensures DecodeFirst(EncodeChar(c) + rest) == Some((c, |EncodeChar(c)|))
  {
    var e := EncodeChar(c);
    var b := e + rest;
    assert forall i | 0 <= i < |e| :: b[i] == e[i];
    assert b[..|e|] == e;
    assert GoodPrefix(b) == |e|;
    EncodeValueInjective(c as int, Scalar(b));
  }

  lemma EncodeValueInjective(m: int, n: int)
    requires 0 <= m < 0x110000 && 0 <= n < 0x110000
    requires EncodeValue(m) == EncodeValue(n)
    ensures m == n
  {
    var a, b := EncodeValue(m), EncodeValue(n);
    assert a[0] == b[0] && |a| == |b|;
    if |a| >= 2 {
      assert a[1] == b[1];
    }
    if |a| >= 3 {
      assert a[2] == b[2];
    }
    if |a| == 4 {
      assert a[3] == b[3];
    }
  }

  /** Encoding then decoding gives back every text. */
  lemma {:induction false} DecodeEncode(s: string)
    ensures Decode(Encode(s)) == Some(s)
  {
    if s != [] {
      var e := EncodeChar(s[0]);
      FirstOfEncoded(s[0], Encode(s[1..]));
      assert Encode(s)[|e|..] == Encode(s[1..]);
      DecodeEncode(s[1..]);
      assert s == [s[0]] + s[1..];
    }
  }

  /** The strict decoder accepts only the canonical bytes: decoding then encoding is the identity. */
  lemma {:induction false} EncodeDecode(b: Bytes)
    requires Decode(b).Some?
    ensures Encode(Decode(b).value) == b
  {
    if b != [] {
      var (c, n) := DecodeFirst(b).value;
      EncodeDecode(b[n..]);
      var rest := Decode(b[n..]).value;
      assert ([c] + rest)[1..] == rest;
      assert b == b[..n] + b[n..];
    }
  }

  lemma {:induction false} EncodeLength(s: string)
    ensures |s| <= |Encode(s)| <= 4 * |s|
    ensures (forall c | c in s :: c < '\U{0080}') ==> |Encode(s)| == |s|
  {
    if s != [] {
      EncodeLength(s[1..]);
      assert s[0] in s && forall c | c in s[1..] :: c in s;
    }
  }

  /** On well-formed bytes the replacing decoder is the strict one. */
  lemma {:induction false} ReplaceIsStrictOnValid(b: Bytes)
    requires Decode(b).Some?
    ensures DecodeReplace(b) == Decode(b).value
  {
    if b != [] {
      ReplaceIsStrictOnValid(b[DecodeFirst(b).value.1..]);
    }
  }

  /** Replacement decoding makes a field at most three times as long on the wire. */
  lemma {:induction false} ReplaceGrowth(b: Bytes)
    ensures |Encode(DecodeReplace(b))| <= 3 * |b|
  {
    if b != [] {
      match DecodeFirst(b)
      case Some((c, n)) =>
          ReplaceGrowth(b[n..]);
        assert ([c] + DecodeReplace(b[n..]))[1..] == DecodeReplace(b[n..]);
      case None =>
        var n := GoodPrefix(b);
        ReplaceGrowth(b[n..]);
        assert |EncodeChar(REPLACEMENT)| == 3;
        assert ([REPLACEMENT] + DecodeReplace(b[n..]))[1..] == DecodeReplace(b[n..]);
    }
  }

  /** The bytes of a character: how many it takes, which range each is in, and what each contributes. */
  lemma CharBytes(c: char)
    ensures var n, r := c as int, EncodeChar(c);
            && (|r| == 1 <==> n < 0x80) && (|r| <= 2 <==> n < 0x800) && (|r| <= 3 <==> n < 0x1_0000) && |r| <= 4
            && (|r| == 1 ==> r[0] as int == n)
            && (|r| == 2 ==> 0xC0 <= r[0] < 0xE0 && n == (r[0] as int - 0xC0) * 0x40 + (r[1] as int - 0x80))
            && (|r| == 3 ==> 0xE0 <= r[0] < 0xF0
                             && n == (r[0] as int - 0xE0) * 0x1000 + (r[1] as int - 0x80) * 0x40 + (r[2] as int - 0x80))
            && (|r| == 4 ==> 0xF0 <= r[0] < 0xF8
                             && n == (r[0] as int - 0xF0) * 0x4_0000 + (r[1] as int - 0x80) * 0x1000
                                     + (r[2] as int - 0x80) * 0x40 + (r[3] as int - 0x80))
            && forall k | 1 <= k < |r| :: 0x80 <= r[k] < 0xC0
  {
  }

  lemma ReplaceFirst(c: char, tail: Bytes)
    ensures DecodeReplace(EncodeChar(c) + tail) == [c] + DecodeReplace(tail)
  {
    hide DecodeFirst, EncodeChar;
    var e := EncodeChar(c);
    FirstOfEncoded(c, tail);
    assert (e + tail)[|e|..] == tail;
  }

  /** Well-formed bytes are decoded as they are, whatever follows them. */
  lemma {:induction false} ReplaceKeeps(x: string, rest: Bytes)
    ensures DecodeReplace(Encode(x) + rest) == x + DecodeReplace(rest)
  {
    hide DecodeReplace, EncodeChar;
    if x == [] {
      assert Encode(x) + rest == rest;
    } else {
      var tail := Encode(x[1..]) + rest;
      assert Encode(x) + rest == EncodeChar(x[0]) + tail;
      ReplaceFirst(x[0], tail);
      ReplaceKeeps(x[1..], rest);
      assert x == [x[0]] + x[1..];
    }
  }

  /** A byte that nothing may start with becomes one U+FFFD, and the text around it survives. */
  lemma StrayByteReplaced(x: string, b: Byte, y: string)
    requires 0x80 <= b < 0xC2 || b >= 0xF5
    ensures DecodeReplace(Encode(x) + ([b] + Encode(y))) == x + ['\U{FFFD}'] + y
  {
    ReplaceKeeps(x, [b] + Encode(y));
    assert ([b] + Encode(y))[1..] == Encode(y);
    DecodeEncode(y);
    ReplaceIsStrictOnValid(Encode(y));
  }

  /** A sequence cut short before a byte that does not continue it is bad up to that byte. */
  lemma CutPrefix(e: Bytes, k: nat, rest: Bytes)
    requires |e| > 0 && GoodPrefix(e) == LeadLength(e[0]) == |e| && 1 <= k < |e| && k <= |rest| && rest[..k] == e[..k]
    requires |rest| > k ==> !IsContinuation(rest[k])
    ensures GoodPrefix(rest) == k && DecodeFirst(rest).None?
  {
    assert forall i | 0 <= i < k :: rest[i] == rest[..k][i] == e[i];
  }

  lemma EncodedLead(c: char)
    ensures var e := EncodeChar(c);
            GoodPrefix(e) == LeadLength(e[0]) == |e| && !IsContinuation(e[0])
  {
    FirstOfEncoded(c, []);
    assert EncodeChar(c) + [] == EncodeChar(c);
  }

  /** So does a character that was cut short, as a whole. */
  lemma CutCharReplaced(x: string, c: char, k: nat, y: string)
    requires 1 <= k < |EncodeChar(c)|
    ensures DecodeReplace(Encode(x) + (EncodeChar(c)[..k] + Encode(y))) == x + ['\U{FFFD}'] + y
  {
    hide EncodeChar, GoodPrefix, DecodeFirst, LeadLength;
    var e, rest := EncodeChar(c), EncodeChar(c)[..k] + Encode(y);
    ReplaceKeeps(x, rest);
    EncodedLead(c);
    if y != [] {
      EncodedLead(y[0]);
      assert rest[k] == Encode(y)[0] == EncodeChar(y[0])[0];
    }
    assert rest[..k] == e[..k];
    CutPrefix(e, k, rest);
    assert rest[k..] == Encode(y);
    DecodeEncode(y);
    ReplaceIsStrictOnValid(Encode(y));
  }
}
