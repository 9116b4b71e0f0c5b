/**
 Length-prefixed framing (rp-codec/src/length_prefixed.rs): a payload behind its length as an unsigned varint
 (multiformats unsigned-varint), and a reader that takes one frame after another from a stream.
 */
module Frames {
  import opened Base

  const U32_LIMIT: int := 0x1_0000_0000
  const MAX_PREFIX_LEN: nat := 5

  type u32 = x: int | 0 <= x < U32_LIMIT

  datatype FrameError = InvalidData | UnexpectedEof

  // ---------------------------------------------------------------- unsigned varints

  /** Seven bits a byte, low bits first; every byte but the last has its high bit set. */
  function Varint(n: nat): (r: Bytes) {
    if n < 128 then [n] else [n % 128 + 128] + Varint(n / 128)
  }

  datatype VarintError = Insufficient | TooLong | NotMinimal

  /** Read a u32 from byte `i` of a varint on: the value from there and the bytes it takes.  The fifth byte is
      shifted into the top four bits of the word, so its higher bits are lost. */
  function ReadVarint(s: Bytes, i: nat): (r: Result<(nat, nat), VarintError>)
    requires i < MAX_PREFIX_LEN
    ensures r.Ok? ==> 0 < r.value.1 <= |s| && i + r.value.1 <= MAX_PREFIX_LEN
    ensures r.Ok? ==> s[r.value.1 - 1] < 128 && forall j :: 0 <= j < r.value.1 - 1 ==> s[j] >= 128
    decreases |s|
  {
    if s == [] then Err(Insufficient)
    else if s[0] < 128 then
      if s[0] == 0 && i > 0 then Err(NotMinimal) else Ok((if i == 4 then s[0] % 16 else s[0], 1))
    else if i == 4 then Err(TooLong)
    else
      match ReadVarint(s[1..], i + 1)
      case Err(e) => Err(e)
      case Ok((n, len)) => Ok((s[0] - 128 + 128 * n, len + 1))
  }

  /** One more than the largest value that bytes `i` to 4 can add, in units of byte `i`. */
  function Limit(i: nat): (r: nat)
    requires i < MAX_PREFIX_LEN
    decreases MAX_PREFIX_LEN - i
  {
    if i == 4 then 16 else 128 * Limit(i + 1)
  }

  lemma LimitIsU32()
    ensures Limit(0) == U32_LIMIT
  {
    assert Limit(3) == 2048;
    assert Limit(1) == 128 * 128 * 2048;
  }

  lemma {:induction false} VarintRoundTrip(n: nat, i: nat, tail: Bytes)
    requires i < MAX_PREFIX_LEN && n < Limit(i) && (i > 0 ==> n > 0)
    ensures ReadVarint(Varint(n) + tail, i) == Ok((n, |Varint(n)|))
    ensures i + |Varint(n)| <= MAX_PREFIX_LEN
    decreases MAX_PREFIX_LEN - i
  {
    if n >= 128 {
      VarintRoundTrip(n / 128, i + 1, tail);
      assert (Varint(n) + tail)[1..] == Varint(n / 128) + tail;
    }
  }

  lemma VarintCons(b: byte, m: nat, x: Bytes)
    requires b >= 128 && x != []
    ensures [b] + x == Varint(b - 128 + 128 * m) <==> m > 0 && x == Varint(m)
  {
    var n := b - 128 + 128 * m;
    assert n / 128 == m && n % 128 == b - 128;
    assert ([b] + x)[1..] == x && ([b] + x)[0] == b;
    if m > 0 {
      assert ([b] + Varint(m))[1..] == Varint(m);
    } else {
      assert Varint(n) == [b - 128];
    }
  }

  /** A five-byte varint whose last byte fits in the four bits that are left. */
  predicate Lossless(s: Bytes, i: nat, len: nat)
    requires len <= |s| && i + len <= MAX_PREFIX_LEN && 0 < len
  {
    i + len == MAX_PREFIX_LEN ==> s[len - 1] < 16
  }

  lemma ReadVarintCons(s: Bytes, i: nat)
    requires i < MAX_PREFIX_LEN && ReadVarint(s, i).Ok? && s[0] >= 128
    ensures i + 1 < MAX_PREFIX_LEN && ReadVarint(s[1..], i + 1).Ok?
    ensures var (m, len) := ReadVarint(s[1..], i + 1).value; ReadVarint(s, i) == Ok((s[0] - 128 + 128 * m, len + 1))
  {
  }

  /** What is read is the varint of its value, exactly unless a fifth byte lost bits. */
  lemma {:induction false} VarintCanonical(s: Bytes, i: nat)
    requires i < MAX_PREFIX_LEN && ReadVarint(s, i).Ok?
    ensures var (n, len) := ReadVarint(s, i).value;
            && (i > 0 && Lossless(s, i, len) ==> n > 0)
            && (s[..len] == Varint(n) <==> Lossless(s, i, len))
    decreases |s|
  {
    hide Varint, ReadVarint;
    if s[0] < 128 {
      VarintLast(s, i);
    } else {
      ReadVarintCons(s, i);
      VarintCanonical(s[1..], i + 1);
      var (m, len) := ReadVarint(s[1..], i + 1).value;
      VarintCons(s[0], m, s[1..][..len]);
      assert s[..len + 1] == [s[0]] + s[1..][..len];
    }
  }

  lemma VarintLast(s: Bytes, i: nat)
    requires i < MAX_PREFIX_LEN && ReadVarint(s, i).Ok? && s[0] < 128
    ensures var (n, len) := ReadVarint(s, i).value;
            && len == 1 && (i > 0 && Lossless(s, i, len) ==> n > 0)
            && (s[..len] == Varint(n) <==> Lossless(s, i, len))
  {
    assert s[..1] == [s[0]];
  }

  /** A varint is read from its own bytes. */
  lemma {:induction false} VarintLocal(s: Bytes, i: nat, tail: Bytes)
    requires i < MAX_PREFIX_LEN && ReadVarint(s, i).Ok?
    ensures ReadVarint(s + tail, i) == ReadVarint(s, i)
    decreases |s|
  {
    assert (s + tail)[1..] == s[1..] + tail && (s + tail)[0] == s[0];
    if s[0] >= 128 {
      hide ReadVarint;
      ReadVarintCons(s, i);
      VarintLocal(s[1..], i + 1, tail);
      ReadVarintJoin(s + tail, i);
    }
  }

  lemma ReadVarintJoin(s: Bytes, i: nat)
    requires i + 1 < MAX_PREFIX_LEN && s != [] && s[0] >= 128 && ReadVarint(s[1..], i + 1).Ok?
    ensures var (m, len) := ReadVarint(s[1..], i + 1).value; ReadVarint(s, i) == Ok((s[0] - 128 + 128 * m, len + 1))
  {
  }

  /** Where the prefix ends: the first byte without a continuation bit. */
  function PrefixEnd(s: Bytes, i: nat): (r: Result<nat, FrameError>)
    ensures r.Ok? ==> i < r.value <= |s| && r.value <= MAX_PREFIX_LEN
    ensures r.Ok? ==> s[r.value - 1] < 128 && forall j :: i <= j < r.value - 1 ==> s[j] >= 128
    decreases MAX_PREFIX_LEN - i
  {
    if i >= MAX_PREFIX_LEN then Err(InvalidData)
    else if i >= |s| then Err(UnexpectedEof)
    else if s[i] < 128 then Ok(i + 1)
    else PrefixEnd(s, i + 1)
  }

  /** One turn of the loop of `read_length_prefixed_frame`. */
  lemma PrefixUnfolds(s: Bytes, i: nat)
    ensures i >= MAX_PREFIX_LEN ==> PrefixEnd(s, i) == Err(InvalidData)
    ensures |s| <= i < MAX_PREFIX_LEN ==> PrefixEnd(s, i) == Err(UnexpectedEof)
    ensures i < |s| && i < MAX_PREFIX_LEN ==> PrefixEnd(s, i) == if s[i] < 128 then Ok(i + 1) else PrefixEnd(s, i + 1)
  {
  }

  // ---------------------------------------------------------------- frames

  function EncodeLengthPrefixed(payload: Bytes, maxLen: u32): (r: Result<Bytes, FrameError>) {
    if |payload| > maxLen then Err(InvalidData) else Ok(Varint(|payload|) + payload)
  }

  function DecodePayloadLen(prefix: Bytes, maxLen: u32): (r: Result<nat, FrameError>) {
    match ReadVarint(prefix, 0)
    case Err(_) => Err(InvalidData)
    case Ok((n, _)) => if n > maxLen then Err(InvalidData) else Ok(n)
  }

  /** The header's length and the payload behind it. */
  function DecodeLengthPrefix(input: Bytes, maxLen: u32): (r: Result<(nat, Bytes), FrameError>) {
    match ReadVarint(input, 0)
    case Err(_) => Err(InvalidData)
    case Ok((n, header)) =>
      if n > maxLen then Err(InvalidData)
      else if |input| < header + n then Err(UnexpectedEof)
      else Ok((header, input[header..header + n]))
  }

  /** One frame, header included, and the stream after it. */
  function ReadFrame(s: Bytes, maxLen: u32): (r: Result<(Bytes, Bytes), FrameError>) {
    match PrefixEnd(s, 0)
    case Err(e) => Err(e)
    case Ok(k) =>
      match DecodePayloadLen(s[..k], maxLen)
      case Err(e) => Err(e)
      case Ok(n) => if |s| < k + n then Err(UnexpectedEof) else Ok((s[..k + n], s[k + n..]))
  }

  lemma Front(s: Bytes, k: nat, n: nat)
    requires k + n <= |s|
    ensures s[..k] + s[k..][..n] == s[..k + n] && s[k..][n..] == s[k + n..]
  {
  }

  /** `read_length_prefixed_frame`: byte by byte into a five-byte prefix, then the payload. */
  method ReadLengthPrefixedFrame(stream: Bytes, maxLen: u32) returns (r: Result<Bytes, FrameError>, rest: Bytes)
    ensures ReadFrame(stream, maxLen).Err? ==> r == Err(ReadFrame(stream, maxLen).error)
    ensures ReadFrame(stream, maxLen).Ok? ==> r == Ok(ReadFrame(stream, maxLen).value.0) && rest == ReadFrame(stream, maxLen).value.1
  {
    hide DecodePayloadLen, PrefixEnd;
    var prefix := new byte[5](_ => 0);
    var prefixLen := 0;
    rest := stream;
    while true
      invariant prefixLen <= 5 && prefixLen <= |stream| && rest == stream[prefixLen..]
      invariant prefix[..prefixLen] == stream[..prefixLen]
      invariant PrefixEnd(stream, prefixLen) == PrefixEnd(stream, 0)
      decreases 5 - prefixLen
    {
      PrefixUnfolds(stream, prefixLen);
      if prefixLen >= prefix.Length {
        return Err(InvalidData), rest;
      }
      if rest == [] {
        return Err(UnexpectedEof), rest;
      }
      prefix[prefixLen] := rest[0];
      rest := rest[1..];
      prefixLen := prefixLen + 1;
      if prefix[prefixLen - 1] < 128 {
        var header := prefix[..prefixLen];
        assert header == stream[..prefixLen];
        var payloadLen := DecodePayloadLen(header, maxLen);
        if payloadLen.Err? {
          return Err(payloadLen.error), rest;
        }
        if |rest| < payloadLen.value {
          return Err(UnexpectedEof), [];
        }
        var frame := header + rest[..payloadLen.value];
        Front(stream, prefixLen, payloadLen.value);
        return Ok(frame), rest[payloadLen.value..];
      }
    }
  }

  // ---------------------------------------------------------------- round trips

  lemma {:induction false} VarintEnds(n: nat, tail: Bytes, before: Bytes)
    requires |before| + |Varint(n)| <= MAX_PREFIX_LEN
    ensures PrefixEnd(before + Varint(n) + tail, |before|) == Ok(|before| + |Varint(n)|)
    decreases n
  {
    var s := before + Varint(n) + tail;
    if n >= 128 {
      var first: byte := n % 128 + 128;
      VarintEnds(n / 128, tail, before + [first]);
      assert s == before + [first] + Varint(n / 128) + tail;
    }
  }

  ghost function FrameOf(payload: Bytes): (r: Bytes) { Varint(|payload|) + payload }

  /** A frame at the front of any stream is read back exactly, and only its bytes are taken. */
  lemma FrameRoundTrip(payload: Bytes, maxLen: u32, tail: Bytes)
    requires |payload| <= maxLen
    ensures EncodeLengthPrefixed(payload, maxLen) == Ok(FrameOf(payload))
    ensures ReadFrame(FrameOf(payload) + tail, maxLen) == Ok((FrameOf(payload), tail))
    ensures DecodeLengthPrefix(FrameOf(payload), maxLen) == Ok((|Varint(|payload|)|, payload))
    ensures |Varint(|payload|)| <= MAX_PREFIX_LEN
  {
    hide Varint, ReadVarint, PrefixEnd, Limit;
    var n := |payload|;
    LimitIsU32();
    VarintRoundTrip(n, 0, []);
    VarintRoundTrip(n, 0, payload);
    var v := Varint(n);
    assert v + [] == v;
    VarintEnds(n, payload + tail, []);
    assert [] + v + (payload + tail) == v + payload + tail;
    assert (v + payload)[|v|..|v| + n] == payload;
    ReadsFront(v, payload, tail, maxLen);
  }

  lemma ReadsFront(v: Bytes, payload: Bytes, tail: Bytes, maxLen: u32)
    requires PrefixEnd(v + payload + tail, 0) == Ok(|v|) && DecodePayloadLen(v, maxLen) == Ok(|payload|)
    ensures ReadFrame(v + payload + tail, maxLen) == Ok((v + payload, tail))
  {
    hide PrefixEnd, DecodePayloadLen;
    var s, k := v + payload + tail, |v| + |payload|;
    assert s[..|v|] == v;
    assert s[..k] == v + payload && s[k..] == tail;
  }

  ghost function FramesOf(payloads: seq<Bytes>): (r: Bytes) {
    if payloads == [] then [] else FrameOf(payloads[0]) + FramesOf(payloads[1..])
  }

  /** Read `count` frames and decode each. */
  function ReadAll(s: Bytes, maxLen: u32, count: nat): (r: Result<(seq<Bytes>, Bytes), FrameError>) {
    if count == 0 then Ok(([], s)) else
      match ReadFrame(s, maxLen)
      case Err(e) => Err(e)
      case Ok((frame, rest)) =>
        match DecodeLengthPrefix(frame, maxLen)
        case Err(e) => Err(e)
        case Ok((_, payload)) =>
          match ReadAll(rest, maxLen, count - 1)
          case Err(e) => Err(e)
          case Ok((payloads, left)) => Ok(([payload] + payloads, left))
  }

  /** Any list of payloads within the limit comes back from the concatenation of its frames, whatever follows. */
  lemma {:induction false} StreamRoundTrip(payloads: seq<Bytes>, maxLen: u32, tail: Bytes)
    requires forall p :: p in payloads ==> |p| <= maxLen
    ensures ReadAll(FramesOf(payloads) + tail, maxLen, |payloads|) == Ok((payloads, tail))
    decreases |payloads|
  {
    hide ReadFrame, DecodeLengthPrefix, FrameOf, ReadAll;
    if payloads == [] {
      NothingToRead(tail, maxLen);
      assert FramesOf(payloads) + tail == tail;
    } else {
      var p, rest := payloads[0], FramesOf(payloads[1..]) + tail;
      Regroup(FrameOf(p), FramesOf(payloads[1..]), tail);
      FrameRoundTrip(p, maxLen, rest);
      StreamRoundTrip(payloads[1..], maxLen, tail);
      ReadAllCons(FrameOf(p) + rest, maxLen, |payloads|, p, rest);
      assert payloads == [p] + payloads[1..];
    }
  }

  lemma NothingToRead(s: Bytes, maxLen: u32)
    ensures ReadAll(s, maxLen, 0) == Ok(([], s))
  {
  }

  lemma ReadAllCons(s: Bytes, maxLen: u32, count: nat, payload: Bytes, rest: Bytes)
    requires count > 0 && ReadFrame(s, maxLen) == Ok((FrameOf(payload), rest))
    requires DecodeLengthPrefix(FrameOf(payload), maxLen).Ok? && DecodeLengthPrefix(FrameOf(payload), maxLen).value.1 == payload
    requires ReadAll(rest, maxLen, count - 1).Ok?
    ensures var (payloads, left) := ReadAll(rest, maxLen, count - 1).value;
            ReadAll(s, maxLen, count) == Ok(([payload] + payloads, left))
  {
    hide ReadFrame, DecodeLengthPrefix, FrameOf;
  }

  /** Every frame read is the frame of some payload within the limit, exactly unless its prefix has a fifth byte
      whose lost bits are set. */
  lemma FrameCanonical(s: Bytes, maxLen: u32) returns (payload: Bytes)
    requires ReadFrame(s, maxLen).Ok?
    ensures var (frame, rest) := ReadFrame(s, maxLen).value;
            && s == frame + rest && |payload| <= maxLen
            && DecodeLengthPrefix(frame, maxLen) == Ok((PrefixEnd(s, 0).value, payload))
            && (frame == FrameOf(payload) <==> (PrefixEnd(s, 0) == Ok(MAX_PREFIX_LEN) ==> s[4] < 16))
  {
    hide Varint, ReadVarint, PrefixEnd;
    var k := PrefixEnd(s, 0).value;
    var (frame, rest) := ReadFrame(s, maxLen).value;
    PrefixIsVarint(s, k);
    var v, n := s[..k], ReadVarint(s[..k], 0).value.0;
    payload := frame[k..];
    assert frame == v + payload && s == frame + rest && frame[k..k + n] == payload && v[..k] == v;
    VarintLocal(v, 0, payload);
    VarintCanonical(v, 0);
    if frame == FrameOf(payload) { Peel(v, Varint(n), payload, payload); }
  }

  /** A payload is framed exactly if it is within the limit. */
  lemma EncodeVerdict(payload: Bytes, maxLen: u32)
    ensures EncodeLengthPrefixed(payload, maxLen) == if |payload| <= maxLen then Ok(FrameOf(payload)) else Err(InvalidData)
  {
  }

  /** The digits of a varint, seven bits each and low ones first, spell its number. */
  function Spelled(s: Bytes): (r: nat) {
    if s == [] then 0 else s[0] % 128 + 128 * Spelled(s[1..])
  }

  lemma {:induction false} VarintDigits(n: nat)
    ensures Spelled(Varint(n)) == n
    ensures var v := Varint(n); v[|v| - 1] < 128 && forall i :: 0 <= i < |v| - 1 ==> v[i] >= 128
    decreases n
  {
    if n < 128 {
      assert [n][1..] == [];
    } else {
      VarintDigits(n / 128);
      var v := Varint(n);
      assert v[1..] == Varint(n / 128);
    }
  }

  /** A frame over the limit is refused, whatever follows, and before its payload is read. */
  lemma OverLimit(payload: Bytes, maxLen: u32, tail: Bytes)
    requires maxLen < |payload| < U32_LIMIT
    ensures ReadFrame(FrameOf(payload) + tail, maxLen) == Err(InvalidData)
    ensures DecodeLengthPrefix(FrameOf(payload), maxLen) == Err(InvalidData)
  {
    hide Varint, ReadVarint, PrefixEnd, Limit;
    var n := |payload|;
    LimitIsU32();
    VarintRoundTrip(n, 0, []);
    VarintRoundTrip(n, 0, payload);
    var v := Varint(n);
    assert v + [] == v;
    VarintEnds(n, payload + tail, []);
    assert [] + v + (payload + tail) == v + payload + tail;
    assert (v + payload + tail)[..|v|] == v;
  }

  /** Every proper prefix of a frame is an unexpected end of the stream. */
  lemma ShortFrame(payload: Bytes, maxLen: u32, k: nat)
    requires |payload| <= maxLen && k < |FrameOf(payload)|
    ensures ReadFrame(FrameOf(payload)[..k], maxLen) == Err(UnexpectedEof)
    ensures |Varint(|payload|)| <= k ==> DecodeLengthPrefix(FrameOf(payload)[..k], maxLen) == Err(UnexpectedEof)
  {
    hide Varint, ReadFrame, DecodeLengthPrefix;
    var v := Varint(|payload|);
    if k < |v| {
      assert FrameOf(payload)[..k] == v[..k];
      ShortPrefix(|payload|, maxLen, k);
    } else {
      assert FrameOf(payload)[..k] == v + payload[..k - |v|];
      ShortBody(|payload|, maxLen, payload[..k - |v|]);
    }
  }

  lemma ShortPrefix(n: nat, maxLen: u32, k: nat)
    requires n <= maxLen && k < |Varint(n)|
    ensures ReadFrame(Varint(n)[..k], maxLen) == Err(UnexpectedEof)
  {
    hide Varint, ReadVarint, PrefixEnd, Limit;
    LimitIsU32();
    VarintRoundTrip(n, 0, []);
    VarintDigits(n);
    NoEnd(Varint(n)[..k], 0);
  }

  lemma ShortBody(n: nat, maxLen: u32, part: Bytes)
    requires |part| < n <= maxLen
    ensures ReadFrame(Varint(n) + part, maxLen) == Err(UnexpectedEof)
    ensures DecodeLengthPrefix(Varint(n) + part, maxLen) == Err(UnexpectedEof)
  {
    hide Varint, ReadFrame, DecodeLengthPrefix, Limit, ReadVarint, PrefixEnd;
    LimitIsU32();
    VarintRoundTrip(n, 0, part);
    VarintEnds(n, part, []);
    assert [] + Varint(n) + part == Varint(n) + part;
    PayloadLenOf(n, maxLen);
    EndsEarly(Varint(n), part, n, maxLen);
  }

  lemma PayloadLenOf(n: nat, maxLen: u32)
    requires n <= maxLen
    ensures DecodePayloadLen(Varint(n), maxLen) == Ok(n)
  {
    hide Varint, ReadVarint, Limit;
    LimitIsU32();
    VarintRoundTrip(n, 0, []);
    assert Varint(n) + [] == Varint(n);
  }

  lemma EndsEarly(v: Bytes, part: Bytes, n: nat, maxLen: u32)
    requires PrefixEnd(v + part, 0) == Ok(|v|) && DecodePayloadLen(v, maxLen) == Ok(n) && |part| < n <= maxLen
    requires ReadVarint(v + part, 0) == Ok((n, |v|))
    ensures ReadFrame(v + part, maxLen) == Err(UnexpectedEof) && DecodeLengthPrefix(v + part, maxLen) == Err(UnexpectedEof)
  {
    hide PrefixEnd, DecodePayloadLen, ReadVarint;
    assert (v + part)[..|v|] == v;
  }

  lemma {:induction false} NoEnd(s: Bytes, i: nat)
    requires i <= |s| < MAX_PREFIX_LEN && forall j :: 0 <= j < |s| ==> s[j] >= 128
    ensures PrefixEnd(s, i) == Err(UnexpectedEof)
    decreases |s| - i
  {
    if i < |s| { NoEnd(s, i + 1); }
  }

  /** Such a frame is accepted: the empty payload behind five bytes instead of one. */
  lemma LostBits(maxLen: u32)
    ensures ReadFrame([128, 128, 128, 128, 16], maxLen) == Ok(([128, 128, 128, 128, 16], []))
    ensures FrameOf([]) == [0]
  {
    hide ReadVarint, PrefixEnd, Varint;
    var s: Bytes := [128, 128, 128, 128, 16];
    FiveBytes(16);
    FiveEnds(16);
    assert s[..5] == s && s[5..] == [];
    VarintZero();
  }

  lemma FiveEnds(b: byte)
    requires b < 128
    ensures PrefixEnd([128, 128, 128, 128, b], 0) == Ok(5)
  {
    hide PrefixEnd;
    var s: Bytes := [128, 128, 128, 128, b];
    PrefixUnfolds(s, 0);
    PrefixUnfolds(s, 1);
    PrefixUnfolds(s, 2);
    PrefixUnfolds(s, 3);
    PrefixUnfolds(s, 4);
  }

  lemma VarintZero()
    ensures Varint(0) == [0]
  {
  }

  lemma FiveBytes(b: byte)
    requires 0 < b < 128
    ensures ReadVarint([128, 128, 128, 128, b], 0) == Ok((0x1000_0000 * (b % 16), 5))
  {
    var s: Bytes := [128, 128, 128, 128, b];
    assert s[1..] == [128, 128, 128, b] && [128, 128, 128, b][1..] == [128, 128, b];
    assert [128, 128, b][1..] == [128, b] && [128, b][1..] == [b];
    assert ReadVarint([128, b], 3) == Ok((128 * (b % 16), 2));
    assert ReadVarint([128, 128, b], 2) == Ok((128 * 128 * (b % 16), 3));
  }

  lemma PrefixIsVarint(s: Bytes, k: nat)
    requires PrefixEnd(s, 0) == Ok(k) && ReadVarint(s[..k], 0).Ok?
    ensures ReadVarint(s[..k], 0).value.1 == k
  {
    hide ReadVarint, PrefixEnd;
    var len := ReadVarint(s[..k], 0).value.1;
    assert s[..k][len - 1] == s[len - 1];
  }
}
