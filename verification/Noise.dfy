/**
 The encrypted stream (erp-runtime/src/network/transport/noise.rs): a writer that turns what it is given into
 length-prefixed AEAD frames and a reader that turns the frames back into bytes, both driven by polls of an inner
 stream that may accept or return any number of bytes, be not ready, or fail.
 */
module Noise {
  import opened Base

  const NOISE_TAG_LEN: nat := 16
  const MAX_NOISE_FRAME_LEN: nat := 65535
  const MAX_NOISE_PLAINTEXT_LEN: nat := MAX_NOISE_FRAME_LEN - NOISE_TAG_LEN

  /** The transport cipher, by message number. */
  datatype Aead = Aead(seal: (nat, Bytes) -> Bytes, unseal: (nat, Bytes) -> Option<Bytes>)

  ghost predicate Lawful(a: Aead) {
    && (forall n, p :: |a.seal(n, p)| == |p| + NOISE_TAG_LEN)
    && (forall n, p :: a.unseal(n, a.seal(n, p)) == Some(p))
  }

  /** One answer of the inner stream.  `Ready(0)` is the end of the stream, or a write that takes nothing. */
  datatype Io = Ready(n: nat) | NotReady | Broken

  datatype Poll<+T> = Done(value: T) | Pending | Failed

  datatype Writer = Writer(nonce: nat, frame: Bytes, pos: nat, consumed: nat)

  datatype Reader = Reader(
    nonce: nat,
    lenBuf: Bytes,
    lenPos: nat,
    frameLen: Option<nat>,
    encrypted: Bytes,
    encryptedPos: nat,
    plaintext: Bytes,
    plaintextPos: nat)

  const NEW_WRITER: Writer := Writer(0, [], 0, 0)
  const NEW_READER: Reader := Reader(0, [0, 0], 0, None, [], 0, [], 0)

  // ---------------------------------------------------------------- the writer

  datatype Flushed = Flushed(writer: Writer, poll: Poll<()>, sent: Bytes, rest: seq<Io>)

  datatype Written = Written(writer: Writer, poll: Poll<nat>, sent: Bytes)

  /** What is queued and not yet taken by the inner stream. */
  function Unsent(w: Writer): (r: Bytes)
    requires w.pos <= |w.frame|
  {
    w.frame[w.pos..]
  }

  /** One poll of the inner stream's flush. */
  function InnerFlush(io: seq<Io>): (r: Poll<()>) {
    if io == [] || io[0].NotReady? then Pending else if io[0].Broken? then Failed else Done(())
  }

  lemma Cut(frame: Bytes, pos: nat, k: nat, sent: Bytes, left: Bytes)
    requires pos + k <= |frame| && frame[pos + k..] == sent + left
    ensures frame[pos..] == frame[pos..pos + k] + sent + left
  {
    assert frame[pos..] == frame[pos..pos + k] + frame[pos + k..];
  }

  /** `poll_flush_pending_frame`: the inner stream takes the frame in order, each byte once. */
  function Flush(w: Writer, io: seq<Io>): (r: Flushed)
    requires w.pos <= |w.frame|
    ensures r.writer.nonce == w.nonce && r.writer.consumed == w.consumed && r.writer.pos <= |r.writer.frame|
    ensures Unsent(w) == r.sent + Unsent(r.writer)
    ensures r.poll.Done? ==> r.writer.frame == []
    ensures !r.poll.Done? ==> r.writer.frame == w.frame
    decreases |io|
  {
    if w.pos == |w.frame| then
      var p := InnerFlush(io);
      Flushed(if p.Done? then w.(frame := [], pos := 0) else w, p, [], if io == [] then [] else io[1..])
    else if io == [] || io[0].NotReady? then Flushed(w, Pending, [], [])
    else if io[0].Broken? || io[0].n == 0 then Flushed(w, Failed, [], io[1..])
    else
      var k := Min(io[0].n, |w.frame| - w.pos);
      var f := Flush(w.(pos := w.pos + k), io[1..]);
      Cut(w.frame, w.pos, k, f.sent, Unsent(f.writer));
      f.(sent := w.frame[w.pos..w.pos + k] + f.sent)
  }

  /** One turn of the loop of `poll_flush_pending_frame`. */
  lemma FlushTakes(w: Writer, io: seq<Io>)
    requires w.pos < |w.frame| && io != [] && io[0].Ready? && io[0].n > 0
    ensures var k := Min(io[0].n, |w.frame| - w.pos); var f := Flush(w.(pos := w.pos + k), io[1..]);
            Flush(w, io) == f.(sent := w.frame[w.pos..w.pos + k] + f.sent)
  {
    hide Unsent;
  }

  /** A turn in which the inner stream takes nothing. */
  lemma FlushStops(w: Writer, io: seq<Io>)
    requires w.pos < |w.frame|
    ensures io == [] || io[0].NotReady? ==> Flush(w, io) == Flushed(w, Pending, [], [])
    ensures io != [] && (io[0].Broken? || io[0] == Ready(0)) ==> Flush(w, io) == Flushed(w, Failed, [], io[1..])
  {
    hide Unsent;
  }

  /** The flush of the inner stream after the loop. */
  lemma FlushEnds(w: Writer, io: seq<Io>)
    requires w.pos == |w.frame|
    ensures Flush(w, io) == Flushed(if InnerFlush(io).Done? then w.(frame := [], pos := 0) else w, InnerFlush(io), [],
                                    if io == [] then [] else io[1..])
  {
    hide Unsent;
  }

  /** A frame: the ciphertext behind its length as a 16-bit word; the cast keeps the low 16 bits. */
  function Frame(a: Aead, n: nat, p: Bytes): (r: Bytes) {
    var ciphertext := a.seal(n, p);
    BigEndian(2, |ciphertext| % 0x1_0000) + ciphertext
  }

  /** What `queue_encrypted_frame` takes of a buffer. */
  function Chunk(buf: Bytes): (r: Bytes)
    ensures r <= buf && |r| == Min(|buf|, 65519) && |r| <= MAX_NOISE_PLAINTEXT_LEN
    ensures buf != [] ==> r != []
  {
    buf[..Min(|buf|, MAX_NOISE_PLAINTEXT_LEN)]
  }

  function QueueFrame(a: Aead, w: Writer, buf: Bytes): (r: Writer) {
    Writer(w.nonce + 1, Frame(a, w.nonce, Chunk(buf)), 0, w.consumed)
  }

  function PollWrite(a: Aead, w: Writer, buf: Bytes, io: seq<Io>): (r: Written)
    requires w.pos <= |w.frame|
    ensures r.writer.pos <= |r.writer.frame|
  {
    if w.consumed > 0 then
      var f := Flush(w, io);
      match f.poll
      case Done(_) => Written(f.writer.(consumed := 0), Done(w.consumed), f.sent)
      case Failed => Written(f.writer.(consumed := 0), Failed, f.sent)
      case Pending => Written(f.writer, Pending, f.sent)
    else
      var f := if w.frame != [] then Flush(w, io) else Flushed(w, Done(()), [], io);
      match f.poll
      case Failed => Written(f.writer, Failed, f.sent)
      case Pending => Written(f.writer, Pending, f.sent)
      case Done(_) =>
        if buf == [] then Written(f.writer, Done(0), f.sent)
        else
          var g := Flush(QueueFrame(a, f.writer, buf), f.rest);
          match g.poll
          case Done(_) => Written(g.writer, Done(|Chunk(buf)|), f.sent + g.sent)
          case Failed => Written(g.writer, Failed, f.sent + g.sent)
          case Pending => Written(g.writer.(consumed := |Chunk(buf)|), Pending, f.sent + g.sent)
  }

  function PollFlush(w: Writer, io: seq<Io>): (r: Flushed)
    requires w.pos <= |w.frame|
    ensures r.writer.pos <= |r.writer.frame|
  {
    var f := Flush(w, io);
    if f.poll.Done? then f.(poll := InnerFlush(f.rest)) else f
  }

  // ---------------------------------------------------------------- the reader

  datatype Filled = Filled(reader: Reader, poll: Poll<bool>, wire: Bytes)

  datatype Got = Got(reader: Reader, poll: Poll<Bytes>, wire: Bytes)

  /** The buffers are as long as they are declared to be. */
  predicate Shaped(r: Reader) {
    && |r.lenBuf| == 2 && r.lenPos <= 2 && r.plaintextPos <= |r.plaintext|
    && (r.frameLen.Some? ==> r.lenPos == 2 && |r.encrypted| == r.frameLen.value && r.encryptedPos <= r.frameLen.value)
  }

  /** One poll of the inner stream's read into `room` bytes: how many arrive, 0 at the end of the stream. */
  function InnerRead(wire: Bytes, room: nat, io: seq<Io>): (r: Poll<nat>)
    requires room > 0
    ensures r.Done? ==> io != [] && r.value <= room && r.value <= |wire|
  {
    if io == [] || io[0].NotReady? then Pending
    else if io[0].Broken? then Failed
    else if io[0].n == 0 then Done(0)
    else if wire == [] then Pending
    else Done(Min(io[0].n, Min(room, |wire|)))
  }

  function Splice(buf: Bytes, at: nat, bytes: Bytes): (r: Bytes)
    requires at + |bytes| <= |buf|
    ensures |r| == |buf| && r[..at] == buf[..at] && r[..at + |bytes|] == buf[..at] + bytes
  {
    buf[..at] + bytes + buf[at + |bytes|..]
  }

  function Zeros(n: nat): (r: Bytes)
    ensures |r| == n
  {
    seq(n, _ => 0)
  }

  /** `poll_fill_plaintext` once the plaintext buffer is empty. */
  function FillFrame(a: Aead, r: Reader, wire: Bytes, io: seq<Io>): (f: Filled)
    requires Shaped(r)
    ensures Shaped(f.reader)
    decreases |io|, if r.frameLen.Some? then 1 else if r.lenPos == 2 then 2 else 0
  {
    if r.frameLen.None? && r.lenPos < 2 then
      match InnerRead(wire, 2 - r.lenPos, io)
      case Pending => Filled(r, Pending, wire)
      case Failed => Filled(r, Failed, wire)
      case Done(k) =>
        if k == 0 then Filled(r, if r.lenPos == 0 then Done(false) else Failed, wire)
        else FillFrame(a, r.(lenBuf := Splice(r.lenBuf, r.lenPos, wire[..k]), lenPos := r.lenPos + k), wire[k..], io[1..])
    else if r.frameLen.None? then
      var n := FromBigEndian(r.lenBuf);
      FillFrame(a, r.(frameLen := Some(n), encrypted := Zeros(n), encryptedPos := 0), wire, io)
    else if r.encryptedPos < r.frameLen.value then
      match InnerRead(wire, r.frameLen.value - r.encryptedPos, io)
      case Pending => Filled(r, Pending, wire)
      case Failed => Filled(r, Failed, wire)
      case Done(k) =>
        if k == 0 then Filled(r, Failed, wire)
        else FillFrame(a, r.(encrypted := Splice(r.encrypted, r.encryptedPos, wire[..k]), encryptedPos := r.encryptedPos + k),
                       wire[k..], io[1..])
    else
      match a.unseal(r.nonce, r.encrypted)
      case None => Filled(r, Failed, wire)
      case Some(p) =>
        var next := Reader(r.nonce + 1, r.lenBuf, 0, None, [], 0, p, 0);
        if p != [] then Filled(next, Done(true), wire) else FillFrame(a, next, wire, io)
  }

  /** One turn of either inner loop of `poll_fill_plaintext`. */
  lemma FillFrameReads(a: Aead, r: Reader, wire: Bytes, io: seq<Io>)
    requires Shaped(r) && (if r.frameLen.None? then r.lenPos < 2 else r.encryptedPos < r.frameLen.value)
    ensures var header := r.frameLen.None?; var at := if header then r.lenPos else r.encryptedPos;
            var p := InnerRead(wire, if header then 2 - at else r.frameLen.value - at, io); var f := FillFrame(a, r, wire, io);
            && (p.Pending? ==> f == Filled(r, Pending, wire))
            && (p.Failed? ==> f == Filled(r, Failed, wire))
            && (p == Done(0) ==> f == Filled(r, if header && at == 0 then Done(false) else Failed, wire))
            && (p.Done? && p.value > 0 ==>
                  f == FillFrame(a, if header then r.(lenBuf := Splice(r.lenBuf, at, wire[..p.value]), lenPos := at + p.value)
                                    else r.(encrypted := Splice(r.encrypted, at, wire[..p.value]), encryptedPos := at + p.value),
                                 wire[p.value..], io[1..]))
  {
    hide Splice, FromBigEndian;
  }

  lemma FillFrameLength(a: Aead, r: Reader, wire: Bytes, io: seq<Io>)
    requires Shaped(r) && r.frameLen.None? && r.lenPos == 2
    ensures var n := FromBigEndian(r.lenBuf);
            FillFrame(a, r, wire, io) == FillFrame(a, r.(frameLen := Some(n), encrypted := Zeros(n), encryptedPos := 0), wire, io)
  {
  }

  lemma FillFrameOpens(a: Aead, r: Reader, wire: Bytes, io: seq<Io>)
    requires Shaped(r) && r.frameLen.Some? && r.encryptedPos == r.frameLen.value
    ensures var p := a.unseal(r.nonce, r.encrypted); var f := FillFrame(a, r, wire, io);
            && (p.None? ==> f == Filled(r, Failed, wire))
            && (p.Some? ==>
                  var next := Reader(r.nonce + 1, r.lenBuf, 0, None, [], 0, p.value, 0);
                  f == if p.value != [] then Filled(next, Done(true), wire) else FillFrame(a, next, wire, io))
  {
  }

  function Fill(a: Aead, r: Reader, wire: Bytes, io: seq<Io>): (f: Filled)
    requires Shaped(r)
    ensures Shaped(f.reader)
  {
    if r.plaintextPos < |r.plaintext| then Filled(r, Done(true), wire)
    else FillFrame(a, r.(plaintext := [], plaintextPos := 0), wire, io)
  }

  function PollRead(a: Aead, r: Reader, wire: Bytes, size: nat, io: seq<Io>): (g: Got)
    requires Shaped(r)
    ensures Shaped(g.reader)
  {
    if size == 0 then Got(r, Done([]), wire) else
      var f := Fill(a, r, wire, io);
      match f.poll
      case Pending => Got(f.reader, Pending, f.wire)
      case Failed => Got(f.reader, Failed, f.wire)
      case Done(false) => Got(f.reader, Done([]), f.wire)
      case Done(true) =>
        var available := f.reader.plaintext[f.reader.plaintextPos..];
        var len := Min(|available|, size);
        Got(if len == |available| then f.reader.(plaintext := [], plaintextPos := 0)
            else f.reader.(plaintextPos := f.reader.plaintextPos + len),
            Done(available[..len]), f.wire)
  }

  // ---------------------------------------------------------------- the length word

  /** The 16-bit length never truncates, and reads back. */
  lemma LengthFits(a: Aead, n: nat, p: Bytes)
    requires Lawful(a) && |p| <= MAX_NOISE_PLAINTEXT_LEN
    ensures |a.seal(n, p)| % 0x1_0000 == |a.seal(n, p)|
    ensures FromBigEndian(BigEndian(2, |a.seal(n, p)|)) == |a.seal(n, p)|
  {
    var len := |a.seal(n, p)|;
    assert len == |p| + NOISE_TAG_LEN;
    assert Pow256(2) == 0x1_0000;
    BigEndianRoundTrip(2, len);
  }

  // ---------------------------------------------------------------- what is under way

  /** The frames of consecutive messages from number `n`. */
  ghost function Encoded(a: Aead, chunks: seq<Bytes>, n: nat): (r: Bytes) {
    if chunks == [] then [] else Frame(a, n, chunks[0]) + Encoded(a, chunks[1..], n + 1)
  }

  ghost function Concat(chunks: seq<Bytes>): (r: Bytes) {
    if chunks == [] then [] else chunks[0] + Concat(chunks[1..])
  }

  lemma {:induction false} EncodedSnoc(a: Aead, chunks: seq<Bytes>, n: nat, p: Bytes)
    ensures Encoded(a, chunks + [p], n) == Encoded(a, chunks, n) + Frame(a, n + |chunks|, p)
    decreases |chunks|
  {
    hide Frame;
    if chunks == [] {
      assert chunks + [p] == [p];
      assert Encoded(a, [p], n) == Frame(a, n, p) + Encoded(a, [p][1..], n + 1);
    } else {
      assert (chunks + [p])[1..] == chunks[1..] + [p];
      EncodedSnoc(a, chunks[1..], n + 1, p);
      var f := Frame(a, n, chunks[0]);
      var e, l := Encoded(a, chunks[1..], n + 1), Frame(a, n + |chunks|, p);
      assert f + (e + l) == f + e + l;
    }
  }

  lemma {:induction false} ConcatSnoc(chunks: seq<Bytes>, p: Bytes)
    ensures Concat(chunks + [p]) == Concat(chunks) + p
    decreases |chunks|
  {
    if chunks == [] {
      assert chunks + [p] == [p];
      assert Concat([p]) == p + Concat([p][1..]);
    } else {
      assert (chunks + [p])[1..] == chunks[1..] + [p];
      ConcatSnoc(chunks[1..], p);
    }
  }

  /** The part of the next frame the reader holds. */
  ghost function Held(r: Reader): (h: Bytes)
    requires Shaped(r)
  {
    if r.frameLen.None? then r.lenBuf[..r.lenPos] else r.lenBuf + r.encrypted[..r.encryptedPos]
  }

  ghost predicate Sized(chunks: seq<Bytes>) {
    forall i :: 0 <= i < |chunks| ==> chunks[i] != [] && |chunks[i]| <= MAX_NOISE_PLAINTEXT_LEN
  }

  /** What the reader holds and what lies ahead of it are exactly the frames of the chunks it has yet to open. */
  ghost predicate Flow(a: Aead, r: Reader, ahead: Bytes, chunks: seq<Bytes>) {
    && Shaped(r) && Sized(chunks)
    && Held(r) + ahead == Encoded(a, chunks, r.nonce)
    && (r.frameLen.Some? ==> chunks != [] && r.frameLen.value == |a.seal(r.nonce, chunks[0])|)
  }

  /** The next frame starts with its length. */
  lemma NextFrame(a: Aead, r: Reader, ahead: Bytes, chunks: seq<Bytes>)
    requires Lawful(a) && Flow(a, r, ahead, chunks) && Held(r) != []
    ensures chunks != []
    ensures r.lenPos == 2 ==> FromBigEndian(r.lenBuf) == |a.seal(r.nonce, chunks[0])|
    ensures r.lenPos == 2 ==> Held(r)[2..] + ahead == a.seal(r.nonce, chunks[0]) + Encoded(a, chunks[1..], r.nonce + 1)
  {
    var ct := a.seal(r.nonce, chunks[0]);
    LengthFits(a, r.nonce, chunks[0]);
    if r.lenPos == 2 {
      var word, rest := BigEndian(2, |ct|), Encoded(a, chunks[1..], r.nonce + 1);
      assert Held(r) + ahead == word + (ct + rest);
      assert Held(r) == r.lenBuf + Held(r)[2..];
      assert r.lenBuf + (Held(r)[2..] + ahead) == word + (ct + rest);
      Peel(r.lenBuf, word, Held(r)[2..] + ahead, ct + rest);
    }
  }

  /** Bytes that move from the wire into a buffer stay in the flow. */
  lemma FlowShifts(a: Aead, r: Reader, r': Reader, wire: Bytes, out: Bytes, chunks: seq<Bytes>, k: nat)
    requires Flow(a, r, wire + out, chunks) && k <= |wire| && Shaped(r') && Held(r') == Held(r) + wire[..k]
    requires r'.nonce == r.nonce && r'.frameLen == r.frameLen
    ensures Flow(a, r', wire[k..] + out, chunks)
  {
    hide Encoded, Sized, Held;
    assert wire == wire[..k] + wire[k..];
    assert Held(r) + (wire[..k] + wire[k..] + out) == Held(r) + wire[..k] + (wire[k..] + out);
  }

  lemma HeaderRead(a: Aead, r: Reader, wire: Bytes, out: Bytes, chunks: seq<Bytes>, k: nat)
    requires Shaped(r) && Flow(a, r, wire + out, chunks) && r.frameLen.None? && r.lenPos + k <= 2 && k <= |wire|
    ensures Flow(a, r.(lenBuf := Splice(r.lenBuf, r.lenPos, wire[..k]), lenPos := r.lenPos + k), wire[k..] + out, chunks)
  {
    hide Flow, Splice;
    FlowShifts(a, r, r.(lenBuf := Splice(r.lenBuf, r.lenPos, wire[..k]), lenPos := r.lenPos + k), wire, out, chunks, k);
  }

  lemma BodyRead(a: Aead, r: Reader, wire: Bytes, out: Bytes, chunks: seq<Bytes>, k: nat)
    requires Shaped(r) && Flow(a, r, wire + out, chunks)
    requires r.frameLen.Some? && r.encryptedPos + k <= r.frameLen.value && k <= |wire|
    ensures Flow(a, r.(encrypted := Splice(r.encrypted, r.encryptedPos, wire[..k]), encryptedPos := r.encryptedPos + k),
                 wire[k..] + out, chunks)
  {
    hide Flow, Splice;
    var r' := r.(encrypted := Splice(r.encrypted, r.encryptedPos, wire[..k]), encryptedPos := r.encryptedPos + k);
    assert Held(r') == Held(r) + wire[..k];
    FlowShifts(a, r, r', wire, out, chunks, k);
  }

  /** A complete frame opens to the next chunk. */
  lemma Opens(a: Aead, r: Reader, ahead: Bytes, chunks: seq<Bytes>)
    requires Lawful(a) && Flow(a, r, ahead, chunks) && r.frameLen.Some? && r.encryptedPos == r.frameLen.value
    ensures chunks != [] && a.unseal(r.nonce, r.encrypted) == Some(chunks[0])
    ensures Flow(a, Reader(r.nonce + 1, r.lenBuf, 0, None, [], 0, chunks[0], 0), ahead, chunks[1..])
  {
    hide Encoded;
    NextFrame(a, r, ahead, chunks);
    assert r.encrypted[..r.encryptedPos] == r.encrypted;
    assert Held(r)[2..] == r.encrypted;
    Peel(r.encrypted, a.seal(r.nonce, chunks[0]), ahead, Encoded(a, chunks[1..], r.nonce + 1));
    assert r.lenBuf[..0] + ahead == ahead;
  }

  /** The inner stream neither ended nor failed. */
  ghost predicate Healthy(io: seq<Io>) {
    forall i :: 0 <= i < |io| ==> io[i].NotReady? || (io[i].Ready? && io[i].n > 0)
  }

  lemma HealthyTail(io: seq<Io>)
    requires io != []
    ensures Healthy(io) ==> Healthy(io[1..]) && (io[0].NotReady? || (io[0].Ready? && io[0].n > 0))
  {
  }

  /** Whole chunks moved from the flow to the plaintext buffer; `nonce` and `chunks` are those before. */
  ghost predicate Moved(a: Aead, nonce: nat, out: Bytes, chunks: seq<Bytes>, f: Filled, left: seq<Bytes>) {
    && Flow(a, f.reader, f.wire + out, left)
    && f.reader.plaintext[f.reader.plaintextPos..] + Concat(left) == Concat(chunks)
    && f.reader.nonce + |left| == nonce + |chunks|
    && |left| <= |chunks| && left == chunks[|chunks| - |left|..]
    && (f.poll == Done(true) ==> f.reader.plaintext[f.reader.plaintextPos..] != [])
  }

  lemma Unmoved(a: Aead, r: Reader, wire: Bytes, out: Bytes, chunks: seq<Bytes>, poll: Poll<bool>)
    requires Flow(a, r, wire + out, chunks) && r.plaintext == [] && poll != Done(true)
    ensures Moved(a, r.nonce, out, chunks, Filled(r, poll, wire), chunks)
  {
    hide Encoded, Sized;
  }

  lemma LengthRead(a: Aead, r: Reader, ahead: Bytes, chunks: seq<Bytes>)
    requires Lawful(a) && Flow(a, r, ahead, chunks) && r.frameLen.None? && r.lenPos == 2
    ensures var n := FromBigEndian(r.lenBuf);
            Flow(a, r.(frameLen := Some(n), encrypted := Zeros(n), encryptedPos := 0), ahead, chunks)
  {
    hide Encoded;
    NextFrame(a, r, ahead, chunks);
    var n := FromBigEndian(r.lenBuf);
    assert Held(r.(frameLen := Some(n), encrypted := Zeros(n), encryptedPos := 0)) == Held(r);
  }

  lemma Opened(a: Aead, r: Reader, wire: Bytes, out: Bytes, chunks: seq<Bytes>, io: seq<Io>)
    requires Lawful(a) && Flow(a, r, wire + out, chunks) && r.frameLen.Some? && r.encryptedPos == r.frameLen.value
    ensures chunks != [] && FillFrame(a, r, wire, io).poll == Done(true)
    ensures Moved(a, r.nonce, out, chunks, FillFrame(a, r, wire, io), chunks[1..])
  {
    hide Encoded;
    Opens(a, r, wire + out, chunks);
  }

  /** However the inner stream chops its answers, filling moves whole chunks from the flow to the plaintext buffer,
      and fails only if the inner stream did. */
  lemma {:induction false} FillFrameFlow(a: Aead, r: Reader, wire: Bytes, out: Bytes, io: seq<Io>, chunks: seq<Bytes>)
    returns (left: seq<Bytes>)
    requires Lawful(a) && Shaped(r) && Flow(a, r, wire + out, chunks) && r.plaintext == []
    ensures Moved(a, r.nonce, out, chunks, FillFrame(a, r, wire, io), left)
    ensures Healthy(io) ==> FillFrame(a, r, wire, io).poll.Pending? || FillFrame(a, r, wire, io).poll == Done(true)
    decreases |io|, if r.frameLen.Some? then 1 else if r.lenPos == 2 then 2 else 0
  {
    hide Splice, Flow, Moved, Lawful, Healthy, FillFrame, FromBigEndian, Zeros;
    if io != [] { HealthyTail(io); }
    left := chunks;
    if r.frameLen.Some? && r.encryptedPos == r.frameLen.value {
      Opened(a, r, wire, out, chunks, io);
      left := chunks[1..];
    } else if r.frameLen.None? && r.lenPos == 2 {
      LengthRead(a, r, wire + out, chunks);
      FillFrameLength(a, r, wire, io);
      var n := FromBigEndian(r.lenBuf);
      left := FillFrameFlow(a, r.(frameLen := Some(n), encrypted := Zeros(n), encryptedPos := 0), wire, out, io, chunks);
    } else {
      FillFrameReads(a, r, wire, io);
      var k := InnerRead(wire, if r.frameLen.None? then 2 - r.lenPos else r.frameLen.value - r.encryptedPos, io);
      if !k.Done? || k.value == 0 {
        Unmoved(a, r, wire, out, chunks, FillFrame(a, r, wire, io).poll);
      } else if r.frameLen.None? {
        HeaderRead(a, r, wire, out, chunks, k.value);
        left := FillFrameFlow(a, r.(lenBuf := Splice(r.lenBuf, r.lenPos, wire[..k.value]), lenPos := r.lenPos + k.value),
                              wire[k.value..], out, io[1..], chunks);
      } else {
        BodyRead(a, r, wire, out, chunks, k.value);
        left := FillFrameFlow(a, r.(encrypted := Splice(r.encrypted, r.encryptedPos, wire[..k.value]), encryptedPos := r.encryptedPos + k.value),
                              wire[k.value..], out, io[1..], chunks);
      }
    }
  }

  // ---------------------------------------------------------------- one direction of a connection

  /** A writer and a reader joined by a byte pipe, with what the writer's caller was told is accepted, what it
      handed over in a write that has not returned (`inflight`), and what the reader's caller has received. */
  datatype Link = Link(writer: Writer, wire: Bytes, reader: Reader, accepted: Bytes, inflight: Bytes, delivered: Bytes, failed: bool)

  const NEW_LINK: Link := Link(NEW_WRITER, [], NEW_READER, [], [], [], false)

  datatype Move = Write(buf: Bytes, io: seq<Io>) | FlushOut(io: seq<Io>) | Read(size: nat, io: seq<Io>)

  /** A caller whose write is pending offers the same bytes again, and does not use a writer that failed. */
  predicate Legal(k: Link, m: Move) {
    match m
    case Write(buf, _) => !k.failed && k.inflight <= buf
    case FlushOut(_) => !k.failed
    case Read(_, _) => true
  }

  predicate Formed(k: Link) { k.writer.pos <= |k.writer.frame| && Shaped(k.reader) }

  function AdvanceWrite(a: Aead, k: Link, buf: Bytes, io: seq<Io>): (r: Link)
    requires Formed(k)
    ensures Formed(r)
  {
    var w := PollWrite(a, k.writer, buf, io);
    var k1 := k.(writer := w.writer, wire := k.wire + w.sent);
    if w.poll.Done? then k1.(accepted := k.accepted + buf[..Min(w.poll.value, |buf|)], inflight := [])
    else k1.(inflight := if w.writer.nonce > k.writer.nonce then Chunk(buf) else k.inflight, failed := w.poll.Failed?)
  }

  function AdvanceFlush(k: Link, io: seq<Io>): (r: Link)
    requires Formed(k)
    ensures Formed(r)
  {
    var f := PollFlush(k.writer, io);
    k.(writer := f.writer, wire := k.wire + f.sent, failed := f.poll.Failed?)
  }

  function AdvanceRead(a: Aead, k: Link, size: nat, io: seq<Io>): (r: Link)
    requires Formed(k)
    ensures Formed(r)
  {
    var g := PollRead(a, k.reader, k.wire, size, io);
    k.(reader := g.reader, wire := g.wire, delivered := k.delivered + (if g.poll.Done? then g.poll.value else []))
  }

  /** One poll; an illegal one is not made. */
  function Advance(a: Aead, k: Link, m: Move): (r: Link)
    requires Formed(k)
    ensures Formed(r)
  {
    if !Legal(k, m) then k else
      match m
      case Write(buf, io) => AdvanceWrite(a, k, buf, io)
      case FlushOut(io) => AdvanceFlush(k, io)
      case Read(size, io) => AdvanceRead(a, k, size, io)
  }

  function Run(a: Aead, k: Link, ms: seq<Move>): (r: Link)
    requires Formed(k)
    ensures Formed(r)
  {
    if ms == [] then k else Advance(a, Run(a, k, ms[..|ms| - 1]), ms[|ms| - 1])
  }

  /** What the reader has opened and not handed out. */
  ghost function Unread(r: Reader): (h: Bytes)
    requires Shaped(r)
  {
    r.plaintext[r.plaintextPos..]
  }

  /** Handed out, opened, and still in frames are together what was accepted or is in flight. */
  ghost predicate Carried(a: Aead, k: Link, chunks: seq<Bytes>) {
    && Formed(k)
    && Flow(a, k.reader, k.wire + Unsent(k.writer), chunks)
    && k.delivered + (Unread(k.reader) + Concat(chunks)) == k.accepted + k.inflight
    && k.writer.nonce == k.reader.nonce + |chunks|
    && (k.inflight != [] && chunks != [] ==> chunks[|chunks| - 1] == k.inflight)
  }

  /** Unless it failed, the writer queues a frame only for a pending write, and remembers how much that write took. */
  ghost predicate WriterOk(w: Writer, inflight: Bytes) {
    w.consumed == |inflight| && (w.consumed == 0 ==> w.frame == [])
  }

  ghost predicate LinkOk(a: Aead, k: Link, chunks: seq<Bytes>) {
    Carried(a, k, chunks) && (!k.failed ==> WriterOk(k.writer, k.inflight))
  }

  /** Bytes that go from the queue to the wire stay ahead of the reader. */
  lemma CarriedSent(a: Aead, k: Link, chunks: seq<Bytes>, sent: Bytes, w: Writer, failed: bool)
    requires Carried(a, k, chunks)
    requires w.nonce == k.writer.nonce && w.pos <= |w.frame| && Unsent(k.writer) == sent + Unsent(w)
    ensures Carried(a, k.(writer := w, wire := k.wire + sent, failed := failed), chunks)
  {
    hide Flow, Concat;
    assert k.wire + (sent + Unsent(w)) == k.wire + sent + Unsent(w);
  }

  /** Reporting the pending bytes as accepted changes no sum. */
  lemma CarriedSettled(a: Aead, k: Link, chunks: seq<Bytes>)
    requires Carried(a, k, chunks)
    ensures Carried(a, k.(accepted := k.accepted + k.inflight, inflight := []), chunks)
  {
    hide Flow, Concat;
    assert k.accepted + k.inflight + [] == k.accepted + k.inflight;
  }

  lemma CarriedQueued(a: Aead, k: Link, chunks: seq<Bytes>, buf: Bytes)
    requires Carried(a, k, chunks) && k.inflight == [] && Unsent(k.writer) == [] && buf != []
    ensures Carried(a, k.(writer := QueueFrame(a, k.writer, buf), inflight := Chunk(buf)), chunks + [Chunk(buf)])
  {
    hide Encoded, Concat, Frame, Sized, Held;
    var p := Chunk(buf);
    EncodedSnoc(a, chunks, k.reader.nonce, p);
    SizedSnoc(chunks, p);
    assert k.wire + [] == k.wire;
    ConcatSnoc(chunks, p);
    Regroup(Held(k.reader), k.wire, Frame(a, k.writer.nonce, p));
    Regroup(k.delivered, Unread(k.reader) + Concat(chunks), p);
    Regroup(Unread(k.reader), Concat(chunks), p);
    Regroup(k.accepted, [], p);
  }

  lemma SizedSnoc(chunks: seq<Bytes>, p: Bytes)
    requires Sized(chunks) && p != [] && |p| <= MAX_NOISE_PLAINTEXT_LEN
    ensures Sized(chunks + [p])
  {
  }

  /** A write that finishes a pending one reports exactly the bytes that one took. */
  lemma ResumeOk(a: Aead, k: Link, chunks: seq<Bytes>, buf: Bytes, io: seq<Io>)
    requires LinkOk(a, k, chunks) && !k.failed && k.inflight <= buf && k.writer.consumed > 0
    ensures LinkOk(a, AdvanceWrite(a, k, buf, io), chunks)
  {
    hide Carried, Flush;
    CarriedForm(a, k, chunks);
    var w := PollWrite(a, k.writer, buf, io);
    CarriedSent(a, k, chunks, w.sent, w.writer, w.poll.Failed?);
    CarriedSettled(a, k.(writer := w.writer, wire := k.wire + w.sent, failed := w.poll.Failed?), chunks);
    assert buf[..|k.inflight|] == k.inflight;
  }

  lemma CarriedForm(a: Aead, k: Link, chunks: seq<Bytes>)
    requires Carried(a, k, chunks)
    ensures Formed(k)
  {
  }

  /** A write with nothing pending queues one frame and hands as much of it to the inner stream as that takes. */
  lemma FreshWrite(a: Aead, w: Writer, buf: Bytes, io: seq<Io>)
    requires w.consumed == 0 && w.frame == [] && w.pos == 0
    ensures var r := PollWrite(a, w, buf, io);
            && (buf == [] ==> r == Written(w, Done(0), []))
            && (buf != [] ==>
                  && r.writer.nonce == w.nonce + 1
                  && Unsent(QueueFrame(a, w, buf)) == r.sent + Unsent(r.writer)
                  && (r.poll.Done? ==> r.writer.frame == [] && r.writer.consumed == 0
                                       && r.poll.value <= |buf| && buf[..r.poll.value] == Chunk(buf))
                  && (r.poll.Pending? ==> r.writer.consumed == |Chunk(buf)| > 0))
  {
    hide Flush, Frame;
    if buf != [] {
      Regroup(Flush(QueueFrame(a, w, buf), io).sent, [], []);
    }
  }

  lemma FreshOk(a: Aead, k: Link, chunks: seq<Bytes>, buf: Bytes, io: seq<Io>) returns (next: seq<Bytes>)
    requires LinkOk(a, k, chunks) && !k.failed && k.writer.consumed == 0
    ensures LinkOk(a, AdvanceWrite(a, k, buf, io), next)
  {
    hide Carried, PollWrite, Frame, Chunk;
    next := chunks;
    CarriedForm(a, k, chunks);
    FreshWrite(a, k.writer, buf, io);
    var w := PollWrite(a, k.writer, buf, io);
    if buf == [] {
      CarriedSent(a, k, chunks, [], k.writer, false);
      assert k.accepted + buf[..0] == k.accepted;
    } else {
      next := chunks + [Chunk(buf)];
      CarriedQueued(a, k, chunks, buf);
      var k1 := k.(writer := QueueFrame(a, k.writer, buf), inflight := Chunk(buf));
      CarriedSent(a, k1, next, w.sent, w.writer, w.poll.Failed?);
      CarriedSettled(a, k1.(writer := w.writer, wire := k.wire + w.sent, failed := w.poll.Failed?), next);
    }
  }

  lemma FlushOk(a: Aead, k: Link, chunks: seq<Bytes>, io: seq<Io>)
    requires LinkOk(a, k, chunks) && !k.failed
    ensures LinkOk(a, AdvanceFlush(k, io), chunks)
  {
    hide Carried, Flush;
    CarriedForm(a, k, chunks);
    var f := PollFlush(k.writer, io);
    CarriedSent(a, k, chunks, f.sent, f.writer, f.poll.Failed?);
  }

  /** The plaintext buffer does not touch the flow. */
  lemma PlaintextFree(a: Aead, r: Reader, ahead: Bytes, chunks: seq<Bytes>, p: Bytes, pos: nat)
    requires Flow(a, r, ahead, chunks) && pos <= |p|
    ensures Flow(a, r.(plaintext := p, plaintextPos := pos), ahead, chunks)
  {
    hide Encoded, Sized;
  }

  lemma FillFlow(a: Aead, r: Reader, wire: Bytes, out: Bytes, io: seq<Io>, chunks: seq<Bytes>)
    returns (left: seq<Bytes>)
    requires Lawful(a) && Shaped(r) && Flow(a, r, wire + out, chunks)
    ensures var f := Fill(a, r, wire, io);
            && Flow(a, f.reader, f.wire + out, left)
            && Unread(f.reader) + Concat(left) == Unread(r) + Concat(chunks)
            && f.reader.nonce + |left| == r.nonce + |chunks|
            && |left| <= |chunks| && left == chunks[|chunks| - |left|..]
            && (f.poll == Done(true) ==> Unread(f.reader) != [])
            && (Healthy(io) ==> f.poll.Pending? || f.poll == Done(true))
  {
    hide Flow, Concat, FillFrame, Lawful;
    left := chunks;
    if r.plaintextPos == |r.plaintext| {
      PlaintextFree(a, r, wire + out, chunks, [], 0);
      left := FillFrameFlow(a, r.(plaintext := [], plaintextPos := 0), wire, out, io, chunks);
      assert [] + Concat(chunks) == Concat(chunks);
    }
  }

  /** Filling the plaintext buffer keeps the sums. */
  lemma CarriedFilled(a: Aead, k: Link, chunks: seq<Bytes>, io: seq<Io>) returns (left: seq<Bytes>)
    requires Lawful(a) && Formed(k) && Carried(a, k, chunks)
    ensures var f := Fill(a, k.reader, k.wire, io);
            Carried(a, k.(reader := f.reader, wire := f.wire), left)
  {
    hide Flow, Concat, Fill, Lawful;
    left := FillFlow(a, k.reader, k.wire, Unsent(k.writer), io, chunks);
  }

  /** Handing out the first `n` unread bytes keeps the sums. */
  lemma CarriedHandedOut(a: Aead, k: Link, chunks: seq<Bytes>, n: nat, r: Reader)
    requires Carried(a, k, chunks) && n <= |Unread(k.reader)|
    requires Shaped(r) && r == k.reader.(plaintext := r.plaintext, plaintextPos := r.plaintextPos)
    requires Unread(r) == Unread(k.reader)[n..]
    ensures Carried(a, k.(reader := r, delivered := k.delivered + Unread(k.reader)[..n]), chunks)
  {
    hide Flow, Concat;
    PlaintextFree(a, k.reader, k.wire + Unsent(k.writer), chunks, r.plaintext, r.plaintextPos);
    var all := Unread(k.reader);
    assert all == all[..n] + all[n..];
    Regroup(all[..n], all[n..], Concat(chunks));
    Regroup(k.delivered, all[..n], all[n..] + Concat(chunks));
  }

  lemma ReadOk(a: Aead, k: Link, chunks: seq<Bytes>, size: nat, io: seq<Io>) returns (left: seq<Bytes>)
    requires Lawful(a) && LinkOk(a, k, chunks)
    ensures LinkOk(a, AdvanceRead(a, k, size, io), left)
  {
    hide Carried, Fill, Lawful, WriterOk;
    left := chunks;
    CarriedForm(a, k, chunks);
    assert k.delivered + [] == k.delivered;
    if size > 0 {
      left := CarriedFilled(a, k, chunks, io);
      var f := Fill(a, k.reader, k.wire, io);
      if f.poll == Done(true) {
        var k1, g := k.(reader := f.reader, wire := f.wire), PollRead(a, k.reader, k.wire, size, io);
        CarriedHandedOut(a, k1, left, |g.poll.value|, g.reader);
      }
    }
  }

  lemma AdvanceOk(a: Aead, k: Link, chunks: seq<Bytes>, m: Move) returns (next: seq<Bytes>)
    requires Lawful(a) && LinkOk(a, k, chunks)
    ensures LinkOk(a, Advance(a, k, m), next)
  {
    hide LinkOk, AdvanceWrite, AdvanceFlush, AdvanceRead, Lawful;
    next := chunks;
    if Legal(k, m) {
      match m {
        case Write(buf, io) =>
          if k.writer.consumed > 0 { ResumeOk(a, k, chunks, buf, io); } else { next := FreshOk(a, k, chunks, buf, io); }
        case FlushOut(io) => FlushOk(a, k, chunks, io);
        case Read(size, io) => next := ReadOk(a, k, chunks, size, io);
      }
    }
  }

  lemma {:induction false} RunOk(a: Aead, ms: seq<Move>) returns (chunks: seq<Bytes>)
    requires Lawful(a)
    ensures LinkOk(a, Run(a, NEW_LINK, ms), chunks)
    decreases |ms|
  {
    hide Advance, Lawful;
    if ms == [] {
      chunks := [];
    } else {
      hide LinkOk;
      var before := RunOk(a, ms[..|ms| - 1]);
      chunks := AdvanceOk(a, Run(a, NEW_LINK, ms[..|ms| - 1]), before, ms[|ms| - 1]);
    }
  }

  /** Nothing is queued, on the wire, or held by the reader. */
  predicate Drained(k: Link)
    requires Formed(k)
  {
    Unsent(k.writer) == [] && k.wire == [] && k.reader.lenPos == 0 && k.reader.plaintextPos == |k.reader.plaintext|
  }

  /** Transparency: whatever the schedule, the reader hands out a prefix of what was accepted or is in flight, each
      byte once and in order, and all of it once drained.  It is a prefix of what was reported accepted exactly unless
      a write is still pending, its frame has been opened, and the reader has begun to hand it out. */
  lemma Transparent(a: Aead, ms: seq<Move>)
    requires Lawful(a)
    ensures var k := Run(a, NEW_LINK, ms);
            && k.delivered <= k.accepted + k.inflight
            && (Drained(k) ==> k.delivered == k.accepted + k.inflight)
            && (k.delivered <= k.accepted <==>
                  k.inflight == [] || k.reader.nonce < k.writer.nonce || |k.reader.plaintext| - k.reader.plaintextPos >= |k.inflight|)
            && (Unsent(k.writer) != [] ==> k.delivered <= k.accepted)
  {
    hide Run;
    var chunks := RunOk(a, ms);
    var k := Run(a, NEW_LINK, ms);
    var rest := Unread(k.reader) + Concat(chunks);
    assert k.delivered == (k.accepted + k.inflight)[..|k.delivered|];
    if chunks != [] && k.inflight != [] {
      LastChunk(chunks);
    }
    assert |k.delivered| <= |k.accepted| ==> k.delivered == k.accepted[..|k.delivered|];
    if Drained(k) { DrainedFlow(a, k.reader, chunks); }
    if k.inflight == [] { assert k.accepted + k.inflight == k.accepted; }
  }

  lemma {:induction false} LastChunk(chunks: seq<Bytes>)
    requires chunks != []
    ensures |Concat(chunks)| >= |chunks[|chunks| - 1]|
  {
    ConcatSnoc(chunks[..|chunks| - 1], chunks[|chunks| - 1]);
    assert chunks == chunks[..|chunks| - 1] + [chunks[|chunks| - 1]];
  }

  lemma DrainedFlow(a: Aead, r: Reader, chunks: seq<Bytes>)
    requires Flow(a, r, [], chunks) && r.lenPos == 0
    ensures chunks == []
  {
  }

  /** In every run, a read fails or reports the end only if the inner stream did: no frame is ever rejected. */
  lemma ReadsSucceed(a: Aead, ms: seq<Move>, size: nat, io: seq<Io>)
    requires Lawful(a) && Healthy(io) && size > 0
    ensures var k := Run(a, NEW_LINK, ms); var g := PollRead(a, k.reader, k.wire, size, io);
            g.poll.Pending? || (g.poll.Done? && g.poll.value != [])
  {
    hide Run, Flow, Fill, Lawful, Concat, WriterOk, Healthy;
    var chunks := RunOk(a, ms);
    var k := Run(a, NEW_LINK, ms);
    var left := FillFlow(a, k.reader, k.wire, Unsent(k.writer), io, chunks);
  }

  /** A read hands out as much as fits of what is open, opening the next chunk first if nothing is, and keeps the rest. */
  lemma ReadAmount(a: Aead, r: Reader, wire: Bytes, size: nat, io: seq<Io>)
    requires Shaped(r) && size > 0
    ensures var f := Fill(a, r, wire, io); var g := PollRead(a, r, wire, size, io); var open := Unread(f.reader);
            && (Unread(r) != [] ==> f == Filled(r, Done(true), wire))
            && (f.poll == Done(true) ==> g.poll == Done(open[..Min(|open|, size)]) && Unread(g.reader) == open[Min(|open|, size)..])
            && (f.poll == Done(false) ==> g.poll == Done([]))
            && (g.poll.Failed? <==> f.poll.Failed?) && (g.poll.Pending? <==> f.poll.Pending?) && g.wire == f.wire
  {
    hide Fill;
    FillKeeps(a, r, wire, io);
  }

  lemma FillKeeps(a: Aead, r: Reader, wire: Bytes, io: seq<Io>)
    requires Shaped(r)
    ensures Unread(r) != [] ==> Fill(a, r, wire, io) == Filled(r, Done(true), wire)
  {
    hide FillFrame;
  }

  /** A fresh write takes all it can in one frame and reports that much once the inner stream has flushed it. */
  lemma WriteAmount(a: Aead, w: Writer, buf: Bytes, io: seq<Io>)
    requires w.consumed == 0 && w.frame == [] && w.pos == 0 && PollWrite(a, w, buf, io).poll.Done?
    ensures PollWrite(a, w, buf, io).poll.value == Min(|buf|, 65519)
    ensures buf != [] ==> PollWrite(a, w, buf, io).sent == BigEndian(2, |a.seal(w.nonce, buf[..Min(|buf|, 65519)])| % 65536)
                                                          + a.seal(w.nonce, buf[..Min(|buf|, 65519)])
  {
    hide PollWrite, BigEndian;
    FreshWrite(a, w, buf, io);
    var r := PollWrite(a, w, buf, io);
    if buf != [] {
      assert Unsent(r.writer) == [] by { assert r.writer.frame == []; }
      assert r.sent + [] == r.sent;
      assert Unsent(QueueFrame(a, w, buf)) == Frame(a, w.nonce, Chunk(buf));
    }
  }

  /** A write that resumes a pending one reports that one's bytes when done, forgets them when the inner stream fails, and
      keeps them otherwise; it seals nothing new.  A fresh write that has to wait remembers what it took. */
  lemma WriteVerdict(a: Aead, w: Writer, buf: Bytes, io: seq<Io>)
    requires w.pos <= |w.frame|
    ensures w.consumed > 0 ==>
              var r := PollWrite(a, w, buf, io);
              && r.writer.nonce == w.nonce
              && (r.poll.Done? ==> r.poll.value == w.consumed && r.writer.consumed == 0)
              && (r.poll.Failed? ==> r.writer.consumed == 0)
              && (r.poll.Pending? ==> r.writer.consumed == w.consumed)
    ensures w.consumed == 0 && w.frame == [] && buf != [] && PollWrite(a, w, buf, io).poll.Pending? ==>
              PollWrite(a, w, buf, io).writer.consumed == Min(|buf|, 65519)
  {
    hide Flush, Frame;
  }

  /** The end of the inner stream is the end of this one between frames, and an error within one. */
  lemma StreamEnd(a: Aead, r: Reader, wire: Bytes, size: nat, io: seq<Io>)
    requires Shaped(r) && Unread(r) == [] && size > 0 && io != [] && io[0] == Ready(0)
    requires r.frameLen.None? ==> r.lenPos < 2
    requires r.frameLen.Some? ==> r.encryptedPos < r.frameLen.value
    ensures PollRead(a, r, wire, size, io).poll == if r.frameLen.None? && r.lenPos == 0 then Done([]) else Failed
  {
    hide FillFrame;
    FillFrameReads(a, r.(plaintext := [], plaintextPos := 0), wire, io);
  }

  /** A flush of a stream with nothing queued is done exactly if the inner stream flushes twice; with something queued, only
      after the inner stream took it all. */
  lemma FlushVerdict(w: Writer, io: seq<Io>)
    requires w.pos <= |w.frame|
    ensures PollFlush(w, io).poll.Done? ==> PollFlush(w, io).sent == Unsent(w) && PollFlush(w, io).writer.frame == []
    ensures w.pos == |w.frame| ==> (PollFlush(w, io).poll.Done? <==> |io| >= 2 && io[0].Ready? && io[1].Ready?)
  {
    hide Unsent;
    if w.pos == |w.frame| { FlushEnds(w, io); }
    var f := Flush(w, io);
    if f.poll.Done? { FlushDone(f); }
    Regroup(f.sent, [], []);
  }

  lemma FlushDone(f: Flushed)
    requires f.writer.frame == [] && f.writer.pos <= |f.writer.frame|
    ensures Unsent(f.writer) == []
  {
  }

  // ---------------------------------------------------------------- everything arrives

  const FULL: seq<Io> := [Ready(MAX_NOISE_FRAME_LEN), Ready(MAX_NOISE_FRAME_LEN)]

  /** The wire holds at least the rest of the next frame. */
  lemma FrameAhead(a: Aead, r: Reader, wire: Bytes, chunks: seq<Bytes>)
    requires Lawful(a) && Flow(a, r, wire, chunks) && chunks != []
    ensures |Held(r)| + |wire| >= 2 + |a.seal(r.nonce, chunks[0])|
    ensures |a.seal(r.nonce, chunks[0])| <= MAX_NOISE_FRAME_LEN
  {
    var e := Encoded(a, chunks[1..], r.nonce + 1);
    assert |Held(r) + wire| == |Frame(a, r.nonce, chunks[0]) + e|;
  }

  lemma EagerBody(a: Aead, r: Reader, wire: Bytes, chunks: seq<Bytes>, io: seq<Io>)
    requires Lawful(a) && Shaped(r) && Flow(a, r, wire, chunks) && r.frameLen.Some? && chunks != []
    requires io != [] && io[0] == Ready(MAX_NOISE_FRAME_LEN) && r.frameLen.value == |a.seal(r.nonce, chunks[0])|
    ensures FillFrame(a, r, wire, io).poll == Done(true)
  {
    hide Flow, Lawful, Splice;
    assert wire + [] == wire;
    if r.encryptedPos == r.frameLen.value {
      Opened(a, r, wire, [], chunks, io);
    } else {
      FrameAhead(a, r, wire, chunks);
      var k := r.frameLen.value - r.encryptedPos;
      BodyRead(a, r, wire, [], chunks, k);
      var r1 := r.(encrypted := Splice(r.encrypted, r.encryptedPos, wire[..k]), encryptedPos := r.encryptedPos + k);
      Opened(a, r1, wire[k..], [], chunks, io[1..]);
    }
  }

  lemma EagerLength(a: Aead, r: Reader, wire: Bytes, chunks: seq<Bytes>, io: seq<Io>)
    requires Lawful(a) && Shaped(r) && Flow(a, r, wire, chunks) && r.frameLen.None? && r.lenPos == 2 && chunks != []
    requires io != [] && io[0] == Ready(MAX_NOISE_FRAME_LEN)
    ensures FillFrame(a, r, wire, io).poll == Done(true)
  {
    hide Flow, Lawful, FillFrame;
    LengthRead(a, r, wire, chunks);
    NextFrame(a, r, wire, chunks);
    var n := FromBigEndian(r.lenBuf);
    var r1 := r.(frameLen := Some(n), encrypted := Zeros(n), encryptedPos := 0);
    EagerBody(a, r1, wire, chunks, io);
    FillFrameLength(a, r, wire, io);
  }

  /** A reader whose next frame is on the wire opens it when the inner stream returns what it is asked for. */
  lemma Eager(a: Aead, r: Reader, wire: Bytes, chunks: seq<Bytes>)
    requires Lawful(a) && Shaped(r) && Flow(a, r, wire, chunks) && chunks != []
    ensures FillFrame(a, r, wire, FULL).poll == Done(true)
  {
    hide Lawful, Splice, Encoded;
    if r.frameLen.Some? {
      EagerBody(a, r, wire, chunks, FULL);
    } else if r.lenPos == 2 {
      EagerLength(a, r, wire, chunks, FULL);
    } else {
      FrameAhead(a, r, wire, chunks);
      var k := 2 - r.lenPos;
      assert wire + [] == wire && wire[k..] + [] == wire[k..];
      HeaderRead(a, r, wire, [], chunks, k);
      EagerLength(a, r.(lenBuf := Splice(r.lenBuf, r.lenPos, wire[..k]), lenPos := 2), wire[k..], chunks, FULL[1..]);
    }
  }

  /** As long as something is missing, such a read hands out at least one byte. */
  lemma ReadProgress(a: Aead, k: Link, chunks: seq<Bytes>)
    requires Lawful(a) && LinkOk(a, k, chunks) && Unsent(k.writer) == []
    requires k.delivered != k.accepted + k.inflight
    ensures |AdvanceRead(a, k, 1, FULL).delivered| > |k.delivered|
  {
    hide Lawful, Flow, FillFrame, WriterOk;
    assert k.wire + [] == k.wire;
    if Unread(k.reader) == [] {
      assert [] + Concat(chunks) == Concat(chunks);
      assert k.delivered + [] == k.delivered;
      PlaintextFree(a, k.reader, k.wire, chunks, [], 0);
      Eager(a, k.reader.(plaintext := [], plaintextPos := 0), k.wire, chunks);
    }
    var left := FillFlow(a, k.reader, k.wire, [], FULL, chunks);
  }

  lemma {:induction false} DrainReads(a: Aead, k: Link, chunks: seq<Bytes>) returns (ms: seq<Move>)
    requires Lawful(a) && LinkOk(a, k, chunks) && Unsent(k.writer) == []
    ensures Run(a, k, ms).delivered == k.accepted + k.inflight && Run(a, k, ms).accepted == k.accepted
    decreases |k.accepted| + |k.inflight| - |k.delivered|
  {
    hide Lawful, Flow, AdvanceRead;
    ms := [];
    if k.delivered != k.accepted + k.inflight {
      var m := Read(1, FULL);
      ReadProgress(a, k, chunks);
      var left := ReadOk(a, k, chunks, 1, FULL);
      var k1 := Advance(a, k, m);
      ReadKeeps(a, k, 1, FULL);
      var more := DrainReads(a, k1, left);
      ms := [m] + more;
      RunConcat(a, k, [m], more);
      RunOne(a, k, m);
    }
  }

  lemma ReadKeeps(a: Aead, k: Link, size: nat, io: seq<Io>)
    requires Formed(k)
    ensures var k' := AdvanceRead(a, k, size, io);
            k'.writer == k.writer && k'.accepted == k.accepted && k'.inflight == k.inflight && k'.failed == k.failed
  {
  }

  lemma RunOne(a: Aead, k: Link, m: Move)
    requires Formed(k)
    ensures Run(a, k, [m]) == Advance(a, k, m)
  {
    hide Advance;
    assert [m][..0] == [];
    assert Run(a, k, []) == k;
  }

  lemma {:induction false} RunConcat(a: Aead, k: Link, ms: seq<Move>, more: seq<Move>)
    requires Formed(k)
    ensures Run(a, k, ms + more) == Run(a, Run(a, k, ms), more)
    decreases |more|
  {
    hide Advance;
    if more == [] {
      assert ms + more == ms;
    } else {
      var n := |more| - 1;
      assert (ms + more)[..|ms| + n] == ms + more[..n];
      RunConcat(a, k, ms, more[..n]);
    }
  }

  /** Offering a pending write again to an inner stream that takes everything completes it. */
  lemma Completes(a: Aead, k: Link, chunks: seq<Bytes>) returns (m: Move)
    requires LinkOk(a, k, chunks) && !k.failed
    ensures Legal(k, m) && Completed(k, Advance(a, k, m))
  {
    hide Carried, Completed, AdvanceWrite, AdvanceFlush;
    CarriedForm(a, k, chunks);
    if k.writer.consumed > 0 {
      m := CompletesWrite(a, k);
    } else {
      CompletesIdle(k);
      m := FlushOut([Ready(1), Ready(1)]);
    }
  }

  ghost predicate Completed(k: Link, k': Link) {
    && Formed(k') && Unsent(k'.writer) == [] && !k'.failed
    && k'.delivered == k.delivered && k'.accepted == k.accepted + k.inflight && k'.inflight == []
  }

  lemma CompletesWrite(a: Aead, k: Link) returns (m: Move)
    requires Formed(k) && !k.failed && WriterOk(k.writer, k.inflight) && k.writer.consumed > 0
    ensures m.Write? && Legal(k, m) && Completed(k, AdvanceWrite(a, k, m.buf, m.io))
  {
    hide Flush;
    var n := |Unsent(k.writer)|;
    var io := if n == 0 then [Ready(1)] else [Ready(n), Ready(1)];
    FlushAll(k.writer, io);
    m := Write(k.inflight, io);
    assert k.inflight[..|k.inflight|] == k.inflight;
  }

  lemma CompletesIdle(k: Link)
    requires Formed(k) && !k.failed && WriterOk(k.writer, k.inflight) && k.writer.consumed == 0
    ensures Completed(k, AdvanceFlush(k, [Ready(1), Ready(1)]))
  {
    hide Flush;
    IdleFlush(k.writer);
    assert k.accepted + k.inflight == k.accepted;
  }

  lemma IdleFlush(w: Writer)
    requires w.frame == [] && w.pos == 0
    ensures PollFlush(w, [Ready(1), Ready(1)]).poll == Done(())
  {
  }

  lemma FlushAll(w: Writer, io: seq<Io>)
    requires w.pos <= |w.frame|
    requires io == if Unsent(w) == [] then [Ready(1)] else [Ready(|Unsent(w)|), Ready(1)]
    ensures Flush(w, io).poll == Done(())
  {
    if Unsent(w) != [] {
      assert Flush(w.(pos := |w.frame|), io[1..]).poll == Done(());
    }
  }

  /** Nothing is lost: from every run in which the writer has not failed, some further polls report the pending write
      accepted and hand out every accepted byte. */
  lemma Drains(a: Aead, ms: seq<Move>) returns (more: seq<Move>)
    requires Lawful(a) && !Run(a, NEW_LINK, ms).failed
    ensures var k := Run(a, NEW_LINK, ms); var k' := Run(a, NEW_LINK, ms + more);
            k'.delivered == k'.accepted == k.accepted + k.inflight
  {
    hide Lawful, Run, LinkOk, Advance;
    var k := Run(a, NEW_LINK, ms);
    var chunks := RunOk(a, ms);
    var m := Completes(a, k, chunks);
    var k1 := Advance(a, k, m);
    var left := AdvanceOk(a, k, chunks, m);
    var drain := DrainReads(a, k1, left);
    more := [m] + drain;
    RunOne(a, k, m);
    RunConcat(a, k, [m], drain);
    RunConcat(a, NEW_LINK, ms, more);
    assert k1.accepted + [] == k1.accepted;
  }

  // ---------------------------------------------------------------- ahead of acceptance

  /** While a write is pending the reader may already have its bytes: the inner stream took the whole frame and its
      flush is not ready.  "Delivered is a prefix of accepted" then fails. */
  lemma AheadOfAcceptance(a: Aead) returns (ms: seq<Move>)
    requires Lawful(a)
    ensures !(Run(a, NEW_LINK, ms).delivered <= Run(a, NEW_LINK, ms).accepted)
  {
    hide AdvanceRead;
    var m1, m2 := Write([7], [Ready(19), NotReady]), Read(1, FULL);
    ms := [m1, m2];
    assert ms[..1] == [m1];
    RunOne(a, NEW_LINK, m1);
    var chunks := RunOk(a, [m1]);
    var k := Run(a, NEW_LINK, [m1]);
    var w := QueueFrame(a, NEW_WRITER, [7]);
    assert Chunk([7]) == [7];
    assert |w.frame| == 19;
    assert Flush(w.(pos := 19), [NotReady]) == Flushed(w.(pos := 19), Pending, [], []);
    assert k.inflight == [7] && k.accepted == [] && Unsent(k.writer) == [];
    ReadKeeps(a, k, 1, FULL);
    ReadProgress(a, k, chunks);
  }
}
