/**
 `NoiseStream` as it runs: buffers and positions updated by polling loops, proved against the functions of `Noise`.
 */
module NoiseStreams {
  import opened Base
  import opened Noise

  class NoiseStream {
    const cipher: Aead
    var sendingNonce: nat
    var receivingNonce: nat
    var readLenBuf: Bytes
    var readLenPos: nat
    var readFrameLen: Option<nat>
    var readEncrypted: Bytes
    var readEncryptedPos: nat
    var readPlaintext: Bytes
    var readPlaintextPos: nat
    var writeFrame: Bytes
    var writeFramePos: nat
    var writePendingConsumed: nat

    function WriterView(): (r: Writer)
      reads this
    {
      Writer(sendingNonce, writeFrame, writeFramePos, writePendingConsumed)
    }

    function ReaderView(): (r: Reader)
      reads this
    {
      Reader(receivingNonce, readLenBuf, readLenPos, readFrameLen, readEncrypted, readEncryptedPos, readPlaintext, readPlaintextPos)
    }

    ghost predicate Valid()
      reads this
    {
      writeFramePos <= |writeFrame| && Shaped(ReaderView())
    }

    constructor (cipher: Aead)
      ensures Valid() && this.cipher == cipher && WriterView() == NEW_WRITER && ReaderView() == NEW_READER
    {
      this.cipher := cipher;
      sendingNonce, receivingNonce := 0, 0;
      readLenBuf, readLenPos, readFrameLen := [0, 0], 0, None;
      readEncrypted, readEncryptedPos := [], 0;
      readPlaintext, readPlaintextPos := [], 0;
      writeFrame, writeFramePos, writePendingConsumed := [], 0, 0;
    }

    /** `io` holds the inner stream's answers during this call; `sent` is what it took. */
    method PollFlushPendingFrame(io: seq<Io>) returns (poll: Poll<()>, sent: Bytes, rest: seq<Io>)
      requires Valid()
      modifies this`writeFrame, this`writeFramePos
      ensures Valid()
      ensures Flushed(WriterView(), poll, sent, rest) == Flush(old(WriterView()), io)
    {
      hide Flush, Unsent;
      sent, rest := [], io;
      Regroup(Flush(WriterView(), io).sent, [], []);
      while writeFramePos < |writeFrame|
        invariant writeFramePos <= |writeFrame| && writeFrame == old(writeFrame)
        invariant var f := Flush(WriterView(), rest); Flush(old(WriterView()), io) == f.(sent := sent + f.sent)
        decreases |rest|
      {
        FlushStops(WriterView(), rest);
        Regroup(sent, [], []);
        if rest == [] || rest[0].NotReady? {
          return Pending, sent, [];
        }
        var answer := rest[0];
        if answer.Broken? || answer.n == 0 {
          return Failed, sent, rest[1..];
        }
        FlushTakes(WriterView(), rest);
        rest := rest[1..];
        var written := Min(answer.n, |writeFrame| - writeFramePos);
        Regroup(sent, writeFrame[writeFramePos..writeFramePos + written], Flush(WriterView().(pos := writeFramePos + written), rest).sent);
        sent := sent + writeFrame[writeFramePos..writeFramePos + written];
        writeFramePos := writeFramePos + written;
      }
      FlushEnds(WriterView(), rest);
      Regroup(sent, [], []);
      poll := InnerFlush(rest);
      rest := if rest == [] then [] else rest[1..];
      if poll.Done? {
        writeFrame, writeFramePos := [], 0;
      }
    }

    method QueueEncryptedFrame(plaintext: Bytes) returns (consumed: nat)
      requires Valid()
      modifies this`writeFrame, this`writeFramePos, this`sendingNonce
      ensures Valid()
      ensures WriterView() == QueueFrame(cipher, old(WriterView()), plaintext) && consumed == |Chunk(plaintext)|
    {
      consumed := Min(|plaintext|, MAX_NOISE_PLAINTEXT_LEN);
      var ciphertext := cipher.seal(sendingNonce, plaintext[..consumed]);
      sendingNonce := sendingNonce + 1;
      writeFrame := BigEndian(2, |ciphertext| % 0x1_0000);
      writeFrame := writeFrame + ciphertext;
      writeFramePos := 0;
    }

    method PollWrite(buf: Bytes, io: seq<Io>) returns (poll: Poll<nat>, sent: Bytes)
      requires Valid()
      modifies this`writeFrame, this`writeFramePos, this`sendingNonce, this`writePendingConsumed
      ensures Valid()
      ensures Written(WriterView(), poll, sent) == Noise.PollWrite(cipher, old(WriterView()), buf, io)
    {
      hide Flush, QueueFrame, Chunk, Unsent, Shaped;
      var flushed: Poll<()>;
      var rest := io;
      sent := [];
      if writePendingConsumed > 0 {
        flushed, sent, rest := PollFlushPendingFrame(io);
        match flushed {
          case Done(_) =>
            var consumed := writePendingConsumed;
            writePendingConsumed := 0;
            return Done(consumed), sent;
          case Failed =>
            writePendingConsumed := 0;
            return Failed, sent;
          case Pending =>
            return Pending, sent;
        }
      }
      if writeFrame != [] {
        flushed, sent, rest := PollFlushPendingFrame(io);
        match flushed {
          case Done(_) =>
          case Failed => return Failed, sent;
          case Pending => return Pending, sent;
        }
      }
      if buf == [] {
        return Done(0), sent;
      }
      var consumed := QueueEncryptedFrame(buf);
      var more;
      flushed, more, rest := PollFlushPendingFrame(rest);
      sent := sent + more;
      match flushed {
        case Done(_) => poll := Done(consumed);
        case Failed => poll := Failed;
        case Pending =>
          writePendingConsumed := consumed;
          poll := Pending;
      }
    }

    method PollFlush(io: seq<Io>) returns (poll: Poll<()>, sent: Bytes)
      requires Valid()
      modifies this`writeFrame, this`writeFramePos
      ensures Valid()
      ensures var f := Noise.PollFlush(old(WriterView()), io);
              WriterView() == f.writer && poll == f.poll && sent == f.sent
    {
      var rest;
      poll, sent, rest := PollFlushPendingFrame(io);
      if poll.Done? {
        poll := InnerFlush(rest);
      }
    }

    /** The loop that completes the length prefix; `incoming` is what the inner stream has ready, `left` what remains of
        it, and `stop` is set if the poll ends here. */
    method ReadLength(incoming: Bytes, answers: seq<Io>) returns (stop: Option<Poll<bool>>, left: Bytes, io: seq<Io>)
      requires Valid() && readFrameLen.None?
      modifies this`readLenBuf, this`readLenPos
      ensures Valid()
      ensures stop.Some? ==> Filled(ReaderView(), stop.value, left) == FillFrame(cipher, old(ReaderView()), incoming, answers)
      ensures stop.None? ==> FillFrame(cipher, ReaderView(), left, io) == FillFrame(cipher, old(ReaderView()), incoming, answers)
      ensures stop.None? ==> readLenPos == 2 && |io| <= |answers| && (old(readLenPos) < 2 ==> |io| < |answers|)
    {
      hide FillFrame, Splice, InnerRead;
      left, io := incoming, answers;
      while readLenPos < 2
        invariant Valid() && readFrameLen.None?
        invariant FillFrame(cipher, ReaderView(), left, io) == FillFrame(cipher, old(ReaderView()), incoming, answers)
        invariant |io| <= |answers| && (old(readLenPos) < readLenPos ==> |io| < |answers|) && old(readLenPos) <= readLenPos
        decreases |io|
      {
        FillFrameReads(cipher, ReaderView(), left, io);
        var read := InnerRead(left, 2 - readLenPos, io);
        if read.Pending? { return Some(Pending), left, io; }
        if read.Failed? { return Some(Failed), left, io; }
        if read.value == 0 && readLenPos == 0 { return Some(Done(false)), left, io; }
        if read.value == 0 { return Some(Failed), left, io; }
        readLenBuf := Splice(readLenBuf, readLenPos, left[..read.value]);
        readLenPos := readLenPos + read.value;
        left, io := left[read.value..], io[1..];
      }
      stop := None;
    }

    /** The loop that completes the ciphertext. */
    method ReadBody(incoming: Bytes, answers: seq<Io>) returns (stop: Option<Poll<bool>>, left: Bytes, io: seq<Io>)
      requires Valid() && readFrameLen.Some?
      modifies this`readEncrypted, this`readEncryptedPos
      ensures Valid()
      ensures stop.Some? ==> Filled(ReaderView(), stop.value, left) == FillFrame(cipher, old(ReaderView()), incoming, answers)
      ensures stop.None? ==> FillFrame(cipher, ReaderView(), left, io) == FillFrame(cipher, old(ReaderView()), incoming, answers)
      ensures stop.None? ==> readEncryptedPos == readFrameLen.value && |io| <= |answers|
    {
      hide FillFrame, Splice, InnerRead;
      left, io := incoming, answers;
      while readEncryptedPos < readFrameLen.value
        invariant Valid()
        invariant FillFrame(cipher, ReaderView(), left, io) == FillFrame(cipher, old(ReaderView()), incoming, answers)
        invariant |io| <= |answers|
        decreases |io|
      {
        FillFrameReads(cipher, ReaderView(), left, io);
        var read := InnerRead(left, readFrameLen.value - readEncryptedPos, io);
        if read.Pending? { return Some(Pending), left, io; }
        if read.Failed? || read.value == 0 { return Some(Failed), left, io; }
        readEncrypted := Splice(readEncrypted, readEncryptedPos, left[..read.value]);
        readEncryptedPos := readEncryptedPos + read.value;
        left, io := left[read.value..], io[1..];
      }
      stop := None;
    }

    /** Both loops: the ciphertext of one frame is complete, or the poll ends. */
    method CompleteFrame(incoming: Bytes, answers: seq<Io>) returns (stop: Option<Poll<bool>>, left: Bytes, io: seq<Io>)
      requires Valid()
      modifies this`readLenBuf, this`readLenPos, this`readFrameLen, this`readEncrypted, this`readEncryptedPos
      ensures Valid()
      ensures stop.Some? ==> Filled(ReaderView(), stop.value, left) == FillFrame(cipher, old(ReaderView()), incoming, answers)
      ensures stop.None? ==> FillFrame(cipher, ReaderView(), left, io) == FillFrame(cipher, old(ReaderView()), incoming, answers)
      ensures stop.None? ==> readFrameLen == Some(readEncryptedPos) && |io| <= |answers|
      ensures stop.None? && old(readFrameLen.None? && readLenPos < 2) ==> |io| < |answers|
    {
      hide FillFrame, FromBigEndian, Zeros;
      left, io := incoming, answers;
      if readFrameLen.None? {
        stop, left, io := ReadLength(left, io);
        if stop.Some? { return stop, left, io; }
        FillFrameLength(cipher, ReaderView(), left, io);
        var frameLen := FromBigEndian(readLenBuf);
        readFrameLen, readEncrypted, readEncryptedPos := Some(frameLen), Zeros(frameLen), 0;
      }
      stop, left, io := ReadBody(left, io);
    }

    method OpenFrame() returns (ok: bool)
      requires Valid() && readFrameLen == Some(readEncryptedPos)
      modifies this`receivingNonce, this`readLenPos, this`readFrameLen, this`readEncrypted, this`readEncryptedPos,
               this`readPlaintext, this`readPlaintextPos
      ensures Valid()
      ensures var p := cipher.unseal(old(receivingNonce), old(readEncrypted));
              && ok == p.Some?
              && ReaderView() == if ok then Reader(old(receivingNonce) + 1, readLenBuf, 0, None, [], 0, p.value, 0)
                                 else old(ReaderView())
    {
      var plaintext := cipher.unseal(receivingNonce, readEncrypted);
      if plaintext.None? { return false; }
      receivingNonce := receivingNonce + 1;
      readPlaintext, readPlaintextPos := plaintext.value, 0;
      readFrameLen, readLenPos := None, 0;
      readEncrypted, readEncryptedPos := [], 0;
      ok := true;
    }

    method PollFillPlaintext(incoming: Bytes, answers: seq<Io>) returns (poll: Poll<bool>, left: Bytes)
      requires Valid()
      modifies this`receivingNonce, this`readLenBuf, this`readLenPos, this`readFrameLen, this`readEncrypted, this`readEncryptedPos,
               this`readPlaintext, this`readPlaintextPos
      ensures Valid()
      ensures Filled(ReaderView(), poll, left) == Fill(cipher, old(ReaderView()), incoming, answers)
    {
      hide FillFrame;
      left := incoming;
      var io, stop, ok := answers, None, true;
      while true
        invariant Valid()
        invariant Fill(cipher, ReaderView(), left, io) == Fill(cipher, old(ReaderView()), incoming, answers)
        decreases |io|, if readFrameLen.Some? then 1 else if readLenPos == 2 then 2 else 0
      {
        if readPlaintextPos < |readPlaintext| {
          return Done(true), left;
        }
        readPlaintext, readPlaintextPos := [], 0;
        stop, left, io := CompleteFrame(left, io);
        if stop.Some? { return stop.value, left; }
        FillFrameOpens(cipher, ReaderView(), left, io);
        ok := OpenFrame();
        if !ok { return Failed, left; }
        if readPlaintext != [] { return Done(true), left; }
      }
    }

    /** Into a buffer of `size` bytes; the bytes copied are the poll's value. */
    method PollRead(size: nat, incoming: Bytes, answers: seq<Io>) returns (poll: Poll<Bytes>, left: Bytes)
      requires Valid()
      modifies this`receivingNonce, this`readLenBuf, this`readLenPos, this`readFrameLen, this`readEncrypted, this`readEncryptedPos,
               this`readPlaintext, this`readPlaintextPos
      ensures Valid()
      ensures Got(ReaderView(), poll, left) == Noise.PollRead(cipher, old(ReaderView()), incoming, size, answers)
    {
      if size == 0 {
        return Done([]), incoming;
      }
      var filled;
      filled, left := PollFillPlaintext(incoming, answers);
      match filled {
        case Pending => poll := Pending;
        case Failed => poll := Failed;
        case Done(false) => poll := Done([]);
        case Done(true) =>
          var available := readPlaintext[readPlaintextPos..];
          var len := Min(|available|, size);
          poll := Done(available[..len]);
          readPlaintextPos := readPlaintextPos + len;
          if readPlaintextPos == |readPlaintext| {
            readPlaintext, readPlaintextPos := [], 0;
          }
      }
    }
  }
}
