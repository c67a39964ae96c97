/**
 The HTTP/1 body readers over a socket that delivers its octets in any pieces,
 and the emission of a chunked body through the write buffer.
 */
module H1Body {
  import opened Basics
  import opened H1Chunk
  import opened H1Flush
  import opened H1Response
  import opened H1WriteBuf

  /** What one wait for the socket brings: octets, or the handler asking for the body first. */
  datatype Arrival = Piece(bytes: Bytes) | Wanted

  function Pending(arrivals: seq<Arrival>): Bytes
    decreases |arrivals|
  {
    if arrivals == [] then []
    else (if arrivals[0].Piece? then arrivals[0].bytes else []) + Pending(arrivals[1..])
  }

  /** The reading half of a connection: octets buffered, and arrivals still to come before the end of the stream. */
  class Reader {
    var buf: Bytes
    var arrivals: seq<Arrival>

    ghost predicate Valid()
      reads this
    {
      forall i :: 0 <= i < |arrivals| ==> arrivals[i].Piece? ==> arrivals[i].bytes != []
    }

    /** All octets not yet handed over, however they are cut. */
    ghost function Ahead(): Bytes
      reads this
    {
      buf + Pending(arrivals)
    }

    constructor (arrivals: seq<Arrival>)
      requires forall i :: 0 <= i < |arrivals| ==> arrivals[i].Piece? ==> arrivals[i].bytes != []
      ensures Valid() && buf == [] && this.arrivals == arrivals
    {
      buf, this.arrivals := [], arrivals;
    }

    /** `fill_buf_or_wanted`: 0 at the end of the stream, `None` when the handler asked for the body. */
    method Fill() returns (r: Option<nat>)
      requires Valid()
      modifies this
      ensures Valid() && Ahead() == old(Ahead())
      ensures r == Some(0) <==> old(arrivals) == []
      ensures r == Some(0) || r == None ==> buf == old(buf)
      ensures r == Some(0) ==> arrivals == []
      ensures r.Some? ==> |buf| == |old(buf)| + r.value && old(buf) <= buf
      ensures r != Some(0) ==> |arrivals| < |old(arrivals)|
    {
      if arrivals == [] {
        return Some(0);
      }
      var first := arrivals[0];
      ghost var later := Pending(arrivals[1..]);
      arrivals := arrivals[1..];
      match first {
        case Wanted =>
          assert [] + later == later;
          r := None;
        case Piece(bytes) =>
          assert buf + (bytes + later) == (buf + bytes) + later;
          buf := buf + bytes;
          r := Some(|bytes|);
      }
    }

    /** `split_to`: the first octets of the buffer leave it. */
    method SplitTo(n: nat) returns (r: Bytes)
      requires Valid() && n <= |buf|
      modifies this`buf
      ensures Valid() && r == old(buf)[..n] && buf == old(buf)[n..]
      ensures n <= |old(Ahead())| && r == old(Ahead())[..n] && Ahead() == old(Ahead())[n..]
    {
      r := buf[..n];
      buf := buf[n..];
    }

    lemma Exhausted()
      requires arrivals == []
      ensures Ahead() == buf
    {
      assert buf + [] == buf;
    }

    /** `read_body_fn`: a body of known length. */
    method ReadSized(contentLength: nat) returns (sent: seq<Bytes>)
      requires Valid()
      modifies this
      ensures Valid()
      ensures var n := Min(contentLength, |old(Ahead())|);
              Flatten(sent) == old(Ahead())[..n] && Ahead() == old(Ahead())[n..]
      ensures |Flatten(sent)| == contentLength <==> |old(Ahead())| >= contentLength
    {
      hide Pending, Flatten, Ahead;
      sent := [];
      FlattenNothing();
      var remaining, justStarted := contentLength, true;
      ghost var all, done := Ahead(), 0;
      while remaining > 0
        invariant Valid() && 0 <= done <= |all| && remaining == contentLength - done >= 0
        invariant Flatten(sent) == all[..done] && Ahead() == all[done..]
        invariant !justStarted && remaining > 0 ==> buf == []
        decreases |arrivals|, justStarted
      {
        var haveToRead := !justStarted || buf == [];
        justStarted := false;
        if haveToRead {
          var n := Fill();
          if n.None? {
            continue;
          }
          if n.value == 0 {
            Exhausted();
            break;
          }
        }
        var chunk := SplitTo(Min(|buf|, remaining));
        FlattenSnoc(sent, chunk);
        Sliding([], all, done, |chunk|);
        assert [] + all[..done] == all[..done] && [] + all[..done + |chunk|] == all[..done + |chunk|];
        done := done + |chunk|;
        remaining := remaining - |chunk|;
        sent := sent + [chunk];
      }
    }

    /** The size line of a chunk, searched again from one octet before each new arrival. */
    method ReadSizeLine() returns (r: Result<nat, BodyError>)
      requires Valid()
      modifies this
      ensures Valid()
      ensures var line := ReadLine(old(Ahead()));
              match line
              case Err(e) => r == Err(e)
              case Ok(l) => r == Ok(l.size) && l.used <= |old(Ahead())| && Ahead() == old(Ahead())[l.used..]
    {
      hide Pending, ParseSize, FindCrlf;
      var pos, justStarted := 0, true;
      ghost var all := Ahead();
      while true
        invariant Valid() && Ahead() == all
        invariant pos == (if justStarted then 0 else |buf|)
        invariant forall k :: 0 <= k && k + 2 <= Min(pos, LINE_LIMIT) ==> !CrlfAt(all, k)
        decreases |arrivals|, justStarted
      {
        if pos >= LINE_LIMIT {
          return Err(LineTooLong);
        }
        var begin := Max(pos - 1, 0);
        var haveToRead := !justStarted || buf == [];
        justStarted := false;
        if haveToRead {
          var n := Fill();
          if n.None? {
            continue;
          }
          if n.value == 0 {
            Exhausted();
            return Err(UnexpectedEof);
          }
          pos := pos + n.value;
        } else {
          pos := pos + |buf|;
        }
        var window := Min(pos, LINE_LIMIT);
        var found := FindCrlf(buf, begin, window);
        SameCrlfs(buf, Pending(arrivals));
        if found.Some? {
          var i := found.value;
          FirstCrlf(all, i, Min(|all|, LINE_LIMIT));
          assert all[..i] == buf[..i];
          var size := ParseSize(buf[..i]);
          if size.None? {
            return Err(BadSize);
          }
          var _ := SplitTo(i + 2);
          return Ok(size.value);
        }
      }
    }

    /** `read_body_chunk`. */
    method ReadOne(trailers: bool) returns (r: Result<Bytes, BodyError>)
      requires Valid()
      modifies this
      ensures Valid()
      ensures match ReadChunk(old(Ahead()), trailers)
              case Err(e) => r == Err(e)
              case Ok(t) => r == Ok(t.data) && t.used <= |old(Ahead())| && Ahead() == old(Ahead())[t.used..]
    {
      hide FindCrlf, ReadLine, Ahead, Pending;
      ghost var all := Ahead();
      var size := ReadSizeLine();
      if size.Err? {
        return Err(size.error);
      }
      ghost var used := ReadLine(all).value.used;
      assert Ahead() == all[used..];
      var len := size.value;
      if len == 0 && trailers {
        return Ok([]);
      }
      if len + 2 >= USIZE {
        return Err(SizeTooLarge);
      }
      var complete := Await(len + 2);
      if !complete {
        return Err(UnexpectedEof);
      }
      var chunk := SplitTo(len);
      var _ := SplitTo(2);
      BehindLine(all, used, len);
      return Ok(chunk);
    }

    /** Reading on until `n` octets are buffered. */
    method Await(n: nat) returns (ok: bool)
      requires Valid() && n > 0
      modifies this
      ensures Valid() && Ahead() == old(Ahead()) && ok == (|old(Ahead())| >= n)
      ensures ok ==> |buf| >= n
    {
      var read, justStarted := 0, true;
      while read < n
        invariant Valid() && Ahead() == old(Ahead())
        invariant read == (if justStarted then 0 else |buf|)
        decreases |arrivals|, justStarted
      {
        var haveToRead := !justStarted || buf == [];
        justStarted := false;
        if haveToRead {
          var k := Fill();
          if k.None? {
            continue;
          }
          if k.value == 0 {
            return false;
          }
          read := read + k.value;
        } else {
          read := read + |buf|;
        }
      }
      return true;
    }

    /** `read_chunked_body_fn` up to the trailers. */
    method ReadChunked(trailers: bool) returns (sent: seq<Bytes>, error: Option<BodyError>)
      requires Valid()
      modifies this
      ensures Valid()
      ensures var b := ReadBody(old(Ahead()), trailers);
              sent == b.chunks && error == b.error && (error.None? ==> Ahead() == b.rest)
    {
      hide ReadChunk;
      sent, error := [], None;
      ghost var whole := ReadBody(Ahead(), trailers);
      while true
        invariant Valid()
        invariant var b := ReadBody(Ahead(), trailers); whole == Body(sent + b.chunks, b.error, b.rest)
        decreases |Ahead()|
      {
        ChunkUses(Ahead(), trailers);
        var chunk := ReadOne(trailers);
        if chunk.Err? {
          assert sent + [] == sent;
          return sent, Some(chunk.error);
        }
        if chunk.value == [] {
          assert sent + [] == sent;
          return;
        }
        ghost var later := ReadBody(Ahead(), trailers).chunks;
        assert sent + ([chunk.value] + later) == (sent + [chunk.value]) + later;
        sent := sent + [chunk.value];
      }
    }
  }

  /** A chunk and its two closing octets behind a size line of `used` octets. */
  lemma BehindLine(all: Bytes, used: nat, len: nat)
    requires used + len + 2 <= |all|
    ensures all[used..][..len] == all[used..used + len] && all[used..][len..][2..] == all[used + len + 2..]
  {
  }

  /** More octets behind a buffer do not move the CRLFs inside it. */
  lemma SameCrlfs(buf: Bytes, more: Bytes)
    ensures forall k :: 0 <= k && k + 2 <= |buf| ==> CrlfAt(buf + more, k) == CrlfAt(buf, k)
  {
  }

  // Emission

  /** `write_chunk_size`: the digits are filled in from the right, ahead of the CRLF. */
  method WriteChunkSize(dst: array<Byte>, len: nat) returns (pos: nat)
    requires dst.Length == 18 && len < USIZE
    modifies dst
    ensures pos <= 16 && dst[pos..] == Hex(len) + CRLF
  {
    var n := len;
    pos := 16;
    HexFits(len);
    assert Hex(n) + dst[pos..16] == Hex(len);
    while true
      invariant pos <= 16 && Hex(n) + dst[pos..16] == Hex(len)
      decreases n
    {
      ghost var done := dst[pos..16];
      assert |Hex(n)| + (16 - pos) <= 16;
      pos := pos - 1;
      dst[pos] := Digit(n % 16);
      assert dst[pos..16] == [Digit(n % 16)] + done;
      if n / 16 == 0 {
        break;
      }
      assert (Hex(n / 16) + [Digit(n % 16)]) + done == Hex(n / 16) + ([Digit(n % 16)] + done);
      n := n / 16;
    }
    assert dst[pos..16] == Hex(len);
    dst[16] := CR;
    dst[17] := LF;
    assert dst[pos..] == dst[pos..16] + CRLF;
  }

  /** Without waits in between, the body text is the chunks, or the octets as they are. */
  lemma {:induction false} BodyTextMeans(chunked: bool, frames: seq<BodyFrame>)
    ensures BodyText(chunked, frames) == if chunked then ChunksText(Pieces(frames)) else Flatten(Pieces(frames))
    decreases |frames|
  {
    hide ChunkText;
    if frames != [] {
      BodyTextMeans(chunked, frames[1..]);
      assert Pieces(frames)[1..] == Pieces(frames[1..]);
    }
  }

  function Pieces(frames: seq<BodyFrame>): seq<Bytes> {
    seq(|frames|, i requires 0 <= i < |frames| => frames[i].data)
  }

  /** The write buffer and the socket as one value. */
  ghost function LinkOf(out: WriteBuf, stream: Stream): Link
    reads out, stream
  {
    Link(out.Contents(), stream.received, stream.script)
  }

  /** A flush that may be dropped or fail, as the program runs it while it waits. */
  method FlushAny(out: WriteBuf, stream: Stream, vectored: bool) returns (ok: bool)
    requires out.Valid() && out.Tight()
    modifies out, stream
    ensures out.Valid() && out.Tight() && out.Memory() <= old(out.Memory())
    ensures LinkOf(out, stream) == Flushed(old(LinkOf(out, stream)), vectored)
    ensures ok == Flush(|old(out.Contents())|, vectored, old(stream.script)).ok
  {
    hide Flatten, Vectored, Flattened;
    if vectored {
      ok := out.FlushVectored(stream);
      assert ok == Vectored(|old(out.Contents())|, old(stream.script)).ok by {
        VectoredExact(|old(out.Contents())|, old(stream.script));
        NoOctets(old(stream.script));
      }
    } else {
      ok := out.FlushFlattened(stream);
    }
  }

  lemma NoOctets(script: seq<Answer>)
    ensures Vectored(0, script).ok
  {
  }

  /** Writing parts of the queue until less than a batch is left. */
  method WriteBatches(out: WriteBuf, stream: Stream, vectored: bool) returns (ok: bool)
    requires out.Valid() && out.Tight()
    modifies out, stream
    ensures out.Valid() && out.Memory() <= old(out.Memory())
    ensures var r := Batches(old(LinkOf(out, stream)), vectored);
            ok == r.Some? && (ok ==> LinkOf(out, stream) == r.value && out.Tight())
  {
    hide Offer, Later, Flatten;
    while out.queued >= BATCH_THRESHOLD
      invariant out.Valid() && out.Tight() && out.Memory() <= old(out.Memory())
      invariant Batches(LinkOf(out, stream), vectored) == Batches(old(LinkOf(out, stream)), vectored)
      decreases out.queued
    {
      var n;
      QueueHasSlices(out);
      if vectored {
        n := out.WriteVectored(stream);
      } else {
        n := out.WriteFlattened(stream);
      }
      if n == 0 {
        return false;
      }
    }
    return true;
  }

  lemma QueueHasSlices(out: WriteBuf)
    requires out.Valid() && out.queued > 0
    ensures out.slices != []
  {
  }

  /** One piece of the body queued. */
  method QueuePiece(out: WriteBuf, chunked: bool, piece: Bytes)
    requires out.Valid() && piece != [] && |piece| < USIZE
    modifies out, out.Memory()
    ensures out.Valid() && out.Contents() == old(out.Contents()) + PieceText(chunked, piece)
    ensures fresh(out.Memory() - old(out.Memory()))
  {
    hide Hex, Flatten;
    if chunked {
      var dst := new Byte[18];
      var pos := WriteChunkSize(dst, |piece|);
      out.PushCopy(dst[pos..]);
      out.PushBytes(piece);
      out.Push(CRLF);
    } else {
      out.PushBytes(piece);
    }
  }

  lemma TextNotEmpty(chunked: bool, piece: Bytes)
    requires piece != []
    ensures PieceText(chunked, piece) != []
  {
  }

  /** One turn of the body loop: the flush while waiting, the piece, the batches. */
  method WriteFrame(out: WriteBuf, stream: Stream, mode: Mode, first: bool, f: BodyFrame) returns (ok: bool)
    requires out.Valid() && out.Tight() && |f.data| < USIZE
    modifies out, out.Memory(), stream
    ensures out.Valid() && fresh(out.Memory() - old(out.Memory()))
    ensures var r := SendFrame(old(LinkOf(out, stream)), mode, first, f);
            ok == r.Some? && (ok ==> LinkOf(out, stream) == r.value && out.Tight())
  {
    hide Flatten, Flushed, Flush, Batches, PieceText;
    if !first && f.wait {
      var _ := FlushAny(out, stream, mode.vectored);
    }
    if f.data == [] {
      return true;
    }
    TextNotEmpty(mode.chunked, f.data);
    QueuePiece(out, mode.chunked, f.data);
    ok := WriteBatches(out, stream, mode.vectored);
  }

  method WriteFrames(out: WriteBuf, stream: Stream, mode: Mode, frames: seq<BodyFrame>, endWait: bool) returns (ok: bool)
    requires out.Valid() && out.Tight() && forall i :: 0 <= i < |frames| ==> |frames[i].data| < USIZE
    modifies out, out.Memory(), stream
    ensures out.Valid() && fresh(out.Memory() - old(out.Memory()))
    ensures var r := SendFrames(old(LinkOf(out, stream)), mode, true, frames, endWait);
            ok == r.Some? && (ok ==> LinkOf(out, stream) == r.value && out.Tight())
  {
    hide Flatten, Flushed, SendFrame, LinkOf;
    var first := true;
    assert frames[0..] == frames;
    for i := 0 to |frames|
      invariant out.Valid() && out.Tight() && fresh(out.Memory() - old(out.Memory()))
      invariant SendFrames(LinkOf(out, stream), mode, first, frames[i..], endWait)
             == SendFrames(old(LinkOf(out, stream)), mode, true, frames, endWait)
      invariant first == (i == 0)
    {
      assert frames[i..][0] == frames[i] && frames[i..][1..] == frames[i + 1..];
      ok := WriteFrame(out, stream, mode, first, frames[i]);
      if !ok {
        return;
      }
      first := false;
    }
    if !first && endWait {
      var _ := FlushAny(out, stream, mode.vectored);
    }
    return true;
  }

  /** The body loop of `write_response`, its terminator and the last flush. */
  method WriteBody(out: WriteBuf, stream: Stream, mode: Mode, frames: seq<BodyFrame>, endWait: bool) returns (ok: bool)
    requires out.Valid() && out.Tight() && forall i :: 0 <= i < |frames| ==> |frames[i].data| < USIZE
    modifies out, out.Memory(), stream
    ensures out.Valid()
    ensures var r := Respond(old(LinkOf(out, stream)), mode, frames, endWait);
            ok == r.Some? && (ok ==> LinkOf(out, stream) == r.value)
  {
    hide Flatten, Flushed, Flush, SendFrames;
    ok := WriteFrames(out, stream, mode, frames, endWait);
    if !ok {
      return;
    }
    ghost var sent := LinkOf(out, stream);
    if mode.chunked {
      out.Push(TERMINATOR);
    } else {
      assert sent.queue + [] == sent.queue;
    }
    ok := FlushAny(out, stream, mode.vectored);
  }
}
