/**
 How a response body reaches the peer (`src/h1/write.rs`). While the program
 waits for the next frame of a body it flushes what is queued, and drops that
 flush the moment the frame arrives. Vectored writes keep the octets in step
 through any such interruption; flattened writes do so only if there is nothing
 to interrupt.
 */
module H1Response {
  import opened Basics
  import opened H1Chunk
  import opened H1Flush

  const BATCH_THRESHOLD: nat := 16384

  /** Octets queued, octets the peer has, and what the stream will answer. */
  datatype Link = Link(queue: Bytes, received: Bytes, script: seq<Answer>)

  /** A frame of the body, and whether the program had to wait for it. */
  datatype BodyFrame = BodyFrame(wait: bool, data: Bytes)

  datatype Mode = Mode(chunked: bool, vectored: bool)

  /** The text of one piece: a chunk, or its octets as they are; empty pieces are skipped. */
  function PieceText(chunked: bool, piece: Bytes): Bytes {
    if piece == [] then [] else if chunked then ChunkText(piece) else piece
  }

  function BodyText(chunked: bool, frames: seq<BodyFrame>): Bytes
    decreases |frames|
  {
    if frames == [] then [] else PieceText(chunked, frames[0].data) + BodyText(chunked, frames[1..])
  }

  function Ending(chunked: bool): Bytes {
    if chunked then TERMINATOR else []
  }

  function Flush(len: nat, vectored: bool, script: seq<Answer>): Run {
    if vectored then Vectored(len, script) else Flattened(len, script)
  }

  lemma FlushBounds(len: nat, vectored: bool, script: seq<Answer>)
    ensures var r := Flush(len, vectored, script);
            r.consumed <= r.sent <= len && (r.ok ==> r.consumed == len) && (vectored ==> r.sent == r.consumed)
  {
    VectoredExact(len, script);
    FlattenedBlocks(len, script);
  }

  /** A flush that finishes, fails or is dropped. */
  function Flushed(k: Link, vectored: bool): Link {
    FlushBounds(|k.queue|, vectored, k.script);
    var r := Flush(|k.queue|, vectored, k.script);
    Link(k.queue[r.consumed..], k.received + k.queue[..r.sent], r.script)
  }

  function Enqueue(k: Link, text: Bytes): Link {
    k.(queue := k.queue + text)
  }

  /** Writes until less than a batch is queued; a stream that takes nothing ends the response. */
  function Batches(k: Link, vectored: bool): Option<Link>
    decreases |k.queue|
  {
    if |k.queue| < BATCH_THRESHOLD then Some(k)
    else
      var n := Offer(if vectored then |k.queue| else Min(FLATTEN_WRITE_LIMIT, |k.queue|), k.script);
      if n == 0 then None
      else Batches(Link(k.queue[n..], k.received + k.queue[..n], Later(k.script)), vectored)
  }

  /** One frame of the body, `first` or with a flush while waiting for it. */
  function SendFrame(k: Link, mode: Mode, first: bool, f: BodyFrame): Option<Link> {
    var k1 := if !first && f.wait then Flushed(k, mode.vectored) else k;
    if f.data == [] then Some(k1) else Batches(Enqueue(k1, PieceText(mode.chunked, f.data)), mode.vectored)
  }

  /** All frames, and the wait for the end of the body. */
  function SendFrames(k: Link, mode: Mode, first: bool, frames: seq<BodyFrame>, endWait: bool): Option<Link>
    decreases |frames|
  {
    if frames == [] then Some(if !first && endWait then Flushed(k, mode.vectored) else k)
    else
      match SendFrame(k, mode, first, frames[0])
      case None => None
      case Some(next) => SendFrames(next, mode, false, frames[1..], endWait)
  }

  /** A whole body with its terminator and the last flush; `None` is a failed response. */
  function Respond(k: Link, mode: Mode, frames: seq<BodyFrame>, endWait: bool): Option<Link> {
    match SendFrames(k, mode, true, frames, endWait)
    case None => None
    case Some(sent) =>
      var last := Enqueue(sent, Ending(mode.chunked));
      if Flush(|last.queue|, mode.vectored, last.script).ok then Some(Flushed(last, mode.vectored)) else None
  }

  /** What the peer has or will get. */
  function Wire(k: Link): Bytes {
    k.received + k.queue
  }

  // Nothing is lost, and vectored writes repeat nothing

  /** From `k` to `r` with `text` queued between: nothing lost, and nothing repeated if the lengths agree. */
  predicate Carried(k: Link, text: Bytes, r: Link) {
    && |Wire(r)| >= |Wire(k)| + |text|
    && (|Wire(r)| == |Wire(k)| + |text| ==> Wire(r) == Wire(k) + text)
  }

  lemma CarriedOn(a: Link, s: Bytes, b: Link, t: Bytes, c: Link)
    requires Carried(a, s, b) && Carried(b, t, c)
    ensures Carried(a, s + t, c)
  {
    hide Wire;
    assert (Wire(a) + s) + t == Wire(a) + (s + t);
  }

  lemma FlushedCarries(k: Link, vectored: bool)
    ensures Carried(k, [], Flushed(k, vectored))
    ensures vectored || |k.queue| <= 1 ==> Wire(Flushed(k, vectored)) == Wire(k)
  {
    hide Flush;
    FlushBounds(|k.queue|, vectored, k.script);
    var r := Flush(|k.queue|, vectored, k.script);
    if !vectored && |k.queue| <= 1 {
      ShortIsSafe(|k.queue|, k.script);
    }
    if r.sent == r.consumed {
      assert k.queue == k.queue[..r.sent] + k.queue[r.sent..];
      assert k.received + k.queue[..r.sent] + k.queue[r.sent..] == k.received + (k.queue[..r.sent] + k.queue[r.sent..]);
    }
    assert Wire(k) + [] == Wire(k);
  }

  lemma ShortIsSafe(len: nat, script: seq<Answer>)
    requires len <= 1
    ensures var r := Flush(len, false, script); r.sent == r.consumed
  {
    FlattenedBlocks(len, script);
  }

  lemma EnqueueCarries(k: Link, text: Bytes)
    ensures Carried(k, text, Enqueue(k, text)) && Wire(Enqueue(k, text)) == Wire(k) + text
  {
  }

  lemma {:induction false} BatchesCarry(k: Link, vectored: bool)
    requires Batches(k, vectored).Some?
    ensures Wire(Batches(k, vectored).value) == Wire(k) && |Batches(k, vectored).value.queue| < BATCH_THRESHOLD
    ensures |Batches(k, vectored).value.queue| <= |k.queue|
    decreases |k.queue|
  {
    hide Offer, Later;
    if |k.queue| >= BATCH_THRESHOLD {
      var n := Offer(if vectored then |k.queue| else Min(FLATTEN_WRITE_LIMIT, |k.queue|), k.script);
      var next := Link(k.queue[n..], k.received + k.queue[..n], Later(k.script));
      assert k.queue == k.queue[..n] + k.queue[n..];
      assert k.received + k.queue[..n] + k.queue[n..] == k.received + (k.queue[..n] + k.queue[n..]);
      BatchesCarry(next, vectored);
    }
  }

  lemma FrameCarries(k: Link, mode: Mode, first: bool, f: BodyFrame)
    requires SendFrame(k, mode, first, f).Some?
    ensures var r := SendFrame(k, mode, first, f).value; var text := PieceText(mode.chunked, f.data);
            && Carried(k, text, r)
            && (mode.vectored || first || !f.wait || |k.queue| <= 1 ==> Wire(r) == Wire(k) + text)
            && |r.queue| <= |k.queue| + |text|
  {
    hide Batches, PieceText, Flushed, Wire;
    var text := PieceText(mode.chunked, f.data);
    var k1 := if !first && f.wait then Flushed(k, mode.vectored) else k;
    FlushedCarries(k, mode.vectored);
    FlushedShrinks(k, mode.vectored);
    NoText(mode.chunked);
    EnqueueCarries(k1, text);
    assert Wire(k) + [] == Wire(k) && [] + text == text && Wire(k1) + [] == Wire(k1);
    if f.data != [] {
      BatchesCarry(Enqueue(k1, text), mode.vectored);
    }
  }

  lemma NoText(chunked: bool)
    ensures PieceText(chunked, []) == []
  {
  }

  lemma FlushedShrinks(k: Link, vectored: bool)
    ensures |Flushed(k, vectored).queue| <= |k.queue|
  {
    FlushBounds(|k.queue|, vectored, k.script);
  }

  /** Nothing of a body is lost, whatever the stream does and however often it is interrupted. */
  lemma {:induction false} FramesCarry(k: Link, mode: Mode, first: bool, frames: seq<BodyFrame>, endWait: bool)
    requires SendFrames(k, mode, first, frames, endWait).Some?
    ensures var r := SendFrames(k, mode, first, frames, endWait).value;
            && Carried(k, BodyText(mode.chunked, frames), r)
            && (mode.vectored ==> Wire(r) == Wire(k) + BodyText(mode.chunked, frames))
    decreases |frames|
  {
    hide SendFrame, Flushed, Wire, PieceText;
    if frames == [] {
      FlushedCarries(k, mode.vectored);
      assert Wire(k) + [] == Wire(k);
    } else {
      var next := SendFrame(k, mode, first, frames[0]).value;
      var text, later := PieceText(mode.chunked, frames[0].data), BodyText(mode.chunked, frames[1..]);
      FrameCarries(k, mode, first, frames[0]);
      FramesCarry(next, mode, false, frames[1..], endWait);
      CarriedOn(k, text, next, later, SendFrames(next, mode, false, frames[1..], endWait).value);
      assert (Wire(k) + text) + later == Wire(k) + (text + later);
    }
  }

  lemma LastFlush(k: Link, vectored: bool)
    requires Flush(|k.queue|, vectored, k.script).ok
    ensures Flushed(k, vectored).received == Wire(k) && Flushed(k, vectored).queue == []
  {
    VectoredExact(|k.queue|, k.script);
    FlattenedBlocks(|k.queue|, k.script);
    assert k.queue[..|k.queue|] == k.queue;
  }

  /** The text the peer is to see of a response. */
  function Expected(k: Link, mode: Mode, frames: seq<BodyFrame>): Bytes {
    Wire(k) + (BodyText(mode.chunked, frames) + Ending(mode.chunked))
  }

  /** A response that succeeds has everything sent; with vectored writes, everything once, for every stream. */
  lemma ResponseDelivers(k: Link, mode: Mode, frames: seq<BodyFrame>, endWait: bool)
    requires Respond(k, mode, frames, endWait).Some?
    ensures var r := Respond(k, mode, frames, endWait).value;
            && r.queue == [] && |r.received| >= |Expected(k, mode, frames)|
            && (|r.received| == |Expected(k, mode, frames)| ==> r.received == Expected(k, mode, frames))
            && (mode.vectored ==> r.received == Expected(k, mode, frames))
  {
    hide SendFrames, Flushed, BodyText, Wire, Flush, Ending;
    FramesCarry(k, mode, true, frames, endWait);
    var sent := SendFrames(k, mode, true, frames, endWait).value;
    var last, text, end := Enqueue(sent, Ending(mode.chunked)), BodyText(mode.chunked, frames), Ending(mode.chunked);
    EnqueueCarries(sent, end);
    CarriedOn(k, text, sent, end, last);
    LastFlush(last, mode.vectored);
    assert (Wire(k) + text) + end == Wire(k) + (text + end);
  }

  // When flattened writes repeat nothing

  /** No wait behind the first frame finds more than one octet handed over so far, `total` of them before. */
  predicate Quiet(total: nat, chunked: bool, first: bool, frames: seq<BodyFrame>, endWait: bool)
    decreases |frames|
  {
    if frames == [] then !first && endWait ==> total <= 1
    else
      && (!first && frames[0].wait ==> total <= 1)
      && Quiet(total + |PieceText(chunked, frames[0].data)|, chunked, false, frames[1..], endWait)
  }

  lemma {:induction false} QuietCarries(k: Link, total: nat, mode: Mode, first: bool, frames: seq<BodyFrame>, endWait: bool)
    requires SendFrames(k, mode, first, frames, endWait).Some? && |k.queue| <= total
    requires Quiet(total, mode.chunked, first, frames, endWait)
    ensures Wire(SendFrames(k, mode, first, frames, endWait).value) == Wire(k) + BodyText(mode.chunked, frames)
    decreases |frames|
  {
    hide SendFrame, Flushed, Wire, PieceText;
    if frames == [] {
      FlushedCarries(k, mode.vectored);
      assert Wire(k) + [] == Wire(k);
    } else {
      var next := SendFrame(k, mode, first, frames[0]).value;
      var text, later := PieceText(mode.chunked, frames[0].data), BodyText(mode.chunked, frames[1..]);
      FrameCarries(k, mode, first, frames[0]);
      QuietCarries(next, total + |text|, mode, false, frames[1..], endWait);
      assert (Wire(k) + text) + later == Wire(k) + (text + later);
    }
  }

  // A stream that interrupts a flattened flush inside a block

  /** A stream that has nothing left to say takes everything. */
  lemma AllTaken(len: nat, vectored: bool)
    ensures Flush(len, vectored, []).ok && Flush(len, vectored, []).script == []
  {
    WillingVectored(len, []);
    WillingFlattened(len, []);
    EmptyScripts(len);
  }

  lemma {:induction false} EmptyScripts(len: nat)
    ensures Vectored(len, []).script == [] && Flattened(len, []).script == []
    decreases len
  {
    if len > 0 {
      assert WriteAll(Min(len, FLATTEN_WRITE_LIMIT), []) == Run(Min(len, FLATTEN_WRITE_LIMIT), 0, true, []);
      EmptyScripts(len - Min(len, FLATTEN_WRITE_LIMIT));
    }
  }

  lemma {:induction false} BatchesTaken(k: Link, vectored: bool)
    requires k.script == []
    ensures Batches(k, vectored).Some? && Batches(k, vectored).value.script == []
    decreases |k.queue|
  {
    if |k.queue| >= BATCH_THRESHOLD {
      var n := Offer(if vectored then |k.queue| else Min(FLATTEN_WRITE_LIMIT, |k.queue|), []);
      BatchesTaken(Link(k.queue[n..], k.received + k.queue[..n], []), vectored);
    }
  }

  /** On such a stream every response goes through. */
  lemma {:induction false} FramesTaken(k: Link, mode: Mode, first: bool, frames: seq<BodyFrame>, endWait: bool)
    requires k.script == []
    ensures var r := SendFrames(k, mode, first, frames, endWait); r.Some? && r.value.script == []
    decreases |frames|
  {
    hide Flush, Batches, PieceText;
    AllTaken(|k.queue|, mode.vectored);
    if frames != [] {
      var f := frames[0];
      var k1 := if !first && f.wait then Flushed(k, mode.vectored) else k;
      BatchesTaken(Enqueue(k1, PieceText(mode.chunked, f.data)), mode.vectored);
      FramesTaken(SendFrame(k, mode, first, f).value, mode, false, frames[1..], endWait);
    }
  }

  /** A flush dropped after one octet of at least two leaves that octet queued. */
  lemma OneOctetSent(k: Link)
    requires |k.queue| >= 2 && k.script == [Accept(1), Stop]
    ensures Flushed(k, false) == Link(k.queue, k.received + k.queue[..1], [])
  {
    CutInside(|k.queue|);
    assert k.queue[0..] == k.queue;
  }

  /** A flush of at most one octet that is dropped at once changes nothing but the script. */
  lemma DroppedFlush(k: Link, rest: seq<Answer>)
    requires |k.queue| <= 1
    ensures var pre := if |k.queue| == 0 then [] else [Stop];
            Flushed(k.(script := pre + rest), false) == k.(script := rest)
  {
    var pre := if |k.queue| == 0 then [] else [Stop];
    if |k.queue| == 0 {
      assert pre + rest == rest;
    } else {
      assert Later(pre + rest) == rest;
      assert WriteAll(1, pre + rest) == Run(0, 0, false, rest);
    }
    assert k.queue[0..] == k.queue && k.received + k.queue[..0] == k.received;
  }

  function Sips(n: nat): seq<Answer> {
    if n == 0 then [] else [Accept(1)] + Sips(n - 1)
  }

  /** The first `n` octets of the queue written. */
  function Moved(k: Link, n: nat): Link
    requires n <= |k.queue|
  {
    Link(k.queue[n..], k.received + k.queue[..n], k.script)
  }

  lemma MovedOn(k: Link, n: nat)
    requires n <= |k.queue|
    ensures Wire(Moved(k, n)) == Wire(k)
  {
    assert k.queue == k.queue[..n] + k.queue[n..];
    assert k.received + k.queue[..n] + k.queue[n..] == k.received + (k.queue[..n] + k.queue[n..]);
  }

  /** Octets to write before less than a batch is left. */
  function Excess(len: nat): (n: nat)
    ensures n <= len
  {
    if len < BATCH_THRESHOLD then 0 else len - BATCH_THRESHOLD + 1
  }

  /** Octet by octet, batches stop just below the threshold. */
  lemma {:induction false} SippedBatches(k: Link, rest: seq<Answer>)
    ensures var n := Excess(|k.queue|);
            Batches(k.(script := Sips(n) + rest), false) == Some(Moved(k, n).(script := rest))
    decreases |k.queue|
  {
    var n := Excess(|k.queue|);
    if n == 0 {
      assert Sips(0) + rest == rest && k.queue[0..] == k.queue && k.received + k.queue[..0] == k.received;
    } else {
      var next := Moved(k, 1).(script := Sips(n - 1) + rest);
      assert Sips(n) + rest == [Accept(1)] + (Sips(n - 1) + rest);
      assert Later(Sips(n) + rest) == Sips(n - 1) + rest;
      assert Batches(k.(script := Sips(n) + rest), false) == Batches(next, false);
      SippedBatches(next, rest);
      assert next.queue[n - 1..] == k.queue[n..];
      assert k.received + k.queue[..1] + next.queue[..n - 1] == k.received + k.queue[..n];
    }
  }

  /** The queue holds what was handed over, as far as one can tell two octets from more. */
  predicate Backlog(queue: Bytes, total: nat) {
    if total <= 1 then |queue| == total else |queue| >= 2
  }

  /** Waiting for a frame is flushing and then having it at once. */
  lemma WaitFirst(k: Link, mode: Mode, frames: seq<BodyFrame>, endWait: bool)
    requires if frames == [] then endWait else frames[0].wait
    ensures SendFrames(k, mode, false, frames, endWait) ==
            SendFrames(Flushed(k, mode.vectored), mode, true, frames, endWait)
  {
    hide Flushed, Batches;
  }

  /** A wait cut inside a block: whatever comes after it, one octet is there twice. */
  lemma CutRepeats(k: Link, chunked: bool, frames: seq<BodyFrame>, endWait: bool)
    requires |k.queue| >= 2 && if frames == [] then endWait else frames[0].wait
    ensures var r := SendFrames(k.(script := [Accept(1), Stop]), Mode(chunked, false), false, frames, endWait);
            r.Some? && r.value.script == [] && |Wire(r.value)| > |Wire(k)| + |BodyText(chunked, frames)|
  {
    hide Flushed, SendFrames, BodyText;
    var cut, mode := k.(script := [Accept(1), Stop]), Mode(chunked, false);
    OneOctetSent(cut);
    WireAgain(cut);
    WaitFirst(cut, mode, frames, endWait);
    FramesTaken(Flushed(cut, false), mode, true, frames, endWait);
    FramesCarry(Flushed(cut, false), mode, true, frames, endWait);
  }

  lemma WireAgain(k: Link)
    requires |k.queue| >= 2
    ensures |Wire(Link(k.queue, k.received + k.queue[..1], []))| == |Wire(k)| + 1
  {
  }

  /** What the stream answers to a quiet frame: a wait is dropped at once, batches go octet by octet. */
  function Answers(k: Link, chunked: bool, first: bool, f: BodyFrame): seq<Answer> {
    (if !first && f.wait && |k.queue| == 1 then [Stop] else [])
    + (if f.data == [] then [] else Sips(Excess(|k.queue + PieceText(chunked, f.data)|)))
  }

  function Sipped(k: Link, chunked: bool, f: BodyFrame): Link {
    var next := Enqueue(k, PieceText(chunked, f.data));
    if f.data == [] then k else Moved(next, Excess(|next.queue|))
  }

  lemma QuietFrame(k: Link, chunked: bool, first: bool, f: BodyFrame, rest: seq<Answer>)
    requires !first && f.wait ==> |k.queue| <= 1
    ensures SendFrame(k.(script := Answers(k, chunked, first, f) + rest), Mode(chunked, false), first, f)
            == Some(Sipped(k, chunked, f).(script := rest))
  {
    hide Flushed, Batches, PieceText, Sips;
    var pre := if !first && f.wait && |k.queue| == 1 then [Stop] else [];
    var next := Enqueue(k, PieceText(chunked, f.data));
    var sips := if f.data == [] then [] else Sips(Excess(|next.queue|));
    assert (pre + sips) + rest == pre + (sips + rest);
    if !first && f.wait {
      DroppedFlush(k, sips + rest);
    } else {
      assert pre + (sips + rest) == sips + rest;
    }
    if f.data == [] {
      assert sips + rest == rest;
    } else {
      SippedBatches(next, rest);
    }
  }

  lemma SippedBacklog(k: Link, total: nat, chunked: bool, f: BodyFrame)
    requires Backlog(k.queue, total)
    ensures var text := PieceText(chunked, f.data); var r := Sipped(k, chunked, f);
            Backlog(r.queue, total + |text|) && |Wire(r)| == |Wire(k)| + |text|
  {
    hide PieceText, Wire;
    NoText(chunked);
    var next := Enqueue(k, PieceText(chunked, f.data));
    EnqueueCarries(k, PieceText(chunked, f.data));
    MovedOn(next, Excess(|next.queue|));
  }

  /** If some wait is not quiet, a stream exists that makes the program send an octet twice. */
  lemma {:induction false} LoudRepeats(k: Link, total: nat, chunked: bool, first: bool, frames: seq<BodyFrame>, endWait: bool)
    returns (script: seq<Answer>)
    requires !Quiet(total, chunked, first, frames, endWait) && Backlog(k.queue, total)
    ensures var r := SendFrames(k.(script := script), Mode(chunked, false), first, frames, endWait);
            r.Some? && r.value.script == [] && |Wire(r.value)| > |Wire(k)| + |BodyText(chunked, frames)|
    decreases |frames|
  {
    hide Wire, PieceText, Sipped, Answers, SendFrame;
    if !first && (if frames == [] then endWait else frames[0].wait) && total >= 2 {
      script := [Accept(1), Stop];
      CutRepeats(k, chunked, frames, endWait);
    } else {
      var f := frames[0];
      SippedBacklog(k, total, chunked, f);
      var rest := LoudRepeats(Sipped(k, chunked, f), total + |PieceText(chunked, f.data)|, chunked, false, frames[1..], endWait);
      script := Answers(k, chunked, first, f) + rest;
      QuietFrame(k, chunked, first, f, rest);
    }
  }

  /** The peer sees exactly the text of the response, if it succeeds. */
  predicate Once(k: Link, mode: Mode, frames: seq<BodyFrame>, endWait: bool) {
    var r := Respond(k, mode, frames, endWait);
    r.Some? ==> r.value.received == Expected(k, mode, frames)
  }

  /** With vectored writes the peer sees the response once, for every stream and every interruption. */
  lemma VectoredOnce(k: Link, chunked: bool, frames: seq<BodyFrame>, endWait: bool)
    ensures Once(k, Mode(chunked, true), frames, endWait)
  {
    hide Respond, Expected;
    if Respond(k, Mode(chunked, true), frames, endWait).Some? {
      ResponseDelivers(k, Mode(chunked, true), frames, endWait);
    }
  }

  lemma QuietOnce(k: Link, chunked: bool, frames: seq<BodyFrame>, endWait: bool)
    requires Quiet(|k.queue|, chunked, true, frames, endWait)
    ensures Once(k, Mode(chunked, false), frames, endWait)
  {
    hide SendFrames, Flushed, BodyText, Wire, Flush, Ending, Quiet;
    var mode := Mode(chunked, false);
    if Respond(k, mode, frames, endWait).Some? {
      QuietCarries(k, |k.queue|, mode, true, frames, endWait);
      var sent := SendFrames(k, mode, true, frames, endWait).value;
      var last, text, end := Enqueue(sent, Ending(chunked)), BodyText(chunked, frames), Ending(chunked);
      EnqueueCarries(sent, end);
      LastFlush(last, false);
      assert (Wire(k) + text) + end == Wire(k) + (text + end);
    }
  }

  lemma LoudFails(k: Link, chunked: bool, frames: seq<BodyFrame>, endWait: bool) returns (script: seq<Answer>)
    requires !Quiet(|k.queue|, chunked, true, frames, endWait)
    ensures var r := Respond(k.(script := script), Mode(chunked, false), frames, endWait);
            r.Some? && |r.value.received| > |Expected(k, Mode(chunked, false), frames)|
  {
    hide SendFrames, Flushed, BodyText, Wire, Flush, Ending, Quiet;
    var mode := Mode(chunked, false);
    script := LoudRepeats(k, |k.queue|, chunked, true, frames, endWait);
    var sent := SendFrames(k.(script := script), mode, true, frames, endWait).value;
    var last := Enqueue(sent, Ending(chunked));
    EnqueueCarries(sent, Ending(chunked));
    AllTaken(|last.queue|, false);
    LastFlush(last, false);
  }

  /**
   With flattened writes the peer sees the response once for every stream, if
   and only if no wait behind the first frame finds more than one octet handed
   over: in effect, if no frame behind the first has to be waited for.
   */
  lemma FlattenedOnce(queue: Bytes, received: Bytes, chunked: bool, frames: seq<BodyFrame>, endWait: bool)
    ensures (forall script: seq<Answer> :: Once(Link(queue, received, script), Mode(chunked, false), frames, endWait))
            <==> Quiet(|queue|, chunked, true, frames, endWait)
  {
    hide Once, Quiet;
    if Quiet(|queue|, chunked, true, frames, endWait) {
      forall script: seq<Answer>
        ensures Once(Link(queue, received, script), Mode(chunked, false), frames, endWait)
      {
        QuietOnce(Link(queue, received, script), chunked, frames, endWait);
      }
    } else {
      var script := LoudFails(Link(queue, received, []), chunked, frames, endWait);
      NotOnce(Link(queue, received, []), script, chunked, frames, endWait);
    }
  }

  lemma NotOnce(k: Link, script: seq<Answer>, chunked: bool, frames: seq<BodyFrame>, endWait: bool)
    requires var r := Respond(k.(script := script), Mode(chunked, false), frames, endWait);
             r.Some? && |r.value.received| > |Expected(k, Mode(chunked, false), frames)|
    ensures !Once(Link(k.queue, k.received, script), Mode(chunked, false), frames, endWait)
  {
    hide Respond, BodyText, Ending;
  }

  /** A response head and two one-octet pieces, the second waited for: the first octet of the head comes twice. */
  lemma HeadOctetComesTwice(head: Bytes, a: Byte, b: Byte)
    requires 2 <= |head| < 100
    ensures var r := Respond(Link(head, [], [Accept(1), Stop]), Mode(false, false), TwoPieces(a, b), false);
            r.Some? && r.value.received == head[..1] + head + [a, b]
  {
    hide Flush, SendFrames, Flushed;
    var k2 := Link(head + [a] + [b], [] + (head + [a])[..1], []);
    TwoPiecesSent(head, a, b);
    assert Enqueue(k2, []) == k2 by { assert k2.queue + [] == k2.queue; }
    AllTaken(|k2.queue|, false);
    LastFlush(k2, false);
    assert (head + [a])[..1] == head[..1];
    assert Wire(k2) == head[..1] + head + [a, b];
  }

  function TwoPieces(a: Byte, b: Byte): seq<BodyFrame> {
    [BodyFrame(false, [a]), BodyFrame(true, [b])]
  }

  lemma TwoPiecesSent(head: Bytes, a: Byte, b: Byte)
    requires 2 <= |head| < 100
    ensures SendFrames(Link(head, [], [Accept(1), Stop]), Mode(false, false), true, TwoPieces(a, b), false)
            == Some(Link(head + [a] + [b], [] + (head + [a])[..1], []))
  {
    hide SendFrame, Flushed;
    var f1, f2, mode := BodyFrame(false, [a]), BodyFrame(true, [b]), Mode(false, false);
    var frames := TwoPieces(a, b);
    assert frames[1..] == [f2] && [f2][1..] == [];
    var k := Link(head, [], [Accept(1), Stop]);
    var k1 := k.(queue := head + [a]);
    PlainFrame(k, true, f1);
    OneOctetSent(k1);
    PlainFrame(k1, false, f2);
    var k2 := Link(head + [a] + [b], [] + (head + [a])[..1], []);
    assert SendFrames(k2, mode, false, [], false) == Some(k2);
    assert SendFrames(k1, mode, false, [f2], false) == Some(k2);
  }

  /** A short piece sent as it is. */
  lemma PlainFrame(k: Link, first: bool, f: BodyFrame)
    requires var k1 := if !first && f.wait then Flushed(k, false) else k; |k1.queue| + |f.data| < BATCH_THRESHOLD
    requires f.data != []
    ensures var k1 := if !first && f.wait then Flushed(k, false) else k;
            SendFrame(k, Mode(false, false), first, f) == Some(k1.(queue := k1.queue + f.data))
  {
    hide Flushed;
  }
}
