/**
 What reaches the socket when the HTTP/1 write buffer is flushed against a
 stream that takes any part of what it is offered, refuses, or is interrupted:
 the loops of `src/h1/writebuf.rs` as functions of the number of octets queued.
 */
module H1Flush {
  import opened Basics

  const FLATTEN_WRITE_LIMIT: nat := 16384

  /** One answer of the stream: at most so many octets taken, none on an error or a cancellation. */
  datatype Answer = Accept(most: nat) | Stop

  /** Octets taken of `len`; a stream that has said its part takes everything. */
  function Offer(len: nat, script: seq<Answer>): (n: nat)
    ensures n <= len
  {
    if script == [] then len
    else match script[0] case Accept(most) => Min(most, len) case Stop => 0
  }

  function Later(script: seq<Answer>): seq<Answer> {
    if script == [] then [] else script[1..]
  }

  /** Octets put on the wire, octets dropped from the buffer, and whether the flush finished. */
  datatype Run = Run(sent: nat, consumed: nat, ok: bool, script: seq<Answer>)

  /** `flush_vectored_inner`: every accepted part is consumed at once. */
  function Vectored(len: nat, script: seq<Answer>): Run
    decreases len
  {
    var n := Offer(len, script);
    if len == 0 then Run(0, 0, true, script)
    else if n == 0 then Run(0, 0, false, Later(script))
    else
      var rest := Vectored(len - n, Later(script));
      Run(n + rest.sent, n + rest.consumed, rest.ok, rest.script)
  }

  /** `write_all` on one block. */
  function WriteAll(len: nat, script: seq<Answer>): Run
    decreases len
  {
    var n := Offer(len, script);
    if len == 0 then Run(0, 0, true, script)
    else if n == 0 then Run(0, 0, false, Later(script))
    else
      var rest := WriteAll(len - n, Later(script));
      Run(n + rest.sent, 0, rest.ok, rest.script)
  }

  /** `flush_flattened_inner`: a block is consumed only once `write_all` has returned. */
  function Flattened(len: nat, script: seq<Answer>): Run
    decreases len
  {
    var block := Min(len, FLATTEN_WRITE_LIMIT);
    var w := WriteAll(block, script);
    if len == 0 then Run(0, 0, true, script)
    else if !w.ok then w
    else
      var rest := Flattened(len - block, w.script);
      Run(block + rest.sent, block + rest.consumed, rest.ok, rest.script)
  }

  /** The first block of a flattened flush. */
  lemma FlattenedFirst(len: nat, script: seq<Answer>)
    ensures var block := Min(len, FLATTEN_WRITE_LIMIT); var w := WriteAll(block, script);
            if len == 0 then w == Flattened(len, script) == Run(0, 0, true, script)
            else if !w.ok then Flattened(len, script) == w
            else
              var rest := Flattened(len - block, w.script);
              Flattened(len, script) == Run(block + rest.sent, block + rest.consumed, rest.ok, rest.script)
  {
  }

  /** A vectored flush drops exactly what it sent, however it ends, and it is done when all is sent. */
  lemma {:induction false} VectoredExact(len: nat, script: seq<Answer>)
    ensures var r := Vectored(len, script); r.sent == r.consumed <= len && (r.ok <==> r.sent == len)
    decreases len
  {
    hide Offer, Later;
    if Offer(len, script) > 0 {
      VectoredExact(len - Offer(len, script), Later(script));
    }
  }

  lemma {:induction false} WriteAllSends(len: nat, script: seq<Answer>)
    ensures var r := WriteAll(len, script); r.consumed == 0 && r.sent <= len && (r.ok <==> r.sent == len)
    ensures len == 0 ==> WriteAll(len, script).script == script
    decreases len
  {
    hide Offer, Later;
    if Offer(len, script) > 0 {
      WriteAllSends(len - Offer(len, script), Later(script));
    }
  }

  /** A flattened flush that is cut short has dropped whole blocks only. */
  lemma {:induction false} FlattenedBlocks(len: nat, script: seq<Answer>)
    ensures var r := Flattened(len, script);
            && r.consumed <= r.sent <= len && (r.ok <==> r.sent == len)
            && (r.ok ==> r.consumed == len)
            && (!r.ok ==> r.consumed == r.sent - r.sent % FLATTEN_WRITE_LIMIT)
    decreases len
  {
    hide WriteAll;
    if len > 0 {
      var block := Min(len, FLATTEN_WRITE_LIMIT);
      WriteAllSends(block, script);
      var w := WriteAll(block, script);
      if w.ok {
        FlattenedBlocks(len - block, w.script);
        NextBlock(Flattened(len - block, w.script).sent);
      }
    }
  }

  lemma NextBlock(n: nat)
    ensures (FLATTEN_WRITE_LIMIT + n) % FLATTEN_WRITE_LIMIT == n % FLATTEN_WRITE_LIMIT
  {
  }

  /** A stream that never refuses. */
  ghost predicate Willing(script: seq<Answer>) {
    forall i :: 0 <= i < |script| ==> script[i].Accept? && script[i].most > 0
  }

  lemma {:induction false} WillingWriteAll(len: nat, script: seq<Answer>)
    requires Willing(script)
    ensures WriteAll(len, script).ok && Willing(WriteAll(len, script).script)
    decreases len
  {
    if len > 0 {
      WillingWriteAll(len - Offer(len, script), Later(script));
    }
  }

  lemma {:induction false} WillingVectored(len: nat, script: seq<Answer>)
    requires Willing(script)
    ensures Vectored(len, script).ok
    decreases len
  {
    if len > 0 {
      WillingVectored(len - Offer(len, script), Later(script));
    }
  }

  lemma {:induction false} WillingFlattened(len: nat, script: seq<Answer>)
    requires Willing(script)
    ensures Flattened(len, script).ok
    decreases len
  {
    hide WriteAll;
    if len > 0 {
      var block := Min(len, FLATTEN_WRITE_LIMIT);
      WillingWriteAll(block, script);
      WillingFlattened(len - block, WriteAll(block, script).script);
    }
  }

  /** For every pattern of non-zero partial writes both flushes finish, with every octet sent once. */
  lemma BothFlushesDeliver(len: nat, script: seq<Answer>)
    requires Willing(script)
    ensures var v, f := Vectored(len, script), Flattened(len, script);
            v.ok && f.ok && v.sent == v.consumed == len && f.sent == f.consumed == len
  {
    hide Vectored, Flattened, Willing;
    WillingVectored(len, script);
    WillingFlattened(len, script);
    VectoredExact(len, script);
    FlattenedBlocks(len, script);
  }

  /** What the peer sees of `data` when a flush that ran as `r` is followed by one that finishes. */
  function OnWire(data: Bytes, r: Run): Bytes
    requires r.consumed <= |data| && r.sent <= |data|
  {
    data[..r.sent] + data[r.consumed..]
  }

  /** An interrupted vectored flush can be taken up again: the peer sees the queued octets once. */
  lemma VectoredResumes(data: Bytes, script: seq<Answer>)
    ensures var r := Vectored(|data|, script); r.sent == r.consumed <= |data| && OnWire(data, r) == data
  {
    VectoredExact(|data|, script);
    var r := Vectored(|data|, script);
    assert data[..r.sent] + data[r.sent..] == data;
  }

  /** The peer sees `data` once although a flattened flush of it ran against `script` first. */
  predicate Resumed(data: Bytes, script: seq<Answer>) {
    FlattenedBlocks(|data|, script);
    OnWire(data, Flattened(|data|, script)) == data
  }

  lemma RunResumed(data: Bytes, script: seq<Answer>)
    ensures Resumed(data, script) <==> Flattened(|data|, script).sent == Flattened(|data|, script).consumed
  {
    hide Flattened;
    FlattenedBlocks(|data|, script);
    var r := Flattened(|data|, script);
    if r.sent == r.consumed {
      assert data[..r.sent] + data[r.sent..] == data;
    } else {
      assert |OnWire(data, r)| == |data| + (r.sent - r.consumed);
    }
  }

  /** A flattened flush can be interrupted at any point and taken up again if and only if at most one octet is queued. */
  lemma FlattenedResumes(data: Bytes)
    ensures (forall script: seq<Answer> :: Resumed(data, script)) <==> |data| <= 1
  {
    hide Resumed;
    if |data| <= 1 {
      forall script: seq<Answer> ensures Resumed(data, script) {
        FlattenedBlocks(|data|, script);
        RunResumed(data, script);
      }
    } else {
      CutInside(|data|);
      RunResumed(data, [Accept(1), Stop]);
    }
  }

  /** A stream that takes one octet of at least two and then stops. */
  lemma CutInside(len: nat)
    requires len >= 2
    ensures Flattened(len, [Accept(1), Stop]) == Run(1, 0, false, [])
  {
    var script := [Accept(1), Stop];
    assert Later(script) == [Stop] && Later([Stop]) == [];
    var block := Min(len, FLATTEN_WRITE_LIMIT);
    assert WriteAll(block - 1, [Stop]) == Run(0, 0, false, []);
    assert WriteAll(block, script) == Run(1, 0, false, []);
  }

  /** Cancelled after 2 of 3 octets, the flattened flush sends those 2 again. */
  lemma InterruptedBlockIsRepeated(a: Byte, b: Byte, c: Byte)
    ensures var r := Flattened(3, [Accept(2), Stop]);
            !r.ok && r.sent == 2 && r.consumed == 0 && OnWire([a, b, c], r) == [a, b, a, b, c]
  {
    var script := [Accept(2), Stop];
    assert Later(script) == [Stop];
    assert WriteAll(1, [Stop]) == Run(0, 0, false, []);
    assert WriteAll(3, script) == Run(2, 0, false, []);
    var data: Bytes := [a, b, c];
    assert data[..2] == [a, b] && data[0..] == data;
  }
}
