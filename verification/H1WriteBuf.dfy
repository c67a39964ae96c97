/**
 The HTTP/1 gather-write buffer (`src/h1/writebuf.rs`): slices into octets
 owned elsewhere and into chunks the buffer copies into, flushed either as a
 vector of slices or flattened into blocks.
 */
module H1WriteBuf {
  import opened Basics
  import opened H1Flush

  const COPIED_CHUNK_CAPACITY: nat := 1024

  /** A chunk being filled: its memory, whose length is its capacity, and how much of it is used. */
  datatype Chunk = Chunk(mem: array<Byte>, used: nat)

  /** A slice of octets that outlive the buffer, of counted ones kept in `owned`, or of a chunk's memory. */
  datatype Slice = Static(bytes: Bytes) | Counted(bytes: Bytes) | View(mem: array<Byte>, start: nat, len: nat)

  /** Taking `n` more octets behind the first `done`. */
  lemma Sliding(before: Bytes, all: Bytes, done: nat, n: nat)
    requires done + n <= |all|
    ensures before + all[..done] + all[done..][..n] == before + all[..done + n]
    ensures all[done..][n..] == all[done + n..]
  {
  }

  function SliceLen(s: Slice): nat {
    if s.View? then s.len else |s.bytes|
  }

  /** `IoSlice::advance`. */
  function Advanced(s: Slice, n: nat): Slice
    requires n <= SliceLen(s)
  {
    match s
    case Static(bytes) => Static(bytes[n..])
    case Counted(bytes) => Counted(bytes[n..])
    case View(mem, start, len) => View(mem, start + n, len - n)
  }

  /** A socket: what it has received, and how it will answer. */
  class Stream {
    var received: Bytes
    var script: seq<Answer>

    constructor (script: seq<Answer>)
      ensures received == [] && this.script == script
    {
      received, this.script := [], script;
    }

    method Write(bytes: Bytes) returns (n: nat)
      modifies this
      ensures n == Offer(|bytes|, old(script)) && script == Later(old(script))
      ensures received == old(received) + bytes[..n]
    {
      n := Offer(|bytes|, script);
      script := Later(script);
      received := received + bytes[..n];
    }

    /** `write_all`. */
    method WriteEvery(bytes: Bytes) returns (ok: bool)
      modifies this
      ensures var w := WriteAll(|bytes|, old(script));
              && w.sent <= |bytes| && ok == w.ok && script == w.script
              && received == old(received) + bytes[..w.sent]
    {
      hide Offer, Later;
      var rest := bytes;
      ghost var done := 0;
      ghost var all := WriteAll(|bytes|, script);
      WriteAllSends(|bytes|, script);
      while |rest| > 0
        invariant 0 <= done <= |bytes| && rest == bytes[done..]
        invariant received == old(received) + bytes[..done]
        invariant var w := WriteAll(|rest|, script); all == Run(done + w.sent, 0, w.ok, w.script)
        decreases |rest|
      {
        var n := Write(rest);
        Sliding(old(received), bytes, done, n);
        if n == 0 {
          return false;
        }
        done := done + n;
        rest := rest[n..];
      }
      return true;
    }
  }

  class WriteBuf {
    var slices: seq<Slice>
    var owned: seq<Option<Bytes>>
    var chunks: seq<Chunk>
    var flattened: Bytes
    var queued: nat
    /** What each slice was pushed with, less what has been written of it. */
    ghost var texts: seq<Bytes>

    function Memory(): set<array<Byte>>
      reads this`chunks
    {
      set c | c in chunks :: c.mem
    }

    /** Chunks have memory of their own and are filled within their capacity. */
    ghost predicate ChunksOk()
      reads this`chunks
    {
      && (forall k :: 0 <= k < |chunks| ==> chunks[k].used <= chunks[k].mem.Length)
      && (forall j, k :: 0 <= j < k < |chunks| ==> chunks[j].mem != chunks[k].mem)
    }

    /** A slice still reads the octets it was pushed with. */
    ghost predicate Reads(s: Slice, owner: Option<Bytes>, text: Bytes)
      reads this`chunks, Memory()
    {
      match s
      case Static(bytes) => bytes == text
      case Counted(bytes) =>
        bytes == text && owner.Some? && |text| <= |owner.value| && owner.value[|owner.value| - |text|..] == text
      case View(mem, start, len) =>
        && mem in Memory() && start + len <= mem.Length && mem[start..start + len] == text
        && forall k :: 0 <= k < |chunks| && chunks[k].mem == mem ==> start + len <= chunks[k].used
    }

    ghost predicate SlicesOk()
      reads this`slices, this`owned, this`texts, this`chunks, Memory()
    {
      && ChunksOk()
      && |slices| == |owned| == |texts|
      && forall i :: 0 <= i < |slices| ==> Reads(slices[i], owned[i], texts[i])
    }

    ghost predicate Valid()
      reads this`slices, this`owned, this`texts, this`chunks, this`queued, Memory()
    {
      SlicesOk() && queued == |Flatten(texts)|
    }

    /** The octets still to be written, in order. */
    ghost function Contents(): Bytes
      reads this`texts
    {
      Flatten(texts)
    }

    /** Slices are only kept while there are octets to write. */
    ghost predicate Tight()
      reads this`slices, this`texts
    {
      slices != [] ==> Contents() != []
    }

    constructor ()
      ensures Valid() && Contents() == [] && slices == [] && fresh(Memory())
    {
      slices, owned, chunks, flattened, queued, texts := [], [], [], [], 0, [];
    }

    /** `push`. */
    method Push(bytes: Bytes)
      requires Valid()
      modifies this
      ensures Valid() && Contents() == old(Contents()) + bytes && Memory() == old(Memory())
    {
      queued := queued + |bytes|;
      FlattenSnoc(texts, bytes);
      slices, owned, texts := slices + [Static(bytes)], owned + [None], texts + [bytes];
    }

    /** `push_bytes`. */
    method PushBytes(bytes: Bytes)
      requires Valid()
      modifies this
      ensures Valid() && Contents() == old(Contents()) + bytes && Memory() == old(Memory())
    {
      if bytes == [] {
        return;
      }
      queued := queued + |bytes|;
      FlattenSnoc(texts, bytes);
      slices, owned, texts := slices + [Counted(bytes)], owned + [Some(bytes)], texts + [bytes];
    }

    /** A chunk with room for `n` more octets at the end of the list. */
    method Reserve(n: nat)
      requires Valid()
      modifies this`chunks
      ensures Valid() && chunks != [] && chunks[|chunks| - 1].mem.Length - chunks[|chunks| - 1].used >= n
      ensures fresh(Memory() - old(Memory())) && old(Memory()) <= Memory()
    {
      if chunks == [] || chunks[|chunks| - 1].mem.Length - chunks[|chunks| - 1].used < n {
        var mem := new Byte[Max(n, COPIED_CHUNK_CAPACITY)];
        chunks := chunks + [Chunk(mem, 0)];
        assert forall k :: 0 <= k < |old(chunks)| ==> chunks[k] == old(chunks)[k];
        assert Memory() == old(Memory()) + {mem};
      }
    }

    /** `push_copy`: appending within a chunk's capacity leaves every earlier slice as it was. */
    method PushCopy(bytes: Bytes)
      requires Valid()
      modifies this, Memory()
      ensures Valid() && Contents() == old(Contents()) + bytes && fresh(Memory() - old(Memory()))
    {
      if bytes == [] {
        return;
      }
      Reserve(|bytes|);
      AppendCopy(bytes);
    }

    /** Writing behind the used part of the last chunk. */
    method Fill(bytes: Bytes)
      requires Valid() && chunks != []
      requires chunks[|chunks| - 1].mem.Length - chunks[|chunks| - 1].used >= |bytes|
      modifies this`chunks, chunks[|chunks| - 1].mem
      ensures Valid() && Memory() == old(Memory()) && |chunks| == |old(chunks)|
      ensures var was, now := old(chunks[|chunks| - 1]), chunks[|chunks| - 1];
              && now == Chunk(was.mem, was.used + |bytes|) && now.used <= now.mem.Length
              && now.mem[was.used..now.used] == bytes
    {
      hide Flatten;
      var last := |chunks| - 1;
      var mem, start := chunks[last].mem, chunks[last].used;
      forall i | 0 <= i < |bytes| {
        mem[start + i] := bytes[i];
      }
      assert SlicesOk();
      chunks := chunks[last := Chunk(mem, start + |bytes|)];
      SameMemory(old(chunks), last, start + |bytes|);
    }

    lemma SameMemory(was: seq<Chunk>, last: nat, used: nat)
      requires last < |was| && chunks == was[last := was[last].(used := used)]
      ensures Memory() == set c | c in was :: c.mem
    {
      forall c | c in was
        ensures c.mem in Memory()
      {
        var k :| 0 <= k < |was| && was[k] == c;
        assert chunks[k].mem == c.mem && chunks[k] in chunks;
      }
    }

    /** What was just written at the end of the last chunk can be viewed there. */
    lemma FilledReads(start: nat, bytes: Bytes)
      requires ChunksOk() && chunks != [] && chunks[|chunks| - 1].used == start + |bytes|
      requires chunks[|chunks| - 1].mem[start..start + |bytes|] == bytes
      ensures Reads(View(chunks[|chunks| - 1].mem, start, |bytes|), None, bytes)
    {
      assert chunks[|chunks| - 1] in chunks;
    }

    method AppendCopy(bytes: Bytes)
      requires Valid() && chunks != []
      requires chunks[|chunks| - 1].mem.Length - chunks[|chunks| - 1].used >= |bytes|
      modifies this, chunks[|chunks| - 1].mem
      ensures Valid() && Contents() == old(Contents()) + bytes && Memory() == old(Memory())
    {
      hide Flatten, Memory, ChunksOk, Reads;
      var start := chunks[|chunks| - 1].used;
      Fill(bytes);
      FilledReads(start, bytes);
      queued := queued + |bytes|;
      FlattenSnoc(texts, bytes);
      var view := View(chunks[|chunks| - 1].mem, start, |bytes|);
      slices, owned, texts := slices + [view], owned + [None], texts + [bytes];
    }

    /** `advance_slices`: how many whole slices `n` octets cover, and how much of the next. */
    method CountWritten(n: nat) returns (remove: nat, left: nat)
      requires SlicesOk() && n <= |Contents()|
      ensures remove <= |slices| && n == |Flatten(texts[..remove])| + left
      ensures remove < |slices| ==> left < |texts[remove]|
      ensures remove == |slices| ==> left == 0
      ensures Flatten(texts[remove..])[left..] == Contents()[n..]
    {
      hide Flatten, ChunksOk;
      FlattenNothing();
      remove, left := 0, n;
      assert texts[0..] == texts && texts[..0] == [];
      while remove < |slices| && SliceLen(slices[remove]) <= left
        invariant remove <= |slices| && n == |Flatten(texts[..remove])| + left
        invariant left <= |Flatten(texts[remove..])| && Flatten(texts[remove..])[left..] == Contents()[n..]
      {
        assert Reads(slices[remove], owned[remove], texts[remove]);
        PassSlice(texts, remove, left);
        left := left - SliceLen(slices[remove]);
        remove := remove + 1;
      }
      if remove < |slices| {
        assert Reads(slices[remove], owned[remove], texts[remove]);
      } else {
        assert texts[remove..] == [];
      }
    }

    method DropFront(remove: nat)
      requires SlicesOk() && remove <= |slices|
      modifies this`slices, this`owned, this`texts
      ensures SlicesOk() && texts == old(texts)[remove..]
    {
      slices, owned, texts := slices[remove..], owned[remove..], texts[remove..];
    }

    method AdvanceFront(left: nat)
      requires SlicesOk() && slices != [] && left < |texts[0]|
      modifies this`slices, this`texts
      ensures SlicesOk() && slices != [] && texts == [old(texts)[0][left..]] + old(texts)[1..]
    {
      assert Reads(slices[0], owned[0], texts[0]);
      slices := slices[0 := Advanced(slices[0], left)];
      texts := texts[0 := texts[0][left..]];
      assert Reads(slices[0], owned[0], texts[0]);
    }

    /** With no slice left, the last chunk is kept for reuse and the others are dropped. */
    method Recycle()
      requires SlicesOk() && slices == []
      modifies this
      ensures Valid() && slices == [] && texts == [] && Memory() <= old(Memory())
    {
      queued, owned, flattened, texts := 0, [], [], [];
      if |chunks| > 1 {
        chunks := [chunks[|chunks| - 1].(used := 0)];
      } else if chunks != [] {
        chunks := [chunks[0].(used := 0)];
      }
    }

    /** `consume_written`: the written octets leave the front; chunks are reused only when no slice is left. */
    method ConsumeWritten(n: nat)
      requires Valid() && n <= |Contents()|
      modifies this
      ensures Valid() && Contents() == old(Contents())[n..] && Memory() <= old(Memory())
      ensures slices == [] <==> Contents() == []
    {
      hide ChunksOk, Flatten;
      queued := Max(queued - n, 0);
      var remove, left := CountWritten(n);
      DropFront(remove);
      if slices == [] {
        FlattenNothing();
        Recycle();
      } else {
        FrontAdvanced(texts, left);
        AdvanceFront(left);
      }
    }

    /** `fill_flattened`: the first octets of the queue copied into one block. */
    method FillFlattened(limit: nat) returns (len: nat)
      requires Valid()
      modifies this`flattened
      ensures len == Min(limit, |Contents()|) && flattened == Contents()[..len]
    {
      hide Flatten;
      flattened := [];
      var target := Min(limit, queued);
      assert texts[0..] == texts;
      var i := 0;
      while i < |slices| && |flattened| < target
        invariant i <= |slices| && |flattened| <= target
        invariant |flattened| < target ==> flattened + Flatten(texts[i..]) == Contents()
        invariant flattened <= Contents()
      {
        ghost var text, later := texts[i], Flatten(texts[i + 1..]);
        assert Reads(slices[i], owned[i], text);
        FlattenCons(text, texts[i + 1..]);
        assert texts[i..] == [text] + texts[i + 1..];
        assert flattened + (text + later) == (flattened + text) + later;
        var whole := Text(slices[i], owned[i], text);
        var n := Min(|whole|, target - |flattened|);
        assert flattened + text[..n] <= (flattened + text) + later;
        flattened := flattened + whole[..n];
        i := i + 1;
      }
      if |flattened| < target {
        assert texts[i..] == [];
        FlattenNothing();
      }
      return |flattened|;
    }

    /** The octets a slice reads. */
    method Text(s: Slice, owner: Option<Bytes>, ghost text: Bytes) returns (r: Bytes)
      requires Reads(s, owner, text)
      ensures r == text
    {
      match s {
        case Static(bytes) => r := bytes;
        case Counted(bytes) => r := bytes;
        case View(mem, start, len) => r := mem[start..start + len];
      }
    }

    /** All slices in order, as a vectored write offers them. */
    method Gather() returns (r: Bytes)
      requires Valid()
      ensures r == Contents()
    {
      hide ChunksOk;
      r := [];
      assert texts[0..] == texts;
      for i := 0 to |slices|
        invariant r + Flatten(texts[i..]) == Contents()
      {
        ghost var text := texts[i];
        assert Reads(slices[i], owned[i], text);
        assert texts[i..][1..] == texts[i + 1..];
        var whole := Text(slices[i], owned[i], text);
        assert r + (text + Flatten(texts[i + 1..])) == (r + text) + Flatten(texts[i + 1..]);
        r := r + whole;
      }
    }

    /** `write_vectored_inner` on a queue that is not empty: nothing, or a part that is then consumed. */
    method WriteVectored(stream: Stream) returns (n: nat)
      requires Valid() && slices != []
      modifies this, stream
      ensures Valid() && Memory() <= old(Memory()) && stream.script == Later(old(stream.script))
      ensures n <= |old(Contents())| && n == Offer(|old(Contents())|, old(stream.script))
      ensures stream.received == old(stream.received) + old(Contents())[..n]
      ensures Contents() == old(Contents())[n..]
      ensures n > 0 ==> (slices == [] <==> Contents() == [])
      ensures n == 0 ==> slices == old(slices)
    {
      hide Flatten;
      var offered := Gather();
      n := stream.Write(offered);
      if n > 0 {
        ConsumeWritten(n);
      }
    }

    /** `flush_vectored_inner`; slices that hold nothing at all are refused by the stream as a zero write. */
    method FlushVectored(stream: Stream) returns (ok: bool)
      requires Valid()
      modifies this, stream
      ensures Valid() && Memory() <= old(Memory())
      ensures var r := Vectored(|old(Contents())|, old(stream.script));
              && r.sent == r.consumed <= |old(Contents())|
              && stream.received == old(stream.received) + old(Contents())[..r.sent]
              && Contents() == old(Contents())[r.consumed..]
              && ok == (r.ok && (old(slices) == [] || old(Contents()) != []))
              && (old(Tight()) ==> Tight() && stream.script == r.script)
    {
      hide Flatten, Offer, Later, SlicesOk;
      ghost var all, done := Contents(), 0;
      ghost var run := Vectored(|all|, stream.script);
      VectoredExact(|all|, stream.script);
      while slices != []
        invariant Valid() && Memory() <= old(Memory())
        invariant 0 <= done <= |all| && Contents() == all[done..]
        invariant stream.received == old(stream.received) + all[..done]
        invariant if done > 0 then slices == [] <==> Contents() == [] else slices == old(slices)
        invariant var w := Vectored(|Contents()|, stream.script);
                  run == Run(done + w.sent, done + w.consumed, w.ok, w.script)
        decreases |Contents()|
      {
        VectoredExact(|Contents()|, stream.script);
        var n := WriteVectored(stream);
        Sliding(old(stream.received), all, done, n);
        if n == 0 {
          return false;
        }
        done := done + n;
      }
      NothingQueued();
      return true;
    }

    /** `write_flattened_inner` on a queue that is not empty: one block offered, what was taken of it consumed. */
    method WriteFlattened(stream: Stream) returns (n: nat)
      requires Valid() && slices != []
      modifies this, stream
      ensures Valid() && Memory() <= old(Memory()) && stream.script == Later(old(stream.script))
      ensures n == Offer(Min(FLATTEN_WRITE_LIMIT, |old(Contents())|), old(stream.script)) <= |old(Contents())|
      ensures stream.received == old(stream.received) + old(Contents())[..n]
      ensures Contents() == old(Contents())[n..]
      ensures old(Tight()) ==> Tight()
    {
      hide Flatten;
      var len := FillFlattened(FLATTEN_WRITE_LIMIT);
      n := stream.Write(flattened);
      if n > 0 {
        ConsumeWritten(n);
      }
    }

    lemma NothingQueued()
      requires Valid() && slices == []
      ensures Contents() == []
    {
    }

    /** One turn of `flush_flattened_inner`. */
    method FlushBlock(stream: Stream) returns (ok: bool)
      requires Valid() && slices != []
      modifies this, stream
      ensures Valid() && Memory() <= old(Memory())
      ensures var len := Min(FLATTEN_WRITE_LIMIT, |old(Contents())|);
              var w := WriteAll(len, old(stream.script));
              && w.sent <= len && ok == w.ok && stream.script == w.script
              && stream.received == old(stream.received) + old(Contents())[..w.sent]
              && Contents() == if ok then old(Contents())[len..] else old(Contents())
      ensures ok ==> (slices == [] <==> Contents() == [])
      ensures !ok ==> slices == old(slices)
    {
      hide Flatten;
      var len := FillFlattened(FLATTEN_WRITE_LIMIT);
      ok := stream.WriteEvery(flattened);
      if ok {
        ConsumeWritten(len);
      }
    }

    /** `flush_flattened_inner`. */
    method FlushFlattened(stream: Stream) returns (ok: bool)
      requires Valid()
      modifies this, stream
      ensures Valid() && Memory() <= old(Memory())
      ensures var r := Flattened(|old(Contents())|, old(stream.script));
              && r.consumed <= r.sent <= |old(Contents())| && ok == r.ok && stream.script == r.script
              && (old(Tight()) ==> Tight())
              && stream.received == old(stream.received) + old(Contents())[..r.sent]
              && Contents() == old(Contents())[r.consumed..]
    {
      hide Flatten, WriteAll, SlicesOk, Flattened, Memory;
      ghost var all, done := Contents(), 0;
      ghost var run := Flattened(|all|, stream.script);
      FlattenedBlocks(|all|, stream.script);
      while slices != []
        invariant Valid() && Memory() <= old(Memory())
        invariant 0 <= done <= |all| && Contents() == all[done..]
        invariant stream.received == old(stream.received) + all[..done]
        invariant old(Tight()) ==> Tight()
        invariant var w := Flattened(|Contents()|, stream.script);
                  run == Run(done + w.sent, done + w.consumed, w.ok, w.script)
        decreases |Contents()|, |slices|
      {
        ghost var len := Min(FLATTEN_WRITE_LIMIT, |Contents()|);
        WriteAllSends(len, stream.script);
        FlattenedFirst(|Contents()|, stream.script);
        ghost var w := WriteAll(len, stream.script);
        Sliding(old(stream.received), all, done, w.sent);
        var more := FlushBlock(stream);
        if !more {
          return false;
        }
        done := done + len;
      }
      NothingQueued();
      FlattenedFirst(0, stream.script);
      return true;
    }
  }

  /** One slice that was written as a whole. */
  lemma PassSlice(texts: seq<Bytes>, k: nat, left: nat)
    requires k < |texts| && |texts[k]| <= left <= |Flatten(texts[k..])|
    ensures |Flatten(texts[..k + 1])| == |Flatten(texts[..k])| + |texts[k]|
    ensures left - |texts[k]| <= |Flatten(texts[k + 1..])|
    ensures Flatten(texts[k + 1..])[left - |texts[k]|..] == Flatten(texts[k..])[left..]
  {
    hide Flatten;
    assert texts[..k + 1] == texts[..k] + [texts[k]];
    FlattenSnoc(texts[..k], texts[k]);
    assert texts[k..] == [texts[k]] + texts[k + 1..];
    FlattenCons(texts[k], texts[k + 1..]);
  }

  lemma FrontAdvanced(texts: seq<Bytes>, left: nat)
    requires texts != [] && left < |texts[0]|
    ensures left < |Flatten(texts)| && Flatten([texts[0][left..]] + texts[1..]) == Flatten(texts)[left..]
  {
    FlattenCons(texts[0][left..], texts[1..]);
  }

  lemma FlattenNothing()
    ensures Flatten([]) == []
  {
  }
}
