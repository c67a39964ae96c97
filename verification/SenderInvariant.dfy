/**
 The invariant of the send side, and the proof that every elementary step
 keeps it.
 */
module SenderInvariant {
  import opened Basics
  import opened SendTrace
  import opened Sender

  // Flow control

  predicate StreamFlow(s: Conn, id: StreamId)
    requires Live(s, id)
  {
    var w := s.streams[id].sendWindow;
    && w == StreamLeft(s.trace, id)
    && w - s.initialWindow >= -MAX_WINDOW
    && (w <= MAX_WINDOW || s.closing)
  }

  /** The connection's counters agree with the peer's accounts, and no frame overran them. */
  ghost predicate FlowInv(s: Conn) {
    && s.connWindow == ConnLeft(s.trace)
    && 0 <= s.connWindow <= MAX_WINDOW
    && s.initialWindow == InitialNow(s.trace)
    && s.initialWindow <= MAX_WINDOW
    && s.maxFrame == MaxFrameNow(s.trace)
    && DEFAULT_MAX_FRAME <= s.maxFrame <= MAX_FRAME_LIMIT
    && FlowLegal(s.trace)
    && forall id :: id in s.streams ==> StreamFlow(s, id)
  }

  // Stream identity

  ghost predicate NoDup(ids: seq<StreamId>) {
    forall i, j :: 0 <= i < j < |ids| ==> ids[i] != ids[j]
  }

  /** The order lists exactly the known ids, each once. */
  ghost predicate Memory(known: set<StreamId>, order: seq<StreamId>) {
    && NoDup(order)
    && (forall id :: id in order <==> id in known)
    && |order| == |known|
  }

  ghost predicate ClosedInv(s: Conn) {
    Memory(s.closedStreams, s.closedOrder) && |s.closedStreams| <= CLOSED_LIMIT
  }

  predicate WithinBudget(count: nat, limit: Option<nat>) {
    limit.Some? ==> count <= limit.value
  }

  ghost predicate LiveIds(s: Conn) {
    forall id :: id in s.streams ==> id % 2 == 1 && id <= s.highest && id !in s.closedStreams && WasOpened(s.trace, id)
  }

  ghost predicate ClosedIds(s: Conn) {
    forall id :: id in s.closedStreams ==> id <= s.highest && WasOpened(s.trace, id)
  }

  ghost predicate NewIds(s: Conn) {
    forall id :: id > s.highest ==> Untouched(s.trace, id)
  }

  ghost predicate LifeInv(s: Conn) {
    && ClosedInv(s)
    && FreshOpens(s.trace)
    && LiveIds(s) && ClosedIds(s) && NewIds(s)
    && |s.streams| <= s.limits.maxConcurrent
    && WithinBudget(s.localErrorResets, s.limits.maxLocalResets)
    && WithinBudget(s.acceptResets, s.limits.maxAcceptResets)
  }

  // Response bodies

  /** The DATA chunks among a list of messages. */
  function DataOf(msgs: seq<Msg>): seq<Chunk> {
    if msgs == [] then []
    else if msgs[0].Data? then [msgs[0].chunk] + DataOf(msgs[1..])
    else DataOf(msgs[1..])
  }

  /** Messages taken from one stream's channel and not yet handled. */
  datatype Hand = Empty | Holding(id: StreamId, msgs: seq<Msg>)

  function Waiting(s: Conn, id: StreamId, h: Hand): seq<Chunk>
    requires Live(s, id)
  {
    if h.Holding? && h.id == id then DataOf(h.msgs) else DataOf(s.streams[id].inbox)
  }

  /** Everything not yet sent, in order. */
  function Queue(s: Conn, id: StreamId, h: Hand): seq<Chunk>
    requires Live(s, id)
  {
    s.streams[id].pending + Waiting(s, id, h)
  }

  /** Until the stream has ended, sent and queued bytes are exactly what the task handed over. */
  ghost predicate StreamBody(s: Conn, id: StreamId, h: Hand)
    requires Live(s, id)
  {
    && (s.streams[id].localEnded <==> Ended(s.trace, id))
    && NoOrphan(s.trace, id)
    && (!s.streams[id].localEnded ==>
          && SentBytes(s.trace, id) + Flat(Queue(s, id, h)) == HandedBytes(s.trace, id)
          && EndAt(HandedChunks(s.trace, id)) == Shift(|SentBytes(s.trace, id)|, EndAt(Queue(s, id, h))))
  }

  ghost predicate BodyInv(s: Conn, h: Hand) {
    && EndsOnMark(s.trace)
    && (forall id :: CleanEnd(s.trace, id))
    && (forall id :: SentBytes(s.trace, id) <= HandedBytes(s.trace, id))
    && (forall id :: id in s.streams ==> StreamBody(s, id, h))
  }

  /** No stream keeps data while both of its windows are open. */
  ghost predicate NoIdleCredit(s: Conn) {
    !Raised(s.trace) ==> forall id :: Hungry(s, id) ==> s.connWindow <= 0
  }

  ghost predicate Inv(s: Conn) {
    FlowInv(s) && LifeInv(s) && BodyInv(s, Empty)
  }

  // One DATA frame

  predicate Affordable(s: Conn, id: StreamId, n: nat)
    requires Live(s, id)
  {
    n == 0 || (n <= s.connWindow && n <= s.streams[id].sendWindow && n <= s.maxFrame)
  }

  predicate CanSend(s: Conn, id: StreamId, n: nat, cost: nat) {
    Sendable(s, id, n, cost) && Affordable(s, id, n)
  }

  lemma WriteDataFlow(s: Conn, id: StreamId, n: nat, cost: nat)
    requires FlowInv(s) && CanSend(s, id, n, cost)
    ensures FlowInv(WriteData(s, id, n, cost))
  {
    var r := WriteData(s, id, n, cost);
    forall i | i in r.streams ensures StreamFlow(r, i) {
      assert StreamFlow(s, i);
    }
  }

  lemma RetireFlow(s: Conn, id: StreamId)
    requires FlowInv(s)
    ensures FlowInv(Retire(s, id))
  {
    var r := Retire(s, id);
    forall i | i in r.streams ensures StreamFlow(r, i) {
      assert StreamFlow(s, i);
    }
  }

  lemma ForgetOldest(known: set<StreamId>, order: seq<StreamId>)
    requires Memory(known, order) && order != []
    ensures Memory(known - {order[0]}, order[1..])
  {
    var o := order[1..];
    forall id ensures id in o <==> id in known - {order[0]} {
      if id in known && id != order[0] {
        var k :| 0 <= k < |order| && order[k] == id;
        assert o[k - 1] == id;
      }
    }
  }

  lemma RememberNew(known: set<StreamId>, order: seq<StreamId>, id: StreamId)
    requires Memory(known, order) && id !in known
    ensures Memory(known + {id}, order + [id])
  {
  }

  lemma MarkClosedKeeps(s: Conn, id: StreamId)
    requires ClosedInv(s)
    ensures ClosedInv(MarkClosed(s, id)) && id in MarkClosed(s, id).closedStreams
    ensures MarkClosed(s, id).closedStreams <= s.closedStreams + {id}
    ensures var r := MarkClosed(s, id);
            && r == s.(closedStreams := r.closedStreams, closedOrder := r.closedOrder, trace := r.trace)
            && (r.trace == s.trace || r.trace == Then(s.trace, Gone(id)))
  {
    var known, order := s.closedStreams, s.closedOrder;
    if |known| >= CLOSED_LIMIT {
      ForgetOldest(known, order);
      known, order := known - {order[0]}, order[1..];
    }
    if id !in known {
      RememberNew(known, order, id);
    }
  }

  lemma OpenedBelow(s: Conn, id: StreamId)
    requires LifeInv(s) && WasOpened(s.trace, id)
    ensures id <= s.highest
  {
    if id > s.highest {
      UntouchedIsBlank(s.trace, id);
    }
  }

  /** The note that a stream is gone says nothing about openings. */
  lemma GoneLife(t: Trace, id: StreamId)
    ensures FreshOpens(Then(t, Gone(id))) == FreshOpens(t)
    ensures forall i :: WasOpened(Then(t, Gone(id)), i) == WasOpened(t, i) && Untouched(Then(t, Gone(id)), i) == Untouched(t, i)
  {
  }

  /** The trace says the same about openings. */
  ghost predicate SameOpenings(t: Trace, u: Trace) {
    FreshOpens(u) == FreshOpens(t) && forall i :: WasOpened(u, i) == WasOpened(t, i) && Untouched(u, i) == Untouched(t, i)
  }

  /** One entry is gone, and at most its id is new among the closed ones. */
  ghost predicate Dropped(s: Conn, r: Conn, id: StreamId) {
    r.streams == s.streams - {id} && r.closedStreams <= s.closedStreams + {id}
  }

  /** A stream that was opened moves from the entries to the closed ones. */
  lemma DropLife(s: Conn, r: Conn, id: StreamId)
    requires LifeInv(s) && ClosedInv(r) && WasOpened(s.trace, id) && id <= s.highest && SameOpenings(s.trace, r.trace)
    requires Dropped(s, r, id) && r.highest == s.highest && r.limits == s.limits
    requires r.localErrorResets == s.localErrorResets && r.acceptResets == s.acceptResets
    ensures LifeInv(r)
  {
    hide ClosedInv, FreshOpens, WasOpened, Untouched, WithinBudget, Dropped, LiveIds, ClosedIds, NewIds;
    FewerStreams(s, r, id);
    DropLive(s, r, id);
    DropClosed(s, r, id);
    DropNew(s, r);
  }

  lemma DropLive(s: Conn, r: Conn, id: StreamId)
    requires SameOpenings(s.trace, r.trace) && Dropped(s, r, id) && r.highest == s.highest && LiveIds(s)
    ensures LiveIds(r)
  {
    hide FreshOpens, WasOpened, Untouched;
    forall i | i in r.streams
      ensures i % 2 == 1 && i <= r.highest && i !in r.closedStreams && WasOpened(r.trace, i)
    {
      assert i in s.streams && i != id;
    }
  }

  lemma DropClosed(s: Conn, r: Conn, id: StreamId)
    requires SameOpenings(s.trace, r.trace) && r.highest == s.highest && Dropped(s, r, id)
    requires WasOpened(s.trace, id) && id <= s.highest && ClosedIds(s)
    ensures ClosedIds(r)
  {
    hide FreshOpens, WasOpened, Untouched;
  }

  lemma DropNew(s: Conn, r: Conn)
    requires SameOpenings(s.trace, r.trace) && r.highest == s.highest && NewIds(s)
    ensures NewIds(r)
  {
    hide FreshOpens, WasOpened, Untouched;
  }

  lemma FewerStreams(s: Conn, r: Conn, id: StreamId)
    requires Dropped(s, r, id)
    ensures |r.streams| <= |s.streams|
  {
    assert r.streams.Keys == s.streams.Keys - {id};
  }

  lemma RetireLife(s: Conn, id: StreamId)
    requires LifeInv(s) && WasOpened(s.trace, id)
    ensures LifeInv(Retire(s, id))
  {
    hide MarkClosed, Memory, FreshOpens, WasOpened, Untouched;
    MarkClosedKeeps(s, id);
    OpenedBelow(s, id);
    GoneLife(s.trace, id);
    hide LifeInv;
    DropLife(s, Retire(s, id), id);
  }

  lemma WriteDataLife(s: Conn, id: StreamId, n: nat, cost: nat)
    requires LifeInv(s) && CanSend(s, id, n, cost)
    ensures LifeInv(WriteData(s, id, n, cost))
  {
    assert WriteData(s, id, n, cost).streams.Keys == s.streams.Keys;
  }

  /** Sending a prefix of the front chunk moves bytes from the queue to the wire and keeps the end mark. */
  lemma CutQueue(pending: seq<Chunk>, waiting: seq<Chunk>, n: nat)
    requires pending != [] && n <= |pending[0].data|
    ensures Flat(pending + waiting) == pending[0].data[..n] + Flat(Cut(pending, n) + waiting)
    ensures EndAt(pending + waiting) ==
            if pending[0].end && n == |pending[0].data| then Some(n)
            else Shift(n, EndAt(Cut(pending, n) + waiting))
  {
    var q, r := pending + waiting, Cut(pending, n) + waiting;
    assert q[1..] == pending[1..] + waiting;
    if n == |pending[0].data| {
      assert r == q[1..];
    } else {
      assert r[1..] == q[1..];
      assert pending[0].data == pending[0].data[..n] + pending[0].data[n..];
    }
  }

  lemma WriteDataBody(s: Conn, id: StreamId, n: nat, cost: nat, h: Hand)
    requires BodyInv(s, h) && CanSend(s, id, n, cost)
    ensures BodyInv(WriteData(s, id, n, cost), h)
  {
    var r := WriteData(s, id, n, cost);
    assert StreamBody(s, id, h);
    CutQueue(s.streams[id].pending, Waiting(s, id, h), n);
    WriteDataOwnBody(s, id, n, cost, h);
    forall i | i in r.streams ensures StreamBody(r, i, h) {
      assert StreamBody(s, i, h);
    }
    forall i ensures SentBytes(r.trace, i) <= HandedBytes(r.trace, i) {
      assert SentBytes(s.trace, i) <= HandedBytes(s.trace, i);
    }
    forall i ensures CleanEnd(r.trace, i) {
      assert CleanEnd(s.trace, i);
    }
  }

  lemma WriteDataOwnBody(s: Conn, id: StreamId, n: nat, cost: nat, h: Hand)
    requires CanSend(s, id, n, cost) && StreamBody(s, id, h)
    ensures StreamBody(WriteData(s, id, n, cost), id, h)
    ensures SentBytes(WriteData(s, id, n, cost).trace, id) <= HandedBytes(s.trace, id)
    ensures EndsStream(s, id, n) ==> EndAt(HandedChunks(s.trace, id)) == Some(|SentBytes(s.trace, id)| + n)
  {
    var r := WriteData(s, id, n, cost);
    var w := Waiting(s, id, h);
    CutQueue(s.streams[id].pending, w, n);
    assert Queue(r, id, h) == Cut(s.streams[id].pending, n) + w;
  }

  lemma RetireBody(s: Conn, id: StreamId, h: Hand)
    requires BodyInv(s, h)
    ensures BodyInv(Retire(s, id), h)
  {
    var r := Retire(s, id);
    forall i | i in r.streams ensures StreamBody(r, i, h) {
      assert StreamBody(s, i, h);
    }
    forall i ensures SentBytes(r.trace, i) <= HandedBytes(r.trace, i) && CleanEnd(r.trace, i) {
      assert SentBytes(s.trace, i) <= HandedBytes(s.trace, i) && CleanEnd(s.trace, i);
    }
  }

  /** The invariant while messages of one stream are in hand. */
  ghost predicate InvWith(s: Conn, h: Hand) {
    FlowInv(s) && LifeInv(s) && BodyInv(s, h)
  }

  /** Facts about one state that the larger proofs below use by name. */
  lemma Bounds(s: Conn, h: Hand)
    requires InvWith(s, h)
    ensures s.maxFrame > 0 && 0 <= s.connWindow <= MAX_WINDOW
    ensures WithinBudget(s.acceptResets, s.limits.maxAcceptResets)
    ensures WithinBudget(s.localErrorResets, s.limits.maxLocalResets)
    ensures forall id :: id in s.streams ==> id <= s.highest && WasOpened(s.trace, id)
  {
  }

  lemma RetireKeeps(s: Conn, id: StreamId, h: Hand)
    requires InvWith(s, h) && WasOpened(s.trace, id)
    ensures InvWith(Retire(s, id), h)
  {
    RetireFlow(s, id);
    RetireLife(s, id);
    RetireBody(s, id, h);
  }

  lemma SendFrontKeeps(s: Conn, id: StreamId, n: nat, cost: nat, h: Hand)
    requires InvWith(s, h) && CanSend(s, id, n, cost)
    ensures InvWith(SendFront(s, id, n, cost), h)
  {
    WriteDataFlow(s, id, n, cost);
    WriteDataLife(s, id, n, cost);
    WriteDataBody(s, id, n, cost, h);
    if EndsStream(s, id, n) && s.streams[id].taskDone {
      RetireKeeps(WriteData(s, id, n, cost), id, h);
    }
  }
}
