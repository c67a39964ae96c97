/**
 What sending queued DATA leaves alone: the inputs recorded so far, the other
 frames written, and the conversation with every stream task.
 */
module SenderPour {
  import opened Basics
  import opened SendTrace
  import opened Sender
  import opened SenderInvariant
  import opened SenderDrain

  /** Nothing was received or acknowledged between the two traces. */
  ghost predicate SameInputs(t: Trace, u: Trace) {
    && ConnGranted(u) == ConnGranted(t) && InitialNow(u) == InitialNow(t) && MaxFrameNow(u) == MaxFrameNow(t)
    && Openings(u) == Openings(t) && Acks(u) == Acks(t)
    && forall id :: StreamGranted(u, id) == StreamGranted(t, id) && Said(u, id) == Said(t, id)
  }

  /** No GOAWAY or RST_STREAM was written between the two traces. */
  ghost predicate SameControls(t: Trace, u: Trace) {
    && LastIds(u) == LastIds(t) && TopStream(u) == TopStream(t) && TrueLastIds(u) == TrueLastIds(t)
    && forall id :: WasReset(u, id) == WasReset(t, id) && WasOpened(u, id) == WasOpened(t, id)
  }

  ghost predicate SameFields(s: Conn, r: Conn) {
    && SameConfig(s, r) && r.initialWindow == s.initialWindow && r.closing == s.closing
    && r.localErrorResets == s.localErrorResets && r.acceptResets == s.acceptResets
  }

  ghost predicate SameRequests(s: Conn, r: Conn) {
    forall id :: Live(r, id) ==> Live(s, id) && r.streams[id].remoteEnded == s.streams[id].remoteEnded
  }

  predicate HasEnd(cs: seq<Chunk>) {
    exists i :: 0 <= i < |cs| && cs[i].end
  }

  /** DATA goes out only behind the response HEADERS, now and with what is queued. */
  predicate HeadReady(s: Conn, id: StreamId) {
    HeadFirst(s.trace, id) && (Queued(s, id) ==> HasHead(s.trace, id))
  }

  predicate EndFlag(s: Conn, id: StreamId) {
    Live(s, id) ==> (s.streams[id].localEnded <==> Ended(s.trace, id))
  }

  /** The entry is kept with what concerns its task, and its queue got no new end mark. */
  predicate SameTask(s: Conn, r: Conn, id: StreamId)
    requires Live(r, id)
  {
    && Live(s, id)
    && r.streams[id].inbox == s.streams[id].inbox && r.streams[id].taskDone == s.streams[id].taskDone
    && r.streams[id].responseStarted == s.streams[id].responseStarted
    && (HasEnd(r.streams[id].pending) ==> HasEnd(s.streams[id].pending))
  }

  /** No block was written for the stream and nothing said or heard; it ends only with a queued end mark. */
  ghost predicate Mute(s: Conn, r: Conn, id: StreamId) {
    && Blocks(r.trace, id) == Blocks(s.trace, id)
    && (Ended(s.trace, id) ==> Ended(r.trace, id))
    && (Ended(r.trace, id) && !Ended(s.trace, id) ==> Live(s, id) && HasEnd(s.streams[id].pending))
    && (EndFlag(s, id) ==> EndFlag(r, id))
    && (HeadReady(s, id) ==> HeadReady(r, id))
    && (Live(r, id) ==> SameTask(s, r, id))
  }

  /** From `s` to `r` queued DATA went out, and streams left only after their end. */
  ghost predicate Seeps(s: Conn, r: Conn) {
    && SameFields(s, r) && SameRequests(s, r) && SameInputs(s.trace, r.trace) && SameControls(s.trace, r.trace)
    && (forall id :: Mute(s, r, id))
    && (forall id :: Live(s, id) && !Live(r, id) ==> Ended(r.trace, id))
  }

  /** A stream whose task is done does not stay once it has ended. */
  predicate NoLinger(s: Conn, r: Conn, id: StreamId) {
    Live(r, id) && r.streams[id].taskDone && r.streams[id].localEnded ==> Live(s, id) && s.streams[id].localEnded
  }

  ghost predicate Pours(s: Conn, r: Conn) {
    Seeps(s, r) && forall id :: NoLinger(s, r, id)
  }

  lemma MuteThen(a: Conn, b: Conn, c: Conn, id: StreamId)
    requires Mute(a, b, id) && Mute(b, c, id)
    ensures Mute(a, c, id)
  {
    hide HeadReady, EndFlag, HasEnd;
  }

  lemma PoursNothing(s: Conn)
    ensures Pours(s, s)
  {
  }

  lemma SeepsThen(a: Conn, b: Conn, c: Conn)
    requires Seeps(a, b) && Seeps(b, c)
    ensures Seeps(a, c)
  {
    hide Mute;
    forall id ensures Mute(a, c, id) {
      MuteThen(a, b, c, id);
    }
    forall id | Live(a, id) && !Live(c, id)
      ensures Ended(c.trace, id)
    {
      if !Live(b, id) {
        EndedStays(b, c, id);
      }
    }
  }

  lemma PoursThen(a: Conn, b: Conn, c: Conn)
    requires Pours(a, b) && Pours(b, c)
    ensures Pours(a, c)
  {
    SeepsThen(a, b, c);
    forall id ensures NoLinger(a, c, id) {
      assert NoLinger(a, b, id) && NoLinger(b, c, id) && Mute(b, c, id);
    }
  }

  lemma EndedStays(s: Conn, r: Conn, id: StreamId)
    requires Mute(s, r, id) && Ended(s.trace, id)
    ensures Ended(r.trace, id)
  {
  }

  // One frame

  lemma GoneSeeps(s: Conn, id: StreamId)
    requires Ended(s.trace, id)
    ensures Seeps(s, Retire(s, id))
  {
    hide MarkClosed, ConnGranted, StreamGranted, Said, Blocks, Openings, Acks, LastIds, TopStream, TrueLastIds, WasReset, WasOpened,
         InitialNow,
         MaxFrameNow, Ended, HeadFirst, HasHead;
    var r := Retire(s, id);
    MarkClosedShape(s, id);
    GoneIsSilent(s.trace, id);
    forall i ensures Mute(s, r, i) {
    }
  }

  lemma MarkClosedShape(s: Conn, id: StreamId)
    ensures var r := MarkClosed(s, id);
            && r == s.(closedStreams := r.closedStreams, closedOrder := r.closedOrder, trace := r.trace)
            && (r.trace == s.trace || r.trace == Then(s.trace, Gone(id)))
  {
  }

  lemma GoneIsSilent(t: Trace, id: StreamId)
    ensures var u := Then(t, Gone(id));
            && SameInputs(t, u) && SameControls(t, u)
            && forall i :: Blocks(u, i) == Blocks(t, i) && Ended(u, i) == Ended(t, i) && HeadFirst(u, i) == HeadFirst(t, i)
                           && HasHead(u, i) == HasHead(t, i)
  {
  }

  lemma CutEnds(pending: seq<Chunk>, n: nat)
    requires pending != [] && n <= |pending[0].data|
    ensures HasEnd(Cut(pending, n)) ==> HasEnd(pending)
    ensures pending[0].end ==> HasEnd(pending)
  {
    var rest := Cut(pending, n);
    if HasEnd(rest) {
      var i :| 0 <= i < |rest| && rest[i].end;
      assert pending[if n == |pending[0].data| then i + 1 else i].end;
    }
  }

  lemma WriteDataSeeps(s: Conn, id: StreamId, n: nat, cost: nat)
    requires Sendable(s, id, n, cost)
    ensures Seeps(s, WriteData(s, id, n, cost))
  {
    var r := WriteData(s, id, n, cost);
    WriteDataInputs(s, id, n, cost);
    forall i ensures Mute(s, r, i) {
      WriteDataMute(s, id, n, cost, i);
    }
  }

  lemma WriteDataInputs(s: Conn, id: StreamId, n: nat, cost: nat)
    requires Sendable(s, id, n, cost)
    ensures var t, u := s.trace, WriteData(s, id, n, cost).trace; SameInputs(t, u) && SameControls(t, u)
    ensures SameFields(s, WriteData(s, id, n, cost))
  {
  }

  lemma WriteDataMute(s: Conn, id: StreamId, n: nat, cost: nat, i: StreamId)
    requires Sendable(s, id, n, cost)
    ensures Mute(s, WriteData(s, id, n, cost), i)
  {
    hide HasEnd;
    CutEnds(s.streams[id].pending, n);
    var t, u := s.trace, WriteData(s, id, n, cost).trace;
    assert Blocks(u, i) == Blocks(t, i);
  }

  lemma SendFrontPours(s: Conn, id: StreamId, n: nat, cost: nat)
    requires Sendable(s, id, n, cost)
    ensures Pours(s, SendFront(s, id, n, cost))
  {
    var w := WriteData(s, id, n, cost);
    WriteDataSeeps(s, id, n, cost);
    hide Seeps;
    if EndsStream(s, id, n) && s.streams[id].taskDone {
      GoneSeeps(w, id);
      SeepsThen(s, w, Retire(w, id));
      RetiredElse(w, id);
    }
  }

  lemma RetiredElse(s: Conn, id: StreamId)
    ensures Retire(s, id).streams == s.streams - {id}
  {
  }

  lemma AddDeficitPours(s: Conn, id: StreamId, quantum: nat)
    requires Live(s, id)
    ensures Pours(s, AddDeficit(s, id, quantum))
  {
    var r := AddDeficit(s, id, quantum);
    forall i ensures Mute(s, r, i) {
    }
  }

  // The pump and the rounds

  lemma SendFrontConfig(s: Conn, id: StreamId, n: nat, cost: nat)
    requires Sendable(s, id, n, cost)
    ensures SendFront(s, id, n, cost).maxFrame == s.maxFrame
  {
  }

  lemma {:induction false} PumpPours(s: Conn, id: StreamId)
    requires s.maxFrame > 0
    ensures Pours(s, Pump(s, id))
    decreases Work(s, id), 0
  {
    hide Pours, SendFront;
    if Queued(s, id) && s.streams[id].pending[0].data == [] {
      SendThenPump(s, id, 0);
    } else if Queued(s, id) && Available(s, id) > 0 {
      var n := Min(Fit(s, id), s.maxFrame);
      if n == |s.streams[id].pending[0].data| || n != Fit(s, id) {
        SendThenPump(s, id, n);
      } else {
        SendFrontPours(s, id, n, 0);
      }
    } else {
      PoursNothing(s);
    }
  }

  lemma {:induction false} SendThenPump(s: Conn, id: StreamId, n: nat)
    requires s.maxFrame > 0 && Sendable(s, id, n, 0)
    ensures var s1 := SendFront(s, id, n, 0); s1.maxFrame > 0 && Pours(s, Pump(s1, id))
    decreases Work(SendFront(s, id, n, 0), id), 1
  {
    hide Pours, Pump;
    var s1 := SendFront(s, id, n, 0);
    SendFrontConfig(s, id, n, 0);
    SendFrontPours(s, id, n, 0);
    PumpPours(s1, id);
    PoursThen(s, s1, Pump(s1, id));
  }

  lemma {:induction false} TurnPours(s: Conn, id: StreamId)
    requires s.maxFrame > 0
    ensures Pours(s, Turn(s, id))
    decreases Work(s, id)
  {
    hide Pours, SendFront;
    if Queued(s, id) && s.streams[id].pending[0].data == [] {
      var s1 := SendFront(s, id, 0, 0);
      SendFrontConfig(s, id, 0, 0);
      SendFrontPours(s, id, 0, 0);
      TurnPours(s1, id);
      PoursThen(s, s1, Turn(s1, id));
    } else if Queued(s, id) && s.streams[id].deficit > 0 && Available(s, id) > 0 {
      var n := Min(Min(Fit(s, id), s.streams[id].deficit), s.maxFrame);
      SendFrontPours(s, id, n, n);
    } else {
      PoursNothing(s);
    }
  }

  lemma VisitPours(s: Conn, id: StreamId, quantum: nat)
    requires s.maxFrame > 0 && Live(s, id)
    ensures Pours(s, Visit(s, id, quantum)) && Visit(s, id, quantum).maxFrame == s.maxFrame
  {
    hide Pours, Turn;
    var s1 := AddDeficit(s, id, quantum);
    AddDeficitPours(s, id, quantum);
    TurnPours(s1, id);
    PoursThen(s, s1, Turn(s1, id));
  }

  lemma {:induction false} RoundPours(s: Conn, ids: seq<StreamId>, quantum: nat)
    requires s.maxFrame > 0
    ensures Pours(s, Round(s, ids, quantum).state)
    decreases |ids|
  {
    hide Pours, Round, Visit;
    if ids == [] {
      RoundEnds(s, quantum);
      PoursNothing(s);
    } else if !Hungry(s, ids[0]) {
      RoundSkips(s, ids, quantum);
      RoundPours(s, ids[1..], quantum);
    } else {
      var s1 := Visit(s, ids[0], quantum);
      VisitPours(s, ids[0], quantum);
      if s1.connWindow <= 0 {
        RoundHalts(s, ids, quantum);
      } else {
        RoundUnfolds(s, ids, quantum);
        RoundPours(s1, ids[1..], quantum);
        PoursThen(s, s1, Round(s1, ids[1..], quantum).state);
      }
    }
  }

  lemma {:induction false} RoundsPours(s: Conn, ids: seq<StreamId>, quantum: nat)
    requires s.maxFrame > 0
    ensures Pours(s, Rounds(s, ids, quantum))
    decreases if s.connWindow > 0 then s.connWindow else 0
  {
    hide Pours, Round;
    if s.connWindow <= 0 || ids == [] {
      PoursNothing(s);
    } else {
      var r := Round(s, ids, quantum);
      RoundPours(s, ids, quantum);
      if r.progress {
        RoundsPours(r.state, r.next, quantum);
        PoursThen(s, r.state, Rounds(r.state, r.next, quantum));
      }
    }
  }
}
