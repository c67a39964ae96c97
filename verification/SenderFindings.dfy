/**
 Promises the handlers keep only under a condition: each has a run that breaks
 it and the exact condition under which it holds.
 */
module SenderFindings {
  import opened Basics
  import opened SendTrace
  import opened Sender
  import opened SenderInvariant
  import opened SenderRuns

  lemma ReachesFirst(s: Conn, e: Event, rest: seq<Event>, r: Conn)
    requires s.maxFrame > 0 && Possible(s, e) && Reaches(Step(s, e), rest, r)
    ensures Reaches(s, [e] + rest, r)
  {
    var events := [e] + rest;
    assert events[1..] == rest;
  }

  // Runs in which one task fills its channel and the connection wakes once

  function Sends(s: Conn, id: StreamId, msgs: seq<Msg>): Conn
    decreases |msgs|
  {
    if msgs == [] then s else Sends(OnTaskSend(s, id, msgs[0]), id, msgs[1..])
  }

  function SendEvents(id: StreamId, msgs: seq<Msg>): seq<Event> {
    if msgs == [] then [Wake([id])] else [TaskSend(id, msgs[0])] + SendEvents(id, msgs[1..])
  }

  lemma {:induction false} SendsState(s: Conn, id: StreamId, msgs: seq<Msg>)
    requires Live(s, id)
    ensures Live(Sends(s, id, msgs), id)
    ensures Sends(s, id, msgs) == s.(streams := s.streams[id := s.streams[id].(inbox := s.streams[id].inbox + msgs)],
                                     trace := Sends(s, id, msgs).trace)
    decreases |msgs|
  {
    if msgs == [] {
      assert s.streams[id].inbox + msgs == s.streams[id].inbox;
      assert s.streams[id := s.streams[id]] == s.streams;
    } else {
      SendsState(OnTaskSend(s, id, msgs[0]), id, msgs[1..]);
      assert s.streams[id].inbox + msgs == s.streams[id].inbox + [msgs[0]] + msgs[1..];
    }
  }

  lemma {:induction false} SendsReach(s: Conn, id: StreamId, msgs: seq<Msg>, r: Conn)
    requires s.maxFrame > 0 && Live(s, id)
    requires var t := Sends(s, id, msgs); t.maxFrame > 0 && Possible(t, Wake([id])) && r == OnWake(t, [id])
    ensures Reaches(s, SendEvents(id, msgs), r)
    decreases |msgs|
  {
    if msgs == [] {
      ReachesFirst(s, Wake([id]), [], r);
      assert [Wake([id])] + [] == [Wake([id])];
    } else {
      SendsReach(OnTaskSend(s, id, msgs[0]), id, msgs[1..], r);
      ReachesFirst(s, TaskSend(id, msgs[0]), SendEvents(id, msgs[1..]), r);
    }
  }

  const OPEN_LIMITS := Limits(100, None, None)

  /** Stream 1 just opened on a connection with the given window. */
  function JustOpened(window: nat): Conn {
    Start(window, OPEN_LIMITS).(
      highest := 1,
      streams := map[1 := Entry(DEFAULT_WINDOW, [], 0, false, false, false, false, [])],
      trace := Then(Begin(window), Opened(1)))
  }

  /** After the wake-up the connection has handled the whole folded batch. */
  lemma BatchRun(window: nat, msgs: seq<Msg>) returns (events: seq<Event>, before: Conn)
    requires msgs != []
    ensures before == JustOpened(window).(trace := Sends(JustOpened(window), 1, msgs).trace)
    ensures Reaches(Start(window, OPEN_LIMITS), events, OnMsgs(before, 1, Fold(msgs)))
  {
    var s0, s1 := Start(window, OPEN_LIMITS), JustOpened(window);
    assert Step(s0, PeerHeaders(1)) == s1;
    var full := Sends(s1, 1, msgs);
    SendsState(s1, 1, msgs);
    assert full.streams[1].inbox == msgs;
    before := s1.(trace := full.trace);
    assert Emptied(full, 1).streams == before.streams;
    var r := OnMsgs(before, 1, Fold(msgs));
    assert Collect(full, 1) == r;
    assert OnWake(full, [1]) == r by { assert [1][1..] == []; }
    SendsReach(s1, 1, msgs, r);
    events := [PeerHeaders(1)] + SendEvents(1, msgs);
    ReachesFirst(s0, PeerHeaders(1), SendEvents(1, msgs), r);
  }

  // Trailers

  /**
   At any message of a batch: trailers end the stream with its whole body sent
   exactly when nothing was still queued, in the channel or in the batch.
   */
  lemma TrailersComplete(s: Conn, id: StreamId, h: Hand)
    requires InvWith(s, h) && Live(s, id) && !s.streams[id].localEnded && s.maxFrame > 0
    ensures var r := OnMsg(s, id, Trailers);
            && Ended(r.trace, id)
            && (SentBytes(r.trace, id) == HandedBytes(r.trace, id) <==> Flat(Queue(s, id, h)) == [])
  {
    assert StreamBody(s, id, h) by { hide StreamBody; }
    hide FlowInv, LifeInv, BodyInv, Flat, EndAt, Queue, NoOrphan, CleanEnd, EndsOnMark, OnMsg;
    TrailersTrace(s, id);
    var sent, queued := SentBytes(s.trace, id), Flat(Queue(s, id, h));
    assert |sent + queued| == |sent| + |queued|;
  }

  lemma TrailersTrace(s: Conn, id: StreamId)
    requires Live(s, id) && !s.streams[id].localEnded && s.maxFrame > 0
    ensures OnMsg(s, id, Trailers).trace == Then(s.trace, Sent(BlockFrame(id, true, Trailer)))
  {
  }

  /** Two bytes and trailers on a window of one byte: the body is cut, and END_STREAM is sent. */
  lemma TrailersCanCutTheBody() returns (events: seq<Event>, r: Conn)
    ensures Reaches(Start(1, OPEN_LIMITS), events, r)
    ensures Ended(r.trace, 1) && HandedBytes(r.trace, 1) == [7, 7] && SentBytes(r.trace, 1) == [7]
  {
    var body := Data(Chunk([7, 7], false));
    var msgs := [body, Trailers];
    assert msgs[1..] == [Trailers] && [Trailers][1..] == [];
    var s;
    events, s := BatchRun(1, msgs);
    FoldOne(Trailers);
    assert Fold(msgs) == msgs;
    TwoSends(1, body, Trailers);
    FirstByteOnly(s, body);
    var s1 := OnMsg(s, 1, body);
    r := OnMsg(s1, 1, Trailers);
    assert OnMsgs(s1, 1, [Trailers]) == OnMsgs(r, 1, []) == r;
    assert OnMsgs(s, 1, msgs) == OnMsgs(s1, 1, [Trailers]);
    CutTrace();
  }

  lemma CutTrace()
    ensures var body := Chunk([7, 7], false);
            var handed := Then(Then(JustOpened(1).trace, Handed(1, Data(body))), Handed(1, Trailers));
            var t := Then(Then(handed, Sent(DataFrame(1, false, [7]))), Sent(BlockFrame(1, true, Trailer)));
            Ended(t, 1) && HandedBytes(t, 1) == [7, 7] && SentBytes(t, 1) == [7]
  {
    var body := Chunk([7, 7], false);
    assert [body][1..] == [];
    assert Flat([body]) == [7, 7];
    var start := JustOpened(1).trace;
    var handed := Then(Then(start, Handed(1, Data(body))), Handed(1, Trailers));
    assert HandedChunks(start, 1) == [] && SentBytes(start, 1) == [];
    assert HandedChunks(handed, 1) == [body] && SentBytes(handed, 1) == [];
  }

  lemma TwoSends(window: nat, a: Msg, b: Msg)
    ensures Sends(JustOpened(window), 1, [a, b]).trace == Then(Then(JustOpened(window).trace, Handed(1, a)), Handed(1, b))
  {
    var s := JustOpened(window);
    assert [a, b][1..] == [b] && [b][1..] == [];
    assert Sends(s, 1, [a, b]) == Sends(OnTaskSend(s, 1, a), 1, [b]);
    assert Sends(OnTaskSend(s, 1, a), 1, [b]) == Sends(OnTaskSend(OnTaskSend(s, 1, a), 1, b), 1, []);
  }

  lemma FoldOne(m: Msg)
    ensures Fold([m]) == [m]
  {
    assert [m][1..] == [];
    assert Fold([m]) == [m] + Fold([m][1..]);
  }

  /** Pushing two bytes with a connection window of one sends the first byte. */
  lemma FirstByteOnly(s: Conn, body: Msg)
    requires body == Data(Chunk([7, 7], false)) && s.maxFrame >= 2 && s.connWindow == 1
    requires Live(s, 1) && s.streams[1].pending == [] && !s.streams[1].localEnded && s.streams[1].sendWindow > 1
    ensures var r := OnMsg(s, 1, body);
            && r.trace == Then(s.trace, Sent(DataFrame(1, false, [7])))
            && Live(r, 1) && !r.streams[1].localEnded
  {
    var s1 := WithChunk(s, 1, body.chunk);
    assert s1.streams[1].pending == [Chunk([7, 7], false)];
    assert Fit(s1, 1) == 1;
    assert [7, 7][..1] == [7];
    assert Pump(s1, 1) == SendFront(s1, 1, 1, 0);
  }

  // END_STREAM and streams that are gone

  /** A final HEADERS with END_STREAM keeps the stream at one END_STREAM exactly when the entry is live or none was sent. */
  lemma HeadersEndOnce(s: Conn, id: StreamId, h: Hand)
    requires InvWith(s, h) && s.maxFrame > 0
    ensures WireEnds(OnMsg(s, id, Headers(true)).trace, id) <= 1 <==> Live(s, id) || WireEnds(s.trace, id) == 0
  {
    if Live(s, id) {
      assert StreamBody(s, id, h) && CleanEnd(s.trace, id);
      NoOrphanEnds(s.trace, id);
      CleanEndsOnce(s.trace, id);
    }
  }

  /**
   The handler alone does not guard against it: HEADERS, `Closed` and HEADERS
   again on one channel put END_STREAM on the stream twice. No stream task
   sends that list, since it stops at `Closed`; OrderedTasksEndOnce shows that
   with such tasks no run does this.
   */
  lemma OrphanHeadersEndTwice() returns (events: seq<Event>, r: Conn)
    ensures Reaches(Start(1, OPEN_LIMITS), events, r)
    ensures WireEnds(r.trace, 1) == 2
  {
    hide OnMsgs, OnMsg;
    var head := Headers(true);
    var msgs := [head, Closed, head];
    var s;
    events, s := BatchRun(1, msgs);
    FoldPlain(head, Closed, head);
    SendsEndNothing(JustOpened(1), 1, msgs);
    r := OnMsgs(s, 1, msgs);
    ClosedBetween(s);
  }

  lemma FoldPlain(a: Msg, b: Msg, c: Msg)
    requires !a.Data? && !b.Data?
    ensures Fold([a, b, c]) == [a, b, c]
  {
    assert [a, b, c][1..] == [b, c] && [b, c][1..] == [c];
    FoldOne(c);
    assert Fold([b, c]) == [b, c];
  }

  lemma ClosedBetween(s: Conn)
    requires s.maxFrame > 0 && Live(s, 1) && !s.streams[1].localEnded && WireEnds(s.trace, 1) == 0
    ensures WireEnds(OnMsgs(s, 1, [Headers(true), Closed, Headers(true)]).trace, 1) == 2
  {
    var head := Headers(true);
    var msgs := [head, Closed, head];
    assert msgs[1..] == [Closed, head] && [Closed, head][1..] == [head] && [head][1..] == [];
    var s1 := OnMsg(s, 1, head);
    var s2 := OnMsg(s1, 1, Closed);
    var r := OnMsg(s2, 1, head);
    assert s1.streams[1].localEnded && WireEnds(s1.trace, 1) == 1;
    assert !Live(s2, 1) && WireEnds(s2.trace, 1) == 1;
    assert OnMsgs(s2, 1, [head]) == OnMsgs(r, 1, []) == r;
    assert OnMsgs(s1, 1, [Closed, head]) == OnMsgs(s2, 1, [head]);
    assert OnMsgs(s, 1, msgs) == OnMsgs(s1, 1, [Closed, head]);
  }

  lemma {:induction false} SendsEndNothing(s: Conn, id: StreamId, msgs: seq<Msg>)
    ensures WireEnds(Sends(s, id, msgs).trace, id) == WireEnds(s.trace, id)
    decreases |msgs|
  {
    if msgs != [] {
      SendsEndNothing(OnTaskSend(s, id, msgs[0]), id, msgs[1..]);
    }
  }

  // Frames for streams the connection no longer knows

  /** A refused stream is not remembered: the next WINDOW_UPDATE for it closes the connection. */
  lemma RefusedStreamIsForgotten() returns (events: seq<Event>, r: Conn)
    ensures Reaches(Start(1, Limits(0, None, None)), events, r)
    ensures r.closing && 1 <= r.highest && events == [PeerHeaders(1), StreamUpdate(1, 5)]
  {
    var s0 := Start(1, Limits(0, None, None));
    var s1 := Step(s0, PeerHeaders(1));
    r := Step(s1, StreamUpdate(1, 5));
    var e1 := [StreamUpdate(1, 5)] + [];
    ReachesFirst(s1, StreamUpdate(1, 5), [], r);
    events := [PeerHeaders(1)] + e1;
    ReachesFirst(s0, PeerHeaders(1), e1, r);
  }

  // Credit given by SETTINGS

  /** Some stream could send, and the connection could pay. */
  ghost predicate CreditIdle(s: Conn) {
    s.connWindow > 0 && exists id :: Hungry(s, id)
  }

  /**
   A new initial window leaves credit idle exactly when it opens the window of
   a stream with queued data while the connection window is open.
   */
  lemma NewWindowLeavesCreditIdle(s: Conn, value: nat)
    ensures CreditIdle(SetInitialWindow(s, value)) <==>
            s.connWindow > 0 && exists id :: Queued(s, id) && s.streams[id].sendWindow + value > s.initialWindow
  {
    var r := SetInitialWindow(s, value);
    forall id ensures Hungry(r, id) <==> Queued(s, id) && s.streams[id].sendWindow + value > s.initialWindow {
    }
    if id :| Queued(s, id) && s.streams[id].sendWindow + value > s.initialWindow {
      assert Hungry(r, id);
    }
  }

  lemma {:induction false} ReachesLast(s: Conn, events: seq<Event>, m: Conn, e: Event)
    requires Reaches(s, events, m) && m.maxFrame > 0 && Possible(m, e)
    ensures Reaches(s, events + [e], Step(m, e))
    decreases |events|
  {
    hide Step, Possible;
    if events == [] {
      assert [e][1..] == [];
    } else {
      assert (events + [e])[1..] == events[1..] + [e];
      ReachesLast(Step(s, events[0]), events[1..], m, e);
    }
  }

  /** Stream 1 opened after SETTINGS took the initial window to zero. */
  lemma OpenedShut(window: nat, limits: Limits) returns (events: seq<Event>, s: Conn)
    requires limits.maxConcurrent > 0
    ensures Reaches(Start(window, limits), events, s)
    ensures s.streams == map[1 := Entry(0, [], 0, false, false, false, false, [])]
    ensures s.connWindow == window && s.initialWindow == 0 && !s.closing && s.maxFrame > 0
    ensures SentBytes(s.trace, 1) == [] && HandedChunks(s.trace, 1) == []
  {
    hide SetInitialWindow, ShiftWindows, Overflows, ApplySettings;
    var s0, e1, e2 := Start(window, limits), Settings([Setting(4, 0)]), PeerHeaders(1);
    OneSetting(s0, 0);
    var s1 := Step(s0, e1);
    assert s1.streams == map[];
    s := Step(s1, e2);
    var t := Then(Begin(window), InitialWindow(0));
    assert s.trace == Then(Then(t, Sent(SettingsAck)), Opened(1));
    assert SentBytes(Begin(window), 1) == [] && HandedChunks(Begin(window), 1) == [];
    assert SentBytes(t, 1) == [] && HandedChunks(t, 1) == [];
    assert SentBytes(s.trace, 1) == SentBytes(Then(t, Sent(SettingsAck)), 1) == SentBytes(t, 1);
    assert HandedChunks(s.trace, 1) == HandedChunks(Then(t, Sent(SettingsAck)), 1) == HandedChunks(t, 1);
    events := [] + [e1];
    ReachesLast(s0, [], s0, e1);
    ReachesLast(s0, events, s1, e2);
    events := events + [e2];
  }

  /** The task's one-byte body has been taken in and waits. */
  lemma BodyWaits(s: Conn) returns (e3: Event, e4: Event, r: Conn)
    requires s.maxFrame > 0 && s.streams == map[1 := Entry(0, [], 0, false, false, false, false, [])]
    requires SentBytes(s.trace, 1) == [] && HandedChunks(s.trace, 1) == []
    ensures Possible(s, e3) && Step(s, e3).maxFrame > 0 && Possible(Step(s, e3), e4) && r == Step(Step(s, e3), e4)
    ensures r.streams == map[1 := Entry(0, [Chunk([7], true)], 0, false, false, true, false, [])]
    ensures r.connWindow == s.connWindow && r.initialWindow == s.initialWindow && r.maxFrame == s.maxFrame
    ensures r.closing == s.closing && SentBytes(r.trace, 1) == [] && HandedChunks(r.trace, 1) == [Chunk([7], true)]
  {
    hide OnWake;
    var body := Data(Chunk([7], true));
    e3, e4 := TaskSend(1, body), Wake([1]);
    var s1 := Step(s, e3);
    assert [] + [body] == [body] && [] + [body.chunk] == [body.chunk];
    assert s1.streams == map[1 := Entry(0, [], 0, false, false, false, false, [body])];
    assert s1.trace == Then(s.trace, Handed(1, body));
    WaitsForWindow(s1, body);
    r := Step(s1, e4);
  }

  /** On any connection: a body waits for its window, SETTINGS open it, and nothing is sent. */
  lemma RaisedWindowIsNotUsed(window: nat, limits: Limits, size: nat) returns (events: seq<Event>, r: Conn)
    requires 0 < window <= MAX_WINDOW && limits.maxConcurrent > 0 && 0 < size <= MAX_WINDOW
    ensures Reaches(Start(window, limits), events, r)
    ensures CreditIdle(r) && !r.closing && SentBytes(r.trace, 1) == [] && HandedBytes(r.trace, 1) == [7]
  {
    hide SetInitialWindow, ShiftWindows, Overflows, ApplySettings, Reaches, OnWake, Start, OnTaskSend;
    var s0 := Start(window, limits);
    var s2;
    events, s2 := OpenedShut(window, limits);
    var e3, e4, s4 := BodyWaits(s2);
    var e5 := Settings([Setting(4, size)]);
    ReachesLast(s0, events, s2, e3);
    ReachesLast(s0, events + [e3], Step(s2, e3), e4);
    ReachesLast(s0, events + [e3] + [e4], s4, e5);
    events := events + [e3] + [e4] + [e5];
    OneSetting(s4, size);
    r := Step(s4, e5);
    assert Hungry(r, 1);
    assert SentBytes(r.trace, 1) == SentBytes(Then(s4.trace, InitialWindow(size)), 1);
    assert HandedChunks(r.trace, 1) == HandedChunks(Then(s4.trace, InitialWindow(size)), 1);
    assert Flat([Chunk([7], true)]) == [7] by { assert [Chunk([7], true)][1..] == []; }
  }

  /** SETTINGS with one initial window that no stream overflows. */
  lemma OneSetting(s: Conn, size: nat)
    requires s.maxFrame > 0
    requires forall id :: Live(s, id) ==> s.streams[id].sendWindow + size - s.initialWindow <= MAX_WINDOW
    ensures OnSettings(s, [Setting(4, size)]) ==
            s.(initialWindow := size, streams := ShiftWindows(s.streams, size - s.initialWindow),
               trace := Then(Then(s.trace, InitialWindow(size)), Sent(SettingsAck)))
    ensures ShiftWindows(s.streams, size - s.initialWindow).Keys == s.streams.Keys
    ensures forall id :: Live(s, id) ==>
              ShiftWindows(s.streams, size - s.initialWindow)[id]
              == s.streams[id].(sendWindow := s.streams[id].sendWindow + size - s.initialWindow)
  {
    var settings := [Setting(4, size)];
    assert settings[1..] == [];
    var shifted := ShiftWindows(s.streams, size - s.initialWindow);
    assert !Overflows(shifted);
    assert SetInitialWindow(s, size).streams == shifted;
    assert ApplySettings(s, settings) == ApplySettings(SetInitialWindow(s, size), []) == SetInitialWindow(s, size);
  }

  /** With its window closed, a one-byte body is queued and stays. */
  lemma WaitsForWindow(s: Conn, body: Msg)
    requires body == Data(Chunk([7], true)) && s.maxFrame > 0
    requires s.streams == map[1 := Entry(0, [], 0, false, false, false, false, [body])]
    ensures var r := Step(s, Wake([1]));
            && r.streams == map[1 := Entry(0, [body.chunk], 0, false, false, true, false, [])]
            && r.closing == s.closing && r.trace == s.trace && r.connWindow == s.connWindow
            && r.initialWindow == s.initialWindow && r.maxFrame == s.maxFrame
  {
    FoldOne(body);
    var s1 := Emptied(s, 1);
    var s2 := OnMsg(s1, 1, body);
    assert [] + [body.chunk] == [body.chunk];
    assert s2.streams == map[1 := Entry(0, [body.chunk], 0, false, false, true, false, [])];
    assert OnMsgs(s1, 1, [body]) == OnMsgs(s2, 1, []) by { assert [body][1..] == []; }
    assert Collect(s, 1) == s2;
    assert OnWake(s, [1]) == OnWake(s2, []) by { assert [1][1..] == []; }
  }
}
