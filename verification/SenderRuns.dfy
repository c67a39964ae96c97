/**
 Whole runs of the send side: every event a peer or a stream task can cause,
 and what holds after any sequence of them.
 */
module SenderRuns {
  import opened Basics
  import opened SendTrace
  import opened Sender
  import opened SenderInvariant
  import opened SenderDrain
  import opened SenderSteps

  // One message out of the hand

  /** A message that moves no body bytes leaves the hand. */
  lemma PutDown(s: Conn, id: StreamId, msgs: seq<Msg>)
    requires InvWith(s, Holding(id, msgs)) && msgs != []
    requires !msgs[0].Data? || !Live(s, id) || s.streams[id].localEnded
    ensures InvWith(s, Holding(id, msgs[1..]))
  {
    var h, h1 := Holding(id, msgs), Holding(id, msgs[1..]);
    forall i | i in s.streams ensures StreamBody(s, i, h1) {
      assert StreamBody(s, i, h);
    }
  }

  function WithChunk(s: Conn, id: StreamId, chunk: Chunk): Conn
    requires Live(s, id)
  {
    var e := s.streams[id];
    s.(streams := s.streams[id := e.(responseStarted := true, pending := e.pending + [chunk])])
  }

  lemma QueueChunkBody(s: Conn, id: StreamId, msgs: seq<Msg>)
    requires BodyInv(s, Holding(id, msgs)) && msgs != [] && msgs[0].Data? && Live(s, id)
    ensures BodyInv(WithChunk(s, id, msgs[0].chunk), Holding(id, msgs[1..]))
  {
    hide Flat, EndAt, SentBytes, HandedBytes, HandedChunks, CleanEnd, EndsOnMark, Ended, NoOrphan;
    var h, h1 := Holding(id, msgs), Holding(id, msgs[1..]);
    var r := WithChunk(s, id, msgs[0].chunk);
    assert Queue(r, id, h1) == Queue(s, id, h);
    forall i | i in r.streams ensures StreamBody(r, i, h1) {
      assert StreamBody(s, i, h);
    }
  }

  /** A DATA message moves from the hand to the end of the pending queue. */
  lemma QueueChunk(s: Conn, id: StreamId, msgs: seq<Msg>)
    requires InvWith(s, Holding(id, msgs)) && msgs != [] && msgs[0].Data? && Live(s, id)
    ensures InvWith(WithChunk(s, id, msgs[0].chunk), Holding(id, msgs[1..]))
  {
    hide FlowInv, LifeInv, BodyInv;
    var r := WithChunk(s, id, msgs[0].chunk);
    assert r.streams.Keys == s.streams.Keys;
    FlowFrame(s, r);
    LifeFrame(s, r);
    QueueChunkBody(s, id, msgs);
  }

  /** What handling one message keeps for the rest of the batch. */
  ghost predicate Handled(s: Conn, r: Conn, id: StreamId, rest: seq<Msg>) {
    && InvWith(r, Holding(id, rest))
    && NoIdleCredit(r)
    && r.highest == s.highest && r.maxFrame == s.maxFrame
    && (Live(r, id) ==> Live(s, id) && r.streams[id].inbox == s.streams[id].inbox)
    && (WasOpened(s.trace, id) ==> WasOpened(r.trace, id))
  }

  lemma DataKeeps(s: Conn, id: StreamId, msgs: seq<Msg>)
    requires InvWith(s, Holding(id, msgs)) && NoIdleCredit(s) && msgs != [] && msgs[0].Data?
    requires s.maxFrame > 0
    ensures Handled(s, OnMsg(s, id, msgs[0]), id, msgs[1..])
  {
    hide FlowInv, LifeInv, BodyInv, Pump;
    if !Live(s, id) || s.streams[id].localEnded {
      PutDown(s, id, msgs);
    } else {
      var s1 := WithChunk(s, id, msgs[0].chunk);
      var h1 := Holding(id, msgs[1..]);
      QueueChunk(s, id, msgs);
      PumpKeeps(s1, id, h1);
      forall i | i != id && Hungry(s1, i) ensures Hungry(s, i) {}
      PumpIdle(s, s1, id, h1);
    }
  }

  lemma ClosedKeeps(s: Conn, id: StreamId, h: Hand)
    requires InvWith(s, h) && NoIdleCredit(s) && s.maxFrame > 0
    ensures InvWith(OnMsg(s, id, Closed), h) && NoIdleCredit(OnMsg(s, id, Closed))
  {
    hide FlowInv, LifeInv, BodyInv, NoIdleCredit, Retire;
    Bounds(s, h);
    if Live(s, id) {
      var e := s.streams[id].(taskDone := true);
      var s1 := s.(streams := s.streams[id := e]);
      FlagKeeps(s, id, e, h);
      if e.localEnded {
        RetireKeeps(s1, id, h);
        RetireIdle(s1, id);
      }
    }
  }

  lemma RetireFields(s: Conn, id: StreamId)
    ensures Retire(s, id).highest == s.highest && Retire(s, id).maxFrame == s.maxFrame && !Live(Retire(s, id), id)
    ensures WasOpened(Retire(s, id).trace, id) == WasOpened(s.trace, id)
  {
  }

  lemma KeepsOpened(s: Conn, id: StreamId, m: Msg)
    requires s.maxFrame > 0 && (m.Data? ==> !Live(s, id) || s.streams[id].localEnded)
    ensures WasOpened(s.trace, id) ==> WasOpened(OnMsg(s, id, m).trace, id)
  {
    hide Pump;
  }

  lemma OnMsgKeeps(s: Conn, id: StreamId, msgs: seq<Msg>)
    requires InvWith(s, Holding(id, msgs)) && NoIdleCredit(s) && msgs != []
    requires WasOpened(s.trace, id) && s.maxFrame > 0
    ensures Handled(s, OnMsg(s, id, msgs[0]), id, msgs[1..])
  {
    hide FlowInv, LifeInv, BodyInv, NoIdleCredit, Pump, Retire, WasOpened;
    OpenedBelow(s, id);
    var m, h1 := msgs[0], Holding(id, msgs[1..]);
    if m.Data? {
      DataKeeps(s, id, msgs);
    } else {
      KeepsOpened(s, id, m);
      PutDown(s, id, msgs);
      match m
      case Informational => SideBlockKeeps(s, id, false, Interim, h1);
      case Headers(end) =>
        if !Live(s, id) {
          SideBlockKeeps(s, id, end, Orphan, h1);
        } else if !s.streams[id].localEnded {
          BlockKeeps(s, id, end, Response, h1);
        }
      case Trailers =>
        if Live(s, id) && !s.streams[id].localEnded {
          BlockKeeps(s, id, true, Trailer, h1);
        }
      case Reset(code) =>
        ResetAndRetireKeeps(s, id, code, h1);
        RetireFields(Emit(s, ResetFrame(id, code)), id);
      case Closed =>
        ClosedKeeps(s, id, h1);
        if Live(s, id) {
          RetireFields(s.(streams := s.streams[id := s.streams[id].(taskDone := true)]), id);
        }
    }
  }

  lemma {:induction false} OnMsgsKeeps(s: Conn, id: StreamId, msgs: seq<Msg>)
    requires InvWith(s, Holding(id, msgs)) && NoIdleCredit(s)
    requires WasOpened(s.trace, id) && s.maxFrame > 0
    ensures Handled(s, OnMsgs(s, id, msgs), id, [])
    decreases |msgs|
  {
    hide FlowInv, LifeInv, BodyInv, NoIdleCredit, OnMsg;
    if msgs != [] {
      OnMsgKeeps(s, id, msgs);
      OnMsgsKeeps(OnMsg(s, id, msgs[0]), id, msgs[1..]);
    }
  }

  function Emptied(s: Conn, id: StreamId): Conn
    requires Live(s, id)
  {
    s.(streams := s.streams[id := s.streams[id].(inbox := [])])
  }

  lemma PickUpBody(s: Conn, id: StreamId)
    requires BodyInv(s, Empty) && Live(s, id) && s.streams[id].pending == []
    ensures BodyInv(Emptied(s, id), Holding(id, Fold(s.streams[id].inbox)))
  {
    hide Flat, EndAt, SentBytes, HandedBytes, HandedChunks, CleanEnd, EndsOnMark, Ended, NoOrphan, Fold, DataOf;
    FoldKeepsBody(s.streams[id].inbox);
    var r, h := Emptied(s, id), Holding(id, Fold(s.streams[id].inbox));
    assert Queue(s, id, Empty) == DataOf(s.streams[id].inbox);
    assert Queue(r, id, h) == DataOf(h.msgs);
    forall i | i in r.streams ensures StreamBody(r, i, h) {
      assert StreamBody(s, i, Empty);
    }
  }

  /** Taking the channel's messages into the hand, folded, keeps the queue as a whole. */
  lemma PickUp(s: Conn, id: StreamId)
    requires Inv(s) && Live(s, id) && s.streams[id].pending == []
    ensures InvWith(Emptied(s, id), Holding(id, Fold(s.streams[id].inbox)))
    ensures NoIdleCredit(s) ==> NoIdleCredit(Emptied(s, id))
  {
    hide FlowInv, LifeInv, BodyInv;
    var r := Emptied(s, id);
    assert r.streams.Keys == s.streams.Keys;
    FlowFrame(s, r);
    LifeFrame(s, r);
    PickUpBody(s, id);
    forall i ensures Hungry(r, i) == Hungry(s, i) {}
  }

  /** With no message left in hand the channel is again all that waits. */
  lemma HandEmpty(s: Conn, id: StreamId)
    requires InvWith(s, Holding(id, [])) && (Live(s, id) ==> s.streams[id].inbox == [])
    ensures Inv(s)
  {
    forall i | i in s.streams ensures StreamBody(s, i, Empty) {
      assert StreamBody(s, i, Holding(id, []));
    }
  }

  lemma CollectKeeps(s: Conn, id: StreamId)
    requires Inv(s) && NoIdleCredit(s) && s.maxFrame > 0
    ensures Inv(Collect(s, id)) && NoIdleCredit(Collect(s, id))
    ensures Collect(s, id).highest == s.highest
  {
    hide FlowInv, LifeInv, BodyInv, NoIdleCredit, OnMsgs;
    Bounds(s, Empty);
    if Live(s, id) && s.streams[id].pending == [] {
      PickUp(s, id);
      OnMsgsKeeps(Emptied(s, id), id, Fold(s.streams[id].inbox));
      HandEmpty(Collect(s, id), id);
    }
  }

  lemma {:induction false} OnWakeKeeps(s: Conn, ids: seq<StreamId>)
    requires Inv(s) && NoIdleCredit(s) && s.maxFrame > 0
    ensures Inv(OnWake(s, ids)) && NoIdleCredit(OnWake(s, ids))
    decreases |ids|
  {
    hide FlowInv, LifeInv, BodyInv, NoIdleCredit, Collect;
    if ids != [] {
      CollectKeeps(s, ids[0]);
      OnWakeKeeps(Collect(s, ids[0]), ids[1..]);
    }
  }

  // Events and runs

  /** Everything that can happen to the send side; hash-map orders are part of the event. */
  datatype Event =
    | ConnUpdate(inc: nat, order: seq<StreamId>)
    | StreamUpdate(id: StreamId, inc: nat)
    | Settings(settings: seq<Setting>)
    | PeerHeaders(id: StreamId)
    | PeerReset(id: StreamId)
    | RequestEnd(id: StreamId)
    | RequestFault(id: StreamId, code: nat, counted: bool)
    | RequestGone(id: StreamId)
    | ConnFault
    | Shutdown
    | Stopped
    | TaskSend(id: StreamId, msg: Msg)
    | Wake(order: seq<StreamId>)

  ghost predicate Possible(s: Conn, e: Event) {
    match e
    case ConnUpdate(_, order) => IsOrder(s, order)
    case Settings(settings) => LegalSettings(settings)
    case RequestFault(id, _, _) => Live(s, id)
    case RequestGone(id) => Live(s, id)
    case Wake(order) => NoDup(order) && forall id :: id in order <==> Live(s, id) && s.streams[id].inbox != []
    case _ => true
  }

  function Step(s: Conn, e: Event): (r: Conn)
    requires s.maxFrame > 0
    ensures r.limits == s.limits
  {
    match e
    case ConnUpdate(inc, order) => OnConnUpdate(s, inc, order)
    case StreamUpdate(id, inc) => if id == 0 then s else OnStreamUpdate(s, id, inc)
    case Settings(settings) => OnSettings(s, settings)
    case PeerHeaders(id) => OnHeaders(s, id)
    case PeerReset(id) => OnReset(s, id)
    case RequestEnd(id) => OnRequestEnd(s, id)
    case RequestFault(id, code, counted) => StreamError(s, id, code, counted)
    case RequestGone(id) => Retire(s, id)
    case ConnFault => RaiseGoAway(s)
    case Shutdown => BeginShutdown(s)
    case Stopped => FinishShutdown(s)
    case TaskSend(id, m) => OnTaskSend(s, id, m)
    case Wake(order) => OnWake(s, order)
  }

  /** Every event keeps the invariant and leaves no idle credit behind. */
  lemma StepKeeps(s: Conn, e: Event)
    requires Inv(s) && NoIdleCredit(s) && s.maxFrame > 0 && Possible(s, e)
    ensures Inv(Step(s, e)) && NoIdleCredit(Step(s, e))
  {
    hide FlowInv, LifeInv, BodyInv, NoIdleCredit, OnConnUpdate, OnStreamUpdate, OnSettings, OnHeaders,
         OnReset, StreamError, Retire, OnTaskSend, OnWake;
    Bounds(s, Empty);
    match e
    case ConnUpdate(inc, order) => OnConnUpdateKeeps(s, inc, order);
    case StreamUpdate(id, inc) => OnStreamUpdateKeeps(s, id, inc);
    case Settings(settings) => OnSettingsKeeps(s, settings);
    case PeerHeaders(id) => OnHeadersKeeps(s, id);
    case PeerReset(id) => OnResetKeeps(s, id);
    case RequestEnd(id) =>
      if Live(s, id) { FlagKeeps(s, id, s.streams[id].(remoteEnded := true), Empty); }
    case RequestFault(id, code, counted) => StreamErrorKeeps(s, id, code, counted);
    case RequestGone(id) =>
      RetireKeeps(s, id, Empty);
      RetireIdle(s, id);
    case ConnFault => GoAwayKeeps(s, Empty);
    case Shutdown => LastStreamKeeps(s, s.closing, Some(s.highest), s.highest, Empty);
    case Stopped =>
      if s.graceful.Some? { LastStreamKeeps(s, s.closing, s.graceful, s.graceful.value, Empty); }
    case TaskSend(id, m) => OnTaskSendKeeps(s, id, m);
    case Wake(order) =>
      OnWakeKeeps(s, order);
  }

  /** `r` is reached from `s` by the given events. */
  ghost predicate Reaches(s: Conn, events: seq<Event>, r: Conn)
    decreases |events|
  {
    if events == [] then r == s
    else s.maxFrame > 0 && Possible(s, events[0]) && Reaches(Step(s, events[0]), events[1..], r)
  }

  lemma StartHolds(window: nat, limits: Limits)
    requires window <= MAX_WINDOW
    ensures Inv(Start(window, limits)) && NoIdleCredit(Start(window, limits))
  {
  }

  lemma {:induction false} ReachesKeeps(s: Conn, events: seq<Event>, r: Conn)
    requires Inv(s) && NoIdleCredit(s) && Reaches(s, events, r)
    ensures Inv(r) && NoIdleCredit(r) && r.limits == s.limits
    decreases |events|
  {
    hide FlowInv, LifeInv, BodyInv, NoIdleCredit, Step, Possible;
    if events != [] {
      StepKeeps(s, events[0]);
      ReachesKeeps(Step(s, events[0]), events[1..], r);
    }
  }

  // What holds after every run

  /**
   Credit conservation by the trace: on the connection and on every live
   stream, credit left plus bytes sent is what was recorded as granted; no DATA
   frame ever overran a window or the frame size; windows stay in range unless
   the connection is closing.
   */
  lemma FlowByTrace(window: nat, limits: Limits, events: seq<Event>, r: Conn)
    requires window <= MAX_WINDOW && Reaches(Start(window, limits), events, r)
    ensures FlowLegal(r.trace)
    ensures r.connWindow + TotalSent(r.trace) == ConnGranted(r.trace) && 0 <= r.connWindow <= MAX_WINDOW
    ensures forall id :: Live(r, id) ==>
              && r.streams[id].sendWindow + |SentBytes(r.trace, id)| == r.initialWindow + StreamGranted(r.trace, id)
              && -MAX_WINDOW <= r.streams[id].sendWindow
              && (r.streams[id].sendWindow <= MAX_WINDOW || r.closing)
  {
    StartHolds(window, limits);
    ReachesKeeps(Start(window, limits), events, r);
    ConnConservation(r.trace);
    forall id | Live(r, id)
      ensures r.streams[id].sendWindow + |SentBytes(r.trace, id)| == r.initialWindow + StreamGranted(r.trace, id)
      ensures -MAX_WINDOW <= r.streams[id].sendWindow && (r.streams[id].sendWindow <= MAX_WINDOW || r.closing)
    {
      assert StreamFlow(r, id);
      StreamConservation(r.trace, id);
    }
  }

  /**
   Byte-stream integrity: on every stream the DATA payloads are a prefix of
   what its task handed over, END_STREAM is sent at most once with nothing
   after it, and on a DATA frame only where the first end-marked chunk ends.
   */
  lemma BodyIntegrity(window: nat, limits: Limits, events: seq<Event>, r: Conn, id: StreamId)
    requires window <= MAX_WINDOW && Reaches(Start(window, limits), events, r)
    ensures SentBytes(r.trace, id) <= HandedBytes(r.trace, id)
    ensures CleanEnd(r.trace, id) && EndCount(r.trace, id) <= 1
    ensures EndsOnMark(r.trace)
  {
    StartHolds(window, limits);
    ReachesKeeps(Start(window, limits), events, r);
    assert SentBytes(r.trace, id) <= HandedBytes(r.trace, id);
    CleanEndsOnce(r.trace, id);
  }

  /**
   While a stream with an entry has not ended, sent and queued bytes together
   are what its task handed over, and its end mark, if it has one, is still
   queued; so once nothing is queued a marked stream has ended.
   */
  lemma NothingLost(window: nat, limits: Limits, events: seq<Event>, r: Conn, id: StreamId)
    requires window <= MAX_WINDOW && Reaches(Start(window, limits), events, r)
    requires Live(r, id)
    ensures r.streams[id].localEnded <==> Ended(r.trace, id)
    ensures var queue := Queue(r, id, Empty);
            !Ended(r.trace, id) ==>
              && SentBytes(r.trace, id) + Flat(queue) == HandedBytes(r.trace, id)
              && EndAt(HandedChunks(r.trace, id)) == Shift(|SentBytes(r.trace, id)|, EndAt(queue))
    ensures Queue(r, id, Empty) == [] && EndAt(HandedChunks(r.trace, id)).Some? ==> Ended(r.trace, id)
  {
    StartHolds(window, limits);
    ReachesKeeps(Start(window, limits), events, r);
    assert StreamBody(r, id, Empty);
  }

  /**
   No idle credit: unless SETTINGS raised the initial window since the last
   connection credit, a stream with queued data has a closed window.
   */
  lemma NoIdleCreditEver(window: nat, limits: Limits, events: seq<Event>, r: Conn, id: StreamId)
    requires window <= MAX_WINDOW && Reaches(Start(window, limits), events, r)
    requires !Raised(r.trace) && Queued(r, id)
    ensures Available(r, id) <= 0
  {
    StartHolds(window, limits);
    ReachesKeeps(Start(window, limits), events, r);
    if r.streams[id].sendWindow > 0 {
      assert Hungry(r, id);
    }
  }

  /** A connection credit that is accepted restores the rule even after a raise. */
  lemma ConnUpdateRestores(window: nat, limits: Limits, events: seq<Event>, s: Conn, inc: nat, order: seq<StreamId>)
    requires window <= MAX_WINDOW && Reaches(Start(window, limits), events, s)
    requires 0 < inc <= MAX_WINDOW - s.connWindow && IsOrder(s, order) && s.maxFrame > 0
    ensures !Raised(OnConnUpdate(s, inc, order).trace)
    ensures OnConnUpdate(s, inc, order).connWindow <= 0 || forall id :: !Hungry(OnConnUpdate(s, inc, order), id)
  {
    StartHolds(window, limits);
    ReachesKeeps(Start(window, limits), events, s);
    var s1 := WithConnCredit(s, inc);
    ConnCreditKeeps(s, inc);
    hide FlowInv, LifeInv, BodyInv, Drain;
    assert IsOrder(s1, order) by {
      forall i ensures Queued(s1, i) <==> Queued(s, i) {}
    }
    DrainLeavesNothingSendable(s1, order);
  }

  /**
   Stream identity: live ids are odd, opened exactly once, at most the highest
   id seen, never among the closed ids and never too many; the memory of
   closed ids lists each once and is bounded; reset budgets are respected.
   */
  lemma StreamIdentity(window: nat, limits: Limits, events: seq<Event>, r: Conn)
    requires window <= MAX_WINDOW && Reaches(Start(window, limits), events, r)
    ensures FreshOpens(r.trace)
    ensures forall id: StreamId :: Live(r, id) ==> id % 2 == 1 && id <= r.highest && id !in r.closedStreams && WasOpened(r.trace, id)
    ensures |r.streams| <= limits.maxConcurrent
    ensures Memory(r.closedStreams, r.closedOrder) && |r.closedOrder| <= CLOSED_LIMIT
    ensures WithinBudget(r.localErrorResets, limits.maxLocalResets) && WithinBudget(r.acceptResets, limits.maxAcceptResets)
  {
    StartHolds(window, limits);
    ReachesKeeps(Start(window, limits), events, r);
  }

  // Graceful shutdown

  lemma RetireKeepsLast(s: Conn, id: StreamId)
    ensures Retire(s, id).graceful == s.graceful && Retire(s, id).highest == s.highest
  {
  }

  /** Only a shutdown and the opening of a stream touch the announced and the highest stream. */
  lemma OthersKeepLast(s: Conn, e: Event)
    requires s.maxFrame > 0 && !e.Shutdown? && (e.PeerHeaders? ==> Live(s, e.id))
    ensures Step(s, e).graceful == s.graceful && Step(s, e).highest == s.highest
  {
    hide Pump, Rounds, Retire, ApplySettings, OnWake;
    match e
    case StreamUpdate(id, _) => StreamErrorKeepsLast(s, id, 3, true);
    case PeerHeaders(id) => StreamErrorKeepsLast(s, id, 5, true);
    case PeerReset(id) => ResetKeepsLast(s, id);
    case RequestFault(id, code, counted) => StreamErrorKeepsLast(s, id, code, counted);
    case RequestGone(id) => RetireKeepsLast(s, id);
    case _ =>
  }

  lemma StreamErrorKeepsLast(s: Conn, id: StreamId, code: nat, counted: bool)
    ensures var r := StreamError(s, id, code, counted); r.graceful == s.graceful && r.highest == s.highest
  {
  }

  lemma ResetKeepsLast(s: Conn, id: StreamId)
    ensures OnReset(s, id).graceful == s.graceful && OnReset(s, id).highest == s.highest
  {
  }

  /** Once a shutdown has begun, no event changes the announced last stream or accepts a later one. */
  lemma ShutdownStays(s: Conn, e: Event)
    requires s.maxFrame > 0 && s.graceful == Some(s.highest)
    ensures Step(s, e).graceful == s.graceful && Step(s, e).highest == s.highest
  {
    hide OnConnUpdate, OnStreamUpdate, OnSettings, StreamError, OnReset, Retire, OnWake, OnTaskSend, OnRequestEnd;
    if !e.Shutdown? && (e.PeerHeaders? ==> Live(s, e.id)) {
      OthersKeepLast(s, e);
    }
  }

  lemma ShutdownBegins(s: Conn, e: Event)
    requires s.maxFrame > 0 && s.graceful.None?
    ensures var r := Step(s, e); r.graceful.None? || r.graceful == Some(r.highest)
  {
    hide OnConnUpdate, OnStreamUpdate, OnSettings, StreamError, OnReset, Retire, OnWake, OnTaskSend, OnRequestEnd;
    if !e.Shutdown? && (e.PeerHeaders? ==> Live(s, e.id)) {
      OthersKeepLast(s, e);
    }
  }

  /** From the announcement on, the announced stream stays the last one, whatever happens. */
  lemma {:induction false} ShutdownIsFinal(s: Conn, events: seq<Event>, r: Conn)
    requires s.graceful == Some(s.highest) && Reaches(s, events, r)
    ensures r.graceful == s.graceful && r.highest == s.highest
    decreases |events|
  {
    hide Step, Possible;
    if events != [] {
      ShutdownStays(s, events[0]);
      ShutdownIsFinal(Step(s, events[0]), events[1..], r);
    }
  }

  lemma {:induction false} ShutdownAnnouncesHighest(s: Conn, events: seq<Event>, r: Conn)
    requires (s.graceful.Some? ==> s.graceful.value == s.highest) && Reaches(s, events, r)
    ensures r.graceful.Some? ==> r.graceful.value == r.highest
    decreases |events|
  {
    hide Step, Possible;
    if s.graceful.Some? {
      ShutdownIsFinal(s, events, r);
    } else if events != [] {
      ShutdownBegins(s, events[0]);
      ShutdownAnnouncesHighest(Step(s, events[0]), events[1..], r);
    }
  }

  /** The GOAWAY promise: in every run no stream beyond the announced last one is ever opened. */
  lemma NoStreamBeyondLast(window: nat, limits: Limits, events: seq<Event>, r: Conn, id: StreamId)
    requires window <= MAX_WINDOW && Reaches(Start(window, limits), events, r)
    requires r.graceful.Some? && id > r.graceful.value
    ensures !WasOpened(r.trace, id) && !Live(r, id) && OnHeaders(r, id) == r
  {
    StartHolds(window, limits);
    ReachesKeeps(Start(window, limits), events, r);
    ShutdownAnnouncesHighest(Start(window, limits), events, r);
    if WasOpened(r.trace, id) {
      OpenedBelow(r, id);
    }
  }
}
