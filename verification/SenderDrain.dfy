/**
 Sending queued DATA: the pump of one stream and the deficit round-robin over
 all streams.
 */
module SenderDrain {
  import opened Basics
  import opened SendTrace
  import opened Sender
  import opened SenderInvariant

  /** Only stream `id`, the connection window and the memory of closed ids may differ. */
  ghost predicate SameElse(s: Conn, r: Conn, id: StreamId) {
    && r.initialWindow == s.initialWindow && r.maxFrame == s.maxFrame
    && r.highest == s.highest && r.closing == s.closing && r.limits == s.limits
    && r.localErrorResets == s.localErrorResets && r.acceptResets == s.acceptResets
    && Raised(r.trace) == Raised(s.trace)
    && r.connWindow <= s.connWindow
    && (forall i :: WasOpened(r.trace, i) == WasOpened(s.trace, i))
    && (forall i :: i != id ==> SameStream(s, r, i))
  }

  ghost predicate SameStream(s: Conn, r: Conn, i: StreamId) {
    && (i in r.streams <==> i in s.streams)
    && (i in s.streams ==> r.streams[i] == s.streams[i])
    && DataFrames(r.trace, i) == DataFrames(s.trace, i)
    && SentBytes(r.trace, i) == SentBytes(s.trace, i)
  }

  lemma RetireSame(s: Conn, id: StreamId)
    ensures SameElse(s, Retire(s, id), id) && !Live(Retire(s, id), id)
    ensures forall i :: DataFrames(Retire(s, id).trace, i) == DataFrames(s.trace, i)
    ensures forall i :: SentBytes(Retire(s, id).trace, i) == SentBytes(s.trace, i)
  {
    var r := Retire(s, id);
    forall i | i != id ensures SameStream(s, r, i) {}
  }

  lemma WriteDataSame(s: Conn, id: StreamId, n: nat, cost: nat)
    requires Sendable(s, id, n, cost)
    ensures SameElse(s, WriteData(s, id, n, cost), id)
  {
    var r := WriteData(s, id, n, cost);
    forall i | i != id ensures SameStream(s, r, i) {}
  }

  lemma SendFrontSame(s: Conn, id: StreamId, n: nat, cost: nat)
    requires Sendable(s, id, n, cost)
    ensures SameElse(s, SendFront(s, id, n, cost), id)
    ensures Live(SendFront(s, id, n, cost), id) ==>
              && SendFront(s, id, n, cost).streams[id].sendWindow == s.streams[id].sendWindow - n
              && SendFront(s, id, n, cost).streams[id].deficit == s.streams[id].deficit - cost
              && SendFront(s, id, n, cost).streams[id].inbox == s.streams[id].inbox
    ensures DataFrames(SendFront(s, id, n, cost).trace, id) == DataFrames(s.trace, id) + (if n == 0 then 0 else 1)
    ensures |SentBytes(SendFront(s, id, n, cost).trace, id)| == |SentBytes(s.trace, id)| + n
  {
    hide SameElse, Retire, Work;
    var w := WriteData(s, id, n, cost);
    WriteDataSame(s, id, n, cost);
    if EndsStream(s, id, n) && s.streams[id].taskDone {
      RetireSame(w, id);
      SameElseTransitive(s, w, Retire(w, id), id);
    }
  }

  lemma SameElseTransitive(a: Conn, b: Conn, c: Conn, id: StreamId)
    requires SameElse(a, b, id) && SameElse(b, c, id)
    ensures SameElse(a, c, id)
  {
    forall i | i != id ensures SameStream(a, c, i) {
      assert SameStream(a, b, i) && SameStream(b, c, i);
    }
  }

  /** Nothing more can go out on the stream right now. */
  predicate Settled(s: Conn, id: StreamId) {
    Queued(s, id) ==> s.streams[id].pending[0].data != [] && Available(s, id) <= 0
  }

  /** The pump keeps the invariant, touches no other stream and leaves nothing sendable. */
  lemma {:induction false} PumpKeeps(s: Conn, id: StreamId, h: Hand)
    requires InvWith(s, h)
    ensures InvWith(Pump(s, id), h)
    ensures SameElse(s, Pump(s, id), id)
    ensures Settled(Pump(s, id), id)
    ensures Live(Pump(s, id), id) ==> Live(s, id) && Pump(s, id).streams[id].inbox == s.streams[id].inbox
    decreases Work(s, id)
  {
    hide FlowInv, LifeInv, BodyInv, SendFront;
    Bounds(s, h);
    if Queued(s, id) {
      var front := s.streams[id].pending[0].data;
      if front == [] {
        PumpStep(s, id, 0, h);
      } else if Available(s, id) > 0 {
        var n := Min(Fit(s, id), s.maxFrame);
        if n == |front| || n != Fit(s, id) {
          PumpStep(s, id, n, h);
        } else {
          SendFrontKeeps(s, id, n, 0, h);
          SendFrontSame(s, id, n, 0);
          TailWaits(s, id);
        }
      }
    }
  }

  /** A chunk that outgrows the windows uses one of them up. */
  lemma TailWaits(s: Conn, id: StreamId)
    requires Queued(s, id) && Available(s, id) > 0 && Fit(s, id) < |s.streams[id].pending[0].data|
    ensures Settled(SendFront(s, id, Fit(s, id), 0), id)
  {
  }

  lemma {:induction false} PumpStep(s: Conn, id: StreamId, n: nat, h: Hand)
    requires InvWith(s, h) && CanSend(s, id, n, 0)
    ensures InvWith(Pump(SendFront(s, id, n, 0), id), h)
    ensures SameElse(s, Pump(SendFront(s, id, n, 0), id), id)
    ensures Settled(Pump(SendFront(s, id, n, 0), id), id)
    ensures Live(Pump(SendFront(s, id, n, 0), id), id) ==>
              Pump(SendFront(s, id, n, 0), id).streams[id].inbox == s.streams[id].inbox
    decreases Work(s, id), 0
  {
    var s1 := SendFront(s, id, n, 0);
    SendFrontKeeps(s, id, n, 0, h);
    SendFrontSame(s, id, n, 0);
    PumpKeeps(s1, id, h);
    SameElseTransitive(s, s1, Pump(s1, id), id);
  }

  // One turn of the round-robin

  /** The turn with the deficit left out of the size of its frame. */
  function UncutTurn(s: Conn, id: StreamId): Conn
    requires s.maxFrame > 0
    requires Live(s, id) ==> s.streams[id].deficit >= s.maxFrame
    decreases Work(s, id)
  {
    if !Queued(s, id) then s
    else if s.streams[id].pending[0].data == [] then UncutTurn(SendFront(s, id, 0, 0), id)
    else if Available(s, id) <= 0 then s
    else
      var n := Min(Fit(s, id), s.maxFrame);
      SendFront(s, id, n, n)
  }

  /** With a full quantum in hand the deficit never cuts a frame short. */
  lemma {:induction false} DeficitNeverCuts(s: Conn, id: StreamId)
    requires s.maxFrame > 0
    requires Live(s, id) ==> s.streams[id].deficit >= s.maxFrame
    ensures Turn(s, id) == UncutTurn(s, id)
    decreases Work(s, id)
  {
    if Queued(s, id) && s.streams[id].pending[0].data == [] {
      DeficitNeverCuts(SendFront(s, id, 0, 0), id);
    }
  }

  /** What one turn may do to its stream. */
  ghost predicate OneFrame(s: Conn, r: Conn, id: StreamId) {
    && DataFrames(s.trace, id) <= DataFrames(r.trace, id) <= DataFrames(s.trace, id) + 1
    && |SentBytes(r.trace, id)| <= |SentBytes(s.trace, id)| + s.maxFrame
    && (DataFrames(r.trace, id) == DataFrames(s.trace, id) ==> r.connWindow == s.connWindow)
    && (DataFrames(r.trace, id) > DataFrames(s.trace, id) ==> r.connWindow < s.connWindow)
  }

  lemma {:induction false} TurnKeeps(s: Conn, id: StreamId, h: Hand)
    requires InvWith(s, h)
    ensures InvWith(Turn(s, id), h)
    ensures SameElse(s, Turn(s, id), id)
    ensures OneFrame(s, Turn(s, id), id)
    decreases Work(s, id)
  {
    if Queued(s, id) {
      if s.streams[id].pending[0].data == [] {
        var s1 := SendFront(s, id, 0, 0);
        SendFrontKeeps(s, id, 0, 0, h);
        SendFrontSame(s, id, 0, 0);
        TurnKeeps(s1, id, h);
        SameElseTransitive(s, s1, Turn(s1, id), id);
      } else if s.streams[id].deficit != 0 && Available(s, id) > 0 {
        var n := Min(Min(Fit(s, id), s.streams[id].deficit), s.maxFrame);
        SendFrontKeeps(s, id, n, n, h);
        SendFrontSame(s, id, n, n);
      }
    }
  }

  /** A hungry stream with a quantum in hand sends a non-empty frame or empties its queue. */
  lemma {:induction false} TurnServes(s: Conn, id: StreamId)
    requires s.maxFrame > 0 && s.connWindow > 0
    requires Live(s, id) ==> s.streams[id].sendWindow > 0 && s.streams[id].deficit > 0
    ensures Queued(Turn(s, id), id) ==> DataFrames(Turn(s, id).trace, id) == DataFrames(s.trace, id) + 1
    decreases Work(s, id)
  {
    if Queued(s, id) {
      if s.streams[id].pending[0].data == [] {
        SendFrontSame(s, id, 0, 0);
        TurnServes(SendFront(s, id, 0, 0), id);
      } else {
        var n := Min(Min(Fit(s, id), s.streams[id].deficit), s.maxFrame);
        SendFrontSame(s, id, n, n);
      }
    }
  }

  lemma AddDeficitKeeps(s: Conn, id: StreamId, quantum: nat, h: Hand)
    requires InvWith(s, h) && Live(s, id)
    ensures InvWith(AddDeficit(s, id, quantum), h)
    ensures SameElse(s, AddDeficit(s, id, quantum), id)
  {
    var r := AddDeficit(s, id, quantum);
    assert r.streams.Keys == s.streams.Keys;
    assert FlowInv(r) by {
      forall i | i in r.streams ensures StreamFlow(r, i) { assert StreamFlow(s, i); }
    }
    assert BodyInv(r, h) by {
      forall i | i in r.streams ensures StreamBody(r, i, h) { assert StreamBody(s, i, h); }
    }
    forall i | i != id ensures SameStream(s, r, i) {
    }
  }

  /** The turn of a hungry stream inside a round. */
  function Visit(s: Conn, id: StreamId, quantum: nat): Conn
    requires s.maxFrame > 0 && Live(s, id)
  {
    Turn(AddDeficit(s, id, quantum), id)
  }

  lemma VisitKeeps(s: Conn, id: StreamId, h: Hand)
    requires InvWith(s, h) && s.connWindow > 0 && Hungry(s, id)
    ensures var r := Visit(s, id, s.maxFrame);
            && InvWith(r, h)
            && SameElse(s, r, id)
            && OneFrame(s, r, id)
            && (Queued(r, id) ==> DataFrames(r.trace, id) == DataFrames(s.trace, id) + 1)
  {
    var s1 := AddDeficit(s, id, s.maxFrame);
    AddDeficitKeeps(s, id, s.maxFrame, h);
    TurnKeeps(s1, id, h);
    TurnServes(s1, id);
    SameElseTransitive(s, s1, Turn(s1, id), id);
  }

  // One round

  ghost predicate SameSettings(s: Conn, r: Conn) {
    && r.maxFrame == s.maxFrame && r.initialWindow == s.initialWindow
    && r.highest == s.highest && r.closing == s.closing && r.limits == s.limits
    && Raised(r.trace) == Raised(s.trace)
    && r.connWindow <= s.connWindow
  }

  /** What one round did to stream `i`. */
  ghost predicate Served(s: Conn, ids: seq<StreamId>, r: RoundResult, i: StreamId) {
    && DataFrames(s.trace, i) <= DataFrames(r.state.trace, i) <= DataFrames(s.trace, i) + 1
    && |SentBytes(r.state.trace, i)| <= |SentBytes(s.trace, i)| + s.maxFrame
    && (i !in ids ==> SameStream(s, r.state, i))
    && (Hungry(r.state, i) ==> Hungry(s, i))
    && (i in r.next ==> i in ids && DataFrames(r.state.trace, i) == DataFrames(s.trace, i) + 1)
    && (i in ids && Hungry(r.state, i) && i !in r.next ==>
          r.state.connWindow <= 0 && DataFrames(r.state.trace, i) == DataFrames(s.trace, i))
  }

  ghost predicate RoundDone(s: Conn, ids: seq<StreamId>, r: RoundResult, h: Hand) {
    && InvWith(r.state, h)
    && SameSettings(s, r.state)
    && NoDup(r.next)
    && (!r.progress ==> r.next == [] && r.state.connWindow > 0)
    && forall i :: Served(s, ids, r, i)
  }

  lemma {:induction false} RoundServes(s: Conn, ids: seq<StreamId>, h: Hand)
    requires InvWith(s, h) && s.connWindow > 0 && NoDup(ids)
    ensures RoundDone(s, ids, Round(s, ids, s.maxFrame), h)
    decreases |ids|
  {
    hide Round, Visit, Served, NoDup, FlowInv, LifeInv, BodyInv, SameSettings;
    Bounds(s, h);
    if ids == [] {
      RoundEnds(s, s.maxFrame);
      NothingToServe(s, h);
    } else if !Hungry(s, ids[0]) {
      RoundSkips(s, ids, s.maxFrame);
      TailDistinct(ids);
      RoundServes(s, ids[1..], h);
      RoundPasses(s, ids, Round(s, ids[1..], s.maxFrame), h);
    } else {
      RoundVisits(s, ids, h);
    }
  }

  lemma TailDistinct(ids: seq<StreamId>)
    requires ids != [] && NoDup(ids)
    ensures NoDup(ids[1..])
  {
  }

  lemma NothingToServe(s: Conn, h: Hand)
    requires InvWith(s, h) && s.connWindow > 0
    ensures RoundDone(s, [], RoundResult(s, [], false), h)
  {
    hide FlowInv, LifeInv, BodyInv;
  }

  /** A stream that is not hungry is passed over. */
  lemma RoundPasses(s: Conn, ids: seq<StreamId>, r: RoundResult, h: Hand)
    requires ids != [] && !Hungry(s, ids[0]) && RoundDone(s, ids[1..], r, h)
    ensures RoundDone(s, ids, r, h)
  {
    hide FlowInv, LifeInv, BodyInv, NoDup, SameSettings, DataFrames, SentBytes;
    forall i ensures Served(s, ids, r, i) {
      assert Served(s, ids[1..], r, i);
      if i in ids && i !in ids[1..] { assert i == ids[0]; }
    }
  }

  lemma HungryLive(s: Conn, id: StreamId)
    requires Hungry(s, id)
    ensures Live(s, id)
  {
  }

  lemma {:induction false} RoundVisits(s: Conn, ids: seq<StreamId>, h: Hand)
    requires InvWith(s, h) && s.connWindow > 0 && NoDup(ids) && ids != [] && Hungry(s, ids[0])
    ensures RoundDone(s, ids, Round(s, ids, s.maxFrame), h)
    decreases |ids|, 0
  {
    hide Visit, Served, NoDup, FlowInv, LifeInv, BodyInv, OneFrame, Hungry, Queued, DataFrames, SentBytes;
    Bounds(s, h);
    HungryLive(s, ids[0]);
    var s1 := Visit(s, ids[0], s.maxFrame);
    VisitKeeps(s, ids[0], h);
    if s1.connWindow <= 0 {
      RoundHalts(s, ids, s.maxFrame);
      RoundStops(s, ids, s1);
    } else {
      RoundUnfolds(s, ids, s.maxFrame);
      TailDistinct(ids);
      RoundServes(s1, ids[1..], h);
      RoundGoesOn(s, ids, s1);
    }
  }

  function Kept(s: Conn, id: StreamId): seq<StreamId> {
    if Queued(s, id) then [id] else []
  }

  lemma RoundEnds(s: Conn, quantum: nat)
    requires s.maxFrame > 0
    ensures Round(s, [], quantum) == RoundResult(s, [], false)
  {
  }

  lemma RoundSkips(s: Conn, ids: seq<StreamId>, quantum: nat)
    requires s.maxFrame > 0 && ids != [] && !Hungry(s, ids[0])
    ensures Round(s, ids, quantum) == Round(s, ids[1..], quantum)
  {
  }

  lemma RoundHalts(s: Conn, ids: seq<StreamId>, quantum: nat)
    requires s.maxFrame > 0 && ids != [] && Hungry(s, ids[0]) && Visit(s, ids[0], quantum).connWindow <= 0
    ensures var s1 := Visit(s, ids[0], quantum);
            Round(s, ids, quantum) == RoundResult(s1, Kept(s1, ids[0]), s1.connWindow < s.connWindow)
  {
  }

  lemma RoundStops(s: Conn, ids: seq<StreamId>, s1: Conn)
    requires s.maxFrame > 0 && s.connWindow > 0 && ids != [] && Hungry(s, ids[0])
    requires s1 == Visit(s, ids[0], s.maxFrame) && s1.connWindow <= 0
    requires SameElse(s, s1, ids[0]) && OneFrame(s, s1, ids[0])
    requires Queued(s1, ids[0]) ==> DataFrames(s1.trace, ids[0]) == DataFrames(s.trace, ids[0]) + 1
    ensures var r := Round(s, ids, s.maxFrame); NoDup(r.next) && r.progress && forall i :: Served(s, ids, r, i)
  {
    hide Round, Visit, DataFrames, SentBytes;
    RoundHalts(s, ids, s.maxFrame);
    var r := Round(s, ids, s.maxFrame);
    forall i ensures Served(s, ids, r, i) {
      if i != ids[0] { assert SameStream(s, s1, i); }
    }
  }

  /** The head of the list was visited and the rest of the round served the others. */
  lemma ServedThen(s: Conn, ids: seq<StreamId>, s1: Conn, r1: RoundResult, progress: bool, i: StreamId)
    requires ids != [] && NoDup(ids) && s1.maxFrame == s.maxFrame && Hungry(s, ids[0])
    requires SameElse(s, s1, ids[0]) && OneFrame(s, s1, ids[0])
    requires Queued(s1, ids[0]) ==> DataFrames(s1.trace, ids[0]) == DataFrames(s.trace, ids[0]) + 1
    requires Served(s1, ids[1..], r1, i)
    ensures Served(s, ids, RoundResult(r1.state, Kept(s1, ids[0]) + r1.next, progress), i)
  {
    var id := ids[0];
    assert ids == [id] + ids[1..];
    assert id !in ids[1..];
    if i != id {
      assert SameStream(s, s1, i);
    } else {
      assert SameStream(s1, r1.state, id);
    }
  }

  lemma RoundUnfolds(s: Conn, ids: seq<StreamId>, quantum: nat)
    requires s.maxFrame > 0 && ids != [] && Hungry(s, ids[0]) && Visit(s, ids[0], quantum).connWindow > 0
    ensures var s1 := Visit(s, ids[0], quantum);
            var r1 := Round(s1, ids[1..], quantum);
            Round(s, ids, quantum) ==
            RoundResult(r1.state, Kept(s1, ids[0]) + r1.next, s1.connWindow < s.connWindow || r1.progress)
  {
  }

  lemma ListStaysDistinct(s1: Conn, ids: seq<StreamId>, r1: RoundResult)
    requires ids != [] && NoDup(ids) && NoDup(r1.next) && Served(s1, ids[1..], r1, ids[0])
    ensures NoDup(Kept(s1, ids[0]) + r1.next)
  {
    assert ids[0] !in ids[1..];
  }

  lemma IdleTurnLeavesList(s: Conn, s1: Conn, id: StreamId)
    requires OneFrame(s, s1, id) && s1.connWindow == s.connWindow
    requires Queued(s1, id) ==> DataFrames(s1.trace, id) == DataFrames(s.trace, id) + 1
    ensures Kept(s1, id) == []
  {
  }

  lemma RoundGoesOn(s: Conn, ids: seq<StreamId>, s1: Conn)
    requires s.maxFrame > 0 && s.connWindow > 0 && ids != [] && Hungry(s, ids[0]) && NoDup(ids)
    requires s1 == Visit(s, ids[0], s.maxFrame) && s1.connWindow > 0
    requires SameElse(s, s1, ids[0]) && OneFrame(s, s1, ids[0])
    requires Queued(s1, ids[0]) ==> DataFrames(s1.trace, ids[0]) == DataFrames(s.trace, ids[0]) + 1
    requires var r1 := Round(s1, ids[1..], s1.maxFrame);
             && NoDup(r1.next)
             && (!r1.progress ==> r1.next == [] && r1.state.connWindow > 0)
             && forall i :: Served(s1, ids[1..], r1, i)
    ensures var r := Round(s, ids, s.maxFrame);
            && NoDup(r.next)
            && (!r.progress ==> r.next == [] && r.state.connWindow > 0)
            && forall i :: Served(s, ids, r, i)
  {
    hide Round, Visit, Served, OneFrame, SameStream, Kept, NoDup, DataFrames, SentBytes, Hungry, Queued;
    RoundUnfolds(s, ids, s.maxFrame);
    var r, r1 := Round(s, ids, s.maxFrame), Round(s1, ids[1..], s1.maxFrame);
    ListStaysDistinct(s1, ids, r1);
    if s1.connWindow == s.connWindow { IdleTurnLeavesList(s, s1, ids[0]); }
    forall i ensures Served(s, ids, r, i) {
      assert Served(s1, ids[1..], r1, i);
      ServedThen(s, ids, s1, r1, r.progress, i);
    }
  }

  // The whole drain

  /** The most `rounds` frames can carry. */
  function Budget(rounds: nat, frame: nat): nat {
    if rounds == 0 then 0 else frame + Budget(rounds - 1, frame)
  }

  /** The rounds of a drain, the last of which may have been cut short. */
  function RoundsRun(s: Conn, ids: seq<StreamId>, quantum: nat): nat
    requires s.maxFrame > 0
    decreases if s.connWindow > 0 then s.connWindow else 0
  {
    if s.connWindow <= 0 || ids == [] then 0
    else
      var r := Round(s, ids, quantum);
      1 + if r.progress then RoundsRun(r.state, r.next, quantum) else 0
  }

  /** Those that made progress and did not use up the connection window. */
  function FullRounds(s: Conn, ids: seq<StreamId>, quantum: nat): (n: nat)
    requires s.maxFrame > 0
    ensures n <= RoundsRun(s, ids, quantum) <= n + 1
    decreases if s.connWindow > 0 then s.connWindow else 0
  {
    if s.connWindow <= 0 || ids == [] then 0
    else
      var r := Round(s, ids, quantum);
      if !r.progress || r.state.connWindow <= 0 then 0 else 1 + FullRounds(r.state, r.next, quantum)
  }

  /** Stream `i` over `full` full rounds of `run` rounds in all. */
  ghost predicate FairStream(s: Conn, r: Conn, full: nat, run: nat, i: StreamId) {
    && (Hungry(r, i) ==> Hungry(s, i) && DataFrames(r.trace, i) >= DataFrames(s.trace, i) + full)
    && DataFrames(s.trace, i) <= DataFrames(r.trace, i) <= DataFrames(s.trace, i) + run
    && |SentBytes(r.trace, i)| <= |SentBytes(s.trace, i)| + Budget(run, s.maxFrame)
  }

  lemma FairFromRound(s: Conn, ids: seq<StreamId>, r: RoundResult, i: StreamId)
    requires Served(s, ids, r, i)
    ensures FairStream(s, r.state, 0, 1, i)
  {
    assert Budget(1, s.maxFrame) == s.maxFrame + Budget(0, s.maxFrame);
  }

  lemma FairCompose(s: Conn, ids: seq<StreamId>, r: RoundResult, end: Conn, full: nat, run: nat, i: StreamId)
    requires Served(s, ids, r, i) && r.state.maxFrame == s.maxFrame
    requires Hungry(r.state, i) ==> i in r.next
    requires FairStream(r.state, end, full, run, i)
    ensures FairStream(s, end, full + 1, run + 1, i)
  {
  }

  /** A round whose connection window survives leaves every hungry stream on the list. */
  lemma HungryStayListed(s: Conn, ids: seq<StreamId>, r: RoundResult, i: StreamId)
    requires Served(s, ids, r, i) && (Hungry(s, i) ==> i in ids) && Hungry(r.state, i)
    ensures i in r.next || r.state.connWindow <= 0
  {
  }

  ghost predicate DrainedTo(s: Conn, r: Conn, full: nat, run: nat, h: Hand) {
    && InvWith(r, h)
    && SameSettings(s, r)
    && (forall i :: FairStream(s, r, full, run, i))
    && (r.connWindow <= 0 || forall i :: !Hungry(r, i))
  }

  lemma DrainedAlready(s: Conn, h: Hand)
    requires InvWith(s, h) && (s.connWindow <= 0 || forall i :: !Hungry(s, i))
    ensures DrainedTo(s, s, 0, 0, h)
  {
  }

  lemma DrainedByRound(s: Conn, ids: seq<StreamId>, r: RoundResult, h: Hand)
    requires RoundDone(s, ids, r, h)
    requires forall i :: Hungry(s, i) ==> i in ids
    requires !r.progress || r.state.connWindow <= 0
    ensures DrainedTo(s, r.state, 0, 1, h)
  {
    forall i ensures FairStream(s, r.state, 0, 1, i) {
      assert Served(s, ids, r, i);
      FairFromRound(s, ids, r, i);
    }
    forall i | Hungry(r.state, i) ensures r.state.connWindow <= 0 {
      assert Served(s, ids, r, i);
      HungryStayListed(s, ids, r, i);
    }
  }

  lemma DrainedByMore(s: Conn, ids: seq<StreamId>, r: RoundResult, end: Conn, full: nat, run: nat, h: Hand)
    requires RoundDone(s, ids, r, h)
    requires forall i :: Hungry(r.state, i) ==> i in r.next
    requires DrainedTo(r.state, end, full, run, h)
    ensures DrainedTo(s, end, full + 1, run + 1, h)
  {
    var full', run' := full + 1, run + 1;
    forall i ensures FairStream(s, end, full', run', i) {
      assert Served(s, ids, r, i) && FairStream(r.state, end, full, run, i);
      FairCompose(s, ids, r, end, full, run, i);
    }
  }

  lemma ListedAfter(s: Conn, ids: seq<StreamId>, r: RoundResult, h: Hand)
    requires RoundDone(s, ids, r, h) && r.state.connWindow > 0
    requires forall i :: Hungry(s, i) ==> i in ids
    ensures forall i :: Hungry(r.state, i) ==> i in r.next
  {
    forall i | Hungry(r.state, i) ensures i in r.next {
      assert Served(s, ids, r, i);
      HungryStayListed(s, ids, r, i);
    }
  }

  lemma {:induction false} RoundsServe(s: Conn, ids: seq<StreamId>, h: Hand)
    requires InvWith(s, h) && NoDup(ids) && s.maxFrame > 0
    requires forall i :: Hungry(s, i) ==> i in ids
    ensures DrainedTo(s, Rounds(s, ids, s.maxFrame), FullRounds(s, ids, s.maxFrame), RoundsRun(s, ids, s.maxFrame), h)
    decreases if s.connWindow > 0 then s.connWindow else 0
  {
    hide Round, Served, FlowInv, LifeInv, BodyInv, Hungry, FairStream, NoDup, DrainedTo;
    if s.connWindow <= 0 || ids == [] {
      DrainedAlready(s, h);
    } else {
      var r := Round(s, ids, s.maxFrame);
      RoundServes(s, ids, h);
      if !r.progress || r.state.connWindow <= 0 {
        DrainedByRound(s, ids, r, h);
      } else {
        ListedAfter(s, ids, r, h);
        RoundsServe(r.state, r.next, h);
        DrainedByMore(s, ids, r, Rounds(r.state, r.next, s.maxFrame), FullRounds(r.state, r.next, s.maxFrame),
                      RoundsRun(r.state, r.next, s.maxFrame), h);
      }
    }
  }

  /**
   The round-robin drain ends with the connection window used up or with no
   stream left that has queued data and an open window.
   */
  lemma DrainLeavesNothingSendable(s: Conn, ids: seq<StreamId>)
    requires Inv(s) && IsOrder(s, ids)
    ensures Inv(Drain(s, ids)) && SameSettings(s, Drain(s, ids))
    ensures Drain(s, ids).connWindow <= 0 || forall i :: !Hungry(Drain(s, ids), i)
  {
    Bounds(s, Empty);
    RoundsServe(s, ids, Empty);
  }

  lemma {:induction false} BudgetIsProduct(rounds: nat, frame: nat)
    ensures Budget(rounds, frame) == rounds * frame
  {
    if rounds > 0 {
      BudgetIsProduct(rounds - 1, frame);
    }
  }

  /**
   Fairness: over the rounds the drain ran, every stream that could still send
   when it ended received a non-empty frame in each full round, and no stream
   received more than one frame, or the bytes of one, for each round.
   */
  lemma DrainIsFair(s: Conn, ids: seq<StreamId>)
    requires Inv(s) && IsOrder(s, ids) && s.maxFrame > 0
    ensures var full, run := FullRounds(s, ids, s.maxFrame), RoundsRun(s, ids, s.maxFrame);
            && full <= run <= full + 1 && Budget(run, s.maxFrame) == run * s.maxFrame
            && forall i :: FairStream(s, Drain(s, ids), full, run, i)
  {
    hide FairStream;
    RoundsServe(s, ids, Empty);
    BudgetIsProduct(RoundsRun(s, ids, s.maxFrame), s.maxFrame);
  }

  /** Two streams still able to send after a drain differ by at most one frame. */
  lemma DrainTreatsAlike(s: Conn, ids: seq<StreamId>, a: StreamId, b: StreamId)
    requires Inv(s) && IsOrder(s, ids)
    requires s.maxFrame > 0 && Hungry(Drain(s, ids), a) && Hungry(Drain(s, ids), b)
    ensures DataFrames(Drain(s, ids).trace, a) - DataFrames(s.trace, a)
            <= DataFrames(Drain(s, ids).trace, b) - DataFrames(s.trace, b) + 1
  {
    hide Drain, DataFrames, Hungry, FullRounds, RoundsRun;
    DrainIsFair(s, ids);
    var full, run := FullRounds(s, ids, s.maxFrame), RoundsRun(s, ids, s.maxFrame);
    assert FairStream(s, Drain(s, ids), full, run, a) && FairStream(s, Drain(s, ids), full, run, b);
  }
}
