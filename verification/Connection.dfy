/**
 The send side as the connection object runs it: fields updated in place by
 the handlers, each proved to do what the state machine says.
 */
module H2Connection {
  import opened Basics
  import opened SendTrace
  import opened Sender
  import opened SenderInvariant
  import opened SenderDrain
  import opened SenderSteps
  import opened SenderRuns

  class Connection {
    var connWindow: int
    var initialWindow: nat
    var maxFrame: nat
    var streams: map<StreamId, Entry>
    var closedStreams: set<StreamId>
    var closedOrder: seq<StreamId>
    var highest: nat
    var closing: bool
    var graceful: Option<nat>
    var localErrorResets: nat
    var acceptResets: nat
    const limits: Limits
    /** Frames written to the peer, oldest first. */
    var out: seq<Frame>
    ghost var trace: Trace

    ghost function Snapshot(): Conn
      reads this
    {
      Conn(connWindow, initialWindow, maxFrame, streams, closedStreams, closedOrder, highest, closing, graceful,
           localErrorResets, acceptResets, limits, trace)
    }

    ghost predicate Valid()
      reads this
    {
      maxFrame > 0 && out == Frames(trace)
    }

    constructor (window: nat, limits: Limits)
      ensures Valid() && Snapshot() == Start(window, limits)
    {
      connWindow, initialWindow, maxFrame := window, DEFAULT_WINDOW, DEFAULT_MAX_FRAME;
      streams, closedStreams, closedOrder := map[], {}, [];
      highest, closing, graceful, localErrorResets, acceptResets := 0, false, None, 0, 0;
      this.limits := limits;
      out, trace := [], Begin(window);
    }

    method Write(f: Frame)
      requires Valid()
      modifies this`out, this`trace
      ensures Valid() && Snapshot() == Emit(old(Snapshot()), f)
    {
      out := out + [f];
      trace := Then(trace, Sent(f));
    }

    method WriteGoAway()
      requires Valid()
      modifies this`out, this`trace, this`closing
      ensures Valid() && Snapshot() == RaiseGoAway(old(Snapshot()))
    {
      closing := true;
      Write(GoAway(highest));
    }

    method BeginGracefulShutdown()
      requires Valid()
      modifies this`graceful, this`out, this`trace
      ensures Valid() && Snapshot() == BeginShutdown(old(Snapshot()))
    {
      if graceful.Some? || closing {
        return;
      }
      graceful := Some(highest);
      Write(GoAway(highest));
    }

    method FinishGracefulShutdown()
      requires Valid()
      modifies this`out, this`trace
      ensures Valid() && Snapshot() == FinishShutdown(old(Snapshot()))
    {
      if graceful.Some? && !closing {
        Write(GoAway(graceful.value));
      }
    }

    method RememberClosed(id: StreamId)
      requires Valid()
      modifies this`closedStreams, this`closedOrder, this`trace
      ensures Valid() && Snapshot() == MarkClosed(old(Snapshot()), id)
    {
      if |closedStreams| >= CLOSED_LIMIT && closedOrder != [] {
        closedStreams := closedStreams - {closedOrder[0]};
        closedOrder := closedOrder[1..];
      }
      if id !in closedStreams {
        closedStreams := closedStreams + {id};
        closedOrder := closedOrder + [id];
        trace := Then(trace, Item.Gone(id));
      }
    }

    method RetireStream(id: StreamId)
      requires Valid()
      modifies this`closedStreams, this`closedOrder, this`streams, this`trace
      ensures Valid() && Snapshot() == Retire(old(Snapshot()), id)
    {
      RememberClosed(id);
      streams := streams - {id};
    }

    method FailStream(id: StreamId, code: nat, counted: bool)
      requires Valid()
      modifies this
      ensures Valid() && Snapshot() == StreamError(old(Snapshot()), id, code, counted)
    {
      if counted {
        if limits.maxLocalResets.Some? && localErrorResets >= limits.maxLocalResets.value {
          WriteGoAway();
          return;
        }
        localErrorResets := localErrorResets + 1;
      }
      Write(ResetFrame(id, code));
      RetireStream(id);
    }

    // Queued DATA

    method SendFrontChunk(id: StreamId, n: nat, cost: nat)
      requires Valid() && Sendable(Snapshot(), id, n, cost)
      modifies this
      ensures Valid() && Snapshot() == SendFront(old(Snapshot()), id, n, cost)
    {
      hide Work, Frames, MarkClosed;
      var e := streams[id];
      var front := e.pending[0];
      var all := n == |front.data|;
      var frameEnd := front.end && all;
      var rest := if all then e.pending[1..] else [Chunk(front.data[n..], front.end)] + e.pending[1..];
      streams := streams[id := e.(sendWindow := e.sendWindow - n, deficit := e.deficit - cost,
                                  pending := rest, localEnded := frameEnd)];
      Write(DataFrame(id, frameEnd, front.data[..n]));
      connWindow := connWindow - n;
      if frameEnd && e.taskDone {
        RetireStream(id);
      }
    }

    /** `pump_stream_data`: sends what the windows allow on one stream. */
    method PumpStreamData(id: StreamId)
      requires Valid()
      modifies this
      ensures Valid() && Snapshot() == Pump(old(Snapshot()), id)
    {
      ghost var start := Snapshot();
      while true
        invariant Valid()
        invariant Pump(Snapshot(), id) == Pump(start, id)
        decreases Work(Snapshot(), id)
      {
        if id !in streams || streams[id].localEnded || streams[id].pending == [] {
          return;
        }
        var front := streams[id].pending[0].data;
        if front == [] {
          SendFrontChunk(id, 0, 0);
        } else {
          var available := Min(connWindow, streams[id].sendWindow);
          if available <= 0 {
            return;
          }
          var fits := Min(|front|, available);
          var amount := Min(fits, maxFrame);
          SendFrontChunk(id, amount, 0);
          if amount != |front| && amount == fits {
            break;
          }
        }
      }
    }

    /** `pump_stream_data_drr`: the same, but one frame at most and within the deficit. */
    method PumpStreamDataDrr(id: StreamId)
      requires Valid()
      modifies this
      ensures Valid() && Snapshot() == Turn(old(Snapshot()), id)
    {
      ghost var start := Snapshot();
      while true
        invariant Valid()
        invariant Turn(Snapshot(), id) == Turn(start, id)
        decreases Work(Snapshot(), id)
      {
        if id !in streams || streams[id].localEnded || streams[id].pending == [] {
          return;
        }
        var front := streams[id].pending[0].data;
        if front != [] {
          var available := Min(connWindow, streams[id].sendWindow);
          if streams[id].deficit == 0 || available <= 0 {
            return;
          }
          var amount := Min(Min(Min(|front|, available), streams[id].deficit), maxFrame);
          SendFrontChunk(id, amount, amount);
          return;
        }
        SendFrontChunk(id, 0, 0);
      }
    }

    /** Lists the streams with queued data in whatever order the map yields them. */
    method ListQueued() returns (ids: seq<StreamId>)
      ensures IsOrder(Snapshot(), ids)
    {
      ids := [];
      var todo := streams.Keys;
      while todo != {}
        invariant todo <= streams.Keys
        invariant forall id :: id in ids <==> id in streams.Keys - todo && Queued(Snapshot(), id)
        invariant forall i, j :: 0 <= i < j < |ids| ==> ids[i] != ids[j]
        decreases |todo|
      {
        var id :| id in todo;
        todo := todo - {id};
        if streams[id].pending != [] && !streams[id].localEnded {
          assert id !in ids;
          ids := ids + [id];
        }
      }
    }

    /** One stream's turn: a quantum of deficit, then at most one frame. */
    method VisitStream(id: StreamId, quantum: nat) returns (moved: bool, kept: bool)
      requires Valid() && Hungry(Snapshot(), id)
      modifies this
      ensures Valid() && Snapshot() == Visit(old(Snapshot()), id, quantum)
      ensures moved == (connWindow < old(connWindow)) && kept == Queued(Snapshot(), id)
    {
      hide Turn;
      streams := streams[id := streams[id].(deficit := Min(streams[id].deficit + quantum, USIZE_MAX))];
      var before := connWindow;
      PumpStreamDataDrr(id);
      moved := connWindow < before;
      kept := id in streams && streams[id].pending != [] && !streams[id].localEnded;
    }

    /** One pass of the round-robin over `ids`. */
    method RunRound(ids: seq<StreamId>, quantum: nat) returns (next: seq<StreamId>, progress: bool)
      requires Valid()
      modifies this
      ensures Valid() && RoundResult(Snapshot(), next, progress) == Round(old(Snapshot()), ids, quantum)
    {
      hide Round, Visit;
      ghost var whole := Round(Snapshot(), ids, quantum);
      next, progress := [], false;
      assert [] + whole.next == whole.next && ids[0..] == ids;
      var k := 0;
      while k < |ids|
        invariant Valid() && 0 <= k <= |ids|
        invariant whole == After(next, progress, Round(Snapshot(), ids[k..], quantum))
      {
        ghost var s, rest := Snapshot(), ids[k..];
        assert rest[1..] == ids[k + 1..];
        var id := ids[k];
        k := k + 1;
        if id !in streams || streams[id].pending == [] || streams[id].localEnded || streams[id].sendWindow <= 0 {
          RoundSkips(s, rest, quantum);
          continue;
        }
        var moved, kept := VisitStream(id, quantum);
        ghost var more := Round(Snapshot(), rest[1..], quantum);
        AfterKept(next, progress, more, Kept(Snapshot(), id), moved);
        next := next + if kept then [id] else [];
        progress := progress || moved;
        if connWindow <= 0 {
          RoundHalts(s, rest, quantum);
          return;
        }
        RoundUnfolds(s, rest, quantum);
      }
      assert ids[k..] == [];
      RoundEnds(Snapshot(), quantum);
    }

    /** `drain_pending_data` after a connection credit. */
    method DrainPendingData() returns (ghost order: seq<StreamId>)
      requires Valid()
      modifies this
      ensures Valid() && IsOrder(old(Snapshot()), order) && Snapshot() == Drain(old(Snapshot()), order)
    {
      var quantum := maxFrame;
      var ids := ListQueued();
      order := ids;
      var progress := true;
      while progress && connWindow > 0 && ids != []
        invariant Valid()
        invariant Drain(old(Snapshot()), order) == if progress then Rounds(Snapshot(), ids, quantum) else Snapshot()
        decreases progress, if connWindow > 0 then connWindow else 0
      {
        ids, progress := RunRound(ids, quantum);
      }
    }

    // Frames from the peer

    /** `handle_window_update`; the order is the one the map yielded while draining. */
    method HandleWindowUpdate(id: StreamId, inc: nat) returns (ghost order: seq<StreamId>)
      requires Valid()
      modifies this
      ensures Valid() && IsOrder(old(Snapshot()), order)
      ensures Snapshot() == if id == 0 then OnConnUpdate(old(Snapshot()), inc, order)
                            else OnStreamUpdate(old(Snapshot()), id, inc)
    {
      hide OnConnUpdate, OnStreamUpdate, IsOrder;
      if id == 0 {
        order := HandleConnUpdate(inc);
      } else {
        order := ListQueued();
        HandleStreamUpdate(id, inc);
      }
    }

    method HandleConnUpdate(inc: nat) returns (ghost order: seq<StreamId>)
      requires Valid()
      modifies this
      ensures Valid() && IsOrder(old(Snapshot()), order)
      ensures Snapshot() == OnConnUpdate(old(Snapshot()), inc, order)
    {
      hide Drain, IsOrder;
      order := ListQueued();
      if inc == 0 {
        return;
      }
      if connWindow > MAX_WINDOW - inc {
        WriteGoAway();
        return;
      }
      connWindow := connWindow + inc;
      trace := Then(trace, ConnCredit(inc));
      order := DrainPendingData();
      SameOrder(old(Snapshot()), inc, order);
    }

    method HandleStreamUpdate(id: StreamId, inc: nat)
      requires Valid()
      modifies this
      ensures Valid() && Snapshot() == OnStreamUpdate(old(Snapshot()), id, inc)
    {
      hide Pump, StreamError;
      if inc == 0 {
        return;
      }
      if id !in streams {
        if id !in closedStreams {
          WriteGoAway();
        }
        return;
      }
      if streams[id].sendWindow > MAX_WINDOW - inc {
        FailStream(id, 3, true);
        return;
      }
      streams := streams[id := streams[id].(sendWindow := streams[id].sendWindow + inc)];
      trace := Then(trace, StreamCredit(id, inc));
      PumpStreamData(id);
    }

    method ChangeInitialWindow(value: nat)
      requires Valid()
      modifies this
      ensures Valid() && Snapshot() == SetInitialWindow(old(Snapshot()), value)
    {
      hide ShiftWindows, Overflows;
      var delta := value - initialWindow;
      initialWindow := value;
      var overflow;
      streams, overflow := ShiftAll(streams, delta);
      trace := Then(trace, InitialWindow(value));
      if overflow {
        WriteGoAway();
      }
    }

    /** `apply_peer_settings`, then the acknowledgement `process_frames` writes. */
    method HandleSettings(settings: seq<Setting>)
      requires Valid()
      modifies this
      ensures Valid() && Snapshot() == OnSettings(old(Snapshot()), settings)
    {
      ApplyPeerSettings(settings);
      Write(SettingsAck);
    }

    method ApplyPeerSettings(settings: seq<Setting>)
      requires Valid()
      modifies this
      ensures Valid() && Snapshot() == ApplySettings(old(Snapshot()), settings)
    {
      var k := 0;
      while k < |settings|
        invariant Valid() && 0 <= k <= |settings|
        invariant ApplySettings(Snapshot(), settings[k..]) == ApplySettings(old(Snapshot()), settings)
      {
        var setting := settings[k];
        assert settings[k..][1..] == settings[k + 1..];
        k := k + 1;
        if setting.id == 4 {
          ChangeInitialWindow(setting.value);
        } else if setting.id == 5 {
          if setting.value < DEFAULT_MAX_FRAME || setting.value > MAX_FRAME_LIMIT {
            WriteGoAway();
            return;
          }
          maxFrame := setting.value;
          trace := Then(trace, MaxFrame(setting.value));
        }
      }
    }

    /** `handle_headers_frame` and `open_request_stream`. */
    method HandleHeaders(id: StreamId)
      requires Valid()
      modifies this
      ensures Valid() && Snapshot() == OnHeaders(old(Snapshot()), id)
    {
      if graceful.Some? && id > graceful.value {
        return;
      }
      if id in streams {
        if streams[id].remoteEnded {
          FailStream(id, 5, true);
        }
        return;
      }
      if id == 0 || id % 2 == 0 || id <= highest {
        WriteGoAway();
        return;
      }
      highest := id;
      if |streams| >= limits.maxConcurrent {
        Write(ResetFrame(id, 7));
        return;
      }
      streams := streams[id := Entry(initialWindow, [], 0, false, false, false, false, [])];
      trace := Then(trace, Opened(id));
    }

    /** `handle_reset_frame`. */
    method HandleReset(id: StreamId)
      requires Valid()
      modifies this
      ensures Valid() && Snapshot() == OnReset(old(Snapshot()), id)
    {
      if id !in streams {
        if id !in closedStreams {
          WriteGoAway();
        }
        return;
      }
      var e := streams[id];
      streams := streams - {id};
      if !e.responseStarted {
        if limits.maxAcceptResets.Some? && acceptResets >= limits.maxAcceptResets.value {
          WriteGoAway();
          return;
        }
        acceptResets := acceptResets + 1;
      }
      RememberClosed(id);
    }

    // Messages from stream tasks

    /** `handle_stream_msg`. */
    method HandleStreamMsg(id: StreamId, m: Msg)
      requires Valid()
      modifies this
      ensures Valid() && Snapshot() == OnMsg(old(Snapshot()), id, m)
    {
      match m
      case Informational =>
        Write(BlockFrame(id, false, Interim));
      case Headers(end) =>
        if id !in streams {
          Write(BlockFrame(id, end, Orphan));
        } else if !streams[id].localEnded {
          streams := streams[id := streams[id].(localEnded := end, responseStarted := true)];
          Write(BlockFrame(id, end, Response));
        }
      case Data(chunk) =>
        if id in streams && !streams[id].localEnded {
          streams := streams[id := streams[id].(responseStarted := true, pending := streams[id].pending + [chunk])];
          PumpStreamData(id);
        }
      case Trailers =>
        if id in streams && !streams[id].localEnded {
          streams := streams[id := streams[id].(localEnded := true, responseStarted := true)];
          Write(BlockFrame(id, true, Trailer));
        }
      case Reset(code) =>
        Write(ResetFrame(id, code));
        RetireStream(id);
      case Closed =>
        if id in streams {
          streams := streams[id := streams[id].(taskDone := true)];
          if streams[id].localEnded {
            RetireStream(id);
          }
        }
    }

    /** Handles one stream's batch, merging an empty end message into the DATA before it. */
    method HandleBatch(id: StreamId, msgs: seq<Msg>)
      requires Valid()
      modifies this
      ensures Valid() && Snapshot() == OnMsgs(old(Snapshot()), id, Fold(msgs))
    {
      hide OnMsg;
      var k := 0;
      while k < |msgs|
        invariant Valid() && 0 <= k <= |msgs|
        invariant OnMsgs(Snapshot(), id, Fold(msgs[k..])) == OnMsgs(old(Snapshot()), id, Fold(msgs))
      {
        var m := msgs[k];
        ghost var rest := msgs[k..];
        assert rest[1..] == msgs[k + 1..];
        k := k + 1;
        if m.Data? && k < |msgs| && msgs[k] == Data(Chunk([], true)) {
          m := Data(Chunk(m.chunk.data, true));
          assert rest[2..] == msgs[k + 1..];
          k := k + 1;
        }
        assert Fold(rest) == [m] + Fold(msgs[k..]);
        assert Fold(rest)[1..] == Fold(msgs[k..]);
        HandleStreamMsg(id, m);
      }
    }

    /** Lists the streams with waiting messages in whatever order the map yields them. */
    method ListWaiting() returns (ids: seq<StreamId>)
      ensures Possible(Snapshot(), Wake(ids))
    {
      ids := [];
      var todo := streams.Keys;
      while todo != {}
        invariant todo <= streams.Keys
        invariant forall id :: id in ids <==> id in streams.Keys - todo && streams[id].inbox != []
        invariant NoDup(ids)
        decreases |todo|
      {
        var id :| id in todo;
        todo := todo - {id};
        if streams[id].inbox != [] {
          assert id !in ids;
          ids := ids + [id];
        }
      }
    }

    /** `drain_outbound`: hands every unblocked stream's messages to the wire. */
    method DrainOutbound() returns (ghost order: seq<StreamId>)
      requires Valid()
      modifies this
      ensures Valid() && Possible(old(Snapshot()), Wake(order)) && Snapshot() == OnWake(old(Snapshot()), order)
    {
      hide OnMsgs;
      var ids := ListWaiting();
      order := ids;
      var k := 0;
      while k < |ids|
        invariant Valid() && 0 <= k <= |ids|
        invariant OnWake(Snapshot(), ids[k..]) == OnWake(old(Snapshot()), order)
      {
        var id := ids[k];
        assert ids[k..][1..] == ids[k + 1..];
        k := k + 1;
        if id in streams && streams[id].pending == [] {
          var msgs := streams[id].inbox;
          streams := streams[id := streams[id].(inbox := [])];
          HandleBatch(id, msgs);
        }
      }
    }

    /** A stream task's message enters its channel. */
    method AcceptMessage(id: StreamId, m: Msg)
      requires Valid()
      modifies this
      ensures Valid() && Snapshot() == OnTaskSend(old(Snapshot()), id, m)
    {
      if id in streams {
        streams := streams[id := streams[id].(inbox := streams[id].inbox + [m])];
        trace := Then(trace, Handed(id, m));
      }
    }

    // The event loop

    /**
     One turn of the event loop: whatever the input, the object takes a step
     of the state machine, so everything proved of runs holds of it.
     */
    method Dispatch(input: Input) returns (ghost e: Event)
      requires Valid() && Inv(Snapshot()) && NoIdleCredit(Snapshot())
      requires input.FrameSettings? ==> LegalSettings(input.settings)
      requires (input.Fault? || input.Gone?) ==> Live(Snapshot(), input.id)
      modifies this
      ensures Valid() && Possible(old(Snapshot()), e) && Snapshot() == Step(old(Snapshot()), e)
      ensures Inv(Snapshot()) && NoIdleCredit(Snapshot())
    {
      hide Inv, NoIdleCredit, OnConnUpdate, OnStreamUpdate, OnSettings, OnHeaders, OnReset, StreamError, Retire,
           OnTaskSend, OnWake, RaiseGoAway, BeginShutdown, FinishShutdown, Frames;
      match input {
        case FrameWindowUpdate(id, inc) =>
          ghost var order := HandleWindowUpdate(id, inc);
          e := if id == 0 then ConnUpdate(inc, order) else StreamUpdate(id, inc);
        case FrameSettings(settings) =>
          HandleSettings(settings);
          e := Settings(settings);
        case FrameHeaders(id) =>
          HandleHeaders(id);
          e := PeerHeaders(id);
        case FrameReset(id) =>
          HandleReset(id);
          e := PeerReset(id);
        case BodyEnd(id) =>
          if id in streams {
            streams := streams[id := streams[id].(remoteEnded := true)];
          }
          e := RequestEnd(id);
        case Fault(id, code, counted) =>
          FailStream(id, code, counted);
          e := RequestFault(id, code, counted);
        case Gone(id) =>
          RetireStream(id);
          e := RequestGone(id);
        case FaultyFrame =>
          WriteGoAway();
          e := ConnFault;
        case StopRequested =>
          BeginGracefulShutdown();
          e := Shutdown;
        case LoopDone =>
          FinishGracefulShutdown();
          e := Stopped;
        case TaskMessage(id, m) =>
          AcceptMessage(id, m);
          e := TaskSend(id, m);
        case WakeUp =>
          ghost var order := DrainOutbound();
          e := Wake(order);
      }
      StepKeeps(old(Snapshot()), e);
    }
  }

  /** Adds `delta` to every stream window and reports whether one left the legal range. */
  method ShiftAll(streams: map<StreamId, Entry>, delta: int) returns (r: map<StreamId, Entry>, overflow: bool)
    ensures r == ShiftWindows(streams, delta)
    ensures overflow == Overflows(r)
  {
    r, overflow := map[], false;
    var todo := streams.Keys;
    while todo != {}
      invariant todo <= streams.Keys && r.Keys == streams.Keys - todo
      invariant forall id :: id in r ==> r[id] == streams[id].(sendWindow := streams[id].sendWindow + delta)
      invariant overflow <==> exists id :: id in r && streams[id].sendWindow + delta > MAX_WINDOW
      decreases |todo|
    {
      var id :| id in todo;
      todo := todo - {id};
      r := r[id := streams[id].(sendWindow := streams[id].sendWindow + delta)];
      overflow := overflow || r[id].sendWindow > MAX_WINDOW;
    }
  }

  lemma AfterKept(next: seq<StreamId>, progress: bool, rest: RoundResult, kept: seq<StreamId>, moved: bool)
    ensures After(next, progress, RoundResult(rest.state, kept + rest.next, moved || rest.progress))
            == After(next + kept, progress || moved, rest)
  {
    assert next + (kept + rest.next) == (next + kept) + rest.next;
  }

  /** What reaches the event loop. */
  datatype Input =
    | FrameWindowUpdate(id: StreamId, inc: nat)
    | FrameSettings(settings: seq<Setting>)
    | FrameHeaders(id: StreamId)
    | FrameReset(id: StreamId)
    | BodyEnd(id: StreamId)
    | Fault(id: StreamId, code: nat, counted: bool)
    | Gone(id: StreamId)
    | FaultyFrame
    | StopRequested
    | LoopDone
    | TaskMessage(id: StreamId, msg: Msg)
    | WakeUp

  /** Connection credit does not change which streams have queued data. */
  lemma SameOrder(s: Conn, inc: nat, order: seq<StreamId>)
    requires IsOrder(WithConnCredit(s, inc), order)
    ensures IsOrder(s, order)
  {
    forall i ensures Queued(WithConnCredit(s, inc), i) <==> Queued(s, i) {}
  }

  /** The result of a round whose first part already listed `next` and made `progress`. */
  function After(next: seq<StreamId>, progress: bool, rest: RoundResult): RoundResult {
    RoundResult(rest.state, next + rest.next, progress || rest.progress)
  }
}
