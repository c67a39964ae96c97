/**
 The send side of an HTTP/2 connection as a state machine on values: what each
 handler of `src/h2/connection/handlers.rs` does to the connection.
 */
module Sender {
  import opened Basics
  import opened SendTrace

  const CLOSED_LIMIT: nat := 4096
  const USIZE_MAX: nat := 0xffff_ffff_ffff_ffff

  /** The send-side fields of one live stream; `inbox` is the task's message channel. */
  datatype Entry = Entry(
    sendWindow: int,
    pending: seq<Chunk>,
    deficit: nat,
    localEnded: bool,
    taskDone: bool,
    responseStarted: bool,
    remoteEnded: bool,
    inbox: seq<Msg>)

  datatype Limits = Limits(maxConcurrent: nat, maxLocalResets: Option<nat>, maxAcceptResets: Option<nat>)

  /** `graceful` is the last stream id announced when a graceful shutdown began. */
  datatype Conn = Conn(
    connWindow: int,
    initialWindow: nat,
    maxFrame: nat,
    streams: map<StreamId, Entry>,
    closedStreams: set<StreamId>,
    closedOrder: seq<StreamId>,
    highest: nat,
    closing: bool,
    graceful: Option<nat>,
    localErrorResets: nat,
    acceptResets: nat,
    limits: Limits,
    trace: Trace)

  /** A connection configured with a connection window, before any frame. */
  function Start(window: nat, limits: Limits): Conn {
    Conn(window, DEFAULT_WINDOW, DEFAULT_MAX_FRAME, map[], {}, [], 0, false, None, 0, 0, limits, Begin(window))
  }

  function Note(s: Conn, item: Item): Conn {
    s.(trace := Then(s.trace, item))
  }

  function Emit(s: Conn, f: Frame): Conn {
    Note(s, Sent(f))
  }

  function RaiseGoAway(s: Conn): Conn {
    Emit(s.(closing := true), GoAway(s.highest))
  }

  /** `begin_graceful_shutdown`. */
  function BeginShutdown(s: Conn): Conn {
    if s.graceful.Some? || s.closing then s
    else Emit(s.(graceful := Some(s.highest)), GoAway(s.highest))
  }

  /** `finish_graceful_shutdown`, run when a connection that was shutting down stops. */
  function FinishShutdown(s: Conn): Conn {
    if s.graceful.None? || s.closing then s else Emit(s, GoAway(s.graceful.value))
  }

  // Closed-stream memory

  /** Remembers a closed id, forgetting the oldest one at the 4096 bound. */
  function MarkClosed(s: Conn, id: StreamId): Conn {
    var s1 :=
      if |s.closedStreams| >= CLOSED_LIMIT && s.closedOrder != [] then
        s.(closedStreams := s.closedStreams - {s.closedOrder[0]}, closedOrder := s.closedOrder[1..])
      else s;
    if id in s1.closedStreams then s1
    else Note(s1.(closedStreams := s1.closedStreams + {id}, closedOrder := s1.closedOrder + [id]), Gone(id))
  }

  function Retire(s: Conn, id: StreamId): Conn {
    var s1 := MarkClosed(s, id);
    s1.(streams := s1.streams - {id})
  }

  /** A stream error for a peer mistake (`counted`) or our own give-up. */
  function StreamError(s: Conn, id: StreamId, code: nat, counted: bool): Conn {
    if counted && s.limits.maxLocalResets.Some? && s.localErrorResets >= s.limits.maxLocalResets.value then
      RaiseGoAway(s)
    else
      var s1 := if counted then s.(localErrorResets := s.localErrorResets + 1) else s;
      Retire(Emit(s1, ResetFrame(id, code)), id)
  }

  // Sending queued DATA

  predicate Live(s: Conn, id: StreamId) {
    id in s.streams
  }

  /** The stream still has queued chunks to send. */
  predicate Queued(s: Conn, id: StreamId) {
    id in s.streams && !s.streams[id].localEnded && s.streams[id].pending != []
  }

  /** Queued, and its own window is open. */
  predicate Hungry(s: Conn, id: StreamId) {
    Queued(s, id) && s.streams[id].sendWindow > 0
  }

  function Available(s: Conn, id: StreamId): int
    requires Live(s, id)
  {
    Min(s.connWindow, s.streams[id].sendWindow)
  }

  /** Sending never touches the peer's frame size, the configured limits or the id high-water mark. */
  predicate SameConfig(s: Conn, r: Conn) {
    r.maxFrame == s.maxFrame && r.limits == s.limits && r.highest == s.highest && r.graceful == s.graceful
  }

  function PendingSize(cs: seq<Chunk>): nat {
    if cs == [] then 0 else 1 + |cs[0].data| + PendingSize(cs[1..])
  }

  function Work(s: Conn, id: StreamId): nat {
    if Live(s, id) then PendingSize(s.streams[id].pending) else 0
  }

  /** What is left of a queue after `n` bytes of its front chunk went out. */
  function Cut(pending: seq<Chunk>, n: nat): seq<Chunk>
    requires pending != [] && n <= |pending[0].data|
  {
    if n == |pending[0].data| then pending[1..]
    else [Chunk(pending[0].data[n..], pending[0].end)] + pending[1..]
  }

  /** `n` bytes of the front chunk may go out as one frame, `cost` of them against the deficit. */
  predicate Sendable(s: Conn, id: StreamId, n: nat, cost: nat) {
    && Queued(s, id)
    && n <= |s.streams[id].pending[0].data|
    && (n == 0 ==> s.streams[id].pending[0].data == [])
    && cost <= s.streams[id].deficit
  }

  predicate EndsStream(s: Conn, id: StreamId, n: nat)
    requires Queued(s, id)
  {
    s.streams[id].pending[0].end && n == |s.streams[id].pending[0].data|
  }

  /** Writes the DATA frame and updates windows, queue and end flag. */
  function WriteData(s: Conn, id: StreamId, n: nat, cost: nat): (r: Conn)
    requires Sendable(s, id, n, cost)
  {
    var e := s.streams[id];
    var e1 := e.(sendWindow := e.sendWindow - n,
                 deficit := e.deficit - cost,
                 pending := Cut(e.pending, n),
                 localEnded := EndsStream(s, id, n));
    Emit(s.(connWindow := s.connWindow - n, streams := s.streams[id := e1]),
         DataFrame(id, EndsStream(s, id, n), e.pending[0].data[..n]))
  }

  /** Sends one DATA frame and retires the stream when it ended and its task is gone. */
  function SendFront(s: Conn, id: StreamId, n: nat, cost: nat): (r: Conn)
    requires Sendable(s, id, n, cost)
    ensures r.connWindow == s.connWindow - n
    ensures Work(r, id) < Work(s, id)
  {
    var s1 := WriteData(s, id, n, cost);
    if EndsStream(s, id, n) && s.streams[id].taskDone then Retire(s1, id) else s1
  }

  /** Bytes of the front chunk that fit both windows. */
  function Fit(s: Conn, id: StreamId): (n: nat)
    requires Queued(s, id) && Available(s, id) > 0
    ensures n <= |s.streams[id].pending[0].data|
  {
    Min(|s.streams[id].pending[0].data|, Available(s, id))
  }

  /** Sends everything the windows allow on one stream. */
  function Pump(s: Conn, id: StreamId): (r: Conn)
    requires s.maxFrame > 0
    ensures r.connWindow <= s.connWindow && SameConfig(s, r)
    decreases Work(s, id)
  {
    if !Queued(s, id) then s
    else if s.streams[id].pending[0].data == [] then Pump(SendFront(s, id, 0, 0), id)
    else if Available(s, id) <= 0 then s
    else
      var n := Min(Fit(s, id), s.maxFrame);
      var s1 := SendFront(s, id, n, 0);
      if n == |s.streams[id].pending[0].data| || n != Fit(s, id) then Pump(s1, id) else s1
  }

  /** One turn of the round-robin: zero-length frames, then at most one frame within the deficit. */
  function Turn(s: Conn, id: StreamId): (r: Conn)
    requires s.maxFrame > 0
    ensures r.connWindow <= s.connWindow && SameConfig(s, r)
    decreases Work(s, id)
  {
    if !Queued(s, id) then s
    else if s.streams[id].pending[0].data == [] then Turn(SendFront(s, id, 0, 0), id)
    else if s.streams[id].deficit == 0 || Available(s, id) <= 0 then s
    else
      var n := Min(Min(Fit(s, id), s.streams[id].deficit), s.maxFrame);
      SendFront(s, id, n, n)
  }

  function AddDeficit(s: Conn, id: StreamId, quantum: nat): Conn
    requires Live(s, id)
  {
    var e := s.streams[id];
    s.(streams := s.streams[id := e.(deficit := Min(e.deficit + quantum, USIZE_MAX))])
  }

  datatype RoundResult = RoundResult(state: Conn, next: seq<StreamId>, progress: bool)

  /** One round over `ids`; it stops early when the connection window is used up. */
  function Round(s: Conn, ids: seq<StreamId>, quantum: nat): (r: RoundResult)
    requires s.maxFrame > 0
    ensures r.state.connWindow <= s.connWindow && SameConfig(s, r.state)
    ensures r.progress ==> r.state.connWindow < s.connWindow
    decreases |ids|
  {
    if ids == [] then RoundResult(s, [], false)
    else if !Hungry(s, ids[0]) then Round(s, ids[1..], quantum)
    else
      var s1 := Turn(AddDeficit(s, ids[0], quantum), ids[0]);
      var moved := s1.connWindow < s.connWindow;
      var kept := if Queued(s1, ids[0]) then [ids[0]] else [];
      if s1.connWindow <= 0 then RoundResult(s1, kept, moved)
      else
        var rest := Round(s1, ids[1..], quantum);
        RoundResult(rest.state, kept + rest.next, moved || rest.progress)
  }

  /** Rounds until no progress, no connection window or nobody left. */
  function Rounds(s: Conn, ids: seq<StreamId>, quantum: nat): (r: Conn)
    requires s.maxFrame > 0
    ensures SameConfig(s, r)
    decreases if s.connWindow > 0 then s.connWindow else 0
  {
    if s.connWindow <= 0 || ids == [] then s
    else
      var r := Round(s, ids, quantum);
      if r.progress then Rounds(r.state, r.next, quantum) else r.state
  }

  /** `ids` lists, in any order, exactly the streams with queued data. */
  ghost predicate IsOrder(s: Conn, ids: seq<StreamId>) {
    && (forall id :: id in ids <==> Queued(s, id))
    && (forall i, j :: 0 <= i < j < |ids| ==> ids[i] != ids[j])
  }

  function Drain(s: Conn, ids: seq<StreamId>): Conn
    requires s.maxFrame > 0
  {
    Rounds(s, ids, s.maxFrame)
  }

  // Frames from the peer

  function OnConnUpdate(s: Conn, inc: nat, ids: seq<StreamId>): Conn
    requires s.maxFrame > 0
  {
    if inc == 0 then s
    else if s.connWindow > MAX_WINDOW - inc then RaiseGoAway(s)
    else Drain(Note(s.(connWindow := s.connWindow + inc), ConnCredit(inc)), ids)
  }

  function OnStreamUpdate(s: Conn, id: StreamId, inc: nat): Conn
    requires s.maxFrame > 0
  {
    if inc == 0 then s
    else if !Live(s, id) then
      if id in s.closedStreams then s else RaiseGoAway(s)
    else if s.streams[id].sendWindow > MAX_WINDOW - inc then StreamError(s, id, 3, true)
    else
      var e := s.streams[id];
      Pump(Note(s.(streams := s.streams[id := e.(sendWindow := e.sendWindow + inc)]), StreamCredit(id, inc)), id)
  }

  datatype Setting = Setting(id: nat, value: nat)

  function ShiftWindows(streams: map<StreamId, Entry>, delta: int): map<StreamId, Entry> {
    map id | id in streams :: streams[id].(sendWindow := streams[id].sendWindow + delta)
  }

  predicate Overflows(streams: map<StreamId, Entry>) {
    exists id :: id in streams && streams[id].sendWindow > MAX_WINDOW
  }

  function SetInitialWindow(s: Conn, value: nat): Conn {
    var s1 := Note(s.(initialWindow := value, streams := ShiftWindows(s.streams, value - s.initialWindow)),
                   InitialWindow(value));
    if Overflows(s1.streams) then RaiseGoAway(s1) else s1
  }

  /** The settings that reach the send side; an illegal frame size stops the list. */
  function ApplySettings(s: Conn, settings: seq<Setting>): (r: Conn)
    requires s.maxFrame > 0
    ensures r.maxFrame > 0 && r.limits == s.limits && r.highest == s.highest && r.graceful == s.graceful
    decreases |settings|
  {
    if settings == [] then s
    else if settings[0].id == 4 then ApplySettings(SetInitialWindow(s, settings[0].value), settings[1..])
    else if settings[0].id == 5 then
      if DEFAULT_MAX_FRAME <= settings[0].value <= MAX_FRAME_LIMIT then
        ApplySettings(Note(s.(maxFrame := settings[0].value), MaxFrame(settings[0].value)), settings[1..])
      else RaiseGoAway(s)
    else ApplySettings(s, settings[1..])
  }

  function OnSettings(s: Conn, settings: seq<Setting>): Conn
    requires s.maxFrame > 0
  {
    Emit(ApplySettings(s, settings), SettingsAck)
  }

  function OpenStream(s: Conn, id: StreamId): Conn {
    if id == 0 || id % 2 == 0 || id <= s.highest then RaiseGoAway(s)
    else
      var s1 := s.(highest := id);
      if |s1.streams| >= s1.limits.maxConcurrent then Emit(s1, ResetFrame(id, 7))
      else
        Note(s1.(streams := s1.streams[id := Entry(s1.initialWindow, [], 0, false, false, false, false, [])]),
             Opened(id))
  }

  /** A HEADERS frame: opens a stream unless shutting down, or is an error on one the peer already ended. */
  function OnHeaders(s: Conn, id: StreamId): Conn {
    if s.graceful.Some? && id > s.graceful.value then s
    else if !Live(s, id) then OpenStream(s, id)
    else if s.streams[id].remoteEnded then StreamError(s, id, 5, true)
    else s
  }

  /** The request side of a live stream ended. */
  function OnRequestEnd(s: Conn, id: StreamId): Conn {
    if Live(s, id) then s.(streams := s.streams[id := s.streams[id].(remoteEnded := true)]) else s
  }

  function OnReset(s: Conn, id: StreamId): Conn {
    if !Live(s, id) then
      if id in s.closedStreams then s else RaiseGoAway(s)
    else
      var e := s.streams[id];
      var s1 := s.(streams := s.streams - {id});
      if e.responseStarted then MarkClosed(s1, id)
      else if s.limits.maxAcceptResets.Some? && s.acceptResets >= s.limits.maxAcceptResets.value then RaiseGoAway(s1)
      else MarkClosed(s1.(acceptResets := s.acceptResets + 1), id)
  }

  // Messages from stream tasks

  /** A stream task puts a message into its channel. */
  function OnTaskSend(s: Conn, id: StreamId, m: Msg): Conn {
    if Live(s, id) then
      var e := s.streams[id];
      Note(s.(streams := s.streams[id := e.(inbox := e.inbox + [m])]), Handed(id, m))
    else s
  }

  function OnMsg(s: Conn, id: StreamId, m: Msg): (r: Conn)
    requires s.maxFrame > 0
    ensures SameConfig(s, r)
  {
    match m
    case Informational => Emit(s, BlockFrame(id, false, Interim))
    case Headers(end) =>
      if !Live(s, id) then Emit(s, BlockFrame(id, end, Orphan))
      else if s.streams[id].localEnded then s
      else
        var e := s.streams[id].(localEnded := end, responseStarted := true);
        Emit(s.(streams := s.streams[id := e]), BlockFrame(id, end, Response))
    case Data(chunk) =>
      if !Live(s, id) || s.streams[id].localEnded then s
      else
        var e := s.streams[id];
        Pump(s.(streams := s.streams[id := e.(responseStarted := true, pending := e.pending + [chunk])]), id)
    case Trailers =>
      if !Live(s, id) || s.streams[id].localEnded then s
      else
        var e := s.streams[id].(localEnded := true, responseStarted := true);
        Emit(s.(streams := s.streams[id := e]), BlockFrame(id, true, Trailer))
    case Reset(code) => Retire(Emit(s, ResetFrame(id, code)), id)
    case Closed =>
      if !Live(s, id) then s
      else
        var s1 := s.(streams := s.streams[id := s.streams[id].(taskDone := true)]);
        if s.streams[id].localEnded then Retire(s1, id) else s1
  }

  /** Merges an empty end message into the DATA message before it. */
  function Fold(msgs: seq<Msg>): (r: seq<Msg>)
    ensures |r| <= |msgs|
    decreases |msgs|
  {
    if |msgs| >= 2 && msgs[0].Data? && msgs[1] == Data(Chunk([], true)) then
      [Data(Chunk(msgs[0].chunk.data, true))] + Fold(msgs[2..])
    else if msgs == [] then []
    else [msgs[0]] + Fold(msgs[1..])
  }

  function OnMsgs(s: Conn, id: StreamId, msgs: seq<Msg>): (r: Conn)
    requires s.maxFrame > 0
    ensures SameConfig(s, r)
    decreases |msgs|
  {
    if msgs == [] then s else OnMsgs(OnMsg(s, id, msgs[0]), id, msgs[1..])
  }

  /** Takes one stream's waiting messages, unless its earlier DATA is still queued. */
  function Collect(s: Conn, id: StreamId): (r: Conn)
    requires s.maxFrame > 0
    ensures SameConfig(s, r)
  {
    if !Live(s, id) || s.streams[id].pending != [] then s
    else
      var e := s.streams[id];
      OnMsgs(s.(streams := s.streams[id := e.(inbox := [])]), id, Fold(e.inbox))
  }

  function OnWake(s: Conn, ids: seq<StreamId>): (r: Conn)
    requires s.maxFrame > 0
    ensures SameConfig(s, r)
    decreases |ids|
  {
    if ids == [] then s else OnWake(Collect(s, ids[0]), ids[1..])
  }
}
