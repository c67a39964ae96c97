/**
 What a run is given, read off its events alone: credit, settings, streams and
 messages. The accounts of the connection are proved to be those of its events,
 so a step can neither lose nor invent an input.
 */
module SenderLedger {
  import opened Basics
  import opened SendTrace
  import opened Sender
  import opened SenderInvariant
  import opened SenderDrain
  import opened SenderSteps
  import opened SenderRuns
  import opened SenderPour

  // What one event gives

  /** Connection credit is taken unless it takes the window past 2^31 - 1. */
  function ConnGrant(s: Conn, e: Event): nat {
    if e.ConnUpdate? && s.connWindow + e.inc <= 0x7fff_ffff then e.inc else 0
  }

  /** Stream credit is taken by a live stream unless it takes its window past 2^31 - 1. */
  function StreamGrant(s: Conn, e: Event, id: StreamId): nat {
    if e.StreamUpdate? && e.id == id && Live(s, id) && s.streams[id].sendWindow + e.inc <= 0x7fff_ffff then e.inc else 0
  }

  /** A stream is opened by HEADERS with a new odd id, up to the limit, until a shutdown begins. */
  predicate Opens(s: Conn, e: Event) {
    && e.PeerHeaders? && e.id % 2 == 1 && e.id > s.highest
    && s.graceful.None? && |s.streams| < s.limits.maxConcurrent
  }

  function Says(s: Conn, e: Event, id: StreamId): seq<Msg> {
    if e.TaskSend? && e.id == id && Live(s, id) then [e.msg] else []
  }

  /** The settings that take effect: those in front of the first illegal frame size. */
  function Effective(settings: seq<Setting>): seq<Setting> {
    if settings == [] || (settings[0].id == 5 && !(16384 <= settings[0].value <= 16777215)) then []
    else [settings[0]] + Effective(settings[1..])
  }

  /** The last value for `key`, or the one it had. */
  function Latest(settings: seq<Setting>, key: nat, value: int): int {
    if settings == [] then value
    else Latest(settings[1..], key, if settings[0].id == key then settings[0].value else value)
  }

  function Set(e: Event, key: nat, value: int): int {
    if e.Settings? then Latest(Effective(e.settings), key, value) else value
  }

  // What a run gives

  function ConnGrants(s: Conn, events: seq<Event>): nat
    decreases |events|
  {
    if events == [] || s.maxFrame == 0 then 0
    else ConnGrant(s, events[0]) + ConnGrants(Step(s, events[0]), events[1..])
  }

  function StreamGrants(s: Conn, events: seq<Event>, id: StreamId): nat
    decreases |events|
  {
    if events == [] || s.maxFrame == 0 then 0
    else StreamGrant(s, events[0], id) + StreamGrants(Step(s, events[0]), events[1..], id)
  }

  function OpenedIn(s: Conn, events: seq<Event>): seq<StreamId>
    decreases |events|
  {
    if events == [] || s.maxFrame == 0 then []
    else (if Opens(s, events[0]) then [events[0].id] else []) + OpenedIn(Step(s, events[0]), events[1..])
  }

  /** What the task of the stream said while the stream had an entry. */
  function Spoken(s: Conn, events: seq<Event>, id: StreamId): seq<Msg>
    decreases |events|
  {
    if events == [] || s.maxFrame == 0 then []
    else Says(s, events[0], id) + Spoken(Step(s, events[0]), events[1..], id)
  }

  function LastSetting(events: seq<Event>, key: nat, value: int): int {
    if events == [] then value else LastSetting(events[1..], key, Set(events[0], key, value))
  }

  /** How many SETTINGS frames the peer sent. */
  function SettingsFrames(events: seq<Event>): nat {
    if events == [] then 0 else (if events[0].Settings? then 1 else 0) + SettingsFrames(events[1..])
  }

  /** The highest odd id among the HEADERS of the run. */
  function TopHeaders(events: seq<Event>, top: nat): nat {
    if events == [] then top
    else TopHeaders(events[1..],
                    if events[0].PeerHeaders? && events[0].id % 2 == 1 then Max(events[0].id, top) else top)
  }

  // Steps that take nothing in

  /** Output only: nothing was taken in, counted or closed. */
  ghost predicate Serves(s: Conn, r: Conn) {
    SameFields(s, r) && SameInputs(s.trace, r.trace) && SameRequests(s, r)
  }

  lemma PoursServes(s: Conn, r: Conn)
    requires Pours(s, r)
    ensures Serves(s, r)
  {
  }

  lemma ServesThen(a: Conn, b: Conn, c: Conn)
    requires Serves(a, b) && Serves(b, c)
    ensures Serves(a, c)
  {
  }

  lemma FrameIsOutput(t: Trace, f: Frame)
    requires !f.SettingsAck?
    ensures SameInputs(t, Then(t, Sent(f)))
  {
  }

  lemma GoneIsOutput(t: Trace, id: StreamId)
    ensures SameInputs(t, Then(t, Gone(id)))
  {
  }

  lemma SameInputsThen(t: Trace, u: Trace, v: Trace)
    requires SameInputs(t, u) && SameInputs(u, v)
    ensures SameInputs(t, v)
  {
  }

  lemma RetireServes(s: Conn, id: StreamId)
    ensures Serves(s, Retire(s, id))
  {
    hide MarkClosed, SameInputs;
    MarkClosedShape(s, id);
    GoneIsOutput(s.trace, id);
    SameInputsRefl(s.trace);
  }

  lemma SameInputsRefl(t: Trace)
    ensures SameInputs(t, t)
  {
  }

  lemma OnMsgServes(s: Conn, id: StreamId, m: Msg)
    requires s.maxFrame > 0
    ensures Serves(s, OnMsg(s, id, m))
  {
    hide SameInputs, Pump, Retire;
    SameInputsRefl(s.trace);
    match m
    case Informational => FrameIsOutput(s.trace, BlockFrame(id, false, Interim));
    case Headers(end) =>
      FrameIsOutput(s.trace, BlockFrame(id, end, Orphan));
      FrameIsOutput(s.trace, BlockFrame(id, end, Response));
    case Trailers => FrameIsOutput(s.trace, BlockFrame(id, true, Trailer));
    case Data(chunk) =>
      if Live(s, id) && !s.streams[id].localEnded {
        var s1 := WithChunk(s, id, chunk);
        PumpPours(s1, id);
        PoursServes(s1, Pump(s1, id));
        ServesThen(s, s1, Pump(s1, id));
      }
    case Reset(code) =>
      var s1 := Emit(s, ResetFrame(id, code));
      FrameIsOutput(s.trace, ResetFrame(id, code));
      RetireServes(s1, id);
      ServesThen(s, s1, Retire(s1, id));
    case Closed =>
      if Live(s, id) {
        var s1 := s.(streams := s.streams[id := s.streams[id].(taskDone := true)]);
        RetireServes(s1, id);
        if s.streams[id].localEnded {
          ServesThen(s, s1, Retire(s1, id));
        }
      }
  }

  lemma {:induction false} OnMsgsServes(s: Conn, id: StreamId, msgs: seq<Msg>)
    requires s.maxFrame > 0
    ensures Serves(s, OnMsgs(s, id, msgs))
    decreases |msgs|
  {
    hide SameInputs, OnMsg;
    SameInputsRefl(s.trace);
    if msgs != [] {
      OnMsgServes(s, id, msgs[0]);
      OnMsgsServes(OnMsg(s, id, msgs[0]), id, msgs[1..]);
      ServesThen(s, OnMsg(s, id, msgs[0]), OnMsgs(s, id, msgs));
    }
  }

  lemma CollectServes(s: Conn, id: StreamId)
    requires s.maxFrame > 0
    ensures Serves(s, Collect(s, id))
  {
    hide SameInputs, OnMsgs, Fold;
    SameInputsRefl(s.trace);
    if Live(s, id) && s.streams[id].pending == [] {
      var s1 := Emptied(s, id);
      OnMsgsServes(s1, id, Fold(s.streams[id].inbox));
      ServesThen(s, s1, Collect(s, id));
    }
  }

  lemma {:induction false} OnWakeServes(s: Conn, ids: seq<StreamId>)
    requires s.maxFrame > 0
    ensures Serves(s, OnWake(s, ids))
    decreases |ids|
  {
    hide SameInputs, Collect;
    SameInputsRefl(s.trace);
    if ids != [] {
      CollectServes(s, ids[0]);
      OnWakeServes(Collect(s, ids[0]), ids[1..]);
      ServesThen(s, Collect(s, ids[0]), OnWake(s, ids));
    }
  }

  lemma StreamErrorInputs(s: Conn, id: StreamId, code: nat, counted: bool)
    ensures SameInputs(s.trace, StreamError(s, id, code, counted).trace)
  {
    hide SameInputs, Retire;
    FrameIsOutput(s.trace, GoAway(s.highest));
    var s1 := Emit(if counted then s.(localErrorResets := s.localErrorResets + 1) else s, ResetFrame(id, code));
    FrameIsOutput(s.trace, ResetFrame(id, code));
    RetireServes(s1, id);
    SameInputsThen(s.trace, s1.trace, Retire(s1, id).trace);
  }

  lemma OnResetInputs(s: Conn, id: StreamId)
    ensures SameInputs(s.trace, OnReset(s, id).trace)
  {
    hide SameInputs, MarkClosed;
    SameInputsRefl(s.trace);
    FrameIsOutput(s.trace, GoAway(s.highest));
    GoneIsOutput(s.trace, id);
    if Live(s, id) {
      var s1 := s.(streams := s.streams - {id});
      MarkClosedShape(s1, id);
      MarkClosedShape(s1.(acceptResets := s.acceptResets + 1), id);
    }
  }

  // Every event gives exactly what it says

  /** The trace of `r` records what event `e` gave in state `s`. */
  ghost predicate Took(s: Conn, e: Event, u: Trace) {
    var t := s.trace;
    && ConnGranted(u) == ConnGranted(t) + ConnGrant(s, e)
    && InitialNow(u) == Set(e, 4, InitialNow(t)) && MaxFrameNow(u) == Set(e, 5, MaxFrameNow(t))
    && Openings(u) == Openings(t) + (if Opens(s, e) then [e.id] else [])
    && Acks(u) == Acks(t) + (if e.Settings? then 1 else 0)
    && forall id :: StreamGranted(u, id) == StreamGranted(t, id) + StreamGrant(s, e, id) && Said(u, id) == Said(t, id) + Says(s, e, id)
  }

  /** No input recorded but settings. */
  ghost predicate SettingsOnly(t: Trace, u: Trace, settings: seq<Setting>) {
    && ConnGranted(u) == ConnGranted(t) && Openings(u) == Openings(t) && Acks(u) == Acks(t)
    && InitialNow(u) == Latest(Effective(settings), 4, InitialNow(t))
    && MaxFrameNow(u) == Latest(Effective(settings), 5, MaxFrameNow(t))
    && forall id :: StreamGranted(u, id) == StreamGranted(t, id) && Said(u, id) == Said(t, id)
  }

  lemma InitialWindowTook(s: Conn, value: nat)
    ensures var t, u := s.trace, SetInitialWindow(s, value).trace;
            && ConnGranted(u) == ConnGranted(t) && Openings(u) == Openings(t) && Acks(u) == Acks(t)
            && InitialNow(u) == value && MaxFrameNow(u) == MaxFrameNow(t)
            && forall id :: StreamGranted(u, id) == StreamGranted(t, id) && Said(u, id) == Said(t, id)
    ensures SetInitialWindow(s, value).maxFrame == s.maxFrame
  {
    hide ShiftWindows, Overflows;
    var t := Then(s.trace, InitialWindow(value));
    FrameIsOutput(t, GoAway(s.highest));
  }

  lemma {:induction false} ApplySettingsTook(s: Conn, settings: seq<Setting>)
    requires s.maxFrame > 0
    ensures SettingsOnly(s.trace, ApplySettings(s, settings).trace, settings)
    decreases |settings|
  {
    hide SetInitialWindow;
    if settings != [] {
      var first, rest := settings[0], settings[1..];
      EffectiveFirst(settings, 4, InitialNow(s.trace));
      EffectiveFirst(settings, 5, MaxFrameNow(s.trace));
      if first.id == 4 {
        InitialWindowTook(s, first.value);
        ApplySettingsTook(SetInitialWindow(s, first.value), rest);
      } else if first.id == 5 {
        if DEFAULT_MAX_FRAME <= first.value <= MAX_FRAME_LIMIT {
          ApplySettingsTook(Note(s.(maxFrame := first.value), MaxFrame(first.value)), rest);
        }
      } else {
        ApplySettingsTook(s, rest);
      }
    }
  }

  lemma EffectiveFirst(settings: seq<Setting>, key: nat, value: int)
    requires settings != []
    ensures var first, rest := settings[0], Effective(settings[1..]);
            Latest(Effective(settings), key, value) ==
              if first.id == 5 && !(16384 <= first.value <= 16777215) then value
              else Latest(rest, key, if first.id == key then first.value else value)
  {
    var rest := Effective(settings[1..]);
    assert ([settings[0]] + rest)[1..] == rest;
  }

  /** A graceful shutdown announced the highest stream. */
  predicate Announced(s: Conn) {
    s.graceful.Some? ==> s.graceful.value == s.highest
  }

  lemma SameTook(s: Conn, e: Event, u: Trace)
    requires SameInputs(s.trace, u) && !e.Settings? && !Opens(s, e) && ConnGrant(s, e) == 0
    requires forall id :: StreamGrant(s, e, id) == 0 && Says(s, e, id) == []
    ensures Took(s, e, u)
  {
  }

  lemma CreditTook(s: Conn, e: Event, t: Trace, u: Trace)
    requires Took(s, e, t) && SameInputs(t, u)
    ensures Took(s, e, u)
  {
  }

  lemma ConnUpdateTook(s: Conn, inc: nat, order: seq<StreamId>)
    requires s.maxFrame > 0
    ensures Took(s, ConnUpdate(inc, order), OnConnUpdate(s, inc, order).trace)
  {
    hide Rounds;
    var e := ConnUpdate(inc, order);
    if inc != 0 && s.connWindow + inc <= MAX_WINDOW {
      var s1 := WithConnCredit(s, inc);
      RoundsPours(s1, order, s1.maxFrame);
      PoursServes(s1, Drain(s1, order));
      assert Took(s, e, s1.trace);
      CreditTook(s, e, s1.trace, Drain(s1, order).trace);
    }
  }

  lemma StreamUpdateTook(s: Conn, id: StreamId, inc: nat)
    requires s.maxFrame > 0
    ensures Took(s, StreamUpdate(id, inc), OnStreamUpdate(s, id, inc).trace)
  {
    hide Pump, StreamError;
    var e := StreamUpdate(id, inc);
    if inc != 0 && Live(s, id) {
      if s.streams[id].sendWindow + inc <= MAX_WINDOW {
        var s1 := Note(s.(streams := s.streams[id := s.streams[id].(sendWindow := s.streams[id].sendWindow + inc)]),
                       StreamCredit(id, inc));
        PumpPours(s1, id);
        PoursServes(s1, Pump(s1, id));
        assert Took(s, e, s1.trace);
        CreditTook(s, e, s1.trace, Pump(s1, id).trace);
      } else {
        StreamErrorInputs(s, id, 3, true);
        SameTook(s, e, OnStreamUpdate(s, id, inc).trace);
      }
    }
  }

  lemma HeadersTook(s: Conn, id: StreamId)
    requires Announced(s) && (forall i: StreamId :: Live(s, i) ==> i <= s.highest)
    ensures Took(s, PeerHeaders(id), OnHeaders(s, id).trace)
  {
    hide StreamError;
    StreamErrorInputs(s, id, 5, true);
  }

  /** Every event gives what it says, whatever the connection does with it. */
  lemma StepTook(s: Conn, e: Event)
    requires Inv(s) && Announced(s) && s.maxFrame > 0
    ensures Took(s, e, Step(s, e).trace)
  {
    hide FlowInv, BodyInv, OnConnUpdate, OnStreamUpdate, OnSettings, OnHeaders, OnReset, StreamError, Retire, OnWake, SameInputs, Took,
         OnTaskSend;
    SameInputsRefl(s.trace);
    match e
    case ConnUpdate(inc, order) => ConnUpdateTook(s, inc, order);
    case StreamUpdate(id, inc) =>
      if id == 0 {
        SameTook(s, e, s.trace);
      } else {
        StreamUpdateTook(s, id, inc);
      }
    case Settings(settings) => SettingsTook(s, settings);
    case PeerHeaders(id) => HeadersTook(s, id);
    case PeerReset(id) =>
      OnResetInputs(s, id);
      SameTook(s, e, Step(s, e).trace);
    case RequestFault(id, code, counted) =>
      StreamErrorInputs(s, id, code, counted);
      SameTook(s, e, Step(s, e).trace);
    case RequestGone(id) =>
      RetireServes(s, id);
      SameTook(s, e, Step(s, e).trace);
    case Wake(order) =>
      OnWakeServes(s, order);
      SameTook(s, e, Step(s, e).trace);
    case TaskSend(id, m) => TaskSendTook(s, id, m);
    case RequestEnd(id) => SameTook(s, e, s.trace);
    case ConnFault => GoAwayTook(s, e, s.highest);
    case Shutdown => GoAwayTook(s, e, s.highest);
    case Stopped =>
      GoAwayTook(s, e, if s.graceful.Some? then s.graceful.value else 0);
  }

  lemma TaskSendTook(s: Conn, id: StreamId, m: Msg)
    ensures Took(s, TaskSend(id, m), OnTaskSend(s, id, m).trace)
  {
  }

  lemma GoAwayTook(s: Conn, e: Event, last: nat)
    requires e.ConnFault? || e.Shutdown? || e.Stopped?
    ensures Took(s, e, s.trace) && Took(s, e, Then(s.trace, Sent(GoAway(last))))
  {
    SameInputsRefl(s.trace);
    FrameIsOutput(s.trace, GoAway(last));
    SameTook(s, e, s.trace);
  }

  lemma SettingsTook(s: Conn, settings: seq<Setting>)
    requires s.maxFrame > 0
    ensures Took(s, Settings(settings), OnSettings(s, settings).trace)
  {
    hide ApplySettings, Effective, Latest;
    ApplySettingsTook(s, settings);
  }

  /** The shutdown rule is kept. */
  lemma StepAnnounced(s: Conn, e: Event)
    requires Announced(s) && s.maxFrame > 0
    ensures Announced(Step(s, e))
  {
    hide Step;
    if s.graceful.Some? {
      ShutdownStays(s, e);
    } else {
      ShutdownBegins(s, e);
    }
  }

  /** Over a run the accounts of the trace are the sums over its events. */
  lemma {:induction false} RunTook(s: Conn, events: seq<Event>, r: Conn)
    requires Inv(s) && NoIdleCredit(s) && Announced(s) && Reaches(s, events, r)
    ensures Inv(r) && Announced(r)
    ensures ConnGranted(r.trace) == ConnGranted(s.trace) + ConnGrants(s, events)
    ensures forall id :: StreamGranted(r.trace, id) == StreamGranted(s.trace, id) + StreamGrants(s, events, id)
    ensures forall id :: Said(r.trace, id) == Said(s.trace, id) + Spoken(s, events, id)
    ensures Openings(r.trace) == Openings(s.trace) + OpenedIn(s, events)
    ensures Acks(r.trace) == Acks(s.trace) + SettingsFrames(events)
    ensures InitialNow(r.trace) == LastSetting(events, 4, InitialNow(s.trace))
    ensures MaxFrameNow(r.trace) == LastSetting(events, 5, MaxFrameNow(s.trace))
    decreases |events|
  {
    hide Inv, NoIdleCredit, Announced, Step, Possible, ConnGrant, StreamGrant, Says, Opens, Set;
    if events != [] {
      var e, s1 := events[0], Step(s, events[0]);
      StepKeeps(s, e);
      StepAnnounced(s, e);
      StepTook(s, e);
      RunTook(s1, events[1..], r);
      forall id ensures Said(r.trace, id) == Said(s.trace, id) + Spoken(s, events, id) {
        assert (Said(s.trace, id) + Says(s, e, id)) + Spoken(s1, events[1..], id)
               == Said(s.trace, id) + (Says(s, e, id) + Spoken(s1, events[1..], id));
      }
      assert Openings(r.trace) == Openings(s.trace) + OpenedIn(s, events);
    }
  }

  // What holds after every run

  lemma StartTook(window: nat, limits: Limits)
    ensures var s := Start(window, limits);
            && Announced(s) && ConnGranted(s.trace) == window && Openings(s.trace) == [] && Acks(s.trace) == 0
            && InitialNow(s.trace) == 65535 && MaxFrameNow(s.trace) == 16384
            && forall id :: StreamGranted(s.trace, id) == 0 && Said(s.trace, id) == []
  {
  }

  /**
   Credit conservation: window and frame size in force are the last ones the
   peer set; on the connection and on every live stream, credit left plus bytes
   sent is what the accepted WINDOW_UPDATEs of the run and the initial window
   granted; no DATA frame overran a window or the frame size; windows stay in
   range unless the connection is closing.
   */
  lemma FlowSafety(window: nat, limits: Limits, events: seq<Event>, r: Conn)
    requires window <= MAX_WINDOW && Reaches(Start(window, limits), events, r)
    ensures FlowLegal(r.trace)
    ensures r.initialWindow == LastSetting(events, 4, 65535) && r.maxFrame == LastSetting(events, 5, 16384)
    ensures r.connWindow + TotalSent(r.trace) == window + ConnGrants(Start(window, limits), events)
    ensures 0 <= r.connWindow <= 0x7fff_ffff
    ensures forall id :: Live(r, id) ==>
              && r.streams[id].sendWindow + |SentBytes(r.trace, id)|
                 == r.initialWindow + StreamGrants(Start(window, limits), events, id)
              && -0x7fff_ffff <= r.streams[id].sendWindow
              && (r.streams[id].sendWindow <= 0x7fff_ffff || r.closing)
  {
    var s := Start(window, limits);
    StartHolds(window, limits);
    StartTook(window, limits);
    RunTook(s, events, r);
    FlowByTrace(window, limits, events, r);
  }

  /** Streams are opened, SETTINGS acknowledged and tasks heard exactly as the events say. */
  lemma HeardIsSaid(window: nat, limits: Limits, events: seq<Event>, r: Conn)
    requires window <= MAX_WINDOW && Reaches(Start(window, limits), events, r)
    ensures Openings(r.trace) == OpenedIn(Start(window, limits), events) && Acks(r.trace) == SettingsFrames(events)
    ensures forall id :: Said(r.trace, id) == Spoken(Start(window, limits), events, id)
  {
    StartHolds(window, limits);
    StartTook(window, limits);
    RunTook(Start(window, limits), events, r);
  }

  lemma HeadersRaise(s: Conn, id: StreamId)
    requires s.graceful.None? && (Live(s, id) ==> id <= s.highest && id % 2 == 1)
    ensures OnHeaders(s, id).highest == if id % 2 == 1 then Max(id, s.highest) else s.highest
  {
    hide StreamError;
    StreamErrorKeepsLast(s, id, 5, true);
  }

  /** Until a shutdown begins, the highest stream is the highest odd id the peer sent HEADERS for. */
  lemma {:induction false} HighestIsTop(s: Conn, events: seq<Event>, r: Conn)
    requires Inv(s) && NoIdleCredit(s) && Announced(s) && Reaches(s, events, r) && r.graceful.None?
    ensures r.highest == TopHeaders(events, s.highest)
    decreases |events|
  {
    hide FlowInv, LifeInv, BodyInv, NoIdleCredit, Step, Possible;
    if s.graceful.Some? {
      ShutdownIsFinal(s, events, r);
    } else if events != [] {
      var e := events[0];
      StepKeeps(s, e);
      StepAnnounced(s, e);
      HighestIsTop(Step(s, e), events[1..], r);
      if Step(s, e).graceful.Some? {
        ShutdownIsFinal(Step(s, e), events[1..], r);
      } else {
        StepRaises(s, e);
      }
    }
  }

  lemma StepRaises(s: Conn, e: Event)
    requires Inv(s) && s.maxFrame > 0 && s.graceful.None?
    ensures Step(s, e).highest == if e.PeerHeaders? && e.id % 2 == 1 then Max(e.id, s.highest) else s.highest
  {
    hide FlowInv, BodyInv, OnConnUpdate, OnStreamUpdate, OnSettings, StreamError, OnReset, Retire, OnWake, OnTaskSend, OnRequestEnd,
         OnHeaders;
    if e.PeerHeaders? {
      HeadersRaise(s, e.id);
    } else if !e.Shutdown? {
      OthersKeepLast(s, e);
    }
  }
}
