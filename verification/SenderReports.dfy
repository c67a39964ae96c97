/**
 What the connection counts and what it tells the peer about streams that fail:
 the two reset budgets, RST_STREAM and GOAWAY, over whole runs.
 */
module SenderReports {
  import opened Basics
  import opened SendTrace
  import opened Sender
  import opened SenderInvariant
  import opened SenderDrain
  import opened SenderSteps
  import opened SenderRuns
  import opened SenderPour
  import opened SenderLedger
  import opened SenderTalk

  // The budgets, counted from the events

  /** The peer resets a stream for which no HEADERS, DATA or trailers message has been taken. */
  predicate EarlyReset(s: Conn, e: Event) {
    e.PeerReset? && Live(s, e.id) && !Answered(Taken(s, e.id, Empty))
  }

  /** A stream error that is the peer's fault: too much credit, HEADERS on a request that is over, a faulty request. */
  predicate CountedError(s: Conn, e: Event) {
    || (e.StreamUpdate? && Live(s, e.id) && s.streams[e.id].sendWindow + e.inc > 0x7fff_ffff && e.inc > 0)
    || (e.PeerHeaders? && Live(s, e.id) && s.streams[e.id].remoteEnded)
    || (e.RequestFault? && e.counted)
  }

  function One(b: bool): nat {
    if b then 1 else 0
  }

  function EarlyResets(s: Conn, events: seq<Event>): nat
    decreases |events|
  {
    if events == [] || s.maxFrame == 0 then 0
    else One(EarlyReset(s, events[0])) + EarlyResets(Step(s, events[0]), events[1..])
  }

  function CountedErrors(s: Conn, events: seq<Event>): nat
    decreases |events|
  {
    if events == [] || s.maxFrame == 0 then 0
    else One(CountedError(s, events[0])) + CountedErrors(Step(s, events[0]), events[1..])
  }

  function Capped(n: nat, limit: Option<nat>): nat {
    if limit.Some? then Min(n, limit.value) else n
  }

  predicate Over(n: nat, limit: Option<nat>) {
    limit.Some? && n > limit.value
  }

  /** A counter went up by what happened, as far as its limit; past the limit the connection closes. */
  predicate Counts(count: nat, after: nat, more: bool, limit: Option<nat>, closing: bool) {
    after == Capped(count + One(more), limit) && (Over(count + One(more), limit) ==> closing)
  }

  ghost predicate Counted(s: Conn, e: Event, r: Conn) {
    && (s.closing ==> r.closing)
    && Counts(s.acceptResets, r.acceptResets, EarlyReset(s, e), s.limits.maxAcceptResets, r.closing)
    && Counts(s.localErrorResets, r.localErrorResets, CountedError(s, e), s.limits.maxLocalResets, r.closing)
  }

  predicate WithinBoth(s: Conn) {
    WithinBudget(s.acceptResets, s.limits.maxAcceptResets) && WithinBudget(s.localErrorResets, s.limits.maxLocalResets)
  }

  lemma StreamErrorCounts(s: Conn, id: StreamId, code: nat, counted: bool)
    requires WithinBoth(s)
    ensures var r := StreamError(s, id, code, counted);
            && Counts(s.localErrorResets, r.localErrorResets, counted, s.limits.maxLocalResets, r.closing)
            && r.acceptResets == s.acceptResets && (s.closing ==> r.closing)
  {
  }

  lemma ResetCounts(s: Conn, id: StreamId)
    requires WithinBoth(s) && (Live(s, id) ==> Talk(s, id, Empty))
    ensures var r := OnReset(s, id);
            && Counts(s.acceptResets, r.acceptResets, EarlyReset(s, PeerReset(id)), s.limits.maxAcceptResets, r.closing)
            && r.localErrorResets == s.localErrorResets && (s.closing ==> r.closing)
  {
    hide Answered, Taken, Said, HasEnd, Marked, EndFlag, Shown, Rest;
  }

  lemma {:induction false} SettingsCounts(s: Conn, settings: seq<Setting>)
    requires s.maxFrame > 0
    ensures var r := ApplySettings(s, settings);
            r.acceptResets == s.acceptResets && r.localErrorResets == s.localErrorResets && (s.closing ==> r.closing)
    decreases |settings|
  {
    if settings != [] {
      var first, rest := settings[0], settings[1..];
      if first.id == 4 {
        SettingsCounts(SetInitialWindow(s, first.value), rest);
      } else if first.id == 5 {
        if DEFAULT_MAX_FRAME <= first.value <= MAX_FRAME_LIMIT {
          SettingsCounts(Note(s.(maxFrame := first.value), MaxFrame(first.value)), rest);
        }
      } else {
        SettingsCounts(s, rest);
      }
    }
  }

  lemma UpdateCounts(s: Conn, e: Event)
    requires s.maxFrame > 0 && WithinBoth(s) && (e.ConnUpdate? || (e.StreamUpdate? && !Live(s, 0)))
    ensures Counted(s, e, Step(s, e))
  {
    hide Rounds, Pump, StreamError;
    match e
    case ConnUpdate(inc, order) =>
      var s1 := WithConnCredit(s, inc);
      RoundsPours(s1, order, s1.maxFrame);
    case StreamUpdate(id, inc) =>
      if Live(s, id) && inc > 0 {
        if s.streams[id].sendWindow + inc > MAX_WINDOW {
          StreamErrorCounts(s, id, 3, true);
        } else {
          var e := s.streams[id];
          PumpPours(Note(s.(streams := s.streams[id := e.(sendWindow := e.sendWindow + inc)]), StreamCredit(id, inc)), id);
        }
      }
  }

  lemma HeadersCounts(s: Conn, id: StreamId)
    requires WithinBoth(s) && Announced(s) && (Live(s, id) ==> id <= s.highest)
    ensures Counted(s, PeerHeaders(id), OnHeaders(s, id))
  {
    hide StreamError;
    StreamErrorCounts(s, id, 5, true);
  }

  /** Every event counts as the budgets say. */
  lemma StepCounts(s: Conn, e: Event)
    requires LifeInv(s) && TalkInv(s, Empty) && Announced(s) && s.maxFrame > 0
    ensures Counted(s, e, Step(s, e))
  {
    hide TalkInv, Talk, OnConnUpdate, OnStreamUpdate, ApplySettings, OnHeaders, OnReset, StreamError, Retire, OnWake, Answered, Taken;
    match e
    case ConnUpdate(_, _) => UpdateCounts(s, e);
    case StreamUpdate(_, _) => UpdateCounts(s, e);
    case Settings(settings) => SettingsCounts(s, settings);
    case PeerHeaders(id) => HeadersCounts(s, id);
    case PeerReset(id) =>
      TalkOf(s, id);
      ResetCounts(s, id);
    case RequestFault(id, code, counted) => StreamErrorCounts(s, id, code, counted);
    case RequestGone(id) => RetireServes(s, id);
    case Wake(order) => OnWakeServes(s, order);
    case _ =>
  }

  lemma TalkOf(s: Conn, id: StreamId)
    requires TalkInv(s, Empty)
    ensures Live(s, id) ==> Talk(s, id, Empty)
  {
  }

  lemma CountsThen(a: nat, b: nat, c: nat, first: bool, later: nat, limit: Option<nat>, closing: bool)
    requires WithinBudget(a, limit) && Counts(a, b, first, limit, closing)
    requires c == Capped(b + later, limit) && (Over(b + later, limit) ==> closing)
    ensures c == Capped(a + (One(first) + later), limit) && (Over(a + (One(first) + later), limit) ==> closing)
  {
  }

  /** From any state: both counters are what the events of the run add up to, up to the limit. */
  lemma {:induction false} RunCounts(s: Conn, events: seq<Event>, r: Conn)
    requires Inv(s) && NoIdleCredit(s) && TalkInv(s, Empty) && Announced(s) && Reaches(s, events, r)
    ensures (s.closing ==> r.closing) && r.limits == s.limits
    ensures var n := s.acceptResets + EarlyResets(s, events);
            r.acceptResets == Capped(n, s.limits.maxAcceptResets) && (Over(n, s.limits.maxAcceptResets) ==> r.closing)
    ensures var n := s.localErrorResets + CountedErrors(s, events);
            r.localErrorResets == Capped(n, s.limits.maxLocalResets) && (Over(n, s.limits.maxLocalResets) ==> r.closing)
    decreases |events|
  {
    hide FlowInv, LifeInv, BodyInv, NoIdleCredit, TalkInv, Announced, Step, Possible, EarlyReset, CountedError;
    Bounds(s, Empty);
    if events != [] {
      var e, s1 := events[0], Step(s, events[0]);
      StepKeeps(s, e);
      StepTalk(s, e);
      StepAnnounced(s, e);
      StepCounts(s, e);
      RunCounts(s1, events[1..], r);
      CountsThen(s.acceptResets, s1.acceptResets, r.acceptResets, EarlyReset(s, e), EarlyResets(s1, events[1..]),
                 s.limits.maxAcceptResets, r.closing);
      CountsThen(s.localErrorResets, s1.localErrorResets, r.localErrorResets, CountedError(s, e),
                 CountedErrors(s1, events[1..]), s.limits.maxLocalResets, r.closing);
    }
  }

  /**
   The reset budgets over every run: one counts the streams the peer reset
   before anything was answered, the other the peer's stream errors, both up to
   their limit; whoever passes a limit has the connection closed.
   */
  lemma BudgetsCount(window: nat, limits: Limits, events: seq<Event>, r: Conn)
    requires window <= MAX_WINDOW && Reaches(Start(window, limits), events, r)
    ensures var n := EarlyResets(Start(window, limits), events);
            r.acceptResets == Capped(n, limits.maxAcceptResets) && (Over(n, limits.maxAcceptResets) ==> r.closing)
    ensures var n := CountedErrors(Start(window, limits), events);
            r.localErrorResets == Capped(n, limits.maxLocalResets) && (Over(n, limits.maxLocalResets) ==> r.closing)
  {
    StartHolds(window, limits);
    StartTalk(window, limits);
    StartTook(window, limits);
    RunCounts(Start(window, limits), events, r);
  }

  // When the connection closes

  /** Some window of a live stream passes 2^31 - 1, or a frame size is illegal. */
  ghost predicate BadSettings(s: Conn, settings: seq<Setting>) {
    var e := Effective(settings);
    || e != settings
    || exists k, id :: 0 <= k < |e| && e[k].id == 4 && Overflowing(s, id, e[k].value)
  }

  predicate Overflowing(s: Conn, id: StreamId, value: nat) {
    Live(s, id) && s.streams[id].sendWindow + value - s.initialWindow > 0x7fff_ffff
  }

  /** The events that are connection errors. */
  ghost predicate Alarm(s: Conn, e: Event) {
    match e
    case ConnUpdate(inc, _) => inc > 0 && s.connWindow + inc > 0x7fff_ffff
    case StreamUpdate(id, inc) =>
      || (inc > 0 && id != 0 && !Live(s, id) && id !in s.closedStreams)
      || (CountedError(s, e) && Over(s.localErrorResets + 1, s.limits.maxLocalResets))
    case Settings(settings) => BadSettings(s, settings)
    case PeerHeaders(id) =>
      || (!Live(s, id) && (id % 2 == 0 || id <= s.highest) && (s.graceful.Some? ==> id <= s.highest))
      || (CountedError(s, e) && Over(s.localErrorResets + 1, s.limits.maxLocalResets))
    case PeerReset(id) =>
      || (!Live(s, id) && id !in s.closedStreams)
      || (EarlyReset(s, e) && Over(s.acceptResets + 1, s.limits.maxAcceptResets))
    case RequestFault(_, _, _) => CountedError(s, e) && Over(s.localErrorResets + 1, s.limits.maxLocalResets)
    case ConnFault => true
    case _ => false
  }

  lemma StreamErrorCloses(s: Conn, id: StreamId, code: nat, counted: bool)
    ensures StreamError(s, id, code, counted).closing <==>
            s.closing || (counted && Over(s.localErrorResets + 1, s.limits.maxLocalResets))
  {
  }

  lemma ResetCloses(s: Conn, id: StreamId)
    requires Live(s, id) ==> Talk(s, id, Empty)
    ensures OnReset(s, id).closing <==> s.closing || Alarm(s, PeerReset(id))
  {
    hide Answered, Taken, Said, HasEnd, Marked, EndFlag, Shown, Rest;
  }

  /** After one initial window: it closes if it overflows a stream, and later ones are judged as before. */
  lemma InitialWindowCloses(s: Conn, value: nat)
    ensures var r := SetInitialWindow(s, value);
            && (r.closing <==> s.closing || exists id :: Overflowing(s, id, value))
            && r.maxFrame == s.maxFrame
            && forall id, v :: Overflowing(r, id, v) == Overflowing(s, id, v)
  {
    var r, shifted := SetInitialWindow(s, value), ShiftWindows(s.streams, value - s.initialWindow);
    if id :| Overflowing(s, id, value) {
      assert id in shifted;
    }
    if Overflows(shifted) {
      var id :| id in shifted && shifted[id].sendWindow > MAX_WINDOW;
      assert Overflowing(s, id, value);
    }
    forall id, v ensures Overflowing(r, id, v) == Overflowing(s, id, v) {
      assert Live(r, id) == Live(s, id);
    }
  }

  lemma BadSettingsFirst(s: Conn, r: Conn, settings: seq<Setting>)
    requires settings != [] && forall id, v :: Overflowing(r, id, v) == Overflowing(s, id, v)
    ensures var first, rest := settings[0], settings[1..];
            BadSettings(s, settings) <==>
              || (first.id == 5 && !(16384 <= first.value <= 16777215))
              || (first.id == 4 && exists id :: Overflowing(s, id, first.value))
              || BadSettings(r, rest)
  {
    hide Overflowing;
    var first, rest, e, e1 := settings[0], settings[1..], Effective(settings), Effective(settings[1..]);
    if !(first.id == 5 && !(16384 <= first.value <= 16777215)) {
      assert e == [first] + e1;
      assert settings == [first] + rest;
      assert e == settings <==> e1 == rest by { assert e[1..] == e1; }
      if k, id :| 0 <= k < |e| && e[k].id == 4 && Overflowing(s, id, e[k].value) {
        if k > 0 {
          assert e1[k - 1] == e[k];
        }
      }
      if k, id :| 0 <= k < |e1| && e1[k].id == 4 && Overflowing(r, id, e1[k].value) {
        assert e[k + 1] == e1[k];
      }
      if first.id == 4 && exists id :: Overflowing(s, id, first.value) {
        var id :| Overflowing(s, id, first.value);
        assert e[0] == first;
      }
    }
  }

  lemma {:induction false} SettingsClose(s: Conn, settings: seq<Setting>)
    requires s.maxFrame > 0
    ensures ApplySettings(s, settings).closing <==> s.closing || BadSettings(s, settings)
    decreases |settings|
  {
    hide SetInitialWindow, BadSettings, Overflowing;
    if settings == [] {
      NoSettings(s);
    } else {
      var first, rest := settings[0], settings[1..];
      if first.id == 4 {
        var s1 := SetInitialWindow(s, first.value);
        InitialWindowCloses(s, first.value);
        BadSettingsFirst(s, s1, settings);
        SettingsClose(s1, rest);
      } else if first.id == 5 {
        var s1 := Note(s.(maxFrame := first.value), MaxFrame(first.value));
        FrameSizeCloses(s, s1);
        BadSettingsFirst(s, s1, settings);
        if DEFAULT_MAX_FRAME <= first.value <= MAX_FRAME_LIMIT {
          SettingsClose(s1, rest);
        }
      } else {
        BadSettingsFirst(s, s, settings);
        SettingsClose(s, rest);
      }
    }
  }

  lemma NoSettings(s: Conn)
    ensures !BadSettings(s, [])
  {
  }

  lemma FrameSizeCloses(s: Conn, r: Conn)
    requires r.streams == s.streams && r.initialWindow == s.initialWindow
    ensures forall id, v :: Overflowing(r, id, v) == Overflowing(s, id, v)
  {
  }

  lemma UpdateCloses(s: Conn, e: Event)
    requires s.maxFrame > 0 && (e.ConnUpdate? || e.StreamUpdate?)
    ensures Step(s, e).closing <==> s.closing || (Alarm(s, e) && !(e.StreamUpdate? && e.id == 0))
  {
    hide Rounds, Pump, StreamError;
    match e
    case ConnUpdate(inc, order) =>
      var s1 := WithConnCredit(s, inc);
      RoundsPours(s1, order, s1.maxFrame);
    case StreamUpdate(id, inc) =>
      StreamErrorCloses(s, id, 3, true);
      if Live(s, id) {
        var e := s.streams[id];
        PumpPours(Note(s.(streams := s.streams[id := e.(sendWindow := e.sendWindow + inc)]), StreamCredit(id, inc)), id);
      }
  }

  lemma HeadersClose(s: Conn, id: StreamId)
    requires Announced(s) && (Live(s, id) ==> id <= s.highest)
    ensures OnHeaders(s, id).closing <==> s.closing || Alarm(s, PeerHeaders(id))
  {
    hide StreamError;
    StreamErrorCloses(s, id, 5, true);
  }

  /** The connection closes at the first connection error and not otherwise. */
  lemma StepCloses(s: Conn, e: Event)
    requires LifeInv(s) && TalkInv(s, Empty) && Announced(s) && s.maxFrame > 0
    ensures Step(s, e).closing <==> s.closing || Alarm(s, e)
  {
    hide TalkInv, Talk, OnConnUpdate, OnStreamUpdate, ApplySettings, OnHeaders, OnReset, StreamError, Retire, OnWake, Answered, Taken,
         BadSettings;
    match e
    case ConnUpdate(_, _) => UpdateCloses(s, e);
    case StreamUpdate(_, _) => UpdateCloses(s, e);
    case Settings(settings) => SettingsClose(s, settings);
    case PeerHeaders(id) => HeadersClose(s, id);
    case PeerReset(id) =>
      TalkOf(s, id);
      ResetCloses(s, id);
    case RequestFault(id, code, counted) => StreamErrorCloses(s, id, code, counted);
    case RequestGone(id) => RetireServes(s, id);
    case Wake(order) => OnWakeServes(s, order);
    case _ =>
  }

  ghost predicate Alarmed(s: Conn, events: seq<Event>)
    decreases |events|
  {
    events != [] && s.maxFrame > 0 && (Alarm(s, events[0]) || Alarmed(Step(s, events[0]), events[1..]))
  }

  lemma {:induction false} RunCloses(s: Conn, events: seq<Event>, r: Conn)
    requires Inv(s) && NoIdleCredit(s) && TalkInv(s, Empty) && Announced(s) && Reaches(s, events, r)
    ensures r.closing <==> s.closing || Alarmed(s, events)
    decreases |events|
  {
    hide FlowInv, LifeInv, BodyInv, NoIdleCredit, TalkInv, Announced, Step, Possible, Alarm;
    if events != [] {
      StepKeeps(s, events[0]);
      StepTalk(s, events[0]);
      StepAnnounced(s, events[0]);
      StepCloses(s, events[0]);
      RunCloses(Step(s, events[0]), events[1..], r);
    }
  }

  /** Over every run the connection is closing if and only if one of its events was a connection error. */
  lemma ClosesOnErrors(window: nat, limits: Limits, events: seq<Event>, r: Conn)
    requires window <= MAX_WINDOW && Reaches(Start(window, limits), events, r)
    ensures r.closing <==> Alarmed(Start(window, limits), events)
  {
    StartHolds(window, limits);
    StartTalk(window, limits);
    StartTook(window, limits);
    RunCloses(Start(window, limits), events, r);
  }

  // What the peer is told of a stream error

  /** FLOW_CONTROL_ERROR, STREAM_CLOSED or what the request failed with. */
  function ErrorCode(e: Event): nat
    requires e.StreamUpdate? || e.PeerHeaders? || e.RequestFault?
  {
    if e.StreamUpdate? then 3 else if e.PeerHeaders? then 5 else e.code
  }

  lemma StreamErrorFrames(s: Conn, id: StreamId, code: nat, counted: bool)
    requires Live(s, id)
    ensures var over, r := counted && Over(s.localErrorResets + 1, s.limits.maxLocalResets), StreamError(s, id, code, counted);
            && Frames(r.trace) == Frames(s.trace) + [if over then GoAway(s.highest) else ResetFrame(id, code)]
            && (Live(r, id) <==> over)
  {
    hide MarkClosed;
    var s1 := Emit(if counted then s.(localErrorResets := s.localErrorResets + 1) else s, ResetFrame(id, code));
    MarkClosedShape(s1, id);
    assert Frames(Then(s1.trace, Gone(id))) == Frames(s1.trace);
  }

  /** Within the budget a stream error costs the stream its entry and is told by RST_STREAM, past it by GOAWAY. */
  lemma ErrorFrames(s: Conn, e: Event)
    requires LifeInv(s) && Announced(s) && s.maxFrame > 0 && Possible(s, e)
    requires CountedError(s, e) || e.RequestFault?
    ensures var over := CountedError(s, e) && Over(s.localErrorResets + 1, s.limits.maxLocalResets);
            && Frames(Step(s, e).trace) ==
               Frames(s.trace) + [if over then GoAway(s.highest) else ResetFrame(e.id, ErrorCode(e))]
            && (Live(Step(s, e), e.id) <==> over)
  {
    hide StreamError, Frames, ClosedInv, FreshOpens, Untouched, WasOpened;
    StreamErrorFrames(s, e.id, ErrorCode(e), CountedError(s, e));
  }

  /** A stream over the concurrency limit is refused with REFUSED_STREAM. */
  lemma RefusedFrames(s: Conn, id: StreamId)
    requires LifeInv(s) && id % 2 == 1 && id > s.highest && s.graceful.None? && |s.streams| >= s.limits.maxConcurrent
    ensures Frames(OnHeaders(s, id).trace) == Frames(s.trace) + [ResetFrame(id, 7)] && !Live(OnHeaders(s, id), id)
  {
  }

  // Requests that are over

  /** The request of the stream ended while the stream had an entry. */
  predicate RequestOver(s: Conn, events: seq<Event>, id: StreamId)
    decreases |events|
  {
    events != [] && s.maxFrame > 0
    && ((events[0] == RequestEnd(id) && Live(s, id)) || RequestOver(Step(s, events[0]), events[1..], id))
  }

  /** Entries keep their request flag; only the end of the request sets it. */
  ghost predicate Requests(s: Conn, e: Event, r: Conn) {
    forall id: StreamId :: Live(r, id) ==>
      if Live(s, id) then r.streams[id].remoteEnded == (s.streams[id].remoteEnded || e == RequestEnd(id))
      else id > s.highest && !r.streams[id].remoteEnded
  }

  lemma SameRequestsThen(a: Conn, b: Conn, c: Conn)
    requires SameRequests(a, b) && SameRequests(b, c)
    ensures SameRequests(a, c)
  {
  }

  lemma {:induction false} SettingsRequests(s: Conn, settings: seq<Setting>)
    requires s.maxFrame > 0
    ensures SameRequests(s, ApplySettings(s, settings))
    decreases |settings|
  {
    if settings != [] {
      var first, rest := settings[0], settings[1..];
      if first.id == 4 {
        SettingsRequests(SetInitialWindow(s, first.value), rest);
      } else if first.id == 5 {
        if DEFAULT_MAX_FRAME <= first.value <= MAX_FRAME_LIMIT {
          SettingsRequests(Note(s.(maxFrame := first.value), MaxFrame(first.value)), rest);
        }
      } else {
        SettingsRequests(s, rest);
      }
    }
  }

  lemma UpdateRequests(s: Conn, e: Event)
    requires s.maxFrame > 0 && (e.ConnUpdate? || e.StreamUpdate?)
    ensures SameRequests(s, Step(s, e))
  {
    hide Rounds, Pump, StreamError;
    match e
    case ConnUpdate(inc, order) =>
      var s1 := WithConnCredit(s, inc);
      RoundsPours(s1, order, s1.maxFrame);
    case StreamUpdate(id, inc) =>
      StreamErrorRequests(s, id, 3, true);
      if Live(s, id) && s.streams[id].sendWindow <= MAX_WINDOW - inc {
        var e := s.streams[id];
        var s1 := Note(s.(streams := s.streams[id := e.(sendWindow := e.sendWindow + inc)]), StreamCredit(id, inc));
        PumpPours(s1, id);
        SameRequestsThen(s, s1, Pump(s1, id));
      }
  }

  lemma StreamErrorRequests(s: Conn, id: StreamId, code: nat, counted: bool)
    ensures SameRequests(s, StreamError(s, id, code, counted))
  {
    hide MarkClosed;
    var s1 := Emit(if counted then s.(localErrorResets := s.localErrorResets + 1) else s, ResetFrame(id, code));
    MarkClosedShape(s1, id);
  }

  lemma ResetRequests(s: Conn, id: StreamId)
    ensures SameRequests(s, OnReset(s, id))
  {
    hide MarkClosed;
    var s1 := s.(streams := s.streams - {id});
    MarkClosedShape(s1, id);
    MarkClosedShape(s1.(acceptResets := s.acceptResets + 1), id);
  }

  lemma HeadersRequests(s: Conn, id: StreamId)
    ensures Requests(s, PeerHeaders(id), OnHeaders(s, id))
  {
    hide StreamError;
    StreamErrorRequests(s, id, 5, true);
  }

  lemma StepRequests(s: Conn, e: Event)
    requires s.maxFrame > 0
    ensures Requests(s, e, Step(s, e))
  {
    hide OnConnUpdate, OnStreamUpdate, ApplySettings, OnWake, StreamError, OnReset, Retire, SameInputs, SameFields, OnHeaders;
    match e
    case PeerHeaders(id) => HeadersRequests(s, id);
    case PeerReset(id) => ResetRequests(s, id);
    case RequestFault(id, code, counted) => StreamErrorRequests(s, id, code, counted);
    case RequestGone(id) => RetireServes(s, id);
    case ConnUpdate(_, _) => UpdateRequests(s, e);
    case StreamUpdate(_, _) => UpdateRequests(s, e);
    case Settings(settings) => SettingsRequests(s, settings);
    case Wake(order) => OnWakeServes(s, order);
    case _ =>
  }

  lemma {:induction false} RunRequests(s: Conn, events: seq<Event>, r: Conn, id: StreamId)
    requires Inv(s) && NoIdleCredit(s) && Reaches(s, events, r) && Live(r, id)
    requires Live(s, id) || id > s.highest
    ensures r.streams[id].remoteEnded <==> (Live(s, id) && s.streams[id].remoteEnded) || RequestOver(s, events, id)
    decreases |events|
  {
    hide FlowInv, LifeInv, BodyInv, NoIdleCredit, Step, Possible;
    if events != [] {
      var s1 := Step(s, events[0]);
      StepKeeps(s, events[0]);
      StepRequests(s, events[0]);
      HighestGrows(s, events[0]);
      Bounds(s, Empty);
      if Live(s1, id) || id > s1.highest {
        RunRequests(s1, events[1..], r, id);
      } else {
        GoneForGood(s1, events[1..], r, id);
      }
    }
  }

  /** A stream that is gone does not come back. */
  lemma {:induction false} GoneForGood(s: Conn, events: seq<Event>, r: Conn, id: StreamId)
    requires Inv(s) && NoIdleCredit(s) && Reaches(s, events, r) && !Live(s, id) && id <= s.highest
    ensures !Live(r, id)
    decreases |events|
  {
    hide FlowInv, LifeInv, BodyInv, NoIdleCredit, Step, Possible;
    if events != [] {
      StepKeeps(s, events[0]);
      StepRequests(s, events[0]);
      HighestGrows(s, events[0]);
      GoneForGood(Step(s, events[0]), events[1..], r, id);
    }
  }

  lemma HighestGrows(s: Conn, e: Event)
    requires s.maxFrame > 0
    ensures Step(s, e).highest >= s.highest
  {
    hide OnConnUpdate, OnStreamUpdate, OnSettings, StreamError, OnReset, Retire, OnWake, OnTaskSend, OnRequestEnd;
    if !e.Shutdown? && (e.PeerHeaders? ==> Live(s, e.id)) {
      OthersKeepLast(s, e);
    }
  }

  /** Over every run a live stream is marked as over exactly when its request ended. */
  lemma RequestsEnd(window: nat, limits: Limits, events: seq<Event>, r: Conn, id: StreamId)
    requires window <= MAX_WINDOW && Reaches(Start(window, limits), events, r) && Live(r, id)
    ensures r.streams[id].remoteEnded <==> RequestOver(Start(window, limits), events, id)
  {
    StartHolds(window, limits);
    StreamIdentity(window, limits, events, r);
    RunRequests(Start(window, limits), events, r, id);
  }
}
