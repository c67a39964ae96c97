/**
 GOAWAY and RST_STREAM over whole runs: which stream ids they name, when they
 are written, and that no stream disappears without the peer being told.
 */
module SenderNotices {
  import opened Basics
  import opened SendTrace
  import opened Sender
  import opened SenderInvariant
  import opened SenderDrain
  import opened SenderSteps
  import opened SenderRuns
  import opened SenderPour
  import opened SenderLedger
  import opened SenderTalk

  /** What has been told is true, and nothing that had to be told is missing. */
  ghost predicate NoticeInv(s: Conn) {
    && TrueLastIds(s.trace) && s.highest == TopStream(s.trace)
    && (LastIds(s.trace) != [] <==> s.closing || s.graceful.Some?)
    && (s.graceful.Some? ==> s.graceful.value == s.highest && s.graceful.value in LastIds(s.trace))
    && (forall id :: Live(s, id) ==> !WasReset(s.trace, id))
  }

  /** A stream that lost its entry had ended or was reset. */
  predicate Parts(s: Conn, r: Conn, id: StreamId) {
    && (Live(r, id) ==> Live(s, id))
    && (Ended(s.trace, id) ==> Ended(r.trace, id)) && (WasReset(s.trace, id) ==> WasReset(r.trace, id))
    && WasOpened(r.trace, id) == WasOpened(s.trace, id)
    && (EndFlag(s, id) ==> EndFlag(r, id))
    && (EndFlag(s, id) && Live(s, id) && !Live(r, id) ==> Ended(r.trace, id) || WasReset(r.trace, id))
  }

  ghost predicate Informs(s: Conn, r: Conn) {
    && (NoticeInv(s) ==> NoticeInv(r)) && r.highest >= s.highest
    && forall id :: Parts(s, r, id)
  }

  lemma InformsThen(a: Conn, b: Conn, c: Conn)
    requires Informs(a, b) && Informs(b, c)
    ensures Informs(a, c)
  {
    hide NoticeInv, EndFlag;
    forall id ensures Parts(a, c, id) {
      assert Parts(a, b, id) && Parts(b, c, id);
    }
  }

  lemma InformsNothing(s: Conn)
    ensures Informs(s, s)
  {
  }

  lemma PoursInforms(s: Conn, r: Conn)
    requires Pours(s, r)
    ensures Informs(s, r)
  {
    hide HeadReady, EndFlag, HasEnd;
    forall id ensures Parts(s, r, id) {
      assert Mute(s, r, id);
    }
  }

  /** Nothing told and no stream lost. */
  ghost predicate Idle(s: Conn, r: Conn) {
    && r.highest == s.highest && r.closing == s.closing && r.graceful == s.graceful
    && r.streams.Keys == s.streams.Keys
    && (forall id :: Live(s, id) ==> r.streams[id].localEnded == s.streams[id].localEnded)
    && (r.trace == s.trace || (r.trace.Then? && r.trace.prev == s.trace && Unseen(r.trace.item)))
  }

  predicate Unseen(item: Item) {
    match item
    case Sent(f) => f.SettingsAck?
    case Opened(_) => false
    case _ => true
  }

  lemma IdleInforms(s: Conn, r: Conn)
    requires Idle(s, r)
    ensures Informs(s, r)
  {
    forall id ensures Parts(s, r, id) {
      assert Live(r, id) <==> Live(s, id);
    }
  }

  /** A GOAWAY with the highest stream. */
  lemma GoAwayInforms(s: Conn, closing: bool, graceful: Option<nat>)
    requires s.closing ==> closing
    requires closing || graceful.Some?
    requires graceful == s.graceful || graceful == Some(s.highest)
    ensures Informs(s, Emit(s.(closing := closing, graceful := graceful), GoAway(s.highest)))
  {
    var r := Emit(s.(closing := closing, graceful := graceful), GoAway(s.highest));
    assert LastIds(r.trace) == LastIds(s.trace) + [s.highest];
    forall id ensures Parts(s, r, id) {
    }
  }

  /** A RST_STREAM for a known stream, which is then retired. */
  lemma ResetInforms(s: Conn, id: StreamId, code: nat)
    requires id <= s.highest
    ensures Informs(s, Retire(Emit(s, ResetFrame(id, code)), id))
  {
    hide MarkClosed;
    var s1 := Emit(s, ResetFrame(id, code));
    var r := Retire(s1, id);
    MarkClosedShape(s1, id);
    GoneIsSilent(s1.trace, id);
    forall i ensures Parts(s, r, i) {
    }
    assert LastIds(s1.trace) == LastIds(s.trace) && TrueLastIds(s1.trace) == TrueLastIds(s.trace);
    assert TopStream(s1.trace) == Max(id, TopStream(s.trace));
    assert forall i :: WasReset(s1.trace, i) == (i == id || WasReset(s.trace, i));
  }

  lemma EndedRetireInforms(s: Conn, id: StreamId)
    requires Live(s, id) && s.streams[id].localEnded
    ensures Informs(s, Retire(s, id))
  {
    hide MarkClosed;
    var r := Retire(s, id);
    MarkClosedShape(s, id);
    GoneIsSilent(s.trace, id);
    forall i ensures Parts(s, r, i) {
    }
  }

  // Messages

  lemma BlockIsNoNotice(t: Trace, id: StreamId, end: bool, kind: BlockKind)
    ensures SameControls(t, Then(t, Sent(BlockFrame(id, end, kind))))
  {
  }

  lemma BlockInforms(s: Conn, id: StreamId, e: Entry, end: bool, kind: BlockKind)
    requires Live(s, id) && kind != Orphan && e.localEnded == (s.streams[id].localEnded || end)
    ensures Informs(s, Emit(s.(streams := s.streams[id := e]), BlockFrame(id, end, kind)))
  {
    var r := Emit(s.(streams := s.streams[id := e]), BlockFrame(id, end, kind));
    BlockIsNoNotice(s.trace, id, end, kind);
    BlockWritten(s.trace, id, end, kind);
    assert forall i :: Live(r, i) <==> Live(s, i);
    forall i ensures Parts(s, r, i) {
      assert Live(r, i) <==> Live(s, i);
    }
  }

  lemma StrayInforms(s: Conn, id: StreamId, end: bool, kind: BlockKind)
    requires kind == Orphan || !end
    ensures Informs(s, Emit(s, BlockFrame(id, end, kind)))
  {
    var r := Emit(s, BlockFrame(id, end, kind));
    forall i ensures Parts(s, r, i) {
    }
  }

  lemma OnMsgInforms(s: Conn, id: StreamId, m: Msg)
    requires s.maxFrame > 0 && id <= s.highest
    ensures Informs(s, OnMsg(s, id, m))
  {
    hide Informs, Pump, Retire, Pours;
    InformsNothing(s);
    match m
    case Informational => StrayInforms(s, id, false, Interim);
    case Headers(end) =>
      StrayInforms(s, id, end, Orphan);
      if Live(s, id) {
        BlockInforms(s, id, s.streams[id].(localEnded := s.streams[id].localEnded || end, responseStarted := true), end, Response);
      }
    case Trailers =>
      if Live(s, id) {
        BlockInforms(s, id, s.streams[id].(localEnded := true, responseStarted := true), true, Trailer);
      }
    case Data(chunk) =>
      if Live(s, id) && !s.streams[id].localEnded {
        var s1 := WithChunk(s, id, chunk);
        IdleInforms(s, s1);
        PumpPours(s1, id);
        PoursInforms(s1, Pump(s1, id));
        InformsThen(s, s1, Pump(s1, id));
      }
    case Reset(code) => ResetInforms(s, id, code);
    case Closed =>
      if Live(s, id) {
        var s1 := s.(streams := s.streams[id := s.streams[id].(taskDone := true)]);
        IdleInforms(s, s1);
        if s.streams[id].localEnded {
          EndedRetireInforms(s1, id);
          InformsThen(s, s1, Retire(s1, id));
        }
      }
  }

  lemma {:induction false} OnMsgsInforms(s: Conn, id: StreamId, msgs: seq<Msg>)
    requires s.maxFrame > 0 && id <= s.highest
    ensures Informs(s, OnMsgs(s, id, msgs))
    decreases |msgs|
  {
    hide OnMsg, NoticeInv, Parts;
    InformsNothing(s);
    if msgs != [] {
      OnMsgInforms(s, id, msgs[0]);
      OnMsgsInforms(OnMsg(s, id, msgs[0]), id, msgs[1..]);
      InformsThen(s, OnMsg(s, id, msgs[0]), OnMsgs(s, id, msgs));
    }
  }

  lemma CollectInforms(s: Conn, id: StreamId)
    requires s.maxFrame > 0 && (Live(s, id) ==> id <= s.highest)
    ensures Informs(s, Collect(s, id))
  {
    hide Informs, OnMsgs, Fold;
    InformsNothing(s);
    if Live(s, id) && s.streams[id].pending == [] {
      var s1 := Emptied(s, id);
      IdleInforms(s, s1);
      OnMsgsInforms(s1, id, Fold(s.streams[id].inbox));
      InformsThen(s, s1, Collect(s, id));
    }
  }

  lemma {:induction false} OnWakeInforms(s: Conn, ids: seq<StreamId>)
    requires s.maxFrame > 0 && forall id: StreamId :: Live(s, id) ==> id <= s.highest
    ensures Informs(s, OnWake(s, ids))
    decreases |ids|
  {
    hide Collect, NoticeInv;
    InformsNothing(s);
    if ids != [] {
      var s1 := Collect(s, ids[0]);
      CollectInforms(s, ids[0]);
      forall id: StreamId | Live(s1, id) ensures id <= s1.highest {
        assert Parts(s, s1, id);
      }
      OnWakeInforms(s1, ids[1..]);
      InformsThen(s, s1, OnWake(s, ids));
    }
  }

  // Frames from the peer

  lemma StreamErrorInforms(s: Conn, id: StreamId, code: nat, counted: bool)
    requires id <= s.highest
    ensures Informs(s, StreamError(s, id, code, counted))
  {
    hide Informs, Retire;
    if counted && s.limits.maxLocalResets.Some? && s.localErrorResets >= s.limits.maxLocalResets.value {
      GoAwayInforms(s, true, s.graceful);
    } else {
      var s1 := if counted then s.(localErrorResets := s.localErrorResets + 1) else s;
      IdleInforms(s, s1);
      ResetInforms(s1, id, code);
      InformsThen(s, s1, Retire(Emit(s1, ResetFrame(id, code)), id));
    }
  }

  lemma UpdateInforms(s: Conn, e: Event)
    requires s.maxFrame > 0 && (e.ConnUpdate? || e.StreamUpdate?) && forall id: StreamId :: Live(s, id) ==> id <= s.highest
    ensures Informs(s, Step(s, e))
  {
    hide Informs, Rounds, Pump, StreamError, Pours;
    InformsNothing(s);
    GoAwayInforms(s, true, s.graceful);
    match e
    case ConnUpdate(inc, order) =>
      var s1 := WithConnCredit(s, inc);
      IdleInforms(s, s1);
      RoundsPours(s1, order, s1.maxFrame);
      PoursInforms(s1, Drain(s1, order));
      InformsThen(s, s1, Drain(s1, order));
    case StreamUpdate(id, inc) =>
      if Live(s, id) {
        StreamErrorInforms(s, id, 3, true);
        var e := s.streams[id];
        var s1 := Note(s.(streams := s.streams[id := e.(sendWindow := e.sendWindow + inc)]), StreamCredit(id, inc));
        IdleInforms(s, s1);
        PumpPours(s1, id);
        PoursInforms(s1, Pump(s1, id));
        InformsThen(s, s1, Pump(s1, id));
      }
  }

  lemma InitialWindowInforms(s: Conn, value: nat)
    ensures Informs(s, SetInitialWindow(s, value)) && SetInitialWindow(s, value).maxFrame == s.maxFrame
  {
    hide Informs, Overflows;
    var s1 := Note(s.(initialWindow := value, streams := ShiftWindows(s.streams, value - s.initialWindow)),
                   InitialWindow(value));
    assert s1.streams.Keys == s.streams.Keys;
    IdleInforms(s, s1);
    if Overflows(s1.streams) {
      GoAwayInforms(s1, true, s1.graceful);
      InformsThen(s, s1, RaiseGoAway(s1));
    }
  }

  lemma {:induction false} SettingsInforms(s: Conn, settings: seq<Setting>)
    requires s.maxFrame > 0
    ensures Informs(s, ApplySettings(s, settings))
    decreases |settings|
  {
    hide Informs, SetInitialWindow;
    InformsNothing(s);
    if settings != [] {
      var first, rest := settings[0], settings[1..];
      if first.id == 4 {
        var s1 := SetInitialWindow(s, first.value);
        InitialWindowInforms(s, first.value);
        SettingsInforms(s1, rest);
        InformsThen(s, s1, ApplySettings(s1, rest));
      } else if first.id == 5 {
        GoAwayInforms(s, true, s.graceful);
        if DEFAULT_MAX_FRAME <= first.value <= MAX_FRAME_LIMIT {
          var s1 := Note(s.(maxFrame := first.value), MaxFrame(first.value));
          IdleInforms(s, s1);
          SettingsInforms(s1, rest);
          InformsThen(s, s1, ApplySettings(s1, rest));
        }
      } else {
        SettingsInforms(s, rest);
      }
    }
  }

  lemma SettingsAnswered(s: Conn, settings: seq<Setting>)
    requires s.maxFrame > 0
    ensures Informs(s, OnSettings(s, settings))
  {
    hide Informs, ApplySettings;
    var s1 := ApplySettings(s, settings);
    SettingsInforms(s, settings);
    IdleInforms(s1, Emit(s1, SettingsAck));
    InformsThen(s, s1, Emit(s1, SettingsAck));
  }

  lemma ShutdownInforms(s: Conn)
    requires Announced(s)
    ensures Informs(s, BeginShutdown(s)) && Informs(s, FinishShutdown(s))
  {
    hide Informs;
    InformsNothing(s);
    if !s.closing {
      GoAwayInforms(s, false, Some(s.highest));
    }
  }

  lemma TaskSendInforms(s: Conn, id: StreamId, m: Msg)
    ensures Informs(s, OnTaskSend(s, id, m))
  {
    hide Informs;
    InformsNothing(s);
    if Live(s, id) {
      IdleInforms(s, OnTaskSend(s, id, m));
    }
  }

  /** A shutdown is announced once, and repeated when the connection stops, unless an error was told already. */
  lemma ShutdownFrames(s: Conn)
    requires Announced(s)
    ensures Frames(BeginShutdown(s).trace) ==
            if s.graceful.None? && !s.closing then Frames(s.trace) + [GoAway(s.highest)] else Frames(s.trace)
    ensures Frames(FinishShutdown(s).trace) ==
            if s.graceful.Some? && !s.closing then Frames(s.trace) + [GoAway(s.highest)] else Frames(s.trace)
  {
  }

  /** Everything but openings and the two ways a stream may leave in silence. */
  lemma EventInforms(s: Conn, e: Event)
    requires LifeInv(s) && s.maxFrame > 0 && Announced(s) && Possible(s, e)
    requires !e.RequestGone? && (e.PeerReset? ==> !Live(s, e.id)) && (e.PeerHeaders? ==> Live(s, e.id))
    ensures Informs(s, Step(s, e))
  {
    hide Informs, OnSettings, StreamError, OnWake, OnTaskSend, Announced;
    InformsNothing(s);
    GoAwayInforms(s, true, s.graceful);
    match e
    case ConnUpdate(_, _) => UpdateInforms(s, e);
    case StreamUpdate(_, _) => UpdateInforms(s, e);
    case Settings(settings) => SettingsAnswered(s, settings);
    case PeerHeaders(id) => StreamErrorInforms(s, id, 5, true);
    case PeerReset(id) =>
    case RequestEnd(id) => IdleInforms(s, Step(s, e));
    case RequestFault(id, code, counted) => StreamErrorInforms(s, id, code, counted);
    case ConnFault =>
    case Shutdown => ShutdownInforms(s);
    case Stopped => ShutdownInforms(s);
    case TaskSend(id, m) => TaskSendInforms(s, id, m);
    case Wake(order) => OnWakeInforms(s, order);
  }

  // Openings, and streams that leave in silence

  lemma {:induction false} ResetBelow(t: Trace, id: StreamId)
    requires WasReset(t, id)
    ensures id <= TopStream(t)
  {
    match t
    case Then(p, Sent(ResetFrame(i, _))) =>
      if i != id {
        ResetBelow(p, id);
      }
    case Then(p, _) => ResetBelow(p, id);
  }

  lemma OpenNotices(s: Conn, id: StreamId)
    requires NoticeInv(s) && !Live(s, id) && (s.graceful.Some? ==> id <= s.graceful.value)
    ensures var r := OpenStream(s, id);
            && NoticeInv(r)
            && forall i :: (WasOpened(r.trace, i) ==> WasOpened(s.trace, i) || Live(r, i)) && (Live(s, i) ==> Live(r, i))
                           && (Told(s, i) ==> Told(r, i))
  {
    var r := OpenStream(s, id);
    if id == 0 || id % 2 == 0 || id <= s.highest {
      GoAwayInforms(s, true, s.graceful);
      forall i ensures WasOpened(r.trace, i) == WasOpened(s.trace, i) && (Told(s, i) ==> Told(r, i)) {
        assert Parts(s, r, i);
      }
    } else {
      if WasReset(s.trace, id) {
        ResetBelow(s.trace, id);
      }
      forall i | Live(r, i) ensures !WasReset(r.trace, i) {
        assert i == id || Live(s, i);
      }
    }
  }

  /** The peer has been told that nothing more follows on the stream. */
  predicate Told(s: Conn, id: StreamId) {
    Ended(s.trace, id) || WasReset(s.trace, id)
  }

  /** The entry is taken away; at most a note that it is gone is made. */
  lemma DropNotices(s: Conn, r: Conn, id: StreamId)
    requires NoticeInv(s) && r.streams == s.streams - {id} && (r.trace == s.trace || r.trace == Then(s.trace, Gone(id)))
    requires r.closing == s.closing && r.graceful == s.graceful && r.highest == s.highest
    ensures NoticeInv(r) && Kept(s, r, id)
  {
    hide Ended, WasReset, WasOpened, LastIds, TopStream, TrueLastIds, Blocks, HeadFirst, HasHead;
    GoneIsSilent(s.trace, id);
  }

  /** Every other stream is kept, and what was told stays told. */
  ghost predicate Kept(s: Conn, r: Conn, id: StreamId) {
    && (forall i :: WasOpened(r.trace, i) == WasOpened(s.trace, i))
    && (forall i :: Live(s, i) && i != id ==> Live(r, i))
    && (forall i :: Told(s, i) ==> Told(r, i))
  }

  lemma KeptWarned(s: Conn, r: Conn, id: StreamId)
    requires NoticeInv(r) && Kept(s, r, id)
    ensures NoticeInv(RaiseGoAway(r)) && Kept(s, RaiseGoAway(r), id)
  {
    GoAwayInforms(r, true, r.graceful);
    hide NoticeInv;
    forall i ensures WasOpened(RaiseGoAway(r).trace, i) == WasOpened(s.trace, i) && (Told(s, i) ==> Told(RaiseGoAway(r), i)) {
      assert Parts(r, RaiseGoAway(r), i);
    }
  }

  lemma SilentNotices(s: Conn, e: Event)
    requires NoticeInv(s) && s.maxFrame > 0 && ((e.PeerReset? && Live(s, e.id)) || e.RequestGone?)
    ensures NoticeInv(Step(s, e)) && Kept(s, Step(s, e), e.id)
  {
    hide MarkClosed, NoticeInv, Kept, RaiseGoAway;
    var id := e.id;
    var s1 := s.(streams := s.streams - {id});
    var s2 := s1.(acceptResets := s.acceptResets + 1);
    MarkClosedShape(s, id);
    MarkClosedShape(s1, id);
    MarkClosedShape(s2, id);
    DropNotices(s, s1, id);
    DropNotices(s, MarkClosed(s1, id), id);
    DropNotices(s, MarkClosed(s2, id), id);
    DropNotices(s, Retire(s, id), id);
    KeptWarned(s, s1, id);
  }

  /** What one event may do: a stream leaves with the peer told, or because the peer or the request left. */
  ghost predicate Noticed(s: Conn, e: Event, r: Conn) {
    && NoticeInv(r)
    && (forall id :: Told(s, id) ==> Told(r, id))
    && (forall id :: WasOpened(r.trace, id) ==> WasOpened(s.trace, id) || Live(r, id))
    && (forall id :: Live(s, id) && !Live(r, id) ==> Told(r, id) || e == PeerReset(id) || e == RequestGone(id))
  }

  lemma StepNotices(s: Conn, e: Event)
    requires NoticeInv(s) && LifeInv(s) && TalkInv(s, Empty) && s.maxFrame > 0 && Possible(s, e)
    ensures Noticed(s, e, Step(s, e))
  {
    hide NoticeInv, LifeInv, TalkInv, Step, Possible, Told;
    FlagsOf(s);
    if e.RequestGone? || (e.PeerReset? && Live(s, e.id)) {
      SilentNotices(s, e);
    } else if e.PeerHeaders? && !Live(s, e.id) {
      HeadersOpen(s, e.id);
      if s.graceful.Some? && e.id > s.graceful.value {
        InformsNothing(s);
        InformedNotices(s, e, s);
      } else {
        OpenNotices(s, e.id);
      }
    } else {
      EventInforms(s, e);
      InformedNotices(s, e, Step(s, e));
    }
  }

  lemma FlagsOf(s: Conn)
    requires NoticeInv(s) && TalkInv(s, Empty)
    ensures Announced(s) && forall id :: EndFlag(s, id)
  {
    forall id ensures EndFlag(s, id) {
      TalkFlag(s, id);
    }
  }

  lemma TalkFlag(s: Conn, id: StreamId)
    requires TalkInv(s, Empty)
    ensures EndFlag(s, id)
  {
    if Live(s, id) {
      assert Talk(s, id, Empty);
    }
  }

  lemma HeadersOpen(s: Conn, id: StreamId)
    requires s.maxFrame > 0 && !Live(s, id)
    ensures Step(s, PeerHeaders(id)) == if s.graceful.Some? && id > s.graceful.value then s else OpenStream(s, id)
  {
  }

  lemma InformedNotices(s: Conn, e: Event, r: Conn)
    requires NoticeInv(s) && Informs(s, r) && forall id :: EndFlag(s, id)
    ensures Noticed(s, e, r)
  {
    hide NoticeInv, EndFlag;
    forall id ensures (Told(s, id) ==> Told(r, id)) && WasOpened(r.trace, id) == WasOpened(s.trace, id)
                      && (Live(s, id) && !Live(r, id) ==> Told(r, id)) {
      assert Parts(s, r, id) && EndFlag(s, id);
    }
  }

  // Runs

  predicate Excused(events: seq<Event>, id: StreamId) {
    PeerReset(id) in events || RequestGone(id) in events
  }

  lemma {:induction false} RunNotices(s: Conn, events: seq<Event>, r: Conn, id: StreamId)
    requires Inv(s) && NoIdleCredit(s) && TalkInv(s, Empty) && NoticeInv(s) && Reaches(s, events, r)
    requires WasOpened(s.trace, id) && !Live(s, id) ==> Told(s, id)
    ensures NoticeInv(r)
    ensures WasOpened(r.trace, id) && !Live(r, id) ==> Told(r, id) || Excused(events, id)
    decreases |events|
  {
    hide FlowInv, LifeInv, BodyInv, NoIdleCredit, TalkInv, NoticeInv, Step, Possible, Told;
    if events != [] {
      var s1 := Step(s, events[0]);
      StepKeeps(s, events[0]);
      StepTalk(s, events[0]);
      StepNotices(s, events[0]);
      if WasOpened(s1.trace, id) && !Live(s1, id) && !Told(s1, id) {
        RunNoticeInv(s1, events[1..], r);
        assert events[0] in events;
      } else {
        RunNotices(s1, events[1..], r, id);
        assert forall e :: e in events[1..] ==> e in events;
      }
    }
  }

  lemma {:induction false} RunNoticeInv(s: Conn, events: seq<Event>, r: Conn)
    requires Inv(s) && NoIdleCredit(s) && TalkInv(s, Empty) && NoticeInv(s) && Reaches(s, events, r)
    ensures NoticeInv(r)
    decreases |events|
  {
    hide FlowInv, LifeInv, BodyInv, NoIdleCredit, TalkInv, NoticeInv, Step, Possible, Told;
    if events != [] {
      StepKeeps(s, events[0]);
      StepTalk(s, events[0]);
      StepNotices(s, events[0]);
      RunNoticeInv(Step(s, events[0]), events[1..], r);
    }
  }

  /**
   GOAWAY over every run: each frame names the highest stream known when it was
   written, one is written exactly when the connection closes or a shutdown
   begins, and a shutdown's own id is among them.
   */
  lemma GoAwaysTellTruth(window: nat, limits: Limits, events: seq<Event>, r: Conn)
    requires window <= MAX_WINDOW && Reaches(Start(window, limits), events, r)
    ensures TrueLastIds(r.trace) && TopStream(r.trace) == r.highest
    ensures LastIds(r.trace) != [] <==> r.closing || r.graceful.Some?
    ensures r.graceful.Some? ==> GoAway(r.graceful.value) in Frames(r.trace)
  {
    StartHolds(window, limits);
    StartTalk(window, limits);
    RunNoticeInv(Start(window, limits), events, r);
    if r.graceful.Some? {
      LastIdsAreFrames(r.trace, r.graceful.value);
    }
  }

  lemma {:induction false} LastIdsAreFrames(t: Trace, last: StreamId)
    ensures last in LastIds(t) <==> GoAway(last) in Frames(t)
  {
    match t
    case Begin(_) =>
    case Then(p, _) => LastIdsAreFrames(p, last);
  }

  /**
   No stream vanishes in silence, over every run: one that was opened and has no
   entry has sent END_STREAM or RST_STREAM, unless the peer reset it or its
   request side left; and no live stream has been reset.
   */
  lemma NobodyVanishes(window: nat, limits: Limits, events: seq<Event>, r: Conn, id: StreamId)
    requires window <= MAX_WINDOW && Reaches(Start(window, limits), events, r)
    ensures WasOpened(r.trace, id) && !Live(r, id) ==> Told(r, id) || Excused(events, id)
    ensures Live(r, id) ==> !WasReset(r.trace, id)
  {
    StartHolds(window, limits);
    StartTalk(window, limits);
    RunNotices(Start(window, limits), events, r, id);
  }
}
