/** What each handler of the send side keeps, one small step at a time. */
module SenderSteps {
  import opened Basics
  import opened SendTrace
  import opened Sender
  import opened SenderInvariant
  import opened SenderDrain

  // Steps that write no DATA

  /** The item concerns no stream above `bound` and opens none. */
  predicate Below(item: Item, bound: nat) {
    match item
    case Opened(_) => false
    case StreamCredit(i, _) => i <= bound
    case Handed(i, _) => i <= bound
    case Sent(DataFrame(i, _, _)) => i <= bound
    case Sent(BlockFrame(i, _, _)) => i <= bound
    case _ => true
  }

  /** `r` is `s` with the same streams and at most one more item in the trace. */
  ghost predicate SameLife(s: Conn, r: Conn) {
    && r.closedStreams == s.closedStreams && r.closedOrder == s.closedOrder
    && r.highest == s.highest && r.limits == s.limits
    && (r.localErrorResets == s.localErrorResets || WithinBudget(r.localErrorResets, r.limits.maxLocalResets))
    && (r.acceptResets == s.acceptResets || WithinBudget(r.acceptResets, r.limits.maxAcceptResets))
    && r.streams.Keys == s.streams.Keys
    && (r.trace == s.trace || (r.trace.Then? && r.trace.prev == s.trace && Below(r.trace.item, s.highest)))
  }

  lemma LifeFrame(s: Conn, r: Conn)
    requires LifeInv(s) && SameLife(s, r)
    ensures LifeInv(r)
  {
    assert |r.streams| == |r.streams.Keys| == |s.streams.Keys| == |s.streams|;
  }

  /** A trace item that neither grants credit nor moves body bytes. */
  predicate Quiet(item: Item) {
    match item
    case Sent(f) => !f.DataFrame? && !f.BlockFrame?
    case _ => false
  }

  /** `r` is `s` with the same flow-control state and streams, up to fields no window depends on. */
  ghost predicate SameWindows(s: Conn, r: Conn) {
    && r.connWindow == s.connWindow && r.initialWindow == s.initialWindow && r.maxFrame == s.maxFrame
    && (s.closing ==> r.closing)
    && r.streams.Keys <= s.streams.Keys
    && (forall i :: i in r.streams ==> r.streams[i].sendWindow == s.streams[i].sendWindow)
  }

  lemma FlowFrame(s: Conn, r: Conn)
    requires FlowInv(s) && SameWindows(s, r)
    requires r.trace == s.trace
          || (r.trace.Then? && r.trace.prev == s.trace
              && (r.trace.item.Handed? || (r.trace.item.Sent? && !r.trace.item.frame.DataFrame?)))
    ensures FlowInv(r)
  {
    forall i | i in r.streams ensures StreamFlow(r, i) {
      assert StreamFlow(s, i);
    }
  }

  /** `r` is `s` with the same bodies in flight. */
  ghost predicate SameBodies(s: Conn, r: Conn, h: Hand) {
    && r.streams.Keys <= s.streams.Keys
    && (forall i :: i in r.streams ==>
          && r.streams[i].localEnded == s.streams[i].localEnded
          && Queue(r, i, h) == Queue(s, i, h))
  }

  predicate KeepsBodies(item: Item) {
    item.ConnCredit? || item.StreamCredit? || item.InitialWindow? || item.MaxFrame? || Quiet(item)
  }

  lemma BodyFrame(s: Conn, r: Conn, h: Hand)
    requires BodyInv(s, h) && SameBodies(s, r, h)
    requires r.trace == s.trace || (r.trace.Then? && r.trace.prev == s.trace && KeepsBodies(r.trace.item))
    ensures BodyInv(r, h)
  {
    forall i | i in r.streams ensures StreamBody(r, i, h) {
      assert StreamBody(s, i, h);
    }
    forall i ensures SentBytes(r.trace, i) <= HandedBytes(r.trace, i) && CleanEnd(r.trace, i) {
      assert SentBytes(s.trace, i) <= HandedBytes(s.trace, i) && CleanEnd(s.trace, i);
    }
  }

  lemma EmitKeeps(s: Conn, f: Frame, h: Hand)
    requires InvWith(s, h) && Quiet(Sent(f))
    ensures InvWith(Emit(s, f), h)
    ensures NoIdleCredit(s) ==> NoIdleCredit(Emit(s, f))
  {
    hide FlowInv, LifeInv, BodyInv;
    var r := Emit(s, f);
    FlowFrame(s, r);
    LifeFrame(s, r);
    BodyFrame(s, r, h);
    if NoIdleCredit(s) {
      forall i ensures Hungry(r, i) == Hungry(s, i) {}
    }
  }

  lemma GoAwayKeeps(s: Conn, h: Hand)
    requires InvWith(s, h)
    ensures InvWith(RaiseGoAway(s), h)
    ensures NoIdleCredit(s) ==> NoIdleCredit(RaiseGoAway(s))
  {
    hide FlowInv, LifeInv, BodyInv, NoIdleCredit;
    LastStreamKeeps(s, true, s.graceful, s.highest, h);
  }

  /** A GOAWAY frame and the two fields it may change. */
  lemma LastStreamKeeps(s: Conn, closing: bool, graceful: Option<nat>, last: nat, h: Hand)
    requires InvWith(s, h) && (s.closing ==> closing)
    ensures var r := Emit(s.(closing := closing, graceful := graceful), GoAway(last));
            InvWith(r, h) && (NoIdleCredit(s) ==> NoIdleCredit(r))
  {
    hide FlowInv, LifeInv, BodyInv;
    var r := Emit(s.(closing := closing, graceful := graceful), GoAway(last));
    FlowFrame(s, r);
    LifeFrame(s, r);
    BodyFrame(s, r, h);
    if NoIdleCredit(s) {
      forall i ensures Hungry(r, i) == Hungry(s, i) {}
    }
  }

  lemma RetireIdle(s: Conn, id: StreamId)
    requires NoIdleCredit(s)
    ensures NoIdleCredit(Retire(s, id))
  {
    var r := Retire(s, id);
    assert Raised(r.trace) == Raised(s.trace) && r.connWindow == s.connWindow;
    forall i | Hungry(r, i) ensures Hungry(s, i) {}
  }

  lemma CountersKeep(s: Conn, local: nat, accept: nat)
    requires Inv(s) && NoIdleCredit(s)
    requires WithinBudget(local, s.limits.maxLocalResets) && WithinBudget(accept, s.limits.maxAcceptResets)
    ensures var r := s.(localErrorResets := local, acceptResets := accept); Inv(r) && NoIdleCredit(r)
  {
    hide FlowInv, LifeInv, BodyInv;
    var r := s.(localErrorResets := local, acceptResets := accept);
    FlowFrame(s, r);
    LifeFrame(s, r);
    BodyFrame(s, r, Empty);
    forall i ensures Hungry(r, i) == Hungry(s, i) {}
  }

  lemma ResetAndRetireKeeps(s: Conn, id: StreamId, code: nat, h: Hand)
    requires InvWith(s, h) && NoIdleCredit(s) && WasOpened(s.trace, id)
    ensures InvWith(Retire(Emit(s, ResetFrame(id, code)), id), h)
    ensures NoIdleCredit(Retire(Emit(s, ResetFrame(id, code)), id))
  {
    hide FlowInv, LifeInv, BodyInv, NoIdleCredit, Retire;
    EmitKeeps(s, ResetFrame(id, code), h);
    RetireKeeps(Emit(s, ResetFrame(id, code)), id, h);
    RetireIdle(Emit(s, ResetFrame(id, code)), id);
  }

  lemma StreamErrorKeeps(s: Conn, id: StreamId, code: nat, counted: bool)
    requires Inv(s) && NoIdleCredit(s) && WasOpened(s.trace, id)
    ensures Inv(StreamError(s, id, code, counted)) && NoIdleCredit(StreamError(s, id, code, counted))
  {
    hide FlowInv, LifeInv, BodyInv, NoIdleCredit, Retire;
    Bounds(s, Empty);
    if counted && s.limits.maxLocalResets.Some? && s.localErrorResets >= s.limits.maxLocalResets.value {
      GoAwayKeeps(s, Empty);
    } else if counted {
      CountersKeep(s, s.localErrorResets + 1, s.acceptResets);
      ResetAndRetireKeeps(s.(localErrorResets := s.localErrorResets + 1), id, code, Empty);
    } else {
      ResetAndRetireKeeps(s, id, code, Empty);
    }
  }

  // Frames from the peer

  function WithConnCredit(s: Conn, inc: nat): Conn {
    Note(s.(connWindow := s.connWindow + inc), ConnCredit(inc))
  }

  lemma ConnCreditKeeps(s: Conn, inc: nat)
    requires Inv(s) && s.connWindow + inc <= MAX_WINDOW
    ensures Inv(WithConnCredit(s, inc))
  {
    hide LifeInv, BodyInv;
    var r := WithConnCredit(s, inc);
    forall i | i in r.streams ensures StreamFlow(r, i) { assert StreamFlow(s, i); }
    LifeFrame(s, r);
    BodyFrame(s, r, Empty);
  }

  lemma OnConnUpdateKeeps(s: Conn, inc: nat, ids: seq<StreamId>)
    requires Inv(s) && NoIdleCredit(s) && IsOrder(s, ids)
    ensures Inv(OnConnUpdate(s, inc, ids)) && NoIdleCredit(OnConnUpdate(s, inc, ids))
  {
    if inc == 0 {
    } else if s.connWindow > MAX_WINDOW - inc {
      GoAwayKeeps(s, Empty);
    } else {
      var s1 := WithConnCredit(s, inc);
      ConnCreditKeeps(s, inc);
      assert IsOrder(s1, ids) by {
        forall i ensures Queued(s1, i) <==> Queued(s, i) {}
      }
      hide FlowInv, LifeInv, BodyInv, Drain;
      DrainLeavesNothingSendable(s1, ids);
    }
  }

  /** `s` with more credit on one stream. */
  function Credited(s: Conn, id: StreamId, inc: nat): Conn
    requires Live(s, id)
  {
    var e := s.streams[id];
    Note(s.(streams := s.streams[id := e.(sendWindow := e.sendWindow + inc)]), StreamCredit(id, inc))
  }

  lemma CreditedFlow(s: Conn, id: StreamId, inc: nat)
    requires FlowInv(s) && Live(s, id) && s.streams[id].sendWindow + inc <= MAX_WINDOW
    ensures FlowInv(Credited(s, id, inc))
  {
    var r := Credited(s, id, inc);
    forall i | i in r.streams ensures StreamFlow(r, i) { assert StreamFlow(s, i); }
  }

  lemma CreditedKeeps(s: Conn, id: StreamId, inc: nat)
    requires Inv(s) && Live(s, id) && s.streams[id].sendWindow + inc <= MAX_WINDOW
    ensures Inv(Credited(s, id, inc))
  {
    hide FlowInv, LifeInv, BodyInv;
    Bounds(s, Empty);
    var r := Credited(s, id, inc);
    assert r.streams.Keys == s.streams.Keys;
    CreditedFlow(s, id, inc);
    LifeFrame(s, r);
    BodyFrame(s, r, Empty);
  }

  /** Pumping one stream restores the idle-credit rule for it and keeps it for the others. */
  lemma PumpIdle(s: Conn, s1: Conn, id: StreamId, h: Hand)
    requires NoIdleCredit(s) && InvWith(s1, h)
    requires s1.connWindow == s.connWindow && Raised(s1.trace) == Raised(s.trace)
    requires forall i :: i != id ==> (Hungry(s1, i) ==> Hungry(s, i))
    ensures NoIdleCredit(Pump(s1, id))
  {
    hide FlowInv, LifeInv, BodyInv, Pump;
    Bounds(s1, h);
    PumpKeeps(s1, id, h);
    var r := Pump(s1, id);
    forall i | Hungry(r, i) && !Raised(r.trace) ensures r.connWindow <= 0 {
      if i != id {
        assert SameStream(s1, r, i);
        assert Hungry(s1, i);
      } else {
        assert Settled(r, id);
      }
    }
  }

  lemma OnStreamUpdateKeeps(s: Conn, id: StreamId, inc: nat)
    requires Inv(s) && NoIdleCredit(s)
    ensures Inv(OnStreamUpdate(s, id, inc)) && NoIdleCredit(OnStreamUpdate(s, id, inc))
  {
    hide FlowInv, LifeInv, BodyInv, NoIdleCredit, Pump, StreamError;
    Bounds(s, Empty);
    if inc == 0 {
    } else if !Live(s, id) {
      GoAwayKeeps(s, Empty);
    } else if s.streams[id].sendWindow > MAX_WINDOW - inc {
      StreamErrorKeeps(s, id, 3, true);
    } else {
      CreditedKeeps(s, id, inc);
      PumpKeeps(Credited(s, id, inc), id, Empty);
      PumpIdle(s, Credited(s, id, inc), id, Empty);
    }
  }

  /** `s` with a new initial window, before the overflow test. */
  function Resized(s: Conn, value: nat): Conn {
    Note(s.(initialWindow := value, streams := ShiftWindows(s.streams, value - s.initialWindow)),
         InitialWindow(value))
  }

  lemma ResizedKeeps(s: Conn, value: nat)
    requires Inv(s) && NoIdleCredit(s) && value <= MAX_WINDOW
    ensures LifeInv(Resized(s, value)) && BodyInv(Resized(s, value), Empty) && NoIdleCredit(Resized(s, value))
  {
    Bounds(s, Empty);
    assert s.initialWindow == InitialNow(s.trace);
    hide FlowInv, LifeInv, BodyInv;
    var r := Resized(s, value);
    assert r.streams.Keys == s.streams.Keys;
    LifeFrame(s, r);
    BodyFrame(s, r, Empty);
    if !Raised(r.trace) {
      forall i | Hungry(r, i) ensures r.connWindow <= 0 {
        assert Hungry(s, i);
      }
    }
  }

  /** Every window moves by the same amount; only an overflow leaves the range. */
  lemma ResizedFlow(s: Conn, value: nat)
    requires FlowInv(s) && value <= MAX_WINDOW
    ensures var r := Resized(s, value);
            && FlowInv(r.(closing := true))
            && (!Overflows(r.streams) ==> FlowInv(r))
  {
    var r := Resized(s, value);
    var r1 := r.(closing := true);
    forall i | i in r1.streams ensures StreamFlow(r1, i) { assert StreamFlow(s, i); }
    if !Overflows(r.streams) {
      forall i | i in r.streams ensures StreamFlow(r, i) { assert StreamFlow(s, i); }
    }
  }

  lemma SetInitialWindowKeeps(s: Conn, value: nat)
    requires Inv(s) && NoIdleCredit(s) && value <= MAX_WINDOW
    ensures Inv(SetInitialWindow(s, value)) && NoIdleCredit(SetInitialWindow(s, value))
  {
    hide FlowInv, LifeInv, BodyInv, NoIdleCredit, ShiftWindows;
    ResizedKeeps(s, value);
    ResizedFlow(s, value);
    var r := Resized(s, value);
    if Overflows(r.streams) {
      var r1 := r.(closing := true);
      ClosingKeeps(r);
      EmitKeeps(r1, GoAway(s.highest), Empty);
    }
  }

  lemma ClosingKeeps(s: Conn)
    requires LifeInv(s) && BodyInv(s, Empty) && NoIdleCredit(s)
    ensures var r := s.(closing := true); LifeInv(r) && BodyInv(r, Empty) && NoIdleCredit(r)
  {
    hide LifeInv, BodyInv;
    var r := s.(closing := true);
    LifeFrame(s, r);
    BodyFrame(s, r, Empty);
    forall i ensures Hungry(r, i) == Hungry(s, i) {}
  }

  lemma SetMaxFrameKeeps(s: Conn, value: nat)
    requires Inv(s) && NoIdleCredit(s) && DEFAULT_MAX_FRAME <= value <= MAX_FRAME_LIMIT
    ensures var r := Note(s.(maxFrame := value), MaxFrame(value)); Inv(r) && NoIdleCredit(r)
  {
    hide LifeInv, BodyInv;
    var r := Note(s.(maxFrame := value), MaxFrame(value));
    forall i | i in r.streams ensures StreamFlow(r, i) { assert StreamFlow(s, i); }
    LifeFrame(s, r);
    BodyFrame(s, r, Empty);
    forall i ensures Hungry(r, i) == Hungry(s, i) {}
  }

  /** Initial windows as the frame codec lets them through. */
  ghost predicate LegalSettings(settings: seq<Setting>) {
    forall k :: 0 <= k < |settings| && settings[k].id == 4 ==> settings[k].value <= MAX_WINDOW
  }

  lemma {:induction false} ApplySettingsKeeps(s: Conn, settings: seq<Setting>)
    requires Inv(s) && NoIdleCredit(s) && LegalSettings(settings)
    ensures Inv(ApplySettings(s, settings)) && NoIdleCredit(ApplySettings(s, settings))
    decreases |settings|
  {
    hide FlowInv, LifeInv, BodyInv, NoIdleCredit, SetInitialWindow;
    Bounds(s, Empty);
    if settings != [] {
      var first, rest := settings[0], settings[1..];
      if first.id == 4 {
        SetInitialWindowKeeps(s, first.value);
        Bounds(SetInitialWindow(s, first.value), Empty);
        ApplySettingsKeeps(SetInitialWindow(s, first.value), rest);
      } else if first.id == 5 {
        if DEFAULT_MAX_FRAME <= first.value <= MAX_FRAME_LIMIT {
          SetMaxFrameKeeps(s, first.value);
          ApplySettingsKeeps(Note(s.(maxFrame := first.value), MaxFrame(first.value)), rest);
        } else {
          GoAwayKeeps(s, Empty);
        }
      } else {
        ApplySettingsKeeps(s, rest);
      }
    }
  }

  lemma OnSettingsKeeps(s: Conn, settings: seq<Setting>)
    requires Inv(s) && NoIdleCredit(s) && LegalSettings(settings)
    ensures Inv(OnSettings(s, settings)) && NoIdleCredit(OnSettings(s, settings))
  {
    hide FlowInv, LifeInv, BodyInv, NoIdleCredit, ApplySettings;
    Bounds(s, Empty);
    ApplySettingsKeeps(s, settings);
    EmitKeeps(ApplySettings(s, settings), SettingsAck, Empty);
  }

  function Blank(window: nat): Entry {
    Entry(window, [], 0, false, false, false, false, [])
  }

  function WithStream(s: Conn, id: StreamId): Conn {
    Note(s.(highest := id, streams := s.streams[id := Blank(s.initialWindow)]), Opened(id))
  }

  lemma OpenFlow(s: Conn, id: StreamId)
    requires FlowInv(s)
    ensures FlowInv(WithStream(s, id))
  {
    var r := WithStream(s, id);
    forall i | i in r.streams ensures StreamFlow(r, i) {
      if i != id { assert StreamFlow(s, i); }
    }
  }

  lemma OpenLife(s: Conn, id: StreamId)
    requires LifeInv(s) && id % 2 == 1 && id > s.highest && |s.streams| < s.limits.maxConcurrent
    ensures LifeInv(WithStream(s, id))
  {
    var r := WithStream(s, id);
    assert Untouched(s.trace, id);
    assert r.streams.Keys == s.streams.Keys + {id};
    assert |r.streams| == |r.streams.Keys|;
    assert |s.streams| == |s.streams.Keys|;
    forall i | i > r.highest ensures Untouched(r.trace, i) { assert Untouched(s.trace, i); }
  }

  lemma OpenBody(s: Conn, id: StreamId)
    requires BodyInv(s, Empty) && Untouched(s.trace, id)
    ensures BodyInv(WithStream(s, id), Empty)
  {
    var r := WithStream(s, id);
    UntouchedIsBlank(s.trace, id);
    assert Queue(r, id, Empty) == [];
    forall i | i in r.streams ensures StreamBody(r, i, Empty) {
      if i != id { assert StreamBody(s, i, Empty); }
    }
    forall i ensures SentBytes(r.trace, i) <= HandedBytes(r.trace, i) && CleanEnd(r.trace, i) {
      assert SentBytes(s.trace, i) <= HandedBytes(s.trace, i) && CleanEnd(s.trace, i);
    }
  }

  lemma OpenKeeps(s: Conn, id: StreamId)
    requires Inv(s) && NoIdleCredit(s) && id % 2 == 1 && id > s.highest && |s.streams| < s.limits.maxConcurrent
    ensures Inv(WithStream(s, id)) && NoIdleCredit(WithStream(s, id))
  {
    OpenFlow(s, id);
    OpenLife(s, id);
    assert Untouched(s.trace, id);
    OpenBody(s, id);
    hide FlowInv, LifeInv, BodyInv;
    var r := WithStream(s, id);
    forall i | Hungry(r, i) ensures Hungry(s, i) {}
  }

  lemma RefuseKeeps(s: Conn, id: StreamId)
    requires Inv(s) && NoIdleCredit(s) && id > s.highest
    ensures Inv(Emit(s.(highest := id), ResetFrame(id, 7))) && NoIdleCredit(Emit(s.(highest := id), ResetFrame(id, 7)))
  {
    var s1 := s.(highest := id);
    FlowFrame(s, s1);
    BodyFrame(s, s1, Empty);
    forall i ensures Hungry(s1, i) == Hungry(s, i) {}
    EmitKeeps(s1, ResetFrame(id, 7), Empty);
  }

  lemma OnHeadersKeeps(s: Conn, id: StreamId)
    requires Inv(s) && NoIdleCredit(s)
    ensures Inv(OnHeaders(s, id)) && NoIdleCredit(OnHeaders(s, id))
  {
    hide FlowInv, LifeInv, BodyInv, NoIdleCredit, StreamError;
    Bounds(s, Empty);
    if s.graceful.Some? && id > s.graceful.value {
    } else if Live(s, id) {
      if s.streams[id].remoteEnded { StreamErrorKeeps(s, id, 5, true); }
    } else if id == 0 || id % 2 == 0 || id <= s.highest {
      GoAwayKeeps(s, Empty);
    } else if |s.streams| >= s.limits.maxConcurrent {
      RefuseKeeps(s, id);
    } else {
      OpenKeeps(s, id);
    }
  }

  /** Changing only `remoteEnded` or `taskDone` of an entry. */
  lemma FlagKeeps(s: Conn, id: StreamId, e: Entry, h: Hand)
    requires InvWith(s, h) && Live(s, id)
    requires e == s.streams[id].(remoteEnded := e.remoteEnded, taskDone := e.taskDone)
    ensures InvWith(s.(streams := s.streams[id := e]), h)
    ensures NoIdleCredit(s) ==> NoIdleCredit(s.(streams := s.streams[id := e]))
  {
    hide FlowInv, LifeInv, BodyInv, SameLife, SameWindows, SameBodies, Hungry, Raised;
    var r := s.(streams := s.streams[id := e]);
    FlagFrames(s, id, e, h);
    FlowFrame(s, r);
    LifeFrame(s, r);
    BodyFrame(s, r, h);
  }

  lemma FlagFrames(s: Conn, id: StreamId, e: Entry, h: Hand)
    requires Live(s, id) && e == s.streams[id].(remoteEnded := e.remoteEnded, taskDone := e.taskDone)
    ensures var r := s.(streams := s.streams[id := e]);
            SameLife(s, r) && SameWindows(s, r) && SameBodies(s, r, h) && forall i :: Hungry(r, i) == Hungry(s, i)
  {
    hide DataOf;
    var r := s.(streams := s.streams[id := e]);
    assert r.streams.Keys == s.streams.Keys;
  }

  lemma OnResetKeeps(s: Conn, id: StreamId)
    requires Inv(s) && NoIdleCredit(s)
    ensures Inv(OnReset(s, id)) && NoIdleCredit(OnReset(s, id))
  {
    hide FlowInv, LifeInv, BodyInv, NoIdleCredit;
    Bounds(s, Empty);
    if !Live(s, id) {
      GoAwayKeeps(s, Empty);
    } else if s.streams[id].responseStarted {
      RetireKeeps(s, id, Empty);
      RetireIdle(s, id);
      RetireOrder(s, id);
    } else if s.limits.maxAcceptResets.Some? && s.acceptResets >= s.limits.maxAcceptResets.value {
      RemoveKeeps(s, id);
      GoAwayKeeps(s.(streams := s.streams - {id}), Empty);
    } else {
      CountersKeep(s, s.localErrorResets, s.acceptResets + 1);
      var s1 := s.(acceptResets := s.acceptResets + 1);
      RetireKeeps(s1, id, Empty);
      RetireIdle(s1, id);
      RetireOrder(s1, id);
    }
  }

  /** Removing the entry before or after remembering the id makes no difference. */
  lemma RetireOrder(s: Conn, id: StreamId)
    ensures MarkClosed(s.(streams := s.streams - {id}), id) == Retire(s, id)
  {
  }

  lemma RemoveKeeps(s: Conn, id: StreamId)
    requires Inv(s) && NoIdleCredit(s)
    ensures Inv(s.(streams := s.streams - {id})) && NoIdleCredit(s.(streams := s.streams - {id}))
  {
    hide FlowInv, LifeInv, BodyInv, SameWindows, SameBodies, Hungry, Raised;
    var r := s.(streams := s.streams - {id});
    RemoveFrames(s, id);
    FlowFrame(s, r);
    RemoveLife(s, id);
    BodyFrame(s, r, Empty);
  }

  lemma RemoveFrames(s: Conn, id: StreamId)
    ensures var r := s.(streams := s.streams - {id});
            SameWindows(s, r) && SameBodies(s, r, Empty) && forall i :: Hungry(r, i) ==> Hungry(s, i)
  {
    hide DataOf;
  }

  lemma RemoveLife(s: Conn, id: StreamId)
    requires LifeInv(s)
    ensures LifeInv(s.(streams := s.streams - {id}))
  {
    hide Memory, FreshOpens, WasOpened, Untouched;
    var r := s.(streams := s.streams - {id});
    assert r.streams.Keys == s.streams.Keys - {id};
  }

  // Messages from stream tasks

  lemma {:induction false} DataOfConcat(a: seq<Msg>, b: seq<Msg>)
    ensures DataOf(a + b) == DataOf(a) + DataOf(b)
  {
    if a == [] {
      assert a + b == b;
    } else {
      assert (a + b)[1..] == a[1..] + b;
      DataOfConcat(a[1..], b);
    }
  }

  function WithMessage(s: Conn, id: StreamId, m: Msg): Conn
    requires Live(s, id)
  {
    var e := s.streams[id];
    Note(s.(streams := s.streams[id := e.(inbox := e.inbox + [m])]), Handed(id, m))
  }

  /** Handing over one more chunk keeps sent and queued bytes in step with what was handed over. */
  lemma HandedGrows(sent: Bytes, queue: seq<Chunk>, handed: seq<Chunk>, c: Chunk)
    requires sent + Flat(queue) == Flat(handed) && EndAt(handed) == Shift(|sent|, EndAt(queue))
    ensures sent + Flat(queue + [c]) == Flat(handed + [c])
    ensures EndAt(handed + [c]) == Shift(|sent|, EndAt(queue + [c]))
  {
    FlatConcat(queue, [c]);
    EndAtConcat(queue, [c]);
    FlatConcat(handed, [c]);
    EndAtConcat(handed, [c]);
    hide Flat, EndAt;
    assert sent + (Flat(queue) + Flat([c])) == (sent + Flat(queue)) + Flat([c]);
    assert |Flat(handed)| == |sent| + |Flat(queue)|;
  }

  /** A message entering the channel joins the end of the stream's queue. */
  lemma TaskSendOwnBody(s: Conn, id: StreamId, m: Msg)
    requires Live(s, id) && StreamBody(s, id, Empty)
    ensures StreamBody(WithMessage(s, id, m), id, Empty)
  {
    var r := WithMessage(s, id, m);
    var q := Queue(s, id, Empty);
    DataOfConcat(s.streams[id].inbox, [m]);
    assert [m][1..] == [];
    if m.Data? {
      assert DataOf([m]) == [m.chunk];
      assert Queue(r, id, Empty) == q + [m.chunk];
      if !s.streams[id].localEnded {
        HandedGrows(SentBytes(s.trace, id), q, HandedChunks(s.trace, id), m.chunk);
      }
    } else {
      assert DataOf([m]) == [];
      assert Queue(r, id, Empty) == q;
    }
  }

  lemma HandedOnlyGrows(t: Trace, id: StreamId, m: Msg)
    requires SentBytes(t, id) <= HandedBytes(t, id)
    ensures SentBytes(t, id) <= HandedBytes(Then(t, Handed(id, m)), id)
  {
    if m.Data? {
      FlatConcat(HandedChunks(t, id), [m.chunk]);
    }
  }

  lemma TaskSendBody(s: Conn, id: StreamId, m: Msg)
    requires BodyInv(s, Empty) && Live(s, id)
    ensures BodyInv(WithMessage(s, id, m), Empty)
  {
    var r := WithMessage(s, id, m);
    assert StreamBody(s, id, Empty) && SentBytes(s.trace, id) <= HandedBytes(s.trace, id);
    TaskSendOwnBody(s, id, m);
    HandedOnlyGrows(s.trace, id, m);
    forall i | i in r.streams ensures StreamBody(r, i, Empty) {
      if i != id { assert StreamBody(s, i, Empty); }
    }
    forall i ensures SentBytes(r.trace, i) <= HandedBytes(r.trace, i) && CleanEnd(r.trace, i) {
      assert SentBytes(s.trace, i) <= HandedBytes(s.trace, i) && CleanEnd(s.trace, i);
    }
  }

  lemma OnTaskSendKeeps(s: Conn, id: StreamId, m: Msg)
    requires Inv(s) && NoIdleCredit(s)
    ensures Inv(OnTaskSend(s, id, m)) && NoIdleCredit(OnTaskSend(s, id, m))
  {
    hide FlowInv, LifeInv, BodyInv, SameLife, SameWindows, Hungry;
    Bounds(s, Empty);
    if Live(s, id) {
      var r := WithMessage(s, id, m);
      MessageFrames(s, id, m);
      FlowFrame(s, r);
      LifeFrame(s, r);
      TaskSendBody(s, id, m);
    }
  }

  lemma MessageFrames(s: Conn, id: StreamId, m: Msg)
    requires Live(s, id) && id <= s.highest
    ensures var r := WithMessage(s, id, m);
            SameLife(s, r) && SameWindows(s, r) && forall i :: Hungry(r, i) == Hungry(s, i)
  {
    assert WithMessage(s, id, m).streams.Keys == s.streams.Keys;
  }

  /** Folding an empty end message changes neither the bytes nor where they end. */
  lemma {:induction false} FoldKeepsBody(msgs: seq<Msg>)
    ensures Flat(DataOf(Fold(msgs))) == Flat(DataOf(msgs))
    ensures EndAt(DataOf(Fold(msgs))) == EndAt(DataOf(msgs))
    decreases |msgs|
  {
    if |msgs| >= 2 && msgs[0].Data? && msgs[1] == Data(Chunk([], true)) {
      FoldKeepsBody(msgs[2..]);
      var folded := Chunk(msgs[0].chunk.data, true);
      assert Fold(msgs) == [Data(folded)] + Fold(msgs[2..]);
      assert DataOf(Fold(msgs)) == [folded] + DataOf(Fold(msgs[2..]));
      assert msgs[1..][1..] == msgs[2..];
      assert DataOf(msgs) == [msgs[0].chunk] + ([Chunk([], true)] + DataOf(msgs[2..]));
    } else if msgs != [] {
      FoldKeepsBody(msgs[1..]);
      assert Fold(msgs) == [msgs[0]] + Fold(msgs[1..]);
      if msgs[0].Data? {
        assert DataOf(Fold(msgs)) == [msgs[0].chunk] + DataOf(Fold(msgs[1..]));
      }
    }
  }

  /** One field block of a live stream that has not ended. */
  function WithBlock(s: Conn, id: StreamId, end: bool, kind: BlockKind): Conn
    requires Live(s, id)
  {
    var e := s.streams[id].(localEnded := end, responseStarted := true);
    Emit(s.(streams := s.streams[id := e]), BlockFrame(id, end, kind))
  }

  lemma BlockKeeps(s: Conn, id: StreamId, end: bool, kind: BlockKind, h: Hand)
    requires InvWith(s, h) && NoIdleCredit(s) && Live(s, id) && !s.streams[id].localEnded
    requires kind == Response || kind == Trailer
    ensures InvWith(WithBlock(s, id, end, kind), h) && NoIdleCredit(WithBlock(s, id, end, kind))
  {
    hide FlowInv, LifeInv, BodyInv;
    Bounds(s, h);
    var r := WithBlock(s, id, end, kind);
    assert r.streams.Keys == s.streams.Keys;
    FlowFrame(s, r);
    LifeFrame(s, r);
    BlockBody(s, id, end, kind, h);
    forall i | Hungry(r, i) ensures Hungry(s, i) {}
  }

  lemma BlockBody(s: Conn, id: StreamId, end: bool, kind: BlockKind, h: Hand)
    requires BodyInv(s, h) && Live(s, id) && !s.streams[id].localEnded
    requires kind == Response || kind == Trailer
    ensures BodyInv(WithBlock(s, id, end, kind), h)
  {
    var r := WithBlock(s, id, end, kind);
    assert StreamBody(s, id, h);
    forall i | i in r.streams ensures StreamBody(r, i, h) {
      assert StreamBody(s, i, h);
      assert Queue(r, i, h) == Queue(s, i, h);
    }
    forall i ensures SentBytes(r.trace, i) <= HandedBytes(r.trace, i) && CleanEnd(r.trace, i) {
      assert SentBytes(s.trace, i) <= HandedBytes(s.trace, i) && CleanEnd(s.trace, i);
    }
  }

  lemma SideBlockBody(s: Conn, id: StreamId, end: bool, kind: BlockKind, h: Hand)
    requires BodyInv(s, h)
    requires (kind == Interim && !end) || (kind == Orphan && !Live(s, id))
    ensures BodyInv(Emit(s, BlockFrame(id, end, kind)), h)
  {
    var r := Emit(s, BlockFrame(id, end, kind));
    forall i | i in r.streams ensures StreamBody(r, i, h) { assert StreamBody(s, i, h); }
    forall i ensures SentBytes(r.trace, i) <= HandedBytes(r.trace, i) && CleanEnd(r.trace, i) {
      assert SentBytes(s.trace, i) <= HandedBytes(s.trace, i) && CleanEnd(s.trace, i);
    }
  }

  /** Interim blocks, and blocks for a stream that is gone, leave every live stream alone. */
  lemma SideBlockKeeps(s: Conn, id: StreamId, end: bool, kind: BlockKind, h: Hand)
    requires InvWith(s, h) && NoIdleCredit(s) && id <= s.highest
    requires (kind == Interim && !end) || (kind == Orphan && !Live(s, id))
    ensures InvWith(Emit(s, BlockFrame(id, end, kind)), h) && NoIdleCredit(Emit(s, BlockFrame(id, end, kind)))
  {
    hide FlowInv, LifeInv, BodyInv;
    Bounds(s, h);
    var r := Emit(s, BlockFrame(id, end, kind));
    FlowFrame(s, r);
    LifeFrame(s, r);
    SideBlockBody(s, id, end, kind, h);
    forall i ensures Hungry(r, i) == Hungry(s, i) {}
  }
}
