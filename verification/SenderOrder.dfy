/**
 Runs in which stream tasks keep their order: behind `Closed` a task sends
 nothing, and behind a reset only `Closed` (`src/h2/stream/service.rs`). In such
 runs no block is written for a stream that is gone, and the memory of closed
 streams is exactly the last 4096 of them.
 */
module SenderOrder {
  import opened Basics
  import opened SendTrace
  import opened Sender
  import opened SenderInvariant
  import opened SenderDrain
  import opened SenderSteps
  import opened SenderRuns
  import SenderPour

  // The last closed streams

  function Recent(ids: seq<StreamId>): seq<StreamId> {
    if |ids| <= 4096 then ids else ids[|ids| - 4096..]
  }

  lemma RecentConcat(a: seq<StreamId>, b: seq<StreamId>)
    ensures Recent(Recent(a) + b) == Recent(a + b)
  {
    if |a| > 4096 {
      assert Recent(a) + b == (a + b)[|a| - 4096..];
    }
  }

  /** Live streams are not remembered as closed, and the memory is in order. */
  ghost predicate Clear(s: Conn) {
    && ClosedInv(s)
    && forall id :: Live(s, id) ==> id !in s.closedStreams
  }

  /** From `s` to `r` only the streams in `gone` left, closed in that order, and nothing came from the tasks. */
  ghost predicate Calm(s: Conn, r: Conn, gone: seq<StreamId>) {
    && Closings(r.trace) == Closings(s.trace) + gone
    && r.closedOrder == Recent(s.closedOrder + gone)
    && NoDup(gone) && (forall id :: id in gone ==> Live(s, id) && !Live(r, id))
    && (forall id :: Live(r, id) ==>
          && Live(s, id)
          && r.streams[id].inbox == s.streams[id].inbox && r.streams[id].taskDone == s.streams[id].taskDone)
    && (!r.closing ==> !s.closing && forall id :: Live(s, id) && !Live(r, id) ==> id in gone)
    && (forall id ::
          && WasOpened(r.trace, id) == WasOpened(s.trace, id)
          && Stage(r.trace, id) == Stage(s.trace, id)
          && NoOrphan(r.trace, id) == NoOrphan(s.trace, id))
  }

  lemma OrderBound(s: Conn)
    requires ClosedInv(s)
    ensures |s.closedOrder| <= CLOSED_LIMIT
  {
  }

  lemma Stays(s: Conn)
    requires Clear(s)
    ensures Calm(s, s, [])
  {
    assert s.closedOrder + [] == s.closedOrder && Closings(s.trace) + [] == Closings(s.trace);
  }

  lemma NoDupConcat(x: seq<StreamId>, y: seq<StreamId>)
    requires NoDup(x) && NoDup(y) && forall id :: id in x ==> id !in y
    ensures NoDup(x + y)
  {
    forall i, j | 0 <= i < j < |x + y|
      ensures (x + y)[i] != (x + y)[j]
    {
      if i < |x| <= j {
        assert x[i] in x && y[j - |x|] in y;
      }
    }
  }

  lemma CalmThen(a: Conn, b: Conn, c: Conn, x: seq<StreamId>, y: seq<StreamId>)
    requires Calm(a, b, x) && Calm(b, c, y)
    ensures Calm(a, c, x + y)
  {
    hide WasOpened, Stage, NoOrphan;
    RecentConcat(a.closedOrder + x, y);
    NoDupConcat(x, y);
    assert (a.closedOrder + x) + y == a.closedOrder + (x + y);
    assert (Closings(a.trace) + x) + y == Closings(a.trace) + (x + y);
  }

  /** Changes that concern neither the set of streams nor their tasks. */
  ghost predicate Aside(s: Conn, r: Conn) {
    && r.closedStreams == s.closedStreams && r.closedOrder == s.closedOrder
    && r.streams.Keys == s.streams.Keys && (s.closing ==> r.closing)
    && (forall id :: Live(s, id) ==>
          r.streams[id].inbox == s.streams[id].inbox && r.streams[id].taskDone == s.streams[id].taskDone)
    && (r.trace == s.trace || (r.trace.Then? && r.trace.prev == s.trace && Neutral(r.trace.item)))
  }

  predicate Neutral(item: Item) {
    match item
    case Sent(BlockFrame(_, _, kind)) => kind != Orphan
    case Opened(_) => false
    case Handed(_, _) => false
    case Gone(_) => false
    case _ => true
  }

  lemma AsideCalm(s: Conn, r: Conn)
    requires Clear(s) && Aside(s, r)
    ensures Calm(s, r, []) && Clear(r)
  {
    hide Memory;
    OrderBound(s);
    assert s.closedOrder + [] == s.closedOrder && Closings(s.trace) + [] == Closings(s.trace);
    forall id ensures Live(r, id) == Live(s, id) {
    }
  }

  lemma RetireCalm(s: Conn, id: StreamId)
    requires Clear(s) && Live(s, id)
    ensures Calm(s, Retire(s, id), [id]) && Clear(Retire(s, id))
  {
    hide MarkClosed, Memory, WasOpened, Stage, NoOrphan;
    var r := Retire(s, id);
    MarkClosedKeeps(s, id);
    MarkClosedRecent(s, id);
    GoneIsNeutral(s.trace, id);
  }

  lemma GoneIsNeutral(t: Trace, id: StreamId)
    ensures forall i :: var u := Then(t, Gone(id));
              && WasOpened(u, i) == WasOpened(t, i) && Stage(u, i) == Stage(t, i) && NoOrphan(u, i) == NoOrphan(t, i)
  {
  }

  lemma MarkClosedRecent(s: Conn, id: StreamId)
    requires Clear(s) && id !in s.closedStreams
    ensures var r := MarkClosed(s, id);
            && r.closedOrder == Recent(s.closedOrder + [id])
            && r.trace == Then(s.trace, Gone(id))
  {
  }

  // Sending data

  lemma SendFrontCalm(s: Conn, id: StreamId, n: nat, cost: nat) returns (gone: seq<StreamId>)
    requires Clear(s) && Sendable(s, id, n, cost)
    ensures Calm(s, SendFront(s, id, n, cost), gone) && Clear(SendFront(s, id, n, cost))
    ensures !s.streams[id].taskDone ==> Live(SendFront(s, id, n, cost), id) && !SendFront(s, id, n, cost).streams[id].taskDone
  {
    hide Calm, Clear, Retire;
    var w := WriteData(s, id, n, cost);
    AsideCalm(s, w);
    gone := [];
    if EndsStream(s, id, n) && s.streams[id].taskDone {
      RetireCalm(w, id);
      CalmThen(s, w, Retire(w, id), [], [id]);
      gone := [] + [id];
    }
  }

  lemma {:induction false} PumpCalm(s: Conn, id: StreamId) returns (gone: seq<StreamId>)
    requires Clear(s) && s.maxFrame > 0
    ensures Calm(s, Pump(s, id), gone) && Clear(Pump(s, id))
    ensures Live(s, id) && !s.streams[id].taskDone ==> Live(Pump(s, id), id)
    decreases Work(s, id), 0
  {
    hide Calm, Clear, SendFront;
    if Queued(s, id) && s.streams[id].pending[0].data == [] {
      gone := SendThenPump(s, id, 0, SendFront(s, id, 0, 0));
    } else if Queued(s, id) && Available(s, id) > 0 {
      var n := Min(Fit(s, id), s.maxFrame);
      if n == |s.streams[id].pending[0].data| || n != Fit(s, id) {
        gone := SendThenPump(s, id, n, SendFront(s, id, n, 0));
      } else {
        gone := SendFrontCalm(s, id, n, 0);
      }
    } else {
      gone := [];
      Stays(s);
    }
  }

  lemma {:induction false} SendThenPump(s: Conn, id: StreamId, n: nat, s1: Conn) returns (gone: seq<StreamId>)
    requires Clear(s) && s.maxFrame > 0 && Sendable(s, id, n, 0) && s1 == SendFront(s, id, n, 0)
    ensures s1.maxFrame > 0 && Calm(s, Pump(s1, id), gone) && Clear(Pump(s1, id))
    ensures !s.streams[id].taskDone ==> Live(Pump(s1, id), id)
    decreases Work(s1, id), 1
  {
    hide Calm, Clear, Pump;
    SenderPour.SendFrontConfig(s, id, n, 0);
    var first := SendFrontCalm(s, id, n, 0);
    var later := PumpCalm(s1, id);
    CalmThen(s, s1, Pump(s1, id), first, later);
    gone := first + later;
  }

  lemma {:induction false} TurnCalm(s: Conn, id: StreamId) returns (gone: seq<StreamId>)
    requires Clear(s) && s.maxFrame > 0
    ensures Calm(s, Turn(s, id), gone) && Clear(Turn(s, id))
    decreases Work(s, id)
  {
    hide Calm, Clear, SendFront;
    if Queued(s, id) && s.streams[id].pending[0].data == [] {
      var s1 := SendFront(s, id, 0, 0);
      SenderPour.SendFrontConfig(s, id, 0, 0);
      var first := SendFrontCalm(s, id, 0, 0);
      var later := TurnCalm(s1, id);
      CalmThen(s, s1, Turn(s1, id), first, later);
      gone := first + later;
    } else if Queued(s, id) && s.streams[id].deficit > 0 && Available(s, id) > 0 {
      var n := Min(Min(Fit(s, id), s.streams[id].deficit), s.maxFrame);
      gone := SendFrontCalm(s, id, n, n);
    } else {
      gone := [];
      Stays(s);
    }
  }

  lemma VisitCalm(s: Conn, id: StreamId, quantum: nat) returns (gone: seq<StreamId>)
    requires Clear(s) && s.maxFrame > 0 && Live(s, id)
    ensures Calm(s, Visit(s, id, quantum), gone) && Clear(Visit(s, id, quantum))
  {
    hide Calm, Clear, Turn;
    var s1 := AddDeficit(s, id, quantum);
    AsideCalm(s, s1);
    gone := TurnCalm(s1, id);
    CalmThen(s, s1, Turn(s1, id), [], gone);
    assert [] + gone == gone;
  }

  lemma {:induction false} RoundCalm(s: Conn, ids: seq<StreamId>, quantum: nat) returns (gone: seq<StreamId>)
    requires Clear(s) && s.maxFrame > 0
    ensures Calm(s, Round(s, ids, quantum).state, gone) && Clear(Round(s, ids, quantum).state)
    decreases |ids|
  {
    hide Calm, Clear, Round, Visit;
    if ids == [] {
      RoundEnds(s, quantum);
      gone := [];
      Stays(s);
    } else if !Hungry(s, ids[0]) {
      RoundSkips(s, ids, quantum);
      gone := RoundCalm(s, ids[1..], quantum);
    } else {
      var s1 := Visit(s, ids[0], quantum);
      gone := VisitCalm(s, ids[0], quantum);
      if s1.connWindow <= 0 {
        RoundHalts(s, ids, quantum);
      } else {
        RoundUnfolds(s, ids, quantum);
        VisitConfig(s, ids[0], quantum);
        var later := RoundCalm(s1, ids[1..], quantum);
        CalmThen(s, s1, Round(s1, ids[1..], quantum).state, gone, later);
        gone := gone + later;
      }
    }
  }

  lemma VisitConfig(s: Conn, id: StreamId, quantum: nat)
    requires s.maxFrame > 0 && Live(s, id)
    ensures Visit(s, id, quantum).maxFrame == s.maxFrame
  {
  }

  lemma {:induction false} RoundsCalm(s: Conn, ids: seq<StreamId>, quantum: nat) returns (gone: seq<StreamId>)
    requires Clear(s) && s.maxFrame > 0
    ensures Calm(s, Rounds(s, ids, quantum), gone) && Clear(Rounds(s, ids, quantum))
    decreases if s.connWindow > 0 then s.connWindow else 0
  {
    hide Calm, Clear, Round;
    if s.connWindow <= 0 || ids == [] {
      gone := [];
      Stays(s);
    } else {
      var r := Round(s, ids, quantum);
      gone := RoundCalm(s, ids, quantum);
      if r.progress {
        var later := RoundsCalm(r.state, r.next, quantum);
        CalmThen(s, r.state, Rounds(r.state, r.next, quantum), gone, later);
        gone := gone + later;
      }
    }
  }

  // Frames from the peer

  lemma StreamErrorCalm(s: Conn, id: StreamId, code: nat, counted: bool) returns (gone: seq<StreamId>)
    requires Clear(s) && Live(s, id)
    ensures Calm(s, StreamError(s, id, code, counted), gone)
  {
    hide Calm, Clear, Retire;
    gone := [];
    if counted && s.limits.maxLocalResets.Some? && s.localErrorResets >= s.limits.maxLocalResets.value {
      AsideCalm(s, RaiseGoAway(s));
    } else {
      var s1 := Emit(if counted then s.(localErrorResets := s.localErrorResets + 1) else s, ResetFrame(id, code));
      AsideCalm(s, s1);
      RetireCalm(s1, id);
      CalmThen(s, s1, Retire(s1, id), [], [id]);
      gone := [] + [id];
    }
  }

  lemma ConnUpdateCalm(s: Conn, inc: nat, ids: seq<StreamId>) returns (gone: seq<StreamId>)
    requires Clear(s) && s.maxFrame > 0
    ensures Calm(s, OnConnUpdate(s, inc, ids), gone)
  {
    hide Calm, Clear, Rounds;
    gone := [];
    if inc == 0 {
      Stays(s);
    } else if s.connWindow > MAX_WINDOW - inc {
      AsideCalm(s, RaiseGoAway(s));
    } else {
      var s1 := WithConnCredit(s, inc);
      AsideCalm(s, s1);
      gone := RoundsCalm(s1, ids, s1.maxFrame);
      CalmThen(s, s1, Drain(s1, ids), [], gone);
      assert [] + gone == gone;
    }
  }

  lemma StreamUpdateCalm(s: Conn, id: StreamId, inc: nat) returns (gone: seq<StreamId>)
    requires Clear(s) && s.maxFrame > 0
    ensures Calm(s, OnStreamUpdate(s, id, inc), gone)
  {
    hide Calm, Clear, Pump, StreamError;
    gone := [];
    if inc == 0 || (!Live(s, id) && id in s.closedStreams) {
      Stays(s);
    } else if !Live(s, id) {
      AsideCalm(s, RaiseGoAway(s));
    } else if s.streams[id].sendWindow > MAX_WINDOW - inc {
      gone := StreamErrorCalm(s, id, 3, true);
    } else {
      var e := s.streams[id];
      var s1 := Note(s.(streams := s.streams[id := e.(sendWindow := e.sendWindow + inc)]), StreamCredit(id, inc));
      AsideCalm(s, s1);
      gone := PumpCalm(s1, id);
      CalmThen(s, s1, Pump(s1, id), [], gone);
      assert [] + gone == gone;
    }
  }

  lemma SetInitialWindowCalm(s: Conn, value: nat)
    requires Clear(s)
    ensures Calm(s, SetInitialWindow(s, value), []) && Clear(SetInitialWindow(s, value))
  {
    hide Calm, Clear, Overflows;
    var s1 := Note(s.(initialWindow := value, streams := ShiftWindows(s.streams, value - s.initialWindow)),
                   InitialWindow(value));
    assert s1.streams.Keys == s.streams.Keys;
    AsideCalm(s, s1);
    if Overflows(s1.streams) {
      AsideCalm(s1, RaiseGoAway(s1));
      CalmThen(s, s1, RaiseGoAway(s1), [], []);
      var none: seq<StreamId> := [];
      assert none + none == none;
    }
  }

  lemma {:induction false} ApplySettingsCalm(s: Conn, settings: seq<Setting>)
    requires Clear(s) && s.maxFrame > 0
    ensures Calm(s, ApplySettings(s, settings), []) && Clear(ApplySettings(s, settings))
    decreases |settings|
  {
    hide Calm, Clear, SetInitialWindow;
    var none: seq<StreamId> := [];
    assert none + none == none;
    if settings == [] {
      Stays(s);
    } else if settings[0].id == 4 {
      var s1 := SetInitialWindow(s, settings[0].value);
      SetInitialWindowCalm(s, settings[0].value);
      SameMaxFrame(s, settings[0].value);
      ApplySettingsCalm(s1, settings[1..]);
      CalmThen(s, s1, ApplySettings(s1, settings[1..]), none, none);
    } else if settings[0].id == 5 {
      if DEFAULT_MAX_FRAME <= settings[0].value <= MAX_FRAME_LIMIT {
        var s1 := Note(s.(maxFrame := settings[0].value), MaxFrame(settings[0].value));
        AsideCalm(s, s1);
        ApplySettingsCalm(s1, settings[1..]);
        CalmThen(s, s1, ApplySettings(s1, settings[1..]), none, none);
      } else {
        AsideCalm(s, RaiseGoAway(s));
      }
    } else {
      ApplySettingsCalm(s, settings[1..]);
    }
  }

  lemma SameMaxFrame(s: Conn, value: nat)
    ensures SetInitialWindow(s, value).maxFrame == s.maxFrame
  {
  }

  lemma SettingsCalm(s: Conn, settings: seq<Setting>)
    requires Clear(s) && s.maxFrame > 0
    ensures Calm(s, OnSettings(s, settings), [])
  {
    hide Calm, Clear, ApplySettings;
    var s1 := ApplySettings(s, settings);
    ApplySettingsCalm(s, settings);
    AsideCalm(s1, Emit(s1, SettingsAck));
    CalmThen(s, s1, Emit(s1, SettingsAck), [], []);
    var none: seq<StreamId> := [];
    assert none + none == none;
  }

  lemma ResetCalm(s: Conn, id: StreamId) returns (gone: seq<StreamId>)
    requires Clear(s)
    ensures Calm(s, OnReset(s, id), gone)
  {
    hide Calm, Clear, Retire, MarkClosed;
    gone := [];
    if !Live(s, id) {
      if id in s.closedStreams {
        Stays(s);
      } else {
        AsideCalm(s, RaiseGoAway(s));
      }
    } else if s.streams[id].responseStarted {
      RetireOrder(s, id);
      RetireCalm(s, id);
      gone := [id];
    } else if s.limits.maxAcceptResets.Some? && s.acceptResets >= s.limits.maxAcceptResets.value {
      DroppedCalm(s, id);
    } else {
      var s1 := s.(acceptResets := s.acceptResets + 1);
      AsideCalm(s, s1);
      RetireOrder(s1, id);
      RetireCalm(s1, id);
      CalmThen(s, s1, Retire(s1, id), [], [id]);
      gone := [] + [id];
    }
  }

  lemma DroppedCalm(s: Conn, id: StreamId)
    requires Clear(s)
    ensures Calm(s, RaiseGoAway(s.(streams := s.streams - {id})), [])
  {
    Stays(s);
  }

  // Task messages

  predicate TaskOrdered(msgs: seq<Msg>) {
    forall i, j :: 0 <= i < j < |msgs| ==> MayFollow(Rank(msgs[i]), msgs[j])
  }

  predicate AllClosed(msgs: seq<Msg>) {
    forall i :: 0 <= i < |msgs| ==> msgs[i].Closed?
  }

  /** Messages of a stream not yet handled: those in hand, then those in its channel. */
  function Todo(s: Conn, id: StreamId, h: Hand): seq<Msg>
    requires Live(s, id)
  {
    if h.Holding? && h.id == id then h.msgs + s.streams[id].inbox else s.streams[id].inbox
  }

  /** A stream and what its task still has to say agree with what the task has said. */
  predicate InOrder(s: Conn, id: StreamId, h: Hand)
    requires Live(s, id)
  {
    var todo := Todo(s, id, h);
    && TaskOrdered(todo)
    && (forall i :: 0 <= i < |todo| ==> Rank(todo[i]) <= Stage(s.trace, id))
    && (s.streams[id].taskDone ==> todo == [] && Stage(s.trace, id) == 2)
  }

  ghost predicate OrderInv(s: Conn, h: Hand) {
    && (forall id :: Live(s, id) ==> InOrder(s, id, h))
    && (h.Holding? && !Live(s, h.id) ==> AllClosed(h.msgs))
    && (h.Holding? && Live(s, h.id) ==> s.streams[h.id].inbox == [])
  }

  /** The memory is the last closed streams; on a connection that is not closing, every stream that is gone was closed. */
  ghost predicate MemoryInv(s: Conn) {
    && s.closedOrder == Recent(Closings(s.trace)) && NoDup(Closings(s.trace))
    && (forall id :: id in Closings(s.trace) ==> WasOpened(s.trace, id) && !Live(s, id))
    && (!s.closing ==> forall id :: WasOpened(s.trace, id) && !Live(s, id) ==> id in Closings(s.trace))
    && (forall id :: NoOrphan(s.trace, id))
  }

  ghost predicate TaskInv(s: Conn, h: Hand) {
    OrderInv(s, h) && MemoryInv(s)
  }

  lemma CalmMemory(s: Conn, r: Conn, gone: seq<StreamId>)
    requires MemoryInv(s) && Calm(s, r, gone) && OpenedLive(s)
    ensures MemoryInv(r)
  {
    hide WasOpened, NoOrphan, Stage;
    RecentConcat(Closings(s.trace), gone);
    forall id | id in Closings(s.trace)
      ensures id !in gone
    {
    }
    NoDupConcat(Closings(s.trace), gone);
  }

  lemma CalmOrder(s: Conn, r: Conn, gone: seq<StreamId>)
    requires OrderInv(s, Empty) && Calm(s, r, gone)
    ensures OrderInv(r, Empty)
  {
    hide WasOpened, NoOrphan, Stage;
    forall id | Live(r, id)
      ensures InOrder(r, id, Empty)
    {
      assert InOrder(s, id, Empty);
    }
  }

  lemma CalmKeeps(s: Conn, r: Conn, gone: seq<StreamId>)
    requires TaskInv(s, Empty) && Calm(s, r, gone) && LifeInv(s)
    ensures TaskInv(r, Empty)
  {
    hide Calm, OrderInv, MemoryInv;
    LifeOpened(s);
    CalmMemory(s, r, gone);
    CalmOrder(s, r, gone);
  }

  lemma LifeClear(s: Conn)
    requires LifeInv(s)
    ensures Clear(s)
  {
  }

  lemma LifeOpened(s: Conn)
    requires LifeInv(s)
    ensures OpenedLive(s)
  {
  }

  /** Handling a message takes it out of the hand. */
  lemma CalmHand(s: Conn, r: Conn, gone: seq<StreamId>, id: StreamId, msgs: seq<Msg>)
    requires OrderInv(s, Holding(id, msgs)) && Calm(s, r, gone) && msgs != []
    requires Live(r, id) || AllClosed(msgs[1..])
    ensures OrderInv(r, Holding(id, msgs[1..]))
  {
    hide WasOpened, NoOrphan, Stage;
    var h, h1 := Holding(id, msgs), Holding(id, msgs[1..]);
    forall i | Live(r, i)
      ensures InOrder(r, i, h1)
    {
      assert InOrder(s, i, h);
      if i == id {
        assert msgs + [] == msgs && msgs[1..] + [] == msgs[1..];
      }
    }
  }

  lemma {:induction false} StageBound(t: Trace, id: StreamId)
    ensures Stage(t, id) <= 2
  {
    if t.Then? {
      StageBound(t.prev, id);
    }
  }

  /** While a message is in hand for a live stream its task is not done. */
  lemma HandLive(s: Conn, id: StreamId, msgs: seq<Msg>)
    requires OrderInv(s, Holding(id, msgs)) && msgs != [] && Live(s, id)
    ensures !s.streams[id].taskDone && s.streams[id].inbox == []
    ensures TaskOrdered(msgs) && Rank(msgs[0]) <= Stage(s.trace, id) <= 2
    ensures msgs[0].Closed? ==> msgs[1..] == []
    ensures msgs[0].Reset? ==> AllClosed(msgs[1..])
  {
    StageBound(s.trace, id);
    assert InOrder(s, id, Holding(id, msgs));
    assert msgs + [] == msgs;
    forall j | 0 <= j < |msgs| - 1
      ensures MayFollow(Rank(msgs[0]), msgs[1..][j])
    {
      assert msgs[1..][j] == msgs[j + 1];
    }
    if msgs[1..] != [] {
      assert MayFollow(Rank(msgs[0]), msgs[1..][0]);
    }
  }

  lemma PlainMsgCalm(s: Conn, id: StreamId, m: Msg) returns (gone: seq<StreamId>)
    requires Clear(s) && s.maxFrame > 0 && Live(s, id) && !s.streams[id].taskDone && !m.Closed?
    ensures Calm(s, OnMsg(s, id, m), gone) && Clear(OnMsg(s, id, m)) && (!m.Reset? ==> Live(OnMsg(s, id, m), id))
  {
    hide Calm, Clear, Pump, Retire;
    gone := [];
    match m
    case Informational => AsideCalm(s, OnMsg(s, id, m));
    case Headers(_) => AsideCalm(s, OnMsg(s, id, m));
    case Trailers => AsideCalm(s, OnMsg(s, id, m));
    case Data(chunk) => gone := DataMsgCalm(s, id, chunk);
    case Reset(code) => gone := ResetMsgCalm(s, id, code);
  }

  lemma DataMsgCalm(s: Conn, id: StreamId, chunk: Chunk) returns (gone: seq<StreamId>)
    requires Clear(s) && s.maxFrame > 0 && Live(s, id) && !s.streams[id].taskDone
    ensures var r := OnMsg(s, id, Data(chunk)); Calm(s, r, gone) && Clear(r) && Live(r, id)
  {
    hide Calm, Clear, Pump;
    gone := [];
    if s.streams[id].localEnded {
      Stays(s);
    } else {
      var s1 := WithChunk(s, id, chunk);
      AsideCalm(s, s1);
      gone := PumpCalm(s1, id);
      CalmThen(s, s1, Pump(s1, id), [], gone);
      assert [] + gone == gone;
    }
  }

  lemma ResetMsgCalm(s: Conn, id: StreamId, code: nat) returns (gone: seq<StreamId>)
    requires Clear(s) && s.maxFrame > 0 && Live(s, id)
    ensures var r := OnMsg(s, id, Reset(code)); Calm(s, r, gone) && Clear(r)
  {
    hide Calm, Clear, Retire;
    var s1 := Emit(s, ResetFrame(id, code));
    AsideCalm(s, s1);
    RetireCalm(s1, id);
    CalmThen(s, s1, Retire(s1, id), [], [id]);
    gone := [] + [id];
  }

  function TaskClosed(s: Conn, id: StreamId): Conn
    requires Live(s, id)
  {
    s.(streams := s.streams[id := s.streams[id].(taskDone := true)])
  }

  /** The last message of a task: its entry is marked. */
  lemma ClosedOrder(s: Conn, id: StreamId, msgs: seq<Msg>)
    requires OrderInv(s, Holding(id, msgs)) && msgs != [] && msgs[0].Closed? && Live(s, id)
    ensures OrderInv(TaskClosed(s, id), Holding(id, msgs[1..]))
  {
    hide Stage;
    HandLive(s, id, msgs);
    var r, h1 := TaskClosed(s, id), Holding(id, msgs[1..]);
    forall i | Live(r, i)
      ensures InOrder(r, i, h1)
    {
      assert InOrder(s, i, Holding(id, msgs));
    }
  }

  lemma TaskClosedMemory(s: Conn, id: StreamId)
    requires Live(s, id) && MemoryInv(s) && Clear(s)
    ensures MemoryInv(TaskClosed(s, id)) && Clear(TaskClosed(s, id))
  {
    hide WasOpened, NoOrphan, Closings, Recent, NoDup, Memory;
    forall i ensures Live(TaskClosed(s, id), i) == Live(s, i) {
    }
  }

  /** What handling a message keeps: the task invariant with one message less in hand. */
  ghost predicate Kept(s: Conn, id: StreamId, rest: seq<Msg>) {
    TaskInv(s, Holding(id, rest)) && Clear(s) && OpenedLive(s)
  }

  ghost predicate OpenedLive(s: Conn) {
    forall id :: Live(s, id) ==> WasOpened(s.trace, id)
  }

  lemma CalmOpened(s: Conn, r: Conn, gone: seq<StreamId>)
    requires OpenedLive(s) && Calm(s, r, gone)
    ensures OpenedLive(r)
  {
    hide WasOpened, Stage, NoOrphan;
  }

  lemma ClosedOrdered(s: Conn, id: StreamId, msgs: seq<Msg>)
    requires Kept(s, id, msgs) && msgs != [] && msgs[0].Closed? && Live(s, id) && s.maxFrame > 0
    ensures Kept(OnMsg(s, id, Closed), id, msgs[1..])
  {
    hide OrderInv, MemoryInv, Calm, Clear, Retire;
    HandLive(s, id, msgs);
    ClosedOrder(s, id, msgs);
    TaskClosedMemory(s, id);
    var s1 := TaskClosed(s, id);
    if s.streams[id].localEnded {
      RetireCalm(s1, id);
      CalmMemory(s1, Retire(s1, id), [id]);
      RetiredHand(s1, id, [id]);
      CalmOpened(s1, Retire(s1, id), [id]);
    }
  }

  /** With nothing left in hand a calm change keeps the order. */
  lemma RetiredHand(s: Conn, id: StreamId, gone: seq<StreamId>)
    requires OrderInv(s, Holding(id, [])) && Calm(s, Retire(s, id), gone)
    ensures OrderInv(Retire(s, id), Holding(id, []))
  {
    hide WasOpened, NoOrphan, Stage, Retire;
    var r, h := Retire(s, id), Holding(id, []);
    forall i | Live(r, i)
      ensures InOrder(r, i, h)
    {
      assert InOrder(s, i, h);
    }
  }

  /** `Closed` for a stream that its reset already removed changes nothing. */
  lemma LateClosed(s: Conn, id: StreamId, msgs: seq<Msg>)
    requires OrderInv(s, Holding(id, msgs)) && msgs != [] && !Live(s, id) && s.maxFrame > 0
    ensures OnMsg(s, id, msgs[0]) == s && OrderInv(s, Holding(id, msgs[1..]))
  {
    hide Stage;
    forall i | Live(s, i)
      ensures InOrder(s, i, Holding(id, msgs[1..]))
    {
      assert InOrder(s, i, Holding(id, msgs));
    }
  }

  lemma OnMsgOrdered(s: Conn, id: StreamId, msgs: seq<Msg>)
    requires Kept(s, id, msgs) && msgs != [] && s.maxFrame > 0
    ensures Kept(OnMsg(s, id, msgs[0]), id, msgs[1..])
  {
    hide OrderInv, MemoryInv, Calm, Clear, OpenedLive, OnMsg;
    var m := msgs[0];
    if !Live(s, id) {
      LateClosed(s, id, msgs);
      return;
    }
    HandLive(s, id, msgs);
    if m.Closed? {
      ClosedOrdered(s, id, msgs);
    } else {
      var gone := PlainMsgCalm(s, id, m);
      CalmMemory(s, OnMsg(s, id, m), gone);
      CalmHand(s, OnMsg(s, id, m), gone, id, msgs);
      CalmOpened(s, OnMsg(s, id, m), gone);
    }
  }

  lemma {:induction false} OnMsgsOrdered(s: Conn, id: StreamId, msgs: seq<Msg>)
    requires Kept(s, id, msgs) && s.maxFrame > 0
    ensures Kept(OnMsgs(s, id, msgs), id, [])
    decreases |msgs|
  {
    hide Kept, OnMsg;
    if msgs != [] {
      OnMsgOrdered(s, id, msgs);
      OnMsgsOrdered(OnMsg(s, id, msgs[0]), id, msgs[1..]);
    }
  }

  // Collecting from the channels

  /** Folding brings no message of a new rank. */
  lemma {:induction false} FoldRanks(msgs: seq<Msg>, ranks: set<nat>)
    requires forall i :: 0 <= i < |msgs| ==> Rank(msgs[i]) in ranks
    ensures forall i :: 0 <= i < |Fold(msgs)| ==> Rank(Fold(msgs)[i]) in ranks
    decreases |msgs|
  {
    if |msgs| >= 2 && msgs[0].Data? && msgs[1] == Data(Chunk([], true)) {
      FoldRanks(msgs[2..], ranks);
    } else if msgs != [] {
      FoldRanks(msgs[1..], ranks);
    }
  }

  /** The ranks that may follow a message of the given rank. */
  function After(rank: nat): set<nat> {
    if rank == 0 then {0, 1, 2} else if rank == 1 then {2} else {}
  }

  lemma {:induction false} FoldOrdered(msgs: seq<Msg>)
    requires TaskOrdered(msgs)
    ensures TaskOrdered(Fold(msgs))
    decreases |msgs|
  {
    if |msgs| >= 2 && msgs[0].Data? && msgs[1] == Data(Chunk([], true)) {
      FoldRest(msgs, 2);
    } else if msgs != [] {
      FoldRest(msgs, 1);
    }
  }

  lemma {:induction false} FoldRest(msgs: seq<Msg>, n: nat)
    requires TaskOrdered(msgs) && 1 <= n <= |msgs|
    ensures var rest := Fold(msgs[n..]);
            TaskOrdered(rest) && forall j :: 0 <= j < |rest| ==> MayFollow(Rank(msgs[0]), rest[j])
    decreases |msgs|, 0
  {
    var rest := msgs[n..];
    assert forall i :: 0 <= i < |rest| ==> rest[i] == msgs[i + n];
    FoldOrdered(rest);
    FoldRanks(rest, After(Rank(msgs[0])));
  }

  lemma PickedUp(s: Conn, id: StreamId)
    requires TaskInv(s, Empty) && Live(s, id)
    ensures OrderInv(Emptied(s, id), Holding(id, Fold(s.streams[id].inbox)))
  {
    hide MemoryInv, Stage, Fold;
    var r, msgs := Emptied(s, id), Fold(s.streams[id].inbox);
    assert InOrder(s, id, Empty);
    FoldOrdered(s.streams[id].inbox);
    FoldBounded(s.streams[id].inbox, Stage(s.trace, id));
    FoldNothing();
    forall i | Live(r, i)
      ensures InOrder(r, i, Holding(id, msgs))
    {
      assert InOrder(s, i, Empty);
      if i == id {
        assert msgs + [] == msgs;
      }
    }
  }

  function UpTo(stage: nat): set<nat> {
    if stage == 0 then {0} else if stage == 1 then {0, 1} else {0, 1, 2}
  }

  lemma FoldBounded(msgs: seq<Msg>, stage: nat)
    requires forall i :: 0 <= i < |msgs| ==> Rank(msgs[i]) <= stage
    ensures forall i :: 0 <= i < |Fold(msgs)| ==> Rank(Fold(msgs)[i]) <= stage
  {
    FoldRanks(msgs, UpTo(stage));
  }

  lemma FoldNothing()
    ensures Fold([]) == []
  {
  }

  lemma EmptiedMemory(s: Conn, id: StreamId)
    requires MemoryInv(s) && Clear(s) && OpenedLive(s) && Live(s, id)
    ensures MemoryInv(Emptied(s, id)) && Clear(Emptied(s, id)) && OpenedLive(Emptied(s, id))
  {
    hide WasOpened, NoOrphan, Closings, Recent, NoDup, Memory;
    forall i ensures Live(Emptied(s, id), i) == Live(s, i) {
    }
  }

  lemma HandDown(s: Conn, id: StreamId)
    requires OrderInv(s, Holding(id, []))
    ensures OrderInv(s, Empty)
  {
    forall i | Live(s, i)
      ensures InOrder(s, i, Empty)
    {
      assert InOrder(s, i, Holding(id, []));
    }
  }

  /** Between batches: the task invariant with nothing in hand. */
  ghost predicate Quiet(s: Conn) {
    TaskInv(s, Empty) && Clear(s) && OpenedLive(s)
  }

  lemma CollectOrdered(s: Conn, id: StreamId)
    requires Quiet(s) && s.maxFrame > 0
    ensures Quiet(Collect(s, id))
  {
    hide OrderInv, MemoryInv, Clear, OpenedLive, OnMsgs, Fold;
    if Live(s, id) && s.streams[id].pending == [] {
      PickedUp(s, id);
      EmptiedMemory(s, id);
      OnMsgsOrdered(Emptied(s, id), id, Fold(s.streams[id].inbox));
      HandDown(Collect(s, id), id);
    }
  }

  lemma {:induction false} OnWakeOrdered(s: Conn, ids: seq<StreamId>)
    requires Quiet(s) && s.maxFrame > 0
    ensures Quiet(OnWake(s, ids))
    decreases |ids|
  {
    hide Quiet, Collect;
    if ids != [] {
      CollectOrdered(s, ids[0]);
      OnWakeOrdered(Collect(s, ids[0]), ids[1..]);
    }
  }

  // Opening and task sends

  /** A change of nothing the invariant depends on. */
  lemma AsideKeeps(s: Conn, r: Conn)
    requires Quiet(s) && LifeInv(s) && Aside(s, r)
    ensures TaskInv(r, Empty)
  {
    hide TaskInv, LifeInv, Aside, Calm, Clear, OpenedLive;
    AsideCalm(s, r);
    CalmKeeps(s, r, []);
  }

  lemma FreshId(s: Conn, id: StreamId)
    requires LifeInv(s)
    ensures id > s.highest ==> !Live(s, id) && !WasOpened(s.trace, id)
  {
    if id > s.highest {
      UntouchedIsBlank(s.trace, id);
    }
  }

  lemma OpenOrdered(s: Conn, id: StreamId)
    requires Quiet(s) && LifeInv(s)
    ensures TaskInv(OpenStream(s, id), Empty)
  {
    hide TaskInv, LifeInv, Quiet, WasOpened;
    FreshId(s, id);
    var s1 := s.(highest := id);
    if id == 0 || id % 2 == 0 || id <= s.highest {
      AsideKeeps(s, RaiseGoAway(s));
    } else if |s.streams| >= s.limits.maxConcurrent {
      AsideKeeps(s, Emit(s1, ResetFrame(id, 7)));
    } else {
      AsideKeeps(s, s1);
      EntersOrdered(s1, id);
    }
  }

  lemma EntersOrdered(s: Conn, id: StreamId)
    requires TaskInv(s, Empty) && !WasOpened(s.trace, id) && !Live(s, id)
    ensures var e := Entry(s.initialWindow, [], 0, false, false, false, false, []);
            TaskInv(Note(s.(streams := s.streams[id := e]), Opened(id)), Empty)
  {
    var r := Note(s.(streams := s.streams[id := Entry(s.initialWindow, [], 0, false, false, false, false, [])]), Opened(id));
    forall i | Live(r, i)
      ensures InOrder(r, i, Empty)
    {
      if i != id {
        assert InOrder(s, i, Empty);
      }
    }
    assert forall i :: WasOpened(r.trace, i) == (i == id || WasOpened(s.trace, i));
    assert forall i :: NoOrphan(r.trace, i) == NoOrphan(s.trace, i);
  }

  /** A task sends nothing after `Closed`, and only `Closed` after a reset. */
  predicate TaskMay(s: Conn, e: Event) {
    e.TaskSend? && Live(s, e.id) ==> MayFollow(Stage(s.trace, e.id), e.msg)
  }

  lemma TaskSendOrdered(s: Conn, id: StreamId, m: Msg)
    requires TaskInv(s, Empty) && TaskMay(s, TaskSend(id, m))
    ensures TaskInv(OnTaskSend(s, id, m), Empty)
  {
    if Live(s, id) {
      var r := OnTaskSend(s, id, m);
      assert InOrder(s, id, Empty);
      forall i | Live(r, i)
        ensures InOrder(r, i, Empty)
      {
        if i != id {
          assert InOrder(s, i, Empty);
        }
      }
      TaskSendMemory(s, id, m);
    }
  }

  lemma TaskSendMemory(s: Conn, id: StreamId, m: Msg)
    requires MemoryInv(s) && Live(s, id)
    ensures MemoryInv(OnTaskSend(s, id, m))
  {
    var r := OnTaskSend(s, id, m);
    assert forall i :: Live(r, i) == Live(s, i);
    assert forall i :: WasOpened(r.trace, i) == WasOpened(s.trace, i) && NoOrphan(r.trace, i) == NoOrphan(s.trace, i);
  }

  // Runs

  lemma StepOrdered(s: Conn, e: Event)
    requires TaskInv(s, Empty) && LifeInv(s) && s.maxFrame > 0 && Possible(s, e) && TaskMay(s, e)
    ensures TaskInv(Step(s, e), Empty)
  {
    hide TaskInv, LifeInv, Clear, OpenedLive, OpenStream, OnTaskSend, OnWake, Calm, Possible, TaskMay;
    LifeClear(s);
    LifeOpened(s);
    if e.TaskSend? {
      TaskSendOrdered(s, e.id, e.msg);
    } else if e.Wake? {
      OnWakeOrdered(s, e.order);
    } else if e.PeerHeaders? && s.graceful.Some? && e.id > s.graceful.value {
    } else if e.PeerHeaders? && !Live(s, e.id) {
      OpenOrdered(s, e.id);
    } else {
      var gone := EventCalm(s, e);
      CalmKeeps(s, Step(s, e), gone);
    }
  }

  /** Every other event is calm. */
  lemma EventCalm(s: Conn, e: Event) returns (gone: seq<StreamId>)
    requires Clear(s) && s.maxFrame > 0 && Possible(s, e)
    requires !e.TaskSend? && !e.Wake? && (e.PeerHeaders? ==> Live(s, e.id))
    ensures Calm(s, Step(s, e), gone)
  {
    hide Clear, Calm, OnConnUpdate, OnStreamUpdate, OnSettings, OnReset, StreamError, Retire;
    gone := [];
    match e
    case ConnUpdate(inc, order) => gone := ConnUpdateCalm(s, inc, order);
    case StreamUpdate(id, inc) =>
      if id == 0 {
        Stays(s);
      } else {
        gone := StreamUpdateCalm(s, id, inc);
      }
    case Settings(settings) => SettingsCalm(s, settings);
    case PeerHeaders(id) =>
      if s.streams[id].remoteEnded && !(s.graceful.Some? && id > s.graceful.value) {
        gone := StreamErrorCalm(s, id, 5, true);
      } else {
        Stays(s);
      }
    case PeerReset(id) => gone := ResetCalm(s, id);
    case RequestEnd(id) => AsideCalm(s, Step(s, e));
    case RequestFault(id, code, counted) => gone := StreamErrorCalm(s, id, code, counted);
    case RequestGone(id) =>
      RetireCalm(s, id);
      gone := [id];
    case ConnFault => AsideCalm(s, Step(s, e));
    case Shutdown => AsideCalm(s, Step(s, e));
    case Stopped => AsideCalm(s, Step(s, e));
  }

  /** `r` is reached from `s` by the given events, with every task in order. */
  ghost predicate Orderly(s: Conn, events: seq<Event>, r: Conn)
    decreases |events|
  {
    if events == [] then r == s
    else s.maxFrame > 0 && Possible(s, events[0]) && TaskMay(s, events[0]) && Orderly(Step(s, events[0]), events[1..], r)
  }

  lemma {:induction false} OrderlyKeeps(s: Conn, events: seq<Event>, r: Conn)
    requires Inv(s) && NoIdleCredit(s) && TaskInv(s, Empty) && Orderly(s, events, r)
    ensures Inv(r) && NoIdleCredit(r) && TaskInv(r, Empty)
    decreases |events|
  {
    hide FlowInv, LifeInv, BodyInv, NoIdleCredit, TaskInv, Step, Possible, TaskMay;
    if events != [] {
      StepKeeps(s, events[0]);
      StepOrdered(s, events[0]);
      OrderlyKeeps(Step(s, events[0]), events[1..], r);
    }
  }

  lemma StartOrdered(window: nat, limits: Limits)
    ensures TaskInv(Start(window, limits), Empty)
  {
  }

  // What holds after every run of ordered tasks

  /** No block is ever written for a stream that is gone, and every stream gets END_STREAM at most once. */
  lemma OrderedTasksEndOnce(window: nat, limits: Limits, events: seq<Event>, r: Conn, id: StreamId)
    requires window <= MAX_WINDOW && Orderly(Start(window, limits), events, r)
    ensures NoOrphan(r.trace, id) && WireEnds(r.trace, id) <= 1
  {
    StartHolds(window, limits);
    StartOrdered(window, limits);
    OrderlyKeeps(Start(window, limits), events, r);
    assert NoOrphan(r.trace, id) && CleanEnd(r.trace, id);
    NoOrphanEnds(r.trace, id);
    CleanEndsOnce(r.trace, id);
  }

  /** The memory of closed streams is the last 4096 of them, and those are the opened streams that are gone. */
  lemma MemoryIsRecent(window: nat, limits: Limits, events: seq<Event>, r: Conn)
    requires window <= MAX_WINDOW && Orderly(Start(window, limits), events, r)
    ensures r.closedOrder == Recent(Closings(r.trace)) && NoDup(Closings(r.trace))
    ensures forall id :: id in Closings(r.trace) ==> WasOpened(r.trace, id) && !Live(r, id)
    ensures !r.closing ==> forall id :: WasOpened(r.trace, id) && !Live(r, id) ==> id in Closings(r.trace)
  {
    StartHolds(window, limits);
    StartOrdered(window, limits);
    OrderlyKeeps(Start(window, limits), events, r);
  }

  /** A WINDOW_UPDATE for a stream without an entry is tolerated if and only if the stream is among the last 4096 closed. */
  lemma UpdateTolerated(window: nat, limits: Limits, events: seq<Event>, r: Conn, id: StreamId, inc: nat)
    requires window <= MAX_WINDOW && Orderly(Start(window, limits), events, r)
    requires inc > 0 && !r.closing && !Live(r, id) && r.maxFrame > 0
    ensures !OnStreamUpdate(r, id, inc).closing <==> id in Recent(Closings(r.trace))
  {
    MemoryIsRecent(window, limits, events, r);
    StartHolds(window, limits);
    StartOrdered(window, limits);
    OrderlyKeeps(Start(window, limits), events, r);
    assert Memory(r.closedStreams, r.closedOrder);
  }

  /** After any run at all, one for a stream that was never opened, such as a refused one, closes the connection. */
  lemma NeverOpenedNotTolerated(window: nat, limits: Limits, events: seq<Event>, r: Conn, id: StreamId, inc: nat)
    requires window <= MAX_WINDOW && Reaches(Start(window, limits), events, r)
    requires inc > 0 && r.maxFrame > 0 && !WasOpened(r.trace, id)
    ensures OnStreamUpdate(r, id, inc).closing
  {
    StartHolds(window, limits);
    ReachesKeeps(Start(window, limits), events, r);
  }
}
