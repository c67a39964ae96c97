/**
 Stream tasks and the field blocks their messages ask for: which blocks are on
 the wire at any time, in which order, and that the response HEADERS come in
 front of the body.
 */
module SenderTalk {
  import opened Basics
  import opened SendTrace
  import opened Sender
  import opened SenderInvariant
  import opened SenderDrain
  import opened SenderSteps
  import opened SenderRuns
  import opened SenderPour
  import opened SenderLedger
  import SenderOrder

  // What messages ask for

  function Asked(m: Msg): seq<Block> {
    match m
    case Informational => [Block(false, Interim)]
    case Headers(end) => [Block(end, Response)]
    case Trailers => [Block(true, Trailer)]
    case _ => []
  }

  /** The blocks asked for by a list of messages, in order. */
  function AskedBlocks(msgs: seq<Msg>): seq<Block> {
    if msgs == [] then [] else AskedBlocks(msgs[..|msgs| - 1]) + Asked(msgs[|msgs| - 1])
  }

  function Interims(msgs: seq<Msg>): seq<Block> {
    if msgs == [] then []
    else Interims(msgs[..|msgs| - 1]) + if msgs[|msgs| - 1].Informational? then [Block(false, Interim)] else []
  }

  /** What is written for `msgs` when the stream has ended after the first `k` of them: only interim blocks go on. */
  function Written(msgs: seq<Msg>, k: nat): seq<Block>
    requires k <= |msgs|
  {
    AskedBlocks(msgs[..k]) + Interims(msgs[k..])
  }

  /** A message that starts the response. */
  predicate Answers(m: Msg) {
    m.Headers? || m.Data? || m.Trailers?
  }

  predicate Answered(msgs: seq<Msg>) {
    exists i :: 0 <= i < |msgs| && Answers(msgs[i])
  }

  /** A message that ends the stream. */
  predicate Marks(m: Msg) {
    m == Headers(true) || m == Trailers || (m.Data? && m.chunk.end)
  }

  predicate Marked(msgs: seq<Msg>) {
    exists i :: 0 <= i < |msgs| && Marks(msgs[i])
  }

  /** No DATA in front of the first HEADERS. */
  predicate HeadLeads(msgs: seq<Msg>) {
    forall i :: 0 <= i < |msgs| && msgs[i].Data? ==> exists j :: 0 <= j < i && msgs[j].Headers?
  }

  lemma AskedMore(msgs: seq<Msg>, m: Msg)
    ensures AskedBlocks(msgs + [m]) == AskedBlocks(msgs) + Asked(m)
    ensures Interims(msgs + [m]) == Interims(msgs) + if m.Informational? then [Block(false, Interim)] else []
  {
    assert (msgs + [m])[..|msgs|] == msgs;
  }

  /** After the end, one more message adds at most an interim block. */
  lemma WrittenMore(msgs: seq<Msg>, k: nat, m: Msg)
    requires k <= |msgs|
    ensures Written(msgs + [m], k) == Written(msgs, k) + if m.Informational? then [Block(false, Interim)] else []
  {
    hide AskedBlocks, Interims;
    var more := if m.Informational? then [Block(false, Interim)] else [];
    assert (msgs + [m])[..k] == msgs[..k] && (msgs + [m])[k..] == msgs[k..] + [m];
    AskedMore(msgs[k..], m);
    assert AskedBlocks(msgs[..k]) + (Interims(msgs[k..]) + more) == Written(msgs, k) + more;
  }

  lemma WrittenAll(msgs: seq<Msg>)
    ensures Written(msgs, |msgs|) == AskedBlocks(msgs)
  {
    hide AskedBlocks;
    assert msgs[..|msgs|] == msgs && msgs[|msgs|..] == [];
  }

  /** Before it, what the message asks for. */
  lemma WrittenNext(msgs: seq<Msg>, m: Msg)
    ensures Written(msgs + [m], |msgs| + 1) == Written(msgs, |msgs|) + Asked(m)
  {
    hide AskedBlocks, Interims;
    WrittenAll(msgs);
    WrittenAll(msgs + [m]);
    AskedMore(msgs, m);
  }

  /** A HEADERS message asks for the response block. */
  lemma {:induction false} HeadersAsked(msgs: seq<Msg>, j: nat)
    requires j < |msgs| && msgs[j].Headers?
    ensures Block(msgs[j].end, Response) in AskedBlocks(msgs)
    decreases |msgs|
  {
    var n := |msgs| - 1;
    if j < n {
      HeadersAsked(msgs[..n], j);
    }
  }

  lemma MarkedIsAnswered(msgs: seq<Msg>, k: nat)
    requires k <= |msgs| && Marked(msgs[..k])
    ensures Answered(msgs) && Marked(msgs)
  {
    var i :| 0 <= i < k && Marks(msgs[..k][i]);
    assert Marks(msgs[i]) && Answers(msgs[i]);
  }

  // One stream

  /** Messages of the stream not yet handled: those in hand, then those in its channel. */
  function Rest(s: Conn, id: StreamId, h: Hand): seq<Msg>
    requires Live(s, id)
  {
    (if h.Holding? && h.id == id then h.msgs else []) + s.streams[id].inbox
  }

  /** What has been taken from the channel and handled. */
  function Taken(s: Conn, id: StreamId, h: Hand): seq<Msg>
    requires Live(s, id)
  {
    var said, rest := Said(s.trace, id), Rest(s, id, h);
    if |rest| <= |said| then said[..|said| - |rest|] else []
  }

  /** The blocks on the wire are those asked for by what was taken before the end. */
  predicate Shown(t: Trace, id: StreamId, taken: seq<Msg>, k: nat) {
    && k <= |taken| && Blocks(t, id) == Written(taken, k)
    && (if Ended(t, id) then Marked(taken[..k]) else k == |taken|)
  }

  ghost predicate Talk(s: Conn, id: StreamId, h: Hand)
    requires Live(s, id)
  {
    var e, taken := s.streams[id], Taken(s, id, h);
    && Said(s.trace, id) == taken + Rest(s, id, h)
    && EndFlag(s, id)
    && (e.responseStarted <==> Answered(taken))
    && (e.taskDone <==> Closed in taken)
    && (HasEnd(e.pending) ==> Marked(taken))
    && (SenderOrder.TaskOrdered(Said(s.trace, id)) ==> !(e.taskDone && e.localEnded))
    && exists k :: Shown(s.trace, id, taken, k)
  }

  ghost predicate TalkInv(s: Conn, h: Hand) {
    && (forall id :: Live(s, id) ==> Talk(s, id, h))
    && (forall id :: HeadLeads(Said(s.trace, id)) ==> HeadReady(s, id))
  }

  // Steps in which nothing is said, heard or written as a block

  ghost predicate Hush(s: Conn, r: Conn, id: StreamId) {
    Mute(s, r, id) && NoLinger(s, r, id) && Said(r.trace, id) == Said(s.trace, id)
  }

  ghost predicate Hushed(s: Conn, r: Conn) {
    forall id :: Hush(s, r, id)
  }

  lemma PoursHushed(s: Conn, r: Conn)
    requires Pours(s, r)
    ensures Hushed(s, r)
  {
    hide Mute, NoLinger, SameControls, SameFields;
  }

  lemma HushedThen(a: Conn, b: Conn, c: Conn)
    requires Hushed(a, b) && Hushed(b, c)
    ensures Hushed(a, c)
  {
    forall id ensures Hush(a, c, id) {
      assert Hush(a, b, id) && Hush(b, c, id);
      MuteThen(a, b, c, id);
      LingerThen(a, b, c, id);
    }
  }

  lemma LingerThen(a: Conn, b: Conn, c: Conn, id: StreamId)
    requires Mute(b, c, id) && NoLinger(a, b, id) && NoLinger(b, c, id)
    ensures NoLinger(a, c, id)
  {
  }

  lemma HushTalk(s: Conn, r: Conn, id: StreamId, h: Hand)
    requires Live(s, id) && Talk(s, id, h) && Hush(s, r, id) && Live(r, id)
    ensures Talk(r, id, h)
  {
    hide HasEnd, HeadReady, HeadLeads, Marked, Answered, Said, Blocks, Ended, SenderOrder.TaskOrdered, Written;
    var taken := Taken(s, id, h);
    assert Taken(r, id, h) == taken;
    var k: nat :| Shown(s.trace, id, taken, k);
    assert taken[..|taken|] == taken;
    assert Shown(r.trace, id, taken, k);
  }

  lemma HushedTalk(s: Conn, r: Conn, h: Hand)
    requires TalkInv(s, h) && Hushed(s, r)
    ensures TalkInv(r, h)
  {
    hide Talk, HeadReady, HeadLeads;
    forall id | Live(r, id)
      ensures Talk(r, id, h)
    {
      assert Hush(s, r, id);
      HushTalk(s, r, id, h);
    }
    forall id | HeadLeads(Said(r.trace, id))
      ensures HeadReady(r, id)
    {
      assert Hush(s, r, id);
    }
  }

  /** A trace item that is no DATA, no block and no message. */
  predicate Plain(item: Item) {
    match item
    case Sent(DataFrame(_, _, _)) => false
    case Sent(BlockFrame(_, _, _)) => false
    case Handed(_, _) => false
    case _ => true
  }

  predicate SameTalk(a: Entry, b: Entry) {
    && b.pending == a.pending && b.localEnded == a.localEnded && b.taskDone == a.taskDone
    && b.responseStarted == a.responseStarted && b.inbox == a.inbox
  }

  /** Streams may leave and one plain item is recorded. */
  ghost predicate Beside(s: Conn, r: Conn) {
    && (r.trace == s.trace || (r.trace.Then? && r.trace.prev == s.trace && Plain(r.trace.item)))
    && forall id :: Live(r, id) ==> Live(s, id) && SameTalk(s.streams[id], r.streams[id])
  }

  lemma BesideHushed(s: Conn, r: Conn)
    requires Beside(s, r)
    ensures Hushed(s, r)
  {
    forall id ensures Hush(s, r, id) {
      PlainSays(s, r, id);
    }
  }

  lemma PlainSays(s: Conn, r: Conn, id: StreamId)
    requires Beside(s, r)
    ensures Said(r.trace, id) == Said(s.trace, id) && Blocks(r.trace, id) == Blocks(s.trace, id)
    ensures Ended(r.trace, id) == Ended(s.trace, id) && HeadFirst(r.trace, id) == HeadFirst(s.trace, id)
  {
  }

  lemma RetireHushed(s: Conn, id: StreamId)
    ensures Hushed(s, Retire(s, id))
  {
    hide MarkClosed;
    MarkClosedShape(s, id);
    BesideHushed(s, Retire(s, id));
  }

  // Frames from the peer

  lemma StreamErrorHushed(s: Conn, id: StreamId, code: nat, counted: bool)
    ensures Hushed(s, StreamError(s, id, code, counted))
  {
    hide Hushed, Retire;
    if counted && s.limits.maxLocalResets.Some? && s.localErrorResets >= s.limits.maxLocalResets.value {
      BesideHushed(s, RaiseGoAway(s));
    } else {
      var s1 := Emit(if counted then s.(localErrorResets := s.localErrorResets + 1) else s, ResetFrame(id, code));
      BesideHushed(s, s1);
      RetireHushed(s1, id);
      HushedThen(s, s1, Retire(s1, id));
    }
  }

  lemma ConnUpdateHushed(s: Conn, inc: nat, ids: seq<StreamId>)
    requires s.maxFrame > 0
    ensures Hushed(s, OnConnUpdate(s, inc, ids))
  {
    hide Hushed, Rounds, Pours;
    if inc == 0 || s.connWindow > MAX_WINDOW - inc {
      BesideHushed(s, OnConnUpdate(s, inc, ids));
    } else {
      var s1 := WithConnCredit(s, inc);
      BesideHushed(s, s1);
      RoundsPours(s1, ids, s1.maxFrame);
      PoursHushed(s1, Drain(s1, ids));
      HushedThen(s, s1, Drain(s1, ids));
    }
  }

  lemma StreamUpdateHushed(s: Conn, id: StreamId, inc: nat)
    requires s.maxFrame > 0
    ensures Hushed(s, OnStreamUpdate(s, id, inc))
  {
    hide Hushed, Pump, Pours, StreamError;
    if inc == 0 || !Live(s, id) {
      BesideHushed(s, OnStreamUpdate(s, id, inc));
    } else if s.streams[id].sendWindow > MAX_WINDOW - inc {
      StreamErrorHushed(s, id, 3, true);
    } else {
      var e := s.streams[id];
      var s1 := Note(s.(streams := s.streams[id := e.(sendWindow := e.sendWindow + inc)]), StreamCredit(id, inc));
      BesideHushed(s, s1);
      PumpPours(s1, id);
      PoursHushed(s1, Pump(s1, id));
      HushedThen(s, s1, Pump(s1, id));
    }
  }

  lemma InitialWindowHushed(s: Conn, value: nat)
    ensures Hushed(s, SetInitialWindow(s, value)) && SetInitialWindow(s, value).maxFrame == s.maxFrame
  {
    hide Hushed, Overflows, HasEnd, Said, Blocks;
    var s1 := Note(s.(initialWindow := value, streams := ShiftWindows(s.streams, value - s.initialWindow)),
                   InitialWindow(value));
    BesideHushed(s, s1);
    if Overflows(s1.streams) {
      BesideHushed(s1, RaiseGoAway(s1));
      HushedThen(s, s1, RaiseGoAway(s1));
    }
  }

  lemma {:induction false} ApplySettingsHushed(s: Conn, settings: seq<Setting>)
    requires s.maxFrame > 0
    ensures Hushed(s, ApplySettings(s, settings))
    decreases |settings|
  {
    hide Hushed, SetInitialWindow;
    if settings == [] {
      BesideHushed(s, s);
    } else if settings[0].id == 4 {
      var s1 := SetInitialWindow(s, settings[0].value);
      InitialWindowHushed(s, settings[0].value);
      ApplySettingsHushed(s1, settings[1..]);
      HushedThen(s, s1, ApplySettings(s1, settings[1..]));
    } else if settings[0].id == 5 {
      if DEFAULT_MAX_FRAME <= settings[0].value <= MAX_FRAME_LIMIT {
        var s1 := Note(s.(maxFrame := settings[0].value), MaxFrame(settings[0].value));
        BesideHushed(s, s1);
        ApplySettingsHushed(s1, settings[1..]);
        HushedThen(s, s1, ApplySettings(s1, settings[1..]));
      } else {
        BesideHushed(s, RaiseGoAway(s));
      }
    } else {
      ApplySettingsHushed(s, settings[1..]);
    }
  }

  lemma SettingsHushed(s: Conn, settings: seq<Setting>)
    requires s.maxFrame > 0
    ensures Hushed(s, OnSettings(s, settings))
  {
    hide Hushed, ApplySettings;
    var s1 := ApplySettings(s, settings);
    ApplySettingsHushed(s, settings);
    BesideHushed(s1, Emit(s1, SettingsAck));
    HushedThen(s, s1, Emit(s1, SettingsAck));
  }

  lemma ResetHushed(s: Conn, id: StreamId)
    ensures Hushed(s, OnReset(s, id))
  {
    hide Hushed, MarkClosed;
    if Live(s, id) {
      var s1 := s.(streams := s.streams - {id});
      MarkClosedShape(s1, id);
      MarkClosedShape(s1.(acceptResets := s.acceptResets + 1), id);
    }
    BesideHushed(s, OnReset(s, id));
  }

  /** Everything but openings, task messages and wake-ups. */
  lemma EventHushed(s: Conn, e: Event)
    requires s.maxFrame > 0 && !e.TaskSend? && !e.Wake? && (e.PeerHeaders? ==> Live(s, e.id))
    ensures Hushed(s, Step(s, e))
  {
    hide Hushed, OnConnUpdate, OnStreamUpdate, OnSettings, OnReset, StreamError, Retire;
    match e
    case ConnUpdate(inc, order) => ConnUpdateHushed(s, inc, order);
    case StreamUpdate(id, inc) =>
      BesideHushed(s, s);
      StreamUpdateHushed(s, id, inc);
    case Settings(settings) => SettingsHushed(s, settings);
    case PeerHeaders(id) =>
      BesideHushed(s, s);
      StreamErrorHushed(s, id, 5, true);
    case PeerReset(id) => ResetHushed(s, id);
    case RequestFault(id, code, counted) => StreamErrorHushed(s, id, code, counted);
    case RequestGone(id) => RetireHushed(s, id);
    case RequestEnd(id) => BesideHushed(s, Step(s, e));
    case ConnFault => BesideHushed(s, Step(s, e));
    case Shutdown => BesideHushed(s, Step(s, e));
    case Stopped => BesideHushed(s, Step(s, e));
  }

  // Openings and task messages

  lemma OpenTalk(s: Conn, id: StreamId)
    requires TalkInv(s, Empty) && LifeInv(s) && !Live(s, id)
    ensures TalkInv(OpenStream(s, id), Empty)
  {
    hide TalkInv, LifeInv, Hushed;
    if id == 0 || id % 2 == 0 || id <= s.highest || |s.streams| >= s.limits.maxConcurrent {
      BesideHushed(s, OpenStream(s, id));
      HushedTalk(s, OpenStream(s, id), Empty);
    } else {
      var s1 := s.(highest := id);
      BesideHushed(s, s1);
      HushedTalk(s, s1, Empty);
      UntouchedSays(s, id);
      EnterTalk(s1, id);
    }
  }

  lemma {:induction false} UntouchedBlank(t: Trace, id: StreamId)
    requires Untouched(t, id)
    ensures Said(t, id) == [] && Blocks(t, id) == [] && !Ended(t, id)
  {
    match t
    case Begin(_) =>
    case Then(p, _) => UntouchedBlank(p, id);
  }

  lemma UntouchedSays(s: Conn, id: StreamId)
    requires LifeInv(s) && id > s.highest
    ensures Said(s.trace, id) == [] && Blocks(s.trace, id) == [] && !Ended(s.trace, id)
  {
    UntouchedBlank(s.trace, id);
  }

  lemma EnterTalk(s: Conn, id: StreamId)
    requires TalkInv(s, Empty) && Said(s.trace, id) == [] && Blocks(s.trace, id) == [] && !Ended(s.trace, id)
    ensures var e := Entry(s.initialWindow, [], 0, false, false, false, false, []);
            TalkInv(Note(s.(streams := s.streams[id := e]), Item.Opened(id)), Empty)
  {
    hide SenderOrder.TaskOrdered, HeadLeads, Written;
    var e := Entry(s.initialWindow, [], 0, false, false, false, false, []);
    var r := Note(s.(streams := s.streams[id := e]), Item.Opened(id));
    forall i ensures Said(r.trace, i) == Said(s.trace, i) && Blocks(r.trace, i) == Blocks(s.trace, i)
                     && Ended(r.trace, i) == Ended(s.trace, i) && HeadFirst(r.trace, i) == HeadFirst(s.trace, i) {
    }
    forall i | Live(r, i)
      ensures Talk(r, i, Empty)
    {
      if i == id {
        WrittenAll([]);
        assert Shown(r.trace, id, [], 0);
      } else {
        assert Talk(s, i, Empty);
        assert Hush(s, r, i);
        HushTalk(s, r, i, Empty);
      }
    }
    forall i | HeadLeads(Said(r.trace, i))
      ensures HeadReady(r, i)
    {
      assert HeadReady(s, i);
    }
  }

  lemma TaskSendTalk(s: Conn, id: StreamId, m: Msg)
    requires TalkInv(s, Empty)
    ensures TalkInv(OnTaskSend(s, id, m), Empty)
  {
    hide HeadReady, HeadLeads, Talk, Said;
    if Live(s, id) {
      var r := OnTaskSend(s, id, m);
      SaidMore(s, id, m);
      forall i | Live(r, i)
        ensures Talk(r, i, Empty)
      {
        if i == id {
          TaskSendOwn(s, id, m);
        } else {
          assert Hush(s, r, i);
          HushTalk(s, r, i, Empty);
        }
      }
      forall i | HeadLeads(Said(r.trace, i))
        ensures HeadReady(r, i)
      {
        LeadsBefore(Said(s.trace, i), m);
        SameReady(s, r, i);
      }
    }
  }

  lemma SaidMore(s: Conn, id: StreamId, m: Msg)
    requires Live(s, id)
    ensures var t, u := s.trace, OnTaskSend(s, id, m).trace;
            && Said(u, id) == Said(t, id) + [m]
            && (forall i :: i != id ==> Said(u, i) == Said(t, i))
            && forall i :: Blocks(u, i) == Blocks(t, i) && Ended(u, i) == Ended(t, i) && HeadFirst(u, i) == HeadFirst(t, i)
    ensures forall i :: i != id ==> Hush(s, OnTaskSend(s, id, m), i)
  {
    var r := OnTaskSend(s, id, m);
    forall i | i != id ensures Hush(s, r, i) {
      assert Blocks(r.trace, i) == Blocks(s.trace, i);
    }
  }

  lemma LeadsBefore(msgs: seq<Msg>, m: Msg)
    ensures HeadLeads(msgs + [m]) ==> HeadLeads(msgs)
  {
    if HeadLeads(msgs + [m]) {
      forall i | 0 <= i < |msgs| && msgs[i].Data?
        ensures exists j :: 0 <= j < i && msgs[j].Headers?
      {
        assert (msgs + [m])[i].Data?;
        var j :| 0 <= j < i && (msgs + [m])[j].Headers?;
        assert msgs[j].Headers?;
      }
    }
  }

  lemma SameReady(s: Conn, r: Conn, id: StreamId)
    requires HeadReady(s, id) && Blocks(r.trace, id) == Blocks(s.trace, id) && HeadFirst(r.trace, id) == HeadFirst(s.trace, id)
    requires Queued(r, id) ==> Queued(s, id)
    ensures HeadReady(r, id)
  {
  }

  lemma TaskSendOwn(s: Conn, id: StreamId, m: Msg)
    requires Live(s, id) && Talk(s, id, Empty)
    ensures Talk(OnTaskSend(s, id, m), id, Empty)
  {
    hide HasEnd, Marked, Answered, Said, Blocks, Written, SenderOrder.TaskOrdered;
    var r, taken := OnTaskSend(s, id, m), Taken(s, id, Empty);
    SaidMore(s, id, m);
    OrderedBefore(Said(s.trace, id), m);
    assert Rest(r, id, Empty) == Rest(s, id, Empty) + [m];
    assert Said(r.trace, id)[..|Said(r.trace, id)| - |Rest(r, id, Empty)|] == taken;
    assert Said(r.trace, id) == taken + Rest(r, id, Empty);
    var k: nat :| Shown(s.trace, id, taken, k);
    assert Shown(r.trace, id, taken, k);
  }

  lemma OrderedBefore(msgs: seq<Msg>, m: Msg)
    ensures SenderOrder.TaskOrdered(msgs + [m]) ==> SenderOrder.TaskOrdered(msgs)
  {
    if SenderOrder.TaskOrdered(msgs + [m]) {
      forall i, j | 0 <= i < j < |msgs|
        ensures MayFollow(Rank(msgs[i]), msgs[j])
      {
        assert (msgs + [m])[i] == msgs[i] && (msgs + [m])[j] == msgs[j];
      }
    }
  }

  // Handling the messages of one batch

  /** The next message of a folded batch stands for one or two messages of the channel. */
  function Width(raw: seq<Msg>): (n: nat)
    requires raw != []
    ensures 1 <= n <= |raw|
  {
    if |raw| >= 2 && raw[0].Data? && raw[1] == Data(Chunk([], true)) then 2 else 1
  }

  lemma FoldNext(raw: seq<Msg>)
    requires raw != []
    ensures Fold(raw) != [] && Fold(raw)[1..] == Fold(raw[Width(raw)..])
    ensures if Width(raw) == 2 then Fold(raw)[0] == Data(Chunk(raw[0].chunk.data, true)) else Fold(raw)[0] == raw[0]
  {
  }

  /** What is taken grows by what the message stands for. */
  lemma TakenMore(s: Conn, r: Conn, id: StreamId, raw: seq<Msg>, n: nat)
    requires Live(s, id) && Live(r, id) && n <= |raw| && Said(r.trace, id) == Said(s.trace, id)
    requires r.streams[id].inbox == s.streams[id].inbox
    requires Said(s.trace, id) == Taken(s, id, Holding(id, raw)) + Rest(s, id, Holding(id, raw))
    ensures Taken(r, id, Holding(id, raw[n..])) == Taken(s, id, Holding(id, raw)) + raw[..n]
    ensures Said(r.trace, id) == Taken(r, id, Holding(id, raw[n..])) + Rest(r, id, Holding(id, raw[n..]))
  {
    hide Said;
    var taken, inbox := Taken(s, id, Holding(id, raw)), s.streams[id].inbox;
    assert raw == raw[..n] + raw[n..];
    assert taken + ((raw[..n] + raw[n..]) + inbox) == (taken + raw[..n]) + (raw[n..] + inbox);
  }

  lemma MoreMessages(taken: seq<Msg>, ms: seq<Msg>)
    ensures Answered(taken + ms) <==> Answered(taken) || Answered(ms)
    ensures Marked(taken + ms) <==> Marked(taken) || Marked(ms)
  {
    var all := taken + ms;
    forall i | 0 <= i < |taken| ensures all[i] == taken[i] {}
    forall i | 0 <= i < |ms| ensures all[|taken| + i] == ms[i] {}
    if Answered(taken) { var i :| 0 <= i < |taken| && Answers(taken[i]); assert Answers(all[i]); }
    if Answered(ms) { var i :| 0 <= i < |ms| && Answers(ms[i]); assert Answers(all[|taken| + i]); }
    if Marked(taken) { var i :| 0 <= i < |taken| && Marks(taken[i]); assert Marks(all[i]); }
    if Marked(ms) { var i :| 0 <= i < |ms| && Marks(ms[i]); assert Marks(all[|taken| + i]); }
  }

  lemma FirstAnswers(ms: seq<Msg>)
    requires ms != [] && Answers(ms[0])
    ensures Answered(ms) && (Marks(ms[0]) ==> Marked(ms))
  {
  }

  /** After the end a message that is not interim changes nothing on the wire. */
  lemma ShownIgnores(t: Trace, id: StreamId, taken: seq<Msg>, k: nat, m: Msg)
    requires Shown(t, id, taken, k) && Ended(t, id) && !m.Informational?
    ensures Shown(t, id, taken + [m], k)
  {
    hide Written, Marked;
    WrittenMore(taken, k, m);
    assert (taken + [m])[..k] == taken[..k];
  }

  /** Before it a message that asks for no block does not either. */
  lemma ShownSilent(t: Trace, id: StreamId, taken: seq<Msg>, m: Msg)
    requires Shown(t, id, taken, |taken|) && !Ended(t, id) && Asked(m) == []
    ensures Shown(t, id, taken + [m], |taken| + 1)
  {
    hide Written, Marked;
    WrittenNext(taken, m);
  }

  /** A message to a stream that has ended. */
  lemma IgnoredTalk(s: Conn, id: StreamId, raw: seq<Msg>)
    requires Live(s, id) && Talk(s, id, Holding(id, raw)) && raw != [] && s.streams[id].localEnded && Answers(raw[0])
    ensures Talk(s, id, Holding(id, raw[Width(raw)..]))
  {
    hide HasEnd, Marked, Answered, Said, Blocks, SenderOrder.TaskOrdered, Written;
    var n, taken := Width(raw), Taken(s, id, Holding(id, raw));
    TakenMore(s, s, id, raw, n);
    MoreMessages(taken, raw[..n]);
    var k: nat :| Shown(s.trace, id, taken, k);
    MarkedIsAnswered(taken, k);
    ShownIgnores(s.trace, id, taken, k, raw[0]);
    if n == 2 {
      ShownIgnores(s.trace, id, taken + [raw[0]], k, raw[1]);
      assert raw[..2] == [raw[0], raw[1]] && taken + raw[..2] == taken + [raw[0]] + [raw[1]];
    } else {
      assert raw[..1] == [raw[0]];
    }
    assert Shown(s.trace, id, taken + raw[..n], k);
  }

  /** Taking in a chunk. */
  lemma ChunkTalk(s: Conn, id: StreamId, raw: seq<Msg>)
    requires Live(s, id) && Talk(s, id, Holding(id, raw)) && raw != [] && !s.streams[id].localEnded && raw[0].Data?
    ensures var m := Fold(raw)[0]; m.Data? && Talk(WithChunk(s, id, m.chunk), id, Holding(id, raw[Width(raw)..]))
  {
    hide HasEnd, Marked, Answered, Said, Blocks, SenderOrder.TaskOrdered, Written, Fold;
    FoldNext(raw);
    var m, n, taken := Fold(raw)[0], Width(raw), Taken(s, id, Holding(id, raw));
    var r, ms := WithChunk(s, id, m.chunk), raw[..n];
    TakenMore(s, r, id, raw, n);
    MoreMessages(taken, ms);
    ChunkMarks(s.streams[id].pending, raw);
    FirstAnswers(ms);
    ShownSilent(s.trace, id, taken, raw[0]);
    if n == 2 {
      ShownSilent(s.trace, id, taken + [raw[0]], raw[1]);
      assert ms == [raw[0], raw[1]] && taken + ms == taken + [raw[0]] + [raw[1]];
    } else {
      assert ms == [raw[0]];
    }
    assert Shown(r.trace, id, taken + ms, |taken + ms|);
  }

  lemma ChunkMarks(pending: seq<Chunk>, raw: seq<Msg>)
    requires raw != [] && raw[0].Data? && Fold(raw) != [] && Fold(raw)[0].Data?
    ensures HasEnd(pending + [Fold(raw)[0].chunk]) ==> HasEnd(pending) || Marked(raw[..Width(raw)])
  {
    FoldNext(raw);
    var n, all := Width(raw), pending + [Fold(raw)[0].chunk];
    if HasEnd(all) {
      var i :| 0 <= i < |all| && all[i].end;
      if i < |pending| {
        assert pending[i].end;
      } else {
        assert Marks(raw[..n][n - 1]);
      }
    }
  }

  /** The head is out when a chunk is taken in, if HEADERS came first. */
  lemma ChunkReady(s: Conn, id: StreamId, raw: seq<Msg>, chunk: Chunk)
    requires Live(s, id) && Talk(s, id, Holding(id, raw)) && raw != [] && !s.streams[id].localEnded && raw[0].Data?
    requires HeadLeads(Said(s.trace, id)) && HeadReady(s, id)
    ensures HeadReady(WithChunk(s, id, chunk), id)
  {
    hide HasEnd, Marked, Answered, Said, Blocks, SenderOrder.TaskOrdered, AskedBlocks;
    var said, taken := Said(s.trace, id), Taken(s, id, Holding(id, raw));
    assert said[|taken|] == raw[0];
    var j :| 0 <= j < |taken| && said[j].Headers?;
    assert taken[j] == said[j];
    HeadersAsked(taken, j);
    WrittenAll(taken);
    assert Block(taken[j].end, Response) in Blocks(s.trace, id);
  }

  lemma BlockWritten(t: Trace, id: StreamId, end: bool, kind: BlockKind)
    ensures var u := Then(t, Sent(BlockFrame(id, end, kind)));
            && Blocks(u, id) == Blocks(t, id) + [Block(end, kind)]
            && Ended(u, id) == (Ended(t, id) || (end && kind != Orphan))
            && (forall i :: Said(u, i) == Said(t, i) && HeadFirst(u, i) == HeadFirst(t, i))
            && (forall i :: HasHead(t, i) ==> HasHead(u, i))
            && forall i :: i != id ==> Blocks(u, i) == Blocks(t, i) && Ended(u, i) == Ended(t, i)
  {
    var u := Then(t, Sent(BlockFrame(id, end, kind)));
    forall i | HasHead(t, i) ensures HasHead(u, i) {
      var e :| Block(e, Response) in Blocks(t, i);
      assert Block(e, Response) in Blocks(u, i);
    }
  }

  /** Response HEADERS or trailers on a stream that has not ended. */
  lemma AnswerTalk(s: Conn, id: StreamId, raw: seq<Msg>)
    requires Live(s, id) && Talk(s, id, Holding(id, raw)) && raw != [] && !s.streams[id].localEnded && s.maxFrame > 0
    requires raw[0].Headers? || raw[0].Trailers?
    ensures Live(OnMsg(s, id, raw[0]), id) && Talk(OnMsg(s, id, raw[0]), id, Holding(id, raw[1..]))
  {
    hide HasEnd, Marked, Answered, Said, Blocks, Ended, SenderOrder.TaskOrdered, Written;
    var r, taken, ms := OnMsg(s, id, raw[0]), Taken(s, id, Holding(id, raw)), [raw[0]];
    assert raw[..1] == ms;
    BlockWritten(s.trace, id, Asked(raw[0])[0].end, Asked(raw[0])[0].kind);
    TakenMore(s, r, id, raw, 1);
    MoreMessages(taken, ms);
    FirstAnswers(ms);
    WrittenNext(taken, raw[0]);
    if s.streams[id].taskDone {
      DoneIsLast(s, id, raw);
    }
    var all := taken + ms;
    assert all[..|all|] == all;
    assert Shown(s.trace, id, taken, |taken|);
    assert Shown(r.trace, id, all, |all|);
  }

  /** Behind `Closed` nothing follows, if the task keeps its order. */
  lemma DoneIsLast(s: Conn, id: StreamId, raw: seq<Msg>)
    requires Live(s, id) && Talk(s, id, Holding(id, raw)) && raw != [] && s.streams[id].taskDone
    ensures !SenderOrder.TaskOrdered(Said(s.trace, id))
  {
    hide HasEnd, Marked, Answered, Said, Blocks, Ended, Written;
    var said, taken := Said(s.trace, id), Taken(s, id, Holding(id, raw));
    var i :| 0 <= i < |taken| && taken[i] == Closed;
    assert said[i] == Closed && said[|taken|] == raw[0];
    assert !MayFollow(Rank(said[i]), said[|taken|]);
  }

  lemma InterimTalk(s: Conn, id: StreamId, raw: seq<Msg>)
    requires Live(s, id) && Talk(s, id, Holding(id, raw)) && raw != [] && raw[0].Informational? && s.maxFrame > 0
    ensures Live(OnMsg(s, id, raw[0]), id) && Talk(OnMsg(s, id, raw[0]), id, Holding(id, raw[1..]))
  {
    hide HasEnd, Marked, Answered, Said, Blocks, Ended, SenderOrder.TaskOrdered, Written;
    var r, taken, ms := OnMsg(s, id, raw[0]), Taken(s, id, Holding(id, raw)), [raw[0]];
    assert raw[..1] == ms;
    BlockWritten(s.trace, id, false, Interim);
    TakenMore(s, r, id, raw, 1);
    MoreMessages(taken, ms);
    OnlyOne(raw[0]);
    WrittenNext(taken, raw[0]);
    var k: nat :| Shown(s.trace, id, taken, k);
    WrittenMore(taken, k, raw[0]);
    assert (taken + ms)[..k] == taken[..k];
    if Ended(s.trace, id) {
      assert Shown(r.trace, id, taken + ms, k);
    } else {
      assert Shown(r.trace, id, taken + ms, k + 1);
    }
  }

  lemma OnlyOne(m: Msg)
    ensures Answered([m]) == Answers(m) && Marked([m]) == Marks(m)
  {
    assert [m][0] == m;
  }

  lemma ClosedTalk(s: Conn, id: StreamId, raw: seq<Msg>)
    requires Live(s, id) && Talk(s, id, Holding(id, raw)) && raw != [] && raw[0].Closed? && !s.streams[id].localEnded && s.maxFrame > 0
    ensures Live(OnMsg(s, id, Closed), id) && Talk(OnMsg(s, id, Closed), id, Holding(id, raw[1..]))
  {
    hide HasEnd, Marked, Answered, Said, Blocks, Ended, SenderOrder.TaskOrdered, Written;
    var r, taken, ms := OnMsg(s, id, Closed), Taken(s, id, Holding(id, raw)), [raw[0]];
    assert raw[..1] == ms;
    TakenMore(s, r, id, raw, 1);
    MoreMessages(taken, ms);
    OnlyOne(raw[0]);
    assert raw[0] in taken + ms;
    assert Shown(s.trace, id, taken, |taken|);
    ShownSilent(s.trace, id, taken, raw[0]);
    assert Shown(r.trace, id, taken + ms, |taken| + 1);
  }

  /** For every other stream nothing changes. */
  ghost predicate Elsewhere(s: Conn, r: Conn, id: StreamId) {
    forall i :: i != id ==> Hush(s, r, i)
  }

  lemma ElsewhereTalk(s: Conn, r: Conn, id: StreamId, raw: seq<Msg>, rest: seq<Msg>)
    requires TalkInv(s, Holding(id, raw)) && Elsewhere(s, r, id)
    requires Live(r, id) ==> Talk(r, id, Holding(id, rest))
    requires HeadLeads(Said(r.trace, id)) ==> HeadReady(r, id)
    ensures TalkInv(r, Holding(id, rest))
  {
    hide HeadReady, HeadLeads;
    forall i | Live(r, i)
      ensures Talk(r, i, Holding(id, rest))
    {
      if i != id {
        assert Hush(s, r, i) && Talk(s, i, Holding(id, raw));
        HushTalk(s, r, i, Holding(id, raw));
      }
    }
    forall i | HeadLeads(Said(r.trace, i))
      ensures HeadReady(r, i)
    {
      if i != id {
        assert Hush(s, r, i);
      }
    }
  }

  lemma ElsewhereThen(a: Conn, b: Conn, c: Conn, id: StreamId)
    requires Elsewhere(a, b, id) && Hushed(b, c)
    ensures Elsewhere(a, c, id)
  {
    forall i | i != id ensures Hush(a, c, i) {
      assert Hush(a, b, i) && Hush(b, c, i);
      MuteThen(a, b, c, i);
      LingerThen(a, b, c, i);
    }
  }

  /** A block on one stream, and changes to its own entry. */
  lemma BlockElsewhere(s: Conn, r: Conn, id: StreamId, end: bool, kind: BlockKind)
    requires r.trace == Then(s.trace, Sent(BlockFrame(id, end, kind)))
    requires forall i :: i != id && Live(r, i) ==> Live(s, i) && r.streams[i] == s.streams[i]
    ensures Elsewhere(s, r, id) && Said(r.trace, id) == Said(s.trace, id)
    ensures HeadReady(s, id) && (Queued(r, id) ==> Queued(s, id)) ==> HeadReady(r, id)
  {
    BlockWritten(s.trace, id, end, kind);
    forall i | i != id ensures Hush(s, r, i) {
    }
  }

  lemma EntryElsewhere(s: Conn, r: Conn, id: StreamId)
    requires r.trace == s.trace && forall i :: i != id && Live(r, i) ==> Live(s, i) && r.streams[i] == s.streams[i]
    ensures Elsewhere(s, r, id)
  {
    forall i | i != id ensures Hush(s, r, i) {
    }
  }

  lemma InterimMsgTalk(s: Conn, id: StreamId, raw: seq<Msg>)
    requires TalkInv(s, Holding(id, raw)) && raw != [] && raw[0].Informational? && s.maxFrame > 0
    ensures TalkInv(OnMsg(s, id, raw[0]), Holding(id, raw[1..]))
  {
    hide Talk, HeadReady, HeadLeads;
    var r := OnMsg(s, id, raw[0]);
    BlockElsewhere(s, r, id, false, Interim);
    if Live(s, id) {
      InterimTalk(s, id, raw);
    }
    ElsewhereTalk(s, r, id, raw, raw[1..]);
  }

  lemma AnswerMsgTalk(s: Conn, id: StreamId, raw: seq<Msg>)
    requires TalkInv(s, Holding(id, raw)) && raw != [] && (raw[0].Headers? || raw[0].Trailers?) && s.maxFrame > 0
    ensures TalkInv(OnMsg(s, id, raw[0]), Holding(id, raw[1..]))
  {
    hide Talk, HeadReady, HeadLeads;
    var r := OnMsg(s, id, raw[0]);
    if Live(s, id) && s.streams[id].localEnded {
      EntryElsewhere(s, s, id);
      IgnoredTalk(s, id, raw);
    } else if Live(s, id) {
      BlockElsewhere(s, r, id, Asked(raw[0])[0].end, Asked(raw[0])[0].kind);
      AnswerTalk(s, id, raw);
    } else if raw[0].Headers? {
      BlockElsewhere(s, r, id, raw[0].end, Orphan);
    } else {
      EntryElsewhere(s, s, id);
    }
    ElsewhereTalk(s, r, id, raw, raw[1..]);
  }

  lemma DataMsgTalk(s: Conn, id: StreamId, raw: seq<Msg>)
    requires TalkInv(s, Holding(id, raw)) && raw != [] && raw[0].Data? && s.maxFrame > 0 && Fold(raw) != []
    ensures TalkInv(OnMsg(s, id, Fold(raw)[0]), Holding(id, raw[Width(raw)..]))
  {
    hide Talk, HeadReady, HeadLeads, Fold, Pump, Hushed, Pours;
    FoldNext(raw);
    var m, rest := Fold(raw)[0], raw[Width(raw)..];
    if Live(s, id) && !s.streams[id].localEnded {
      var s1 := WithChunk(s, id, m.chunk);
      EntryElsewhere(s, s1, id);
      ChunkTalk(s, id, raw);
      if HeadLeads(Said(s.trace, id)) {
        ChunkReady(s, id, raw, m.chunk);
      }
      ElsewhereTalk(s, s1, id, raw, rest);
      PumpPours(s1, id);
      PoursHushed(s1, Pump(s1, id));
      HushedTalk(s1, Pump(s1, id), Holding(id, rest));
    } else {
      EntryElsewhere(s, s, id);
      if Live(s, id) {
        IgnoredTalk(s, id, raw);
      }
      ElsewhereTalk(s, s, id, raw, rest);
    }
  }

  lemma ResetMsgTalk(s: Conn, id: StreamId, raw: seq<Msg>)
    requires TalkInv(s, Holding(id, raw)) && raw != [] && raw[0].Reset? && s.maxFrame > 0
    ensures TalkInv(OnMsg(s, id, raw[0]), Holding(id, raw[1..]))
  {
    hide Talk, HeadReady, HeadLeads, Retire;
    var s1 := Emit(s, ResetFrame(id, raw[0].code));
    BesideHushed(s, s1);
    RetireHushed(s1, id);
    HushedThen(s, s1, Retire(s1, id));
    HushedTalk(s, Retire(s1, id), Holding(id, raw));
    RetireFields(s1, id);
    EntryElsewhere(Retire(s1, id), Retire(s1, id), id);
    ElsewhereTalk(Retire(s1, id), Retire(s1, id), id, raw, raw[1..]);
  }

  lemma ClosedMsgTalk(s: Conn, id: StreamId, raw: seq<Msg>)
    requires TalkInv(s, Holding(id, raw)) && raw != [] && raw[0].Closed? && s.maxFrame > 0
    ensures TalkInv(OnMsg(s, id, raw[0]), Holding(id, raw[1..]))
  {
    hide Talk, HeadLeads, Retire, Hushed, HeadFirst, HasHead;
    var r := OnMsg(s, id, raw[0]);
    if !Live(s, id) {
      EntryElsewhere(s, s, id);
    } else {
      var s1 := s.(streams := s.streams[id := s.streams[id].(taskDone := true)]);
      EntryElsewhere(s, s1, id);
      if s.streams[id].localEnded {
        RetireHushed(s1, id);
        ElsewhereThen(s, s1, Retire(s1, id), id);
        RetireFields(s1, id);
        RetiredHush(s1, id);
      } else {
        ClosedTalk(s, id, raw);
      }
    }
    ElsewhereTalk(s, r, id, raw, raw[1..]);
  }

  lemma RetiredHush(s: Conn, id: StreamId)
    ensures Hush(s, Retire(s, id), id)
  {
    RetireHushed(s, id);
  }

  lemma OnMsgTalk(s: Conn, id: StreamId, raw: seq<Msg>)
    requires TalkInv(s, Holding(id, raw)) && raw != [] && s.maxFrame > 0
    ensures Fold(raw) != [] && TalkInv(OnMsg(s, id, Fold(raw)[0]), Holding(id, raw[Width(raw)..]))
  {
    hide TalkInv, OnMsg, Fold;
    FoldNext(raw);
    match raw[0]
    case Informational => InterimMsgTalk(s, id, raw);
    case Headers(_) => AnswerMsgTalk(s, id, raw);
    case Trailers => AnswerMsgTalk(s, id, raw);
    case Data(_) => DataMsgTalk(s, id, raw);
    case Reset(_) => ResetMsgTalk(s, id, raw);
    case Closed => ClosedMsgTalk(s, id, raw);
  }

  lemma {:induction false} OnMsgsTalk(s: Conn, id: StreamId, raw: seq<Msg>)
    requires TalkInv(s, Holding(id, raw)) && s.maxFrame > 0
    ensures TalkInv(OnMsgs(s, id, Fold(raw)), Holding(id, []))
    decreases |raw|
  {
    hide TalkInv, OnMsg, Fold;
    if raw == [] {
      SenderOrder.FoldNothing();
    } else {
      FoldNext(raw);
      OnMsgTalk(s, id, raw);
      OnMsgsTalk(OnMsg(s, id, Fold(raw)[0]), id, raw[Width(raw)..]);
    }
  }

  lemma PickUpTalk(s: Conn, id: StreamId)
    requires TalkInv(s, Empty) && Live(s, id)
    ensures TalkInv(Emptied(s, id), Holding(id, s.streams[id].inbox))
  {
    hide HeadReady, HeadLeads, HasEnd, Marked, Answered, Said, Blocks, Ended, SenderOrder.TaskOrdered, Written;
    var r, h := Emptied(s, id), Holding(id, s.streams[id].inbox);
    forall i | Live(r, i)
      ensures Talk(r, i, h)
    {
      assert Talk(s, i, Empty);
      assert Rest(r, i, h) == Rest(s, i, Empty);
      assert Taken(r, i, h) == Taken(s, i, Empty);
    }
    forall i | HeadLeads(Said(r.trace, i))
      ensures HeadReady(r, i)
    {
      SameReady(s, r, i);
    }
  }

  lemma PutDownTalk(s: Conn, id: StreamId)
    requires TalkInv(s, Holding(id, []))
    ensures TalkInv(s, Empty)
  {
    hide HeadReady, HeadLeads, HasEnd, Marked, Answered, Said, Blocks, Ended, SenderOrder.TaskOrdered, Written;
    forall i | Live(s, i)
      ensures Talk(s, i, Empty)
    {
      assert Talk(s, i, Holding(id, []));
      assert Rest(s, i, Holding(id, [])) == Rest(s, i, Empty);
    }
  }

  lemma CollectTalk(s: Conn, id: StreamId)
    requires TalkInv(s, Empty) && s.maxFrame > 0
    ensures TalkInv(Collect(s, id), Empty)
  {
    hide TalkInv, OnMsgs, Fold;
    if Live(s, id) && s.streams[id].pending == [] {
      PickUpTalk(s, id);
      OnMsgsTalk(Emptied(s, id), id, s.streams[id].inbox);
      PutDownTalk(Collect(s, id), id);
    }
  }

  lemma {:induction false} OnWakeTalk(s: Conn, ids: seq<StreamId>)
    requires TalkInv(s, Empty) && s.maxFrame > 0
    ensures TalkInv(OnWake(s, ids), Empty)
    decreases |ids|
  {
    hide TalkInv, Collect;
    if ids != [] {
      CollectTalk(s, ids[0]);
      OnWakeTalk(Collect(s, ids[0]), ids[1..]);
    }
  }

  // Which channels a wake-up empties

  predicate SameEntry(s: Conn, r: Conn, j: StreamId) {
    (Live(r, j) <==> Live(s, j)) && (Live(s, j) ==> r.streams[j] == s.streams[j])
  }

  lemma {:induction false} PumpElse(s: Conn, id: StreamId, j: StreamId)
    requires s.maxFrame > 0 && j != id
    ensures SameEntry(s, Pump(s, id), j)
    decreases Work(s, id)
  {
    if Queued(s, id) {
      if s.streams[id].pending[0].data == [] {
        SendFrontElse(s, id, 0, j);
        PumpElse(SendFront(s, id, 0, 0), id, j);
      } else if Available(s, id) > 0 {
        var n := Min(Fit(s, id), s.maxFrame);
        SendFrontElse(s, id, n, j);
        if n == |s.streams[id].pending[0].data| || n != Fit(s, id) {
          PumpElse(SendFront(s, id, n, 0), id, j);
        }
      }
    }
  }

  lemma SendFrontElse(s: Conn, id: StreamId, n: nat, j: StreamId)
    requires Sendable(s, id, n, 0) && j != id
    ensures SameEntry(s, SendFront(s, id, n, 0), j) && SendFront(s, id, n, 0).maxFrame == s.maxFrame
  {
    SendFrontSame(s, id, n, 0);
    assert SameStream(s, SendFront(s, id, n, 0), j);
  }

  lemma OnMsgElse(s: Conn, id: StreamId, m: Msg, j: StreamId)
    requires s.maxFrame > 0 && j != id
    ensures SameEntry(s, OnMsg(s, id, m), j)
  {
    hide Pump, MarkClosed;
    if Live(s, id) {
      if m.Data? && !s.streams[id].localEnded {
        PumpElse(WithChunk(s, id, m.chunk), id, j);
      }
      MarkClosedShape(s.(streams := s.streams[id := s.streams[id].(taskDone := true)]), id);
    }
    if m.Reset? {
      MarkClosedShape(Emit(s, ResetFrame(id, m.code)), id);
    }
  }

  lemma {:induction false} OnMsgsElse(s: Conn, id: StreamId, msgs: seq<Msg>, j: StreamId)
    requires s.maxFrame > 0 && j != id
    ensures SameEntry(s, OnMsgs(s, id, msgs), j)
    decreases |msgs|
  {
    hide OnMsg;
    if msgs != [] {
      OnMsgElse(s, id, msgs[0], j);
      OnMsgsElse(OnMsg(s, id, msgs[0]), id, msgs[1..], j);
    }
  }

  /** Handling messages does not touch the channel they came from. */
  lemma {:induction false} OnMsgsInbox(s: Conn, id: StreamId, msgs: seq<Msg>)
    requires s.maxFrame > 0
    ensures Live(OnMsgs(s, id, msgs), id) ==> Live(s, id) && OnMsgs(s, id, msgs).streams[id].inbox == s.streams[id].inbox
    decreases |msgs|
  {
    hide OnMsg;
    if msgs != [] {
      OnMsgInbox(s, id, msgs[0]);
      OnMsgsInbox(OnMsg(s, id, msgs[0]), id, msgs[1..]);
    }
  }

  lemma OnMsgInbox(s: Conn, id: StreamId, m: Msg)
    requires s.maxFrame > 0
    ensures Live(OnMsg(s, id, m), id) ==> Live(s, id) && OnMsg(s, id, m).streams[id].inbox == s.streams[id].inbox
  {
    hide Pump;
    if m.Data? && Live(s, id) && !s.streams[id].localEnded {
      var s1 := WithChunk(s, id, m.chunk);
      PumpPours(s1, id);
      assert Mute(s1, Pump(s1, id), id);
    }
  }

  lemma CollectTakes(s: Conn, id: StreamId, j: StreamId)
    requires s.maxFrame > 0
    ensures var r := Collect(s, id);
            && (j != id ==> SameEntry(s, r, j))
            && (j == id && Live(r, j) ==> Live(s, j) && r.streams[j].inbox == if s.streams[j].pending == [] then [] else s.streams[j].inbox)
  {
    hide OnMsgs, Fold;
    if Live(s, id) && s.streams[id].pending == [] {
      if j != id {
        OnMsgsElse(Emptied(s, id), id, Fold(s.streams[id].inbox), j);
      } else {
        OnMsgsInbox(Emptied(s, id), id, Fold(s.streams[id].inbox));
      }
    }
  }

  /**
   Back-pressure: a wake-up empties the channel of a stream with nothing queued,
   and leaves the channel of one whose DATA still waits for credit alone.
   */
  lemma {:induction false} WakeTakes(s: Conn, ids: seq<StreamId>, j: StreamId)
    requires s.maxFrame > 0 && NoDup(ids) && Live(OnWake(s, ids), j)
    ensures Live(s, j)
    ensures OnWake(s, ids).streams[j].inbox == if j in ids && s.streams[j].pending == [] then [] else s.streams[j].inbox
    decreases |ids|
  {
    hide Collect;
    if ids != [] {
      var s1 := Collect(s, ids[0]);
      CollectTakes(s, ids[0], j);
      assert NoDup(ids[1..]);
      WakeTakes(s1, ids[1..], j);
      assert j == ids[0] ==> j !in ids[1..];
    }
  }

  // Runs

  lemma StepTalk(s: Conn, e: Event)
    requires TalkInv(s, Empty) && LifeInv(s) && s.maxFrame > 0
    ensures TalkInv(Step(s, e), Empty)
  {
    hide TalkInv, LifeInv, Hushed, OpenStream, OnTaskSend, OnWake;
    if e.TaskSend? {
      TaskSendTalk(s, e.id, e.msg);
    } else if e.Wake? {
      OnWakeTalk(s, e.order);
    } else if e.PeerHeaders? && !Live(s, e.id) {
      OpenTalk(s, e.id);
    } else {
      EventHushed(s, e);
      HushedTalk(s, Step(s, e), Empty);
    }
  }

  lemma {:induction false} RunTalk(s: Conn, events: seq<Event>, r: Conn)
    requires Inv(s) && NoIdleCredit(s) && TalkInv(s, Empty) && Reaches(s, events, r)
    ensures TalkInv(r, Empty)
    decreases |events|
  {
    hide FlowInv, LifeInv, BodyInv, NoIdleCredit, TalkInv, Step, Possible;
    if events != [] {
      StepKeeps(s, events[0]);
      StepTalk(s, events[0]);
      RunTalk(Step(s, events[0]), events[1..], r);
    }
  }

  lemma StartTalk(window: nat, limits: Limits)
    ensures TalkInv(Start(window, limits), Empty)
  {
  }

  /**
   Over every run the blocks on a live stream are, in order and with their end
   flags, those its task asked for: all of what was taken from its channel until
   the stream ended, which takes an end mark, and behind that only interim ones.
   */
  lemma BlocksFollowMessages(window: nat, limits: Limits, events: seq<Event>, r: Conn, id: StreamId)
      returns (taken: seq<Msg>, k: nat)
    requires window <= MAX_WINDOW && Reaches(Start(window, limits), events, r) && Live(r, id)
    ensures taken + r.streams[id].inbox == Spoken(Start(window, limits), events, id)
    ensures k <= |taken| && Blocks(r.trace, id) == Written(taken, k)
    ensures if Ended(r.trace, id) then Marked(taken[..k]) else k == |taken|
    ensures r.streams[id].responseStarted <==> Answered(taken)
    ensures r.streams[id].taskDone <==> Closed in taken
  {
    StartHolds(window, limits);
    StartTalk(window, limits);
    RunTalk(Start(window, limits), events, r);
    HeardIsSaid(window, limits, events, r);
    assert Talk(r, id, Empty);
    taken := Taken(r, id, Empty);
    k :| Shown(r.trace, id, taken, k);
    assert [] + r.streams[id].inbox == r.streams[id].inbox;
  }

  /** Over every run no DATA of a stream precedes its response HEADERS, if its task hands over HEADERS first. */
  lemma HeadBeforeData(window: nat, limits: Limits, events: seq<Event>, r: Conn, id: StreamId)
    requires window <= MAX_WINDOW && Reaches(Start(window, limits), events, r)
    requires HeadLeads(Spoken(Start(window, limits), events, id))
    ensures HeadFirst(r.trace, id)
  {
    StartHolds(window, limits);
    StartTalk(window, limits);
    RunTalk(Start(window, limits), events, r);
    HeardIsSaid(window, limits, events, r);
    assert HeadReady(r, id);
  }

  /** Over every run a stream whose task closed in order has no entry once its end is sent. */
  lemma FinishedStreamsLeave(window: nat, limits: Limits, events: seq<Event>, r: Conn, id: StreamId)
    requires window <= MAX_WINDOW && Reaches(Start(window, limits), events, r) && Live(r, id)
    requires SenderOrder.TaskOrdered(Spoken(Start(window, limits), events, id))
    requires Closed in Spoken(Start(window, limits), events, id) && Closed !in r.streams[id].inbox
    ensures !Ended(r.trace, id)
  {
    var taken, k := BlocksFollowMessages(window, limits, events, r, id);
    StartHolds(window, limits);
    StartTalk(window, limits);
    RunTalk(Start(window, limits), events, r);
    HeardIsSaid(window, limits, events, r);
    assert Talk(r, id, Empty);
  }
}
