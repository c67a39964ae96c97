/**
 The history of the send side of one HTTP/2 connection, and what the peer can
 compute from it.

 A trace interleaves the frames the connection wrote with the inputs it
 accepted. Every function below replays the trace from the peer's side, with
 the flow-control rules of sections 6.9, 6.9.1 and 6.9.2 of RFC 9113; none of
 them looks at the connection's own counters.
 */
module SendTrace {
  import opened Basics

  type StreamId = nat

  const MAX_WINDOW: int := 0x7fff_ffff
  const DEFAULT_WINDOW: int := 65535
  const DEFAULT_MAX_FRAME: int := 16384
  const MAX_FRAME_LIMIT: int := 16777215

  /** A piece of response body as a stream task hands it over. */
  datatype Chunk = Chunk(data: Bytes, end: bool)

  /** A message from a stream task to the connection. */
  datatype Msg =
    | Informational
    | Headers(end: bool)
    | Data(chunk: Chunk)
    | Trailers
    | Reset(code: nat)
    | Closed

  /** `Orphan` marks a response HEADERS written for a stream with no entry. */
  datatype BlockKind = Interim | Response | Trailer | Orphan

  datatype Frame =
    | DataFrame(id: StreamId, end: bool, payload: Bytes)
    | BlockFrame(id: StreamId, end: bool, kind: BlockKind)
    | ResetFrame(id: StreamId, code: nat)
    | GoAway(last: StreamId)
    | SettingsAck

  datatype Item =
    | Sent(frame: Frame)
    | Opened(id: StreamId)
    | ConnCredit(inc: nat)
    | StreamCredit(id: StreamId, inc: nat)
    | InitialWindow(size: nat)
    | MaxFrame(size: nat)
    | Handed(id: StreamId, msg: Msg)
    | Gone(id: StreamId)

  datatype Trace = Begin(window: nat) | Then(prev: Trace, item: Item)

  /** The frames written so far, oldest first. */
  function Frames(t: Trace): seq<Frame> {
    match t
    case Begin(_) => []
    case Then(p, Sent(f)) => Frames(p) + [f]
    case Then(p, _) => Frames(p)
  }

  // Flow control as the peer accounts for it

  function ConnLeft(t: Trace): int {
    match t
    case Begin(w) => w
    case Then(p, ConnCredit(n)) => ConnLeft(p) + n
    case Then(p, Sent(DataFrame(_, _, d))) => ConnLeft(p) - |d|
    case Then(p, _) => ConnLeft(p)
  }

  function InitialNow(t: Trace): int {
    match t
    case Begin(_) => DEFAULT_WINDOW
    case Then(p, InitialWindow(n)) => n
    case Then(p, _) => InitialNow(p)
  }

  function MaxFrameNow(t: Trace): int {
    match t
    case Begin(_) => DEFAULT_MAX_FRAME
    case Then(p, MaxFrame(n)) => n
    case Then(p, _) => MaxFrameNow(p)
  }

  function StreamLeft(t: Trace, id: StreamId): int {
    match t
    case Begin(_) => 0
    case Then(p, Opened(i)) => if i == id then InitialNow(p) else StreamLeft(p, id)
    case Then(p, StreamCredit(i, n)) => StreamLeft(p, id) + if i == id then n else 0
    case Then(p, InitialWindow(n)) => StreamLeft(p, id) + n - InitialNow(p)
    case Then(p, Sent(DataFrame(i, _, d))) => StreamLeft(p, id) - if i == id then |d| else 0
    case Then(p, _) => StreamLeft(p, id)
  }

  /** No DATA frame overran a window or the frame-size limit in force when it was sent. */
  predicate FlowLegal(t: Trace) {
    match t
    case Begin(_) => true
    case Then(p, Sent(DataFrame(i, _, d))) =>
      && FlowLegal(p)
      && (d != [] ==> |d| <= ConnLeft(p) && |d| <= StreamLeft(p, i) && |d| <= MaxFrameNow(p))
    case Then(p, _) => FlowLegal(p)
  }

  // Credit and consumption, counted separately

  function SentBytes(t: Trace, id: StreamId): Bytes {
    match t
    case Begin(_) => []
    case Then(p, Sent(DataFrame(i, _, d))) => if i == id then SentBytes(p, id) + d else SentBytes(p, id)
    case Then(p, _) => SentBytes(p, id)
  }

  function TotalSent(t: Trace): nat {
    match t
    case Begin(_) => 0
    case Then(p, Sent(DataFrame(_, _, d))) => TotalSent(p) + |d|
    case Then(p, _) => TotalSent(p)
  }

  function ConnGranted(t: Trace): nat {
    match t
    case Begin(w) => w
    case Then(p, ConnCredit(n)) => ConnGranted(p) + n
    case Then(p, _) => ConnGranted(p)
  }

  function StreamGranted(t: Trace, id: StreamId): nat {
    match t
    case Begin(_) => 0
    case Then(p, StreamCredit(i, n)) => if i == id then StreamGranted(p, id) + n else StreamGranted(p, id)
    case Then(p, _) => StreamGranted(p, id)
  }

  /** The number of non-empty DATA frames sent on a stream. */
  function DataFrames(t: Trace, id: StreamId): nat {
    match t
    case Begin(_) => 0
    case Then(p, Sent(DataFrame(i, _, d))) => DataFrames(p, id) + if i == id && d != [] then 1 else 0
    case Then(p, _) => DataFrames(p, id)
  }

  // Stream life cycle

  predicate WasOpened(t: Trace, id: StreamId) {
    match t
    case Begin(_) => false
    case Then(p, Opened(i)) => i == id || WasOpened(p, id)
    case Then(p, _) => WasOpened(p, id)
  }

  /** Nothing in the trace concerns the stream. */
  predicate Untouched(t: Trace, id: StreamId) {
    match t
    case Begin(_) => true
    case Then(p, Opened(i)) => i != id && Untouched(p, id)
    case Then(p, StreamCredit(i, _)) => i != id && Untouched(p, id)
    case Then(p, Handed(i, _)) => i != id && Untouched(p, id)
    case Then(p, Sent(DataFrame(i, _, _))) => i != id && Untouched(p, id)
    case Then(p, Sent(BlockFrame(i, _, _))) => i != id && Untouched(p, id)
    case Then(p, _) => Untouched(p, id)
  }

  /** Stream ids are odd and each opening uses an id never touched before. */
  predicate FreshOpens(t: Trace) {
    match t
    case Begin(_) => true
    case Then(p, Opened(i)) => i % 2 == 1 && Untouched(p, i) && FreshOpens(p)
    case Then(p, _) => FreshOpens(p)
  }

  /** END_STREAM has been sent on the stream by its own DATA, HEADERS or trailers. */
  predicate Ended(t: Trace, id: StreamId) {
    match t
    case Begin(_) => false
    case Then(p, Sent(DataFrame(i, e, _))) => (i == id && e) || Ended(p, id)
    case Then(p, Sent(BlockFrame(i, e, k))) => (i == id && e && k != Orphan) || Ended(p, id)
    case Then(p, _) => Ended(p, id)
  }

  /** No DATA, final HEADERS or trailers follow END_STREAM; in particular END_STREAM is sent at most once. */
  predicate CleanEnd(t: Trace, id: StreamId) {
    match t
    case Begin(_) => true
    case Then(p, Sent(DataFrame(i, _, _))) => CleanEnd(p, id) && (i == id ==> !Ended(p, id))
    case Then(p, Sent(BlockFrame(i, e, k))) =>
      && CleanEnd(p, id)
      && (i == id && (k == Response || k == Trailer) ==> !Ended(p, id))
      && (i == id && k == Interim ==> !e)
    case Then(p, _) => CleanEnd(p, id)
  }

  /** How many END_STREAM flags the stream's own frames carried. */
  function EndCount(t: Trace, id: StreamId): nat {
    match t
    case Begin(_) => 0
    case Then(p, Sent(DataFrame(i, e, _))) => EndCount(p, id) + if i == id && e then 1 else 0
    case Then(p, Sent(BlockFrame(i, e, k))) => EndCount(p, id) + if i == id && e && k != Orphan then 1 else 0
    case Then(p, _) => EndCount(p, id)
  }

  /** Every END_STREAM flag on the stream, orphaned HEADERS included. */
  function WireEnds(t: Trace, id: StreamId): nat {
    match t
    case Begin(_) => 0
    case Then(p, Sent(DataFrame(i, e, _))) => WireEnds(p, id) + if i == id && e then 1 else 0
    case Then(p, Sent(BlockFrame(i, e, _))) => WireEnds(p, id) + if i == id && e then 1 else 0
    case Then(p, _) => WireEnds(p, id)
  }

  /** No response HEADERS was written for the stream after its entry was gone. */
  predicate NoOrphan(t: Trace, id: StreamId) {
    match t
    case Begin(_) => true
    case Then(p, Sent(BlockFrame(i, _, Orphan))) => i != id && NoOrphan(p, id)
    case Then(p, _) => NoOrphan(p, id)
  }

  // Body bytes as the stream task handed them over

  function Flat(cs: seq<Chunk>): Bytes {
    if cs == [] then [] else cs[0].data + Flat(cs[1..])
  }

  /** Offset just past the first end-marked chunk. */
  function EndAt(cs: seq<Chunk>): Option<nat> {
    if cs == [] then None
    else if cs[0].end then Some(|cs[0].data|)
    else Shift(|cs[0].data|, EndAt(cs[1..]))
  }

  function Shift(n: nat, o: Option<nat>): Option<nat> {
    match o
    case None => None
    case Some(v) => Some(n + v)
  }

  function HandedChunks(t: Trace, id: StreamId): seq<Chunk> {
    match t
    case Begin(_) => []
    case Then(p, Handed(i, Data(c))) => if i == id then HandedChunks(p, id) + [c] else HandedChunks(p, id)
    case Then(p, _) => HandedChunks(p, id)
  }

  function HandedBytes(t: Trace, id: StreamId): Bytes {
    Flat(HandedChunks(t, id))
  }

  /** Every DATA frame carrying END_STREAM finished the stream's first end-marked chunk. */
  predicate EndsOnMark(t: Trace) {
    match t
    case Begin(_) => true
    case Then(p, Sent(DataFrame(i, e, d))) =>
      EndsOnMark(p) && (e ==> EndAt(HandedChunks(p, i)) == Some(|SentBytes(p, i)| + |d|))
    case Then(p, _) => EndsOnMark(p)
  }

  /** A SETTINGS frame raised the initial window since the last connection credit. */
  predicate Raised(t: Trace) {
    match t
    case Begin(_) => false
    case Then(p, InitialWindow(n)) => n > InitialNow(p) || Raised(p)
    case Then(p, ConnCredit(_)) => false
    case Then(p, _) => Raised(p)
  }

  /** The streams that were closed, in the order they were. */
  function Closings(t: Trace): seq<StreamId> {
    match t
    case Begin(_) => []
    case Then(p, Gone(i)) => Closings(p) + [i]
    case Then(p, _) => Closings(p)
  }

  // The conversation of a stream task with the connection, and what the peer is told

  /** The messages the task of the stream put into its channel. */
  function Said(t: Trace, id: StreamId): seq<Msg> {
    match t
    case Begin(_) => []
    case Then(p, Handed(i, m)) => if i == id then Said(p, id) + [m] else Said(p, id)
    case Then(p, _) => Said(p, id)
  }

  datatype Block = Block(end: bool, kind: BlockKind)

  /** The field blocks written on the stream. */
  function Blocks(t: Trace, id: StreamId): seq<Block> {
    match t
    case Begin(_) => []
    case Then(p, Sent(BlockFrame(i, e, k))) => if i == id then Blocks(p, id) + [Block(e, k)] else Blocks(p, id)
    case Then(p, _) => Blocks(p, id)
  }

  /** The response HEADERS of the stream have been written. */
  predicate HasHead(t: Trace, id: StreamId) {
    exists e :: Block(e, Response) in Blocks(t, id)
  }

  /** No DATA frame of the stream stands before its response HEADERS. */
  predicate HeadFirst(t: Trace, id: StreamId) {
    match t
    case Begin(_) => true
    case Then(p, Sent(DataFrame(i, _, _))) => HeadFirst(p, id) && (i == id ==> HasHead(p, id))
    case Then(p, _) => HeadFirst(p, id)
  }

  /** The streams that were opened, in order. */
  function Openings(t: Trace): seq<StreamId> {
    match t
    case Begin(_) => []
    case Then(p, Opened(i)) => Openings(p) + [i]
    case Then(p, _) => Openings(p)
  }

  /** How many SETTINGS were acknowledged. */
  function Acks(t: Trace): nat {
    match t
    case Begin(_) => 0
    case Then(p, Sent(SettingsAck)) => Acks(p) + 1
    case Then(p, _) => Acks(p)
  }

  /** The stream ids in the GOAWAY frames written. */
  function LastIds(t: Trace): seq<StreamId> {
    match t
    case Begin(_) => []
    case Then(p, Sent(GoAway(last))) => LastIds(p) + [last]
    case Then(p, _) => LastIds(p)
  }

  /** A RST_STREAM frame was written for the stream. */
  predicate WasReset(t: Trace, id: StreamId) {
    match t
    case Begin(_) => false
    case Then(p, Sent(ResetFrame(i, _))) => i == id || WasReset(p, id)
    case Then(p, _) => WasReset(p, id)
  }

  /** The highest stream that was opened or answered with RST_STREAM. */
  function TopStream(t: Trace): StreamId {
    match t
    case Begin(_) => 0
    case Then(p, Opened(i)) => Max(i, TopStream(p))
    case Then(p, Sent(ResetFrame(i, _))) => Max(i, TopStream(p))
    case Then(p, _) => TopStream(p)
  }

  /** Every GOAWAY named the highest stream at the time it was written. */
  predicate TrueLastIds(t: Trace) {
    match t
    case Begin(_) => true
    case Then(p, Sent(GoAway(last))) => last == TopStream(p) && TrueLastIds(p)
    case Then(p, _) => TrueLastIds(p)
  }

  /** How far a message takes its task: on, to its reset, or to its end. */
  function Rank(m: Msg): nat {
    if m.Closed? then 2 else if m.Reset? then 1 else 0
  }

  /** How far the task of the stream has come. */
  function Stage(t: Trace, id: StreamId): nat {
    match t
    case Begin(_) => 0
    case Then(p, Handed(i, m)) => if i == id then Max(Rank(m), Stage(p, id)) else Stage(p, id)
    case Then(p, _) => Stage(p, id)
  }

  /** A task stops at `Closed`, and sends only `Closed` after a reset. */
  predicate MayFollow(stage: nat, m: Msg) {
    stage == 0 || (stage == 1 && m.Closed?)
  }

  // Laws of the replay

  /** Conservation on the connection: credit left plus bytes sent is all credit ever granted. */
  lemma {:induction false} ConnConservation(t: Trace)
    ensures ConnLeft(t) + TotalSent(t) == ConnGranted(t)
  {
    match t
    case Begin(_) =>
    case Then(p, _) => ConnConservation(p);
  }

  lemma {:induction false} UntouchedIsBlank(t: Trace, id: StreamId)
    requires Untouched(t, id)
    ensures SentBytes(t, id) == [] && HandedChunks(t, id) == [] && StreamGranted(t, id) == 0
    ensures !Ended(t, id) && CleanEnd(t, id) && !WasOpened(t, id) && NoOrphan(t, id)
  {
    match t
    case Begin(_) =>
    case Then(p, _) => UntouchedIsBlank(p, id);
  }

  /** Conservation on a stream: window plus bytes sent is the current initial window plus increments. */
  lemma {:induction false} StreamConservation(t: Trace, id: StreamId)
    requires FreshOpens(t) && WasOpened(t, id)
    ensures StreamLeft(t, id) + |SentBytes(t, id)| == InitialNow(t) + StreamGranted(t, id)
  {
    match t
    case Begin(_) =>
    case Then(p, Opened(i)) =>
      if i == id { UntouchedIsBlank(p, id); } else { StreamConservation(p, id); }
    case Then(p, _) => StreamConservation(p, id);
  }

  /** A legal trace never drives the connection window below zero. */
  lemma {:induction false} LegalKeepsConnWindow(t: Trace)
    requires FlowLegal(t)
    ensures ConnLeft(t) >= 0
  {
    match t
    case Begin(_) =>
    case Then(p, _) => LegalKeepsConnWindow(p);
  }

  /** A clean stream carries END_STREAM at most once, and exactly when it has ended. */
  lemma {:induction false} CleanEndsOnce(t: Trace, id: StreamId)
    requires CleanEnd(t, id)
    ensures EndCount(t, id) == if Ended(t, id) then 1 else 0
  {
    match t
    case Begin(_) =>
    case Then(p, _) => CleanEndsOnce(p, id);
  }

  lemma {:induction false} NoOrphanEnds(t: Trace, id: StreamId)
    requires NoOrphan(t, id)
    ensures WireEnds(t, id) == EndCount(t, id)
  {
    match t
    case Begin(_) =>
    case Then(p, _) => NoOrphanEnds(p, id);
  }

  // Laws of chunk lists

  lemma {:induction false} FlatConcat(a: seq<Chunk>, b: seq<Chunk>)
    ensures Flat(a + b) == Flat(a) + Flat(b)
  {
    if a == [] {
      assert a + b == b;
    } else {
      assert (a + b)[1..] == a[1..] + b;
      FlatConcat(a[1..], b);
    }
  }

  lemma {:induction false} EndAtConcat(a: seq<Chunk>, b: seq<Chunk>)
    ensures EndAt(a + b) == if EndAt(a).Some? then EndAt(a) else Shift(|Flat(a)|, EndAt(b))
  {
    if a == [] {
      assert a + b == b;
    } else {
      assert (a + b)[1..] == a[1..] + b;
      EndAtConcat(a[1..], b);
    }
  }

  lemma {:induction false} EndAtWithin(cs: seq<Chunk>)
    ensures EndAt(cs).Some? ==> EndAt(cs).value <= |Flat(cs)|
  {
    if cs != [] {
      EndAtWithin(cs[1..]);
    }
  }
}
