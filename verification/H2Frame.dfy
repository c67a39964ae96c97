/**
 HTTP/2 frames (sections 4.1 and 6 of RFC 9113): how a payload is laid out,
 how it is parsed, and what the decoder remembers between frames.
 `src/h2/codec/mod.rs`.
 */
module H2Frame {
  import opened Basics
  import opened Varint

  const HEADER_LEN: nat := 9
  const DEFAULT_MAX_FRAME_SIZE: nat := 16384
  const MAX_FRAME_SIZE_LIMIT: nat := 16777215
  const MAX_WINDOW_SIZE: nat := 0x7fff_ffff
  const BIT31: nat := 0x8000_0000

  type U16 = x: int | 0 <= x < 0x1_0000
  type U32 = x: int | 0 <= x < 0x1_0000_0000

  datatype Reason = FrameSize | Protocol | FlowControl

  datatype Priority = Priority(exclusive: bool, dependency: U32, weight: Byte)

  datatype Setting = Setting(id: U16, value: U32)

  datatype Frame =
    | Data(id: U32, endStream: bool, data: Bytes)
    | Headers(id: U32, endStream: bool, endHeaders: bool, priority: Option<Priority>, block: Bytes)
    | Prioritize(id: U32, fields: Priority)
    | Reset(id: U32, code: U32)
    | Settings(ack: bool, settings: seq<Setting>)
    | PushPromise(id: U32, endHeaders: bool, promised: U32, block: Bytes)
    | Ping(ack: bool, opaque8: Bytes)
    | GoAway(last: U32, code: U32, debug: Bytes)
    | WindowUpdate(id: U32, increment: U32)
    | Continuation(id: U32, endHeaders: bool, block: Bytes)
    | Unknown(typ: Byte, flags: Byte, id: U32, payload: Bytes)

  /** The decoder between frames: its payload limit and the stream whose field block is open. */
  datatype Context = Context(limit: nat, open: Option<U32>)

  // Flags

  predicate EndStreamBit(flags: Byte) {
    flags % 2 == 1
  }

  predicate AckBit(flags: Byte) {
    flags % 2 == 1
  }

  predicate EndHeadersBit(flags: Byte) {
    flags / 4 % 2 == 1
  }

  predicate PaddedBit(flags: Byte) {
    flags / 8 % 2 == 1
  }

  predicate PriorityBit(flags: Byte) {
    flags / 32 % 2 == 1
  }

  function Flags(low: bool, endHeaders: bool, padded: bool, priority: bool): (r: Byte)
    ensures EndStreamBit(r) == low && AckBit(r) == low && EndHeadersBit(r) == endHeaders
    ensures PaddedBit(r) == padded && PriorityBit(r) == priority
  {
    (if low then 1 else 0) + (if endHeaders then 4 else 0) + (if padded then 8 else 0) + (if priority then 32 else 0)
  }

  // Parsing

  function ReadU32(s: Bytes): (r: U32)
    requires |s| == 4
  {
    BigBound(s);
    Powers();
    Big(s)
  }

  function ReadU16(s: Bytes): (r: U16)
    requires |s| == 2
  {
    BigBound(s);
    Powers();
    Big(s)
  }

  /** The body between the pad length and the padding. */
  function Strip(body: Bytes, padded: bool): Result<Bytes, Reason> {
    if !padded then Ok(body)
    else if body == [] then Err(FrameSize)
    else if body[0] >= |body| then Err(Protocol)
    else Ok(body[1..|body| - body[0]])
  }

  function ReadPriority(body: Bytes, id: U32): Result<Priority, Reason> {
    if |body| < 5 then Err(FrameSize)
    else
      var word := ReadU32(body[..4]);
      if word % BIT31 == id then Err(Protocol) else Ok(Priority(body[0] >= 128, word % BIT31, body[4]))
  }

  function SettingFault(s: Setting): Option<Reason> {
    if s.id == 2 && s.value > 1 then Some(Protocol)
    else if s.id == 4 && s.value > MAX_WINDOW_SIZE then Some(FlowControl)
    else if s.id == 5 && !(DEFAULT_MAX_FRAME_SIZE <= s.value <= MAX_FRAME_SIZE_LIMIT) then Some(Protocol)
    else None
  }

  function ReadSetting(body: Bytes): Setting
    requires |body| >= 6
  {
    Setting(ReadU16(body[..2]), ReadU32(body[2..6]))
  }

  function ReadSettings(body: Bytes): Result<seq<Setting>, Reason>
    decreases |body|
  {
    if |body| < 6 then Ok([])
    else
      var s := ReadSetting(body);
      match SettingFault(s)
      case Some(e) => Err(e)
      case None =>
        match ReadSettings(body[6..])
        case Err(e) => Err(e)
        case Ok(more) => Ok([s] + more)
  }

  function ParseData(flags: Byte, id: U32, payload: Bytes): Result<Frame, Reason> {
    if id == 0 then Err(Protocol)
    else
      match Strip(payload, PaddedBit(flags))
      case Err(e) => Err(e)
      case Ok(body) => Ok(Data(id, EndStreamBit(flags), body))
  }

  function ParseHeaders(flags: Byte, id: U32, payload: Bytes): Result<Frame, Reason> {
    if id == 0 then Err(Protocol)
    else
      match Strip(payload, PaddedBit(flags))
      case Err(e) => Err(e)
      case Ok(body) =>
        if !PriorityBit(flags) then Ok(Headers(id, EndStreamBit(flags), EndHeadersBit(flags), None, body))
        else
          match ReadPriority(body, id)
          case Err(e) => Err(e)
          case Ok(p) => Ok(Headers(id, EndStreamBit(flags), EndHeadersBit(flags), Some(p), body[5..]))
  }

  function ParsePriority(id: U32, payload: Bytes): Result<Frame, Reason> {
    if id == 0 then Err(Protocol)
    else if |payload| != 5 then Err(FrameSize)
    else
      match ReadPriority(payload, id)
      case Err(e) => Err(e)
      case Ok(p) => Ok(Prioritize(id, p))
  }

  function ParseReset(id: U32, payload: Bytes): Result<Frame, Reason> {
    if id == 0 then Err(Protocol)
    else if |payload| != 4 then Err(FrameSize)
    else Ok(Reset(id, ReadU32(payload)))
  }

  function ParseSettings(flags: Byte, id: U32, payload: Bytes): Result<Frame, Reason> {
    if id != 0 then Err(Protocol)
    else if AckBit(flags) && payload != [] then Err(FrameSize)
    else if |payload| % 6 != 0 then Err(FrameSize)
    else
      match ReadSettings(payload)
      case Err(e) => Err(e)
      case Ok(settings) => Ok(Settings(AckBit(flags), settings))
  }

  function ParsePushPromise(flags: Byte, id: U32, payload: Bytes): Result<Frame, Reason> {
    if id == 0 then Err(Protocol)
    else
      match Strip(payload, PaddedBit(flags))
      case Err(e) => Err(e)
      case Ok(body) =>
        if |body| < 4 then Err(FrameSize)
        else if ReadU32(body[..4]) % BIT31 == 0 then Err(Protocol)
        else Ok(PushPromise(id, EndHeadersBit(flags), ReadU32(body[..4]) % BIT31, body[4..]))
  }

  function ParsePing(flags: Byte, id: U32, payload: Bytes): Result<Frame, Reason> {
    if id != 0 then Err(Protocol)
    else if |payload| != 8 then Err(FrameSize)
    else Ok(Ping(AckBit(flags), payload))
  }

  function ParseGoAway(id: U32, payload: Bytes): Result<Frame, Reason> {
    if id != 0 then Err(Protocol)
    else if |payload| < 8 then Err(FrameSize)
    else Ok(GoAway(ReadU32(payload[..4]) % BIT31, ReadU32(payload[4..8]), payload[8..]))
  }

  function ParseWindowUpdate(id: U32, payload: Bytes): Result<Frame, Reason> {
    if |payload| != 4 then Err(FrameSize)
    else if ReadU32(payload) % BIT31 == 0 then Err(Protocol)
    else Ok(WindowUpdate(id, ReadU32(payload) % BIT31))
  }

  function ParsePayload(typ: Byte, flags: Byte, id: U32, payload: Bytes): Result<Frame, Reason> {
    if typ == 0 then ParseData(flags, id, payload)
    else if typ == 1 then ParseHeaders(flags, id, payload)
    else if typ == 2 then ParsePriority(id, payload)
    else if typ == 3 then ParseReset(id, payload)
    else if typ == 4 then ParseSettings(flags, id, payload)
    else if typ == 5 then ParsePushPromise(flags, id, payload)
    else if typ == 6 then ParsePing(flags, id, payload)
    else if typ == 7 then ParseGoAway(id, payload)
    else if typ == 8 then ParseWindowUpdate(id, payload)
    else if typ == 9 then Ok(Continuation(id, EndHeadersBit(flags), payload))
    else Ok(Unknown(typ, flags, id, payload))
  }

  /** While a field block is open only its CONTINUATION frames may come, and otherwise none (section 6.10). */
  predicate InTurn(typ: Byte, id: U32, open: Option<U32>) {
    if open.Some? then typ == 9 && id == open.value else typ != 9
  }

  /** The payload limit after a SETTINGS frame: the last SETTINGS_MAX_FRAME_SIZE in it. */
  function Announced(limit: nat, settings: seq<Setting>): nat
    decreases |settings|
  {
    if settings == [] then limit
    else Announced(if settings[0].id == 5 then settings[0].value else limit, settings[1..])
  }

  /** What an accepted frame leaves the decoder with. */
  function After(c: Context, f: Frame): Context {
    match f
    case Headers(id, _, endHeaders, _, _) => if endHeaders then c else c.(open := Some(id))
    case PushPromise(id, endHeaders, _, _) => if endHeaders then c else c.(open := Some(id))
    case Continuation(_, endHeaders, _) => if endHeaders then c.(open := None) else c
    case Settings(ack, settings) => if ack then c else c.(limit := Announced(c.limit, settings))
    case _ => c
  }

  datatype Step = Wait | Fail(used: nat, reason: Reason) | Take(used: nat, frame: Frame)

  function Front(buf: Bytes, c: Context): Step {
    if |buf| < HEADER_LEN then Wait
    else
      var len, id := Length(buf), StreamOf(buf);
      if len > c.limit then Fail(0, FrameSize)
      else if |buf| < HEADER_LEN + len then Wait
      else if !InTurn(buf[3], id, c.open) then Fail(HEADER_LEN + len, Protocol)
      else
        match ParsePayload(buf[3], buf[4], id, buf[HEADER_LEN..HEADER_LEN + len])
        case Err(e) => Fail(HEADER_LEN + len, e)
        case Ok(f) => Take(HEADER_LEN + len, f)
  }

  function Length(buf: Bytes): nat
    requires |buf| >= HEADER_LEN
  {
    Big(buf[..3])
  }

  /** The stream identifier without its reserved bit. */
  function StreamOf(buf: Bytes): U32
    requires |buf| >= HEADER_LEN
  {
    ReadU32(buf[5..9]) % BIT31
  }

  // Whole buffers

  datatype Decoded = Decoded(frames: seq<Frame>, end: Result<Bytes, Reason>, context: Context)

  function Decode(buf: Bytes, c: Context): Decoded
    decreases |buf|
  {
    match Front(buf, c)
    case Wait => Decoded([], Ok(buf), c)
    case Fail(_, e) => Decoded([], Err(e), c)
    case Take(n, f) =>
      var rest := Decode(buf[n..], After(c, f));
      Decoded([f] + rest.frames, rest.end, rest.context)
  }

  lemma FrontStable(buf: Bytes, more: Bytes, c: Context)
    requires !Front(buf, c).Wait?
    ensures Front(buf + more, c) == Front(buf, c)
  {
    hide ParsePayload, Big, InTurn;
    var all := buf + more;
    assert all[..3] == buf[..3] && all[5..9] == buf[5..9];
    var n := HEADER_LEN + Length(buf);
    if n <= |buf| {
      assert all[HEADER_LEN..n] == buf[HEADER_LEN..n];
    }
  }

  /** Going on with `b` after what `first` left over. */
  function Resume(first: Decoded, b: Bytes): Decoded {
    if first.end.Err? then first
    else
      var rest := Decode(first.end.value + b, first.context);
      Decoded(first.frames + rest.frames, rest.end, rest.context)
  }

  /** Decoding a buffer in two parts is decoding it at once, with the same limit and open block. */
  lemma {:induction false} DecodeSplit(a: Bytes, b: Bytes, c: Context)
    ensures Decode(a + b, c) == Resume(Decode(a, c), b)
    decreases |a|
  {
    hide Front, After;
    var s := Front(a, c);
    if s.Wait? {
      var rest := Decode(a + b, c);
      assert [] + rest.frames == rest.frames;
    } else {
      FrontStable(a, b, c);
      if s.Take? {
        TakeBound(a, c);
        assert (a + b)[s.used..] == a[s.used..] + b;
        DecodeSplit(a[s.used..], b, After(c, s.frame));
        ResumeAfter(s.frame, Decode(a[s.used..], After(c, s.frame)), b);
      }
    }
  }

  lemma TakeBound(buf: Bytes, c: Context)
    requires Front(buf, c).Take?
    ensures 0 < Front(buf, c).used <= |buf|
  {
    hide ParsePayload, Big, InTurn;
  }

  lemma ResumeAfter(f: Frame, first: Decoded, b: Bytes)
    ensures var later := Resume(first, b);
            Resume(Decoded([f] + first.frames, first.end, first.context), b)
            == Decoded([f] + later.frames, later.end, later.context)
  {
    hide Decode;
    if first.end.Ok? {
      var rest := Decode(first.end.value + b, first.context);
      assert ([f] + first.frames) + rest.frames == [f] + (first.frames + rest.frames);
    }
  }

  /** Feeding chunks one by one and decoding after each. */
  function Feed(held: Bytes, chunks: seq<Bytes>, c: Context): Decoded
    decreases |chunks|
  {
    if chunks == [] then Decoded([], Ok(held), c)
    else
      var first := Decode(held + chunks[0], c);
      if first.end.Err? then first
      else
        var rest := Feed(first.end.value, chunks[1..], first.context);
        Decoded(first.frames + rest.frames, rest.end, rest.context)
  }

  lemma {:induction false} LeftoverWaits(buf: Bytes, c: Context)
    ensures var d := Decode(buf, c); d.end.Ok? ==> Front(d.end.value, d.context).Wait?
    decreases |buf|
  {
    hide Front, After;
    var s := Front(buf, c);
    if s.Take? {
      TakeBound(buf, c);
      LeftoverWaits(buf[s.used..], After(c, s.frame));
    }
  }

  /** Incremental decoding of any split is batch decoding, the adopted limit and the open block included. */
  lemma {:induction false} ChunkingIndependent(held: Bytes, chunks: seq<Bytes>, c: Context)
    requires Front(held, c).Wait?
    ensures Feed(held, chunks, c) == Decode(held + Flatten(chunks), c)
    decreases |chunks|
  {
    hide Front, After;
    if chunks == [] {
      assert held + [] == held;
    } else {
      var a, b := held + chunks[0], Flatten(chunks[1..]);
      assert held + Flatten(chunks) == a + b;
      DecodeSplit(a, b, c);
      LeftoverWaits(a, c);
      var first := Decode(a, c);
      if first.end.Ok? {
        ChunkingIndependent(first.end.value, chunks[1..], first.context);
      }
    }
  }

  // Discipline over sequences

  /** A frame that leaves its field block unfinished. */
  predicate Opens(f: Frame) {
    (f.Headers? || f.PushPromise?) && !f.endHeaders
  }

  predicate Closes(f: Frame) {
    f.Continuation? && f.endHeaders
  }

  predicate Follows(f: Frame, open: Option<U32>) {
    if open.Some? then f.Continuation? && f.id == open.value else !f.Continuation?
  }

  /** Every frame comes in its turn. */
  ghost predicate Orderly(frames: seq<Frame>, c: Context)
    decreases |frames|
  {
    frames == [] || (Follows(frames[0], c.open) && Orderly(frames[1..], After(c, frames[0])))
  }

  lemma ParsedType(typ: Byte, flags: Byte, id: U32, payload: Bytes)
    ensures var r := ParsePayload(typ, flags, id, payload);
            r.Ok? ==> (r.value.Continuation? <==> typ == 9) && (typ == 9 ==> r.value.id == id)
  {
    hide Strip, ReadPriority, ReadSettings, Big;
  }

  lemma {:induction false} DecodedIsOrderly(buf: Bytes, c: Context)
    ensures Orderly(Decode(buf, c).frames, c)
    decreases |buf|
  {
    hide After, ParsePayload, Big;
    var s := Front(buf, c);
    if s.Take? {
      TakeBound(buf, c);
      var n := s.used;
      ParsedType(buf[3], buf[4], StreamOf(buf), buf[HEADER_LEN..n]);
      DecodedIsOrderly(buf[n..], After(c, s.frame));
      var rest := Decode(buf[n..], After(c, s.frame));
      assert ([s.frame] + rest.frames)[1..] == rest.frames;
    }
  }

  lemma {:induction false} BlockStaysOpen(frames: seq<Frame>, c: Context, j: nat)
    requires Orderly(frames, c) && j < |frames| && c.open.Some?
    requires forall k :: 0 <= k < j ==> !Closes(frames[k])
    ensures frames[j].Continuation? && frames[j].id == c.open.value
    decreases j
  {
    if j > 0 {
      var rest := frames[1..];
      assert forall k :: 0 <= k < j - 1 ==> rest[k] == frames[k + 1];
      assert !Closes(frames[0]);
      BlockStaysOpen(rest, After(c, frames[0]), j - 1);
    }
  }

  /** Between an unfinished HEADERS or PUSH_PROMISE and its END_HEADERS stand only CONTINUATIONs of that stream. */
  lemma {:induction false} OnlyContinuationsFollow(frames: seq<Frame>, c: Context, i: nat, j: nat)
    requires Orderly(frames, c) && i < j < |frames| && Opens(frames[i])
    requires forall k :: i < k < j ==> !Closes(frames[k])
    ensures frames[j].Continuation? && frames[j].id == frames[i].id
    decreases i
  {
    var rest := frames[1..];
    assert forall k :: 0 <= k < |rest| ==> rest[k] == frames[k + 1];
    if i == 0 {
      BlockStaysOpen(rest, After(c, frames[0]), j - 1);
    } else {
      OnlyContinuationsFollow(rest, After(c, frames[0]), i - 1, j - 1);
    }
  }

  /** And a CONTINUATION always belongs to a block that was opened and not yet finished. */
  lemma {:induction false} ContinuationBelongs(frames: seq<Frame>, c: Context, j: nat) returns (i: int)
    requires Orderly(frames, c) && j < |frames| && frames[j].Continuation?
    ensures -1 <= i < j && (forall k :: i < k < j ==> !Closes(frames[k]))
    ensures i >= 0 ==> Opens(frames[i]) && frames[i].id == frames[j].id
    ensures i == -1 ==> c.open == Some(frames[j].id)
    decreases j
  {
    i := -1;
    if j > 0 {
      var rest := frames[1..];
      assert forall k :: 0 <= k < |rest| ==> rest[k] == frames[k + 1];
      var i' := ContinuationBelongs(rest, After(c, frames[0]), j - 1);
      if i' >= 0 {
        i := i' + 1;
        assert forall k :: i < k < j ==> frames[k] == rest[k - 1];
      } else {
        i := if Opens(frames[0]) then 0 else -1;
        assert forall k :: 0 < k < j ==> frames[k] == rest[k - 1];
      }
    }
  }

  // What the limit on received payloads follows

  /** The last SETTINGS_MAX_FRAME_SIZE a list of parameters announces, searched from its end. */
  function LastSize(settings: seq<Setting>): Option<nat>
    decreases |settings|
  {
    if settings == [] then None
    else if settings[|settings| - 1].id == 5 then Some(settings[|settings| - 1].value)
    else LastSize(settings[..|settings| - 1])
  }

  /** The last one any non-ACK SETTINGS frame announced. */
  function LastAnnounced(frames: seq<Frame>): Option<nat>
    decreases |frames|
  {
    if frames == [] then None
    else
      var f := frames[|frames| - 1];
      if f.Settings? && !f.ack && LastSize(f.settings).Some? then LastSize(f.settings)
      else LastAnnounced(frames[..|frames| - 1])
  }

  function Or(o: Option<nat>, otherwise: nat): nat {
    if o.Some? then o.value else otherwise
  }

  lemma {:induction false} AnnouncedSnoc(limit: nat, settings: seq<Setting>, s: Setting)
    ensures Announced(limit, settings + [s]) == if s.id == 5 then s.value else Announced(limit, settings)
    decreases |settings|
  {
    if settings == [] {
      assert [s][1..] == [];
    } else {
      assert (settings + [s])[1..] == settings[1..] + [s];
      AnnouncedSnoc(if settings[0].id == 5 then settings[0].value else limit, settings[1..], s);
    }
  }

  lemma {:induction false} AnnouncedIsLast(limit: nat, settings: seq<Setting>)
    ensures Announced(limit, settings) == Or(LastSize(settings), limit)
    decreases |settings|
  {
    if settings != [] {
      var most, last := settings[..|settings| - 1], settings[|settings| - 1];
      assert settings == most + [last];
      AnnouncedSnoc(limit, most, last);
      AnnouncedIsLast(limit, most);
    }
  }

  function Folded(c: Context, frames: seq<Frame>): Context
    decreases |frames|
  {
    if frames == [] then c else Folded(After(c, frames[0]), frames[1..])
  }

  lemma {:induction false} FoldedSnoc(c: Context, frames: seq<Frame>, f: Frame)
    ensures Folded(c, frames + [f]) == After(Folded(c, frames), f)
    decreases |frames|
  {
    hide After;
    if frames == [] {
      assert [f][1..] == [];
    } else {
      assert (frames + [f])[1..] == frames[1..] + [f];
      FoldedSnoc(After(c, frames[0]), frames[1..], f);
    }
  }

  lemma {:induction false} DecodedFolds(buf: Bytes, c: Context)
    ensures Decode(buf, c).context == Folded(c, Decode(buf, c).frames)
    decreases |buf|
  {
    hide Front, After;
    var s := Front(buf, c);
    if s.Take? {
      TakeBound(buf, c);
      DecodedFolds(buf[s.used..], After(c, s.frame));
      var rest := Decode(buf[s.used..], After(c, s.frame));
      assert ([s.frame] + rest.frames)[1..] == rest.frames;
    }
  }

  lemma {:induction false} FoldedLimit(c: Context, frames: seq<Frame>)
    ensures Folded(c, frames).limit == Or(LastAnnounced(frames), c.limit)
    decreases |frames|
  {
    if frames != [] {
      var most, last := frames[..|frames| - 1], frames[|frames| - 1];
      assert frames == most + [last];
      FoldedSnoc(c, most, last);
      FoldedLimit(c, most);
      if last.Settings? {
        AnnouncedIsLast(Folded(c, most).limit, last.settings);
      }
    }
  }

  /**
   The limit on payloads this endpoint receives is what the peer last announced
   for itself; it is still the configured one exactly when the peer announced
   none or the same.
   */
  lemma LimitFollowsPeer(buf: Bytes, c: Context)
    ensures var d := Decode(buf, c);
            && d.context.limit == Or(LastAnnounced(d.frames), c.limit)
            && (d.context.limit == c.limit <==> LastAnnounced(d.frames) in {None, Some(c.limit)})
  {
    hide Decode, Folded, LastAnnounced;
    DecodedFolds(buf, c);
    FoldedLimit(c, Decode(buf, c).frames);
  }
}
