/**
 HTTP/3 frames (section 7 of RFC 9114) over flat octets: the parser one step
 at a time, the serializer, and the way both are inverse to each other.
 `src/h3/frame.rs`.
 */
module H3Frame {
  import opened Basics
  import opened Varint

  const MAX_SETTINGS_ENTRIES: nat := 32
  const MAX_SETTINGS_PAYLOAD: nat := 4096
  const MAX_FRAME_PAYLOAD: nat := 16777215

  datatype Setting = Setting(id: nat, value: nat)

  datatype Frame =
    | Data(payload: Bytes)
    | Headers(payload: Bytes)
    | CancelPush(id: nat)
    | Settings(entries: seq<Setting>)
    | PushPromise(id: nat, payload: Bytes)
    | Goaway(id: nat)
    | MaxPushId(id: nat)

  datatype FrameError = Malformed | Unexpected(ty: nat) | BadSettings | ExcessiveLoad

  // Parsing

  /** HTTP/2 frame types with no HTTP/3 counterpart. */
  predicate Foreign(ty: nat) {
    ty == 2 || ty == 6 || ty == 8 || ty == 9
  }

  predicate Known(ty: nat) {
    ty == 0 || ty == 1 || ty == 3 || ty == 4 || ty == 5 || ty == 7 || ty == 13
  }

  predicate Grease(id: nat) {
    id >= 0x21 && (id - 0x21) % 0x1f == 0
  }

  predicate Reserved(id: nat) {
    2 <= id <= 5
  }

  /** Why a frame is refused from its header alone. */
  function Refusal(ty: nat, len: nat, maxField: Option<nat>): Option<FrameError> {
    if ty == 4 && len > MAX_SETTINGS_PAYLOAD then Some(BadSettings)
    else if len > MAX_FRAME_PAYLOAD then Some(ExcessiveLoad)
    else if (ty == 1 || ty == 5) && maxField.Some? && len > maxField.value then Some(ExcessiveLoad)
    else if (ty == 3 || ty == 7 || ty == 13) && len > 8 then Some(Malformed)
    else None
  }

  /** The parameters of a SETTINGS payload after those with the identifiers `seen`. */
  function ParseSettings(rest: Bytes, seen: seq<nat>): Result<seq<Setting>, FrameError>
    decreases |rest|
  {
    if rest == [] then Ok([])
    else
      var id := Parse(rest);
      if !id.Got? then Err(Malformed)
      else
        var value := Parse(rest[id.len..]);
        if !value.Got? then Err(Malformed)
        else if |seen| >= MAX_SETTINGS_ENTRIES || Reserved(id.value) || id.value in seen then Err(BadSettings)
        else
          match ParseSettings(rest[id.len + value.len..], seen + [id.value])
          case Err(e) => Err(e)
          case Ok(more) => Ok(if Grease(id.value) then more else [Setting(id.value, value.value)] + more)
  }

  /** The one integer that must fill a payload. */
  function TakeVarint(payload: Bytes): Result<nat, FrameError> {
    var g := Parse(payload);
    if g.Got? && g.len == |payload| then Ok(g.value) else Err(Malformed)
  }

  function Payload(ty: nat, payload: Bytes): Result<Frame, FrameError>
    requires Known(ty)
  {
    if ty == 0 then Ok(Data(payload))
    else if ty == 1 then Ok(Headers(payload))
    else if ty == 4 then
      match ParseSettings(payload, [])
      case Err(e) => Err(e)
      case Ok(entries) => Ok(Settings(entries))
    else if ty == 5 then
      var g := Parse(payload);
      if g.Got? then Ok(PushPromise(g.value, payload[g.len..])) else Err(Malformed)
    else
      match TakeVarint(payload)
      case Err(e) => Err(e)
      case Ok(id) => Ok(if ty == 3 then CancelPush(id) else if ty == 7 then Goaway(id) else MaxPushId(id))
  }

  /** What the front of a buffer amounts to, with the number of octets it uses up. */
  datatype Step = Wait | Fail(used: nat, error: FrameError) | Skip(used: nat) | Take(used: nat, frame: Frame)

  function Body(ty: nat, len: nat, head: nat, buf: Bytes, maxField: Option<nat>): Step {
    match Refusal(ty, len, maxField)
    case Some(e) => Fail(0, e)
    case None =>
      if head + len > |buf| then Wait
      else if !Known(ty) then Skip(head + len)
      else
        match Payload(ty, buf[head..head + len])
        case Ok(f) => Take(head + len, f)
        case Err(e) => Fail(head + len, e)
  }

  function Front(buf: Bytes, maxField: Option<nat>): Step {
    match Parse(buf)
    case More => Wait
    case Bad => Fail(0, Malformed)
    case Got(ty, typeLen) =>
      if Foreign(ty) then Fail(0, Unexpected(ty))
      else
        match Parse(buf[typeLen..])
        case More => Wait
        case Bad => Fail(0, Malformed)
        case Got(len, lenLen) => Body(ty, len, typeLen + lenLen, buf, maxField)
  }

  lemma FrontUses(buf: Bytes, maxField: Option<nat>)
    ensures var s := Front(buf, maxField); s.Skip? || s.Take? ==> 0 < s.used <= |buf|
    ensures var s := Front(buf, maxField); s.Fail? ==> s.used <= |buf|
  {
    hide Refusal, Payload;
  }

  /** The frames a flat octet string holds, up to the first error or an incomplete rest. */
  datatype Decoded = Decoded(frames: seq<Frame>, end: Result<Bytes, FrameError>)

  function Decode(buf: Bytes, maxField: Option<nat>): Decoded
    decreases |buf|
  {
    FrontUses(buf, maxField);
    match Front(buf, maxField)
    case Wait => Decoded([], Ok(buf))
    case Fail(_, e) => Decoded([], Err(e))
    case Skip(n) => Decode(buf[n..], maxField)
    case Take(n, f) =>
      var rest := Decode(buf[n..], maxField);
      Decoded([f] + rest.frames, rest.end)
  }

  /** A decision about the front of the buffer stands whatever arrives later. */
  lemma FrontStable(buf: Bytes, more: Bytes, maxField: Option<nat>)
    requires !Front(buf, maxField).Wait?
    ensures Front(buf + more, maxField) == Front(buf, maxField)
  {
    hide Parse, Refusal, Payload;
    ReadStable(buf, more);
    var ty := Parse(buf);
    if ty.Got? && !Foreign(ty.value) {
      ReadBound(buf);
      assert (buf + more)[ty.len..] == buf[ty.len..] + more;
      ReadStable(buf[ty.len..], more);
      var len := Parse(buf[ty.len..]);
      if len.Got? {
        ReadBound(buf[ty.len..]);
        BodyStable(ty.value, len.value, ty.len + len.len, buf, more, maxField);
      }
    }
  }

  lemma ReadBound(buf: Bytes)
    ensures Parse(buf).Got? ==> 0 < Parse(buf).len <= 8 && Parse(buf).len <= |buf|
  {
  }

  lemma BodyStable(ty: nat, len: nat, head: nat, buf: Bytes, more: Bytes, maxField: Option<nat>)
    requires !Body(ty, len, head, buf, maxField).Wait?
    ensures Body(ty, len, head, buf + more, maxField) == Body(ty, len, head, buf, maxField)
  {
    hide Refusal, Payload, Known;
    if head + len <= |buf| {
      assert (buf + more)[head..head + len] == buf[head..head + len];
    }
  }

  /** What an incomplete frame may make the decoder hold. */
  function PayloadLimit(ty: nat, maxField: Option<nat>): nat {
    if ty == 4 then MAX_SETTINGS_PAYLOAD
    else if ty == 3 || ty == 7 || ty == 13 then 8
    else if (ty == 1 || ty == 5) && maxField.Some? && maxField.value < MAX_FRAME_PAYLOAD then maxField.value
    else MAX_FRAME_PAYLOAD
  }

  /** Octets left waiting are fewer than one header and the payload limit of the type they announce. */
  lemma WaitingIsBounded(buf: Bytes, maxField: Option<nat>)
    requires Front(buf, maxField).Wait?
    ensures |buf| < 16 + MAX_FRAME_PAYLOAD
    ensures Parse(buf).Got? ==> |buf| < 16 + PayloadLimit(Parse(buf).value, maxField)
    ensures !Parse(buf).Got? ==> |buf| < 8
  {
    hide Parse;
    ReadStable(buf, []);
    ReadBound(buf);
    var ty := Parse(buf);
    if ty.Got? {
      ReadStable(buf[ty.len..], []);
      ReadBound(buf[ty.len..]);
    }
  }

  // Chunking

  /** `later` decoded after the frames of `first`. */
  function Append(first: Decoded, later: Decoded): Decoded {
    Decoded(first.frames + later.frames, later.end)
  }

  /** Going on with `b` after what `first` left over. */
  function Resume(first: Decoded, b: Bytes, maxField: Option<nat>): Decoded {
    if first.end.Err? then first else Append(first, Decode(first.end.value + b, maxField))
  }

  lemma DecodeAfter(buf: Bytes, maxField: Option<nat>)
    requires var s := Front(buf, maxField); s.Skip? || s.Take?
    ensures var s := Front(buf, maxField);
            && 0 < s.used <= |buf|
            && var later := Decode(buf[s.used..], maxField);
               Decode(buf, maxField) == if s.Take? then Decoded([s.frame] + later.frames, later.end) else later
  {
    hide Front;
    FrontUses(buf, maxField);
  }

  lemma ResumeAfter(f: Frame, first: Decoded, b: Bytes, maxField: Option<nat>)
    ensures var later := Resume(first, b, maxField);
            Resume(Decoded([f] + first.frames, first.end), b, maxField) == Decoded([f] + later.frames, later.end)
  {
    hide Decode;
    if first.end.Ok? {
      var rest := Decode(first.end.value + b, maxField);
      assert ([f] + first.frames) + rest.frames == [f] + (first.frames + rest.frames);
    }
  }

  /** Decoding a buffer in two parts is decoding it at once. */
  lemma {:induction false} DecodeSplit(a: Bytes, b: Bytes, maxField: Option<nat>)
    ensures Decode(a + b, maxField) == Resume(Decode(a, maxField), b, maxField)
    decreases |a|
  {
    hide Front, Resume, Decode;
    var s := Front(a, maxField);
    if s.Wait? {
      WaitingResumes(a, b, maxField);
    } else if s.Fail? {
      FailureStands(a, b, maxField);
    } else {
      FrontStable(a, b, maxField);
      DecodeAfter(a, maxField);
      DecodeAfter(a + b, maxField);
      assert (a + b)[s.used..] == a[s.used..] + b;
      DecodeSplit(a[s.used..], b, maxField);
      if s.Take? {
        ResumeAfter(s.frame, Decode(a[s.used..], maxField), b, maxField);
      }
    }
  }

  lemma WaitingResumes(a: Bytes, b: Bytes, maxField: Option<nat>)
    requires Front(a, maxField).Wait?
    ensures Decode(a + b, maxField) == Resume(Decode(a, maxField), b, maxField)
  {
    hide Front;
    var rest := Decode(a + b, maxField);
    assert [] + rest.frames == rest.frames;
  }

  lemma FailureStands(a: Bytes, b: Bytes, maxField: Option<nat>)
    requires Front(a, maxField).Fail?
    ensures Decode(a + b, maxField) == Resume(Decode(a, maxField), b, maxField)
  {
    hide Front;
    FrontStable(a, b, maxField);
  }

  /** Feeding chunks one by one and draining after each, starting with `held` left over. */
  function Feed(held: Bytes, chunks: seq<Bytes>, maxField: Option<nat>): Decoded
    decreases |chunks|
  {
    if chunks == [] then Decoded([], Ok(held))
    else
      var first := Decode(held + chunks[0], maxField);
      if first.end.Err? then first else Append(first, Feed(first.end.value, chunks[1..], maxField))
  }

  /** What is left over holds no complete frame. */
  lemma {:induction false} LeftoverWaits(buf: Bytes, maxField: Option<nat>)
    ensures Decode(buf, maxField).end.Ok? ==> Front(Decode(buf, maxField).end.value, maxField).Wait?
    decreases |buf|
  {
    hide Front;
    var s := Front(buf, maxField);
    FrontUses(buf, maxField);
    if s.Skip? || s.Take? {
      LeftoverWaits(buf[s.used..], maxField);
    }
  }

  /** However a byte string is cut into chunks, the frames, the rest and the first error are the same. */
  lemma {:induction false} ChunkingIndependent(held: Bytes, chunks: seq<Bytes>, maxField: Option<nat>)
    requires Front(held, maxField).Wait?
    ensures Feed(held, chunks, maxField) == Decode(held + Flatten(chunks), maxField)
    decreases |chunks|
  {
    hide Front;
    if chunks == [] {
      assert held + [] == held;
    } else {
      var a, b := held + chunks[0], Flatten(chunks[1..]);
      assert held + Flatten(chunks) == a + b;
      DecodeSplit(a, b, maxField);
      LeftoverWaits(a, maxField);
      if Decode(a, maxField).end.Ok? {
        ChunkingIndependent(Decode(a, maxField).end.value, chunks[1..], maxField);
      }
    }
  }
}
