/**
 The HTTP/2 frame decoder object, the frame writers, and the splitting of a
 field block over HEADERS and CONTINUATION frames.
 */
module H2Codec {
  import opened Basics
  import opened Varint
  import opened H2Frame
  import opened H2Layout

  // Field blocks

  /** The CONTINUATION frames that carry `rest`. */
  function Continuations(limit: nat, id: U32, rest: Bytes): seq<Frame>
    requires limit > 0
    decreases |rest|
  {
    if |rest| <= limit then [Continuation(id, true, rest)]
    else [Continuation(id, false, rest[..limit])] + Continuations(limit, id, rest[limit..])
  }

  function FieldBlock(limit: nat, id: U32, endStream: bool, block: Bytes): seq<Frame>
    requires limit > 0
  {
    if |block| <= limit then [Headers(id, endStream, true, None, block)]
    else [Headers(id, endStream, false, None, block[..limit])] + Continuations(limit, id, block[limit..])
  }

  predicate Carries(f: Frame) {
    f.Headers? || f.Continuation?
  }

  /** The fragments put together again. */
  function Reassembled(frames: seq<Frame>): Bytes
    decreases |frames|
  {
    if frames == [] then [] else (if Carries(frames[0]) then frames[0].block else []) + Reassembled(frames[1..])
  }

  /** The pieces of a split field block: within the limit, of one stream, finished by the last one only. */
  ghost predicate Pieces(frames: seq<Frame>, limit: nat, id: U32) {
    forall i :: 0 <= i < |frames| ==>
      && Carries(frames[i]) && frames[i].id == id && |Core(frames[i])| <= limit
      && frames[i].endHeaders == (i == |frames| - 1)
  }

  lemma {:induction false} ContinuationsReassemble(limit: nat, id: U32, rest: Bytes)
    requires limit > 0
    ensures var frames := Continuations(limit, id, rest);
            && frames != [] && Pieces(frames, limit, id) && Reassembled(frames) == rest
            && forall i :: 0 <= i < |frames| ==> frames[i].Continuation?
    decreases |rest|
  {
    var frames := Continuations(limit, id, rest);
    if |rest| <= limit {
      assert frames[1..] == [];
      assert rest + [] == rest;
    } else {
      var later := Continuations(limit, id, rest[limit..]);
      ContinuationsReassemble(limit, id, rest[limit..]);
      assert frames[1..] == later;
      assert forall i :: 0 < i < |frames| ==> frames[i] == later[i - 1];
      assert rest == rest[..limit] + rest[limit..];
    }
  }

  /** A split field block stays within the limit, reassembles to the block and ends once, on its last frame. */
  lemma FieldBlockReassembles(limit: nat, id: U32, endStream: bool, block: Bytes)
    requires limit > 0
    ensures var frames := FieldBlock(limit, id, endStream, block);
            && Pieces(frames, limit, id) && Reassembled(frames) == block
            && frames[0].Headers? && frames[0].endStream == endStream && frames[0].priority == None
            && forall i :: 0 < i < |frames| ==> frames[i].Continuation?
  {
    hide Continuations;
    var frames := FieldBlock(limit, id, endStream, block);
    assert forall b: Bytes :: [] + b == b;
    if |block| <= limit {
      assert frames[1..] == [];
      assert block + [] == block;
    } else {
      var later := Continuations(limit, id, block[limit..]);
      ContinuationsReassemble(limit, id, block[limit..]);
      assert frames[1..] == later;
      assert forall i :: 0 < i < |frames| ==> frames[i] == later[i - 1];
      assert block == block[..limit] + block[limit..];
    }
  }

  /** Frames written one after the other, unpadded. */
  function WireAll(frames: seq<Frame>): Bytes
    decreases |frames|
  {
    if frames == [] then [] else Wire(frames[0], None) + WireAll(frames[1..])
  }

  /** Every frame legal where it comes. */
  predicate AllLegal(frames: seq<Frame>, c: Context)
    decreases |frames|
  {
    frames == [] ||
    (&& Fits(frames[0]) && |Core(frames[0])| < 0x100_0000 && Legal(frames[0], None, c)
     && AllLegal(frames[1..], After(c, frames[0])))
  }

  lemma TakeDecodes(buf: Bytes, c: Context)
    requires Front(buf, c).Take?
    ensures var s := Front(buf, c);
            && s.used <= |buf|
            && var rest := Decode(buf[s.used..], After(c, s.frame));
               Decode(buf, c) == Decoded([s.frame] + rest.frames, rest.end, rest.context)
  {
    hide Front, After;
    TakeBound(buf, c);
  }

  /** A legal sequence of frames decodes to itself and decoding goes on behind it. */
  lemma {:induction false} WrittenDecodes(frames: seq<Frame>, tail: Bytes, c: Context)
    requires AllLegal(frames, c)
    ensures var rest := Decode(tail, Folded(c, frames));
            Decode(WireAll(frames) + tail, c) == Decoded(frames + rest.frames, rest.end, rest.context)
    decreases |frames|
  {
    hide Wire, Front, Fits, Legal, After, Core, Decode;
    var rest := Decode(tail, Folded(c, frames));
    if frames == [] {
      assert [] + tail == tail && [] + rest.frames == rest.frames;
    } else {
      var f, later := frames[0], frames[1..];
      var e, more := Wire(f, None), WireAll(later) + tail;
      assert WireAll(frames) + tail == e + more;
      WrittenFront(f, None, more, c);
      TakeDecodes(e + more, c);
      assert (e + more)[|e|..] == more;
      WrittenDecodes(later, tail, After(c, f));
      assert [f] + (later + rest.frames) == frames + rest.frames;
    }
  }

  /**
   A DATA frame over the limit is an error, but behind a SETTINGS frame in which
   the peer announces that size for itself it is accepted.
   */
  lemma PeerRaisesReceiveLimit(c: Context, id: U32, data: Bytes, tail: Bytes)
    requires c.open == None && 0 < id < BIT31 && 6 <= c.limit < |data|
    requires DEFAULT_MAX_FRAME_SIZE <= |data| <= MAX_FRAME_SIZE_LIMIT
    ensures Front(Wire(Data(id, true, data), None) + tail, c).Fail?
    ensures var frames := [Settings(false, [Setting(5, |data|)]), Data(id, true, data)];
            frames <= Decode(WireAll(frames) + tail, c).frames
  {
    hide Wire, WireAll, Decode, Front;
    var announced, big := Settings(false, [Setting(5, |data|)]), Data(id, true, data);
    var frames := [announced, big];
    WrittenFront(big, None, tail, c);
    assert SettingsText(announced.settings) == SettingText(announced.settings[0]) + SettingsText([]) by {
      assert announced.settings[1..] == [];
    }
    var after := After(c, announced);
    assert announced.settings == [] + [Setting(5, |data|)];
    AnnouncedSnoc(c.limit, [], Setting(5, |data|));
    assert after == Context(|data|, None);
    assert frames[1..] == [big] && [big][1..] == [];
    assert AllLegal([], After(after, big));
    assert AllLegal([big], after);
    WrittenDecodes(frames, tail, c);
  }

  lemma {:induction false} ContinuationsLegal(limit: nat, id: U32, rest: Bytes, c: Context)
    requires 0 < limit <= c.limit && limit < 0x100_0000 && id < BIT31 && c.open == Some(id)
    ensures AllLegal(Continuations(limit, id, rest), c)
    ensures Folded(c, Continuations(limit, id, rest)) == c.(open := None)
    decreases |rest|
  {
    var frames := Continuations(limit, id, rest);
    if |rest| <= limit {
      assert frames[1..] == [];
    } else {
      ContinuationsLegal(limit, id, rest[limit..], c);
      assert frames[1..] == Continuations(limit, id, rest[limit..]);
    }
  }

  /** A peer whose limit is respected reads the split block back and is left with no open block. */
  lemma FieldBlockDecodes(limit: nat, id: U32, endStream: bool, block: Bytes, tail: Bytes, c: Context)
    requires 0 < limit <= c.limit && limit < 0x100_0000 && 0 < id < BIT31 && c.open == None
    ensures var frames, rest := FieldBlock(limit, id, endStream, block), Decode(tail, c);
            Decode(WireAll(frames) + tail, c) == Decoded(frames + rest.frames, rest.end, rest.context)
  {
    hide Decode, WireAll, Continuations;
    var frames := FieldBlock(limit, id, endStream, block);
    if |block| <= limit {
      assert frames[1..] == [];
    } else {
      ContinuationsLegal(limit, id, block[limit..], c.(open := Some(id)));
      assert frames[1..] == Continuations(limit, id, block[limit..]);
    }
    WrittenDecodes(frames, tail, c);
  }

  // Writers

  method WriteHeader(out: Bytes, len: nat, typ: Byte, flags: Byte, id: U32) returns (r: Bytes)
    ensures r == out + HeaderText(len, typ, flags, id)
  {
    r := out;
    r := r + [len / 0x1_0000 % 256];
    r := r + [len / 0x100 % 256];
    r := r + [len % 256];
    r := r + [typ];
    r := r + [flags];
    r := r + [id / 0x100_0000 % 128];
    r := r + [id / 0x1_0000 % 256];
    r := r + [id / 0x100 % 256];
    r := r + [id % 256];
    LengthOctets(len);
    StreamOctets(id);
    assert r == out + ([len / 0x1_0000 % 256, len / 0x100 % 256, len % 256] + [typ] + [flags]
                       + [id / 0x100_0000 % 128, id / 0x1_0000 % 256, id / 0x100 % 256, id % 256]);
  }

  /** A number split into its three low octets and the rest. */
  lemma LowOctets(x: nat) returns (q: nat, low: nat, a: nat, b: nat, c: nat)
    ensures x == 0x100_0000 * q + low && low < 0x100_0000 && a < 256 && b < 256 && c < 256
    ensures x / 0x100_0000 == q && x / 0x1_0000 % 256 == a && x / 0x100 % 256 == b && x % 256 == c
    ensures BigEndian(low, 3) == [a, b, c]
  {
    var m := x / 256;
    var k := m / 256;
    q, a, b, c := k / 256, k % 256, m % 256, x % 256;
    low := (a * 256 + b) * 256 + c;
    assert x / 0x1_0000 == k;
    SpellThree(a, b, c);
  }

  lemma SpellThree(a: nat, b: nat, c: nat)
    requires a < 256 && b < 256 && c < 256
    ensures BigEndian((a * 256 + b) * 256 + c, 3) == [a, b, c]
  {
    var s: Bytes := [a, b, c];
    assert s[..2] == [a, b] && s[..2][..1] == [a];
    assert Big(s[..2][..1]) == a;
    assert Big(s[..2]) == a * 256 + b;
    BigEndianOfBig(s);
  }

  lemma LengthOctets(len: nat)
    ensures BigEndian(len % 0x100_0000, 3) == [len / 0x1_0000 % 256, len / 0x100 % 256, len % 256]
  {
    hide BigEndian;
    var q, low, a, b, c := LowOctets(len);
    assert len % 0x100_0000 == low;
  }

  lemma StreamOctets(id: U32)
    ensures BigEndian(Masked(id), 4) ==
            [id / 0x100_0000 % 128, id / 0x1_0000 % 256, id / 0x100 % 256, id % 256]
  {
    hide BigEndian;
    var q, low, a, b, c := LowOctets(id);
    assert Masked(id) == 0x100_0000 * (q % 128) + low;
    Powers();
    BigEndianCons(q % 128, low, 3);
  }

  method WritePriorityFields(out: Bytes, p: Priority) returns (r: Bytes)
    ensures r == out + PriorityText(p)
  {
    hide BigEndian;
    r := out + BigEndian(Masked(p.dependency) + (if p.exclusive then BIT31 else 0), 4);
    r := r + [p.weight];
  }

  method WriteData(out: Bytes, id: U32, endStream: bool, data: Bytes) returns (r: Bytes)
    ensures r == out + Wire(Data(id, endStream, data), None)
  {
    hide HeaderText;
    r := WriteHeader(out, |data|, 0, if endStream then 1 else 0, id);
    r := r + data;
  }

  method WriteHeaders(out: Bytes, id: U32, endStream: bool, endHeaders: bool, priority: Option<Priority>, block: Bytes)
    returns (r: Bytes)
    ensures r == out + Wire(Headers(id, endStream, endHeaders, priority, block), None)
  {
    hide HeaderText, PriorityText, EndStreamBit, EndHeadersBit, PaddedBit, PriorityBit, AckBit;
    var flags: nat := 0;
    if endStream {
      flags := flags + 1;
    }
    if endHeaders {
      flags := flags + 4;
    }
    var extra := if priority.Some? then 5 else 0;
    if extra != 0 {
      flags := flags + 32;
    }
    ghost var f := Headers(id, endStream, endHeaders, priority, block);
    assert flags == FlagsOf(f, false) && |Core(f)| == |block| + extra;
    r := WriteHeader(out, |block| + extra, 1, flags, id);
    ghost var head := r;
    if priority.Some? {
      r := WritePriorityFields(r, priority.value);
      assert r + block == head + (PriorityText(priority.value) + block);
    } else {
      assert [] + block == block;
    }
    r := r + block;
  }

  method WriteContinuation(out: Bytes, id: U32, endHeaders: bool, block: Bytes) returns (r: Bytes)
    ensures r == out + Wire(Continuation(id, endHeaders, block), None)
  {
    hide HeaderText;
    r := WriteHeader(out, |block|, 9, if endHeaders then 4 else 0, id);
    r := r + block;
  }

  /** `write_field_block`: as many CONTINUATION frames as the peer's limit makes necessary. */
  method WriteFieldBlock(out: Bytes, limit: nat, id: U32, endStream: bool, block: Bytes) returns (r: Bytes)
    requires limit > 0
    ensures r == out + WireAll(FieldBlock(limit, id, endStream, block))
  {
    hide Wire;
    ghost var frames := FieldBlock(limit, id, endStream, block);
    if |block| <= limit {
      r := WriteHeaders(out, id, endStream, true, None, block);
      assert frames[1..] == [];
      assert WireAll(frames) == Wire(frames[0], None) + [];
      return;
    }
    r := WriteHeaders(out, id, endStream, false, None, block[..limit]);
    var rest := block[limit..];
    ghost var all := out + WireAll(frames);
    assert frames[1..] == Continuations(limit, id, rest);
    assert all == r + WireAll(Continuations(limit, id, rest));
    while |rest| > limit
      invariant all == r + WireAll(Continuations(limit, id, rest))
      decreases |rest|
    {
      ghost var f, later := Continuation(id, false, rest[..limit]), Continuations(limit, id, rest[limit..]);
      assert Continuations(limit, id, rest) == [f] + later && ([f] + later)[1..] == later;
      assert r + (Wire(f, None) + WireAll(later)) == (r + Wire(f, None)) + WireAll(later);
      r := WriteContinuation(r, id, false, rest[..limit]);
      rest := rest[limit..];
    }
    ghost var last := Continuations(limit, id, rest);
    assert last[1..] == [];
    assert WireAll(last) == Wire(last[0], None) + [];
    r := WriteContinuation(r, id, true, rest);
  }

  method WritePriority(out: Bytes, id: U32, p: Priority) returns (r: Bytes)
    ensures r == out + Wire(Prioritize(id, p), None)
  {
    hide HeaderText, PriorityText;
    r := WriteHeader(out, 5, 2, 0, id);
    r := WritePriorityFields(r, p);
  }

  method WriteReset(out: Bytes, id: U32, code: U32) returns (r: Bytes)
    ensures r == out + Wire(Reset(id, code), None)
  {
    hide HeaderText, BigEndian;
    r := WriteHeader(out, 4, 3, 0, id);
    r := r + BigEndian(code, 4);
  }

  method WriteSettings(out: Bytes, settings: seq<Setting>) returns (r: Bytes)
    ensures r == out + Wire(Settings(false, settings), None)
  {
    hide HeaderText, BigEndian;
    r := WriteHeader(out, |settings| * 6, 4, 0, 0);
    ghost var head := r;
    assert settings[0..] == settings;
    for i := 0 to |settings|
      invariant r + SettingsText(settings[i..]) == head + SettingsText(settings)
    {
      assert settings[i..][1..] == settings[i + 1..];
      ghost var s, later := settings[i], SettingsText(settings[i + 1..]);
      assert r + (SettingText(s) + later) == (r + BigEndian(s.id, 2) + BigEndian(s.value, 4)) + later;
      r := r + BigEndian(settings[i].id, 2);
      r := r + BigEndian(settings[i].value, 4);
    }
    assert r + [] == r;
  }

  method WriteSettingsAck(out: Bytes) returns (r: Bytes)
    ensures r == out + Wire(Settings(true, []), None)
  {
    hide HeaderText;
    r := WriteHeader(out, 0, 4, 1, 0);
    assert r + [] == r;
  }

  method WritePushPromise(out: Bytes, id: U32, promised: U32, block: Bytes) returns (r: Bytes)
    ensures r == out + Wire(PushPromise(id, true, promised, block), None)
  {
    hide HeaderText, BigEndian;
    r := WriteHeader(out, 4 + |block|, 5, 4, id);
    ghost var head := r;
    r := r + BigEndian(Masked(promised), 4);
    r := r + block;
    assert r == head + (BigEndian(Masked(promised), 4) + block);
  }

  method WritePing(out: Bytes, ack: bool, opaque8: Bytes) returns (r: Bytes)
    requires |opaque8| == 8
    ensures r == out + Wire(Ping(ack, opaque8), None)
  {
    hide HeaderText;
    r := WriteHeader(out, 8, 6, if ack then 1 else 0, 0);
    r := r + opaque8;
  }

  method WriteGoAway(out: Bytes, last: U32, code: U32, debug: Bytes) returns (r: Bytes)
    ensures r == out + Wire(GoAway(last, code, debug), None)
  {
    hide HeaderText, BigEndian;
    r := WriteHeader(out, 8 + |debug|, 7, 0, 0);
    ghost var head := r;
    r := r + BigEndian(Masked(last), 4);
    r := r + BigEndian(code, 4);
    r := r + debug;
    assert r == head + (BigEndian(Masked(last), 4) + BigEndian(code, 4) + debug);
  }

  method WriteWindowUpdate(out: Bytes, id: U32, increment: U32) returns (r: Bytes)
    ensures r == out + Wire(WindowUpdate(id, increment), None)
  {
    hide HeaderText, BigEndian;
    r := WriteHeader(out, 4, 8, 0, id);
    r := r + BigEndian(Masked(increment), 4);
  }

  // The decoder object

  /** `take_padding`: the body moves inside the payload, and the padding length is returned for `payload_slice`. */
  method TakePadding(body: Bytes, padded: bool) returns (r: Result<Bytes, Reason>, padLen: nat)
    ensures r == Strip(body, padded)
    ensures r.Ok? ==> |r.value| + padLen <= |body| && body[|body| - padLen - |r.value|..|body| - padLen] == r.value
  {
    padLen := 0;
    if !padded {
      r := Ok(body);
      return;
    }
    if |body| == 0 {
      r := Err(FrameSize);
      return;
    }
    if body[0] >= |body| {
      r := Err(Protocol);
      return;
    }
    padLen := body[0];
    r := Ok(body[1..|body| - padLen]);
  }

  /** `payload_slice`: the range of the payload a body of `n` octets ahead of the padding occupies. */
  function PayloadSlice(payload: Bytes, n: nat, padLen: nat): Bytes
    requires n + padLen <= |payload|
  {
    var start := |payload| - padLen - n;
    payload[start..start + n]
  }

  method ParseFields(typ: Byte, flags: Byte, id: U32, payload: Bytes) returns (r: Result<Frame, Reason>)
    requires typ in {0, 1, 5}
    ensures r == ParsePayload(typ, flags, id, payload)
  {
    hide Big, EndStreamBit, EndHeadersBit, PaddedBit, PriorityBit, Strip, ReadPriority;
    if id == 0 {
      return Err(Protocol);
    }
    var stripped, padLen := TakePadding(payload, PaddedBit(flags));
    if stripped.Err? {
      return Err(stripped.error);
    }
    var body := stripped.value;
    if typ == 0 {
      return Ok(Data(id, EndStreamBit(flags), PayloadSlice(payload, |body|, padLen)));
    }
    if typ == 1 {
      if !PriorityBit(flags) {
        return Ok(Headers(id, EndStreamBit(flags), EndHeadersBit(flags), None, PayloadSlice(payload, |body|, padLen)));
      }
      var priority := ReadPriority(body, id);
      if priority.Err? {
        return Err(priority.error);
      }
      PriorityLength(body, id);
      var block := PayloadSlice(payload, |body| - 5, padLen);
      assert block == body[5..];
      return Ok(Headers(id, EndStreamBit(flags), EndHeadersBit(flags), Some(priority.value), block));
    }
    if |body| < 4 {
      return Err(FrameSize);
    }
    var promised := ReadU32(body[..4]) % BIT31;
    if promised == 0 {
      return Err(Protocol);
    }
    var block := PayloadSlice(payload, |body| - 4, padLen);
    assert block == body[4..];
    return Ok(PushPromise(id, EndHeadersBit(flags), promised, block));
  }

  lemma PriorityLength(body: Bytes, id: U32)
    ensures ReadPriority(body, id).Ok? ==> |body| >= 5
  {
  }

  method ParseParameters(flags: Byte, id: U32, payload: Bytes) returns (r: Result<Frame, Reason>)
    ensures r == ParseSettings(flags, id, payload)
  {
    hide Big, SettingFault, AckBit;
    if id != 0 {
      return Err(Protocol);
    }
    if AckBit(flags) && payload != [] {
      return Err(FrameSize);
    }
    if |payload| % 6 != 0 {
      return Err(FrameSize);
    }
    var settings: seq<Setting>, body := [], payload;
    ghost var all := ReadSettings(payload);
    assert all.Ok? ==> settings + all.value == all.value;
    while |body| != 0
      invariant |body| % 6 == 0
      invariant all == match ReadSettings(body) case Err(e) => Err(e) case Ok(more) => Ok(settings + more)
      decreases |body|
    {
      SixAtLeast(|body|);
      var s := ReadSetting(body);
      var fault := SettingFault(s);
      if fault.Some? {
        return Err(fault.value);
      }
      forall more: seq<Setting> ensures settings + ([s] + more) == (settings + [s]) + more {
      }
      settings := settings + [s];
      body := body[6..];
    }
    assert settings + [] == settings;
    return Ok(Settings(AckBit(flags), settings));
  }

  lemma SixAtLeast(n: nat)
    requires n % 6 == 0 && n != 0
    ensures n >= 6 && (n - 6) % 6 == 0
  {
  }

  class FrameDecoder {
    var buf: Bytes
    var maxFrameSize: nat
    var blockStream: Option<U32>

    ghost function State(): Context
      reads this
    {
      Context(maxFrameSize, blockStream)
    }

    constructor (maxFrameSize: nat)
      ensures buf == [] && State() == Context(maxFrameSize, None)
    {
      buf, this.maxFrameSize, blockStream := [], maxFrameSize, None;
    }

    method Extend(bytes: Bytes)
      modifies this`buf
      ensures buf == old(buf) + bytes
    {
      buf := buf + bytes;
    }

    /** Adopting a SETTINGS_MAX_FRAME_SIZE, parameter by parameter. */
    method Adopt(settings: seq<Setting>)
      modifies this`maxFrameSize
      ensures maxFrameSize == Announced(old(maxFrameSize), settings)
    {
      assert settings[0..] == settings;
      for i := 0 to |settings|
        invariant Announced(maxFrameSize, settings[i..]) == Announced(old(maxFrameSize), settings)
      {
        assert settings[i..][1..] == settings[i + 1..];
        if settings[i].id == 5 {
          maxFrameSize := settings[i].value;
        }
      }
    }

    method ParseFrame(typ: Byte, flags: Byte, id: U32, payload: Bytes) returns (r: Result<Frame, Reason>)
      modifies this`maxFrameSize, this`blockStream
      ensures r == if InTurn(typ, id, old(blockStream)) then ParsePayload(typ, flags, id, payload) else Err(Protocol)
      ensures State() == if r.Ok? then After(old(State()), r.value) else old(State())
    {
      hide Big, EndStreamBit, EndHeadersBit, AckBit, ParseData, ParseHeaders, ParsePushPromise, ParseSettings;
      if blockStream.Some? {
        if typ != 9 {
          return Err(Protocol);
        }
        if id != blockStream.value {
          return Err(Protocol);
        }
      } else if typ == 9 {
        return Err(Protocol);
      }
      if typ == 4 {
        r := ParseParameters(flags, id, payload);
      } else if typ == 0 || typ == 1 || typ == 5 {
        r := ParseFields(typ, flags, id, payload);
      } else {
        r := ParsePayload(typ, flags, id, payload);
      }
      if r.Err? {
        return;
      }
      match r.value {
        case Headers(_, _, endHeaders, _, _) =>
          blockStream := if endHeaders then blockStream else Some(r.value.id);
        case PushPromise(_, endHeaders, _, _) =>
          blockStream := if endHeaders then blockStream else Some(r.value.id);
        case Continuation(_, endHeaders, _) =>
          blockStream := if endHeaders then None else blockStream;
        case Settings(ack, settings) =>
          if !ack {
            Adopt(settings);
          }
        case _ =>
      }
    }

    /** `next_frame`. */
    method NextFrame() returns (r: Result<Option<Frame>, Reason>)
      modifies this
      ensures var s := Front(old(buf), old(State()));
              match s
              case Wait => r == Ok(None) && buf == old(buf) && State() == old(State())
              case Fail(n, e) => r == Err(e) && n <= |old(buf)| && buf == old(buf)[n..] && State() == old(State())
              case Take(n, f) =>
                r == Ok(Some(f)) && n <= |old(buf)| && buf == old(buf)[n..] && State() == After(old(State()), f)
    {
      hide Big, ParsePayload, InTurn, After;
      if |buf| < HEADER_LEN {
        return Ok(None);
      }
      var len, typ, flags, id := Length(buf), buf[3], buf[4], StreamOf(buf);
      if len > maxFrameSize {
        return Err(FrameSize);
      }
      var total := HEADER_LEN + len;
      if |buf| < total {
        return Ok(None);
      }
      var payload := buf[HEADER_LEN..total];
      buf := buf[total..];
      var frame := ParseFrame(typ, flags, id, payload);
      if frame.Err? {
        return Err(frame.error);
      }
      return Ok(Some(frame.value));
    }

    /** Draining every complete frame. */
    method Drain() returns (frames: seq<Frame>, error: Option<Reason>)
      modifies this
      ensures var d := Decode(old(buf), old(State()));
              && frames == d.frames && State() == d.context
              && (if d.end.Ok? then error == None && buf == d.end.value else error == Some(d.end.error))
    {
      hide Front, After;
      frames, error := [], None;
      while true
        invariant var d := Decode(buf, State());
                  Decode(old(buf), old(State())) == Decoded(frames + d.frames, d.end, d.context)
        decreases |buf|
      {
        ghost var was, state := buf, State();
        var r := NextFrame();
        if r.Err? {
          assert frames + [] == frames;
          return frames, Some(r.error);
        }
        if r.value.None? {
          assert frames + [] == frames;
          return;
        }
        TakeBound(was, state);
        ghost var later := Decode(buf, State()).frames;
        assert frames + ([r.value.value] + later) == (frames + [r.value.value]) + later;
        frames := frames + [r.value.value];
      }
    }
  }
}
