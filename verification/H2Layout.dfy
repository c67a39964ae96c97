/**
 How HTTP/2 frames are laid out, padded or not, and why the parser undoes it:
 a frame with fields that fit is taken in exactly when it is legal.
 */
module H2Layout {
  import opened Basics
  import opened Varint
  import opened H2Frame

  // Layout

  function Masked(x: nat): nat {
    x % BIT31
  }

  function PriorityText(p: Priority): (r: Bytes)
    ensures |r| == 5
  {
    BigEndian(Masked(p.dependency) + (if p.exclusive then BIT31 else 0), 4) + [p.weight]
  }

  function SettingText(s: Setting): (r: Bytes)
    ensures |r| == 6
  {
    BigEndian(s.id, 2) + BigEndian(s.value, 4)
  }

  function SettingsText(settings: seq<Setting>): (r: Bytes)
    ensures |r| == 6 * |settings|
    decreases |settings|
  {
    if settings == [] then [] else SettingText(settings[0]) + SettingsText(settings[1..])
  }

  function TypeOf(f: Frame): Byte {
    match f
    case Data(_, _, _) => 0
    case Headers(_, _, _, _, _) => 1
    case Prioritize(_, _) => 2
    case Reset(_, _) => 3
    case Settings(_, _) => 4
    case PushPromise(_, _, _, _) => 5
    case Ping(_, _) => 6
    case GoAway(_, _, _) => 7
    case WindowUpdate(_, _) => 8
    case Continuation(_, _, _) => 9
    case Unknown(typ, _, _, _) => typ
  }

  function StreamId(f: Frame): U32 {
    match f
    case Settings(_, _) => 0
    case Ping(_, _) => 0
    case GoAway(_, _, _) => 0
    case _ => f.id
  }

  function FlagsOf(f: Frame, padded: bool): Byte {
    match f
    case Data(_, endStream, _) => Flags(endStream, false, padded, false)
    case Headers(_, endStream, endHeaders, priority, _) => Flags(endStream, endHeaders, padded, priority.Some?)
    case PushPromise(_, endHeaders, _, _) => Flags(false, endHeaders, padded, false)
    case Settings(ack, _) => Flags(ack, false, false, false)
    case Ping(ack, _) => Flags(ack, false, false, false)
    case Continuation(_, endHeaders, _) => Flags(false, endHeaders, false, false)
    case Unknown(_, flags, _, _) => flags
    case _ => 0
  }

  /** The payload without padding. */
  function Core(f: Frame): Bytes {
    match f
    case Data(_, _, data) => data
    case Headers(_, _, _, priority, block) => (if priority.Some? then PriorityText(priority.value) else []) + block
    case Prioritize(_, fields) => PriorityText(fields)
    case Reset(_, code) => BigEndian(code, 4)
    case Settings(_, settings) => SettingsText(settings)
    case PushPromise(_, _, promised, block) => BigEndian(Masked(promised), 4) + block
    case Ping(_, opaque8) => opaque8
    case GoAway(last, code, debug) => BigEndian(Masked(last), 4) + BigEndian(code, 4) + debug
    case WindowUpdate(_, increment) => BigEndian(Masked(increment), 4)
    case Continuation(_, _, block) => block
    case Unknown(_, _, _, payload) => payload
  }

  predicate Paddable(f: Frame) {
    f.Data? || f.Headers? || f.PushPromise?
  }

  /** Padding a frame may carry: none, or up to 255 octets on the kinds that allow it. */
  predicate PadFits(f: Frame, pad: Option<Bytes>) {
    pad.None? || (Paddable(f) && |pad.value| < 256)
  }

  function PayloadOf(f: Frame, pad: Option<Bytes>): Bytes
    requires PadFits(f, pad)
  {
    if pad.None? then Core(f) else [|pad.value|] + Core(f) + pad.value
  }

  /** The 9-octet header; the length keeps 24 bits and the identifier 31. */
  function HeaderText(len: nat, typ: Byte, flags: Byte, id: nat): (r: Bytes)
    ensures |r| == HEADER_LEN
  {
    BigEndian(len % 0x100_0000, 3) + [typ] + [flags] + BigEndian(Masked(id), 4)
  }

  function Wire(f: Frame, pad: Option<Bytes>): Bytes
    requires PadFits(f, pad)
  {
    var payload := PayloadOf(f, pad);
    HeaderText(|payload|, TypeOf(f), FlagsOf(f, pad.Some?), StreamId(f)) + payload
  }

  // What fits, and what is legal

  predicate PriorityFits(p: Priority) {
    p.dependency < BIT31
  }

  /** ENABLE_PUSH is 0 or 1, INITIAL_WINDOW_SIZE at most 2^31 - 1, MAX_FRAME_SIZE from 2^14 to 2^24 - 1; others are free. */
  predicate SettingLegal(s: Setting) {
    && (s.id == 2 ==> s.value <= 1)
    && (s.id == 4 ==> s.value <= 0x7fff_ffff)
    && (s.id == 5 ==> 16384 <= s.value <= 16777215)
  }

  predicate SettingsLegal(settings: seq<Setting>) {
    forall i :: 0 <= i < |settings| ==> SettingLegal(settings[i])
  }

  /** The parser refuses exactly the illegal ones, a window with FLOW_CONTROL_ERROR. */
  lemma FaultIsIllegal(s: Setting)
    ensures SettingFault(s) == if SettingLegal(s) then None else Some(if s.id == 4 then FlowControl else Protocol)
  {
  }

  /** Fields no wider than their wire fields. */
  predicate Fits(f: Frame) {
    && StreamId(f) < BIT31
    && match f
       case Headers(_, _, _, priority, _) => priority.Some? ==> PriorityFits(priority.value)
       case Prioritize(_, fields) => PriorityFits(fields)
       case PushPromise(_, _, promised, _) => promised < BIT31
       case Ping(_, opaque8) => |opaque8| == 8
       case GoAway(last, _, _) => last < BIT31
       case WindowUpdate(_, increment) => increment < BIT31
       case Unknown(typ, _, _, _) => typ > 9
       case _ => true
  }

  /** Field values section 6 of RFC 9113 allows. */
  predicate FieldsLegal(f: Frame) {
    match f
    case Data(id, _, _) => id != 0
    case Headers(id, _, _, priority, _) => id != 0 && (priority.Some? ==> priority.value.dependency != id)
    case Prioritize(id, fields) => id != 0 && fields.dependency != id
    case Reset(id, _) => id != 0
    case Settings(ack, settings) => (ack ==> settings == []) && SettingsLegal(settings)
    case PushPromise(id, _, promised, _) => id != 0 && promised != 0
    case WindowUpdate(_, increment) => increment != 0
    case _ => true
  }

  /** A frame this endpoint takes in at this point of the connection. */
  predicate Legal(f: Frame, pad: Option<Bytes>, c: Context)
    requires PadFits(f, pad)
  {
    FieldsLegal(f) && Follows(f, c.open) && |PayloadOf(f, pad)| <= c.limit
  }

  // Fields

  lemma WordReads(x: U32)
    ensures ReadU32(BigEndian(x, 4)) == x
  {
    Powers();
    BigOfBigEndian(x, 4);
  }

  lemma HalfReads(x: U16)
    ensures ReadU16(BigEndian(x, 2)) == x
  {
    Powers();
    BigOfBigEndian(x, 2);
  }

  lemma PriorityReads(p: Priority, rest: Bytes, id: U32)
    requires PriorityFits(p)
    ensures ReadPriority(PriorityText(p) + rest, id) == if p.dependency == id then Err(Protocol) else Ok(p)
  {
    hide Big, BigEndian;
    var word: U32 := p.dependency + (if p.exclusive then BIT31 else 0);
    var body := PriorityText(p) + rest;
    WordReads(word);
    assert body[..4] == BigEndian(word, 4);
    assert body[4] == p.weight;
    TopBit(word);
    assert body[0] == BigEndian(word, 4)[0];
  }

  lemma TopBit(word: U32)
    ensures BigEndian(word, 4)[0] >= 128 <==> word >= BIT31
  {
    hide BigEndian;
    Powers();
    BigEndianCons(word / 0x100_0000, word % 0x100_0000, 3);
  }

  lemma {:induction false} SettingsRead(settings: seq<Setting>)
    ensures var r := ReadSettings(SettingsText(settings));
            if SettingsLegal(settings) then r == Ok(settings) else r.Err?
    decreases |settings|
  {
    hide Big, BigEndian, SettingFault;
    if settings != [] {
      var s, rest := settings[0], settings[1..];
      var body := SettingsText(settings);
      HalfReads(s.id);
      WordReads(s.value);
      assert body[..2] == BigEndian(s.id, 2) && body[2..6] == BigEndian(s.value, 4) && body[6..] == SettingsText(rest);
      SettingsRead(rest);
      assert [s] + rest == settings;
      FaultIsIllegal(s);
      assert SettingsLegal(settings) <==> SettingLegal(s) && SettingsLegal(rest) by {
        if SettingLegal(s) && SettingsLegal(rest) {
          forall i | 0 <= i < |settings|
            ensures SettingLegal(settings[i])
          {
            assert i > 0 ==> settings[i] == rest[i - 1];
          }
        }
        if SettingsLegal(settings) {
          assert forall i :: 0 <= i < |rest| ==> rest[i] == settings[i + 1];
        }
      }
    }
  }

  lemma Unpadded(f: Frame, pad: Option<Bytes>)
    requires PadFits(f, pad)
    ensures Strip(PayloadOf(f, pad), pad.Some?) == Ok(Core(f))
  {
    hide Core;
    if pad.Some? {
      var body := PayloadOf(f, pad);
      assert body[1..|body| - body[0]] == Core(f);
    }
  }

  // Frames

  /** What the payload parser makes of a laid-out frame. */
  function Reparsed(f: Frame, pad: Option<Bytes>): Result<Frame, Reason>
    requires PadFits(f, pad)
  {
    ParsePayload(TypeOf(f), FlagsOf(f, pad.Some?), StreamId(f), PayloadOf(f, pad))
  }

  ghost predicate Undone(f: Frame, pad: Option<Bytes>)
    requires PadFits(f, pad)
  {
    if FieldsLegal(f) then Reparsed(f, pad) == Ok(f) else Reparsed(f, pad).Err?
  }

  lemma HeadersUndone(f: Frame, pad: Option<Bytes>)
    requires f.Headers? && PadFits(f, pad) && Fits(f)
    ensures Undone(f, pad)
  {
    hide Big, BigEndian, PriorityText, ReadPriority, EndStreamBit, EndHeadersBit, PaddedBit, PriorityBit, Strip;
    Unpadded(f, pad);
    if f.priority.Some? {
      var p := f.priority.value;
      PriorityReads(p, f.block, f.id);
      assert (PriorityText(p) + f.block)[5..] == f.block;
    } else {
      assert [] + f.block == f.block;
    }
  }

  lemma DataUndone(f: Frame, pad: Option<Bytes>)
    requires f.Data? && PadFits(f, pad)
    ensures Undone(f, pad)
  {
    hide EndStreamBit, PaddedBit, Strip;
    Unpadded(f, pad);
  }

  lemma PushPromiseUndone(f: Frame, pad: Option<Bytes>)
    requires f.PushPromise? && PadFits(f, pad) && Fits(f)
    ensures Undone(f, pad)
  {
    hide Big, BigEndian, EndHeadersBit, PaddedBit, Strip;
    Unpadded(f, pad);
    WordReads(f.promised);
    var body := Core(f);
    assert body[..4] == BigEndian(f.promised, 4) && body[4..] == f.block;
  }

  lemma PrioritizeUndone(f: Frame)
    requires f.Prioritize? && Fits(f)
    ensures Undone(f, None)
  {
    hide Big, BigEndian, PriorityText, ReadPriority;
    PriorityReads(f.fields, [], f.id);
    assert PriorityText(f.fields) + [] == PriorityText(f.fields);
  }

  lemma GoAwayUndone(f: Frame)
    requires f.GoAway? && Fits(f)
    ensures Undone(f, None)
  {
    hide Big, BigEndian;
    WordReads(f.last);
    WordReads(f.code);
    var body := Core(f);
    assert body[..4] == BigEndian(f.last, 4) && body[4..8] == BigEndian(f.code, 4) && body[8..] == f.debug;
  }

  lemma SettingsUndone(f: Frame)
    requires f.Settings?
    ensures Undone(f, None)
  {
    hide Big, BigEndian, AckBit, SettingsLegal, SettingFault, ReadSettings;
    SettingsRead(f.settings);
    SixTimes(|f.settings|);
  }

  lemma SixTimes(n: nat)
    ensures 6 * n % 6 == 0
  {
  }

  lemma RestUndone(f: Frame)
    requires Fits(f) && !Paddable(f) && !f.Prioritize? && !f.GoAway? && !f.Settings?
    ensures Undone(f, None)
  {
    hide Big, BigEndian, EndHeadersBit, AckBit;
    match f
    case Reset(_, code) => WordReads(code);
    case WindowUpdate(_, increment) => WordReads(increment);
    case Ping(_, _) =>
    case Continuation(_, _, _) =>
    case Unknown(_, _, _, _) =>
  }

  /** The payload parser undoes every layout of a legal frame and refuses every illegal one. */
  lemma LayoutUndone(f: Frame, pad: Option<Bytes>)
    requires Fits(f) && PadFits(f, pad)
    ensures Undone(f, pad)
  {
    hide Undone, Fits;
    if f.Data? {
      DataUndone(f, pad);
    } else if f.Headers? {
      HeadersUndone(f, pad);
    } else if f.PushPromise? {
      PushPromiseUndone(f, pad);
    } else if f.Prioritize? {
      PrioritizeUndone(f);
    } else if f.GoAway? {
      GoAwayUndone(f);
    } else if f.Settings? {
      SettingsUndone(f);
    } else {
      RestUndone(f);
    }
  }

  /** The header fields read back. */
  lemma HeaderReads(len: nat, typ: Byte, flags: Byte, id: U32, rest: Bytes)
    requires len < 0x100_0000 && id < BIT31
    ensures var buf := HeaderText(len, typ, flags, id) + rest;
            Length(buf) == len && buf[3] == typ && buf[4] == flags && StreamOf(buf) == id && buf[HEADER_LEN..] == rest
  {
    hide Big, BigEndian;
    Powers();
    BigOfBigEndian(len, 3);
    WordReads(id);
    var buf := HeaderText(len, typ, flags, id) + rest;
    assert buf[..3] == BigEndian(len, 3);
    assert buf[5..9] == BigEndian(id, 4);
  }

  /** A written frame is taken in, its padding gone, exactly when it is legal here; else it is an error. */
  lemma WrittenFront(f: Frame, pad: Option<Bytes>, tail: Bytes, c: Context)
    requires Fits(f) && PadFits(f, pad) && |PayloadOf(f, pad)| < 0x100_0000
    ensures var s := Front(Wire(f, pad) + tail, c);
            if Legal(f, pad, c) then s == Take(|Wire(f, pad)|, f) else s.Fail?
  {
    hide Big, BigEndian, ParsePayload, PayloadOf, HeaderText, FieldsLegal, Length, StreamOf, FlagsOf, PadFits;
    var payload := PayloadOf(f, pad);
    var len, typ, flags, id := |payload|, TypeOf(f), FlagsOf(f, pad.Some?), StreamId(f);
    assert Wire(f, pad) + tail == HeaderText(len, typ, flags, id) + (payload + tail);
    HeaderReads(len, typ, flags, id, payload + tail);
    var buf := Wire(f, pad) + tail;
    assert buf[HEADER_LEN..HEADER_LEN + len] == buf[HEADER_LEN..][..len] == payload;
    LayoutUndone(f, pad);
  }

  // Accepted frames

  /** Whatever is accepted fits, is legal, and is no longer than it was on the wire once written without padding. */
  lemma AcceptedPayload(typ: Byte, flags: Byte, id: U32, payload: Bytes)
    requires id < BIT31 && ParsePayload(typ, flags, id, payload).Ok?
    ensures var f := ParsePayload(typ, flags, id, payload).value;
            Fits(f) && FieldsLegal(f) && TypeOf(f) == typ && StreamId(f) == id && |Core(f)| <= |payload|
  {
    hide Big, BigEndian, EndHeadersBit, AckBit, EndStreamBit, PaddedBit, PriorityBit, SettingFault;
    if typ == 4 {
      SettingsAccepted(payload);
    }
  }

  lemma {:induction false} SettingsAccepted(body: Bytes)
    requires ReadSettings(body).Ok?
    ensures var settings := ReadSettings(body).value;
            SettingsLegal(settings) && 6 * |settings| <= |body| && (body == [] ==> settings == [])
    decreases |body|
  {
    hide Big, SettingFault;
    if |body| >= 6 {
      SettingsAccepted(body[6..]);
      var s, more := ReadSetting(body), ReadSettings(body[6..]).value;
      FaultIsIllegal(s);
      assert forall i :: 0 < i < |[s] + more| ==> ([s] + more)[i] == more[i - 1];
    }
  }

  /** Writing an accepted frame again, without padding, yields octets that decode to it in the same place. */
  lemma AcceptedRewrites(buf: Bytes, c: Context, tail: Bytes)
    requires Front(buf, c).Take? && c.limit < 0x100_0000
    ensures var s := Front(buf, c);
            && Fits(s.frame) && Legal(s.frame, None, c) && |Wire(s.frame, None)| <= s.used
            && Front(Wire(s.frame, None) + tail, c) == Take(|Wire(s.frame, None)|, s.frame)
  {
    hide Big, BigEndian, ParsePayload, HeaderText, FieldsLegal, Fits, Core, FlagsOf;
    var s := Front(buf, c);
    AcceptedPayload(buf[3], buf[4], StreamOf(buf), buf[HEADER_LEN..s.used]);
    ParsedType(buf[3], buf[4], StreamOf(buf), buf[HEADER_LEN..s.used]);
    WrittenFront(s.frame, None, tail, c);
  }
}
