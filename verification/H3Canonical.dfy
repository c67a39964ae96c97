/**
 The HTTP/3 serializer and why it is inverse to the parser: exactly the frames
 within the limits survive, and nothing but their encodings is accepted.
 */
module H3Canonical {
  import opened Basics
  import opened Varint
  import opened H3Frame

  // Serializing

  function SettingText(s: Setting): Bytes
    requires s.id < LIMIT && s.value < LIMIT
  {
    Write(s.id) + Write(s.value)
  }

  predicate InRange(entries: seq<Setting>) {
    forall i :: 0 <= i < |entries| ==> entries[i].id < LIMIT && entries[i].value < LIMIT
  }

  function EncodeSettings(entries: seq<Setting>): Bytes
    requires InRange(entries)
    decreases |entries|
  {
    if entries == [] then [] else SettingText(entries[0]) + EncodeSettings(entries[1..])
  }

  function TypeOf(f: Frame): nat {
    match f
    case Data(_) => 0
    case Headers(_) => 1
    case CancelPush(_) => 3
    case Settings(_) => 4
    case PushPromise(_, _) => 5
    case Goaway(_) => 7
    case MaxPushId(_) => 13
  }

  predicate Writable(f: Frame) {
    match f
    case Data(_) => true
    case Headers(_) => true
    case Settings(entries) => InRange(entries)
    case PushPromise(id, _) => id < LIMIT
    case CancelPush(id) => id < LIMIT
    case Goaway(id) => id < LIMIT
    case MaxPushId(id) => id < LIMIT
  }

  function PayloadOf(f: Frame): Bytes
    requires Writable(f)
  {
    match f
    case Data(payload) => payload
    case Headers(payload) => payload
    case Settings(entries) => EncodeSettings(entries)
    case PushPromise(id, payload) => Write(id) + payload
    case CancelPush(id) => Write(id)
    case Goaway(id) => Write(id)
    case MaxPushId(id) => Write(id)
  }

  /** Numbers that fit a variable-length integer are all the serializer asks for. */
  predicate Representable(f: Frame) {
    Writable(f) && |PayloadOf(f)| < LIMIT
  }

  function Envelope(ty: nat, payload: Bytes): Bytes
    requires ty < LIMIT && |payload| < LIMIT
  {
    Write(ty) + Write(|payload|) + payload
  }

  function Encode(f: Frame): Bytes
    requires Representable(f)
  {
    Envelope(TypeOf(f), PayloadOf(f))
  }

  // What the decoder keeps

  /** The reserved identifiers of section 7.2.4.1 of RFC 9114. */
  function GreaseId(k: nat): nat {
    0x1f * k + 0x21
  }

  ghost predicate IsGrease(id: nat) {
    exists k: nat :: id == GreaseId(k)
  }

  lemma GreaseMeans(id: nat)
    ensures Grease(id) <==> IsGrease(id)
  {
    if Grease(id) {
      assert id == GreaseId((id - 0x21) / 0x1f);
    }
  }

  /** The parameters without the grease identifiers. */
  ghost function Ungreased(entries: seq<Setting>): seq<Setting>
    decreases |entries|
  {
    if entries == [] then []
    else if IsGrease(entries[0].id) then Ungreased(entries[1..])
    else [entries[0]] + Ungreased(entries[1..])
  }

  ghost function Surfaced(f: Frame): Frame {
    if f.Settings? then Settings(Ungreased(f.entries)) else f
  }

  /** At most 32 parameters, none of the identifiers 2 to 5 of HTTP/2, no identifier twice. */
  ghost predicate SettingsOk(entries: seq<Setting>) {
    && |entries| <= 32
    && (forall i :: 0 <= i < |entries| ==> entries[i].id < 2 || entries[i].id > 5)
    && (forall i, j :: 0 <= i < j < |entries| ==> entries[i].id != entries[j].id)
  }

  /** A payload of at most 2^24 - 1 octets, and within the limit on field sections where that applies. */
  predicate SectionFits(n: nat, maxField: Option<nat>) {
    n <= 16777215 && (maxField.Some? ==> n <= maxField.value)
  }

  /** Why a frame is refused; the one-integer frames never are. */
  ghost function Fault(f: Frame, maxField: Option<nat>): Option<FrameError>
    requires Writable(f)
  {
    match f
    case Data(payload) => if |payload| <= 16777215 then None else Some(ExcessiveLoad)
    case Headers(payload) => if SectionFits(|payload|, maxField) then None else Some(ExcessiveLoad)
    case PushPromise(id, payload) => if SectionFits(|Write(id) + payload|, maxField) then None else Some(ExcessiveLoad)
    case Settings(entries) => if |EncodeSettings(entries)| <= 4096 && SettingsOk(entries) then None else Some(BadSettings)
    case _ => None
  }

  /** The frames this endpoint takes in. */
  ghost predicate Acceptable(f: Frame, maxField: Option<nat>) {
    Representable(f) && Fault(f, maxField).None?
  }

  /** The checks on the announced length, and then those on the parameters, find exactly the fault. */
  lemma FaultIsRefusal(f: Frame, maxField: Option<nat>)
    requires Writable(f)
    ensures Fault(f, maxField) ==
            match Refusal(TypeOf(f), |PayloadOf(f)|, maxField)
            case Some(e) => Some(e)
            case None => if f.Settings? && !SettingsOk(f.entries) then Some(BadSettings) else None
  {
    hide EncodeSettings, SettingsOk, Write;
    match f
    case CancelPush(id) => WriteShort(id);
    case Goaway(id) => WriteShort(id);
    case MaxPushId(id) => WriteShort(id);
    case _ =>
  }

  lemma WriteShort(id: nat)
    requires id < LIMIT
    ensures |Write(id)| <= 8
  {
    hide Parse, Write;
    WrittenReads(id, []);
    ReadBound(Write(id) + []);
    assert Write(id) + [] == Write(id);
  }

  // Settings

  ghost predicate OkAfter(entries: seq<Setting>, seen: seq<nat>)
    decreases |entries|
  {
    entries == [] ||
    (&& |seen| < 32 && (entries[0].id < 2 || entries[0].id > 5) && entries[0].id !in seen
     && OkAfter(entries[1..], seen + [entries[0].id]))
  }

  lemma {:induction false} OkAfterMeans(entries: seq<Setting>, seen: seq<nat>)
    requires |seen| <= 32
    ensures OkAfter(entries, seen) <==>
            && |seen| + |entries| <= 32
            && (forall i :: 0 <= i < |entries| ==> (entries[i].id < 2 || entries[i].id > 5) && entries[i].id !in seen)
            && (forall i, j :: 0 <= i < j < |entries| ==> entries[i].id != entries[j].id)
    decreases |entries|
  {
    if entries != [] && |seen| < 32 {
      var rest, more := entries[1..], seen + [entries[0].id];
      OkAfterMeans(rest, more);
      assert forall i :: 0 <= i < |rest| ==> rest[i] == entries[i + 1];
      if OkAfter(entries, seen) {
        forall i | 0 <= i < |entries|
          ensures (entries[i].id < 2 || entries[i].id > 5) && entries[i].id !in seen
        {
          if i > 0 {
            assert entries[i] == rest[i - 1];
          }
        }
        forall i, j | 0 <= i < j < |entries|
          ensures entries[i].id != entries[j].id
        {
          assert entries[j] == rest[j - 1];
          if i > 0 {
            assert entries[i] == rest[i - 1];
          }
        }
      }
    }
  }

  lemma SettingReads(s: Setting, tail: Bytes)
    requires s.id < LIMIT && s.value < LIMIT
    ensures var buf := SettingText(s) + tail;
            && Parse(buf) == Got(s.id, Size(s.id)) && 0 < Size(s.id) <= |buf|
            && Parse(buf[Size(s.id)..]) == Got(s.value, Size(s.value))
            && |SettingText(s)| == Size(s.id) + Size(s.value)
  {
    hide Parse, Write;
    WrittenReads(s.id, Write(s.value) + tail);
    WrittenReads(s.value, tail);
    var buf := SettingText(s) + tail;
    assert buf == Write(s.id) + (Write(s.value) + tail);
    assert buf[Size(s.id)..] == Write(s.value) + tail;
  }

  /** Serialized parameters are read back, or refused exactly when they break a rule. */
  lemma {:induction false} SettingsRoundTrip(entries: seq<Setting>, seen: seq<nat>)
    requires InRange(entries)
    ensures ParseSettings(EncodeSettings(entries), seen) ==
            if OkAfter(entries, seen) then Ok(Ungreased(entries)) else Err(BadSettings)
    decreases |entries|
  {
    hide Parse, Write, Grease, IsGrease, Size;
    if entries != [] {
      var s, rest := entries[0], entries[1..];
      GreaseMeans(s.id);
      var tail := EncodeSettings(rest);
      SettingReads(s, tail);
      var buf := SettingText(s) + tail;
      assert buf[Size(s.id) + Size(s.value)..] == tail;
      SettingsRoundTrip(rest, seen + [s.id]);
    }
  }

  /** Accepted parameters are the serialization of a list that keeps the rules. */
  lemma {:induction false} SettingsCanonical(buf: Bytes, seen: seq<nat>) returns (entries: seq<Setting>)
    requires ParseSettings(buf, seen).Ok?
    ensures InRange(entries) && EncodeSettings(entries) == buf && OkAfter(entries, seen)
    ensures ParseSettings(buf, seen).value == Ungreased(entries)
    decreases |buf|
  {
    hide Parse, Write, Grease, IsGrease, Size;
    entries := [];
    if buf != [] {
      var id := Parse(buf);
      if id.Got? {
        GreaseMeans(id.value);
      }
      ReadBound(buf);
      var value := Parse(buf[id.len..]);
      ReadBound(buf[id.len..]);
      var later := SettingsCanonical(buf[id.len + value.len..], seen + [id.value]);
      ReadIsWritten(buf);
      ReadIsWritten(buf[id.len..]);
      entries := [Setting(id.value, value.value)] + later;
      assert entries[1..] == later;
      assert buf == buf[..id.len] + buf[id.len..][..value.len] + buf[id.len + value.len..];
    }
  }

  // Payloads

  lemma PayloadRoundTrip(f: Frame)
    requires Writable(f)
    ensures Known(TypeOf(f))
    ensures Payload(TypeOf(f), PayloadOf(f)) ==
            if f.Settings? && !SettingsOk(f.entries) then Err(BadSettings) else Ok(Surfaced(f))
  {
    hide Parse, Write, Size;
    match f
    case Data(_) =>
    case Headers(_) =>
    case Settings(entries) =>
      SettingsRoundTrip(entries, []);
      OkAfterMeans(entries, []);
    case PushPromise(id, payload) =>
      WrittenReads(id, payload);
    case CancelPush(id) =>
      WholeInteger(id);
    case Goaway(id) =>
      WholeInteger(id);
    case MaxPushId(id) =>
      WholeInteger(id);
  }

  lemma WholeInteger(id: nat)
    requires id < LIMIT
    ensures TakeVarint(Write(id)) == Ok(id)
  {
    hide Parse, Write, Size;
    WrittenReads(id, []);
    assert Write(id) + [] == Write(id);
  }

  lemma IntegerIsWhole(payload: Bytes)
    requires TakeVarint(payload).Ok?
    ensures var id := TakeVarint(payload).value; id < LIMIT && Write(id) == payload
  {
    hide Parse, Write, Size;
    ReadIsWritten(payload);
    assert payload[..|payload|] == payload;
  }

  lemma PayloadCanonical(ty: nat, payload: Bytes) returns (f: Frame)
    requires Known(ty) && Payload(ty, payload).Ok?
    ensures Writable(f) && TypeOf(f) == ty && PayloadOf(f) == payload && (f.Settings? ==> SettingsOk(f.entries))
    ensures Payload(ty, payload).value == Surfaced(f)
  {
    hide Parse, Write, Size, TakeVarint, ParseSettings;
    f := Payload(ty, payload).value;
    if ty == 4 {
      var entries := SettingsCanonical(payload, []);
      OkAfterMeans(entries, []);
      f := Settings(entries);
    } else if ty == 5 {
      ReadIsWritten(payload);
      assert payload == payload[..Parse(payload).len] + payload[Parse(payload).len..];
    } else if ty != 0 && ty != 1 {
      IntegerIsWhole(payload);
    }
  }

  // Envelopes

  lemma EnvelopeFront(ty: nat, payload: Bytes, tail: Bytes, maxField: Option<nat>)
    requires ty < LIMIT && |payload| < LIMIT && !Foreign(ty)
    ensures var e := Envelope(ty, payload);
            Front(e + tail, maxField) == Body(ty, |payload|, |e| - |payload|, e + tail, maxField)
  {
    hide Parse, Write, Size, Body;
    var e, n := Envelope(ty, payload), |payload|;
    WrittenReads(ty, Write(n) + payload + tail);
    WrittenReads(n, payload + tail);
    assert e + tail == Write(ty) + (Write(n) + payload + tail);
    assert (e + tail)[Size(ty)..] == Write(n) + (payload + tail);
  }

  lemma EnvelopeBody(ty: nat, payload: Bytes, tail: Bytes, maxField: Option<nat>)
    requires ty < LIMIT && |payload| < LIMIT
    ensures var e := Envelope(ty, payload);
            Body(ty, |payload|, |e| - |payload|, e + tail, maxField) ==
            match Refusal(ty, |payload|, maxField)
            case Some(error) => Fail(0, error)
            case None =>
              if !Known(ty) then Skip(|e|)
              else match Payload(ty, payload) case Ok(f) => Take(|e|, f) case Err(error) => Fail(|e|, error)
  {
    hide Payload, Refusal, Write, Known;
    var e := Envelope(ty, payload);
    assert (e + tail)[|e| - |payload|..|e|] == payload;
  }

  /** A consumed front is an envelope with an admissible header. */
  lemma FrontEnvelope(buf: Bytes, maxField: Option<nat>) returns (ty: nat, payload: Bytes)
    requires var s := Front(buf, maxField); s.Skip? || s.Take?
    ensures var s := Front(buf, maxField);
            && ty < LIMIT && |payload| < LIMIT && !Foreign(ty) && Refusal(ty, |payload|, maxField).None?
            && s.used <= |buf| && buf[..s.used] == Envelope(ty, payload)
            && s.Take? == Known(ty) && (s.Take? ==> Payload(ty, payload) == Ok(s.frame))
  {
    hide Parse, Write, Size, Payload, Known, Foreign;
    var t := Parse(buf);
    ReadBound(buf);
    ReadIsWritten(buf);
    var n := Parse(buf[t.len..]);
    ReadBound(buf[t.len..]);
    ReadIsWritten(buf[t.len..]);
    var head := t.len + n.len;
    ty, payload := t.value, buf[head..head + n.value];
    assert buf[..head + n.value] == buf[..t.len] + buf[t.len..][..n.len] + payload;
  }

  lemma TypeIsNative(f: Frame)
    ensures TypeOf(f) < LIMIT && !Foreign(TypeOf(f)) && Known(TypeOf(f))
  {
  }

  /** A serialized frame is taken in, without its grease, or refused for the fault it has. */
  lemma EncodedFront(f: Frame, tail: Bytes, maxField: Option<nat>)
    requires Representable(f)
    ensures var s := Front(Encode(f) + tail, maxField);
            match Fault(f, maxField)
            case None => s == Take(|Encode(f)|, Surfaced(f))
            case Some(e) => s.Fail? && s.error == e
  {
    hide Front, Body, Payload, Surfaced, SettingsOk, Envelope, Writable, PayloadOf, Fault, Refusal, Known;
    FaultIsRefusal(f, maxField);
    TypeIsNative(f);
    EnvelopeFront(TypeOf(f), PayloadOf(f), tail, maxField);
    EnvelopeBody(TypeOf(f), PayloadOf(f), tail, maxField);
    PayloadRoundTrip(f);
  }

  /** A frame taken in re-encodes to the octets consumed, up to the grease settings it carried. */
  lemma FrontCanonical(buf: Bytes, maxField: Option<nat>) returns (f: Frame)
    requires Front(buf, maxField).Take?
    ensures var s := Front(buf, maxField);
            && Acceptable(f, maxField) && Surfaced(f) == s.frame
            && s.used <= |buf| && Encode(f) == buf[..s.used]
  {
    hide Front, Payload, Surfaced, SettingsOk, Envelope, Refusal, PayloadOf, Fault;
    var ty, payload := FrontEnvelope(buf, maxField);
    f := PayloadCanonical(ty, payload);
    FaultIsRefusal(f, maxField);
  }

  // Whole streams

  /** What may stand on a stream: a frame, or a frame of a type this endpoint does not know. */
  datatype Item = Framed(frame: Frame) | Unknown(ty: nat, payload: Bytes)

  /** Numbers that fit. */
  predicate ItemWritable(item: Item) {
    if item.Framed? then Representable(item.frame) else item.ty < LIMIT && |item.payload| < LIMIT
  }

  ghost predicate ItemOk(item: Item, maxField: Option<nat>) {
    && ItemWritable(item)
    && match item
       case Framed(f) => Acceptable(f, maxField)
       case Unknown(ty, payload) => Skipped(ty) && |payload| <= 16777215
  }

  /** Types that are neither of HTTP/3 (0, 1, 3, 4, 5, 7, 13) nor reserved because of HTTP/2 (2, 6, 8, 9). */
  predicate Skipped(ty: nat) {
    ty >= 10 && ty != 13
  }

  lemma SkippedMeans(ty: nat)
    ensures Skipped(ty) <==> !Known(ty) && !Foreign(ty)
  {
  }

  /** The frame types of HTTP/2 without a counterpart are a connection error at once. */
  lemma ForeignRefused(ty: nat, rest: Bytes, maxField: Option<nat>)
    requires ty == 2 || ty == 6 || ty == 8 || ty == 9
    ensures Front(Write(ty) + rest, maxField) == Fail(0, Unexpected(ty))
  {
    hide Parse, Write;
    WrittenReads(ty, rest);
  }

  function ItemText(item: Item): Bytes
    requires ItemWritable(item)
  {
    match item
    case Framed(f) => Encode(f)
    case Unknown(ty, payload) => Envelope(ty, payload)
  }

  ghost predicate AllOk(items: seq<Item>, maxField: Option<nat>) {
    forall i :: 0 <= i < |items| ==> ItemOk(items[i], maxField)
  }

  ghost function Text(items: seq<Item>, maxField: Option<nat>): Bytes
    requires AllOk(items, maxField)
    decreases |items|
  {
    if items == [] then [] else ItemText(items[0]) + Text(items[1..], maxField)
  }

  /** The frames the reader is to see. */
  ghost function Visible(items: seq<Item>): seq<Frame>
    decreases |items|
  {
    if items == [] then []
    else if items[0].Framed? then [Surfaced(items[0].frame)] + Visible(items[1..])
    else Visible(items[1..])
  }

  lemma SkippedPasses(ty: nat, n: nat, maxField: Option<nat>)
    requires Skipped(ty)
    ensures Refusal(ty, n, maxField).None? <==> n <= 16777215
  {
  }

  lemma ItemFront(item: Item, tail: Bytes, maxField: Option<nat>)
    requires ItemOk(item, maxField)
    ensures var e := ItemText(item);
            Front(e + tail, maxField) ==
            if item.Framed? then Take(|e|, Surfaced(item.frame)) else Skip(|e|)
  {
    hide Front, Body, Payload, Surfaced, Envelope, Encode, SettingsOk, Representable, Fault, Known, Foreign, Skipped;
    match item
    case Framed(f) => EncodedFront(f, tail, maxField);
    case Unknown(ty, payload) =>
      SkippedMeans(ty);
      SkippedPasses(ty, |payload|, maxField);
      EnvelopeFront(ty, payload, tail, maxField);
      EnvelopeBody(ty, payload, tail, maxField);
  }

  /** Any stream of acceptable items decodes to its visible frames and goes on with what follows. */
  lemma {:induction false} StreamDecodes(items: seq<Item>, tail: Bytes, maxField: Option<nat>)
    requires AllOk(items, maxField)
    ensures var rest := Decode(tail, maxField);
            Decode(Text(items, maxField) + tail, maxField) == Decoded(Visible(items) + rest.frames, rest.end)
    decreases |items|
  {
    hide Front, Decode, ItemText, Surfaced, Acceptable, ItemWritable;
    var rest := Decode(tail, maxField);
    if items == [] {
      assert [] + tail == tail && [] + rest.frames == rest.frames;
    } else {
      var item, later := items[0], items[1..];
      var e, more := ItemText(item), Text(later, maxField) + tail;
      assert Text(items, maxField) + tail == e + more;
      ItemFront(item, more, maxField);
      DecodeAfter(e + more, maxField);
      assert (e + more)[|e|..] == more;
      StreamDecodes(later, tail, maxField);
      if item.Framed? {
        var f := Surfaced(item.frame);
        assert [f] + (Visible(later) + rest.frames) == ([f] + Visible(later)) + rest.frames;
      }
    }
  }

  /** Nothing else is accepted: what was decoded before the rest is the text of acceptable items. */
  lemma {:induction false} DecodedIsStream(buf: Bytes, maxField: Option<nat>) returns (items: seq<Item>, rest: Bytes)
    ensures AllOk(items, maxField) && buf == Text(items, maxField) + rest
    ensures var d := Decode(buf, maxField);
            && d.frames == Visible(items)
            && (d.end.Ok? ==> d.end.value == rest && Front(rest, maxField).Wait?)
            && (d.end.Err? ==> Front(rest, maxField).Fail? && Front(rest, maxField).error == d.end.error)
    decreases |buf|
  {
    hide Front, ItemText, ItemOk, Surfaced, AllOk, Text, Visible, Decode;
    var s := Front(buf, maxField);
    if s.Wait? || s.Fail? {
      items, rest := [], buf;
      NothingDecoded(buf, maxField);
    } else {
      DecodeAfter(buf, maxField);
      var item := FrontItem(buf, maxField);
      var later;
      later, rest := DecodedIsStream(buf[s.used..], maxField);
      items := [item] + later;
      OneMoreItem(item, later, buf[s.used..], rest, maxField);
      assert buf == buf[..s.used] + buf[s.used..];
    }
  }

  lemma NothingDecoded(buf: Bytes, maxField: Option<nat>)
    requires Front(buf, maxField).Wait? || Front(buf, maxField).Fail?
    ensures AllOk([], maxField) && buf == Text([], maxField) + buf && Visible([]) == []
    ensures var s := Front(buf, maxField);
            Decode(buf, maxField) == Decoded([], if s.Wait? then Ok(buf) else Err(s.error))
  {
    hide Front;
    assert [] + buf == buf;
  }

  /** An item in front of a stream of them. */
  lemma OneMoreItem(item: Item, later: seq<Item>, buf: Bytes, rest: Bytes, maxField: Option<nat>)
    requires ItemOk(item, maxField) && AllOk(later, maxField) && buf == Text(later, maxField) + rest
    ensures var items := [item] + later;
            && AllOk(items, maxField) && ItemText(item) + buf == Text(items, maxField) + rest
            && Visible(items) == if item.Framed? then [Surfaced(item.frame)] + Visible(later) else Visible(later)
  {
    hide ItemText, Surfaced, Acceptable, ItemWritable;
    var items := [item] + later;
    assert items[1..] == later;
    assert ItemText(item) + (Text(later, maxField) + rest) == (ItemText(item) + Text(later, maxField)) + rest;
  }

  lemma FrontItem(buf: Bytes, maxField: Option<nat>) returns (item: Item)
    requires var s := Front(buf, maxField); s.Skip? || s.Take?
    ensures var s := Front(buf, maxField);
            && ItemOk(item, maxField) && s.used <= |buf| && ItemText(item) == buf[..s.used]
            && item.Framed? == s.Take? && (s.Take? ==> s.frame == Surfaced(item.frame))
  {
    hide Front, Surfaced, Envelope, Encode, SettingsOk, Representable, Fault, Known, Foreign, Skipped, Refusal;
    if Front(buf, maxField).Take? {
      var f := FrontCanonical(buf, maxField);
      item := Framed(f);
    } else {
      var ty, payload := FrontEnvelope(buf, maxField);
      SkippedMeans(ty);
      SkippedPasses(ty, |payload|, maxField);
      item := Unknown(ty, payload);
    }
  }

  /** Inserting or dropping unknown frames anywhere changes nothing a reader sees. */
  lemma UnknownFramesAreInvisible(a: seq<Item>, b: seq<Item>, tail: Bytes, maxField: Option<nat>)
    requires AllOk(a, maxField) && AllOk(b, maxField) && Visible(a) == Visible(b)
    ensures Decode(Text(a, maxField) + tail, maxField) == Decode(Text(b, maxField) + tail, maxField)
  {
    hide Decode, Text, AllOk, Visible;
    StreamDecodes(a, tail, maxField);
    StreamDecodes(b, tail, maxField);
  }
}
