/**
 The HTTP/3 frame decoder object, which keeps received chunks in a deque, and
 the serializer's loops; each is tied to the parser over flat octets.
 */
module H3Decoder {
  import opened Basics
  import opened Varint
  import opened H3Frame
  import opened H3Canonical

  /** `parse_settings`: an entry list, a lookup by identifier and the grease seen, kept in a loop. */
  method ReadSettings(payload: Bytes) returns (r: Result<seq<Setting>, FrameError>)
    ensures r == if |payload| > MAX_SETTINGS_PAYLOAD then Err(BadSettings) else ParseSettings(payload, [])
  {
    hide Grease, Reserved, Parse;
    if |payload| > MAX_SETTINGS_PAYLOAD {
      return Err(BadSettings);
    }
    var entries: seq<Setting>, lookup: map<nat, nat>, grease: seq<nat>, count, rest := [], map[], [], 0, payload;
    ghost var seen: seq<nat> := [];
    ghost var all := ParseSettings(payload, []);
    assert all.Ok? ==> entries + all.value == all.value;
    while rest != []
      invariant count == |seen|
      invariant forall id :: id in seen <==> id in lookup || id in grease
      invariant all ==
                match ParseSettings(rest, seen) case Err(e) => Err(e) case Ok(more) => Ok(entries + more)
      decreases |rest|
    {
      var id := ParseLoop(rest);
      if !id.Got? {
        return Err(Malformed);
      }
      ReadBound(rest);
      ghost var whole := rest;
      rest := rest[id.len..];
      var value := ParseLoop(rest);
      if !value.Got? {
        return Err(Malformed);
      }
      ReadBound(rest);
      rest := rest[value.len..];
      assert rest == whole[id.len + value.len..];
      count := count + 1;
      if count > MAX_SETTINGS_ENTRIES || Reserved(id.value) || id.value in lookup || id.value in grease {
        return Err(BadSettings);
      }
      if Grease(id.value) {
        grease := grease + [id.value];
      } else {
        var s := Setting(id.value, value.value);
        forall more: seq<Setting> ensures entries + ([s] + more) == (entries + [s]) + more {
        }
        entries := entries + [s];
        lookup := lookup[id.value := value.value];
      }
      seen := seen + [id.value];
    }
    assert entries + [] == entries;
    return Ok(entries);
  }

  /** What one call of `next_frame` returns and what it leaves in the buffer. */
  datatype Outcome = Outcome(result: Result<Option<Frame>, FrameError>, rest: Bytes)

  function Next(buf: Bytes, maxField: Option<nat>): Outcome
    decreases |buf|
  {
    FrontUses(buf, maxField);
    match Front(buf, maxField)
    case Wait => Outcome(Ok(None), buf)
    case Fail(n, e) => Outcome(Err(e), buf[n..])
    case Skip(n) => Next(buf[n..], maxField)
    case Take(n, f) => Outcome(Ok(Some(f)), buf[n..])
  }

  /** Repeating `next_frame` decodes the flat buffer. */
  lemma {:induction false} NextDecodes(buf: Bytes, maxField: Option<nat>)
    ensures var n, d := Next(buf, maxField), Decode(buf, maxField);
            match n.result
            case Ok(None) => d == Decoded([], Ok(n.rest))
            case Err(e) => d == Decoded([], Err(e))
            case Ok(Some(f)) =>
              && |n.rest| < |buf|
              && var later := Decode(n.rest, maxField); d == Decoded([f] + later.frames, later.end)
    decreases |buf|
  {
    hide Front;
    FrontUses(buf, maxField);
    var s := Front(buf, maxField);
    if s.Skip? {
      NextDecodes(buf[s.used..], maxField);
    }
  }

  class FrameDecoder {
    var bufs: seq<Bytes>
    var len: nat
    const maxField: Option<nat>

    ghost predicate Valid()
      reads this
    {
      len == |Flatten(bufs)| && forall i :: 0 <= i < |bufs| ==> bufs[i] != []
    }

    ghost function Flat(): Bytes
      reads this
    {
      Flatten(bufs)
    }

    constructor (maxField: Option<nat>)
      ensures Valid() && Flat() == [] && this.maxField == maxField
    {
      bufs, len, this.maxField := [], 0, maxField;
    }

    method Extend(data: Bytes)
      requires Valid()
      modifies this
      ensures Valid() && Flat() == old(Flat()) + data
    {
      if data == [] {
        return;
      }
      FlattenSnoc(bufs, data);
      len := len + |data|;
      bufs := bufs + [data];
    }

    method ByteAt(offset: nat) returns (r: Option<Byte>)
      requires Valid()
      ensures r == if offset < |Flat()| then Some(Flat()[offset]) else None
    {
      var remaining := offset;
      assert bufs[0..] == bufs;
      for i := 0 to |bufs|
        invariant 0 <= remaining
        invariant |Flat()| - offset == |Flatten(bufs[i..])| - remaining
        invariant offset < |Flat()| ==> Flat()[offset] == Flatten(bufs[i..])[remaining]
      {
        assert bufs[i..][1..] == bufs[i + 1..];
        if remaining < |bufs[i]| {
          return Some(bufs[i][remaining]);
        }
        remaining := remaining - |bufs[i]|;
      }
      return None;
    }

    method ParseVarintAt(offset: nat) returns (r: Read)
      requires Valid()
      ensures r == if offset >= |Flat()| then More else Parse(Flat()[offset..])
    {
      if offset >= len {
        return More;
      }
      var b := ByteAt(offset);
      var first := b.value;
      var n := Width(first);
      if len < offset + n {
        return More;
      }
      var value := first % 64;
      ghost var buf := Flat()[offset..];
      ghost var word := [first % 64] + buf[1..n];
      for i := 1 to n
        invariant value == Big(word[..i])
      {
        b := ByteAt(offset + i);
        assert word[i] == buf[1..n][i - 1] == Flat()[offset + i];
        assert word[..i + 1][..i] == word[..i];
        value := value * 256 + b.value;
      }
      assert word[..n] == word;
      if n > 1 && value < Minimum(n) {
        return Bad;
      }
      return Got(value, n);
    }

    method Advance(n: nat)
      requires Valid() && n <= |Flat()|
      modifies this
      ensures Valid() && Flat() == old(Flat())[n..]
    {
      var remaining := n;
      while remaining > 0
        invariant 0 <= remaining <= |Flat()| && Flat()[remaining..] == old(Flat())[n..]
        invariant forall i :: 0 <= i < |bufs| ==> bufs[i] != []
        invariant len == old(len)
      {
        var front := bufs[0];
        assert Flat() == front + Flatten(bufs[1..]);
        if |front| <= remaining {
          bufs := bufs[1..];
          remaining := remaining - |front|;
        } else {
          FlattenCons(front[remaining..], bufs[1..]);
          bufs := [front[remaining..]] + bufs[1..];
          remaining := 0;
        }
      }
      len := len - n;
    }

    /** The front chunk whole, a part of it, or several chunks copied together. */
    method TakeBytes(n: nat) returns (r: Bytes)
      requires Valid() && n <= |Flat()|
      modifies this
      ensures Valid() && r == old(Flat())[..n] && Flat() == old(Flat())[n..]
    {
      if n == 0 {
        return [];
      }
      assert Flat() == bufs[0] + Flatten(bufs[1..]);
      if |bufs[0]| == n {
        r := bufs[0];
        bufs := bufs[1..];
        len := len - n;
        return;
      }
      if |bufs[0]| > n {
        r := bufs[0][..n];
        FlattenCons(bufs[0][n..], bufs[1..]);
        bufs := [bufs[0][n..]] + bufs[1..];
        len := len - n;
        return;
      }
      r := Coalesce(n);
    }

    method Coalesce(n: nat) returns (r: Bytes)
      requires Valid() && n <= |Flat()|
      modifies this
      ensures Valid() && r == old(Flat())[..n] && Flat() == old(Flat())[n..]
    {
      var remaining := n;
      r := [];
      while remaining > 0
        invariant 0 <= remaining <= |Flat()| && |r| + remaining == n
        invariant r + Flat() == old(Flat())
        invariant forall i :: 0 <= i < |bufs| ==> bufs[i] != []
        invariant len == old(len)
      {
        var front := bufs[0];
        assert Flat() == front + Flatten(bufs[1..]);
        if |front| <= remaining {
          assert r + (front + Flatten(bufs[1..])) == (r + front) + Flatten(bufs[1..]);
          bufs := bufs[1..];
          r := r + front;
          remaining := remaining - |front|;
        } else {
          var part, left := front[..remaining], front[remaining..];
          FlattenCons(left, bufs[1..]);
          assert r + (front + Flatten(bufs[1..])) == (r + part) + (left + Flatten(bufs[1..]));
          bufs := [left] + bufs[1..];
          r := r + part;
          remaining := 0;
        }
      }
      len := len - n;
    }

    method ReadPayload(ty: nat, payload: Bytes) returns (r: Result<Frame, FrameError>)
      requires Known(ty) && (ty == 4 ==> |payload| <= MAX_SETTINGS_PAYLOAD)
      ensures r == Payload(ty, payload)
    {
      hide Parse, ParseSettings;
      if ty == 0 {
        return Ok(Data(payload));
      } else if ty == 1 {
        return Ok(Headers(payload));
      } else if ty == 4 {
        var entries := ReadSettings(payload);
        return if entries.Err? then Err(entries.error) else Ok(Settings(entries.value));
      }
      var g := ParseLoop(payload);
      if !g.Got? {
        return Err(Malformed);
      }
      ReadBound(payload);
      if ty == 5 {
        return Ok(PushPromise(g.value, payload[g.len..]));
      }
      if g.len != |payload| {
        return Err(Malformed);
      }
      return Ok(if ty == 3 then CancelPush(g.value) else if ty == 7 then Goaway(g.value) else MaxPushId(g.value));
    }

    /** The header at the front: a decision to wait or fail, or its type, its length and the payload's. */
    method ReadHeader() returns (done: bool, r: Result<Option<Frame>, FrameError>, ty: nat, head: nat, n: nat)
      requires Valid()
      ensures !done ==>
                && Refusal(ty, n, maxField).None? && 0 < head && head + n <= |Flat()|
                && Front(Flat(), maxField) == Body(ty, n, head, Flat(), maxField)
      ensures done ==> r == Next(Flat(), maxField).result && Flat() == Next(Flat(), maxField).rest
    {
      hide Parse, Refusal, Payload, Known, Foreign;
      done, r, ty, head, n := true, Ok(None), 0, 0, 0;
      var t := ParseVarintAt(0);
      assert Flat()[0..] == Flat();
      ReadBound(Flat());
      if !t.Got? {
        r := if t.Bad? then Err(Malformed) else Ok(None);
        assert t.More? && Flat() == [] ==> Front(Flat(), maxField).Wait? by { assert Parse([]) == More by { EmptyReads(); } }
        return;
      }
      if Foreign(t.value) {
        r := Err(Unexpected(t.value));
        return;
      }
      var l := ParseVarintAt(t.len);
      if t.len == |Flat()| {
        assert Flat()[t.len..] == [];
        EmptyReads();
      }
      ReadBound(Flat()[t.len..]);
      if !l.Got? {
        r := if l.Bad? then Err(Malformed) else Ok(None);
        return;
      }
      var refused := Refusal(t.value, l.value, maxField);
      if refused.Some? {
        r := Err(refused.value);
        return;
      }
      if t.len + l.len + l.value > len {
        return;
      }
      done, ty, head, n := false, t.value, t.len + l.len, l.value;
    }

    /** Header and payload of a known frame are consumed even when the payload turns out malformed. */
    method TakeFrame(ty: nat, head: nat, n: nat) returns (r: Result<Frame, FrameError>)
      requires Valid() && Known(ty) && Refusal(ty, n, maxField).None? && head + n <= |Flat()|
      modifies this
      ensures Valid() && Flat() == old(Flat())[head + n..] && r == Payload(ty, old(Flat())[head..head + n])
    {
      hide Payload, Flatten, Known;
      Advance(head);
      var payload := TakeBytes(n);
      ghost var was := old(Flat());
      assert was[head..][..n] == was[head..head + n] && was[head..][n..] == was[head + n..];
      r := ReadPayload(ty, payload);
    }

    /** `next_frame`: unknown frames are dropped on the way. */
    method NextFrame() returns (r: Result<Option<Frame>, FrameError>)
      requires Valid()
      modifies this
      ensures Valid() && Outcome(r, Flat()) == Next(old(Flat()), maxField)
    {
      hide Payload, Flatten, Known, Front, Refusal;
      while true
        invariant Valid() && Next(Flat(), maxField) == Next(old(Flat()), maxField)
        decreases |Flat()|
      {
        var done, result, ty, head, n := ReadHeader();
        if done {
          return result;
        }
        if !Known(ty) {
          Advance(head + n);
        } else {
          var frame := TakeFrame(ty, head, n);
          if frame.Err? {
            return Err(frame.error);
          }
          return Ok(Some(frame.value));
        }
      }
    }

    /** Draining every complete frame, as the drivers do after each chunk. */
    method Drain() returns (frames: seq<Frame>, error: Option<FrameError>)
      requires Valid()
      modifies this
      ensures Valid()
      ensures var d := Decode(old(Flat()), maxField);
              && frames == d.frames
              && (if d.end.Ok? then error == None && Flat() == d.end.value else error == Some(d.end.error))
    {
      hide Next, Decode;
      frames, error := [], None;
      while true
        invariant Valid()
        invariant Decode(old(Flat()), maxField) ==
                  Decoded(frames + Decode(Flat(), maxField).frames, Decode(Flat(), maxField).end)
        decreases |Flat()|
      {
        ghost var was := Flat();
        NextDecodes(was, maxField);
        var r := NextFrame();
        if r.Err? {
          assert frames + [] == frames;
          return frames, Some(r.error);
        }
        if r.value.None? {
          assert frames + [] == frames;
          return;
        }
        ghost var later := Decode(Flat(), maxField).frames;
        assert frames + ([r.value.value] + later) == (frames + [r.value.value]) + later;
        frames := frames + [r.value.value];
      }
    }
  }

  lemma EmptyReads()
    ensures Parse([]) == More
  {
  }

  // Serializing

  /** The length written ahead of a SETTINGS payload, summed before the payload is written. */
  method SettingsLength(entries: seq<Setting>) returns (n: nat)
    requires InRange(entries)
    ensures n == |EncodeSettings(entries)|
  {
    hide Write, Size;
    n := 0;
    assert entries[0..] == entries;
    for i := 0 to |entries|
      invariant n + |EncodeSettings(entries[i..])| == |EncodeSettings(entries)|
    {
      SettingReads(entries[i], []);
      assert entries[i..][1..] == entries[i + 1..];
      n := n + Size(entries[i].id) + Size(entries[i].value);
    }
  }

  method WriteSettings(out: Bytes, entries: seq<Setting>) returns (r: Bytes)
    requires InRange(entries)
    ensures r == out + EncodeSettings(entries)
  {
    hide Write;
    r := out;
    assert entries[0..] == entries;
    for i := 0 to |entries|
      invariant r + EncodeSettings(entries[i..]) == out + EncodeSettings(entries)
    {
      assert entries[i..][1..] == entries[i + 1..];
      ghost var s, later := entries[i], EncodeSettings(entries[i + 1..]);
      assert r + (SettingText(s) + later) == ((r + Write(s.id)) + Write(s.value)) + later;
      r := WriteInto(r, entries[i].id);
      r := WriteInto(r, entries[i].value);
    }
    assert r + [] == r;
  }

  method WriteInteger(out: Bytes, id: nat) returns (r: Bytes)
    requires id < LIMIT
    ensures |Write(id)| < LIMIT && r == out + (Write(|Write(id)|) + Write(id))
  {
    hide Write;
    WrittenReads(id, []);
    r := WriteInto(out, Size(id));
    r := WriteInto(r, id);
  }

  method WriteOpaque(out: Bytes, payload: Bytes) returns (r: Bytes)
    requires |payload| < LIMIT
    ensures r == out + (Write(|payload|) + payload)
  {
    hide Write;
    r := WriteInto(out, |payload|);
    r := r + payload;
  }

  method WriteParameters(out: Bytes, entries: seq<Setting>) returns (r: Bytes)
    requires InRange(entries) && |EncodeSettings(entries)| < LIMIT
    ensures r == out + (Write(|EncodeSettings(entries)|) + EncodeSettings(entries))
  {
    hide Write, EncodeSettings;
    var n := SettingsLength(entries);
    r := WriteInto(out, n);
    r := WriteSettings(r, entries);
  }

  method WritePromise(out: Bytes, id: nat, payload: Bytes) returns (r: Bytes)
    requires id < LIMIT && |Write(id) + payload| < LIMIT
    ensures r == out + (Write(|Write(id) + payload|) + (Write(id) + payload))
  {
    hide Write;
    WrittenReads(id, []);
    r := WriteInto(out, Size(id) + |payload|);
    r := WriteInto(r, id);
    r := r + payload;
  }

  lemma EnvelopeOf(out: Bytes, ty: nat, payload: Bytes)
    requires ty < LIMIT && |payload| < LIMIT
    ensures out + Write(ty) + (Write(|payload|) + payload) == out + Envelope(ty, payload)
  {
    hide Write;
  }

  /** `Frame::encode`. */
  method EncodeInto(out: Bytes, f: Frame) returns (r: Bytes)
    requires Representable(f)
    ensures r == out + Encode(f)
  {
    hide Write, Size, EncodeSettings, InRange, Envelope;
    var start := WriteInto(out, TypeOf(f));
    EnvelopeOf(out, TypeOf(f), PayloadOf(f));
    match f {
      case Data(payload) =>
        r := WriteOpaque(start, payload);
      case Headers(payload) =>
        r := WriteOpaque(start, payload);
      case Settings(entries) =>
        r := WriteParameters(start, entries);
      case PushPromise(id, payload) =>
        r := WritePromise(start, id, payload);
      case CancelPush(id) =>
        r := WriteInteger(start, id);
      case Goaway(id) =>
        r := WriteInteger(start, id);
      case MaxPushId(id) =>
        r := WriteInteger(start, id);
    }
  }
}
