/**
 Prefixed integers (section 5.1 of RFC 7541, section 4.1.1 of RFC 9204):
 `src/hpack/integer.rs`.
 */
module PrefixInt {
  import opened Basics
  import opened Bits

  const LIMIT: nat := 0x4000_0000_0000_0000
  const U64: nat := 0x1_0000_0000_0000_0000

  datatype IntError = InvalidInteger

  /** The largest number the prefix holds, which announces continuation octets. */
  function Mask(prefix: nat): nat
    requires 1 <= prefix <= 8
  {
    if prefix == 1 then 1 else if prefix == 2 then 3 else if prefix == 3 then 7 else if prefix == 4 then 15
    else if prefix == 5 then 31 else if prefix == 6 then 63 else if prefix == 7 then 127 else 255
  }

  /** The low `prefix` bits of an octet. */
  function Low(b: Byte, prefix: nat): (r: nat)
    requires 1 <= prefix <= 8
    ensures r <= Mask(prefix) && r <= b
  {
    var n: nat := b;
    if prefix == 1 then n % 2
    else if prefix == 2 then n % 4
    else if prefix == 3 then n % 8
    else if prefix == 4 then n % 16
    else if prefix == 5 then n % 32
    else if prefix == 6 then n % 64
    else if prefix == 7 then n % 128
    else n
  }

  /** The representation bits above the low `prefix` bits. */
  function High(b: Byte, prefix: nat): (r: nat)
    requires 1 <= prefix <= 8
  {
    var n: nat := b;
    if prefix == 1 then n / 2
    else if prefix == 2 then n / 4
    else if prefix == 3 then n / 8
    else if prefix == 4 then n / 16
    else if prefix == 5 then n / 32
    else if prefix == 6 then n / 64
    else if prefix == 7 then n / 128
    else 0
  }

  /** `header` with its low bits replaced. */
  function FirstOctet(header: Byte, prefix: nat, low: nat): (r: Byte)
    requires 1 <= prefix <= 8 && low <= Mask(prefix)
  {
    var n: nat := header;
    if prefix == 1 then n / 2 * 2 + low
    else if prefix == 2 then n / 4 * 4 + low
    else if prefix == 3 then n / 8 * 8 + low
    else if prefix == 4 then n / 16 * 16 + low
    else if prefix == 5 then n / 32 * 32 + low
    else if prefix == 6 then n / 64 * 64 + low
    else if prefix == 7 then n / 128 * 128 + low
    else low
  }

  /** A number has one quotient and one remainder. */
  lemma OneQuotient(a: nat, r: nat, q: nat, low: nat, m: nat)
    requires a * m + r == q * m + low && r < m && low < m
    ensures a == q && r == low
  {
    if a < q {
      MulMonotone(a + 1, q, m);
    } else if q < a {
      MulMonotone(q + 1, a, m);
    }
  }

  /** Replacing what is below a multiple of `m` leaves the quotient by `m`. */
  lemma Replaced(n: nat, m: nat, low: nat)
    requires low < m
    ensures (n / m * m + low) % m == low && (n / m * m + low) / m == n / m
  {
    var v := n / m * m + low;
    OneQuotient(v / m, v % m, n / m, low, m);
  }

  /** The low bits are the new ones and the representation bits are kept. */
  lemma FirstOctetParts(header: Byte, prefix: nat, low: nat)
    requires 1 <= prefix <= 8 && low <= Mask(prefix)
    ensures Low(FirstOctet(header, prefix, low), prefix) == low
    ensures High(FirstOctet(header, prefix, low), prefix) == High(header, prefix)
  {
    Replaced(header, Mask(prefix) + 1, low);
  }

  /** Continuation octets: seven bits each, least significant first. */
  function Septets(v: nat): (r: Bytes)
    ensures r != []
  {
    if v < 128 then [v] else [v % 128 + 128] + Septets(v / 128)
  }

  /** Only the last continuation octet has a clear top bit. */
  lemma {:induction false} SeptetsShape(v: nat)
    ensures Septets(v)[|Septets(v)| - 1] < 128
    ensures forall i :: 0 <= i < |Septets(v)| - 1 ==> Septets(v)[i] >= 128
  {
    if v >= 128 {
      SeptetsShape(v / 128);
    }
  }

  function Encode(value: nat, prefix: nat, header: Byte): (r: Bytes)
    requires 1 <= prefix <= 8
  {
    var mask := Mask(prefix);
    if value < mask then [FirstOctet(header, prefix, value)]
    else [FirstOctet(header, prefix, mask)] + Septets(value - mask)
  }

  datatype Decoded = Decoded(value: nat, off: nat)

  /** Reads continuation octets from `off`, on top of `value`. */
  function DecodeTail(buf: Bytes, off: nat, value: nat, shift: nat): (r: Result<Decoded, IntError>)
    ensures r.Ok? ==> off < r.value.off <= |buf| && r.value.value < LIMIT
    decreases 63 - shift
  {
    if shift > 56 || off >= |buf| then Err(InvalidInteger)
    else
      var b: nat := buf[off];
      var v := value + b % 128 * Pow2(shift);
      if v >= U64 then Err(InvalidInteger)
      else if b < 128 then
        if v >= LIMIT then Err(InvalidInteger) else Ok(Decoded(v, off + 1))
      else DecodeTail(buf, off + 1, v, shift + 7)
  }

  /** Decodes after the first octet `header`; never yields 2^62 or more. */
  function Decode(buf: Bytes, off: nat, prefix: nat, header: Byte): (r: Result<Decoded, IntError>)
    requires 1 <= prefix <= 8 && off <= |buf|
    ensures r.Ok? ==> off <= r.value.off <= |buf| && r.value.value < LIMIT
  {
    var mask := Mask(prefix);
    var low := Low(header, prefix);
    if low < mask then Ok(Decoded(low, off)) else DecodeTail(buf, off, low, 0)
  }

  // The loops

  method EncodeInto(out: Bytes, value: nat, prefix: nat, header: Byte) returns (r: Bytes)
    requires 1 <= prefix <= 8
    ensures r == out + Encode(value, prefix, header)
  {
    hide FirstOctet, Septets;
    var mask := Mask(prefix);
    if value < mask {
      r := out + [FirstOctet(header, prefix, value)];
    } else {
      r := SeptetsInto(out + [FirstOctet(header, prefix, mask)], value - mask);
    }
  }

  method SeptetsInto(out: Bytes, value: nat) returns (r: Bytes)
    ensures r == out + Septets(value)
  {
    r := out;
    ghost var done := [];
    var v := value;
    while v >= 128
      invariant r == out + done && done + Septets(v) == Septets(value)
    {
      var septet: Byte := v % 128 + 128;
      assert done + Septets(v) == (done + [septet]) + Septets(v / 128);
      r := r + [septet];
      done := done + [septet];
      v := v / 128;
    }
    r := r + [v];
    assert r == out + (done + [v]);
  }

  method DecodeLoop(buf: Bytes, off: nat, prefix: nat, header: Byte) returns (r: Result<Decoded, IntError>)
    requires 1 <= prefix <= 8 && off <= |buf|
    ensures r == Decode(buf, off, prefix, header)
  {
    hide Low, DecodeTail;
    var mask := Mask(prefix);
    var value := Low(header, prefix);
    if value < mask {
      return Ok(Decoded(value, off));
    }
    r := DecodeTailLoop(buf, off, value);
  }

  /** The loop as written; its addition never leaves 64 bits. */
  method DecodeTailLoop(buf: Bytes, off: nat, start: nat) returns (r: Result<Decoded, IntError>)
    requires off <= |buf| && start < 256
    ensures r == DecodeTail(buf, off, start, 0)
  {
    hide Pow2;
    PowZero();
    var value, shift, o := start, 0, off;
    while true
      invariant off <= o <= |buf| && 0 <= shift <= 63
      invariant 0 <= value < 256 + Pow2(shift)
      invariant DecodeTail(buf, o, value, shift) == DecodeTail(buf, off, start, 0)
      decreases 63 - shift
    {
      if shift > 56 {
        return Err(InvalidInteger);
      }
      if o >= |buf| {
        return Err(InvalidInteger);
      }
      var b: nat := buf[o];
      o := o + 1;
      StepBound(value, b % 128, shift);
      assert value + b % 128 * Pow2(shift) < U64;
      value := value + b % 128 * Pow2(shift);
      if b < 128 {
        if value >= LIMIT {
          return Err(InvalidInteger);
        }
        return Ok(Decoded(value, o));
      }
      shift := shift + 7;
    }
  }

  lemma PowZero()
    ensures Pow2(0) == 1
  {
  }

  /** One septet at `shift` keeps the sum below 256 + 2^(shift + 7), within 64 bits. */
  lemma StepBound(value: nat, b: nat, shift: nat)
    requires value < 256 + Pow2(shift) && b < 128 && shift <= 56
    ensures value + b * Pow2(shift) < 256 + Pow2(shift + 7) <= 256 + Pow2(63) < U64
  {
    hide Pow2;
    Pow2Values();
    Pow2Add(7, shift);
    Pow2Monotone(shift + 7, 63);
    MulMonotone(b, 127, Pow2(shift));
  }

  lemma MulMonotone(a: nat, b: nat, w: nat)
    requires a <= b
    ensures a * w <= b * w
  {
  }

  method EncodedLen(buf: Bytes, prefix: nat) returns (r: Option<nat>)
    requires 1 <= prefix <= 8
    ensures r == LengthOf(buf, prefix)
  {
    if buf == [] {
      return None;
    }
    if Low(buf[0], prefix) < Mask(prefix) {
      return Some(1);
    }
    var len := 1;
    while true
      invariant 1 <= len <= |buf|
      invariant TailLength(buf, len) == TailLength(buf, 1)
      decreases |buf| - len
    {
      if len >= |buf| {
        return None;
      }
      var b := buf[len];
      len := len + 1;
      if b < 128 {
        return Some(len);
      }
    }
  }

  function TailLength(buf: Bytes, len: nat): Option<nat>
    requires len <= |buf|
    decreases |buf| - len
  {
    if len == |buf| then None else if buf[len] < 128 then Some(len + 1) else TailLength(buf, len + 1)
  }

  function LengthOf(buf: Bytes, prefix: nat): Option<nat>
    requires 1 <= prefix <= 8
  {
    if buf == [] then None
    else if Low(buf[0], prefix) < Mask(prefix) then Some(1)
    else TailLength(buf, 1)
  }

  // Round trips

  /** What reading the continuation octets of `v` on top of `value` must give. */
  function TailResult(total: nat, end: nat): Result<Decoded, IntError> {
    if total < LIMIT then Ok(Decoded(total, end)) else Err(InvalidInteger)
  }

  /** Reading the continuation octets of `v` adds `v` at their weight, or fails when 62 bits do not hold it. */
  lemma {:induction false} SeptetsRead(buf: Bytes, at: nat, v: nat, value: nat, shift: nat)
    requires shift <= 63 && shift % 7 == 0 && (shift == 0 || v > 0)
    requires value < 256 + Pow2(shift)
    requires at + |Septets(v)| <= |buf| && buf[at..at + |Septets(v)|] == Septets(v)
    ensures DecodeTail(buf, at, value, shift) == TailResult(value + v * Pow2(shift), at + |Septets(v)|)
    decreases v
  {
    hide Pow2;
    Pow2Values();
    if shift > 56 {
      MulMonotone(1, v, Pow2(63));
    } else {
      assert buf[at] == Septets(v)[0];
      StepBound(value, v % 128, shift);
      if v >= 128 {
        assert buf[at + 1..at + 1 + |Septets(v / 128)|] == Septets(v)[1..] == Septets(v / 128);
        SeptetsRead(buf, at + 1, v / 128, value + v % 128 * Pow2(shift), shift + 7);
        Pow2Add(7, shift);
        SeptetWeight(v, Pow2(shift));
      }
    }
  }

  lemma SeptetWeight(v: nat, w: nat)
    ensures v % 128 * w + v / 128 * (128 * w) == v * w
  {
    assert v == v % 128 + v / 128 * 128;
    assert v * w == (v % 128) * w + (v / 128 * 128) * w;
    assert (v / 128 * 128) * w == v / 128 * (128 * w);
  }

  /**
   Every 64-bit value below 2^62 decodes back to itself, stopping just past its
   last octet, for every prefix and whatever surrounds it; every larger one is
   rejected.
   */
  lemma RoundTrip(buf: Bytes, at: nat, value: nat, prefix: nat, header: Byte)
    requires 1 <= prefix <= 8 && value < U64
    requires var enc := Encode(value, prefix, header); at + |enc| <= |buf| && buf[at..at + |enc|] == enc
    ensures Decode(buf, at + 1, prefix, buf[at]) ==
            if value < LIMIT then Ok(Decoded(value, at + |Encode(value, prefix, header)|)) else Err(InvalidInteger)
  {
    hide Pow2, Low, FirstOctet, Septets, DecodeTail;
    PowZero();
    var mask := Mask(prefix);
    var enc := Encode(value, prefix, header);
    FirstOctetParts(header, prefix, Min(value, mask));
    assert buf[at] == enc[0];
    if value >= mask {
      var tail := Septets(value - mask);
      assert buf[at + 1..at + 1 + |tail|] == buf[at..at + |enc|][1..] == tail;
      SeptetsRead(buf, at + 1, value - mask, mask, 0);
    }
  }

  /** The representation bits above the prefix survive encoding. */
  lemma HeaderKept(value: nat, prefix: nat, header: Byte)
    requires 1 <= prefix <= 8
    ensures var first := Encode(value, prefix, header)[0];
            High(first, prefix) == High(header, prefix)
  {
    FirstOctetParts(header, prefix, Min(value, Mask(prefix)));
  }

  lemma {:induction false} TailLengthRead(buf: Bytes, from: nat, to: nat)
    requires from <= to < |buf| && buf[to] < 128 && forall i :: from <= i < to ==> buf[i] >= 128
    ensures TailLength(buf, from) == Some(to + 1)
    decreases |buf| - from
  {
    if from < to {
      TailLengthRead(buf, from + 1, to);
    }
  }

  lemma {:induction false} TailLengthShort(buf: Bytes, from: nat)
    requires from <= |buf| && forall i :: from <= i < |buf| ==> buf[i] >= 128
    ensures TailLength(buf, from) == None
    decreases |buf| - from
  {
    if from < |buf| {
      TailLengthShort(buf, from + 1);
    }
  }

  /** The length scan finds the encoded length on any extension and asks for more on any proper prefix. */
  lemma LengthRoundTrip(value: nat, prefix: nat, header: Byte, after: Bytes, cut: nat)
    requires 1 <= prefix <= 8 && cut < |Encode(value, prefix, header)|
    ensures LengthOf(Encode(value, prefix, header) + after, prefix) == Some(|Encode(value, prefix, header)|)
    ensures LengthOf(Encode(value, prefix, header)[..cut], prefix) == None
  {
    hide Low, FirstOctet;
    var mask := Mask(prefix);
    FirstOctetParts(header, prefix, Min(value, mask));
    var enc := Encode(value, prefix, header);
    if value >= mask {
      var tail := Septets(value - mask);
      SeptetsShape(value - mask);
      assert forall i :: 1 <= i < |enc| ==> enc[i] == tail[i - 1];
      TailLengthRead(enc + after, 1, |enc| - 1);
      if cut > 0 {
        TailLengthShort(enc[..cut], 1);
      }
    }
  }
}
