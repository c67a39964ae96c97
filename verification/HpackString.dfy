/** HPACK string literals (section 5.2 of RFC 7541): `src/h2/hpack/string.rs`. */
module HpackString {
  import opened Basics
  import opened Bits
  import opened Huffman
  import opened HuffmanDecode
  import opened HuffmanTree
  import PrefixInt

  datatype HpackError =
    | InvalidInteger
    | InvalidString
    | InvalidHuffman
    | InvalidIndex
    | InvalidRepresentation
    | InvalidMaxSize
    | HeaderListTooLarge

  /** The Huffman tables of the program. */
  datatype Coding = Coding(codes: seq<Code>, dfa: seq<Row>, labels: seq<seq<bool>>, table: seq<Row8>)

  ghost predicate CodingOk(k: Coding) {
    Simulates(k.dfa, k.codes, k.labels) && IsTable8(k.table, k.dfa)
  }

  /** What every user of the tables needs to know about them. */
  lemma CodingShape(k: Coding)
    requires CodingOk(k)
    ensures CodeTable(k.codes) && |k.table| == 65536
  {
    SimulatesDfa(k.dfa, k.codes, k.labels);
    PrefixFreeTable(k.codes);
  }

  function HuffmanBytes(codes: seq<Code>, s: Bytes): (r: Bytes)
    requires CodeTable(codes)
    ensures IsPadded(r, Concat(codes, s))
  {
    var bits := Concat(codes, s) + Ones(PadLen(|Concat(codes, s)|));
    UnpackPack(bits);
    Pack(bits)
  }

  /** Huffman coding is used when its bits, before padding, are fewer than the raw ones. */
  predicate Shorter(codes: seq<Code>, s: Bytes)
    requires CodeTable(codes)
  {
    EncodedLen(codes, s) < 8 * |s|
  }

  function EncodeString(codes: seq<Code>, huffman: bool, s: Bytes): Bytes
    requires CodeTable(codes)
  {
    if huffman && Shorter(codes, s) then
      PrefixInt.Encode(|HuffmanBytes(codes, s)|, 7, 0x80) + HuffmanBytes(codes, s)
    else
      PrefixInt.Encode(|s|, 7, 0) + s
  }

  /** The choice is the shorter of the two. */
  lemma ShorterIsShorter(codes: seq<Code>, s: Bytes)
    requires CodeTable(codes)
    ensures if Shorter(codes, s) then |HuffmanBytes(codes, s)| <= |s| else |HuffmanBytes(codes, s)| >= |s|
  {
    hide Concat, HuffmanBytes, IsPadded;
    PaddedLength(HuffmanBytes(codes, s), Concat(codes, s));
  }

  method EncodeStringInto(codes: seq<Code>, huffman: bool, out: Bytes, s: Bytes) returns (r: Bytes)
    requires CodeTable(codes)
    ensures r == out + EncodeString(codes, huffman, s)
  {
    hide Concat, HuffmanBytes, IsPadded, PrefixInt.Encode;
    if huffman && Shorter(codes, s) {
      var len := (EncodedLen(codes, s) + 7) / 8;
      PaddedLength(HuffmanBytes(codes, s), Concat(codes, s));
      r := PrefixInt.EncodeInto(out, len, 7, 0x80);
      ghost var head := r;
      r := EncodeInto(codes, s, r);
      PaddedUnique(r[|head|..], HuffmanBytes(codes, s), Concat(codes, s));
      assert r == head + r[|head|..];
    } else {
      r := PrefixInt.EncodeInto(out, |s|, 7, 0);
      r := r + s;
    }
  }

  datatype StringAt = StringAt(value: Bytes, off: nat)

  function DecodeString(table: seq<Row8>, buf: Bytes, off: nat, maxLength: nat): (r: Result<StringAt, HpackError>)
    requires |table| == 65536
    ensures r.Ok? ==> off < r.value.off <= |buf|
  {
    if off >= |buf| then Err(InvalidString)
    else
      match PrefixInt.Decode(buf, off + 1, 7, buf[off])
      case Err(_) => Err(InvalidInteger)
      case Ok(d) =>
        if d.value > maxLength || d.off + d.value > |buf| then Err(InvalidString)
        else
          var slice := buf[d.off..d.off + d.value];
          if buf[off] >= 0x80 then
            match Outcome(Run8(table, slice))
            case Err(_) => Err(HpackError.InvalidHuffman)
            case Ok(v) => if |v| > maxLength then Err(InvalidString) else Ok(StringAt(v, d.off + d.value))
          else Ok(StringAt(slice, d.off + d.value))
  }

  method DecodeStringAt(table: seq<Row8>, buf: Bytes, off: nat, maxLength: nat) returns (r: Result<StringAt, HpackError>)
    requires |table| == 65536
    ensures r == DecodeString(table, buf, off, maxLength)
  {
    hide Run8, PrefixInt.Decode;
    if off >= |buf| {
      return Err(InvalidString);
    }
    var first := buf[off];
    var len := PrefixInt.DecodeLoop(buf, off + 1, 7, first);
    if len.Err? {
      return Err(InvalidInteger);
    }
    var end := len.value.off + len.value.value;
    if len.value.value > maxLength || end > |buf| {
      return Err(InvalidString);
    }
    var slice := buf[len.value.off..end];
    if first >= 0x80 {
      var value := DecodeLoop(table, slice);
      if value.Err? {
        return Err(HpackError.InvalidHuffman);
      }
      if |value.value| > maxLength {
        return Err(InvalidString);
      }
      return Ok(StringAt(value.value, end));
    }
    return Ok(StringAt(slice, end));
  }

  lemma FlagOf(value: nat)
    ensures PrefixInt.Encode(value, 7, 0x80)[0] >= 0x80 && PrefixInt.Encode(value, 7, 0)[0] < 0x80
  {
    PrefixInt.HeaderKept(value, 7, 0x80);
    PrefixInt.HeaderKept(value, 7, 0);
  }

  lemma SplitSlice(buf: Bytes, at: nat, a: Bytes, b: Bytes)
    requires at + |a| + |b| <= |buf| && buf[at..at + |a| + |b|] == a + b
    ensures buf[at..at + |a|] == a && buf[at + |a|..at + |a| + |b|] == b
  {
    var whole := buf[at..at + |a| + |b|];
    assert whole[..|a|] == a && whole[|a|..] == b;
    assert buf[at..at + |a|] == whole[..|a|] && buf[at + |a|..at + |a| + |b|] == whole[|a|..];
  }

  /** What reading a written string must yield: the string and the place behind it, unless it is over the limit. */
  function ReadBack(s: Bytes, end: nat, maxLength: nat): Result<StringAt, HpackError> {
    if |s| <= maxLength then Ok(StringAt(s, end)) else Err(InvalidString)
  }

  /** Every string, raw or Huffman, decodes back to itself and consumes its own bytes, or is refused for its length. */
  lemma StringRoundTrip(k: Coding, huffman: bool, buf: Bytes, at: nat, s: Bytes, maxLength: nat)
    requires CodingOk(k) && CodeTable(k.codes) && |s| < PrefixInt.LIMIT
    requires var e := EncodeString(k.codes, huffman, s); at + |e| <= |buf| && buf[at..at + |e|] == e
    ensures |k.table| == 65536
    ensures DecodeString(k.table, buf, at, maxLength) == ReadBack(s, at + |EncodeString(k.codes, huffman, s)|, maxLength)
  {
    hide CodingOk, CodeTable, DecodeString, EncodeString, Shorter, ReadBack;
    CodingShape(k);
    if huffman && Shorter(k.codes, s) {
      HuffmanStringRoundTrip(k, buf, at, s, maxLength);
    } else {
      RawStringRoundTrip(k, huffman, buf, at, s, maxLength);
    }
  }

  lemma RawStringRoundTrip(k: Coding, huffman: bool, buf: Bytes, at: nat, s: Bytes, maxLength: nat)
    requires |k.table| == 65536 && CodeTable(k.codes) && |s| < PrefixInt.LIMIT
    requires !(huffman && Shorter(k.codes, s))
    requires var e := EncodeString(k.codes, huffman, s); at + |e| <= |buf| && buf[at..at + |e|] == e
    ensures DecodeString(k.table, buf, at, maxLength) == ReadBack(s, at + |EncodeString(k.codes, huffman, s)|, maxLength)
  {
    hide CodeTable, HuffmanBytes, Concat, Run8, PrefixInt.Encode, PrefixInt.Decode, IsPadded, Shorter;
    var len := PrefixInt.Encode(|s|, 7, 0);
    SplitSlice(buf, at, len, s);
    PrefixInt.RoundTrip(buf, at, |s|, 7, 0);
    FlagOf(|s|);
    assert buf[at] == len[0];
  }

  lemma HuffmanStringRoundTrip(k: Coding, buf: Bytes, at: nat, s: Bytes, maxLength: nat)
    requires CodingOk(k) && |k.table| == 65536 && CodeTable(k.codes) && |s| < PrefixInt.LIMIT
    requires Shorter(k.codes, s)
    requires var e := EncodeString(k.codes, true, s); at + |e| <= |buf| && buf[at..at + |e|] == e
    ensures DecodeString(k.table, buf, at, maxLength) == ReadBack(s, at + |EncodeString(k.codes, true, s)|, maxLength)
  {
    hide CodingOk, CodeTable, HuffmanBytes, Concat, Run8, PrefixInt.Encode, PrefixInt.Decode, IsPadded, EncodedLen;
    var body := HuffmanBytes(k.codes, s);
    PaddedLength(body, Concat(k.codes, s));
    var len := PrefixInt.Encode(|body|, 7, 0x80);
    SplitSlice(buf, at, len, body);
    PrefixInt.RoundTrip(buf, at, |body|, 7, 0x80);
    FlagOf(|body|);
    assert buf[at] == len[0];
    HuffmanRoundTrip(k, s);
  }

  lemma HuffmanRoundTrip(k: Coding, s: Bytes)
    requires CodingOk(k) && CodeTable(k.codes) && |k.table| == 65536
    ensures Outcome(Run8(k.table, HuffmanBytes(k.codes, s))) == Ok(s)
  {
    hide Simulates, IsTable8, Run8, HuffmanBytes, Outcome;
    DecodeExactly(k.dfa, k.codes, k.labels, k.table, HuffmanBytes(k.codes, s), s);
  }
}
