/**
 The HPACK encoder and decoder (section 6 of RFC 7541) as functions of their
 tables: `src/h2/hpack/encode.rs` and `src/h2/hpack/decode.rs`.
 */
module Hpack {
  import opened Basics
  import opened HuffmanDecode
  import opened HpackTable
  import opened HpackString
  import PrefixInt
  import Huffman

  // "authorization", "proxy-authorization" and "cookie"
  const AUTHORIZATION: Bytes := [97, 117, 116, 104, 111, 114, 105, 122, 97, 116, 105, 111, 110]
  const PROXY_AUTHORIZATION: Bytes :=
    [112, 114, 111, 120, 121, 45, 97, 117, 116, 104, 111, 114, 105, 122, 97, 116, 105, 111, 110]
  const COOKIE: Bytes := [99, 111, 111, 107, 105, 101]

  predicate Sensitive(name: Bytes) {
    name == AUTHORIZATION || name == PROXY_AUTHORIZATION || name == COOKIE
  }

  /** The static table, the Huffman tables and whether to use them. */
  datatype Params = Params(coding: Coding, base: seq<Header>, huffman: bool)

  ghost predicate ParamsOk(p: Params) {
    CodingOk(p.coding) && |p.base| <= 61
  }

  predicate Shaped(p: Params) {
    Huffman.CodeTable(p.coding.codes) && |p.coding.table| == 65536
  }

  // Encoder

  function Text(p: Params, s: Bytes): Bytes
    requires Shaped(p)
  {
    EncodeString(p.coding.codes, p.huffman, s)
  }

  /** The index a literal takes its name from, 0 for a literal name. */
  function NameRef(p: Params, d: Dyn, name: Bytes): nat {
    var r := FindName(p.base, d.entries, name);
    if r.Some? then r.value else 0
  }

  function NameText(p: Params, ref: nat, name: Bytes): Bytes
    requires Shaped(p)
  {
    if ref == 0 then Text(p, name) else []
  }

  function Literal(p: Params, d: Dyn, h: Header, prefix: nat, header: Byte): Bytes
    requires Shaped(p) && 1 <= prefix <= 8
  {
    var ref := NameRef(p, d, h.name);
    PrefixInt.Encode(ref, prefix, header) + (NameText(p, ref, h.name) + Text(p, h.value))
  }

  datatype Emitted = Emitted(bytes: Bytes, table: Dyn)

  function EncodeHeader(p: Params, d: Dyn, h: Header): Emitted
    requires Shaped(p)
  {
    if Sensitive(h.name) then Emitted(Literal(p, d, h, 4, 0x10), d)
    else
      match Find(p.base, d.entries, h)
      case Some(i) => Emitted(PrefixInt.Encode(i, 7, 0x80), d)
      case None => Emitted(Literal(p, d, h, 6, 0x40), Add(d, h))
  }

  function EncodeHeaders(p: Params, d: Dyn, hs: seq<Header>): Emitted
    requires Shaped(p)
    decreases |hs|
  {
    if hs == [] then Emitted([], d)
    else
      var first := EncodeHeader(p, d, hs[0]);
      var rest := EncodeHeaders(p, first.table, hs[1..]);
      Emitted(first.bytes + rest.bytes, rest.table)
  }

  function Resized(d: Dyn, queued: Option<nat>): Dyn {
    if queued.Some? then SetMax(d, queued.value) else d
  }

  function SizeUpdate(queued: Option<nat>): Bytes {
    if queued.Some? then PrefixInt.Encode(queued.value, 5, 0x20) else []
  }

  /** A whole block: the queued size update, if any, then the headers. */
  function EncodeBlock(p: Params, d: Dyn, queued: Option<nat>, hs: seq<Header>): Emitted
    requires Shaped(p)
  {
    var rest := EncodeHeaders(p, Resized(d, queued), hs);
    Emitted(SizeUpdate(queued) + rest.bytes, rest.table)
  }

  // Decoder

  datatype Rep = Indexed | WithIndexing | WithoutIndexing | NeverIndexed | Resize

  function Load(byte: Byte): Result<Rep, HpackError> {
    var b: nat := byte;
    if b / 128 % 2 == 1 then Ok(Indexed)
    else if b / 64 % 2 == 1 then Ok(WithIndexing)
    else if b / 16 == 0 then Ok(WithoutIndexing)
    else if b / 16 == 1 then Ok(NeverIndexed)
    else if b / 32 == 1 then Ok(Resize)
    else Err(InvalidRepresentation)
  }

  /** Every octet is some representation: the error case never arises. */
  lemma LoadTotal(byte: Byte)
    ensures Load(byte) == Ok(if byte >= 128 then Indexed else if byte >= 64 then WithIndexing
                             else if byte >= 32 then Resize else if byte >= 16 then NeverIndexed else WithoutIndexing)
  {
  }

  datatype Progress = Progress(off: nat, headers: seq<Header>, canResize: bool, listSize: nat, table: Dyn)

  datatype Limits = Limits(maxTable: nat, maxList: nat)

  function HeaderSize(h: Header): nat {
    |h.name| + |h.value|
  }

  /** Accounts for one more header. */
  function Push(st: Progress, lim: Limits, off: nat, h: Header, table: Dyn): Result<Progress, HpackError> {
    var total := st.listSize + HeaderSize(h);
    if total > lim.maxList then Err(HeaderListTooLarge)
    else Ok(Progress(off, st.headers + [h], false, total, table))
  }

  /** The name of a literal: from the table, or the string that follows. */
  function DecodeName(p: Params, d: Dyn, buf: Bytes, index: nat, off: nat, maxList: nat): Result<StringAt, HpackError>
    requires Shaped(p)
  {
    if index == 0 then DecodeString(p.coding.table, buf, off, maxList)
    else
      match Get(p.base, d.entries, index)
      case None => Err(InvalidIndex)
      case Some(e) => Ok(StringAt(e.name, off))
  }

  function DecodeLiteral(p: Params, buf: Bytes, lim: Limits, st: Progress, prefix: nat, keep: bool): Result<Progress, HpackError>
    requires Shaped(p) && st.off < |buf| && 1 <= prefix <= 8
  {
    match PrefixInt.Decode(buf, st.off + 1, prefix, buf[st.off])
    case Err(_) => Err(InvalidInteger)
    case Ok(ref) =>
      match DecodeName(p, st.table, buf, ref.value, ref.off, lim.maxList)
      case Err(e) => Err(e)
      case Ok(name) =>
        match DecodeString(p.coding.table, buf, name.off, lim.maxList)
        case Err(e) => Err(e)
        case Ok(value) =>
          var h := Header(name.value, value.value);
          Push(st, lim, value.off, h, if keep then Add(st.table, h) else st.table)
  }

  function DecodeIndexed(p: Params, buf: Bytes, lim: Limits, st: Progress): Result<Progress, HpackError>
    requires st.off < |buf|
  {
    match PrefixInt.Decode(buf, st.off + 1, 7, buf[st.off])
    case Err(_) => Err(InvalidInteger)
    case Ok(i) =>
      match Get(p.base, st.table.entries, i.value)
      case None => Err(InvalidIndex)
      case Some(h) => Push(st, lim, i.off, h, st.table)
  }

  function DecodeResize(buf: Bytes, lim: Limits, st: Progress): Result<Progress, HpackError>
    requires st.off < |buf|
  {
    if !st.canResize then Err(InvalidMaxSize)
    else
      match PrefixInt.Decode(buf, st.off + 1, 5, buf[st.off])
      case Err(_) => Err(InvalidInteger)
      case Ok(size) =>
        if size.value > lim.maxTable then Err(InvalidMaxSize)
        else Ok(st.(off := size.off, table := SetMax(st.table, size.value)))
  }

  /** One representation. */
  function DecodeOne(p: Params, buf: Bytes, lim: Limits, st: Progress): (r: Result<Progress, HpackError>)
    requires Shaped(p) && st.off < |buf|
    ensures r.Ok? ==> st.off < r.value.off <= |buf|
  {
    match Load(buf[st.off])
    case Err(e) => Err(e)
    case Ok(Indexed) => DecodeIndexed(p, buf, lim, st)
    case Ok(WithIndexing) => DecodeLiteral(p, buf, lim, st, 6, true)
    case Ok(WithoutIndexing) => DecodeLiteral(p, buf, lim, st, 4, false)
    case Ok(NeverIndexed) => DecodeLiteral(p, buf, lim, st, 4, false)
    case Ok(Resize) => DecodeResize(buf, lim, st)
  }

  function DecodeFrom(p: Params, buf: Bytes, lim: Limits, st: Progress): Result<Progress, HpackError>
    requires Shaped(p)
    decreases |buf| - st.off
  {
    if st.off >= |buf| then Ok(st)
    else
      match DecodeOne(p, buf, lim, st)
      case Err(e) => Err(e)
      case Ok(next) => DecodeFrom(p, buf, lim, next)
  }

  function DecodeBlock(p: Params, d: Dyn, lim: Limits, buf: Bytes, listSize: nat): Result<Progress, HpackError>
    requires Shaped(p)
  {
    DecodeFrom(p, buf, lim, Progress(0, [], true, listSize, d))
  }

  /** The table the decoder is left with, whether or not the block was accepted. */
  function LastTable(p: Params, buf: Bytes, lim: Limits, st: Progress): Dyn
    requires Shaped(p)
    decreases |buf| - st.off
  {
    if st.off >= |buf| then st.table
    else
      match DecodeOne(p, buf, lim, st)
      case Err(_) => st.table
      case Ok(next) => LastTable(p, buf, lim, next)
  }
}
