/**
 The encoder and the decoder stay in step: every block the encoder writes
 decodes to the list it was given and leaves both tables equal, over every
 sequence of blocks and size updates.
 */
module HpackStepLock {
  import opened Basics
  import opened HpackTable
  import opened HpackString
  import opened Hpack
  import PrefixInt

  predicate TableOk(d: Dyn) {
    Fits(d) && d.maxSize < PrefixInt.LIMIT
  }

  /** The strings of a header are short enough for a prefixed integer. */
  predicate Encodable(h: Header) {
    |h.name| < PrefixInt.LIMIT && |h.value| < PrefixInt.LIMIT
  }

  predicate At(buf: Bytes, at: nat, part: Bytes) {
    at + |part| <= |buf| && buf[at..at + |part|] == part
  }

  lemma AtSplit(buf: Bytes, at: nat, a: Bytes, b: Bytes)
    requires At(buf, at, a + b)
    ensures At(buf, at, a) && At(buf, at + |a|, b)
  {
    SplitSlice(buf, at, a, b);
  }

  /** Table indices stay far below the integer limit. */
  lemma IndexRange(p: Params, d: Dyn)
    requires |p.base| <= 61 && TableOk(d)
    ensures |p.base| + |d.entries| < PrefixInt.LIMIT
  {
    EntryCount(d.entries);
  }

  lemma TextRead(p: Params, buf: Bytes, at: nat, s: Bytes, maxList: nat)
    requires ParamsOk(p) && Shaped(p) && |s| < PrefixInt.LIMIT && At(buf, at, Text(p, s))
    ensures DecodeString(p.coding.table, buf, at, maxList) == ReadBack(s, at + |Text(p, s)|, maxList)
  {
    hide CodingOk, DecodeString, EncodeString, Huffman.CodeTable;
    StringRoundTrip(p.coding, p.huffman, buf, at, s, maxList);
  }

  /** First octets of the representations the encoder uses. */
  lemma RepOf(value: nat)
    ensures Load(PrefixInt.Encode(value, 7, 0x80)[0]) == Ok(Indexed)
    ensures Load(PrefixInt.Encode(value, 6, 0x40)[0]) == Ok(WithIndexing)
    ensures Load(PrefixInt.Encode(value, 4, 0x10)[0]) == Ok(NeverIndexed)
    ensures Load(PrefixInt.Encode(value, 5, 0x20)[0]) == Ok(Resize)
  {
    hide PrefixInt.Encode;
    PrefixInt.HeaderKept(value, 7, 0x80);
    PrefixInt.HeaderKept(value, 6, 0x40);
    PrefixInt.HeaderKept(value, 4, 0x10);
    PrefixInt.HeaderKept(value, 5, 0x20);
  }

  /** The decoder state after one more header. */
  function After(st: Progress, n: nat, h: Header, table: Dyn): Progress {
    Progress(st.off + n, st.headers + [h], false, st.listSize + HeaderSize(h), table)
  }

  predicate Room(st: Progress, lim: Limits, h: Header) {
    st.listSize + HeaderSize(h) <= lim.maxList
  }

  /** The header is written as an index. */
  predicate Known(p: Params, d: Dyn, h: Header) {
    !Sensitive(h.name) && Find(p.base, d.entries, h).Some?
  }

  /** A string of a literal is over the list limit on its own. */
  predicate LongString(p: Params, d: Dyn, h: Header, lim: Limits) {
    (NameRef(p, d, h.name) == 0 && |h.name| > lim.maxList) || |h.value| > lim.maxList
  }

  /** Why the decoder refuses a header: a string over the limit, or the list with it over the limit. */
  function Refusal(p: Params, st: Progress, lim: Limits, h: Header): Option<HpackError> {
    if !Known(p, st.table, h) && LongString(p, st.table, h, lim) then Some(InvalidString)
    else if !Room(st, lim, h) then Some(HeaderListTooLarge)
    else None
  }

  /** What decoding the encoded header must yield. */
  function Outcome(p: Params, st: Progress, lim: Limits, h: Header, n: nat, table: Dyn): Result<Progress, HpackError> {
    match Refusal(p, st, lim, h)
    case Some(e) => Err(e)
    case None => Ok(After(st, n, h, table))
  }

  lemma IndexedRead(p: Params, buf: Bytes, lim: Limits, st: Progress, i: nat, h: Header)
    requires Get(p.base, st.table.entries, i) == Some(h) && i < PrefixInt.LIMIT
    requires At(buf, st.off, PrefixInt.Encode(i, 7, 0x80)) && st.off < |buf|
    ensures DecodeIndexed(p, buf, lim, st) == Push(st, lim, st.off + |PrefixInt.Encode(i, 7, 0x80)|, h, st.table)
  {
    hide PrefixInt.Encode, PrefixInt.Decode, Get;
    PrefixInt.RoundTrip(buf, st.off, i, 7, 0x80);
  }

  lemma NameRead(p: Params, d: Dyn, buf: Bytes, off: nat, name: Bytes, maxList: nat)
    requires ParamsOk(p) && Shaped(p) && |name| < PrefixInt.LIMIT
    requires At(buf, off, NameText(p, NameRef(p, d, name), name))
    ensures var ref := NameRef(p, d, name); var end := off + |NameText(p, ref, name)|;
            DecodeName(p, d, buf, ref, off, maxList) == if ref == 0 then ReadBack(name, end, maxList) else Ok(StringAt(name, end))
  {
    hide ParamsOk, Shaped, DecodeString, Text, FindName;
    if NameRef(p, d, name) == 0 {
      TextRead(p, buf, off, name, maxList);
    }
  }

  /** A literal reads back as its header. */
  lemma LiteralRead(p: Params, buf: Bytes, lim: Limits, st: Progress, h: Header, prefix: nat, header: Byte, keep: bool)
    requires ParamsOk(p) && Shaped(p) && TableOk(st.table) && Encodable(h) && 1 <= prefix <= 8
    requires At(buf, st.off, Literal(p, st.table, h, prefix, header)) && st.off < |buf|
    ensures DecodeLiteral(p, buf, lim, st, prefix, keep) ==
            if LongString(p, st.table, h, lim) then Err(InvalidString)
            else Push(st, lim, st.off + |Literal(p, st.table, h, prefix, header)|, h, if keep then Add(st.table, h) else st.table)
  {
    hide CodingOk, Shaped, PrefixInt.Encode, PrefixInt.Decode, DecodeString, DecodeName, Text, NameText, NameRef, Add;
    var ref := NameRef(p, st.table, h.name);
    var index, name, value := PrefixInt.Encode(ref, prefix, header), NameText(p, ref, h.name), Text(p, h.value);
    RefRange(p, st.table, h.name);
    AtSplit(buf, st.off, index, name + value);
    AtSplit(buf, st.off + |index|, name, value);
    PrefixInt.RoundTrip(buf, st.off, ref, prefix, header);
    NameRead(p, st.table, buf, st.off + |index|, h.name, lim.maxList);
    TextRead(p, buf, st.off + |index| + |name|, h.value, lim.maxList);
  }

  lemma RefRange(p: Params, d: Dyn, name: Bytes)
    requires |p.base| <= 61 && TableOk(d)
    ensures NameRef(p, d, name) < PrefixInt.LIMIT
  {
    IndexRange(p, d);
  }

  lemma EncodeHeaderKeeps(p: Params, d: Dyn, h: Header)
    requires Shaped(p) && TableOk(d)
    ensures TableOk(EncodeHeader(p, d, h).table) && EncodeHeader(p, d, h).bytes != []
  {
  }

  /** One encoded header, wherever it stands, is decoded with the same table change, or refused before any. */
  lemma HeaderReadBack(p: Params, buf: Bytes, lim: Limits, st: Progress, h: Header)
    requires ParamsOk(p) && Shaped(p) && TableOk(st.table) && Encodable(h)
    requires st.off < |buf| && At(buf, st.off, EncodeHeader(p, st.table, h).bytes)
    ensures var e := EncodeHeader(p, st.table, h);
            DecodeOne(p, buf, lim, st) == Outcome(p, st, lim, h, |e.bytes|, e.table)
    ensures Refusal(p, st, lim, h).None? <==> Room(st, lim, h)
  {
    hide CodingOk, Shaped, PrefixInt.Encode, PrefixInt.Decode, DecodeLiteral, DecodeIndexed, DecodeResize, Get, Find, Add,
         NameRef, NameText, Text, Load;
    var enc := EncodeHeader(p, st.table, h).bytes;
    EncodeHeaderKeeps(p, st.table, h);
    assert buf[st.off] == enc[0];
    if Sensitive(h.name) {
      RepOf(NameRef(p, st.table, h.name));
      EncodeNotEmpty(NameRef(p, st.table, h.name), 4, 0x10);
      assert enc[0] == PrefixInt.Encode(NameRef(p, st.table, h.name), 4, 0x10)[0];
      LiteralRead(p, buf, lim, st, h, 4, 0x10, false);
    } else {
      match Find(p.base, st.table.entries, h)
      case Some(i) =>
        RepOf(i);
        IndexRange(p, st.table);
        IndexedRead(p, buf, lim, st, i, h);
      case None =>
        RepOf(NameRef(p, st.table, h.name));
        EncodeNotEmpty(NameRef(p, st.table, h.name), 6, 0x40);
        assert enc[0] == PrefixInt.Encode(NameRef(p, st.table, h.name), 6, 0x40)[0];
        LiteralRead(p, buf, lim, st, h, 6, 0x40, true);
    }
  }

  function ListSize(hs: seq<Header>): nat {
    if hs == [] then 0 else HeaderSize(hs[0]) + ListSize(hs[1..])
  }

  predicate AllEncodable(hs: seq<Header>) {
    forall i :: 0 <= i < |hs| ==> Encodable(hs[i])
  }

  /** A list of encoded headers at the end of the buffer is decoded to that list. */
  lemma {:induction false} HeadersReadBack(p: Params, buf: Bytes, lim: Limits, st: Progress, hs: seq<Header>)
    requires ParamsOk(p) && Shaped(p) && TableOk(st.table) && AllEncodable(hs)
    requires st.listSize + ListSize(hs) <= lim.maxList
    requires At(buf, st.off, EncodeHeaders(p, st.table, hs).bytes)
    requires st.off + |EncodeHeaders(p, st.table, hs).bytes| == |buf|
    ensures DecodeFrom(p, buf, lim, st) ==
            Ok(Progress(|buf|, st.headers + hs, st.canResize && hs == [], st.listSize + ListSize(hs),
                        EncodeHeaders(p, st.table, hs).table))
    ensures TableOk(EncodeHeaders(p, st.table, hs).table)
    decreases |hs|
  {
    hide ParamsOk, Shaped, TableOk, EncodeHeader, DecodeOne;
    if hs == [] {
      assert st.headers + hs == st.headers;
    } else {
      var first := EncodeHeader(p, st.table, hs[0]);
      var rest := EncodeHeaders(p, first.table, hs[1..]);
      AtSplit(buf, st.off, first.bytes, rest.bytes);
      EncodeHeaderKeeps(p, st.table, hs[0]);
      HeaderReadBack(p, buf, lim, st, hs[0]);
      var next := After(st, |first.bytes|, hs[0], first.table);
      HeadersReadBack(p, buf, lim, next, hs[1..]);
      assert next.headers + hs[1..] == st.headers + hs;
    }
  }

  predicate UpdateOk(queued: Option<nat>, lim: Limits) {
    queued.Some? ==> queued.value <= lim.maxTable && queued.value < PrefixInt.LIMIT
  }

  lemma ResizeRead(buf: Bytes, lim: Limits, st: Progress, size: nat)
    requires st.canResize && size <= lim.maxTable && size < PrefixInt.LIMIT
    requires st.off < |buf| && At(buf, st.off, PrefixInt.Encode(size, 5, 0x20))
    ensures DecodeResize(buf, lim, st)
            == Ok(st.(off := st.off + |PrefixInt.Encode(size, 5, 0x20)|, table := SetMax(st.table, size)))
  {
    hide PrefixInt.Encode, PrefixInt.Decode, SetMax;
    PrefixInt.RoundTrip(buf, st.off, size, 5, 0x20);
  }

  /** A block whose size update is within the decoder's cap and whose list is within its limit decodes to its list. */
  lemma BlockReadBack(p: Params, d: Dyn, queued: Option<nat>, hs: seq<Header>, lim: Limits, listSize: nat)
    requires ParamsOk(p) && Shaped(p) && TableOk(d) && UpdateOk(queued, lim) && AllEncodable(hs)
    requires listSize + ListSize(hs) <= lim.maxList
    ensures var block := EncodeBlock(p, d, queued, hs);
            var r := DecodeBlock(p, d, lim, block.bytes, listSize);
            && r.Ok?
            && r.value.headers == hs
            && r.value.table == block.table
            && r.value.listSize == listSize + ListSize(hs)
            && TableOk(block.table)
  {
    hide ParamsOk, Shaped, EncodeHeaders, DecodeIndexed, DecodeLiteral, DecodeResize, PrefixInt.Encode, Load, SetMax;
    var block := EncodeBlock(p, d, queued, hs);
    var buf := block.bytes;
    var st := Progress(0, [], true, listSize, d);
    var update, rest := SizeUpdate(queued), EncodeHeaders(p, Resized(d, queued), hs);
    assert buf[0..|buf|] == buf;
    AtSplit(buf, 0, update, rest.bytes);
    assert [] + hs == hs;
    if queued.Some? {
      RepOf(queued.value);
      EncodeNotEmpty(queued.value, 5, 0x20);
      assert buf[0] == update[0];
      ResizeRead(buf, lim, st, queued.value);
      SetMaxOk(d, queued.value);
      var next := st.(off := |update|, table := SetMax(d, queued.value));
      HeadersReadBack(p, buf, lim, next, hs);
    } else {
      HeadersReadBack(p, buf, lim, st, hs);
    }
  }

  lemma SetMaxOk(d: Dyn, size: nat)
    requires size < PrefixInt.LIMIT
    ensures TableOk(SetMax(d, size))
  {
  }

  lemma EncodeNotEmpty(value: nat, prefix: nat, header: Byte)
    requires 1 <= prefix <= 8
    ensures PrefixInt.Encode(value, prefix, header) != []
  {
  }

  // Refused blocks

  /** How many headers of a list fit into the list limit, counted from the front. */
  function Accepted(size: nat, hs: seq<Header>, maxList: nat): (k: nat)
    ensures k <= |hs|
    ensures size + ListSize(hs) > maxList && size <= maxList ==> k < |hs|
    decreases |hs|
  {
    if hs == [] || size + HeaderSize(hs[0]) > maxList then 0
    else 1 + Accepted(size + HeaderSize(hs[0]), hs[1..], maxList)
  }

  /** A list over the limit is refused at its first header that does not fit; the table keeps what came before. */
  lemma {:induction false} HeadersRefused(p: Params, buf: Bytes, lim: Limits, st: Progress, hs: seq<Header>)
    requires ParamsOk(p) && Shaped(p) && TableOk(st.table) && AllEncodable(hs) && hs != []
    requires st.listSize + ListSize(hs) > lim.maxList
    requires At(buf, st.off, EncodeHeaders(p, st.table, hs).bytes)
    ensures DecodeFrom(p, buf, lim, st).Err?
    ensures var k := Accepted(st.listSize, hs, lim.maxList);
            k < |hs| && LastTable(p, buf, lim, st) == EncodeHeaders(p, st.table, hs[..k]).table
    decreases |hs|
  {
    hide ParamsOk, Shaped, TableOk, EncodeHeader, DecodeOne, Refusal;
    var first := EncodeHeader(p, st.table, hs[0]);
    var rest := EncodeHeaders(p, first.table, hs[1..]);
    AtSplit(buf, st.off, first.bytes, rest.bytes);
    EncodeHeaderKeeps(p, st.table, hs[0]);
    HeaderReadBack(p, buf, lim, st, hs[0]);
    var k := Accepted(st.listSize, hs, lim.maxList);
    if Room(st, lim, hs[0]) {
      assert hs[1..] != [];
      HeadersRefused(p, buf, lim, After(st, |first.bytes|, hs[0], first.table), hs[1..]);
      assert hs[..k][0] == hs[0] && hs[..k][1..] == hs[1..][..k - 1];
    } else {
      assert hs[..k] == [];
    }
  }

  /** The decoder before the first octet of a block. */
  function Ready(d: Dyn, listSize: nat): Progress {
    Progress(0, [], true, listSize, d)
  }

  lemma BlockParts(p: Params, d: Dyn, queued: Option<nat>, hs: seq<Header>)
    requires Shaped(p)
    ensures var buf := EncodeBlock(p, d, queued, hs).bytes;
            && At(buf, 0, SizeUpdate(queued))
            && At(buf, |SizeUpdate(queued)|, EncodeHeaders(p, Resized(d, queued), hs).bytes)
            && |buf| == |SizeUpdate(queued)| + |EncodeHeaders(p, Resized(d, queued), hs).bytes|
  {
    hide EncodeHeaders, SizeUpdate, Resized;
    var buf := EncodeBlock(p, d, queued, hs).bytes;
    assert buf[0..|buf|] == buf;
    AtSplit(buf, 0, SizeUpdate(queued), EncodeHeaders(p, Resized(d, queued), hs).bytes);
  }

  /** Decoding a block whose size update is within the cap goes on behind the update. */
  lemma UpdateRead(p: Params, d: Dyn, queued: Option<nat>, hs: seq<Header>, lim: Limits, listSize: nat)
    requires Shaped(p) && UpdateOk(queued, lim)
    ensures var buf := EncodeBlock(p, d, queued, hs).bytes;
            var next := Ready(Resized(d, queued), listSize).(off := |SizeUpdate(queued)|);
            && DecodeBlock(p, d, lim, buf, listSize) == DecodeFrom(p, buf, lim, next)
            && LastTable(p, buf, lim, Ready(d, listSize)) == LastTable(p, buf, lim, next)
  {
    hide Shaped, EncodeHeaders, DecodeIndexed, DecodeLiteral, DecodeResize, PrefixInt.Encode, Load, SetMax;
    BlockParts(p, d, queued, hs);
    if queued.Some? {
      var buf := EncodeBlock(p, d, queued, hs).bytes;
      RepOf(queued.value);
      EncodeNotEmpty(queued.value, 5, 0x20);
      assert buf[0] == SizeUpdate(queued)[0];
      ResizeRead(buf, lim, Ready(d, listSize), queued.value);
    }
  }

  /** A block whose list is over the limit is refused, with the table the headers before left. */
  lemma BlockRefused(p: Params, d: Dyn, queued: Option<nat>, hs: seq<Header>, lim: Limits, listSize: nat)
    requires ParamsOk(p) && Shaped(p) && TableOk(d) && UpdateOk(queued, lim) && AllEncodable(hs)
    requires hs != [] && listSize + ListSize(hs) > lim.maxList
    ensures var buf := EncodeBlock(p, d, queued, hs).bytes; var k := Accepted(listSize, hs, lim.maxList);
            && DecodeBlock(p, d, lim, buf, listSize).Err? && k < |hs|
            && LastTable(p, buf, lim, Ready(d, listSize)) == EncodeHeaders(p, Resized(d, queued), hs[..k]).table
  {
    hide ParamsOk, Shaped, EncodeBlock, EncodeHeaders, DecodeBlock, DecodeFrom, LastTable, SetMax;
    var buf := EncodeBlock(p, d, queued, hs).bytes;
    UpdateRead(p, d, queued, hs, lim, listSize);
    BlockParts(p, d, queued, hs);
    if queued.Some? {
      SetMaxOk(d, queued.value);
    }
    HeadersRefused(p, buf, lim, Ready(Resized(d, queued), listSize).(off := |SizeUpdate(queued)|), hs);
  }

  /** A size update over the cap is refused before anything else is read. */
  lemma UpdateRefused(p: Params, d: Dyn, size: nat, hs: seq<Header>, lim: Limits, listSize: nat)
    requires Shaped(p) && lim.maxTable < size < PrefixInt.LIMIT
    ensures var buf := EncodeBlock(p, d, Some(size), hs).bytes;
            && DecodeBlock(p, d, lim, buf, listSize) == Err(InvalidMaxSize)
            && LastTable(p, buf, lim, Ready(d, listSize)) == d
  {
    hide Shaped, EncodeHeaders, DecodeIndexed, DecodeLiteral, PrefixInt.Encode, PrefixInt.Decode, Load, SetMax;
    var buf := EncodeBlock(p, d, Some(size), hs).bytes;
    BlockParts(p, d, Some(size), hs);
    RepOf(size);
    EncodeNotEmpty(size, 5, 0x20);
    assert buf[0] == SizeUpdate(Some(size))[0];
    PrefixInt.RoundTrip(buf, 0, size, 5, 0x20);
  }

  // Conversations

  datatype EncoderState = EncoderState(table: Dyn, queued: Option<nat>)

  datatype DecoderState = DecoderState(table: Dyn, limits: Limits, queued: Option<nat>)

  datatype Pair = Pair(enc: EncoderState, dec: DecoderState)

  /** A size queued on either side by itself, or a header list sent from one to the other. */
  datatype Event = EncoderUpdate(size: nat) | DecoderUpdate(size: nat) | Block(headers: seq<Header>)

  /** A newly queued size is merged with one still waiting by taking the larger. */
  function Queue(queued: Option<nat>, size: nat): Option<nat> {
    if queued.Some? then Some(Max(queued.value, size)) else Some(size)
  }

  /** The decoder's limits when it starts a block. */
  function LimitsNow(dec: DecoderState): Limits {
    if dec.queued.Some? then dec.limits.(maxTable := dec.queued.value) else dec.limits
  }

  function Ascii(text: string): Bytes {
    seq(|text|, i requires 0 <= i < |text| => (text[i] as int) % 256)
  }

  /** The names whose values are never indexed. */
  predicate Secret(name: Bytes) {
    name == Ascii("authorization") || name == Ascii("proxy-authorization") || name == Ascii("cookie")
  }

  lemma SecretIsSensitive(name: Bytes)
    ensures Secret(name) <==> Sensitive(name)
  {
    assert Ascii("authorization") == AUTHORIZATION;
    assert Ascii("proxy-authorization") == PROXY_AUTHORIZATION;
    assert Ascii("cookie") == COOKIE;
  }

  ghost predicate NoSecrets(d: Dyn) {
    forall i :: 0 <= i < |d.entries| ==> !Secret(d.entries[i].name)
  }

  /** Equal tables with no never-indexed name in them. */
  ghost predicate InStep(pair: Pair) {
    && pair.enc.table == pair.dec.table
    && TableOk(pair.enc.table)
    && NoSecrets(pair.enc.table)
  }

  /** Strings and sizes that a prefixed integer can carry. */
  predicate Writable(e: Event) {
    match e
    case EncoderUpdate(size) => size < PrefixInt.LIMIT
    case DecoderUpdate(_) => true
    case Block(hs) => AllEncodable(hs)
  }

  ghost predicate QueueWritable(pair: Pair) {
    pair.enc.queued.Some? ==> pair.enc.queued.value < PrefixInt.LIMIT
  }

  /** The decoder can take the block: the pending update is within its cap and the list within its limit. */
  predicate WithinLimits(pair: Pair, hs: seq<Header>) {
    && UpdateOk(pair.enc.queued, LimitsNow(pair.dec))
    && ListSize(hs) <= pair.dec.limits.maxList
  }

  function Received(p: Params, pair: Pair, hs: seq<Header>): Result<Progress, HpackError>
    requires Shaped(p)
  {
    DecodeBlock(p, pair.dec.table, LimitsNow(pair.dec), EncodeBlock(p, pair.enc.table, pair.enc.queued, hs).bytes, 0)
  }

  function Exchange(p: Params, pair: Pair, e: Event): Pair
    requires Shaped(p)
  {
    match e
    case EncoderUpdate(size) => pair.(enc := pair.enc.(queued := Queue(pair.enc.queued, size)))
    case DecoderUpdate(size) => pair.(dec := pair.dec.(queued := Queue(pair.dec.queued, size)))
    case Block(hs) =>
      var sent := EncodeBlock(p, pair.enc.table, pair.enc.queued, hs);
      var left := LastTable(p, sent.bytes, LimitsNow(pair.dec), Ready(pair.dec.table, 0));
      Pair(EncoderState(sent.table, None), DecoderState(left, LimitsNow(pair.dec), None))
  }

  /** Every block of the conversation is received as the list that was sent, and the sides are in step throughout. */
  ghost predicate AllReceived(p: Params, pair: Pair, events: seq<Event>)
    requires Shaped(p)
    decreases |events|
  {
    && InStep(pair)
    && (events != [] ==>
          && (events[0].Block? ==>
                && Received(p, pair, events[0].headers).Ok?
                && Received(p, pair, events[0].headers).value.headers == events[0].headers)
          && AllReceived(p, Exchange(p, pair, events[0]), events[1..]))
  }

  /** Every block of the conversation comes within the limits the decoder then has. */
  predicate AllWithin(p: Params, pair: Pair, events: seq<Event>)
    requires Shaped(p)
    decreases |events|
  {
    events != [] ==>
      && (events[0].Block? ==> WithinLimits(pair, events[0].headers))
      && AllWithin(p, Exchange(p, pair, events[0]), events[1..])
  }

  lemma EvictSecrets(es: seq<Header>, room: nat)
    requires forall i :: 0 <= i < |es| ==> !Secret(es[i].name)
    ensures forall i :: 0 <= i < |Evict(es, room)| ==> !Secret(Evict(es, room)[i].name)
  {
    EvictLongest(es, room);
  }

  lemma HeaderSecrets(p: Params, d: Dyn, h: Header)
    requires Shaped(p) && NoSecrets(d)
    ensures NoSecrets(EncodeHeader(p, d, h).table)
  {
    hide Sensitive, Secret;
    SecretIsSensitive(h.name);
    if Size(h) <= d.maxSize {
      EvictSecrets(d.entries, d.maxSize - Size(h));
    }
  }

  lemma {:induction false} HeadersSecrets(p: Params, d: Dyn, hs: seq<Header>)
    requires Shaped(p) && NoSecrets(d)
    ensures NoSecrets(EncodeHeaders(p, d, hs).table)
    decreases |hs|
  {
    hide EncodeHeader, NoSecrets;
    if hs != [] {
      HeaderSecrets(p, d, hs[0]);
      HeadersSecrets(p, EncodeHeader(p, d, hs[0]).table, hs[1..]);
    }
  }

  /** Decoding a block that is accepted leaves the table the result holds. */
  lemma {:induction false} LastOfAccepted(p: Params, buf: Bytes, lim: Limits, st: Progress)
    requires Shaped(p) && DecodeFrom(p, buf, lim, st).Ok?
    ensures LastTable(p, buf, lim, st) == DecodeFrom(p, buf, lim, st).value.table
    decreases |buf| - st.off
  {
    hide DecodeOne, Shaped;
    if st.off < |buf| {
      LastOfAccepted(p, buf, lim, DecodeOne(p, buf, lim, st).value);
    }
  }

  /** A block between sides in step is received whole if and only if it is within the limits, and then keeps the step. */
  lemma BlockKeepsStep(p: Params, pair: Pair, hs: seq<Header>)
    requires ParamsOk(p) && Shaped(p) && InStep(pair) && QueueWritable(pair) && AllEncodable(hs)
    ensures Received(p, pair, hs).Ok? <==> WithinLimits(pair, hs)
    ensures WithinLimits(pair, hs) ==> Received(p, pair, hs).value.headers == hs && InStep(Exchange(p, pair, Block(hs)))
  {
    hide ParamsOk, Shaped, EncodeHeaders, DecodeBlock, TableOk, LastTable, EncodeBlock;
    var lim, d, queued := LimitsNow(pair.dec), pair.enc.table, pair.enc.queued;
    if !UpdateOk(queued, lim) {
      UpdateRefused(p, d, queued.value, hs, lim, 0);
    } else if ListSize(hs) > lim.maxList {
      BlockRefused(p, d, queued, hs, lim, 0);
    } else {
      BlockReadBack(p, d, queued, hs, lim, 0);
      BlockSecrets(p, d, queued, hs);
      LastOfBlock(p, d, lim, EncodeBlock(p, d, queued, hs).bytes);
    }
  }

  lemma LastOfBlock(p: Params, d: Dyn, lim: Limits, buf: Bytes)
    requires Shaped(p) && DecodeBlock(p, d, lim, buf, 0).Ok?
    ensures LastTable(p, buf, lim, Ready(d, 0)) == DecodeBlock(p, d, lim, buf, 0).value.table
  {
    LastOfAccepted(p, buf, lim, Ready(d, 0));
  }

  lemma BlockSecrets(p: Params, d: Dyn, queued: Option<nat>, hs: seq<Header>)
    requires Shaped(p) && NoSecrets(d)
    ensures NoSecrets(EncodeBlock(p, d, queued, hs).table)
  {
    hide EncodeHeaders, Secret;
    if queued.Some? {
      EvictSecrets(d.entries, queued.value);
    }
    HeadersSecrets(p, Resized(d, queued), hs);
  }

  /**
   Step-lock: from equal tables, for every sequence of header lists and of size
   updates queued on either side, every block decodes to exactly the list
   encoded and the tables stay equal, with no never-indexed name in them, if and
   only if each block comes within the limits the decoder has at that moment.
   */
  lemma {:induction false} StepLock(p: Params, pair: Pair, events: seq<Event>)
    requires ParamsOk(p) && Shaped(p) && InStep(pair) && QueueWritable(pair)
    requires forall i :: 0 <= i < |events| ==> Writable(events[i])
    ensures AllReceived(p, pair, events) <==> AllWithin(p, pair, events)
    decreases |events|
  {
    hide ParamsOk, Shaped, EncodeBlock, DecodeBlock, TableOk, NoSecrets, LastTable, WithinLimits;
    if events != [] {
      assert Writable(events[0]);
      var next := Exchange(p, pair, events[0]);
      if events[0].Block? {
        BlockKeepsStep(p, pair, events[0].headers);
      }
      if events[0].Block? ==> WithinLimits(pair, events[0].headers) {
        forall i | 0 <= i < |events[1..]| ensures Writable(events[1..][i]) {
          assert Writable(events[i + 1]);
        }
        StepLock(p, next, events[1..]);
      }
    }
  }

  // Where the pair can fall out of step

  function QueueAll(queued: Option<nat>, sizes: seq<nat>): Option<nat>
    decreases |sizes|
  {
    if sizes == [] then queued else QueueAll(Queue(queued, sizes[0]), sizes[1..])
  }

  lemma {:induction false} QueueAllIsMax(start: nat, sizes: seq<nat>)
    ensures var q := QueueAll(Some(start), sizes);
            && q.Some? && q.value >= start
            && (forall i :: 0 <= i < |sizes| ==> sizes[i] <= q.value)
            && (q.value == start || q.value in sizes)
    decreases |sizes|
  {
    if sizes != [] {
      QueueAllIsMax(Max(start, sizes[0]), sizes[1..]);
      var q := QueueAll(Some(Max(start, sizes[0])), sizes[1..]);
      forall i | 0 <= i < |sizes| ensures sizes[i] <= q.value {
        if i > 0 { assert sizes[1..][i - 1] == sizes[i]; }
      }
      assert sizes == [sizes[0]] + sizes[1..];
    }
  }

  /** Of several updates queued for one block, the latest is the one emitted exactly when none before it is larger. */
  lemma LatestUpdateWins(first: nat, later: seq<nat>, last: nat)
    ensures QueueAll(Some(first), later + [last]) == Some(last)
            <==> first <= last && forall i :: 0 <= i < |later| ==> later[i] <= last
  {
    var sizes := later + [last];
    QueueAllIsMax(first, sizes);
    assert sizes[|later|] == last;
    assert forall i :: 0 <= i < |later| ==> sizes[i] == later[i];
  }
}
