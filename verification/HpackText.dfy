/**
 Header blocks as section 6 of RFC 7541 writes them: size updates, indexed
 fields, and literals with incremental indexing, without indexing and never
 indexed, their strings raw or Huffman coded. The decoder is proved to read
 every such text as its meaning says, and to refuse it exactly when it has none.
 */
module HpackText {
  import opened Basics
  import opened HpackTable
  import opened HpackString
  import opened Hpack
  import opened HpackStepLock
  import PrefixInt
  import Huffman

  // The text

  datatype Str = Raw(octets: Bytes) | Coded(octets: Bytes)

  datatype Name = Known(index: nat) | Spelled(text: Str)

  datatype Keeping = Keep | Plain | Never

  datatype Item =
    | Update(size: nat)
    | Field(index: nat)
    | Lit(keeping: Keeping, name: Name, value: Str)

  function StrBody(p: Params, s: Str): Bytes
    requires Shaped(p)
  {
    match s
    case Raw(octets) => octets
    case Coded(octets) => HuffmanBytes(p.coding.codes, octets)
  }

  function StrText(p: Params, s: Str): Bytes
    requires Shaped(p)
  {
    PrefixInt.Encode(|StrBody(p, s)|, 7, if s.Coded? then 0x80 else 0) + StrBody(p, s)
  }

  /** The index in front of a literal and the name behind it. */
  function LitText(p: Params, prefix: nat, header: Byte, name: Name, value: Str): Bytes
    requires Shaped(p) && 1 <= prefix <= 8
  {
    match name
    case Known(i) => PrefixInt.Encode(i, prefix, header) + ([] + StrText(p, value))
    case Spelled(n) => PrefixInt.Encode(0, prefix, header) + (StrText(p, n) + StrText(p, value))
  }

  function ItemText(p: Params, it: Item): Bytes
    requires Shaped(p)
  {
    match it
    case Update(size) => PrefixInt.Encode(size, 5, 0x20)
    case Field(i) => PrefixInt.Encode(i, 7, 0x80)
    case Lit(Keep, name, value) => LitText(p, 6, 0x40, name, value)
    case Lit(Plain, name, value) => LitText(p, 4, 0x00, name, value)
    case Lit(Never, name, value) => LitText(p, 4, 0x10, name, value)
  }

  function BlockText(p: Params, items: seq<Item>): Bytes
    requires Shaped(p)
  {
    if items == [] then [] else ItemText(p, items[0]) + BlockText(p, items[1..])
  }

  /** Numbers have 64 bits, and an index in front of a literal is not 0. */
  predicate Writable(p: Params, it: Item)
    requires Shaped(p)
  {
    match it
    case Update(size) => size < PrefixInt.U64
    case Field(i) => i < PrefixInt.U64
    case Lit(_, name, value) =>
      && |StrBody(p, value)| < PrefixInt.U64
      && (match name case Known(i) => 0 < i < PrefixInt.U64 case Spelled(n) => |StrBody(p, n)| < PrefixInt.U64)
  }

  // Its meaning

  /** Static entries are numbered from 1, dynamic ones behind them, newest first. */
  function Lookup(base: seq<Header>, entries: seq<Header>, i: nat): Option<Header> {
    if 1 <= i <= |base| then Some(base[i - 1])
    else if |base| < i <= |base| + |entries| then Some(entries[i - |base| - 1])
    else None
  }

  /** A string is taken if neither its text nor its octets are longer than the list limit. */
  predicate StrTaken(p: Params, s: Str, max: nat)
    requires Shaped(p)
  {
    |StrBody(p, s)| <= max && |s.octets| <= max && |StrBody(p, s)| < PrefixInt.LIMIT
  }

  function NameOf(p: Params, d: Dyn, name: Name, max: nat): Option<Bytes>
    requires Shaped(p)
  {
    match name
    case Known(i) => (match Lookup(p.base, d.entries, i) case Some(h) => Some(h.name) case None => None)
    case Spelled(n) => if StrTaken(p, n, max) then Some(n.octets) else None
  }

  /** The header a field or literal stands for. */
  function Means(p: Params, d: Dyn, it: Item, max: nat): Option<Header>
    requires Shaped(p) && !it.Update?
  {
    match it
    case Field(i) => Lookup(p.base, d.entries, i)
    case Lit(_, name, value) =>
      match NameOf(p, d, name, max)
      case None => None
      case Some(n) => if StrTaken(p, value, max) then Some(Header(n, value.octets)) else None
  }

  /** Only a literal with incremental indexing enters the table. */
  function Indexes(d: Dyn, it: Item, h: Header): Dyn {
    if it.Lit? && it.keeping == Keep then Add(d, h) else d
  }

  datatype Reading = Reading(ok: bool, headers: seq<Header>, table: Dyn)

  /** The headers of a block up to its end or its first fault, and the table left. */
  function Read(p: Params, d: Dyn, lim: Limits, used: nat, front: bool, items: seq<Item>): Reading
    requires Shaped(p)
    decreases |items|
  {
    if items == [] then Reading(true, [], d)
    else
      var it := items[0];
      if it.Update? then
        if front && it.size <= lim.maxTable && it.size < PrefixInt.LIMIT then
          Read(p, SetMax(d, it.size), lim, used, true, items[1..])
        else Reading(false, [], d)
      else
        match Means(p, d, it, lim.maxList)
        case None => Reading(false, [], d)
        case Some(h) =>
          if used + (|h.name| + |h.value|) > lim.maxList then Reading(false, [], d)
          else
            var rest := Read(p, Indexes(d, it, h), lim, used + (|h.name| + |h.value|), false, items[1..]);
            Reading(rest.ok, [h] + rest.headers, rest.table)
  }

  // Reading the parts

  lemma LookupIsGet(base: seq<Header>, entries: seq<Header>, i: nat)
    ensures Get(base, entries, i) == Lookup(base, entries, i)
  {
  }

  function StrResult(p: Params, s: Str, end: nat, max: nat): Result<StringAt, HpackError>
    requires Shaped(p)
  {
    if StrTaken(p, s, max) then Ok(StringAt(s.octets, end))
    else if |StrBody(p, s)| < PrefixInt.LIMIT then Err(InvalidString) else Err(InvalidInteger)
  }

  lemma StrRead(p: Params, buf: Bytes, at: nat, s: Str, max: nat)
    requires ParamsOk(p) && Shaped(p) && |StrBody(p, s)| < PrefixInt.U64 && At(buf, at, StrText(p, s))
    ensures DecodeString(p.coding.table, buf, at, max) == StrResult(p, s, at + |StrText(p, s)|, max)
  {
    hide CodingOk, Huffman.CodeTable, HuffmanBytes, PrefixInt.Encode, PrefixInt.Decode, Huffman.IsPadded, HuffmanDecode.Run8;
    var body := StrBody(p, s);
    var len := PrefixInt.Encode(|body|, 7, if s.Coded? then 0x80 else 0);
    EncodeNotEmpty(|body|, 7, if s.Coded? then 0x80 else 0);
    AtSplit(buf, at, len, body);
    PrefixInt.RoundTrip(buf, at, |body|, 7, if s.Coded? then 0x80 else 0);
    FlagOf(|body|);
    assert buf[at] == len[0];
    if s.Coded? {
      HuffmanRoundTrip(p.coding, s.octets);
    }
  }

  lemma LookupRange(p: Params, d: Dyn, i: nat)
    requires |p.base| <= 61 && TableOk(d) && Lookup(p.base, d.entries, i).Some?
    ensures i < PrefixInt.LIMIT
  {
    IndexRange(p, d);
  }

  lemma FieldRead(p: Params, buf: Bytes, lim: Limits, st: Progress, i: nat)
    requires |p.base| <= 61 && TableOk(st.table) && i < PrefixInt.U64
    requires At(buf, st.off, PrefixInt.Encode(i, 7, 0x80)) && st.off < |buf|
    ensures var h, end := Lookup(p.base, st.table.entries, i), st.off + |PrefixInt.Encode(i, 7, 0x80)|;
            if h.Some? then DecodeIndexed(p, buf, lim, st) == Push(st, lim, end, h.value, st.table)
            else DecodeIndexed(p, buf, lim, st).Err?
  {
    hide PrefixInt.Encode, PrefixInt.Decode, Get, TableOk;
    LookupIsGet(p.base, st.table.entries, i);
    PrefixInt.RoundTrip(buf, st.off, i, 7, 0x80);
    if Lookup(p.base, st.table.entries, i).Some? {
      LookupRange(p, st.table, i);
    }
  }

  /** The name part of a literal. */
  lemma NamePart(p: Params, d: Dyn, buf: Bytes, off: nat, name: Name, max: nat)
    requires ParamsOk(p) && Shaped(p) && name.Spelled? && |StrBody(p, name.text)| < PrefixInt.U64
    requires At(buf, off, StrText(p, name.text))
    ensures var n, r := NameOf(p, d, name, max), DecodeName(p, d, buf, 0, off, max);
            if n.Some? then r == Ok(StringAt(n.value, off + |StrText(p, name.text)|)) else r.Err?
  {
    hide ParamsOk, Shaped, DecodeString, StrText, StrBody, StrTaken;
    StrRead(p, buf, off, name.text, max);
  }

  /** Where the parts of a literal stand. */
  lemma LitParts(p: Params, buf: Bytes, at: nat, prefix: nat, header: Byte, name: Name, value: Str)
    requires Shaped(p) && 1 <= prefix <= 8 && At(buf, at, LitText(p, prefix, header, name, value))
    ensures var index := PrefixInt.Encode(RefOf(name), prefix, header);
            && At(buf, at, index) && At(buf, at + |index|, SpelledText(p, name))
            && At(buf, at + |index| + |SpelledText(p, name)|, StrText(p, value))
            && |LitText(p, prefix, header, name, value)| == |index| + |SpelledText(p, name)| + |StrText(p, value)|
  {
    hide Shaped, PrefixInt.Encode, StrText;
    var index, spelled := PrefixInt.Encode(RefOf(name), prefix, header), SpelledText(p, name);
    AtSplit(buf, at, index, spelled + StrText(p, value));
    AtSplit(buf, at + |index|, spelled, StrText(p, value));
  }

  function RefOf(name: Name): nat {
    if name.Known? then name.index else 0
  }

  function SpelledText(p: Params, name: Name): Bytes
    requires Shaped(p)
  {
    if name.Known? then [] else StrText(p, name.text)
  }

  /** The index and name of a literal. */
  lemma LitName(p: Params, d: Dyn, buf: Bytes, at: nat, prefix: nat, header: Byte, name: Name, max: nat)
    requires ParamsOk(p) && Shaped(p) && TableOk(d) && 1 <= prefix <= 8 && at < |buf|
    requires match name case Known(i) => 0 < i < PrefixInt.U64 case Spelled(n) => |StrBody(p, n)| < PrefixInt.U64
    requires var index := PrefixInt.Encode(RefOf(name), prefix, header);
             At(buf, at, index) && At(buf, at + |index|, SpelledText(p, name))
    ensures var off := at + |PrefixInt.Encode(RefOf(name), prefix, header)|;
            var n, ref := NameOf(p, d, name, max), PrefixInt.Decode(buf, at + 1, prefix, buf[at]);
            if n.Some? then
              ref.Ok? && DecodeName(p, d, buf, ref.value.value, ref.value.off, max) == Ok(StringAt(n.value, off + |SpelledText(p, name)|))
            else ref.Err? || DecodeName(p, d, buf, ref.value.value, ref.value.off, max).Err?
  {
    hide CodingOk, Shaped, PrefixInt.Encode, PrefixInt.Decode, DecodeString, StrText, StrBody, StrTaken, Lookup, Get, TableOk;
    var ref := RefOf(name);
    PrefixInt.RoundTrip(buf, at, ref, prefix, header);
    if name.Known? {
      LookupIsGet(p.base, d.entries, ref);
      if Lookup(p.base, d.entries, ref).Some? {
        LookupRange(p, d, ref);
      }
    } else {
      NamePart(p, d, buf, at + |PrefixInt.Encode(ref, prefix, header)|, name, max);
    }
  }

  /** A literal reads as its header, kept or not, or is refused when it has none. */
  lemma LitRead(p: Params, buf: Bytes, lim: Limits, st: Progress, prefix: nat, header: Byte, lit: Item, keep: bool)
    requires ParamsOk(p) && Shaped(p) && TableOk(st.table) && 1 <= prefix <= 8 && lit.Lit? && Writable(p, lit)
    requires At(buf, st.off, LitText(p, prefix, header, lit.name, lit.value)) && st.off < |buf|
    ensures var h, end := Means(p, st.table, lit, lim.maxList), st.off + |LitText(p, prefix, header, lit.name, lit.value)|;
            var r := DecodeLiteral(p, buf, lim, st, prefix, keep);
            if h.Some? then r == Push(st, lim, end, h.value, if keep then Add(st.table, h.value) else st.table) else r.Err?
  {
    hide ParamsOk, Shaped, PrefixInt.Encode, PrefixInt.Decode, DecodeString, DecodeName, StrText, StrBody, StrTaken, NameOf, Add, Push,
         TableOk, At, LitText, SpelledText, StrResult;
    var name, value := lit.name, lit.value;
    LitParts(p, buf, st.off, prefix, header, name, value);
    LitName(p, st.table, buf, st.off, prefix, header, name, lim.maxList);
    var off := st.off + |PrefixInt.Encode(RefOf(name), prefix, header)| + |SpelledText(p, name)|;
    StrRead(p, buf, off, value, lim.maxList);
    ValueTaken(p, value, off + |StrText(p, value)|, lim.maxList);
  }

  lemma ValueTaken(p: Params, s: Str, end: nat, max: nat)
    requires Shaped(p)
    ensures if StrTaken(p, s, max) then StrResult(p, s, end, max) == Ok(StringAt(s.octets, end)) else StrResult(p, s, end, max).Err?
  {
  }

  /** First octets of the representations. */
  lemma Representations(value: nat)
    ensures Load(PrefixInt.Encode(value, 7, 0x80)[0]) == Ok(Indexed)
    ensures Load(PrefixInt.Encode(value, 6, 0x40)[0]) == Ok(WithIndexing)
    ensures Load(PrefixInt.Encode(value, 4, 0x00)[0]) == Ok(WithoutIndexing)
    ensures Load(PrefixInt.Encode(value, 4, 0x10)[0]) == Ok(NeverIndexed)
    ensures Load(PrefixInt.Encode(value, 5, 0x20)[0]) == Ok(Resize)
  {
    hide PrefixInt.Encode;
    RepOf(value);
    PrefixInt.HeaderKept(value, 4, 0x00);
  }

  lemma UpdateItem(buf: Bytes, lim: Limits, st: Progress, size: nat)
    requires size < PrefixInt.U64 && st.off < |buf| && At(buf, st.off, PrefixInt.Encode(size, 5, 0x20))
    ensures var r, end := DecodeResize(buf, lim, st), st.off + |PrefixInt.Encode(size, 5, 0x20)|;
            if st.canResize && size <= lim.maxTable && size < PrefixInt.LIMIT
            then r == Ok(st.(off := end, table := SetMax(st.table, size))) else r.Err?
  {
    hide PrefixInt.Encode, PrefixInt.Decode, SetMax;
    PrefixInt.RoundTrip(buf, st.off, size, 5, 0x20);
  }

  lemma TextNotEmpty(p: Params, it: Item)
    requires Shaped(p)
    ensures ItemText(p, it) != []
  {
    hide Shaped, PrefixInt.Encode, StrText;
    match it
    case Update(size) => EncodeNotEmpty(size, 5, 0x20);
    case Field(i) => EncodeNotEmpty(i, 7, 0x80);
    case Lit(k, name, _) =>
      var ref := RefOf(name);
      EncodeNotEmpty(ref, 6, 0x40);
      EncodeNotEmpty(ref, 4, 0x00);
      EncodeNotEmpty(ref, 4, 0x10);
  }

  /** The prefix and first bits of a literal. */
  function LitPrefix(k: Keeping): (r: nat)
    ensures 1 <= r <= 8
  {
    if k.Keep? then 6 else 4
  }

  function LitHeader(k: Keeping): Byte {
    match k case Keep => 0x40 case Plain => 0x00 case Never => 0x10
  }

  lemma LitIsLit(p: Params, it: Item)
    requires Shaped(p) && it.Lit?
    ensures ItemText(p, it) == LitText(p, LitPrefix(it.keeping), LitHeader(it.keeping), it.name, it.value)
    ensures Load(ItemText(p, it)[0])
            == Ok(match it.keeping case Keep => WithIndexing case Plain => WithoutIndexing case Never => NeverIndexed)
  {
    hide Shaped, PrefixInt.Encode, StrText, Load;
    var ref := RefOf(it.name);
    Representations(ref);
    EncodeNotEmpty(ref, LitPrefix(it.keeping), LitHeader(it.keeping));
    assert ItemText(p, it)[0] == PrefixInt.Encode(ref, LitPrefix(it.keeping), LitHeader(it.keeping))[0];
  }

  /** Decoding one field or literal. */
  lemma ItemRead(p: Params, buf: Bytes, lim: Limits, st: Progress, it: Item)
    requires ParamsOk(p) && Shaped(p) && TableOk(st.table) && !it.Update? && Writable(p, it)
    requires st.off < |buf| && At(buf, st.off, ItemText(p, it))
    ensures var h, end := Means(p, st.table, it, lim.maxList), st.off + |ItemText(p, it)|;
            var r := DecodeOne(p, buf, lim, st);
            if h.Some? then r == Push(st, lim, end, h.value, Indexes(st.table, it, h.value)) else r.Err?
  {
    hide CodingOk, Shaped, PrefixInt.Encode, DecodeLiteral, DecodeIndexed, DecodeResize, LitText, Load, Push, Means, TableOk, Writable, Add;
    TextNotEmpty(p, it);
    assert buf[st.off] == ItemText(p, it)[0];
    if it.Field? {
      Representations(it.index);
      FieldMeans(p, st.table, it, lim.maxList);
      FieldRead(p, buf, lim, st, it.index);
    } else {
      LitIsLit(p, it);
      LitRead(p, buf, lim, st, LitPrefix(it.keeping), LitHeader(it.keeping), it, it.keeping.Keep?);
    }
  }

  lemma FieldMeans(p: Params, d: Dyn, it: Item, max: nat)
    requires Shaped(p) && it.Field?
    ensures Means(p, d, it, max) == Lookup(p.base, d.entries, it.index) && (Writable(p, it) ==> it.index < PrefixInt.U64)
  {
  }

  // Reading a block

  predicate AllWritable(p: Params, items: seq<Item>)
    requires Shaped(p)
  {
    forall i :: 0 <= i < |items| ==> Writable(p, items[i])
  }

  lemma IndexesKeeps(d: Dyn, it: Item, h: Header)
    requires TableOk(d)
    ensures TableOk(Indexes(d, it, h))
  {
  }

  /** What decoding from `st` must give. */
  ghost predicate Follows(p: Params, buf: Bytes, lim: Limits, st: Progress, r: Reading)
    requires Shaped(p)
  {
    && LastTable(p, buf, lim, st) == r.table
    && var d := DecodeFrom(p, buf, lim, st);
       if r.ok then d.Ok? && d.value.headers == st.headers + r.headers && d.value.table == r.table else d.Err?
  }

  lemma FollowsFault(p: Params, buf: Bytes, lim: Limits, st: Progress)
    requires Shaped(p) && st.off < |buf| && DecodeOne(p, buf, lim, st).Err?
    ensures Follows(p, buf, lim, st, Reading(false, [], st.table))
  {
    hide DecodeOne, Shaped;
  }

  lemma FollowsNext(p: Params, buf: Bytes, lim: Limits, st: Progress, next: Progress, more: seq<Header>, r: Reading)
    requires Shaped(p) && st.off < |buf| && DecodeOne(p, buf, lim, st) == Ok(next) && next.headers == st.headers + more
    requires Follows(p, buf, lim, next, r)
    ensures Follows(p, buf, lim, st, Reading(r.ok, more + r.headers, r.table))
  {
    hide DecodeOne, Shaped;
    assert (st.headers + more) + r.headers == st.headers + (more + r.headers);
  }

  /** Every text is read as its meaning says, from wherever the decoder stands. */
  lemma {:induction false} ItemsRead(p: Params, buf: Bytes, lim: Limits, st: Progress, items: seq<Item>)
    requires ParamsOk(p) && Shaped(p) && TableOk(st.table) && AllWritable(p, items)
    requires At(buf, st.off, BlockText(p, items)) && st.off + |BlockText(p, items)| == |buf|
    ensures Follows(p, buf, lim, st, Read(p, st.table, lim, st.listSize, st.canResize, items))
    decreases |items|
  {
    hide ParamsOk, Shaped, TableOk, Writable, ItemText, DecodeOne, Follows, Means, Indexes, SetMax;
    if items == [] {
      EndFollows(p, buf, lim, st);
    } else {
      var it, rest := items[0], items[1..];
      TextNotEmpty(p, it);
      AtSplit(buf, st.off, ItemText(p, it), BlockText(p, rest));
      if it.Update? {
        UpdateFollows(p, buf, lim, st, items);
      } else {
        ItemRead(p, buf, lim, st, it);
        match Means(p, st.table, it, lim.maxList)
        case None => FollowsFault(p, buf, lim, st);
        case Some(h) =>
          if !Room(st, lim, h) {
            FollowsFault(p, buf, lim, st);
          } else {
            var next := After(st, |ItemText(p, it)|, h, Indexes(st.table, it, h));
            IndexesKeeps(st.table, it, h);
            ItemsRead(p, buf, lim, next, rest);
            FollowsNext(p, buf, lim, st, next, [h], Read(p, next.table, lim, next.listSize, false, rest));
          }
      }
    }
  }

  lemma EndFollows(p: Params, buf: Bytes, lim: Limits, st: Progress)
    requires Shaped(p) && st.off >= |buf|
    ensures Follows(p, buf, lim, st, Reading(true, [], st.table))
  {
    assert st.headers + [] == st.headers;
  }

  lemma {:induction false} UpdateFollows(p: Params, buf: Bytes, lim: Limits, st: Progress, items: seq<Item>)
    requires ParamsOk(p) && Shaped(p) && TableOk(st.table) && AllWritable(p, items) && items != [] && items[0].Update?
    requires At(buf, st.off, BlockText(p, items)) && st.off + |BlockText(p, items)| == |buf| && st.off < |buf|
    ensures Follows(p, buf, lim, st, Read(p, st.table, lim, st.listSize, st.canResize, items))
    decreases |items|, 0
  {
    hide ParamsOk, Shaped, TableOk, Follows, SetMax, PrefixInt.Encode, DecodeResize, DecodeIndexed, DecodeLiteral, Load;
    var size, rest := items[0].size, items[1..];
    AtSplit(buf, st.off, ItemText(p, items[0]), BlockText(p, rest));
    Representations(size);
    EncodeNotEmpty(size, 5, 0x20);
    assert buf[st.off] == PrefixInt.Encode(size, 5, 0x20)[0];
    assert Writable(p, items[0]);
    UpdateItem(buf, lim, st, size);
    if st.canResize && size <= lim.maxTable && size < PrefixInt.LIMIT {
      var next := st.(off := st.off + |PrefixInt.Encode(size, 5, 0x20)|, table := SetMax(st.table, size));
      SetMaxOk(st.table, size);
      ItemsRead(p, buf, lim, next, rest);
      assert st.headers + [] == st.headers;
      var r := Read(p, next.table, lim, next.listSize, true, rest);
      assert [] + r.headers == r.headers;
      FollowsNext(p, buf, lim, st, next, [], r);
    } else {
      FollowsFault(p, buf, lim, st);
    }
  }

  /**
   Every block of section 6 of RFC 7541 is decoded to the headers it means and
   leaves the table it means, and it is refused, with the table as it was at the
   fault, exactly when it has a fault.
   */
  lemma TextReads(p: Params, d: Dyn, lim: Limits, listSize: nat, items: seq<Item>)
    requires ParamsOk(p) && Shaped(p) && TableOk(d) && AllWritable(p, items)
    ensures var r, buf := Read(p, d, lim, listSize, true, items), BlockText(p, items);
            var out := DecodeBlock(p, d, lim, buf, listSize);
            && (out.Ok? <==> r.ok) && LastTable(p, buf, lim, Ready(d, listSize)) == r.table
            && (r.ok ==> out.value.headers == r.headers && out.value.table == r.table)
  {
    hide ParamsOk, Shaped, TableOk, AllWritable, Read, BlockText, DecodeFrom, LastTable;
    var buf := BlockText(p, items);
    assert buf[0..|buf|] == buf;
    ItemsRead(p, buf, lim, Ready(d, listSize), items);
    var none: seq<Header> := [];
    assert none + Read(p, d, lim, listSize, true, items).headers == Read(p, d, lim, listSize, true, items).headers;
  }

  // What the meaning says

  /** A size update behind a field is a fault. */
  lemma {:induction false} LateUpdateFails(p: Params, d: Dyn, lim: Limits, used: nat, front: bool, items: seq<Item>, j: nat, k: nat)
    requires Shaped(p) && k < |items| && items[k].Update? && (!front || (j < k && !items[j].Update?))
    ensures !Read(p, d, lim, used, front, items).ok
    decreases |items|
  {
    hide Shaped, Means, Indexes, SetMax;
    if k > 0 {
      var it, rest := items[0], items[1..];
      if it.Update? {
        if front && it.size <= lim.maxTable && it.size < PrefixInt.LIMIT {
          LateUpdateFails(p, SetMax(d, it.size), lim, used, true, rest, j - 1, k - 1);
        }
      } else if Means(p, d, it, lim.maxList).Some? {
        var h := Means(p, d, it, lim.maxList).value;
        LateUpdateFails(p, Indexes(d, it, h), lim, used + (|h.name| + |h.value|), false, rest, 0, k - 1);
      }
    }
  }

  function AddAll(d: Dyn, hs: seq<Header>): Dyn
    decreases |hs|
  {
    if hs == [] then d else AddAll(Add(d, hs[0]), hs[1..])
  }

  function SetAll(d: Dyn, sizes: seq<nat>): Dyn
    decreases |sizes|
  {
    if sizes == [] then d else SetAll(SetMax(d, sizes[0]), sizes[1..])
  }

  /** The headers written as literals with incremental indexing. */
  function KeptOf(items: seq<Item>, hs: seq<Header>): seq<Header>
    requires |items| == |hs|
  {
    if items == [] then []
    else (if items[0].Lit? && items[0].keeping == Keep then [hs[0]] else []) + KeptOf(items[1..], hs[1..])
  }

  /** Behind the updates, the table is the headers with incremental indexing added in order, and no others. */
  lemma {:induction false} OnlyKeptAreAdded(p: Params, d: Dyn, lim: Limits, used: nat, front: bool, fields: seq<Item>)
    requires Shaped(p) && (forall i :: 0 <= i < |fields| ==> !fields[i].Update?) && Read(p, d, lim, used, front, fields).ok
    ensures var r := Read(p, d, lim, used, front, fields);
            |r.headers| == |fields| && r.table == AddAll(d, KeptOf(fields, r.headers))
    decreases |fields|
  {
    hide Shaped, Means, Add;
    if fields != [] {
      var it := fields[0];
      var h := Means(p, d, it, lim.maxList).value;
      OnlyKeptAreAdded(p, Indexes(d, it, h), lim, used + (|h.name| + |h.value|), false, fields[1..]);
      var r := Read(p, d, lim, used, front, fields);
      assert r.headers[1..] == Read(p, Indexes(d, it, h), lim, used + (|h.name| + |h.value|), false, fields[1..]).headers;
      var kept := KeptOf(fields[1..], r.headers[1..]);
      assert ([h] + kept)[1..] == kept && [] + kept == kept;
    }
  }

  /** Any number of size updates in front, each within the cap, set the size in turn. */
  lemma {:induction false} UpdatesInFront(p: Params, d: Dyn, lim: Limits, used: nat, sizes: seq<nat>, fields: seq<Item>)
    requires Shaped(p) && forall i :: 0 <= i < |sizes| ==> sizes[i] <= lim.maxTable && sizes[i] < PrefixInt.LIMIT
    ensures Read(p, d, lim, used, true, Updates(sizes) + fields) == Read(p, SetAll(d, sizes), lim, used, true, fields)
    decreases |sizes|
  {
    hide Shaped, Means, Indexes, SetMax;
    if sizes == [] {
      assert Updates(sizes) + fields == fields;
    } else {
      var items := Updates(sizes) + fields;
      assert items[1..] == Updates(sizes[1..]) + fields;
      UpdatesInFront(p, SetMax(d, sizes[0]), lim, used, sizes[1..], fields);
    }
  }

  function Updates(sizes: seq<nat>): seq<Item> {
    if sizes == [] then [] else [Update(sizes[0])] + Updates(sizes[1..])
  }

  /** An index of 0, or beyond both tables, is a fault wherever it stands. */
  lemma UnknownIndexFails(p: Params, d: Dyn, lim: Limits, used: nat, front: bool, it: Item, rest: seq<Item>)
    requires Shaped(p)
    requires || (it.Field? && (it.index == 0 || it.index > |p.base| + |d.entries|))
             || (it.Lit? && it.name.Known? && it.name.index > |p.base| + |d.entries|)
    ensures !Read(p, d, lim, used, front, [it] + rest).ok
  {
  }

  // The encoder

  function StrOf(p: Params, s: Bytes): Str
    requires Shaped(p)
  {
    if p.huffman && Shorter(p.coding.codes, s) then Coded(s) else Raw(s)
  }

  lemma EncodedString(p: Params, s: Bytes)
    requires Shaped(p)
    ensures Text(p, s) == StrText(p, StrOf(p, s)) && StrOf(p, s).octets == s
  {
  }

  /**
   Every header the encoder writes is an item of section 6: never indexed
   exactly when its name is authorization, proxy-authorization or cookie, an
   index only where the tables hold the header, and else a literal that is kept.
   */
  lemma EncodedItem(p: Params, d: Dyn, h: Header) returns (it: Item)
    requires Shaped(p)
    ensures EncodeHeader(p, d, h).bytes == ItemText(p, it) && !it.Update?
    ensures it.Lit? && it.keeping == Never <==> Secret(h.name)
    ensures it.Field? ==> Lookup(p.base, d.entries, it.index) == Some(h)
    ensures it.Lit? && it.keeping != Never ==> it.keeping == Keep && h !in p.base && h !in d.entries
    ensures it.Lit? ==> it.value.octets == h.value
    ensures it.Lit? && it.name.Spelled? ==> it.name.text.octets == h.name
    ensures it.Lit? && it.name.Known? ==>
              Lookup(p.base, d.entries, it.name.index).Some? && Lookup(p.base, d.entries, it.name.index).value.name == h.name
  {
    hide Shaped, Text, StrText, PrefixInt.Encode, Secret, Sensitive;
    SecretIsSensitive(h.name);
    var ref := NameRef(p, d, h.name);
    var name := if ref == 0 then Spelled(StrOf(p, h.name)) else Known(ref);
    var value := StrOf(p, h.value);
    EncodedString(p, h.name);
    EncodedString(p, h.value);
    LookupIsGet(p.base, d.entries, ref);
    it := Lit(if Sensitive(h.name) then Never else Keep, name, value);
    if !Sensitive(h.name) && Find(p.base, d.entries, h).Some? {
      it := Field(Find(p.base, d.entries, h).value);
      LookupIsGet(p.base, d.entries, it.index);
    }
  }

  /** The block 00 01 78 01 79 is the header x: y, and leaves the table alone. */
  lemma PlainLiteralIsNotKept(p: Params, d: Dyn, lim: Limits)
    requires ParamsOk(p) && Shaped(p) && TableOk(d) && lim.maxList >= 2
    ensures var buf := [0x00, 0x01, 0x78, 0x01, 0x79];
            var out := DecodeBlock(p, d, lim, buf, 0);
            out.Ok? && out.value.headers == [Header([0x78], [0x79])] && out.value.table == d
  {
    var it := Lit(Plain, Spelled(Raw([0x78])), Raw([0x79]));
    var items := [it];
    assert items[1..] == [];
    assert PrefixInt.Encode(0, 4, 0) == [0] && PrefixInt.Encode(1, 7, 0) == [1];
    assert BlockText(p, items) == ItemText(p, it) + BlockText(p, []) == [0x00, 0x01, 0x78, 0x01, 0x79];
    TextReads(p, d, lim, 0, items);
    assert Read(p, d, lim, 2, false, []) == Reading(true, [], d);
    hide DecodeBlock, LastTable, ParamsOk;
    assert Means(p, d, it, lim.maxList) == Some(Header([0x78], [0x79]));
  }
}
