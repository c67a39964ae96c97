/** The encoder and decoder objects: loops over headers and octets that update a table in place. */
module HpackObjects {
  import opened Basics
  import opened HpackTable
  import opened HpackTableObject
  import opened HpackString
  import opened Hpack
  import opened HpackStepLock
  import PrefixInt

  lemma Regrouped(a: Bytes, b: Bytes, c: Bytes)
    ensures a + (b + c) == (a + b) + c
  {
  }

  class Encoder {
    const params: Params
    const table: Table
    var queued: Option<nat>

    ghost predicate Valid()
      reads this, table
    {
      Shaped(params) && table.Valid() && table.base.table == params.base
    }

    constructor (params: Params, base: Static, maxTable: nat)
      requires Shaped(params) && StaticOk(base) && base.table == params.base
      ensures Valid() && table.Model() == Dyn([], maxTable) && queued == None && this.params == params && fresh(table)
    {
      this.params, queued := params, None;
      table := new Table(base, maxTable, true);
    }

    method QueueSizeUpdate(size: nat)
      requires Valid()
      modifies this`queued
      ensures Valid() && queued == Queue(old(queued), size)
    {
      queued := Some(if queued.Some? then Max(queued.value, size) else size);
    }

    method WriteString(out: Bytes, s: Bytes) returns (r: Bytes)
      requires Valid()
      ensures r == out + Text(params, s)
    {
      r := EncodeStringInto(params.coding.codes, params.huffman, out, s);
    }

    /** A literal with an indexed or a literal name. */
    method WriteLiteral(out: Bytes, h: Header, prefix: nat, header: Byte) returns (r: Bytes)
      requires Valid() && 1 <= prefix <= 8
      ensures r == out + Literal(params, table.Model(), h, prefix, header)
    {
      hide PrefixInt.Encode, Text;
      var ref := table.FindNamed(h.name);
      var index := if ref.Some? then ref.value else 0;
      r := PrefixInt.EncodeInto(out, index, prefix, header);
      ghost var head := r;
      if ref.None? {
        r := WriteString(r, h.name);
      }
      r := WriteString(r, h.value);
      assert r == head + (NameText(params, index, h.name) + Text(params, h.value));
    }

    method WriteHeader(out: Bytes, h: Header) returns (r: Bytes)
      requires Valid()
      modifies table
      ensures Valid()
      ensures var e := EncodeHeader(params, old(table.Model()), h); r == out + e.bytes && table.Model() == e.table
    {
      hide PrefixInt.Encode, Literal, Add;
      if Sensitive(h.name) {
        r := WriteLiteral(out, h, 4, 0x10);
        return;
      }
      var index := table.FindEntry(h);
      if index.Some? {
        r := PrefixInt.EncodeInto(out, index.value, 7, 0x80);
      } else {
        r := WriteLiteral(out, h, 6, 0x40);
        table.AddEntry(h);
      }
    }

    /** The loop over the header list. */
    method WriteHeaders(headers: seq<Header>, out: Bytes) returns (r: Bytes)
      requires Valid()
      modifies table
      ensures Valid()
      ensures var e := EncodeHeaders(params, old(table.Model()), headers); r == out + e.bytes && table.Model() == e.table
    {
      hide EncodeHeader, Shaped;
      r := out;
      ghost var whole := EncodeHeaders(params, table.Model(), headers);
      assert headers[0..] == headers;
      for i := 0 to |headers|
        invariant Valid()
        invariant var rest := EncodeHeaders(params, table.Model(), headers[i..]);
                  out + whole.bytes == r + rest.bytes && whole.table == rest.table
      {
        assert headers[i..][0] == headers[i] && headers[i..][1..] == headers[i + 1..];
        ghost var e := EncodeHeader(params, table.Model(), headers[i]);
        Regrouped(r, e.bytes, EncodeHeaders(params, e.table, headers[i + 1..]).bytes);
        r := WriteHeader(r, headers[i]);
      }
      assert headers[|headers|..] == [];
      assert r + [] == r;
    }

    /** `Encoder::encode`: one header block appended to `out`. */
    method Encode(headers: seq<Header>, out: Bytes) returns (r: Bytes)
      requires Valid()
      modifies this`queued, table
      ensures Valid() && queued == None
      ensures var e := EncodeBlock(params, old(table.Model()), old(queued), headers);
              r == out + e.bytes && table.Model() == e.table
    {
      hide PrefixInt.Encode, EncodeHeaders, SetMax, Shaped;
      r := out;
      ghost var update, rest := SizeUpdate(queued), EncodeHeaders(params, Resized(table.Model(), queued), headers);
      if queued.Some? {
        table.SetMaxSize(queued.value);
        r := PrefixInt.EncodeInto(r, queued.value, 5, 0x20);
      } else {
        assert out + [] == out;
      }
      queued := None;
      r := WriteHeaders(headers, r);
      Regrouped(out, update, rest.bytes);
    }
  }

  class Decoder {
    const params: Params
    const table: Table
    var limits: Limits
    var queued: Option<nat>

    ghost predicate Valid()
      reads this, table
    {
      Shaped(params) && table.Valid() && table.base.table == params.base
    }

    constructor (params: Params, base: Static, limits: Limits)
      requires Shaped(params) && StaticOk(base) && base.table == params.base
      ensures Valid() && table.Model() == Dyn([], limits.maxTable) && queued == None
      ensures this.params == params && this.limits == limits && fresh(table)
    {
      this.params, this.limits, queued := params, limits, None;
      table := new Table(base, limits.maxTable, false);
    }

    method QueueSizeUpdate(size: nat)
      requires Valid()
      modifies this`queued
      ensures Valid() && queued == Queue(old(queued), size)
    {
      queued := Some(if queued.Some? then Max(queued.value, size) else size);
    }

    ghost function Here(off: nat, headers: seq<Header>, canResize: bool, listSize: nat): Progress
      reads table
    {
      Progress(off, headers, canResize, listSize, table.Model())
    }

    /** One representation at `off`. */
    method ReadOne(buf: Bytes, off: nat, headers: seq<Header>, canResize: bool, listSize: nat)
      returns (r: Result<Progress, HpackError>)
      requires Valid() && off < |buf|
      modifies table
      ensures Valid()
      ensures r == DecodeOne(params, buf, limits, old(Here(off, headers, canResize, listSize)))
      ensures table.Model() == if r.Ok? then r.value.table else old(table.Model())
    {
      hide PrefixInt.Decode, DecodeString, Get, Add, SetMax, DecodeIndexed, DecodeLiteral, DecodeResize;
      var rep := Load(buf[off]);
      if rep.Err? {
        return Err(rep.error);
      }
      match rep.value
      case Indexed => r := ReadIndexed(buf, off, headers, canResize, listSize);
      case WithIndexing => r := ReadLiteral(buf, off, headers, canResize, listSize, 6, true);
      case WithoutIndexing => r := ReadLiteral(buf, off, headers, canResize, listSize, 4, false);
      case NeverIndexed => r := ReadLiteral(buf, off, headers, canResize, listSize, 4, false);
      case Resize => r := ReadResize(buf, off, headers, canResize, listSize);
    }

    method ReadIndexed(buf: Bytes, off: nat, headers: seq<Header>, canResize: bool, listSize: nat)
      returns (r: Result<Progress, HpackError>)
      requires Valid() && off < |buf|
      ensures r == DecodeIndexed(params, buf, limits, Here(off, headers, canResize, listSize))
      ensures r.Ok? ==> r.value.table == table.Model()
    {
      hide PrefixInt.Decode, Get;
      var index := PrefixInt.DecodeLoop(buf, off + 1, 7, buf[off]);
      if index.Err? {
        return Err(HpackError.InvalidInteger);
      }
      var entry := table.GetEntry(index.value.value);
      if entry.None? {
        return Err(InvalidIndex);
      }
      var total := listSize + |entry.value.name| + |entry.value.value|;
      if total > limits.maxList {
        return Err(HeaderListTooLarge);
      }
      return Ok(Progress(index.value.off, headers + [entry.value], false, total, Dyn(table.entries, table.maxSize)));
    }

    method ReadLiteral(buf: Bytes, off: nat, headers: seq<Header>, canResize: bool, listSize: nat, prefix: nat, keep: bool)
      returns (r: Result<Progress, HpackError>)
      requires Valid() && off < |buf| && 1 <= prefix <= 8
      modifies table
      ensures Valid()
      ensures r == DecodeLiteral(params, buf, limits, old(Here(off, headers, canResize, listSize)), prefix, keep)
      ensures table.Model() == if r.Ok? then r.value.table else old(table.Model())
    {
      hide PrefixInt.Decode, DecodeString, Get, Add;
      var index := PrefixInt.DecodeLoop(buf, off + 1, prefix, buf[off]);
      if index.Err? {
        return Err(HpackError.InvalidInteger);
      }
      var name: Bytes, next := [], index.value.off;
      if index.value.value == 0 {
        var text := DecodeStringAt(params.coding.table, buf, next, limits.maxList);
        if text.Err? {
          return Err(text.error);
        }
        name, next := text.value.value, text.value.off;
      } else {
        var entry := table.GetEntry(index.value.value);
        if entry.None? {
          return Err(InvalidIndex);
        }
        name := entry.value.name;
      }
      var value := DecodeStringAt(params.coding.table, buf, next, limits.maxList);
      if value.Err? {
        return Err(value.error);
      }
      var total := listSize + |name| + |value.value.value|;
      if total > limits.maxList {
        return Err(HeaderListTooLarge);
      }
      var h := Header(name, value.value.value);
      if keep {
        table.AddEntry(h);
      }
      return Ok(Progress(value.value.off, headers + [h], false, total, Dyn(table.entries, table.maxSize)));
    }

    method ReadResize(buf: Bytes, off: nat, headers: seq<Header>, canResize: bool, listSize: nat)
      returns (r: Result<Progress, HpackError>)
      requires Valid() && off < |buf|
      modifies table
      ensures Valid()
      ensures r == DecodeResize(buf, limits, old(Here(off, headers, canResize, listSize)))
      ensures table.Model() == if r.Ok? then r.value.table else old(table.Model())
    {
      hide PrefixInt.Decode, SetMax;
      if !canResize {
        return Err(InvalidMaxSize);
      }
      var size := PrefixInt.DecodeLoop(buf, off + 1, 5, buf[off]);
      if size.Err? {
        return Err(HpackError.InvalidInteger);
      }
      if size.value.value > limits.maxTable {
        return Err(InvalidMaxSize);
      }
      table.SetMaxSize(size.value.value);
      return Ok(Progress(size.value.off, headers, canResize, listSize, Dyn(table.entries, table.maxSize)));
    }

    /** `Decoder::decode`: a whole block; the table keeps what was processed before an error. */
    method Decode(buf: Bytes, listSize: nat) returns (r: Result<Progress, HpackError>)
      requires Valid()
      modifies this, table
      ensures Valid() && queued == None && limits == LimitsNow(old(DecoderState(table.Model(), limits, queued)))
      ensures r == DecodeBlock(params, old(table.Model()), limits, buf, listSize)
      ensures table.Model() == LastTable(params, buf, limits, Progress(0, [], true, listSize, old(table.Model())))
    {
      hide DecodeOne, Shaped;
      if queued.Some? {
        limits := limits.(maxTable := queued.value);
        queued := None;
      }
      var st := Progress(0, [], true, listSize, Dyn(table.entries, table.maxSize));
      ghost var start := st;
      while st.off < |buf|
        invariant Valid() && queued == None && limits == LimitsNow(old(DecoderState(table.Model(), limits, queued)))
        invariant st.table == table.Model()
        invariant DecodeFrom(params, buf, limits, st) == DecodeFrom(params, buf, limits, start)
        invariant LastTable(params, buf, limits, st) == LastTable(params, buf, limits, start)
        decreases |buf| - st.off
      {
        var next := ReadOne(buf, st.off, st.headers, st.canResize, st.listSize);
        if next.Err? {
          return Err(next.error);
        }
        st := next.value;
      }
      return Ok(st);
    }
  }
}
