/**
 Decoding the HPACK Huffman code: the byte-indexed automaton against the
 nibble-indexed one it is built from, and both against walking the code tree
 bit by bit.
 */
module HuffmanDecode {
  import opened Basics
  import opened Bits
  import opened Huffman

  /** A row of the nibble automaton; flags 4 fail, 2 symbol, 1 accepted. */
  datatype Row = Row(next: Byte, flags: Byte, sym: Byte)

  /** A row of the byte automaton; flags 4 fail, 2 high symbol, 1 low symbol, 8 accepted. */
  datatype Row8 = Row8(next: Byte, flags: Byte, high: Byte, low: Byte)

  predicate Flag(flags: Byte, bit: nat)
    requires bit in {1, 2, 4, 8}
  {
    var f: nat := flags;
    if bit == 1 then f % 2 == 1 else if bit == 2 then f / 2 % 2 == 1 else if bit == 4 then f / 4 % 2 == 1 else f / 8 % 2 == 1
  }

  predicate IsDfa(dfa: seq<Row>) {
    |dfa| == 4096
  }

  function RowAt(dfa: seq<Row>, state: nat, nibble: nat): Row
    requires IsDfa(dfa) && state < 256 && nibble < 16
  {
    dfa[state * 16 + nibble]
  }

  // Building the byte automaton

  function FlagByte(fail: bool, high: bool, low: bool, accepted: bool): (r: Byte)
    ensures Flag(r, 4) == fail && Flag(r, 2) == high && Flag(r, 1) == low && Flag(r, 8) == accepted
  {
    (if fail then 4 else 0) + (if high then 2 else 0) + (if low then 1 else 0) + (if accepted then 8 else 0)
  }

  /** The row for a state and a byte: two nibble lookups collapsed into one. */
  function Entry(dfa: seq<Row>, state: nat, byte: nat): Row8
    requires IsDfa(dfa) && state < 256 && byte < 256
  {
    var high := RowAt(dfa, state, byte / 16);
    var low := RowAt(dfa, high.next, byte % 16);
    Row8(low.next,
         FlagByte(Flag(high.flags, 4) || Flag(low.flags, 4), Flag(high.flags, 2), Flag(low.flags, 2), Flag(low.flags, 1)),
         high.sym, low.sym)
  }

  predicate IsTable8(table: seq<Row8>, dfa: seq<Row>)
    requires IsDfa(dfa)
  {
    |table| == 65536 && forall i :: 0 <= i < 65536 ==> table[i] == Entry(dfa, i / 256, i % 256)
  }

  /** `build_huff_dfa8`: fills the table row by row. */
  method Build(dfa: seq<Row>) returns (out: array<Row8>)
    requires IsDfa(dfa)
    ensures fresh(out) && IsTable8(out[..], dfa)
  {
    hide Flag;
    out := new Row8[65536](_ => Row8(0, 0, 0, 0));
    var i := 0;
    while i < out.Length
      invariant 0 <= i <= 65536
      invariant forall k :: 0 <= k < i ==> out[k] == Entry(dfa, k / 256, k % 256)
    {
      var state, byte := i / 256, i % 256;
      var high := dfa[state * 16 + byte / 16];
      var low := dfa[high.next as int * 16 + byte % 16];
      var flags := FlagByte(Flag(high.flags, 4) || Flag(low.flags, 4), Flag(high.flags, 2), Flag(low.flags, 2), Flag(low.flags, 1));
      out[i] := Row8(low.next, flags, high.sym, low.sym);
      i := i + 1;
    }
  }

  // Running the automata

  datatype Walk = Dead | Walk(state: nat, out: Bytes, accepted: bool)

  const FRESH := Walk(0, [], true)

  predicate InRange(w: Walk) {
    w.Walk? ==> w.state < 256
  }

  function Step4(dfa: seq<Row>, w: Walk, nibble: nat): (r: Walk)
    requires IsDfa(dfa) && InRange(w) && nibble < 16
    ensures InRange(r)
  {
    if w.Dead? then Dead
    else
      var row := RowAt(dfa, w.state, nibble);
      if Flag(row.flags, 4) then Dead
      else Walk(row.next, if Flag(row.flags, 2) then w.out + [row.sym] else w.out, Flag(row.flags, 1))
  }

  function Step8(table: seq<Row8>, w: Walk, byte: Byte): (r: Walk)
    requires |table| == 65536 && InRange(w)
    ensures InRange(r)
  {
    if w.Dead? then Dead
    else
      var row := table[w.state * 256 + byte];
      if Flag(row.flags, 4) then Dead
      else
        var out1 := if Flag(row.flags, 2) then w.out + [row.high] else w.out;
        Walk(row.next, if Flag(row.flags, 1) then out1 + [row.low] else out1, Flag(row.flags, 8))
  }

  function Run8(table: seq<Row8>, src: Bytes): (r: Walk)
    requires |table| == 65536
    ensures InRange(r)
  {
    if src == [] then FRESH else Step8(table, Run8(table, src[..|src| - 1]), src[|src| - 1])
  }

  /** Two nibble steps per byte. */
  function Run4(dfa: seq<Row>, src: Bytes): (r: Walk)
    requires IsDfa(dfa)
    ensures InRange(r)
  {
    if src == [] then FRESH
    else
      var b: nat := src[|src| - 1];
      Step4(dfa, Step4(dfa, Run4(dfa, src[..|src| - 1]), b / 16), b % 16)
  }

  /** One byte step is two nibble steps: same emissions, same failures, same acceptance. */
  lemma StepsAgree(dfa: seq<Row>, table: seq<Row8>, w: Walk, byte: Byte)
    requires IsDfa(dfa) && IsTable8(table, dfa) && InRange(w)
    ensures Step8(table, w, byte) == Step4(dfa, Step4(dfa, w, byte as int / 16), byte as int % 16)
  {
    hide Flag;
    if w.Walk? {
      var i := w.state * 256 + byte as int;
      assert i / 256 == w.state && i % 256 == byte as int;
      assert table[i] == Entry(dfa, w.state, byte);
    }
  }

  /** The byte automaton emits, rejects and accepts exactly as the nibble automaton does. */
  lemma {:induction false} RunsAgree(dfa: seq<Row>, table: seq<Row8>, src: Bytes)
    requires IsDfa(dfa) && IsTable8(table, dfa)
    ensures Run8(table, src) == Run4(dfa, src)
    decreases |src|
  {
    hide IsTable8, Step8, Step4;
    if src != [] {
      RunsAgree(dfa, table, src[..|src| - 1]);
      StepsAgree(dfa, table, Run4(dfa, src[..|src| - 1]), src[|src| - 1]);
    }
  }

  datatype HuffmanError = InvalidHuffman

  function Outcome(w: Walk): Result<Bytes, HuffmanError> {
    if w.Walk? && w.accepted then Ok(w.out) else Err(InvalidHuffman)
  }

  /** `decode`: one lookup per byte. */
  method DecodeLoop(table: seq<Row8>, src: Bytes) returns (r: Result<Bytes, HuffmanError>)
    requires |table| == 65536
    ensures r == Outcome(Run8(table, src))
  {
    hide Flag, Run8;
    var dst: Bytes, state: nat, accepted := [], 0, true;
    RunNothing(table);
    for i := 0 to |src|
      invariant state < 256
      invariant Run8(table, src[..i]) == Walk(state, dst, accepted)
    {
      RunSnoc(table, src, i);
      var row := table[state * 256 + src[i]];
      if Flag(row.flags, 4) {
        DeadStays(table, src, i + 1);
        return Err(InvalidHuffman);
      }
      if Flag(row.flags, 2) {
        dst := dst + [row.high];
      }
      if Flag(row.flags, 1) {
        dst := dst + [row.low];
      }
      accepted := Flag(row.flags, 8);
      state := row.next;
    }
    assert src[..|src|] == src;
    return if accepted then Ok(dst) else Err(InvalidHuffman);
  }

  lemma RunNothing(table: seq<Row8>)
    requires |table| == 65536
    ensures Run8(table, []) == FRESH
  {
  }

  lemma RunSnoc(table: seq<Row8>, src: Bytes, i: nat)
    requires |table| == 65536 && i < |src|
    ensures Run8(table, src[..i + 1]) == Step8(table, Run8(table, src[..i]), src[i])
  {
    assert src[..i + 1][..i] == src[..i];
  }

  lemma {:induction false} DeadStays(table: seq<Row8>, src: Bytes, i: nat)
    requires |table| == 65536 && i <= |src| && Run8(table, src[..i]).Dead?
    ensures Run8(table, src).Dead?
    decreases |src|
  {
    if i == |src| {
      assert src[..i] == src;
    } else {
      var p := src[..|src| - 1];
      assert p[..i] == src[..i];
      DeadStays(table, p, i);
    }
  }
}
