/**
 Walking a prefix-free code bit by bit, and what that means for an automaton
 that simulates the walk: a byte string decodes to `s` exactly when it is the
 encoding of `s`.
 */
module HuffmanTree {
  import opened Basics
  import opened Bits
  import opened Huffman
  import opened HuffmanDecode

  /** No code is a prefix of another and the end-of-string code is thirty ones. */
  ghost predicate PrefixFree(codes: seq<Code>) {
    && CodeTable(codes)
    && CodeBits(codes, EOS) == Ones(30)
    && forall s, t :: 0 <= s < SYMBOLS && 0 <= t < SYMBOLS && CodeBits(codes, s) <= CodeBits(codes, t) ==> s == t
  }

  ghost predicate IsCode(codes: seq<Code>, s: nat, path: seq<bool>)
    requires CodeTable(codes)
  {
    s < SYMBOLS && CodeBits(codes, s) == path
  }

  ghost predicate IsPrefix(codes: seq<Code>, path: seq<bool>)
    requires CodeTable(codes)
  {
    exists s :: 0 <= s < SYMBOLS && path <= CodeBits(codes, s)
  }

  /** The symbols decoded so far and the bits since the last one. */
  datatype Cursor = Stuck | Cursor(path: seq<bool>, out: Bytes)

  ghost function StepBit(codes: seq<Code>, c: Cursor, bit: bool): Cursor
    requires CodeTable(codes)
  {
    if c.Stuck? then Stuck
    else
      var path := c.path + [bit];
      if exists s: nat :: IsCode(codes, s, path) then
        var s: nat :| IsCode(codes, s, path);
        if s == EOS then Stuck else Cursor([], c.out + [s])
      else if IsPrefix(codes, path) then Cursor(path, c.out)
      else Stuck
  }

  ghost function RunBits(codes: seq<Code>, c: Cursor, bits: seq<bool>): Cursor
    requires CodeTable(codes)
  {
    if bits == [] then c else StepBit(codes, RunBits(codes, c, bits[..|bits| - 1]), bits[|bits| - 1])
  }

  lemma {:induction false} RunConcat(codes: seq<Code>, c: Cursor, a: seq<bool>, b: seq<bool>)
    requires CodeTable(codes)
    ensures RunBits(codes, c, a + b) == RunBits(codes, RunBits(codes, c, a), b)
    decreases |b|
  {
    hide StepBit;
    if b == [] {
      assert a + b == a;
    } else {
      var ab := a + b;
      assert ab[..|ab| - 1] == a + b[..|b| - 1];
      RunConcat(codes, c, a, b[..|b| - 1]);
    }
  }

  // The walk decodes exactly the concatenated codes

  lemma ConcatSnoc(codes: seq<Code>, src: Bytes, s: Byte)
    requires CodeTable(codes)
    ensures Concat(codes, src + [s]) == Concat(codes, src) + CodeBits(codes, s)
  {
    assert (src + [s])[..|src|] == src;
  }

  /** Soundness: what has been read is the codes of the output followed by the open path. */
  lemma {:induction false} WalkSound(codes: seq<Code>, bits: seq<bool>)
    requires CodeTable(codes)
    ensures var c := RunBits(codes, Cursor([], []), bits); c.Cursor? ==> bits == Concat(codes, c.out) + c.path
    decreases |bits|
  {
    hide CodeTable;
    if bits != [] {
      var n := |bits| - 1;
      WalkSound(codes, bits[..n]);
      var c := RunBits(codes, Cursor([], []), bits[..n]);
      StepSound(codes, c, bits[n]);
      assert bits == bits[..n] + [bits[n]];
    }
  }

  lemma StepSound(codes: seq<Code>, c: Cursor, bit: bool)
    requires CodeTable(codes)
    ensures var d := StepBit(codes, c, bit);
            d.Cursor? ==> c.Cursor? && Concat(codes, d.out) + d.path == Concat(codes, c.out) + c.path + [bit]
  {
    var d := StepBit(codes, c, bit);
    if d.Cursor? {
      var path := c.path + [bit];
      if exists s: nat :: IsCode(codes, s, path) {
        ConcatSnoc(codes, c.out, d.out[|d.out| - 1]);
        assert d.out == c.out + [d.out[|d.out| - 1]];
        assert Concat(codes, d.out) == Concat(codes, c.out) + path;
      }
      assert Concat(codes, c.out) + (c.path + [bit]) == Concat(codes, c.out) + c.path + [bit];
    }
  }

  /** A proper prefix of a code is not itself a code. */
  lemma NoCodeInside(codes: seq<Code>, s: nat, j: nat, t: nat)
    requires PrefixFree(codes) && s < SYMBOLS && j < |CodeBits(codes, s)|
    ensures !IsCode(codes, t, CodeBits(codes, s)[..j])
  {
    hide CodeBits;
    assert CodeBits(codes, s)[..j] <= CodeBits(codes, s);
  }

  lemma GrowPath(codes: seq<Code>, path: seq<bool>, bit: bool, out: Bytes)
    requires CodeTable(codes) && IsPrefix(codes, path + [bit])
    requires forall t: nat :: !IsCode(codes, t, path + [bit])
    ensures StepBit(codes, Cursor(path, out), bit) == Cursor(path + [bit], out)
  {
  }

  /** Inside a code the walk only grows its path. */
  lemma {:induction false} WalkInside(codes: seq<Code>, out: Bytes, s: nat, j: nat)
    requires PrefixFree(codes) && s < SYMBOLS && j < |CodeBits(codes, s)|
    ensures RunBits(codes, Cursor([], out), CodeBits(codes, s)[..j]) == Cursor(CodeBits(codes, s)[..j], out)
    decreases j
  {
    hide CodeBits, StepBit, IsCode, CodeTable;
    var code := CodeBits(codes, s);
    if j > 0 {
      WalkInside(codes, out, s, j - 1);
      assert code[..j][..j - 1] == code[..j - 1];
      assert code[..j] == code[..j - 1] + [code[j - 1]];
      forall t: nat ensures !IsCode(codes, t, code[..j]) {
        NoCodeInside(codes, s, j, t);
      }
      GrowPath(codes, code[..j - 1], code[j - 1], out);
    }
  }

  /** A whole code emits its symbol. */
  lemma WalkCode(codes: seq<Code>, out: Bytes, s: Byte)
    requires PrefixFree(codes)
    ensures RunBits(codes, Cursor([], out), CodeBits(codes, s)) == Cursor([], out + [s])
  {
    var code := CodeBits(codes, s);
    var n := |code| - 1;
    WalkInside(codes, out, s, n);
    var path := code[..n] + [code[n]];
    assert path == code;
    assert IsCode(codes, s, path);
    forall t: nat | IsCode(codes, t, path) ensures t == s {
      assert CodeBits(codes, t) <= code;
    }
  }

  lemma {:induction false} WalkString(codes: seq<Code>, src: Bytes)
    requires PrefixFree(codes)
    ensures RunBits(codes, Cursor([], []), Concat(codes, src)) == Cursor([], src)
    decreases |src|
  {
    hide CodeBits, StepBit, PrefixFree;
    assert CodeTable(codes) by { PrefixFreeTable(codes); }
    if src != [] {
      var n := |src| - 1;
      WalkString(codes, src[..n]);
      RunConcat(codes, Cursor([], []), Concat(codes, src[..n]), CodeBits(codes, src[n]));
      WalkCode(codes, src[..n], src[n]);
      assert src == src[..n] + [src[n]];
    }
  }

  lemma PrefixFreeTable(codes: seq<Code>)
    requires PrefixFree(codes)
    ensures CodeTable(codes) && CodeBits(codes, EOS) == Ones(30)
  {
  }

  /** Completeness: codes followed by at most seven ones are walked to the end. */
  lemma WalkComplete(codes: seq<Code>, src: Bytes, pad: nat)
    requires PrefixFree(codes) && pad < 8
    ensures RunBits(codes, Cursor([], []), Concat(codes, src) + Ones(pad)) == Cursor(Ones(pad), src)
  {
    hide StepBit, PrefixFree, CodeBits;
    PrefixFreeTable(codes);
    WalkString(codes, src);
    RunConcat(codes, Cursor([], []), Concat(codes, src), Ones(pad));
    WalkInside(codes, src, EOS, pad);
    assert Ones(30)[..pad] == Ones(pad);
  }

  // An automaton that simulates the walk

  predicate AllOnes(path: seq<bool>) {
    forall i :: 0 <= i < |path| ==> path[i]
  }

  /** The automaton state and the walk describe the same point; acceptance is a padding of at most seven ones. */
  ghost predicate Agree(labels: seq<seq<bool>>, w: Walk, c: Cursor) {
    if c.Stuck? then w.Dead?
    else
      && w.Walk? && w.state < |labels|
      && labels[w.state] == c.path
      && w.out == c.out
      && (w.accepted <==> AllOnes(c.path) && |c.path| <= 7)
  }

  /** Each state stands for the bits since the last symbol, and each row does what four bits of the walk do. */
  ghost predicate Simulates(dfa: seq<Row>, codes: seq<Code>, labels: seq<seq<bool>>) {
    && IsDfa(dfa) && PrefixFree(codes) && |labels| == 256 && labels[0] == []
    && forall s, x :: 0 <= s < 256 && 0 <= x < 16 ==>
         Agree(labels, Step4(dfa, Walk(s, [], true), x), RunBits(codes, Cursor(labels[s], []), BitsOf(x, 4)))
  }

  function Prepend(out: Bytes, c: Cursor): Cursor {
    if c.Stuck? then Stuck else Cursor(c.path, out + c.out)
  }

  lemma {:induction false} RunPrepend(codes: seq<Code>, path: seq<bool>, out: Bytes, bits: seq<bool>)
    requires CodeTable(codes)
    ensures RunBits(codes, Cursor(path, out), bits) == Prepend(out, RunBits(codes, Cursor(path, []), bits))
    decreases |bits|
  {
    if bits == [] {
      assert out + [] == out;
    } else {
      var n := |bits| - 1;
      RunPrepend(codes, path, out, bits[..n]);
      StepPrepend(codes, out, RunBits(codes, Cursor(path, []), bits[..n]), bits[n]);
    }
  }

  lemma StepPrepend(codes: seq<Code>, out: Bytes, c: Cursor, bit: bool)
    requires CodeTable(codes)
    ensures StepBit(codes, Prepend(out, c), bit) == Prepend(out, StepBit(codes, c, bit))
  {
    if c.Cursor? {
      var path := c.path + [bit];
      if exists s: nat :: IsCode(codes, s, path) {
        var s: nat :| IsCode(codes, s, path);
        assert out + (c.out + [s]) == out + c.out + [s];
      }
    }
  }

  lemma StepAgrees(dfa: seq<Row>, codes: seq<Code>, labels: seq<seq<bool>>, w: Walk, c: Cursor, x: nat)
    requires Simulates(dfa, codes, labels) && InRange(w) && Agree(labels, w, c) && x < 16
    ensures Agree(labels, Step4(dfa, w, x), RunBits(codes, c, BitsOf(x, 4)))
  {
    hide PrefixFree, RunBits, BitsOf, Flag;
    assert CodeTable(codes) by { PrefixFreeTable(codes); }
    if w.Dead? {
      StuckStays(codes, BitsOf(x, 4));
    } else {
      RunPrepend(codes, c.path, c.out, BitsOf(x, 4));
      var w0 := Step4(dfa, Walk(w.state, [], true), x);
      assert Agree(labels, w0, RunBits(codes, Cursor(labels[w.state], []), BitsOf(x, 4)));
    }
  }

  lemma {:induction false} StuckStays(codes: seq<Code>, bits: seq<bool>)
    requires CodeTable(codes)
    ensures RunBits(codes, Stuck, bits) == Stuck
    decreases |bits|
  {
    if bits != [] {
      StuckStays(codes, bits[..|bits| - 1]);
    }
  }

  lemma NibbleBits(b: Byte)
    ensures BitsOf(b, 8) == BitsOf(b as int / 16, 4) + BitsOf(b as int % 16, 4)
  {
    hide BitsOf, Pow2;
    Pow2Values();
    var n: nat := b;
    BitsJoin(n / 16, 4, n % 16, 4);
  }

  /** Running the nibble automaton over bytes follows the walk over their bits. */
  lemma {:induction false} RunAgrees(dfa: seq<Row>, codes: seq<Code>, labels: seq<seq<bool>>, src: Bytes)
    requires Simulates(dfa, codes, labels)
    ensures CodeTable(codes) && Agree(labels, Run4(dfa, src), RunBits(codes, Cursor([], []), Unpack(src)))
    decreases |src|
  {
    hide PrefixFree, Step4, StepBit, BitsOf, Agree;
    assert CodeTable(codes) by { PrefixFreeTable(codes); }
    if src == [] {
      AgreeAtStart(labels);
    } else {
      var n := |src| - 1;
      RunAgrees(dfa, codes, labels, src[..n]);
      RunAgreesByte(dfa, codes, labels, src[..n], src[n]);
    }
  }

  lemma AgreeAtStart(labels: seq<seq<bool>>)
    requires |labels| == 256 && labels[0] == []
    ensures Agree(labels, FRESH, Cursor([], []))
  {
  }

  lemma RunAgreesByte(dfa: seq<Row>, codes: seq<Code>, labels: seq<seq<bool>>, src: Bytes, b: Byte)
    requires Simulates(dfa, codes, labels) && CodeTable(codes)
    requires Agree(labels, Run4(dfa, src), RunBits(codes, Cursor([], []), Unpack(src)))
    ensures var w := Step4(dfa, Step4(dfa, Run4(dfa, src), b as int / 16), b as int % 16);
            Agree(labels, w, RunBits(codes, Cursor([], []), Unpack(src) + BitsOf(b, 8)))
  {
    hide Simulates, CodeTable, Run4, RunBits, BitsOf, Agree, Step4;
    assert IsDfa(dfa) by { SimulatesDfa(dfa, codes, labels); }
    var n: nat := b;
    var w, c := Run4(dfa, src), RunBits(codes, Cursor([], []), Unpack(src));
    StepAgrees(dfa, codes, labels, w, c, n / 16);
    var c1 := RunBits(codes, c, BitsOf(n / 16, 4));
    StepAgrees(dfa, codes, labels, Step4(dfa, w, n / 16), c1, n % 16);
    NibbleBits(b);
    RunConcat(codes, Cursor([], []), Unpack(src), BitsOf(b, 8));
    RunConcat(codes, c, BitsOf(n / 16, 4), BitsOf(n % 16, 4));
  }

  lemma SimulatesDfa(dfa: seq<Row>, codes: seq<Code>, labels: seq<seq<bool>>)
    requires Simulates(dfa, codes, labels)
    ensures IsDfa(dfa) && PrefixFree(codes)
  {
  }

  // The round trip, both ways

  /** `bs` is the Huffman form of `s`. */
  ghost predicate Encodes(codes: seq<Code>, bs: Bytes, s: Bytes)
    requires CodeTable(codes)
  {
    IsPadded(bs, Concat(codes, s))
  }

  lemma OnesOnly(path: seq<bool>)
    requires AllOnes(path)
    ensures path == Ones(|path|)
  {
  }

  /**
   For a table that simulates a prefix-free code, decoding a byte string gives
   `s` if and only if the byte string is the encoding of `s`.
   */
  lemma DecodeExactly(dfa: seq<Row>, codes: seq<Code>, labels: seq<seq<bool>>, table: seq<Row8>, bs: Bytes, s: Bytes)
    requires Simulates(dfa, codes, labels) && IsTable8(table, dfa)
    ensures CodeTable(codes) && |table| == 65536 && (Outcome(Run8(table, bs)) == Ok(s) <==> Encodes(codes, bs, s))
  {
    hide Simulates, Entry, Run8, Run4, RunBits, PrefixFree, Unpack, Concat;
    SimulatesDfa(dfa, codes, labels);
    PrefixFreeTable(codes);
    RunsAgree(dfa, table, bs);
    RunAgrees(dfa, codes, labels, bs);
    var bits := Concat(codes, s);
    var c := RunBits(codes, Cursor([], []), Unpack(bs));
    if Outcome(Run8(table, bs)) == Ok(s) {
      WalkSound(codes, Unpack(bs));
      OnesOnly(c.path);
      PadForced(|bits|, |c.path|, |bs|);
    }
    if Encodes(codes, bs, s) {
      WalkComplete(codes, s, PadLen(|bits|));
    }
  }

  lemma PadForced(n: nat, pad: nat, octets: nat)
    requires n + pad == 8 * octets && pad < 8
    ensures pad == PadLen(n)
  {
  }
}
