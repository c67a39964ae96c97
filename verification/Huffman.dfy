/**
 The HPACK Huffman code (section 5.2 of RFC 7541): the 32-bit-drain packer of
 `src/hpack/huffman.rs`, the byte-indexed automaton that
 `src/hpack/huffman_table.rs` builds from a nibble-indexed one, and the decoder
 that runs it. The 257 codes and the nibble automaton are parameters.
 */
module Huffman {
  import opened Basics
  import opened Bits

  const SYMBOLS: nat := 257
  const EOS: nat := 256
  const U64: nat := 0x1_0000_0000_0000_0000

  datatype Code = Code(len: nat, bits: nat)

  /** A table of codes of one to thirty bits. */
  predicate CodeTable(codes: seq<Code>) {
    && |codes| == SYMBOLS
    && forall s :: 0 <= s < SYMBOLS ==> 1 <= codes[s].len <= 30 && codes[s].bits < Pow2(codes[s].len)
  }

  function CodeBits(codes: seq<Code>, s: nat): seq<bool>
    requires CodeTable(codes) && s < SYMBOLS
  {
    BitsOf(codes[s].bits, codes[s].len)
  }

  /** The codes of a string, one after the other. */
  function Concat(codes: seq<Code>, src: Bytes): (r: seq<bool>)
    requires CodeTable(codes)
  {
    if src == [] then [] else Concat(codes, src[..|src| - 1]) + CodeBits(codes, src[|src| - 1])
  }

  function EncodedLen(codes: seq<Code>, src: Bytes): (r: nat)
    requires CodeTable(codes)
    ensures r == |Concat(codes, src)|
  {
    if src == [] then 0 else EncodedLen(codes, src[..|src| - 1]) + codes[src[|src| - 1]].len
  }

  function PadLen(n: nat): (r: nat)
    ensures r < 8 && (n + r) % 8 == 0
  {
    (8 - n % 8) % 8
  }

  /** `bits`, padded with ones to whole octets, are the bits of `bs`. */
  predicate IsPadded(bs: Bytes, bits: seq<bool>) {
    Unpack(bs) == bits + Ones(PadLen(|bits|))
  }

  lemma PaddedUnique(a: Bytes, b: Bytes, bits: seq<bool>)
    requires IsPadded(a, bits) && IsPadded(b, bits)
    ensures a == b
  {
    UnpackInjective(a, b);
  }

  // Packing

  /**
   Appends the Huffman form of `src` to `dst`: the concatenated codes followed
   by fewer than eight one-bits. The accumulator never holds more than 61 bits.
   */
  method EncodeInto(codes: seq<Code>, src: Bytes, dst: Bytes) returns (r: Bytes)
    requires CodeTable(codes)
    ensures |dst| <= |r| && r[..|dst|] == dst && IsPadded(r[|dst|..], Concat(codes, src))
    ensures |r| == |dst| + (EncodedLen(codes, src) + 7) / 8
  {
    hide Concat, CodeBits, Unpack, BitsOf, Pow2, ShiftIn, Top, Rest, FillWord, WordBytes, IsPadded, EncodedLen;
    r := dst;
    ghost var body: Bytes := [];
    var bits: nat, nbits: nat := 0, 0;
    NoBits(codes);
    for i := 0 to |src|
      invariant nbits < 32 && bits < Pow2(nbits)
      invariant r == dst + body
      invariant Unpack(body) + BitsOf(bits, nbits) == Concat(codes, src[..i])
    {
      var code := codes[src[i]];
      PushCode(codes, src, i, Unpack(body), bits, nbits);
      bits := ShiftIn(bits, code);
      nbits := nbits + code.len;
      assert nbits <= 61;
      FitsAccumulator(bits, nbits);
      assert bits < U64;
      if nbits >= 32 {
        nbits := nbits - 32;
        DrainWord(body, bits, nbits);
        var word := WordBytes(Top(bits, nbits));
        r := r + word;
        body := body + word;
        bits := Rest(bits, nbits);
      }
    }
    assert src[..|src|] == src;
    if nbits > 0 {
      PadWord(body, bits, nbits);
      var last := WordBytes(FillWord(bits, nbits))[..(nbits + 7) / 8];
      r := r + last;
      body := body + last;
    } else {
      NoPadding(body, bits);
    }
    PaddedLength(body, Concat(codes, src));
    assert r[|dst|..] == body;
  }

  // Shifts and masks of the accumulator

  function ShiftIn(bits: nat, code: Code): nat {
    bits * Pow2(code.len) + code.bits
  }

  /** `bits` shifted right by `n`. */
  function Top(bits: nat, n: nat): nat {
    if n == 0 then bits else Top(bits / 2, n - 1)
  }

  /** The low `n` bits. */
  function Rest(bits: nat, n: nat): nat {
    if n == 0 then 0 else 2 * Rest(bits / 2, n - 1) + bits % 2
  }

  lemma {:induction false} ShiftSplit(bits: nat, n: nat, m: nat)
    requires bits < Pow2(n + m)
    ensures bits == Top(bits, n) * Pow2(n) + Rest(bits, n) && Rest(bits, n) < Pow2(n) && Top(bits, n) < Pow2(m)
  {
    if n == 0 {
      assert Top(bits, 0) * Pow2(0) == Top(bits, 0);
    } else {
      var p := Pow2(n - 1);
      assert Pow2(n + m) == 2 * Pow2(n - 1 + m);
      ShiftSplit(bits / 2, n - 1, m);
      assert Pow2(n) == 2 * p && Top(bits, n) == Top(bits / 2, n - 1);
      hide Pow2, Top;
      Doubling(Top(bits, n), p);
    }
  }

  lemma Doubling(a: nat, p: nat)
    ensures a * (2 * p) == 2 * (a * p)
  {
  }

  /** The remaining bits at the top of a 32-bit word, ones below. */
  function FillWord(bits: nat, nbits: nat): nat
    requires nbits <= 32
  {
    bits * Pow2(32 - nbits) + (Pow2(32 - nbits) - 1)
  }

  lemma NoBits(codes: seq<Code>)
    requires CodeTable(codes)
    ensures Pow2(0) == 1 && Unpack([]) + BitsOf(0, 0) == Concat(codes, [])
  {
  }

  lemma FitsAccumulator(bits: nat, nbits: nat)
    requires nbits <= 61 && bits < Pow2(nbits)
    ensures bits < U64
  {
    hide Pow2;
    Pow2Values();
    Pow2Monotone(nbits, 61);
  }

  /** Shifting a code into the accumulator appends its bits. */
  lemma PushCode(codes: seq<Code>, src: Bytes, i: nat, out: seq<bool>, bits: nat, nbits: nat)
    requires CodeTable(codes) && i < |src| && bits < Pow2(nbits)
    requires out + BitsOf(bits, nbits) == Concat(codes, src[..i])
    ensures var c := codes[src[i]];
            && ShiftIn(bits, c) < Pow2(nbits + c.len)
            && out + BitsOf(ShiftIn(bits, c), nbits + c.len) == Concat(codes, src[..i + 1])
  {
    hide BitsOf, Pow2;
    var c := codes[src[i]];
    BitsJoin(bits, nbits, c.bits, c.len);
    assert src[..i + 1][..i] == src[..i];
    assert Concat(codes, src[..i + 1]) == Concat(codes, src[..i]) + CodeBits(codes, src[i]);
    assert (out + BitsOf(bits, nbits)) + BitsOf(c.bits, c.len) == out + (BitsOf(bits, nbits) + BitsOf(c.bits, c.len));
    Pow2Add(nbits, c.len);
    JoinBound(bits, Pow2(nbits), c.bits, Pow2(c.len));
  }

  lemma JoinBound(a: nat, m: nat, b: nat, n: nat)
    requires a < m && b < n
    ensures a * n + b < m * n
  {
    assert (a + 1) * n <= m * n;
  }

  /** Moving the top 32 bits out of the accumulator keeps the bit string. */
  lemma DrainWord(body: Bytes, bits: nat, nbits: nat)
    requires nbits < 32 && bits < Pow2(nbits + 32)
    ensures Top(bits, nbits) < 0x1_0000_0000 && Rest(bits, nbits) < Pow2(nbits)
    ensures Unpack(body + WordBytes(Top(bits, nbits))) + BitsOf(Rest(bits, nbits), nbits)
            == Unpack(body) + BitsOf(bits, nbits + 32)
  {
    hide BitsOf, Unpack, Pow2, Top, Rest, WordBytes;
    Pow2Values();
    var word, rest := Top(bits, nbits), Rest(bits, nbits);
    ShiftSplit(bits, nbits, 32);
    BitsJoin(word, 32, rest, nbits);
    UnpackConcat(body, WordBytes(word));
    UnpackWord(word);
    assert (Unpack(body) + BitsOf(word, 32)) + BitsOf(rest, nbits) == Unpack(body) + (BitsOf(word, 32) + BitsOf(rest, nbits));
  }

  lemma FillWordBits(bits: nat, nbits: nat)
    requires nbits <= 32 && bits < Pow2(nbits)
    ensures FillWord(bits, nbits) < 0x1_0000_0000
    ensures BitsOf(FillWord(bits, nbits), 32) == BitsOf(bits, nbits) + Ones(32 - nbits)
  {
    hide BitsOf, Pow2;
    Pow2Values();
    var gap := 32 - nbits;
    Pow2Add(nbits, gap);
    JoinBound(bits, Pow2(nbits), Pow2(gap) - 1, Pow2(gap));
    BitsJoin(bits, nbits, Pow2(gap) - 1, gap);
    BitsOfOnes(gap);
  }

  lemma WordPrefix(w: nat, n: nat)
    requires w < 0x1_0000_0000 && n <= 4
    ensures Unpack(WordBytes(w)[..n]) == BitsOf(w, 32)[..8 * n]
  {
    hide BitsOf, Unpack, WordBytes;
    var word := WordBytes(w);
    UnpackWord(w);
    assert word == word[..n] + word[n..];
    UnpackConcat(word[..n], word[n..]);
  }

  lemma PadArithmetic(octets: nat, nbits: nat)
    ensures PadLen(8 * octets + nbits) == 8 * ((nbits + 7) / 8) - nbits
  {
  }

  /** The last word, filled with ones and cut to whole octets. */
  lemma PadWord(body: Bytes, bits: nat, nbits: nat)
    requires 0 < nbits < 32 && bits < Pow2(nbits)
    ensures IsPadded(body + WordBytes(FillWord(bits, nbits))[..(nbits + 7) / 8], Unpack(body) + BitsOf(bits, nbits))
  {
    hide BitsOf, Unpack, Pow2, FillWord, WordBytes, Ones, PadLen;
    var n := (nbits + 7) / 8;
    var pad := 8 * n - nbits;
    var w := FillWord(bits, nbits);
    FillWordBits(bits, nbits);
    WordPrefix(w, n);
    assert Ones(32 - nbits)[..pad] == Ones(pad);
    assert BitsOf(w, 32)[..8 * n] == BitsOf(bits, nbits) + Ones(pad);
    UnpackConcat(body, WordBytes(w)[..n]);
    var whole := Unpack(body) + BitsOf(bits, nbits);
    PadArithmetic(|body|, nbits);
    assert Unpack(body) + (BitsOf(bits, nbits) + Ones(pad)) == whole + Ones(pad);
  }

  lemma NoPadding(body: Bytes, bits: nat)
    ensures IsPadded(body, Unpack(body) + BitsOf(bits, 0))
  {
    assert Unpack(body) + [] == Unpack(body);
    assert PadLen(8 * |body|) == 0;
    assert Unpack(body) + Ones(0) == Unpack(body);
  }

  lemma PaddedLength(bs: Bytes, bits: seq<bool>)
    requires IsPadded(bs, bits)
    ensures |bs| == (|bits| + 7) / 8
  {
    assert 8 * |bs| == |bits| + PadLen(|bits|);
  }
}
