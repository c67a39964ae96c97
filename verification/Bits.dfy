/** Powers of two, and numbers as bit strings with the most significant bit first. */
module Bits {
  import opened Basics

  function Pow2(n: nat): (r: nat)
    ensures r > 0
  {
    if n == 0 then 1 else 2 * Pow2(n - 1)
  }

  lemma {:induction false} Pow2Add(m: nat, n: nat)
    ensures Pow2(m + n) == Pow2(m) * Pow2(n)
  {
    if m > 0 {
      Pow2Add(m - 1, n);
      assert 2 * Pow2(m - 1) * Pow2(n) == 2 * (Pow2(m - 1) * Pow2(n));
    }
  }

  lemma {:induction false} Pow2Monotone(m: nat, n: nat)
    requires m <= n
    ensures Pow2(m) <= Pow2(n)
    decreases n - m
  {
    if m < n {
      Pow2Monotone(m, n - 1);
    }
  }

  lemma Pow2Values()
    ensures Pow2(4) == 16 && Pow2(5) == 32 && Pow2(6) == 64 && Pow2(7) == 128 && Pow2(8) == 256
    ensures Pow2(16) == 0x1_0000 && Pow2(24) == 0x100_0000 && Pow2(32) == 0x1_0000_0000
    ensures Pow2(61) == 0x2000_0000_0000_0000 && Pow2(62) == 0x4000_0000_0000_0000
    ensures Pow2(63) == 0x8000_0000_0000_0000 && Pow2(64) == 0x1_0000_0000_0000_0000
  {
    assert Pow2(4) == 16;
    assert Pow2(8) == 256 by { assert Pow2(6) == 64; }
    Pow2Add(8, 8);
    Pow2Add(16, 8);
    Pow2Add(16, 16);
    Pow2Add(32, 16);
    Pow2Add(48, 8);
    assert Pow2(58) == 4 * Pow2(56);
    assert Pow2(60) == 4 * Pow2(58);
    assert Pow2(62) == 4 * Pow2(60);
    assert Pow2(64) == 4 * Pow2(62);
  }

  /** The low `n` bits of `v`. */
  function BitsOf(v: nat, n: nat): (r: seq<bool>)
    ensures |r| == n
  {
    if n == 0 then [] else BitsOf(v / 2, n - 1) + [v % 2 == 1]
  }

  /** Appending `m` bits to a number appends them to its bit string. */
  lemma {:induction false} BitsJoin(a: nat, n: nat, b: nat, m: nat)
    requires b < Pow2(m)
    ensures BitsOf(a * Pow2(m) + b, n + m) == BitsOf(a, n) + BitsOf(b, m)
    decreases m
  {
    if m == 0 {
      assert BitsOf(a, n) + [] == BitsOf(a, n);
    } else {
      var v := a * Pow2(m) + b;
      assert v == 2 * (a * Pow2(m - 1)) + b;
      assert v / 2 == a * Pow2(m - 1) + b / 2 && v % 2 == b % 2;
      BitsJoin(a, n, b / 2, m - 1);
      assert BitsOf(v, n + m) == BitsOf(a * Pow2(m - 1) + b / 2, n + m - 1) + [b % 2 == 1];
      assert BitsOf(a, n) + BitsOf(b / 2, m - 1) + [b % 2 == 1] == BitsOf(a, n) + (BitsOf(b / 2, m - 1) + [b % 2 == 1]);
    }
  }

  /** Numbers of the same width with the same bits are equal. */
  lemma {:induction false} BitsInjective(a: nat, b: nat, n: nat)
    requires a < Pow2(n) && b < Pow2(n) && BitsOf(a, n) == BitsOf(b, n)
    ensures a == b
  {
    if n > 0 {
      var p, q := BitsOf(a / 2, n - 1), BitsOf(b / 2, n - 1);
      assert BitsOf(a, n)[..n - 1] == p && BitsOf(b, n)[..n - 1] == q;
      assert BitsOf(a, n)[n - 1] == (a % 2 == 1) && BitsOf(b, n)[n - 1] == (b % 2 == 1);
      BitsInjective(a / 2, b / 2, n - 1);
    }
  }

  function Ones(n: nat): (r: seq<bool>)
    ensures |r| == n
    ensures forall i :: 0 <= i < n ==> r[i]
  {
    if n == 0 then [] else Ones(n - 1) + [true]
  }

  lemma {:induction false} BitsOfOnes(n: nat)
    ensures BitsOf(Pow2(n) - 1, n) == Ones(n)
  {
    if n > 0 {
      var v := Pow2(n) - 1;
      assert v == 2 * (Pow2(n - 1) - 1) + 1;
      assert v / 2 == Pow2(n - 1) - 1 && v % 2 == 1;
      BitsOfOnes(n - 1);
    }
  }

  /** A byte string as bits. */
  function Unpack(bs: Bytes): (r: seq<bool>)
    ensures |r| == 8 * |bs|
  {
    if bs == [] then [] else Unpack(bs[..|bs| - 1]) + BitsOf(bs[|bs| - 1], 8)
  }

  lemma {:induction false} UnpackConcat(a: Bytes, b: Bytes)
    ensures Unpack(a + b) == Unpack(a) + Unpack(b)
    decreases |b|
  {
    hide BitsOf;
    if b == [] {
      assert a + b == a;
    } else {
      var ab, last := a + b, BitsOf(b[|b| - 1], 8);
      assert ab[..|ab| - 1] == a + b[..|b| - 1];
      UnpackConcat(a, b[..|b| - 1]);
      assert Unpack(ab) == Unpack(ab[..|ab| - 1]) + last;
      assert (Unpack(a) + Unpack(b[..|b| - 1])) + last == Unpack(a) + (Unpack(b[..|b| - 1]) + last);
    }
  }

  lemma {:induction false} UnpackInjective(a: Bytes, b: Bytes)
    requires Unpack(a) == Unpack(b)
    ensures a == b
    decreases |a|
  {
    hide BitsOf, Pow2;
    assert 8 * |a| == 8 * |b|;
    if a != [] {
      var n := |a| - 1;
      Pow2Values();
      assert Unpack(a)[..8 * n] == Unpack(a[..n]) && Unpack(b)[..8 * n] == Unpack(b[..n]);
      assert Unpack(a)[8 * n..] == BitsOf(a[n], 8) && Unpack(b)[8 * n..] == BitsOf(b[n], 8);
      UnpackInjective(a[..n], b[..n]);
      BitsInjective(a[n], b[n], 8);
      assert a == a[..n] + [a[n]] && b == b[..n] + [b[n]];
    }
  }

  /** The four octets of a 32-bit word, most significant first. */
  function WordBytes(w: nat): (r: Bytes)
    ensures |r| == 4
  {
    [w / 256 / 256 / 256 % 256, w / 256 / 256 % 256, w / 256 % 256, w % 256]
  }

  lemma UnpackWord(w: nat)
    requires w < 0x1_0000_0000
    ensures Unpack(WordBytes(w)) == BitsOf(w, 32)
  {
    hide BitsOf, Unpack, Pow2;
    Pow2Values();
    var b := WordBytes(w);
    var w1, w2, w3 := w / 256, w / 256 / 256, w / 256 / 256 / 256;
    assert b == [w3] + [w2 % 256] + [w1 % 256] + [w % 256];
    BitsJoin(w3, 8, w2 % 256, 8);
    BitsJoin(w2, 16, w1 % 256, 8);
    BitsJoin(w1, 24, w % 256, 8);
    UnpackOne(w3);
    UnpackSnoc([w3], w2 % 256);
    UnpackSnoc([w3] + [w2 % 256], w1 % 256);
    UnpackSnoc([w3] + [w2 % 256] + [w1 % 256], w % 256);
  }

  lemma UnpackSnoc(a: Bytes, b: Byte)
    ensures Unpack(a + [b]) == Unpack(a) + BitsOf(b, 8)
  {
    UnpackConcat(a, [b]);
    UnpackOne(b);
  }

  lemma UnpackOne(b: Byte)
    ensures Unpack([b]) == BitsOf(b, 8)
  {
    assert [b][..0] == [];
    assert Unpack([b]) == Unpack([]) + BitsOf(b, 8);
  }

  // Bits back to octets

  function Value(bits: seq<bool>): nat {
    if bits == [] then 0 else 2 * Value(bits[..|bits| - 1]) + if bits[|bits| - 1] then 1 else 0
  }

  lemma {:induction false} ValueBits(bits: seq<bool>)
    ensures Value(bits) < Pow2(|bits|) && BitsOf(Value(bits), |bits|) == bits
  {
    if bits != [] {
      var n := |bits| - 1;
      ValueBits(bits[..n]);
      var v := Value(bits);
      assert v / 2 == Value(bits[..n]) && (v % 2 == 1) == bits[n];
      assert bits == bits[..n] + [bits[n]];
    }
  }

  /** Whole octets from bits, most significant first. */
  function Pack(bits: seq<bool>): Bytes
    requires |bits| % 8 == 0
    decreases |bits|
  {
    if bits == [] then []
    else
      var n := |bits| - 8;
      PackLast(bits[n..]);
      Pack(bits[..n]) + [Value(bits[n..])]
  }

  lemma {:induction false} UnpackPack(bits: seq<bool>)
    requires |bits| % 8 == 0
    ensures Unpack(Pack(bits)) == bits
    decreases |bits|
  {
    hide BitsOf, Value, Unpack;
    if bits == [] {
      UnpackNothing();
    } else {
      var n := |bits| - 8;
      UnpackPack(bits[..n]);
      PackLast(bits[n..]);
      UnpackSnoc(Pack(bits[..n]), Value(bits[n..]));
      assert bits[..n] + bits[n..] == bits;
    }
  }

  lemma UnpackNothing()
    ensures Unpack([]) == []
  {
  }

  lemma PackLast(bits: seq<bool>)
    requires |bits| == 8
    ensures Value(bits) < 256 && BitsOf(Value(bits), 8) == bits
  {
    hide Pow2, BitsOf, Value;
    Pow2Values();
    ValueBits(bits);
  }
}
