/**
 Variable-length integers (section 16 of RFC 9000) as `src/h3/frame.rs` reads
 and writes them: only the shortest encoding of a value is accepted.
 */
module Varint {
  import opened Basics

  const LIMIT: nat := 0x4000_0000_0000_0000

  /** A read either needs more octets, finds a redundant encoding, or yields a value and its length. */
  datatype Read = More | Bad | Got(value: nat, len: nat)

  function Pow256(n: nat): (r: nat)
    ensures r > 0
  {
    if n == 0 then 1 else 256 * Pow256(n - 1)
  }

  /** The big-endian number an octet string spells. */
  function Big(s: Bytes): nat
    decreases |s|
  {
    if s == [] then 0 else Big(s[..|s| - 1]) * 256 + s[|s| - 1]
  }

  /** `value` in exactly `n` octets, most significant first. */
  function BigEndian(value: nat, n: nat): (r: Bytes)
    ensures |r| == n
  {
    if n == 0 then [] else BigEndian(value / 256, n - 1) + [value % 256]
  }

  function Width(first: Byte): nat {
    if first < 64 then 1 else if first < 128 then 2 else if first < 192 then 4 else 8
  }

  /** The two length bits the first octet of an encoding of width `n` starts with. */
  function Tag(n: nat): nat {
    if n == 1 then 0 else if n == 2 then 1 else if n == 4 then 2 else 3
  }

  function Minimum(width: nat): nat {
    if width == 1 then 0 else if width == 2 then 64 else if width == 4 then 16384 else 0x4000_0000
  }

  function Parse(buf: Bytes): Read {
    if buf == [] then More
    else
      var n := Width(buf[0]);
      if |buf| < n then More
      else
        var value := Big([buf[0] % 64] + buf[1..n]);
        if n > 1 && value < Minimum(n) then Bad else Got(value, n)
  }

  function Size(value: nat): nat {
    if value < 64 then 1 else if value < 16384 then 2 else if value < 0x4000_0000 then 4 else 8
  }

  function Write(value: nat): Bytes
    requires value < LIMIT
  {
    if value < 64 then BigEndian(value, 1)
    else if value < 16384 then BigEndian(0x4000 + value, 2)
    else if value < 0x4000_0000 then BigEndian(0x8000_0000 + value, 4)
    else BigEndian(0xC000_0000_0000_0000 + value, 8)
  }

  // Big-endian numbers

  lemma Powers()
    ensures Pow256(0) == 1 && Pow256(1) == 0x100 && Pow256(2) == 0x1_0000 && Pow256(3) == 0x100_0000
    ensures Pow256(4) == 0x1_0000_0000 && Pow256(7) == 0x100_0000_0000_0000
  {
    assert Pow256(4) == 0x1_0000_0000;
    assert Pow256(6) == 0x1_0000_0000_0000;
  }

  lemma {:induction false} BigBound(s: Bytes)
    ensures Big(s) < Pow256(|s|)
  {
    if s != [] {
      BigBound(s[..|s| - 1]);
    }
  }

  lemma {:induction false} BigOfBigEndian(value: nat, n: nat)
    requires value < Pow256(n)
    ensures Big(BigEndian(value, n)) == value
  {
    if n > 0 {
      BigOfBigEndian(value / 256, n - 1);
      var s := BigEndian(value, n);
      assert s[..|s| - 1] == BigEndian(value / 256, n - 1);
    }
  }

  lemma {:induction false} BigEndianOfBig(s: Bytes)
    ensures BigEndian(Big(s), |s|) == s
  {
    if s != [] {
      BigEndianOfBig(s[..|s| - 1]);
      assert (Big(s[..|s| - 1]) * 256 + s[|s| - 1]) / 256 == Big(s[..|s| - 1]);
    }
  }

  lemma {:induction false} BigCons(k: Byte, s: Bytes)
    ensures Big([k] + s) == k * Pow256(|s|) + Big(s)
  {
    var t := [k] + s;
    if s == [] {
      assert t[..|t| - 1] == [];
    } else {
      assert t[..|t| - 1] == [k] + s[..|s| - 1];
      BigCons(k, s[..|s| - 1]);
      Regroup(k, Pow256(|s| - 1), Big(s[..|s| - 1]), s[|s| - 1]);
    }
  }

  lemma Regroup(k: int, p: int, a: int, b: int)
    ensures (k * p + a) * 256 + b == k * (256 * p) + (a * 256 + b)
  {
    assert (k * p) * 256 == k * (256 * p);
  }

  /** The leading octet of a number below `256^(n + 1)` carries its high part. */
  lemma BigEndianCons(k: Byte, low: nat, n: nat)
    requires low < Pow256(n)
    ensures BigEndian(k * Pow256(n) + low, n + 1) == [k] + BigEndian(low, n)
  {
    var s := [k] + BigEndian(low, n);
    BigCons(k, BigEndian(low, n));
    BigOfBigEndian(low, n);
    BigEndianOfBig(s);
  }

  // Writing and reading

  /** The shortest width for `k * 256^n + low`. */
  ghost predicate Shortest(k: nat, low: nat, n: nat) {
    && n in {0, 1, 3, 7} && k < 64 && low < Pow256(n)
    && (n > 0 ==> Minimum(n + 1) <= k * Pow256(n) + low)
  }

  /** The octets of `k * 256^n + low` in an encoding of `n + 1` octets. */
  function Spelled(k: nat, low: nat, n: nat): Bytes
    requires k < 64
  {
    [Tag(n + 1) * 64 + k] + BigEndian(low, n)
  }

  lemma WriteSpelled(k: nat, low: nat, n: nat)
    requires Shortest(k, low, n)
    ensures var value := k * Pow256(n) + low;
            value < LIMIT && Size(value) == n + 1 && Write(value) == Spelled(k, low, n)
  {
    hide BigEndian, Pow256;
    Powers();
    BigEndianCons(Tag(n + 1) * 64 + k, low, n);
    match n
    case 0 =>
    case 1 =>
    case 3 =>
    case 7 =>
  }

  /** Every value has a shortest width. */
  lemma Split(value: nat) returns (k: nat, low: nat, n: nat)
    requires value < LIMIT
    ensures Shortest(k, low, n) && value == k * Pow256(n) + low
  {
    hide Pow256;
    Powers();
    if value < 64 {
      k, low, n := value, 0, 0;
    } else if value < 16384 {
      k, low, n := value / 0x100, value % 0x100, 1;
    } else if value < 0x4000_0000 {
      k, low, n := value / 0x100_0000, value % 0x100_0000, 3;
    } else {
      k, low, n := value / 0x100_0000_0000_0000, value % 0x100_0000_0000_0000, 7;
    }
  }

  lemma SpelledReads(k: nat, low: nat, n: nat, tail: Bytes)
    requires Shortest(k, low, n)
    ensures Parse(Spelled(k, low, n) + tail) == Got(k * Pow256(n) + low, n + 1)
  {
    hide Big, BigEndian, Pow256;
    var rest := BigEndian(low, n);
    var buf := Spelled(k, low, n) + tail;
    assert buf == [Tag(n + 1) * 64 + k] + rest + tail;
    assert buf[1..n + 1] == rest;
    BigCons(k, rest);
    BigOfBigEndian(low, n);
  }

  /** What is written is read back, whatever follows it. */
  lemma WrittenReads(value: nat, tail: Bytes)
    requires value < LIMIT
    ensures |Write(value)| == Size(value)
    ensures Parse(Write(value) + tail) == Got(value, Size(value))
  {
    hide BigEndian, Write, Pow256, Parse;
    var k, low, n := Split(value);
    WriteSpelled(k, low, n);
    SpelledReads(k, low, n, tail);
  }

  /** What is read is exactly what writing the value would have produced. */
  lemma ReadIsWritten(buf: Bytes)
    requires Parse(buf).Got?
    ensures var g := Parse(buf);
            g.value < LIMIT && g.len == Size(g.value) <= |buf| && buf[..g.len] == Write(g.value)
  {
    hide Big, BigEndian, Write, Pow256, Size;
    var g := Parse(buf);
    var n: nat := g.len - 1;
    var k, rest := buf[0] % 64, buf[1..n + 1];
    BigCons(k, rest);
    BigBound(rest);
    BigEndianOfBig(rest);
    WriteSpelled(k, Big(rest), n);
    assert Spelled(k, Big(rest), n) == [buf[0]] + rest;
    assert buf[..g.len] == [buf[0]] + rest;
  }

  /** A decided read does not change when more octets arrive, and an undecided one has at most 7. */
  lemma ReadStable(buf: Bytes, more: Bytes)
    ensures !Parse(buf).More? ==> Parse(buf + more) == Parse(buf)
    ensures Parse(buf).More? ==> |buf| < 8
  {
    hide Big;
    if !Parse(buf).More? {
      var n := Width(buf[0]);
      assert (buf + more)[1..n] == buf[1..n];
    }
  }

  /** `parse_varint`: the accumulating loop computes the big-endian value. */
  method ParseLoop(buf: Bytes) returns (r: Read)
    ensures r == Parse(buf)
  {
    if |buf| == 0 {
      return More;
    }
    var first := buf[0];
    var len := Width(first);
    if |buf| < len {
      return More;
    }
    var value := first % 64;
    ghost var word := [first % 64] + buf[1..len];
    for i := 1 to len
      invariant value == Big(word[..i])
    {
      assert word[..i + 1][..i] == word[..i] && word[..i + 1][i] == buf[i];
      value := value * 256 + buf[i];
    }
    assert word[..len] == word;
    if len > 1 && value < Minimum(len) {
      return Bad;
    }
    return Got(value, len);
  }

  /** `write_varint`. */
  method WriteInto(out: Bytes, value: nat) returns (r: Bytes)
    requires value < LIMIT
    ensures r == out + Write(value)
  {
    if value < 64 {
      r := out + [value];
      assert BigEndian(value, 1) == [value];
    } else if value < 16384 {
      r := out + BigEndian(0x4000 + value, 2);
    } else if value < 0x4000_0000 {
      r := out + BigEndian(0x8000_0000 + value, 4);
    } else {
      r := out + BigEndian(0xC000_0000_0000_0000 + value, 8);
    }
  }
}
