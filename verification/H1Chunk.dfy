/**
 Chunked bodies (section 7.1 of RFC 9112) over flat octets: the text
 `src/h1/write.rs` emits and what `src/h1/body.rs` makes of a stream.
 */
module H1Chunk {
  import opened Basics

  const USIZE: nat := 0x1_0000_0000_0000_0000
  const LINE_LIMIT: nat := 48
  const CR: Byte := 13
  const LF: Byte := 10
  const PLUS: Byte := 43
  const CRLF: Bytes := [13, 10]

  // Chunk sizes

  /** One of the digits "0123456789ABCDEF". */
  function Digit(n: nat): Byte
    requires n < 16
  {
    if n < 10 then 48 + n else 55 + n
  }

  function Hex(n: nat): (r: Bytes)
    ensures r != []
  {
    if n < 16 then [Digit(n)] else Hex(n / 16) + [Digit(n % 16)]
  }

  function DigitValue(b: Byte): Option<nat> {
    if 48 <= b <= 57 then Some(b - 48)
    else if 65 <= b <= 70 then Some(b - 55)
    else if 97 <= b <= 102 then Some(b - 87)
    else None
  }

  /** The number a run of digits spells, if every octet is one. */
  function Digits(s: Bytes): Option<nat>
    decreases |s|
  {
    if s == [] then Some(0)
    else
      var high, low := Digits(s[..|s| - 1]), DigitValue(s[|s| - 1]);
      if high.None? || low.None? then None else Some(high.value * 16 + low.value)
  }

  /** `usize::from_str_radix(.., 16)`: a plus sign may lead, and the number must fit. */
  function ParseSize(line: Bytes): Option<nat> {
    var digits := if |line| > 1 && line[0] == PLUS then line[1..] else line;
    if digits == [] then None
    else
      var n := Digits(digits);
      if n.Some? && n.value < USIZE then n else None
  }

  predicate IsDigit(b: Byte) {
    DigitValue(b).Some?
  }

  lemma {:induction false} HexReads(n: nat)
    ensures Digits(Hex(n)) == Some(n)
    ensures forall i :: 0 <= i < |Hex(n)| ==> IsDigit(Hex(n)[i])
  {
    var s := Hex(n);
    if n < 16 {
      assert s[..|s| - 1] == [];
    } else {
      HexReads(n / 16);
      assert s[..|s| - 1] == Hex(n / 16);
    }
  }

  function Pow16(k: nat): nat {
    if k == 0 then 1 else 16 * Pow16(k - 1)
  }

  lemma {:induction false} HexLength(n: nat, k: nat)
    requires n < Pow16(k) && k > 0
    ensures |Hex(n)| <= k
  {
    if n >= 16 {
      HexLength(n / 16, k - 1);
    }
  }

  lemma HexFits(n: nat)
    requires n < USIZE
    ensures |Hex(n)| <= 16
  {
    assert Pow16(4) == 0x1_0000;
    assert Pow16(8) == 0x1_0000_0000;
    assert Pow16(12) == 0x1_0000_0000_0000;
    assert Pow16(16) == USIZE;
    HexLength(n, 16);
  }

  // Reading one chunk

  predicate CrlfAt(s: Bytes, i: nat) {
    i + 2 <= |s| && s[i] == CR && s[i + 1] == LF
  }

  /** The first CRLF at or after `from` that ends within the first `limit` octets. */
  function FindCrlf(s: Bytes, from: nat, limit: nat): (r: Option<nat>)
    requires limit <= |s|
    ensures r.Some? ==> from <= r.value && r.value + 2 <= limit && CrlfAt(s, r.value)
    ensures r.Some? ==> forall k :: from <= k < r.value ==> !CrlfAt(s, k)
    ensures r.None? ==> forall k :: from <= k && k + 2 <= limit ==> !CrlfAt(s, k)
    decreases limit - from
  {
    if from + 2 > limit then None
    else if CrlfAt(s, from) then Some(from)
    else FindCrlf(s, from + 1, limit)
  }

  datatype BodyError = LineTooLong | BadSize | SizeTooLarge | UnexpectedEof

  datatype Line = Line(size: nat, used: nat)

  /** The size line at the front of a stream. */
  function ReadLine(s: Bytes): Result<Line, BodyError> {
    match FindCrlf(s, 0, Min(|s|, LINE_LIMIT))
    case None => Err(if |s| >= LINE_LIMIT then LineTooLong else UnexpectedEof)
    case Some(i) =>
      match ParseSize(s[..i])
      case None => Err(BadSize)
      case Some(n) => Ok(Line(n, i + 2))
  }

  datatype Taken = Taken(data: Bytes, used: nat)

  /** The chunk behind a size line: its data and two octets, whatever they are. */
  function ReadData(s: Bytes, line: Line, trailers: bool): Result<Taken, BodyError>
    requires line.used <= |s|
  {
    if line.size == 0 && trailers then Ok(Taken([], line.used))
    else if line.size + 2 >= USIZE then Err(SizeTooLarge)
    else if |s| < line.used + line.size + 2 then Err(UnexpectedEof)
    else Ok(Taken(s[line.used..line.used + line.size], line.used + line.size + 2))
  }

  function ReadChunk(s: Bytes, trailers: bool): Result<Taken, BodyError> {
    match ReadLine(s)
    case Err(e) => Err(e)
    case Ok(line) => ReadData(s, line, trailers)
  }

  lemma ChunkUses(s: Bytes, trailers: bool)
    ensures ReadChunk(s, trailers).Ok? ==> 2 <= ReadChunk(s, trailers).value.used <= |s|
  {
    hide FindCrlf, ParseSize;
  }

  /** The chunks handed over, the error that ended them if any, and what is left on the stream. */
  datatype Body = Body(chunks: seq<Bytes>, error: Option<BodyError>, rest: Bytes)

  /** Chunks up to the first empty one. */
  function ReadBody(s: Bytes, trailers: bool): Body
    decreases |s|
  {
    ChunkUses(s, trailers);
    match ReadChunk(s, trailers)
    case Err(e) => Body([], Some(e), s)
    case Ok(t) =>
      if t.data == [] then Body([], None, s[t.used..])
      else
        var later := ReadBody(s[t.used..], trailers);
        Body([t.data] + later.chunks, later.error, later.rest)
  }

  // Emission

  function ChunkText(data: Bytes): Bytes {
    Hex(|data|) + CRLF + data + CRLF
  }

  const TERMINATOR: Bytes := [48, 13, 10, 13, 10]

  /** Non-empty pieces of a body as chunks; empty ones would end it and are skipped. */
  function ChunksText(pieces: seq<Bytes>): Bytes
    decreases |pieces|
  {
    if pieces == [] then []
    else (if pieces[0] == [] then [] else ChunkText(pieces[0])) + ChunksText(pieces[1..])
  }

  function NonEmpty(pieces: seq<Bytes>): seq<Bytes>
    decreases |pieces|
  {
    if pieces == [] then []
    else if pieces[0] == [] then NonEmpty(pieces[1..])
    else [pieces[0]] + NonEmpty(pieces[1..])
  }

  /** Skipping empty pieces leaves the body's octets as they are. */
  lemma {:induction false} NonEmptySame(pieces: seq<Bytes>)
    ensures Flatten(NonEmpty(pieces)) == Flatten(pieces)
    ensures forall i :: 0 <= i < |NonEmpty(pieces)| ==> NonEmpty(pieces)[i] != []
    decreases |pieces|
  {
    if pieces != [] {
      NonEmptySame(pieces[1..]);
      if pieces[0] == [] {
        assert [] + Flatten(pieces[1..]) == Flatten(pieces[1..]);
      } else {
        FlattenCons(pieces[0], NonEmpty(pieces[1..]));
      }
    }
  }

  lemma FirstCrlf(s: Bytes, i: nat, limit: nat)
    requires i + 2 <= limit <= |s| && CrlfAt(s, i) && forall k :: 0 <= k < i ==> !CrlfAt(s, k)
    ensures FindCrlf(s, 0, limit) == Some(i)
  {
  }

  /** The size line of a chunk reads back as its size, whatever follows. */
  lemma SizeLineReads(n: nat, tail: Bytes)
    requires n < USIZE
    ensures ReadLine(Hex(n) + CRLF + tail) == Ok(Line(n, |Hex(n)| + 2))
  {
    hide FindCrlf, Hex, Digits;
    var h := Hex(n);
    var s := h + CRLF + tail;
    HexReads(n);
    HexFits(n);
    forall k | 0 <= k < |h|
      ensures !CrlfAt(s, k)
    {
      assert IsDigit(h[k]);
    }
    FirstCrlf(s, |h|, Min(|s|, LINE_LIMIT));
    assert s[..|h|] == h;
    assert IsDigit(h[0]);
  }

  /** A chunk line, its data and any two octets are taken for that chunk: the closing CRLF is not looked at. */
  lemma ChunkEndUnchecked(data: Bytes, a: Byte, b: Byte, tail: Bytes)
    requires 0 < |data| && |data| + 2 < USIZE
    ensures var s, t := Hex(|data|) + CRLF + (data + [a, b] + tail), Taken(data, |Hex(|data|)| + |data| + 4);
            ReadChunk(s, false) == Ok(t) && ReadChunk(s, true) == Ok(t)
  {
    hide ReadLine, Hex;
    var h := Hex(|data|);
    var s := h + CRLF + (data + [a, b] + tail);
    SizeLineReads(|data|, data + [a, b] + tail);
    assert s[|h| + 2..|h| + 2 + |data|] == data;
  }

  // What the standard asks for

  /** One or more hexadecimal digits, and nothing else. */
  predicate HexDigits(line: Bytes) {
    line != [] && forall i :: 0 <= i < |line| ==> IsDigit(line[i])
  }

  /** A chunk as section 7.1 of RFC 9112 frames it, without extensions: digits, CRLF, that many octets, CRLF. */
  ghost predicate StandardChunk(text: Bytes, data: Bytes) {
    exists line: Bytes :: HexDigits(line) && Digits(line) == Some(|data|) && text == line + CRLF + data + CRLF
  }

  lemma {:induction false} DigitsMeans(s: Bytes)
    ensures Digits(s).Some? <==> forall i :: 0 <= i < |s| ==> IsDigit(s[i])
    decreases |s|
  {
    if s != [] {
      var most := s[..|s| - 1];
      DigitsMeans(most);
      assert forall i :: 0 <= i < |most| ==> most[i] == s[i];
      if forall i :: 0 <= i < |s| ==> IsDigit(s[i]) {
        assert IsDigit(s[|s| - 1]);
        assert forall i :: 0 <= i < |most| ==> IsDigit(most[i]);
      }
    }
  }

  /** A size line is read if and only if it is digits, possibly behind one plus sign, of a number that fits. */
  lemma SizeLineMeans(line: Bytes)
    ensures ParseSize(line).Some? <==>
            || (HexDigits(line) && Digits(line) != None && Digits(line).value < USIZE)
            || (|line| > 1 && line[0] == PLUS && HexDigits(line[1..]) && Digits(line[1..]) != None
                && Digits(line[1..]).value < USIZE)
  {
    DigitsMeans(line);
    if line != [] {
      DigitsMeans(line[1..]);
    }
  }

  /** So a line with a chunk extension, which a semicolon introduces, is refused. */
  lemma ExtensionRefused(s: Bytes, i: nat, j: nat, trailers: bool)
    requires j < i && i + 2 <= Min(|s|, LINE_LIMIT) && s[j] == 59
    requires CrlfAt(s, i) && forall k :: 0 <= k < i ==> !CrlfAt(s, k)
    ensures ReadChunk(s, trailers) == Err(BadSize)
  {
    hide FindCrlf, ParseSize;
    FirstCrlf(s, i, Min(|s|, LINE_LIMIT));
    var line := s[..i];
    SizeLineMeans(line);
    assert line[j] == 59 && !IsDigit(line[j]);
    assert j > 0 ==> line[1..][j - 1] == 59;
  }

  /** What an accepted chunk consists of: a size line, that many octets and two more. */
  lemma ChunkParts(s: Bytes, trailers: bool) returns (line: Bytes)
    requires ReadChunk(s, trailers).Ok? && (trailers ==> ReadChunk(s, trailers).value.data != [])
    ensures var t := ReadChunk(s, trailers).value;
            && ParseSize(line) == Some(|t.data|) && line != [] && t.used <= |s| && |line| + |t.data| + 4 == t.used
            && s[..t.used] == line + CRLF + t.data + [s[t.used - 2], s[t.used - 1]]
  {
    hide FindCrlf, ParseSize;
    var i := FindCrlf(s, 0, Min(|s|, LINE_LIMIT)).value;
    line := s[..i];
    SizeLineMeans(line);
    var t := ReadChunk(s, trailers).value;
    assert CrlfAt(s, i);
    assert s[..t.used - 2] == line + CRLF + t.data;
    assert s[..t.used] == s[..t.used - 2] + [s[t.used - 2], s[t.used - 1]];
  }

  /** An accepted chunk is framed as the standard asks if and only if no plus sign leads it and a CRLF closes it. */
  lemma AcceptedChunk(s: Bytes, trailers: bool)
    requires ReadChunk(s, trailers).Ok? && (trailers ==> ReadChunk(s, trailers).value.data != [])
    ensures var t := ReadChunk(s, trailers).value;
            && 4 < t.used <= |s|
            && (StandardChunk(s[..t.used], t.data) <==> s[0] != PLUS && CrlfAt(s, t.used - 2))
  {
    hide ReadChunk, ParseSize, Digits;
    var t := ReadChunk(s, trailers).value;
    var line := ChunkParts(s, trailers);
    SizeLineMeans(line);
    var text := s[..t.used];
    assert line[0] == text[0] == s[0];
    if StandardChunk(text, t.data) {
      var digits: Bytes :| HexDigits(digits) && Digits(digits) == Some(|t.data|) && text == digits + CRLF + t.data + CRLF;
      assert IsDigit(digits[0]);
      assert text[|text| - 2] == CR && text[|text| - 1] == LF;
    }
    if s[0] != PLUS && CrlfAt(s, t.used - 2) {
      SizeOfDigits(line);
      assert text == line + CRLF + t.data + CRLF;
    }
  }

  lemma SizeOfDigits(line: Bytes)
    requires ParseSize(line).Some? && line != [] && line[0] != PLUS
    ensures HexDigits(line) && Digits(line) == ParseSize(line)
  {
    DigitsMeans(line);
  }

  /** The inputs that are accepted and not standard: a plus sign, and a chunk closed by something else. */
  lemma NonStandardAccepted()
    ensures ReadChunk([PLUS, 49, 13, 10, 120, 13, 10], false) == Ok(Taken([120], 7))
    ensures ReadChunk([49, 13, 10, 120, 97, 98], false) == Ok(Taken([120], 6))
  {
    OneOctet([PLUS, 49], 120, 13, 10);
    OneOctet([49], 120, 97, 98);
    assert [PLUS, 49] + CRLF + [120, 13, 10] == [PLUS, 49, 13, 10, 120, 13, 10];
    assert [49] + CRLF + [120, 97, 98] == [49, 13, 10, 120, 97, 98];
  }

  lemma OneOctet(line: Bytes, x: Byte, a: Byte, b: Byte)
    requires line in {[PLUS, 49], [49]}
    ensures ReadChunk(line + CRLF + [x, a, b], false) == Ok(Taken([x], |line| + 5))
  {
    hide FindCrlf;
    var s := line + CRLF + [x, a, b];
    FirstCrlf(s, |line|, |s|);
    assert s[..|line|] == line;
    assert Digits([49]) == Some(1) by { assert [49][..0] == []; }
    assert ParseSize(line) == Some(1) by { assert |line| == 2 ==> line[1..] == [49]; }
    assert s[|line| + 2..|line| + 3] == [x];
  }

  lemma ChunkReads(data: Bytes, tail: Bytes, trailers: bool)
    requires 0 < |data| && |data| + 2 < USIZE
    ensures ReadChunk(ChunkText(data) + tail, trailers) == Ok(Taken(data, |ChunkText(data)|))
  {
    hide ReadChunk, Hex;
    ChunkEndUnchecked(data, CR, LF, tail);
    assert ChunkText(data) + tail == Hex(|data|) + CRLF + (data + [CR, LF] + tail);
  }

  lemma TerminatorReads(tail: Bytes)
    ensures ReadChunk(TERMINATOR + tail, false) == Ok(Taken([], |TERMINATOR|))
  {
    hide ReadLine;
    SizeLineReads(0, CRLF + tail);
    assert Hex(0) == [48];
    assert TERMINATOR + tail == Hex(0) + CRLF + (CRLF + tail);
    var s := TERMINATOR + tail;
    assert s[3..3] == [];
  }

  /** The emitted body is read back as its non-empty pieces and leaves exactly what follows it. */
  lemma {:induction false} EmittedReads(pieces: seq<Bytes>, tail: Bytes)
    requires forall i :: 0 <= i < |pieces| ==> |pieces[i]| + 2 < USIZE
    ensures ReadBody(ChunksText(pieces) + (TERMINATOR + tail), false) == Body(NonEmpty(pieces), None, tail)
    decreases |pieces|
  {
    hide ReadChunk, ChunkText;
    var all := TERMINATOR + tail;
    if pieces == [] {
      assert [] + all == all;
      TerminatorReads(tail);
      assert all[|TERMINATOR|..] == tail;
    } else {
      var p, rest := pieces[0], ChunksText(pieces[1..]);
      EmittedReads(pieces[1..], tail);
      if p == [] {
        assert ChunksText(pieces) == rest;
      } else {
        var s := ChunksText(pieces) + all;
        assert s == ChunkText(p) + (rest + all);
        ChunkReads(p, rest + all, false);
        assert s[|ChunkText(p)|..] == rest + all;
      }
    }
  }
}
