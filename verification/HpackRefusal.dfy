/**
 What a refused header block does to the two tables. The decoder stops at the
 first header it refuses while the encoder has indexed the rest of the list, so
 the tables agree only if that rest left the encoder's table as it was.
 */
module HpackRefusal {
  import opened Basics
  import opened HpackTable
  import opened HpackString
  import opened Hpack
  import opened HpackStepLock
  import PrefixInt

  // Indexing without stepping through tables

  /** Headers indexed since the table was last emptied, newest first, and whether it was. */
  datatype Log = Log(added: seq<Header>, emptied: bool)

  /** What a table that started as `d` then holds: as much of the log, and of what was there before, as fits. */
  function Held(d: Dyn, log: Log): seq<Header> {
    Evict(log.added + if log.emptied then [] else d.entries, d.maxSize)
  }

  /** A header is indexed when it is not sensitive and in neither table; one larger than the table empties it. */
  function Noted(p: Params, d: Dyn, log: Log, h: Header): Log {
    if Sensitive(h.name) || h in p.base || h in Held(d, log) then log
    else if Size(h) > d.maxSize then Log([], true)
    else Log([h] + log.added, log.emptied)
  }

  function Indexing(p: Params, d: Dyn, hs: seq<Header>): Log
    decreases |hs|
  {
    if hs == [] then Log([], false)
    else Noted(p, d, Indexing(p, d, hs[..|hs| - 1]), hs[|hs| - 1])
  }

  // Eviction

  lemma {:induction false} EvictTwice(es: seq<Header>, room: nat, less: nat)
    requires less <= room
    ensures Evict(Evict(es, room), less) == Evict(es, less)
    decreases |es|
  {
    if TotalSize(es) > room {
      EvictTwice(es[..|es| - 1], room, less);
    }
  }

  lemma {:induction false} EvictCons(h: Header, es: seq<Header>, room: nat)
    requires Size(h) <= room
    ensures [h] + Evict(es, room - Size(h)) == Evict([h] + es, room)
    decreases |es|
  {
    TotalSizeCons(h, es);
    if TotalSize(es) > room - Size(h) {
      var all := [h] + es;
      assert all[..|all| - 1] == [h] + es[..|es| - 1];
      EvictCons(h, es[..|es| - 1], room);
    }
  }

  lemma {:induction false} EvictPrefix(es: seq<Header>, room: nat)
    ensures Evict(es, room) <= es
    decreases |es|
  {
    if TotalSize(es) > room {
      EvictPrefix(es[..|es| - 1], room);
    }
  }

  /** What survives of a longer list, cut at the shorter one, is what survives of the shorter. */
  lemma {:induction false} EvictCut(a: seq<Header>, b: seq<Header>, room: nat)
    ensures |Evict(a + b, room)| <= |a| ==> Evict(a + b, room) == Evict(a, room)
    ensures |Evict(a + b, room)| > |a| ==> Evict(a, room) == a
    decreases |b|
  {
    if b == [] {
      assert a + b == a;
      EvictPrefix(a, room);
    } else if TotalSize(a + b) <= room {
      SizeGrows(a, b);
    } else {
      assert (a + b)[..|a + b| - 1] == a + b[..|b| - 1];
      EvictCut(a, b[..|b| - 1], room);
    }
  }

  lemma {:induction false} SizeGrows(a: seq<Header>, b: seq<Header>)
    ensures TotalSize(a) <= TotalSize(a + b)
    decreases |b|
  {
    if b == [] {
      assert a + b == a;
    } else {
      assert (a + b)[..|a + b| - 1] == a + b[..|b| - 1];
      SizeGrows(a, b[..|b| - 1]);
    }
  }

  // The table the encoder ends with

  lemma {:induction false} EncodeSnoc(p: Params, d: Dyn, hs: seq<Header>, h: Header)
    requires Shaped(p)
    ensures EncodeHeaders(p, d, hs + [h]).table == EncodeHeader(p, EncodeHeaders(p, d, hs).table, h).table
    decreases |hs|
  {
    hide EncodeHeader, Shaped;
    if hs == [] {
      assert [] + [h] == [h] && [h][1..] == [];
    } else {
      assert (hs + [h])[0] == hs[0] && (hs + [h])[1..] == hs[1..] + [h];
      EncodeSnoc(p, EncodeHeader(p, d, hs[0]).table, hs[1..], h);
    }
  }

  lemma {:induction false} EncodeConcat(p: Params, d: Dyn, a: seq<Header>, b: seq<Header>)
    requires Shaped(p)
    ensures EncodeHeaders(p, d, a + b).table == EncodeHeaders(p, EncodeHeaders(p, d, a).table, b).table
    decreases |a|
  {
    hide EncodeHeader, Shaped;
    if a == [] {
      assert a + b == b;
    } else {
      assert (a + b)[0] == a[0] && (a + b)[1..] == a[1..] + b;
      EncodeConcat(p, EncodeHeader(p, d, a[0]).table, a[1..], b);
    }
  }

  lemma NotedIsEncoded(p: Params, d: Dyn, log: Log, h: Header)
    requires Shaped(p)
    ensures EncodeHeader(p, Dyn(Held(d, log), d.maxSize), h).table == Dyn(Held(d, Noted(p, d, log, h)), d.maxSize)
  {
    hide Sensitive, Shaped, Literal, PrefixInt.Encode, Evict, TotalSize, Size;
    var before := log.added + if log.emptied then [] else d.entries;
    var held := Held(d, log);
    if !Sensitive(h.name) && h !in p.base && h !in held {
      if Size(h) <= d.maxSize {
        EvictTwice(before, d.maxSize, d.maxSize - Size(h));
        EvictCons(h, before, d.maxSize);
        assert [h] + before == ([h] + log.added) + if log.emptied then [] else d.entries;
      } else {
        var none: seq<Header> := [];
        EvictPrefix(none, d.maxSize);
        assert none + none == none;
      }
    }
  }

  /** The encoder's table is the log over the table it started with. */
  lemma {:induction false} EncodedTable(p: Params, d: Dyn, hs: seq<Header>)
    requires Shaped(p) && Fits(d)
    ensures EncodeHeaders(p, d, hs).table == Dyn(Held(d, Indexing(p, d, hs)), d.maxSize)
    decreases |hs|
  {
    hide EncodeHeader, Shaped, Noted;
    if hs == [] {
      assert [] + d.entries == d.entries;
    } else {
      var most, last := hs[..|hs| - 1], hs[|hs| - 1];
      assert hs == most + [last];
      EncodedTable(p, d, most);
      EncodeSnoc(p, d, most, last);
      NotedIsEncoded(p, d, Indexing(p, d, most), last);
    }
  }

  // When it is the table it started with

  ghost predicate Distinct(es: seq<Header>) {
    forall i, j :: 0 <= i < j < |es| ==> es[i] != es[j]
  }

  lemma EvictDistinct(es: seq<Header>, room: nat)
    requires Distinct(es)
    ensures Distinct(Evict(es, room))
  {
    EvictPrefix(es, room);
  }

  lemma {:induction false} EncodedDistinct(p: Params, d: Dyn, hs: seq<Header>)
    requires Shaped(p) && Distinct(d.entries)
    ensures Distinct(EncodeHeaders(p, d, hs).table.entries)
    decreases |hs|
  {
    hide Sensitive, Shaped, Literal, PrefixInt.Encode, Evict;
    if hs != [] {
      var h := hs[0];
      if !Sensitive(h.name) && Find(p.base, d.entries, h).None? && Size(h) <= d.maxSize {
        EvictDistinct(d.entries, d.maxSize - Size(h));
        EvictPrefix(d.entries, d.maxSize - Size(h));
      }
      EncodedDistinct(p, EncodeHeader(p, d, h).table, hs[1..]);
    }
  }

  /** Nothing was indexed or emptied, or the newly indexed headers alone are the old entries again. */
  predicate Unchanged(d: Dyn, log: Log) {
    if log.added == [] then !log.emptied || d.entries == []
    else Evict(log.added, d.maxSize) == d.entries
  }

  lemma HeldUnchanged(d: Dyn, log: Log)
    requires Fits(d) && Distinct(d.entries) && Distinct(Held(d, log))
    ensures Held(d, log) == d.entries <==> Unchanged(d, log)
  {
    hide TotalSize;
    var base := if log.emptied then [] else d.entries;
    var held := Held(d, log);
    EvictCut(log.added, base, d.maxSize);
    EvictPrefix(log.added + base, d.maxSize);
    if log.added == [] {
      assert log.added + base == base;
    } else if |held| > |log.added| {
      assert held[0] == log.added[0] && held[|log.added|] == base[0];
    }
  }

  /** Encoding a list ends with the table it started with if and only if its indexing left it unchanged. */
  lemma EncodedUnchanged(p: Params, d: Dyn, hs: seq<Header>)
    requires Shaped(p) && Fits(d) && Distinct(d.entries)
    ensures EncodeHeaders(p, d, hs).table == d <==> Unchanged(d, Indexing(p, d, hs))
  {
    hide EncodeHeaders, Indexing, Held, Unchanged, Distinct, Shaped;
    EncodedTable(p, d, hs);
    EncodedDistinct(p, d, hs);
    HeldUnchanged(d, Indexing(p, d, hs));
  }

  // Refused blocks

  /**
   A block over the list limit is refused. The decoder keeps the table the
   headers before the refused one left, and the tables are equal if and only if
   indexing from the refused header to the end of the list leaves that table
   unchanged. No table built by encoding holds an entry twice (`EncodedDistinct`).
   */
  lemma RefusedBlock(p: Params, d: Dyn, queued: Option<nat>, hs: seq<Header>, lim: Limits, listSize: nat)
    requires ParamsOk(p) && Shaped(p) && TableOk(d) && Distinct(d.entries) && UpdateOk(queued, lim) && AllEncodable(hs)
    requires hs != [] && listSize + ListSize(hs) > lim.maxList
    ensures var block, k := EncodeBlock(p, d, queued, hs), Accepted(listSize, hs, lim.maxList);
            var left := LastTable(p, block.bytes, lim, Ready(d, listSize));
            && DecodeBlock(p, d, lim, block.bytes, listSize).Err? && k < |hs|
            && left == EncodeHeaders(p, Resized(d, queued), hs[..k]).table
            && (left == block.table <==> Unchanged(left, Indexing(p, left, hs[k..])))
  {
    hide ParamsOk, Shaped, EncodeHeaders, DecodeBlock, LastTable, SizeUpdate, Resized, Indexing, Unchanged, AllEncodable,
         Accepted, ListSize;
    BlockRefused(p, d, queued, hs, lim, listSize);
    ResizedDistinct(d, queued);
    RestUnchanged(p, Resized(d, queued), hs, Accepted(listSize, hs, lim.maxList));
  }

  lemma ResizedDistinct(d: Dyn, queued: Option<nat>)
    requires Fits(d) && Distinct(d.entries)
    ensures Fits(Resized(d, queued)) && Distinct(Resized(d, queued).entries)
  {
    if queued.Some? {
      EvictDistinct(d.entries, queued.value);
    }
  }

  /** The rest of a list from its `k`-th header on changes nothing if and only if its indexing says so. */
  lemma RestUnchanged(p: Params, start: Dyn, hs: seq<Header>, k: nat)
    requires Shaped(p) && Fits(start) && Distinct(start.entries) && k <= |hs|
    ensures var left := EncodeHeaders(p, start, hs[..k]).table;
            left == EncodeHeaders(p, start, hs).table <==> Unchanged(left, Indexing(p, left, hs[k..]))
  {
    hide Shaped, EncodeHeaders, Indexing, Unchanged, Distinct, TotalSize;
    EncodedDistinct(p, start, hs[..k]);
    EncodedFits(p, start, hs[..k]);
    assert hs == hs[..k] + hs[k..];
    EncodeConcat(p, start, hs[..k], hs[k..]);
    EncodedUnchanged(p, EncodeHeaders(p, start, hs[..k]).table, hs[k..]);
  }

  lemma {:induction false} EncodedFits(p: Params, d: Dyn, hs: seq<Header>)
    requires Shaped(p) && Fits(d)
    ensures Fits(EncodeHeaders(p, d, hs).table)
    decreases |hs|
  {
    hide Shaped, Literal, Add, Sensitive;
    if hs != [] {
      EncodedFits(p, EncodeHeader(p, d, hs[0]).table, hs[1..]);
    }
  }

  /** With a size update over the cap the tables are equal if and only if it was no change and neither was the list. */
  lemma RefusedUpdate(p: Params, d: Dyn, size: nat, hs: seq<Header>, lim: Limits, listSize: nat)
    requires Shaped(p) && TableOk(d) && Distinct(d.entries) && lim.maxTable < size < PrefixInt.LIMIT
    ensures var block := EncodeBlock(p, d, Some(size), hs);
            var left := LastTable(p, block.bytes, lim, Ready(d, listSize));
            && DecodeBlock(p, d, lim, block.bytes, listSize) == Err(InvalidMaxSize) && left == d
            && (left == block.table <==> size == d.maxSize && Unchanged(d, Indexing(p, d, hs)))
  {
    hide Shaped, EncodeHeaders, DecodeBlock, LastTable, SizeUpdate, Indexing, Unchanged, Distinct;
    UpdateRefused(p, d, size, hs, lim, listSize);
    KeepsMaxSize(p, SetMax(d, size), hs);
    if size == d.maxSize {
      assert SetMax(d, size) == d;
      EncodedUnchanged(p, d, hs);
    }
  }

  lemma {:induction false} KeepsMaxSize(p: Params, d: Dyn, hs: seq<Header>)
    requires Shaped(p)
    ensures EncodeHeaders(p, d, hs).table.maxSize == d.maxSize
    decreases |hs|
  {
    hide Shaped, Literal, Evict, Sensitive;
    if hs != [] {
      KeepsMaxSize(p, EncodeHeader(p, d, hs[0]).table, hs[1..]);
    }
  }

  /** A cookie over the list limit, which is never indexed, hides the new header behind it from the decoder. */
  lemma CookieHidesNewHeader(p: Params, maxSize: nat)
    requires ParamsOk(p) && Shaped(p) && 33 <= maxSize < PrefixInt.LIMIT && Header([120], []) !in p.base
    ensures var h := Header([120], []); var hs := [Header(COOKIE, []), h];
            var d, lim := Dyn([], maxSize), Limits(maxSize, 5);
            var block := EncodeBlock(p, d, None, hs);
            && DecodeBlock(p, d, lim, block.bytes, 0).Err?
            && LastTable(p, block.bytes, lim, Ready(d, 0)) == d && block.table == Dyn([h], maxSize)
  {
    hide ParamsOk, Shaped, DecodeBlock, LastTable, EncodeBlock, Literal, PrefixInt.Encode;
    var cookie, h := Header(COOKIE, []), Header([120], []);
    var hs, d, lim := [cookie, h], Dyn([], maxSize), Limits(maxSize, 5);
    assert hs[1..] == [h] && [h][1..] == [] && hs[..0] == [];
    assert Accepted(0, hs, lim.maxList) == 0;
    assert HeaderSize(cookie) == 6 && ListSize([h]) == 1 + ListSize([]) == 1;
    BlockRefused(p, d, None, hs, lim, 0);
    assert Add(d, h) == Dyn([h], maxSize) by { assert [h] + [] == [h]; }
    assert EncodeHeaders(p, d, hs).table == EncodeHeaders(p, d, [h]).table == EncodeHeaders(p, Dyn([h], maxSize), []).table;
    BlockTable(p, d, hs);
  }

  lemma BlockTable(p: Params, d: Dyn, hs: seq<Header>)
    requires Shaped(p)
    ensures EncodeBlock(p, d, None, hs).table == EncodeHeaders(p, d, hs).table
  {
  }
}
