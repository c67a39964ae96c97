/**
 HPACK header tables (sections 2.3 and 4 of RFC 7541): the dynamic table as a
 value, and the object of `src/h2/hpack/table.rs` that adds lookup maps to it.
 The static table is a parameter.
 */
module HpackTable {
  import opened Basics

  const ENTRY_OVERHEAD: nat := 32
  const HYBRID_THRESHOLD: nat := 32

  datatype Header = Header(name: Bytes, value: Bytes)

  function Size(h: Header): nat {
    ENTRY_OVERHEAD + |h.name| + |h.value|
  }

  function TotalSize(es: seq<Header>): nat {
    if es == [] then 0 else TotalSize(es[..|es| - 1]) + Size(es[|es| - 1])
  }

  /** Dynamic entries, newest first. */
  datatype Dyn = Dyn(entries: seq<Header>, maxSize: nat)

  predicate Fits(d: Dyn) {
    TotalSize(d.entries) <= d.maxSize
  }

  /** Drops the oldest entries until the rest fits into `room`. */
  function Evict(es: seq<Header>, room: nat): (r: seq<Header>)
    ensures TotalSize(r) <= room
  {
    if TotalSize(es) <= room then es else Evict(es[..|es| - 1], room)
  }

  function SetMax(d: Dyn, maxSize: nat): (r: Dyn)
    ensures Fits(r)
  {
    Dyn(Evict(d.entries, maxSize), maxSize)
  }

  function Add(d: Dyn, h: Header): (r: Dyn)
    ensures Fits(r)
  {
    if Size(h) > d.maxSize then Dyn([], d.maxSize)
    else
      var kept := Evict(d.entries, d.maxSize - Size(h));
      TotalSizeCons(h, kept);
      Dyn([h] + kept, d.maxSize)
  }

  lemma {:induction false} TotalSizeCons(h: Header, es: seq<Header>)
    ensures TotalSize([h] + es) == Size(h) + TotalSize(es)
  {
    var all := [h] + es;
    if es == [] {
      assert all[..0] == [];
    } else {
      assert all[..|all| - 1] == [h] + es[..|es| - 1];
      TotalSizeCons(h, es[..|es| - 1]);
    }
  }

  /** Eviction keeps the longest run of newest entries that fits. */
  lemma {:induction false} EvictLongest(es: seq<Header>, room: nat)
    ensures Evict(es, room) <= es
    ensures forall n :: 0 <= n <= |es| && TotalSize(es[..n]) <= room ==> n <= |Evict(es, room)|
  {
    if TotalSize(es) > room {
      var shorter := es[..|es| - 1];
      EvictLongest(shorter, room);
      assert es[..|es|] == es;
      forall n | 0 <= n < |es| && TotalSize(es[..n]) <= room ensures n <= |Evict(es, room)| {
        assert shorter[..n] == es[..n];
      }
    }
  }

  lemma {:induction false} EntryCount(es: seq<Header>)
    ensures ENTRY_OVERHEAD * |es| <= TotalSize(es)
  {
    if es != [] {
      EntryCount(es[..|es| - 1]);
    }
  }

  // Lookup by scanning

  function IndexOf(es: seq<Header>, h: Header): (i: nat)
    requires h in es
    ensures i < |es| && es[i] == h && forall j :: 0 <= j < i ==> es[j] != h
  {
    if es[0] == h then 0 else 1 + IndexOf(es[1..], h)
  }

  predicate HasName(es: seq<Header>, name: Bytes) {
    exists i :: 0 <= i < |es| && es[i].name == name
  }

  function NameIndexOf(es: seq<Header>, name: Bytes): (i: nat)
    requires HasName(es, name)
    ensures i < |es| && es[i].name == name && forall j :: 0 <= j < i ==> es[j].name != name
  {
    if es[0].name == name then 0
    else
      assert HasName(es[1..], name) by {
        var k :| 0 <= k < |es| && es[k].name == name;
        assert es[1..][k - 1].name == name;
      }
      1 + NameIndexOf(es[1..], name)
  }

  /** The entry at a 1-based index: static first, then dynamic, newest first. */
  function Get(base: seq<Header>, es: seq<Header>, index: nat): Option<Header> {
    if index == 0 then None
    else if index <= |base| then Some(base[index - 1])
    else if index - |base| <= |es| then Some(es[index - |base| - 1])
    else None
  }

  function Find(base: seq<Header>, es: seq<Header>, h: Header): (r: Option<nat>)
    ensures r.Some? ==> Get(base, es, r.value) == Some(h) && 0 < r.value <= |base| + |es|
    ensures r.None? ==> h !in base && h !in es
  {
    if h in base then Some(IndexOf(base, h) + 1)
    else if h in es then Some(|base| + 1 + IndexOf(es, h))
    else None
  }

  function FindName(base: seq<Header>, es: seq<Header>, name: Bytes): (r: Option<nat>)
    ensures r.Some? ==>
              && 0 < r.value <= |base| + |es|
              && Get(base, es, r.value).Some? && Get(base, es, r.value).value.name == name
    ensures r.None? ==> !HasName(base, name) && !HasName(es, name)
  {
    if HasName(base, name) then Some(NameIndexOf(base, name) + 1)
    else if HasName(es, name) then Some(|base| + 1 + NameIndexOf(es, name))
    else None
  }

  // The lookup maps

  /** The map holds the combined index of the newest occurrence of every entry. */
  ghost predicate ExactMap(exact: map<Header, nat>, es: seq<Header>, offset: nat) {
    && (forall h :: h in exact <==> h in es)
    && (forall h :: h in exact ==> exact[h] == offset + IndexOf(es, h))
  }

  ghost predicate NameMap(names: map<Bytes, nat>, es: seq<Header>, offset: nat) {
    && (forall n :: n in names <==> HasName(es, n))
    && (forall n :: n in names ==> names[n] == offset + NameIndexOf(es, n))
  }

  /** Every stored index moves up by one. */
  method Bump<K(==)>(m: map<K, nat>) returns (r: map<K, nat>)
    ensures r.Keys == m.Keys && forall k :: k in m ==> r[k] == m[k] + 1
  {
    r := map[];
    var todo := m.Keys;
    while todo != {}
      invariant todo <= m.Keys && r.Keys == m.Keys - todo
      invariant forall k :: k in r ==> r[k] == m[k] + 1
      decreases |todo|
    {
      var k :| k in todo;
      todo := todo - {k};
      r := r[k := m[k] + 1];
    }
  }

  lemma IndexOfSnoc(es: seq<Header>, h: Header)
    requires es != [] && h in es
    ensures h in es[..|es| - 1] ==> IndexOf(es, h) == IndexOf(es[..|es| - 1], h)
    ensures h !in es[..|es| - 1] ==> h == es[|es| - 1] && IndexOf(es, h) == |es| - 1
  {
    var front := es[..|es| - 1];
    assert es == front + [es[|es| - 1]];
    if h in front {
      assert es[IndexOf(front, h)] == h;
    }
  }

  lemma NameIndexOfSnoc(es: seq<Header>, n: Bytes)
    requires es != [] && HasName(es, n)
    ensures HasName(es[..|es| - 1], n) ==> NameIndexOf(es, n) == NameIndexOf(es[..|es| - 1], n)
    ensures !HasName(es[..|es| - 1], n) ==> n == es[|es| - 1].name && NameIndexOf(es, n) == |es| - 1
  {
    hide NameIndexOf, HasName;
    HasNameSnoc(es, n);
    var front, i := es[..|es| - 1], NameIndexOf(es, n);
    if HasName(front, n) {
      var j := NameIndexOf(front, n);
      assert es[j].name == n;
      assert i < |front| ==> front[i].name == n;
    } else {
      NoNameInside(front, n);
    }
  }

  lemma NoNameInside(es: seq<Header>, n: Bytes)
    requires !HasName(es, n)
    ensures forall i :: 0 <= i < |es| ==> es[i].name != n
  {
  }

  lemma NameIndexOfCons(h: Header, es: seq<Header>, n: Bytes)
    requires HasName([h] + es, n)
    ensures NameIndexOf([h] + es, n) == if n == h.name then 0 else (HasNameCons(h, es, n); 1 + NameIndexOf(es, n))
  {
    assert ([h] + es)[1..] == es;
  }

  /** Dropping the oldest entry: its key goes exactly when the stored index is the dropped one. */
  lemma ExactMapEvict(exact: map<Header, nat>, es: seq<Header>, offset: nat)
    requires ExactMap(exact, es, offset) && es != []
    ensures var last := es[|es| - 1];
            && last in exact
            && var r := if exact[last] == offset + |es| - 1 then exact - {last} else exact;
            ExactMap(r, es[..|es| - 1], offset)
  {
    hide IndexOf;
    var last, front := es[|es| - 1], es[..|es| - 1];
    assert es == front + [last];
    assert last in es;
    forall h | h in es ensures h in front ==> IndexOf(es, h) == IndexOf(front, h)
                       ensures h !in front ==> h == last && IndexOf(es, h) == |es| - 1 {
      IndexOfSnoc(es, h);
    }
  }

  lemma NameMapEvict(names: map<Bytes, nat>, es: seq<Header>, offset: nat)
    requires NameMap(names, es, offset) && es != []
    ensures var last := es[|es| - 1].name;
            && last in names
            && var r := if names[last] == offset + |es| - 1 then names - {last} else names;
            NameMap(r, es[..|es| - 1], offset)
  {
    var last, front := es[|es| - 1].name, es[..|es| - 1];
    assert HasName(es, last);
    forall n ensures HasName(es, n) <==> HasName(front, n) || n == last {
      HasNameSnoc(es, n);
    }
    forall n | HasName(es, n) ensures HasName(front, n) ==> NameIndexOf(es, n) == NameIndexOf(front, n)
                              ensures !HasName(front, n) ==> n == last && NameIndexOf(es, n) == |es| - 1 {
      NameIndexOfSnoc(es, n);
    }
  }

  lemma HasNameSnoc(es: seq<Header>, n: Bytes)
    requires es != []
    ensures HasName(es, n) <==> HasName(es[..|es| - 1], n) || n == es[|es| - 1].name
  {
    var front := es[..|es| - 1];
    if HasName(es, n) && n != es[|es| - 1].name {
      var i :| 0 <= i < |es| && es[i].name == n;
      assert front[i].name == n;
    }
    if HasName(front, n) {
      var i :| 0 <= i < |front| && front[i].name == n;
      assert es[i].name == n;
    }
  }

  lemma EmptyMaps(offset: nat)
    ensures ExactMap(map[], [], offset) && NameMap(map[], [], offset)
  {
  }

  lemma ExactMapAdd(exact: map<Header, nat>, bumped: map<Header, nat>, es: seq<Header>, offset: nat, h: Header)
    requires ExactMap(exact, es, offset)
    requires bumped.Keys == exact.Keys && forall k :: k in exact ==> bumped[k] == exact[k] + 1
    ensures ExactMap(bumped[h := offset], [h] + es, offset)
  {
    var all := [h] + es;
    assert all[1..] == es;
    forall k ensures k in bumped[h := offset] <==> k in all {}
  }

  lemma NameMapAdd(names: map<Bytes, nat>, bumped: map<Bytes, nat>, es: seq<Header>, offset: nat, h: Header)
    requires NameMap(names, es, offset)
    requires bumped.Keys == names.Keys && forall k :: k in names ==> bumped[k] == names[k] + 1
    ensures NameMap(bumped[h.name := offset], [h] + es, offset)
  {
    hide NameIndexOf, HasName;
    var all, r := [h] + es, bumped[h.name := offset];
    forall n ensures n in r <==> HasName(all, n) {
      HasNameCons(h, es, n);
    }
    forall n | n in r ensures r[n] == offset + NameIndexOf(all, n) {
      HasNameCons(h, es, n);
      NameIndexOfCons(h, es, n);
    }
  }

  lemma HasNameCons(h: Header, es: seq<Header>, n: Bytes)
    ensures HasName([h] + es, n) <==> HasName(es, n) || n == h.name
  {
    var all := [h] + es;
    if HasName(es, n) {
      var i :| 0 <= i < |es| && es[i].name == n;
      assert all[i + 1].name == n;
    }
    if n == h.name { assert all[0].name == n; }
    if HasName(all, n) && n != h.name {
      var i :| 0 <= i < |all| && all[i].name == n;
      assert es[i - 1].name == n;
    }
  }
}
