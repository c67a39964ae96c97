/** The table object of `src/h2/hpack/table.rs`: the dynamic table plus lookup maps kept in step with it. */
module HpackTableObject {
  import opened Basics
  import opened HpackTable

  /** The static table with its two perfect-hash maps to the lowest index. */
  datatype Static = Static(table: seq<Header>, exact: map<Header, nat>, names: map<Bytes, nat>)

  ghost predicate StaticOk(s: Static) {
    ExactMap(s.exact, s.table, 1) && NameMap(s.names, s.table, 1)
  }

  class Table {
    const base: Static
    const maintainMaps: bool
    var entries: seq<Header>
    var size: nat
    var maxSize: nat
    var exact: map<Header, nat>
    var names: map<Bytes, nat>

    ghost function Model(): Dyn
      reads this
    {
      Dyn(entries, maxSize)
    }

    ghost predicate Indexed()
      reads this
    {
      maintainMaps ==> ExactMap(exact, entries, |base.table| + 1) && NameMap(names, entries, |base.table| + 1)
    }

    ghost predicate Valid()
      reads this
    {
      StaticOk(base) && size == TotalSize(entries) && Indexed()
    }

    constructor (base: Static, maxSize: nat, maintainMaps: bool)
      requires StaticOk(base)
      ensures Valid() && Model() == Dyn([], maxSize) && this.base == base && this.maintainMaps == maintainMaps
    {
      this.base, this.maxSize, this.maintainMaps := base, maxSize, maintainMaps;
      entries, size, exact, names := [], 0, map[], map[];
    }

    method GetEntry(index: nat) returns (r: Option<Header>)
      ensures r == Get(base.table, entries, index)
    {
      if index == 0 {
        return None;
      }
      if index <= |base.table| {
        return Some(base.table[index - 1]);
      }
      var k := index - |base.table| - 1;
      return if k < |entries| then Some(entries[k]) else None;
    }

    /** Scan for small tables, hash maps for large ones: the same answer either way. */
    method FindEntry(h: Header) returns (r: Option<nat>)
      requires Valid()
      ensures r == Find(base.table, entries, h)
    {
      if maintainMaps && |entries| > HYBRID_THRESHOLD {
        if h in base.exact {
          return Some(base.exact[h]);
        }
        return if h in exact then Some(exact[h]) else None;
      }
      var i := ScanFor(base.table, h);
      if i.Some? {
        return Some(i.value + 1);
      }
      i := ScanFor(entries, h);
      return if i.Some? then Some(|base.table| + 1 + i.value) else None;
    }

    method FindNamed(name: Bytes) returns (r: Option<nat>)
      requires Valid()
      ensures r == FindName(base.table, entries, name)
    {
      if maintainMaps && |entries| > HYBRID_THRESHOLD {
        if name in base.names {
          return Some(base.names[name]);
        }
        return if name in names then Some(names[name]) else None;
      }
      var i := ScanForName(base.table, name);
      if i.Some? {
        return Some(i.value + 1);
      }
      i := ScanForName(entries, name);
      return if i.Some? then Some(|base.table| + 1 + i.value) else None;
    }

    /** Removes the oldest entry and the map entries that pointed at it. */
    method PopOldest()
      requires Valid() && entries != []
      modifies this`entries, this`size, this`exact, this`names
      ensures Valid() && entries == old(entries)[..|old(entries)| - 1]
    {
      hide ExactMap, NameMap, StaticOk;
      var last := entries[|entries| - 1];
      if maintainMaps {
        ExactMapEvict(exact, entries, |base.table| + 1);
        NameMapEvict(names, entries, |base.table| + 1);
      }
      entries := entries[..|entries| - 1];
      size := size - Size(last);
      if maintainMaps {
        var combined := |base.table| + |entries| + 1;
        if last.name in names && names[last.name] == combined {
          names := names - {last.name};
        }
        if last in exact && exact[last] == combined {
          exact := exact - {last};
        }
      }
    }

    method EvictTo(room: nat)
      requires Valid()
      modifies this`entries, this`size, this`exact, this`names
      ensures Valid() && entries == Evict(old(entries), room)
    {
      while size > room
        invariant Valid() && Evict(entries, room) == Evict(old(entries), room)
        decreases size
      {
        PopOldest();
      }
    }

    method SetMaxSize(newMax: nat)
      requires Valid()
      modifies this
      ensures Valid() && Model() == SetMax(old(Model()), newMax)
    {
      maxSize := newMax;
      EvictTo(newMax);
    }

    method AddEntry(h: Header)
      requires Valid()
      modifies this
      ensures Valid() && Model() == Add(old(Model()), h)
    {
      hide ExactMap, NameMap, StaticOk, Evict;
      EmptyMaps(|base.table| + 1);
      if Size(h) > maxSize {
        entries, size := [], 0;
        if maintainMaps {
          exact, names := map[], map[];
        }
        return;
      }
      EvictTo(maxSize - Size(h));
      TotalSizeCons(h, entries);
      if maintainMaps {
        var bumpedExact := Bump(exact);
        var bumpedNames := Bump(names);
        ExactMapAdd(exact, bumpedExact, entries, |base.table| + 1, h);
        NameMapAdd(names, bumpedNames, entries, |base.table| + 1, h);
        exact := bumpedExact[h := |base.table| + 1];
        names := bumpedNames[h.name := |base.table| + 1];
      }
      entries := [h] + entries;
      size := size + Size(h);
    }
  }

  method ScanFor(es: seq<Header>, h: Header) returns (r: Option<nat>)
    ensures r == if h in es then Some(IndexOf(es, h)) else None
  {
    for i := 0 to |es|
      invariant h !in es[..i]
    {
      if es[i] == h {
        assert forall j :: 0 <= j < i ==> es[j] == es[..i][j];
        return Some(i);
      }
    }
    return None;
  }

  method ScanForName(es: seq<Header>, name: Bytes) returns (r: Option<nat>)
    ensures r == if HasName(es, name) then Some(NameIndexOf(es, name)) else None
  {
    for i := 0 to |es|
      invariant forall j :: 0 <= j < i ==> es[j].name != name
    {
      if es[i].name == name {
        return Some(i);
      }
    }
    return None;
  }
}
