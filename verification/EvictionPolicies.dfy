/** insert_FIFO and insert_LRU over the slot array and the evicted set, and what insert_CLOCK shares with them. */
module EvictionPolicies {
  import opened CacheSpec
  import opened Memory
  import opened Ownership
  import opened CacheMethods
  import opened SetMethods

  /** Every block is owned once; extra are the strings of the request being served. */
  ghost predicate Owns(c: Cache, s: NameSet, h: Heap, extra: set<CString>)
    reads c, c.list, s, h
  {
    && c.Wf() && s.Valid()
    && Partition(c.Items(), s.Strings(), extra, h.items, h.strings)
  }

  lemma OwnsLive(c: Cache, s: NameSet, h: Heap, extra: set<CString>)
    requires Owns(c, s, h, extra)
    ensures c.Live(h) && s.Strings() <= h.strings && extra <= h.strings
    ensures Names(Entries(c.Items())) == TextsOf(c.Items())
  {
    forall i | 0 <= i < c.count ensures c.Items()[i] in h.items && c.Items()[i].data in h.strings {
      assert c.Items()[i] in c.Items();
    }
  }

  ghost function Abstract(c: Cache, s: NameSet): State
    requires c.Wf()
    reads c, c.list, s, c.Items()
  {
    State(Entries(c.Items()), s.Texts(), c.comMiss, c.capMiss)
  }

  /** cache_contains keeps every block with its owner. */
  method Lookup(c: Cache, data: CString, s: NameSet, h: Heap, setBit: bool) returns (hit: bool)
    requires Owns(c, s, h, {data})
    modifies c.Items()
    ensures Owns(c, s, h, {data})
    ensures hit == old(Hits(Abstract(c, s), data.text))
    ensures hit && setBit ==>
      Entries(c.Items())
        == old(Entries(c.Items()))[Index(old(Entries(c.Items())), data.text) := Entry(data.text, true)]
    ensures !hit || !setBit ==> Abstract(c, s) == old(Abstract(c, s))
  {
    OwnsLive(c, s, h, {data});
    hit := c.Contains(h, data, setBit);
  }

  /** The miss is counted as a capacity miss when the name was evicted before. */
  method Classify(c: Cache, data: CString, s: NameSet, h: Heap)
    requires Owns(c, s, h, {data})
    modifies c`comMiss, c`capMiss
    ensures Owns(c, s, h, {data})
    ensures c.capMiss == old(c.capMiss) + if data.text in s.Texts() then 1 else 0
    ensures c.comMiss == old(c.comMiss) + if data.text in s.Texts() then 0 else 1
    ensures c.Items() == old(c.Items()) && Entries(c.Items()) == old(Entries(c.Items()))
  {
    OwnsLive(c, s, h, {data});
    var known := s.Contains(h, data);
    if known {
      c.capMiss := c.capMiss + 1;
    } else {
      c.comMiss := c.comMiss + 1;
    }
  }

  /** A string leaves the caller's hands for the evicted set. */
  method AddEvicted(c: Cache, rem: CString, s: NameSet, h: Heap, ghost extra: set<CString>)
    requires Owns(c, s, h, extra) && rem in extra
    modifies s, h
    ensures Owns(c, s, h, extra - {rem})
    ensures s.Texts() == old(s.Texts()) + {rem.text}
    ensures h.items <= old(h.items)
  {
    OwnsLive(c, s, h, extra);
    ghost var strings := s.Strings();
    PartitionList(c.Items(), strings, extra, rem, h.items, h.strings);
    PartitionFree(c.Items(), strings, extra, rem, h.items, h.strings);
    var added := s.Add(h, rem);
    assert added ==> s.Strings() == strings + {rem};
  }

  /** remove_front: the oldest item is freed, its string is in hand. */
  method TakeFront(c: Cache, s: NameSet, h: Heap, ghost extra: set<CString>) returns (rem: CString)
    requires Owns(c, s, h, extra) && 0 < c.count
    modifies c`count, c.list, h
    ensures Owns(c, s, h, extra + {rem}) && rem !in extra
    ensures Entries(c.Items()) == old(Entries(c.Items()))[1..]
    ensures rem.text == old(Entries(c.Items()))[0].name
    ensures c.count == old(c.count) - 1
    ensures forall i :: c.count <= i < c.size ==> c.list[i] == old(c.list[i])
    ensures h.items <= old(h.items)
  {
    OwnsLive(c, s, h, extra);
    ghost var items, listed := c.Items(), s.Strings();
    PartitionDropFront(items, listed, extra, h.items, h.strings);
    var r := c.RemoveFront(h);
    rem := r;
    assert s.Strings() == listed;
    assert Partition(c.Items(), listed, extra + {rem}, h.items, h.strings);
  }

  /** remove_front and set_add: the oldest item goes, its name becomes an evicted one. */
  method EvictFront(c: Cache, s: NameSet, h: Heap, ghost extra: set<CString>)
    requires Owns(c, s, h, extra) && 0 < c.count
    modifies c`count, c.list, s, h
    ensures Owns(c, s, h, extra)
    ensures Entries(c.Items()) == old(Entries(c.Items()))[1..]
    ensures s.Texts() == old(s.Texts()) + {old(Entries(c.Items()))[0].name}
    ensures c.count == old(c.count) - 1
    ensures forall i :: c.count <= i < c.size ==> c.list[i] == old(c.list[i])
    ensures h.items <= old(h.items)
  {
    var rem := TakeFront(c, s, h, extra);
    AddEvicted(c, rem, s, h, extra + {rem});
    assert extra + {rem} - {rem} == extra;
  }

  /** cache_append of a string in hand whose name is not cached. Only the first free slot may hold a
      stale pointer, and it is the one overwritten. */
  method Admit(c: Cache, data: CString, s: NameSet, h: Heap, ghost extra: set<CString>)
    requires Owns(c, s, h, extra) && data in extra && data.text !in TextsOf(c.Items())
    requires c.count < c.size && forall i :: c.count < i < c.size ==> c.list[i] == null
    modifies c`count, c.list, h
    ensures c.Valid() && Owns(c, s, h, extra - {data})
    ensures Entries(c.Items()) == old(Entries(c.Items())) + [Entry(data.text, false)]
    ensures fresh(h.items - old(h.items))
  {
    OwnsLive(c, s, h, extra);
    ghost var items, liveItems, strings := c.Items(), h.items, h.strings;
    var ok := c.Append(h, data);
    assert ok;
    PartitionAdd(items, c.list[c.count - 1], s.Strings(), extra, liveItems, strings);
  }

  /** The eviction the order-keeping policies share: the front goes when every slot is taken. */
  method MakeRoom(c: Cache, data: CString, s: NameSet, h: Heap)
    requires c.Valid() && Owns(c, s, h, {data}) && data.text !in TextsOf(c.Items())
    modifies c`count, c.list, s, h
    ensures Owns(c, s, h, {data}) && data.text !in TextsOf(c.Items())
    ensures c.count < c.size && forall i :: c.count < i < c.size ==> c.list[i] == null
    ensures old(c.count) < c.size ==>
      Entries(c.Items()) == old(Entries(c.Items())) && s.Texts() == old(s.Texts())
    ensures old(c.count) == c.size ==>
      && Entries(c.Items()) == old(Entries(c.Items()))[1..]
      && s.Texts() == old(s.Texts()) + {old(Entries(c.Items()))[0].name}
    ensures h.items <= old(h.items)
  {
    if c.count == c.size {
      ghost var texts := Names(Entries(c.Items()));
      OwnsLive(c, s, h, {data});
      EvictFront(c, s, h, {data});
      OwnsLive(c, s, h, {data});
      assert Names(Entries(c.Items())) == texts[1..];
    }
  }

  /** The LRU hit: the cached string moves to a new item at the back, the request's is freed. */
  method Touch(c: Cache, data: CString, s: NameSet, h: Heap)
    requires c.Valid() && Owns(c, s, h, {data}) && Hits(Abstract(c, s), data.text)
    modifies c`count, c.list, h
    ensures c.Valid() && Owns(c, s, h, {})
    ensures Abstract(c, s) == Step(LRU, c.size, old(Abstract(c, s)), data.text)
    ensures fresh(h.items - old(h.items))
  {
    ghost var q := Entries(c.Items());
    ghost var i := Index(q, data.text);
    var rem := TakeOut(c, data, s, h, i);
    assert Entries(c.Items()) == q[..i] + q[i + 1..];
    Admit(c, rem, s, h, {data} + {rem});
    assert Entries(c.Items()) == q[..i] + q[i + 1..] + [Entry(data.text, false)];
    assert {data} + {rem} - {rem} == {data};
    Release(c, data, s, h);
  }

  /** remove_first of a cached name. */
  method TakeOut(c: Cache, data: CString, s: NameSet, h: Heap, ghost i: nat) returns (rem: CString)
    requires c.Valid() && Owns(c, s, h, {data})
    requires Hits(Abstract(c, s), data.text) && i == Index(Entries(c.Items()), data.text)
    modifies c`count, c.list, h
    ensures Owns(c, s, h, {data} + {rem}) && rem != data && rem.text == data.text
    ensures data.text !in TextsOf(c.Items())
    ensures c.count < c.size && forall j :: c.count < j < c.size ==> c.list[j] == null
    ensures Entries(c.Items()) == old(Entries(c.Items()))[..i] + old(Entries(c.Items()))[i + 1..]
    ensures h.items <= old(h.items)
  {
    OwnsLive(c, s, h, {data});
    ghost var items, rest := c.Items(), c.Items()[..i] + c.Items()[i + 1..];
    PartitionDrop(items, i, s.Strings(), {data}, h.items, h.strings);
    var r := c.RemoveFirst(h, data);
    rem := r;
    assert c.Items() == rest;
  }

  /** free of the request's own string. */
  method Release(c: Cache, data: CString, s: NameSet, h: Heap)
    requires Owns(c, s, h, {data})
    modifies h
    ensures Owns(c, s, h, {})
    ensures Entries(c.Items()) == old(Entries(c.Items()))
    ensures h.items <= old(h.items)
  {
    OwnsLive(c, s, h, {data});
    PartitionFree(c.Items(), s.Strings(), {data}, data, h.items, h.strings);
    assert {data} - {data} == {};
    h.FreeString(data);
  }

  /** The miss of insert_FIFO and insert_LRU. */
  method MissInOrder(p: Policy, c: Cache, data: CString, s: NameSet, h: Heap)
    requires !p.CLOCK? && c.Valid() && Owns(c, s, h, {data}) && !Hits(Abstract(c, s), data.text)
    modifies c`count, c`comMiss, c`capMiss, c.list, s, h
    ensures c.Valid() && Owns(c, s, h, {})
    ensures Abstract(c, s) == OnMiss(p, c.size, old(Abstract(c, s)), data.text)
    ensures fresh(h.items - old(h.items))
  {
    OwnsLive(c, s, h, {data});
    Classify(c, data, s, h);
    MakeRoom(c, data, s, h);
    Admit(c, data, s, h, {data});
    assert {data} - {data} == {};
  }

  method InsertFIFO(c: Cache, data: CString, s: NameSet, h: Heap) returns (hit: bool)
    requires c.Valid() && Owns(c, s, h, {data})
    modifies c, c.list, c.Items(), s, h
    ensures c.Valid() && Owns(c, s, h, {})
    ensures hit == old(Hits(Abstract(c, s), data.text))
    ensures Abstract(c, s) == Step(FIFO, c.size, old(Abstract(c, s)), data.text)
    ensures fresh(h.items - old(h.items))
  {
    hit := Lookup(c, data, s, h, false);
    if hit {
      Release(c, data, s, h);
      return true;
    }
    MissInOrder(FIFO, c, data, s, h);
    return false;
  }

  method InsertLRU(c: Cache, data: CString, s: NameSet, h: Heap) returns (hit: bool)
    requires c.Valid() && Owns(c, s, h, {data})
    modifies c, c.list, c.Items(), s, h
    ensures c.Valid() && Owns(c, s, h, {})
    ensures hit == old(Hits(Abstract(c, s), data.text))
    ensures Abstract(c, s) == Step(LRU, c.size, old(Abstract(c, s)), data.text)
    ensures fresh(h.items - old(h.items))
  {
    hit := Lookup(c, data, s, h, false);
    if hit {
      Touch(c, data, s, h);
      return true;
    }
    MissInOrder(LRU, c, data, s, h);
    return false;
  }
}
