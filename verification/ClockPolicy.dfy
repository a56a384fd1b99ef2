/** insert_CLOCK: the slot array as a ring with a hand. */
module ClockPolicy {
  import opened CacheSpec
  import opened CacheClock
  import opened Memory
  import opened Ownership
  import opened CacheMethods
  import opened SetMethods
  import opened EvictionPolicies

  /** The int behind the clockhand pointer. */
  class Hand {
    var at: int

    constructor ()
      ensures at == 0
    {
      at := 0;
    }

    /** The step to the next slot, round to the first one after the last. */
    method Advance(size: int)
      requires 0 <= at < size
      modifies this
      ensures at == (old(at) + 1) % size
      ensures 0 <= at < size && (at == old(at) + 1 || (at == 0 && old(at) + 1 == size))
    {
      at := (at + 1) % size;
    }
  }

  /** The hand is on a slot; while the cache is filling it is on the first free one. */
  ghost predicate HandOk(c: Cache, hand: Hand)
    reads c, c.list, hand
  {
    && c.Wf()
    && 0 <= hand.at < c.size
    && (c.count < c.size ==> hand.at == c.count)
  }

  /** The cache read from the hand round. */
  ghost function Ring(c: Cache, hand: Hand): (q: seq<Entry>)
    requires HandOk(c, hand)
    reads c, c.list, hand, c.Items()
    ensures |q| == c.count
  {
    RingView(Entries(c.Items()), hand.at)
  }

  ghost function AbstractRing(c: Cache, s: NameSet, hand: Hand): State
    requires HandOk(c, hand)
    reads c, c.list, s, hand, c.Items()
  {
    State(Ring(c, hand), s.Texts(), c.comMiss, c.capMiss)
  }

  lemma RingFront(slots: seq<Entry>, hand: nat)
    requires hand < |slots|
    ensures RingView(slots, hand)[0] == slots[hand]
  {
  }

  lemma RingMembers(slots: seq<Entry>, hand: nat, x: Name)
    requires hand <= |slots|
    ensures x in Names(RingView(slots, hand)) <==> x in Names(slots)
  {
    assert Names(RingView(slots, hand)) == Names(slots)[hand..] + Names(slots)[..hand];
    assert Names(slots) == Names(slots)[..hand] + Names(slots)[hand..];
  }

  /** An inspected slot with a set bit: the bit is cleared and the hand moves on. */
  method Inspect(c: Cache, hand: Hand)
    requires c.Valid() && HandOk(c, hand) && c.list[hand.at] != null && c.list[hand.at].refBit
    modifies c.Items(), hand
    ensures HandOk(c, hand) && Ring(c, hand) == Rotate(old(Ring(c, hand)))
  {
    ghost var slots := Entries(c.Items());
    RingInspect(slots, hand.at);
    assert c.list[hand.at] == c.Items()[hand.at];
    assert c.count == c.size;
    c.SetRefBit(hand.at, false);
    assert Entries(c.Items()) == slots[hand.at := Entry(slots[hand.at].name, false)];
    hand.Advance(c.size);
  }

  /** The inspected slot with a clear bit gets the new item; the old one is freed, its string is in
      hand. */
  method PlaceAtHand(c: Cache, data: CString, s: NameSet, h: Heap, hand: Hand) returns (rem: CString)
    requires c.Valid() && Owns(c, s, h, {data}) && HandOk(c, hand)
    requires c.list[hand.at] != null && data.text !in TextsOf(c.Items())
    modifies c.list, h
    ensures c.Valid() && Owns(c, s, h, {rem})
    ensures rem.text == old(Entries(c.Items()))[hand.at].name
    ensures Entries(c.Items()) == old(Entries(c.Items()))[hand.at := Entry(data.text, false)]
    ensures fresh(h.items - old(h.items))
  {
    OwnsLive(c, s, h, {data});
    ghost var items, liveItems, i := c.Items(), h.items, hand.at;
    var current := c.list[hand.at];
    assert current == items[i];
    var newItem := h.CreateItem(data);
    ghost var rest, strings := items[i := newItem], h.strings;
    PartitionReplace(items, i, newItem, s.Strings(), {data}, liveItems, strings);
    c.list[hand.at] := newItem;
    rem := current.data;
    h.FreeItem(current);
    assert {data} - {data} + {rem} == {rem};
    assert c.Items() == rest;
    assert Partition(rest, s.Strings(), {rem}, h.items, h.strings);
  }

  /** The old item's name is added to the evicted ones. */
  method ReplaceAtHand(c: Cache, data: CString, s: NameSet, h: Heap, hand: Hand)
    requires c.Valid() && Owns(c, s, h, {data}) && HandOk(c, hand)
    requires c.list[hand.at] != null && data.text !in TextsOf(c.Items())
    modifies c.list, s, h
    ensures c.Valid() && Owns(c, s, h, {})
    ensures s.Texts() == old(s.Texts()) + {old(Entries(c.Items()))[hand.at].name}
    ensures Entries(c.Items()) == old(Entries(c.Items()))[hand.at := Entry(data.text, false)]
    ensures fresh(h.items - old(h.items))
  {
    var rem := PlaceAtHand(c, data, s, h, hand);
    AddEvicted(c, rem, s, h, {rem});
    assert {rem} - {rem} == {};
  }

  /** The eviction at the hand and the step past the new item. */
  method Evict(c: Cache, data: CString, s: NameSet, h: Heap, hand: Hand)
    requires c.Valid() && Owns(c, s, h, {data}) && HandOk(c, hand) && c.count == c.size
    requires !c.list[hand.at].refBit && data.text !in TextsOf(c.Items())
    modifies c.list, s, h, hand
    ensures c.Valid() && Owns(c, s, h, {}) && HandOk(c, hand)
    ensures Ring(c, hand) == old(Ring(c, hand))[1..] + [Entry(data.text, false)]
    ensures s.Texts() == old(s.Texts()) + {old(Ring(c, hand))[0].name}
    ensures fresh(h.items - old(h.items))
  {
    RingOverwrite(Entries(c.Items()), hand.at, Entry(data.text, false));
    ReplaceAtHand(c, data, s, h, hand);
    hand.Advance(c.size);
  }

  /** The append to a cache that is still filling and the step past the new item. */
  method Fill(c: Cache, data: CString, s: NameSet, h: Heap, hand: Hand)
    requires c.Valid() && Owns(c, s, h, {data}) && HandOk(c, hand) && c.count < c.size
    requires data.text !in TextsOf(c.Items())
    modifies c`count, c.list, h, hand
    ensures c.Valid() && Owns(c, s, h, {}) && HandOk(c, hand)
    ensures Ring(c, hand) == old(Ring(c, hand)) + [Entry(data.text, false)]
    ensures fresh(h.items - old(h.items))
  {
    ghost var slots := Entries(c.Items());
    assert |slots| == hand.at && Ring(c, hand) == RingView(slots, |slots|);
    Admit(c, data, s, h, {data});
    assert {data} - {data} == {};
    assert Entries(c.Items()) == slots + [Entry(data.text, false)];
    hand.Advance(c.size);
    RingFill(slots, c.size, Entry(data.text, false));
  }

  /** The slots the eviction loop looks at from queue q. */
  ghost function Looks(k: nat, q: seq<Entry>): nat
    requires 0 < k
  {
    if |q| == k then Inspections(q) else 1
  }

  /** The queue with the slot the eviction loop stops at in front. */
  ghost function Stop(k: nat, q: seq<Entry>): seq<Entry>
    requires 0 < k
  {
    if |q| == k then SecondChance(q) else q
  }

  /** The eviction loop, up to the slot it stops at. */
  method Search(c: Cache, hand: Hand) returns (ghost inspected: nat)
    requires c.Valid() && HandOk(c, hand)
    modifies c.Items(), hand
    ensures HandOk(c, hand) && Ring(c, hand) == Stop(c.size, old(Ring(c, hand)))
    ensures c.list[hand.at] == null <==> c.count < c.size
    ensures c.list[hand.at] != null ==> !c.list[hand.at].refBit
    ensures inspected == Looks(c.size, old(Ring(c, hand)))
  {
    ghost var q := Ring(c, hand);
    inspected := 1;
    while c.list[hand.at] != null && c.list[hand.at].refBit
      invariant HandOk(c, hand)
      invariant Stop(c.size, Ring(c, hand)) == Stop(c.size, q)
      invariant inspected - 1 + Looks(c.size, Ring(c, hand)) == Looks(c.size, q)
      decreases SetBits(Ring(c, hand))
    {
      assert c.Items()[hand.at] == c.list[hand.at];
      RingFront(Entries(c.Items()), hand.at);
      RotateSetBits(Ring(c, hand));
      Inspect(c, hand);
      inspected := inspected + 1;
    }
  }

  /** The miss: the loop's inspections, then the append or the eviction it ends with. */
  method MissCLOCK(c: Cache, data: CString, s: NameSet, h: Heap, hand: Hand) returns (ghost inspected: nat)
    requires c.Valid() && Owns(c, s, h, {data}) && HandOk(c, hand)
    requires data.text !in TextsOf(c.Items())
    modifies c`count, c.list, c.Items(), s, h, hand
    ensures c.Valid() && Owns(c, s, h, {}) && HandOk(c, hand)
    ensures inspected == Looks(c.size, old(Ring(c, hand)))
    ensures var q := Stop(c.size, old(Ring(c, hand)));
      if old(c.count) < c.size then
        Ring(c, hand) == q + [Entry(data.text, false)] && s.Texts() == old(s.Texts())
      else
        Ring(c, hand) == q[1..] + [Entry(data.text, false)] && s.Texts() == old(s.Texts()) + {q[0].name}
    ensures fresh(h.items - old(h.items))
  {
    inspected := Search(c, hand);
    if c.list[hand.at] == null {
      Fill(c, data, s, h, hand);
    } else {
      Evict(c, data, s, h, hand);
    }
  }

  /** Counting the miss and serving it. */
  method ServeMiss(c: Cache, data: CString, s: NameSet, h: Heap, hand: Hand) returns (ghost inspected: nat)
    requires c.Valid() && Owns(c, s, h, {data}) && HandOk(c, hand)
    requires data.text !in TextsOf(c.Items()) && !Hits(AbstractRing(c, s, hand), data.text)
    modifies c`count, c`comMiss, c`capMiss, c.list, c.Items(), s, h, hand
    ensures c.Valid() && Owns(c, s, h, {}) && HandOk(c, hand)
    ensures AbstractRing(c, s, hand) == Step(CLOCK, c.size, old(AbstractRing(c, s, hand)), data.text)
    ensures inspected == Looks(c.size, old(Ring(c, hand)))
    ensures fresh(h.items - old(h.items))
  {
    Classify(c, data, s, h);
    assert Ring(c, hand) == old(Ring(c, hand));
    inspected := MissCLOCK(c, data, s, h, hand);
  }

  method InsertCLOCK(c: Cache, data: CString, s: NameSet, h: Heap, hand: Hand)
    returns (hit: bool, ghost inspected: nat)
    requires c.Valid() && Owns(c, s, h, {data}) && HandOk(c, hand)
    modifies c, c.list, c.Items(), s, h, hand
    ensures c.Valid() && Owns(c, s, h, {}) && HandOk(c, hand)
    ensures hit == old(Hits(AbstractRing(c, s, hand), data.text))
    ensures AbstractRing(c, s, hand) == Step(CLOCK, c.size, old(AbstractRing(c, s, hand)), data.text)
    ensures !hit ==> inspected == Looks(c.size, old(Ring(c, hand))) <= c.size + 1
    ensures fresh(h.items - old(h.items))
  {
    inspected := 0;
    ghost var before := AbstractRing(c, s, hand);
    hit := LookupRing(c, data, s, h, hand);
    if hit {
      Release(c, data, s, h);
      assert AbstractRing(c, s, hand) == before.(queue := OnHit(CLOCK, before.queue, data.text));
      return;
    }
    assert AbstractRing(c, s, hand) == before;
    LooksBound(c.size, before.queue);
    inspected := ServeMiss(c, data, s, h, hand);
  }

  lemma LooksBound(k: nat, q: seq<Entry>)
    requires 0 < k
    ensures Looks(k, q) <= k + 1
  {
    if |q| == k { SecondChanceVictim(q); }
  }

  /** cache_contains with setBit, seen on the ring. */
  method LookupRing(c: Cache, data: CString, s: NameSet, h: Heap, hand: Hand) returns (hit: bool)
    requires c.Valid() && Owns(c, s, h, {data}) && HandOk(c, hand)
    modifies c.Items()
    ensures c.Valid() && Owns(c, s, h, {data}) && HandOk(c, hand)
    ensures hit == old(Hits(AbstractRing(c, s, hand), data.text))
    ensures hit ==> Ring(c, hand) == OnHit(CLOCK, old(Ring(c, hand)), data.text)
    ensures !hit ==> Ring(c, hand) == old(Ring(c, hand)) && data.text !in TextsOf(c.Items())
  {
    ghost var slots, x := Entries(c.Items()), data.text;
    RingMembers(slots, hand.at, x);
    OwnsLive(c, s, h, {data});
    hit := Lookup(c, data, s, h, true);
    if hit {
      RingHit(slots, hand.at, Index(slots, x), x);
    }
  }
}
