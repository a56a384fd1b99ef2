/** Who owns each block: one cache slot, the evicted set, or the request being served. */
module Ownership {
  import opened Seqs
  import opened CacheSpec
  import opened Memory

  ghost function TextsOf(items: seq<Item>): (r: seq<Name>)
    ensures |r| == |items| && forall i :: 0 <= i < |items| ==> r[i] == items[i].data.text
  {
    seq(|items|, i requires 0 <= i < |items| => items[i].data.text)
  }

  ghost function DataOf(items: seq<Item>): set<CString> {
    set i | i in items :: i.data
  }

  /** The allocated items are those in the slots. Each live string is in one slot, is one entry of
      the evicted set, or is one of extra. No name is in two slots, so neither is a string. */
  ghost predicate Partition(items: seq<Item>, listed: set<CString>, extra: set<CString>,
                            liveItems: set<Item>, liveStrings: set<CString>) {
    && Unique(items) && Unique(TextsOf(items))
    && liveItems == SetOf(items)
    && liveStrings == DataOf(items) + listed + extra
    && DataOf(items) !! listed !! extra
  }

  lemma DropItem(items: seq<Item>, i: nat, rest: seq<Item>)
    requires i < |items| && Unique(items) && Unique(TextsOf(items))
    requires rest == items[..i] + items[i + 1..]
    ensures Unique(rest) && Unique(TextsOf(rest))
    ensures SetOf(rest) == SetOf(items) - {items[i]}
    ensures DataOf(rest) == DataOf(items) - {items[i].data}
    ensures items[i].data in DataOf(items)
    ensures items[i].data.text !in TextsOf(rest)
  {
    assert forall j :: 0 <= j < |rest| ==>
      rest[j] == items[if j < i then j else j + 1] && TextsOf(rest)[j] == TextsOf(items)[if j < i then j else j + 1];
    assert forall j :: 0 <= j < |items| && j != i ==> items[j] == rest[if j < i then j else j - 1];
    assert forall j :: 0 <= j < |items| && j != i ==> TextsOf(items)[j] != TextsOf(items)[i];
    assert items[i] in items;
  }

  /** Taking item i out of its slot and freeing it puts its string into the caller's hands. */
  lemma PartitionDrop(items: seq<Item>, i: nat, listed: set<CString>, extra: set<CString>,
                      liveItems: set<Item>, liveStrings: set<CString>)
    requires i < |items| && Partition(items, listed, extra, liveItems, liveStrings)
    ensures Partition(items[..i] + items[i + 1..], listed, extra + {items[i].data},
                      liveItems - {items[i]}, liveStrings)
    ensures items[i].data !in extra && items[i].data.text !in TextsOf(items[..i] + items[i + 1..])
  {
    DropItem(items, i, items[..i] + items[i + 1..]);
  }

  lemma PartitionDropFront(items: seq<Item>, listed: set<CString>, extra: set<CString>,
                           liveItems: set<Item>, liveStrings: set<CString>)
    requires items != [] && Partition(items, listed, extra, liveItems, liveStrings)
    ensures Partition(items[1..], listed, extra + {items[0].data}, liveItems - {items[0]}, liveStrings)
    ensures items[0].data !in extra
  {
    assert items[..0] + items[0 + 1..] == items[1..];
    DropItem(items, 0, items[1..]);
  }

  /** Wrapping a string in hand in a new item and giving it a slot. */
  lemma PartitionAdd(items: seq<Item>, item: Item, listed: set<CString>, extra: set<CString>,
                     liveItems: set<Item>, liveStrings: set<CString>)
    requires Partition(items, listed, extra, liveItems, liveStrings)
    requires item.data in extra && item !in liveItems && item.data.text !in TextsOf(items)
    ensures Partition(items + [item], listed, extra - {item.data}, liveItems + {item}, liveStrings)
  {
    SetOfSnoc(items, item);
    assert TextsOf(items + [item]) == TextsOf(items) + [item.data.text];
    assert forall j :: j in items + [item] <==> j in items || j == item;
    assert DataOf(items + [item]) == DataOf(items) + {item.data} by {
      assert item in items + [item];
    }
    assert forall j :: 0 <= j < |items| ==> items[j] in SetOf(items);
  }

  /** A string in hand joins the evicted set. */
  lemma PartitionList(items: seq<Item>, listed: set<CString>, extra: set<CString>, p: CString,
                      liveItems: set<Item>, liveStrings: set<CString>)
    requires Partition(items, listed, extra, liveItems, liveStrings) && p in extra
    ensures Partition(items, listed + {p}, extra - {p}, liveItems, liveStrings)
  {
  }

  /** A string in hand is freed. */
  lemma PartitionFree(items: seq<Item>, listed: set<CString>, extra: set<CString>, p: CString,
                      liveItems: set<Item>, liveStrings: set<CString>)
    requires Partition(items, listed, extra, liveItems, liveStrings) && p in extra
    ensures Partition(items, listed, extra - {p}, liveItems, liveStrings - {p})
  {
  }

  lemma ReplaceItem(items: seq<Item>, i: nat, item: Item)
    requires i < |items| && Unique(items) && Unique(TextsOf(items))
    requires item !in items && item.data.text !in TextsOf(items)
    ensures Unique(items[i := item]) && Unique(TextsOf(items[i := item]))
    ensures SetOf(items[i := item]) == SetOf(items) - {items[i]} + {item}
    ensures DataOf(items[i := item]) == DataOf(items) - {items[i].data} + {item.data}
    ensures items[i].data in DataOf(items)
  {
    var items' := items[i := item];
    assert forall j :: 0 <= j < |items| ==> items[j] in items && TextsOf(items)[j] == items[j].data.text;
    assert forall j :: 0 <= j < |items| && j != i ==> items'[j] == items[j] && items[j] != items[i];
    assert items'[i] == item;
    assert forall x :: x in items' <==> x == item || (x in items && x != items[i]);
  }

  /** A new item takes over slot i; the item that was there is freed, its string is in hand. */
  lemma PartitionReplace(items: seq<Item>, i: nat, item: Item, listed: set<CString>,
                         extra: set<CString>, liveItems: set<Item>, liveStrings: set<CString>)
    requires i < |items| && Partition(items, listed, extra, liveItems, liveStrings)
    requires item.data in extra && item !in liveItems && item.data.text !in TextsOf(items)
    ensures Partition(items[i := item], listed, extra - {item.data} + {items[i].data},
                      liveItems + {item} - {items[i]}, liveStrings)
    ensures items[i].data !in extra
  {
    assert item !in SetOf(items) && items[i] in SetOf(items);
    ReplaceItem(items, i, item);
  }
}
