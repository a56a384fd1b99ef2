/** The slot array of the cache simulator. */
module CacheMethods {
  import opened CacheSpec
  import opened Memory

  /** The entries the items stand for. */
  ghost function Entries(items: seq<Item>): (q: seq<Entry>)
    reads items
    ensures |q| == |items|
    ensures forall i :: 0 <= i < |items| ==> q[i] == Entry(items[i].data.text, items[i].refBit)
  {
    seq(|items|, i requires 0 <= i < |items| reads items => Entry(items[i].data.text, items[i].refBit))
  }

  class Cache {
    const size: int
    const list: array<Item?>
    var count: int
    var comMiss: int
    var capMiss: int

    /** The first count slots hold distinct items; later slots may hold stale pointers. */
    ghost predicate Wf()
      reads this, list
    {
      && list.Length == size && 0 <= count <= size && 0 < size
      && 0 <= comMiss && 0 <= capMiss
      && (forall i :: 0 <= i < count ==> list[i] != null)
      && forall i, j :: 0 <= i < j < count ==> list[i] != list[j]
    }

    /** Between requests no stale pointer is left either. */
    ghost predicate Valid()
      reads this, list
    {
      Wf() && forall i :: count <= i < size ==> list[i] == null
    }

    ghost function Items(): (s: seq<Item>)
      requires Wf()
      reads this, list
      ensures |s| == count && forall i :: 0 <= i < count ==> s[i] == list[i]
    {
      list[..count]
    }

    /** No item or string of the cache has been freed. */
    ghost predicate Live(h: Heap)
      requires Wf()
      reads this, list, h
    {
      forall i :: 0 <= i < count ==> Items()[i] in h.items && Items()[i].data in h.strings
    }

    constructor (size: int)
      requires 0 < size
      ensures this.size == size && Valid() && fresh(list)
      ensures count == 0 && comMiss == 0 && capMiss == 0
    {
      this.size := size;
      list := new Item?[size];
      comMiss, capMiss, count := 0, 0, 0;
      new;
      for i := 0 to size
        invariant forall j :: 0 <= j < i ==> list[j] == null
        invariant count == 0 && comMiss == 0 && capMiss == 0
      {
        list[i] := null;
      }
    }

    /** The search loop of cache_contains and remove_first: the first slot that holds the name, or
        count. */
    method Find(h: Heap, data: CString) returns (i: int)
      requires Wf() && Live(h) && data in h.strings
      ensures 0 <= i <= count
      ensures i < count <==> data.text in Names(Entries(Items()))
      ensures i < count ==> i == Index(Entries(Items()), data.text)
    {
      ghost var q := Entries(Items());
      i := 0;
      while i < count
        invariant 0 <= i <= count
        invariant forall j :: 0 <= j < i ==> q[j].name != data.text
      {
        assert Items()[i] == list[i];
        var eq := h.StrEq(data, list[i].data);
        if eq {
          assert Names(q)[i] == data.text;
          return;
        }
        i := i + 1;
      }
    }

    method SetRefBit(i: int, bit: bool)
      requires Wf() && 0 <= i < count
      modifies list[i]
      ensures Entries(Items()) == old(Entries(Items()))[i := Entry(list[i].data.text, bit)]
    {
      list[i].refBit := bit;
    }

    method Contains(h: Heap, data: CString, setBit: bool) returns (found: bool)
      requires Wf() && Live(h) && data in h.strings
      modifies Items()
      ensures Wf()
      ensures found == (data.text in Names(old(Entries(Items()))))
      ensures Entries(Items()) == if found && setBit
        then old(Entries(Items()))[Index(old(Entries(Items())), data.text) := Entry(data.text, true)]
        else old(Entries(Items()))
    {
      var i := Find(h, data);
      if i < count {
        assert Items()[i] == list[i];
        if setBit {
          SetRefBit(i, true);
        }
        return true;
      }
      return false;
    }

    method Append(h: Heap, data: CString) returns (ok: bool)
      requires Wf()
      modifies this`count, list, h
      ensures Wf()
      ensures ok == (old(count) < size)
      ensures !ok ==>
        && count == old(count) && list[..] == old(list[..])
        && h.items == old(h.items) && h.strings == old(h.strings)
      ensures ok ==>
        && count == old(count) + 1
        && fresh(list[old(count)]) && Items() == old(Items()) + [list[old(count)]]
        && list[old(count)].data == data && !list[old(count)].refBit
        && (forall i :: 0 <= i < size && i != old(count) ==> list[i] == old(list[i]))
        && h.items == old(h.items) + {list[old(count)]} && h.strings == old(h.strings)
    {
      if count == size {
        return false;
      }
      var newItem := h.CreateItem(data);
      list[count] := newItem;
      count := count + 1;
      return true;
    }

    /** Frees the item in slot 0 and hands its string back. The slot past the new end keeps the
        pointer that was last. */
    method RemoveFront(h: Heap) returns (data: CString?)
      requires Wf() && Live(h)
      modifies this`count, list, h
      ensures Wf()
      ensures old(count) == 0 ==>
        && data == null && count == 0 && list[..] == old(list[..])
        && h.items == old(h.items) && h.strings == old(h.strings)
      ensures old(count) > 0 ==>
        && data == old(Items()[0].data)
        && Items() == old(Items())[1..]
        && Entries(Items()) == old(Entries(Items()))[1..]
        && (forall i :: count <= i < size ==> list[i] == old(list[i]))
        && h.items == old(h.items) - {old(Items()[0])} && h.strings == old(h.strings)
    {
      if count == 0 {
        return null;
      }
      data := Drop(h, 0);
    }

    /** What RemoveFront and RemoveFirst share: the slots behind i shift down, item i is freed and its
        string handed back. */
    method Drop(h: Heap, i: int) returns (data: CString)
      requires Wf() && Live(h) && 0 <= i < count
      modifies this`count, list, h
      ensures Wf() && count == old(count) - 1 && data == old(Items()[i].data)
      ensures Items() == old(Items())[..i] + old(Items())[i + 1..]
      ensures Entries(Items()) == old(Entries(Items()))[..i] + old(Entries(Items()))[i + 1..]
      ensures forall j :: count <= j < size ==> list[j] == old(list[j])
      ensures h.items == old(h.items) - {old(Items()[i])} && h.strings == old(h.strings)
    {
      var item := list[i];
      assert item == Items()[i];
      data := item.data;
      CloseGap(i);
      count := count - 1;
      h.FreeItem(item);
    }

    method CloseGap(i: int)
      requires Wf() && 0 <= i < count
      modifies list
      ensures forall j :: 0 <= j < size ==>
        list[j] == old(list[if i <= j < count - 1 then j + 1 else j])
    {
      var j := i;
      while j < count - 1
        invariant i <= j <= count - 1
        invariant forall m :: 0 <= m < size ==>
          list[m] == old(list[if i <= m < j then m + 1 else m])
      {
        list[j] := list[j + 1];
        j := j + 1;
      }
    }

    /** Frees the first item that holds the name and hands its string back. */
    method RemoveFirst(h: Heap, data: CString) returns (removed: CString?)
      requires Wf() && Live(h) && data in h.strings
      modifies this`count, list, h
      ensures Wf()
      ensures data.text !in Names(old(Entries(Items()))) ==>
        && removed == null && count == old(count) && list[..] == old(list[..])
        && h.items == old(h.items) && h.strings == old(h.strings)
      ensures data.text in Names(old(Entries(Items()))) ==>
        var i := Index(old(Entries(Items())), data.text);
        && removed == old(Items())[i].data
        && Items() == old(Items())[..i] + old(Items())[i + 1..]
        && Entries(Items()) == old(Entries(Items()))[..i] + old(Entries(Items()))[i + 1..]
        && (forall j :: count <= j < size ==> list[j] == old(list[j]))
        && h.items == old(h.items) - {old(Items())[i]} && h.strings == old(h.strings)
    {
      ghost var items, q := Items(), Entries(Items());
      var i := Find(h, data);
      if i < count {
        assert i == Index(q, data.text);
        removed := Drop(h, i);
        assert removed == items[i].data && Items() == items[..i] + items[i + 1..];
        assert Entries(Items()) == q[..i] + q[i + 1..];
      } else {
        removed := null;
      }
    }

    /** Frees every item and string the slots hold. It walks to size, not count: with a stale
        pointer behind count it would free a block twice. */
    method Destroy(h: Heap)
      requires Valid() && Live(h)
      requires forall i, j :: 0 <= i < j < count ==> Items()[i].data != Items()[j].data
      modifies h
      ensures h.items == old(h.items) - set i | i in Items()
      ensures h.strings == old(h.strings) - set i | i in Items() :: i.data
    {
      var i := 0;
      while i < size
        invariant 0 <= i <= size
        invariant Valid()
        invariant h.items == old(h.items) - set j | 0 <= j < i && j < count :: Items()[j]
        invariant h.strings == old(h.strings) - set j | 0 <= j < i && j < count :: Items()[j].data
      {
        var item := list[i];
        if item != null {
          assert item == Items()[i];
          h.FreeString(item.data);
          h.FreeItem(item);
        }
        i := i + 1;
      }
    }
  }
}
