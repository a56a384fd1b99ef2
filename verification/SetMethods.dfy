/** The growing list of evicted names, kept free of duplicates. */
module SetMethods {
  import opened CacheSpec
  import opened Memory

  class NameSet {
    var size: int
    var list: seq<CString>

    ghost predicate Valid()
      reads this
    {
      && size == |list|
      && forall i, j :: 0 <= i < j < |list| ==> list[i].text != list[j].text
    }

    ghost function Texts(): set<Name>
      reads this
    {
      set p | p in list :: p.text
    }

    ghost function Strings(): set<CString>
      reads this
    {
      set p | p in list
    }

    constructor ()
      ensures Valid() && list == []
    {
      size, list := 0, [];
    }

    method Contains(h: Heap, data: CString) returns (found: bool)
      requires Valid() && Strings() <= h.strings && data in h.strings
      ensures found == (data.text in Texts())
    {
      var i := 0;
      while i < size
        invariant 0 <= i <= size
        invariant forall j :: 0 <= j < i ==> list[j].text != data.text
      {
        assert list[i] in Strings();
        var eq := h.StrEq(data, list[i]);
        if eq {
          return true;
        }
        i := i + 1;
      }
      return false;
    }

    /** Takes over a string, or frees it when its name is already listed. */
    method Add(h: Heap, data: CString) returns (added: bool)
      requires Valid() && Strings() <= h.strings && data in h.strings && data !in Strings()
      modifies this, h
      ensures Valid()
      ensures added == (data.text !in old(Texts()))
      ensures Texts() == old(Texts()) + {data.text}
      ensures list == if added then old(list) + [data] else old(list)
      ensures h.strings == if added then old(h.strings) else old(h.strings) - {data}
      ensures h.items == old(h.items)
    {
      var known := Contains(h, data);
      if known {
        h.FreeString(data);
        return false;
      }
      assert forall p :: p in list ==> p.text in Texts();
      size := size + 1;
      list := list + [data];
      return true;
    }

    method Destroy(h: Heap)
      requires Valid() && Strings() <= h.strings
      modifies h
      ensures h.strings == old(h.strings) - Strings() && h.items == old(h.items)
    {
      var i := 0;
      while i < size
        invariant 0 <= i <= size
        invariant h.items == old(h.items)
        invariant h.strings == old(h.strings) - set j | 0 <= j < i :: list[j]
      {
        assert list[i] in Strings();
        h.FreeString(list[i]);
        i := i + 1;
      }
    }
  }
}
