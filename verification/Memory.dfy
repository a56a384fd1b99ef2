/** The blocks the cache simulator takes from malloc and strdup and gives back with free. */
module Memory {

  /** A NUL-terminated string; its characters are never changed after strdup. */
  class CString {
    const text: string

    constructor (text: string)
      ensures this.text == text
    {
      this.text := text;
    }
  }

  /** A cache slot's record. Its data pointer is set once, by create_item. */
  class Item {
    var refBit: bool
    const data: CString

    constructor (data: CString)
      ensures this.data == data && !refBit
    {
      this.data := data;
      refBit := false;
    }
  }

  /** Which strings and items are allocated. Free demands a live block, so a block that is freed
      twice, or used after that by StrEq, does not verify. */
  class Heap {
    ghost var strings: set<CString>
    ghost var items: set<Item>

    constructor ()
      ensures strings == {} && items == {}
    {
      strings, items := {}, {};
    }

    method StrDup(text: string) returns (p: CString)
      modifies this
      ensures fresh(p) && p.text == text
      ensures strings == old(strings) + {p} && items == old(items)
    {
      p := new CString(text);
      strings := strings + {p};
    }

    method CreateItem(data: CString) returns (i: Item)
      modifies this
      ensures fresh(i) && i.data == data && !i.refBit
      ensures items == old(items) + {i} && strings == old(strings)
    {
      i := new Item(data);
      items := items + {i};
    }

    method FreeString(p: CString)
      requires p in strings
      modifies this
      ensures strings == old(strings) - {p} && items == old(items)
    {
      strings := strings - {p};
    }

    method FreeItem(i: Item)
      requires i in items
      modifies this
      ensures items == old(items) - {i} && strings == old(strings)
    {
      items := items - {i};
    }

    /** strcmp of two live strings, true when they are equal. */
    method StrEq(p: CString, q: CString) returns (eq: bool)
      requires p in strings && q in strings
      ensures eq == (p.text == q.text)
    {
      eq := p.text == q.text;
    }
  }
}
