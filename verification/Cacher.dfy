/** The three replay loops and the program around them. */
module Cacher {
  import opened Seqs
  import opened CacheSpec
  import opened CacheClassification
  import opened Memory
  import opened Ownership
  import opened CacheMethods
  import opened SetMethods
  import opened EvictionPolicies
  import opened ClockPolicy

  /** The requests: the input lines, newlines stripped, up to the first empty one. */
  function Requests(lines: seq<string>): (t: seq<Name>)
    ensures t <= lines && "" !in t
    ensures |t| < |lines| ==> lines[|t|] == ""
  {
    if lines == [] || lines[0] == "" then [] else [lines[0]] + Requests(lines[1..])
  }

  lemma {:induction false} RequestsIs(lines: seq<string>, n: nat)
    requires n <= |lines| && "" !in lines[..n] && (n < |lines| ==> lines[n] == "")
    ensures Requests(lines) == lines[..n]
  {
    if n > 0 {
      assert lines[0] == lines[..n][0];
      assert lines[1..][..n - 1] == lines[..n][1..];
      RequestsIs(lines[1..], n - 1);
      assert lines[..n] == [lines[0]] + lines[1..][..n - 1];
    }
  }

  lemma NextLine(lines: seq<string>, i: nat)
    requires i < |lines| && "" !in lines[..i] && lines[i] != ""
    ensures lines[..i + 1] == lines[..i] + [lines[i]] && "" !in lines[..i + 1]
  {
  }

  method ServeFIFO(c: Cache, s: NameSet, h: Heap, line: string) returns (access: bool)
    requires c.Valid() && Owns(c, s, h, {})
    modifies c, c.list, c.Items(), s, h
    ensures c.Valid() && Owns(c, s, h, {}) && fresh(h.items - old(h.items))
    ensures access == Hits(old(Abstract(c, s)), line)
    ensures Abstract(c, s) == Step(FIFO, c.size, old(Abstract(c, s)), line)
  {
    ghost var q := Abstract(c, s);
    var item := h.StrDup(line);
    assert Owns(c, s, h, {item}) && Abstract(c, s) == q;
    access := InsertFIFO(c, item, s, h);
  }

  method RunFIFO(c: Cache, s: NameSet, h: Heap, lines: seq<string>) returns (printed: seq<bool>)
    requires c.Valid() && Owns(c, s, h, {})
    modifies c, c.list, c.Items(), s, h
    ensures c.Valid() && Owns(c, s, h, {})
    ensures Abstract(c, s) == RunFrom(FIFO, c.size, old(Abstract(c, s)), Requests(lines))
    ensures printed == Printed(FIFO, c.size, old(Abstract(c, s)), Requests(lines))
  {
    ghost var start := Abstract(c, s);
    printed := [];
    var i := 0;
    while i < |lines|
      invariant 0 <= i <= |lines| && "" !in lines[..i]
      invariant c.Valid() && Owns(c, s, h, {}) && fresh(h.items - old(h.items))
      invariant Abstract(c, s) == RunFrom(FIFO, c.size, start, lines[..i])
      invariant printed == Printed(FIFO, c.size, start, lines[..i])
    {
      if lines[i] == "" {
        break;
      }
      NextLine(lines, i);
      RunSnoc(FIFO, c.size, start, lines[..i], lines[i]);
      var access := ServeFIFO(c, s, h, lines[i]);
      printed := printed + [access];
      i := i + 1;
    }
    RequestsIs(lines, i);
  }

  method ServeLRU(c: Cache, s: NameSet, h: Heap, line: string) returns (access: bool)
    requires c.Valid() && Owns(c, s, h, {})
    modifies c, c.list, c.Items(), s, h
    ensures c.Valid() && Owns(c, s, h, {}) && fresh(h.items - old(h.items))
    ensures access == Hits(old(Abstract(c, s)), line)
    ensures Abstract(c, s) == Step(LRU, c.size, old(Abstract(c, s)), line)
  {
    ghost var q := Abstract(c, s);
    var item := h.StrDup(line);
    assert Owns(c, s, h, {item}) && Abstract(c, s) == q;
    access := InsertLRU(c, item, s, h);
  }

  method RunLRU(c: Cache, s: NameSet, h: Heap, lines: seq<string>) returns (printed: seq<bool>)
    requires c.Valid() && Owns(c, s, h, {})
    modifies c, c.list, c.Items(), s, h
    ensures c.Valid() && Owns(c, s, h, {})
    ensures Abstract(c, s) == RunFrom(LRU, c.size, old(Abstract(c, s)), Requests(lines))
    ensures printed == Printed(LRU, c.size, old(Abstract(c, s)), Requests(lines))
  {
    ghost var start := Abstract(c, s);
    printed := [];
    var i := 0;
    while i < |lines|
      invariant 0 <= i <= |lines| && "" !in lines[..i]
      invariant c.Valid() && Owns(c, s, h, {}) && fresh(h.items - old(h.items))
      invariant Abstract(c, s) == RunFrom(LRU, c.size, start, lines[..i])
      invariant printed == Printed(LRU, c.size, start, lines[..i])
    {
      if lines[i] == "" {
        break;
      }
      NextLine(lines, i);
      RunSnoc(LRU, c.size, start, lines[..i], lines[i]);
      var access := ServeLRU(c, s, h, lines[i]);
      printed := printed + [access];
      i := i + 1;
    }
    RequestsIs(lines, i);
  }

  method ServeCLOCK(c: Cache, s: NameSet, h: Heap, hand: Hand, line: string) returns (access: bool)
    requires c.Valid() && Owns(c, s, h, {}) && HandOk(c, hand)
    modifies c, c.list, c.Items(), s, h, hand
    ensures c.Valid() && Owns(c, s, h, {}) && HandOk(c, hand) && fresh(h.items - old(h.items))
    ensures access == Hits(old(AbstractRing(c, s, hand)), line)
    ensures AbstractRing(c, s, hand) == Step(CLOCK, c.size, old(AbstractRing(c, s, hand)), line)
  {
    ghost var q := AbstractRing(c, s, hand);
    var item := h.StrDup(line);
    assert Owns(c, s, h, {item}) && AbstractRing(c, s, hand) == q;
    ghost var inspected;
    access, inspected := InsertCLOCK(c, item, s, h, hand);
  }

  /** The replay loop, from any position of the hand. */
  method ReplayCLOCK(c: Cache, s: NameSet, h: Heap, hand: Hand, lines: seq<string>) returns (printed: seq<bool>)
    requires c.Valid() && Owns(c, s, h, {}) && HandOk(c, hand)
    modifies c, c.list, c.Items(), s, h, hand
    ensures c.Valid() && Owns(c, s, h, {}) && HandOk(c, hand)
    ensures AbstractRing(c, s, hand) == RunFrom(CLOCK, c.size, old(AbstractRing(c, s, hand)), Requests(lines))
    ensures printed == Printed(CLOCK, c.size, old(AbstractRing(c, s, hand)), Requests(lines))
  {
    ghost var start := AbstractRing(c, s, hand);
    printed := [];
    var i := 0;
    while i < |lines|
      invariant 0 <= i <= |lines| && "" !in lines[..i]
      invariant c.Valid() && Owns(c, s, h, {}) && fresh(h.items - old(h.items)) && HandOk(c, hand)
      invariant AbstractRing(c, s, hand) == RunFrom(CLOCK, c.size, start, lines[..i])
      invariant printed == Printed(CLOCK, c.size, start, lines[..i])
    {
      if lines[i] == "" {
        break;
      }
      NextLine(lines, i);
      RunSnoc(CLOCK, c.size, start, lines[..i], lines[i]);
      var access := ServeCLOCK(c, s, h, hand, lines[i]);
      printed := printed + [access];
      i := i + 1;
    }
    RequestsIs(lines, i);
  }

  /** The hand starts on slot 0, which is right for an empty cache. */
  method RunCLOCK(c: Cache, s: NameSet, h: Heap, lines: seq<string>) returns (printed: seq<bool>)
    requires c.Valid() && Owns(c, s, h, {}) && c.count == 0
    modifies c, c.list, c.Items(), s, h
    ensures c.Valid() && Owns(c, s, h, {})
    ensures c.comMiss == RunFrom(CLOCK, c.size, old(Abstract(c, s)), Requests(lines)).com
    ensures c.capMiss == RunFrom(CLOCK, c.size, old(Abstract(c, s)), Requests(lines)).cap
    ensures printed == Printed(CLOCK, c.size, old(Abstract(c, s)), Requests(lines))
  {
    var hand := new Hand();
    assert AbstractRing(c, s, hand) == Abstract(c, s);
    printed := ReplayCLOCK(c, s, h, hand, lines);
  }

  datatype Outcome = Usage | Report(comMiss: int, capMiss: int)

  /** The program after option parsing: replay the input, report the counters, free everything. */
  method Simulate(p: Policy, size: int, lines: seq<string>)
    returns (r: Outcome, printed: seq<bool>, h: Heap)
    ensures size < 1 ==> r == Usage && printed == []
    ensures size >= 1 ==> r == Report(Run(p, size, Requests(lines)).com, Run(p, size, Requests(lines)).cap)
    ensures size >= 1 ==> printed == Printed(p, size, State([], {}, 0, 0), Requests(lines))
    ensures size >= 1 ==>
      && r.comMiss == |SetOf(Requests(lines))|
      && HitLines(printed) + r.comMiss + r.capMiss == |Requests(lines)|
    ensures h.strings == {} && h.items == {}
  {
    h := new Heap();
    if size < 1 {
      return Usage, [], h;
    }
    var c := new Cache(size);
    var s := new NameSet();
    assert Names([]) == [];
    assert Abstract(c, s) == State([], {}, 0, 0);
    match p {
      case LRU => printed := RunLRU(c, s, h, lines);
      case CLOCK => printed := RunCLOCK(c, s, h, lines);
      case FIFO => printed := RunFIFO(c, s, h, lines);
    }
    Classification(p, size, Requests(lines), Run(p, size, Requests(lines)));
    r := Report(c.comMiss, c.capMiss);
    DestroyAll(c, s, h);
  }

  /** cache_destroy and set_destroy: every block has one owner, so each is freed once and none is left. */
  method DestroyAll(c: Cache, s: NameSet, h: Heap)
    requires c.Valid() && Owns(c, s, h, {})
    modifies h
    ensures h.strings == {} && h.items == {}
  {
    OwnsLive(c, s, h, {});
    ghost var items := c.Items();
    forall i, j | 0 <= i < j < c.count ensures items[i].data != items[j].data {
      assert TextsOf(items)[i] != TextsOf(items)[j];
    }
    c.Destroy(h);
    s.Destroy(h);
    assert h.strings == DataOf(items) + s.Strings() - DataOf(items) - s.Strings();
  }
}
