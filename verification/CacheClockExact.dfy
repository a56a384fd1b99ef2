/** Exactly when CLOCK keeps the bound FIFO and LRU keep: the states from which every stretch of at
    most k distinct names misses each of them at most once. */
module CacheClockExact {
  import opened Seqs
  import opened LineNames
  import opened CacheSpec
  import opened CacheClassification
  import opened CacheClock
  import opened CacheWindows
  import opened CacheClockWindow

  /** A full cache whose set bits all lie ahead of the first clear one, so that the next eviction
      clears them all; or a cache still filling in which no bit is set. */
  ghost predicate OneSweep(k: nat, q: seq<Entry>) {
    if |q| < k then AllClear(q)
    else forall j :: FirstClear(q) <= j < |q| ==> !q[j].bit
  }

  /** Before the first miss of the stretch, only names of the stretch can break the rule. */
  ghost predicate OneSweepBut(k: nat, q: seq<Entry>, u: set<Name>) {
    if |q| < k then NoneShielded(q, u)
    else forall j :: FirstClear(q) <= j < |q| ==> !Shielded(q[j], u)
  }

  lemma FirstClearMonotone(q: seq<Entry>, q': seq<Entry>)
    requires |q| == |q'| && forall j :: 0 <= j < |q| ==> q[j].bit ==> q'[j].bit
    ensures FirstClear(q) <= FirstClear(q')
  {
    var m := FirstClear(q');
    assert m < |q| ==> !q[m].bit;
  }

  lemma HitKeepsSweep(k: nat, s: State, u: set<Name>, y: Name)
    requires 0 < k && Proper(k, s) && y in u && Hits(s, y) && OneSweepBut(k, s.queue, u)
    ensures OneSweepBut(k, Step(CLOCK, k, s, y).queue, u)
  {
    FirstClearMonotone(s.queue, Step(CLOCK, k, s, y).queue);
  }

  /** The first miss of the stretch leaves no shielded entry and its own name safe. */
  lemma FirstMiss(k: nat, s: State, u: set<Name>, y: Name)
    requires 0 < k && Proper(k, s) && y in u && !Hits(s, y) && OneSweepBut(k, s.queue, u)
    ensures NoneShielded(Step(CLOCK, k, s, y).queue, u)
    ensures var q := Step(CLOCK, k, s, y).queue; |q| > 0 && Safe(q, |q| - 1, y, u)
  {
    if |s.queue| == k {
      SecondChanceVictim(s.queue);
    }
  }

  lemma {:induction false} SweepRun(k: nat, s: State, t: seq<Name>, x: Name, u: set<Name>)
    requires 0 < k && Proper(k, s) && |u| <= k && SetOf(t) <= u && x in u && OneSweepBut(k, s.queue, u)
    ensures MissesOf(CLOCK, k, s, t, x) <= 1
    decreases |t|
  {
    if t != [] {
      SetOfHead(t);
      var s' := Step(CLOCK, k, s, t[0]);
      StepSeen(CLOCK, k, s, t[0]);
      if Hits(s, t[0]) {
        HitKeepsSweep(k, s, u, t[0]);
        SweepRun(k, s', t[1..], x, u);
      } else {
        FirstMiss(k, s, u, t[0]);
        if t[0] == x {
          StageRun(0, k, s', t[1..], x, u);
        } else {
          UnshieldedMissesOnce(k, s', t[1..], u, x);
        }
      }
    }
  }

  /** q lists entries a, then y with a clear bit, then entries b. */
  ghost predicate Ahead(q: seq<Entry>, a: seq<Entry>, y: Name, b: seq<Entry>) {
    q == a + [Entry(y, false)] + b
  }

  function ClearBits(q: seq<Entry>): int {
    |q| - SetBits(q)
  }

  lemma {:induction false} ClearBitsBehind(a: seq<Entry>)
    ensures 0 <= ClearBits(a)
    ensures FirstClear(a) < |a| ==> ClearBits(a[FirstClear(a) + 1..]) == ClearBits(a) - 1
    ensures FirstClear(a) == |a| <==> ClearBits(a) == 0
  {
    if a != [] {
      ClearBitsBehind(a[1..]);
      if a[0].bit && FirstClear(a) < |a| {
        assert a[1..][FirstClear(a[1..]) + 1..] == a[FirstClear(a) + 1..];
      }
    }
  }

  lemma AheadTail(a: seq<Entry>, y: Name, b: seq<Entry>, m: nat)
    requires m < |a|
    ensures var q := a + [Entry(y, false)] + b;
      q[..m] == a[..m] && q[m + 1..] == a[m + 1..] + [Entry(y, false)] + b
  {
  }

  lemma TailConcat(q: seq<Entry>, m: nat, c: seq<Entry>)
    requires m < |q|
    ensures (q[m..] + c)[1..] == q[m + 1..] + c
  {
  }

  lemma SearchStopsBefore(q: seq<Entry>, a: seq<Entry>, y: Name, b: seq<Entry>, m: nat)
    requires Ahead(q, a, y, b) && m == FirstClear(a) < |a|
    ensures Ahead(SecondChance(q)[1..], a[m + 1..], y, b + Cleared(a[..m]))
  {
    FirstClearIs(q, m);
    SecondChanceVictim(q);
    AheadTail(a, y, b, m);
    TailConcat(q, m, Cleared(a[..m]));
    Regroup(a[m + 1..] + [Entry(y, false)], b, Cleared(a[..m]));
  }

  lemma SearchStopsAt(q: seq<Entry>, a: seq<Entry>, y: Name, b: seq<Entry>)
    requires Ahead(q, a, y, b) && FirstClear(a) == |a|
    ensures SecondChance(q) == [Entry(y, false)] + b + Cleared(a)
  {
    AheadCut(q, a, y, b);
    FirstClearIs(q, |a|);
    SecondChanceVictim(q);
  }

  lemma AheadCut(q: seq<Entry>, a: seq<Entry>, y: Name, b: seq<Entry>)
    requires Ahead(q, a, y, b)
    ensures |a| < |q| && q[..|a|] == a && q[|a|..] == [Entry(y, false)] + b && q[|a|] == Entry(y, false)
  {
  }

  /** Requesting a fresh name z moves y one place nearer to its eviction. */
  lemma FreshRequest(k: nat, s: State, a: seq<Entry>, y: Name, b: seq<Entry>, z: Name)
    returns (a': seq<Entry>, b': seq<Entry>)
    requires 0 < k && Proper(k, s) && Ahead(s.queue, a, y, b) && !Hits(s, z)
    requires |s.queue| < k || ClearBits(a) > 0
    ensures var q' := Step(CLOCK, k, s, z).queue;
      && Ahead(q', a', y, b')
      && k - |q'| + ClearBits(a') == k - |s.queue| + ClearBits(a) - 1
  {
    if |s.queue| < k {
      a', b' := a, b + [Entry(z, false)];
    } else {
      var m := FirstClear(a);
      ClearBitsBehind(a);
      SearchStopsBefore(s.queue, a, y, b, m);
      a', b' := a[m + 1..], b + Cleared(a[..m]) + [Entry(z, false)];
      assert SecondChance(s.queue)[1..] + [Entry(z, false)] == a' + [Entry(y, false)] + b';
    }
  }

  /** Once the cache is full and nothing clear is ahead of y, a fresh request evicts y. */
  lemma LastRequest(k: nat, s: State, a: seq<Entry>, y: Name, b: seq<Entry>, z: Name)
    requires 0 < k && Proper(k, s) && Ahead(s.queue, a, y, b) && !Hits(s, z) && z != y
    requires |s.queue| == k && ClearBits(a) == 0
    ensures !Hits(Step(CLOCK, k, s, z), y)
  {
    ClearBitsBehind(a);
    SearchStopsAt(s.queue, a, y, b);
    var q := SecondChance(s.queue);
    SecondChanceRearranges(s.queue);
    assert Names(q)[0] == y;
    var q' := Step(CLOCK, k, s, z).queue;
    assert Names(q') == Names(q)[1..] + [z];
  }

  /** Fresh names, one more than there are free slots and clear entries ahead of y, evict y. */
  lemma {:induction false} EvictAhead(k: nat, s: State, a: seq<Entry>, y: Name, b: seq<Entry>, f: seq<Name>)
    requires 0 < k && Proper(k, s) && Ahead(s.queue, a, y, b)
    requires Unique(f) && SetOf(f) !! SetOf(Names(s.queue)) + s.evicted
    requires |f| == k - |s.queue| + ClearBits(a) + 1
    ensures !Hits(RunFrom(CLOCK, k, s, f), y)
    ensures Proper(k, RunFrom(CLOCK, k, s, f))
    decreases |f|
  {
    ClearBitsBehind(a);
    var z := f[0];
    var s' := Step(CLOCK, k, s, z);
    SetOfHead(f);
    assert z in SetOf(f);
    assert y == Names(s.queue)[|a|];
    assert y in SetOf(Names(s.queue));
    StepSeen(CLOCK, k, s, z);
    if |f| == 1 {
      LastRequest(k, s, a, y, b, z);
      assert f[1..] == [];
      assert RunFrom(CLOCK, k, s', f[1..]) == s';
    } else {
      var a', b' := FreshRequest(k, s, a, y, b, z);
      FreshStays(k, s, z, SetOf(f[1..]));
      EvictAhead(k, s', a', y, b', f[1..]);
    }
  }

  /** Without its request a name does not come back. */
  lemma {:induction false} StaysOut(k: nat, s: State, t: seq<Name>, y: Name)
    requires 0 < k && Proper(k, s) && !Hits(s, y) && y !in t
    ensures !Hits(RunFrom(CLOCK, k, s, t), y)
    decreases |t|
  {
    if t != [] {
      StepSeen(CLOCK, k, s, t[0]);
      OnlyRequested(k, s, t[0], y);
      StaysOut(k, Step(CLOCK, k, s, t[0]), t[1..], y);
    }
  }

  lemma OnlyRequested(k: nat, s: State, z: Name, y: Name)
    requires 0 < k && Proper(k, s) && !Hits(s, y) && y != z
    ensures !Hits(Step(CLOCK, k, s, z), y)
  {
    if !Hits(s, z) && |s.queue| == k {
      SecondChanceRearranges(s.queue);
      assert y !in SetOf(Names(SecondChance(s.queue)));
      NamesConcat(SecondChance(s.queue)[1..], [Entry(z, false)]);
    }
  }

  /** As long as fresh names find free slots and clear entries ahead of y, y stays. */
  lemma {:induction false} StaysAhead(k: nat, s: State, a: seq<Entry>, y: Name, b: seq<Entry>, f: seq<Name>)
    requires 0 < k && Proper(k, s) && Ahead(s.queue, a, y, b)
    requires Unique(f) && SetOf(f) !! SetOf(Names(s.queue)) + s.evicted
    requires |f| <= k - |s.queue| + ClearBits(a)
    ensures Hits(RunFrom(CLOCK, k, s, f), y)
    decreases |f|
  {
    assert y == Names(s.queue)[|a|];
    if f != [] {
      SetOfHead(f);
      assert f[0] in SetOf(f);
      StepSeen(CLOCK, k, s, f[0]);
      var a', b' := FreshRequest(k, s, a, y, b, f[0]);
      FreshStays(k, s, f[0], SetOf(f[1..]));
      StaysAhead(k, Step(CLOCK, k, s, f[0]), a', y, b', f[1..]);
    }
  }

  /** Exactly how long a clear entry y survives fresh names: as long as they are no more than the free
      slots and the clear entries ahead of it. */
  lemma SurvivesExactly(k: nat, s: State, a: seq<Entry>, y: Name, b: seq<Entry>, f: seq<Name>)
    requires 0 < k && Proper(k, s) && Ahead(s.queue, a, y, b)
    requires Unique(f) && SetOf(f) !! SetOf(Names(s.queue)) + s.evicted
    ensures Hits(RunFrom(CLOCK, k, s, f), y) <==> |f| <= k - |s.queue| + ClearBits(a)
  {
    ClearBitsBehind(a);
    var n := k - |s.queue| + ClearBits(a) + 1;
    if |f| < n {
      StaysAhead(k, s, a, y, b, f);
    } else {
      var g, h := f[..n], f[n..];
      assert f == g + h;
      SetOfConcat(g, h);
      EvictAhead(k, s, a, y, b, g);
      assert y == Names(s.queue)[|a|] && y in SetOf(Names(s.queue));
      assert y !in SetOf(h);
      StaysOut(k, RunFrom(CLOCK, k, s, g), h, y);
      RunConcat(CLOCK, k, s, g, h);
    }
  }

  /** A request of z brings no other name in. */
  lemma FreshStays(k: nat, s: State, z: Name, f: set<Name>)
    requires 0 < k && Proper(k, s) && z !in f && f !! SetOf(Names(s.queue)) + s.evicted
    ensures f !! SetOf(Names(Step(CLOCK, k, s, z).queue)) + Step(CLOCK, k, s, z).evicted
  {
    StepSeen(CLOCK, k, s, z);
  }

  lemma {:induction false} SomeSetBit(q: seq<Entry>, j: nat)
    requires j < |q| && q[j].bit
    ensures SetBits(q) > 0
  {
    if j > 0 { SomeSetBit(q[1..], j - 1); }
  }

  lemma {:induction false} MissesOfConcat(p: Policy, k: nat, s: State, t: seq<Name>, r: seq<Name>, x: Name)
    requires 0 < k
    ensures MissesOf(p, k, s, t + r, x) == MissesOf(p, k, s, t, x) + MissesOf(p, k, RunFrom(p, k, s, t), r, x)
    decreases |t|
  {
    if t == [] {
      assert t + r == r;
    } else {
      assert (t + r)[1..] == t[1..] + r;
      MissesOfConcat(p, k, Step(p, k, s, t[0]), t[1..], r, x);
    }
  }

  lemma FirstFreshFull(q: seq<Entry>, j: nat, e: Entry) returns (a: seq<Entry>)
    requires FirstClear(q) < j < |q| && q[j].bit
    ensures SecondChance(q)[1..] + [e] == a + [e]
    ensures SetBits(a) > 0
  {
    var m := FirstClear(q);
    SecondChanceVictim(q);
    a := q[m + 1..] + Cleared(q[..m]);
    assert q[m..][1..] == q[m + 1..];
    assert a[j - (m + 1)] == q[j];
    SomeSetBit(a, j - (m + 1));
  }

  /** A first fresh request y leaves a set bit ahead of it when the rule is broken. */
  lemma FirstFresh(k: nat, s: State, y: Name) returns (a: seq<Entry>)
    requires 0 < k && Proper(k, s) && !OneSweep(k, s.queue) && !Hits(s, y)
    ensures Ahead(Step(CLOCK, k, s, y).queue, a, y, [])
    ensures SetBits(a) > 0
  {
    var q := s.queue;
    if |q| < k {
      a := q;
      var j :| 0 <= j < |q| && q[j].bit;
      SomeSetBit(q, j);
    } else {
      var j :| FirstClear(q) <= j < |q| && q[j].bit;
      a := FirstFreshFull(q, j, Entry(y, false));
    }
    assert a + [Entry(y, false)] + [] == a + [Entry(y, false)];
  }

  lemma MissTwiceWith(k: nat, s: State, g: seq<Name>) returns (t: seq<Name>)
    requires 0 < k && Proper(k, s) && !OneSweep(k, s.queue)
    requires |g| == k && Unique(g) && SetOf(g) !! Seen(s)
    ensures |SetOf(t)| <= k && MissesOf(CLOCK, k, s, t, g[0]) >= 2
    ensures SetOf(t) <= SetOf(g)
  {
    var y := g[0];
    assert y in SetOf(g);
    assert y !in SetOf(Names(s.queue));
    var a := FirstFresh(k, s, y);
    StepSeen(CLOCK, k, s, y);
    var n := RoomAhead(k, Step(CLOCK, k, s, y).queue, a, y);
    EvictFirst(k, s, g, a, n);
    t := [y] + g[1..n + 1] + [y];
    TwiceIn(k, s, y, g[1..n + 1]);
    StretchNames(g, n);
  }

  /** How many fresh names evict y, when a set bit is ahead of it: fewer than the cache has slots. */
  lemma RoomAhead(k: nat, q: seq<Entry>, a: seq<Entry>, y: Name) returns (n: nat)
    requires |q| <= k && Ahead(q, a, y, []) && SetBits(a) > 0
    ensures n == k - |q| + ClearBits(a) + 1 < k
  {
    ClearBitsBehind(a);
    n := k - |q| + ClearBits(a) + 1;
  }

  /** The fresh names behind the first one of g evict that one. */
  lemma EvictFirst(k: nat, s: State, g: seq<Name>, a: seq<Entry>, n: nat)
    requires 0 < k && Proper(k, s) && n + 1 <= |g| && Unique(g) && SetOf(g) !! Seen(s)
    requires var q := Step(CLOCK, k, s, g[0]).queue;
      Ahead(q, a, g[0], []) && n == k - |q| + ClearBits(a) + 1
    ensures !Hits(RunFrom(CLOCK, k, Step(CLOCK, k, s, g[0]), g[1..n + 1]), g[0])
  {
    StepSeen(CLOCK, k, s, g[0]);
    FreshPart(g, Seen(s), n);
    EvictAhead(k, Step(CLOCK, k, s, g[0]), a, g[0], [], g[1..n + 1]);
  }

  lemma StretchNames(g: seq<Name>, n: nat)
    requires n + 1 <= |g| && Unique(g)
    ensures var t := [g[0]] + g[1..n + 1] + [g[0]]; |SetOf(t)| == n + 1 && SetOf(t) <= SetOf(g)
  {
    var h := g[..n + 1];
    assert [g[0]] + g[1..n + 1] == h;
    SetOfSnoc(h, g[0]);
    assert g[0] == h[0];
    assert SetOf(h) + {g[0]} == SetOf(h);
    UniqueCardinality(h);
    PrefixNames(g, n + 1);
  }

  lemma PrefixNames(g: seq<Name>, n: nat)
    requires n <= |g|
    ensures SetOf(g[..n]) <= SetOf(g)
  {
    assert g == g[..n] + g[n..];
    SetOfConcat(g[..n], g[n..]);
  }

  /** From a state that breaks the rule some stretch of at most k names misses one of them twice:
      a fresh y, then fresh names until y is evicted, then y again. All of them are short. */
  lemma MissTwice(k: nat, s: State) returns (t: seq<Name>, y: Name)
    requires 0 < k && Proper(k, s) && !OneSweep(k, s.queue)
    ensures |SetOf(t)| <= k && MissesOf(CLOCK, k, s, t, y) >= 2
    ensures forall x :: x in t ==> Short(x, k + |Seen(s)|)
  {
    var g := FreshNames(k, Seen(s));
    t := MissTwiceWith(k, s, g);
    y := g[0];
    forall x | x in t ensures x in g {
      assert x in SetOf(t);
      assert x in SetOf(g);
    }
  }

  lemma FreshPart(g: seq<Name>, used: set<Name>, n: nat)
    requires n + 1 <= |g| && Unique(g) && SetOf(g) !! used
    ensures Unique(g[1..n + 1])
    ensures SetOf(g[1..n + 1]) !! used + {g[0]}
  {
    assert forall x :: x in SetOf(g[1..n + 1]) ==> x in SetOf(g);
  }

  lemma TwiceIn(k: nat, s: State, y: Name, f: seq<Name>)
    requires 0 < k && !Hits(s, y) && !Hits(RunFrom(CLOCK, k, Step(CLOCK, k, s, y), f), y)
    ensures MissesOf(CLOCK, k, s, [y] + f + [y], y) >= 2
  {
    MissesOfConcat(CLOCK, k, s, [y] + f, [y], y);
    assert ([y] + f)[1..] == f;
    assert RunFrom(CLOCK, k, s, [y] + f) == RunFrom(CLOCK, k, Step(CLOCK, k, s, y), f);
  }

  /** CLOCK keeps the windowed bound of FIFO and LRU from a state exactly when that state's set bits
      can all be cleared by one eviction; and where it does not, names that fit a line of input show
      it. */
  lemma ClockMissesOnceExactly(k: nat, s: State)
    requires 0 < k && Proper(k, s)
    ensures OneSweep(k, s.queue)
       <==> forall t, x :: |SetOf(t)| <= k ==> MissesOf(CLOCK, k, s, t, x) <= 1
    ensures !OneSweep(k, s.queue) ==>
      exists t, x :: |SetOf(t)| <= k && MissesOf(CLOCK, k, s, t, x) > 1
        && forall y :: y in t ==> Short(y, k + |Seen(s)|)
  {
    if OneSweep(k, s.queue) {
      forall t, x | |SetOf(t)| <= k ensures MissesOf(CLOCK, k, s, t, x) <= 1 {
        if x in SetOf(t) {
          SweepRun(k, s, t, x, SetOf(t));
        } else {
          NotRequested(CLOCK, k, s, t, x);
        }
      }
    } else {
      var t, y := MissTwice(k, s);
    }
  }

  /** Requesting one name twice in an empty cache of at least two slots breaks the rule. */
  lemma HotNameBreaksRule(k: nat, x: Name)
    requires 1 < k
    ensures !OneSweep(k, Run(CLOCK, k, [x, x]).queue)
  {
    var s := State([], {}, 0, 0);
    var s1 := State([Entry(x, false)], {}, 1, 0);
    var s2 := State([Entry(x, true)], {}, 1, 0);
    assert Step(CLOCK, k, s, x) == s1;
    IndexIs(s1.queue, 0, x);
    assert Step(CLOCK, k, s1, x) == s2;
    assert [x, x][1..] == [x] && [x][1..] == [];
    assert RunFrom(CLOCK, k, s1, [x]) == RunFrom(CLOCK, k, s2, []);
    assert RunFrom(CLOCK, k, s, [x, x]) == RunFrom(CLOCK, k, s1, [x]);
    assert s2.queue[0].bit;
  }

  lemma OneSlotKeepsRule(q: seq<Entry>)
    requires |q| <= 1
    ensures OneSweep(1, q)
  {
  }

  /** Over the states the program can reach, CLOCK keeps the windowed bound for a cache of one slot
      and for no other size. */
  lemma ClockWindowedOnlyForOneSlot(k: nat)
    requires 0 < k
    ensures k == 1 <==>
      forall t, w, x :: |SetOf(w)| <= k ==> MissesOf(CLOCK, k, Run(CLOCK, k, t), w, x) <= 1
  {
    if k == 1 {
      forall t, w, x | |SetOf(w)| <= k ensures MissesOf(CLOCK, k, Run(CLOCK, k, t), w, x) <= 1 {
        RunInv(CLOCK, k, t);
        OneSlotKeepsRule(Run(CLOCK, k, t).queue);
        ClockMissesOnceExactly(k, Run(CLOCK, k, t));
      }
    } else {
      var t := ["a", "a"];
      HotNameBreaksRule(k, "a");
      RunInv(CLOCK, k, t);
      var w, x := MissTwice(k, Run(CLOCK, k, t));
      assert MissesOf(CLOCK, k, Run(CLOCK, k, t), w, x) > 1;
    }
  }
}
