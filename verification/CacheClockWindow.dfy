/** Bounded misses for CLOCK. A new entry starts with a clear bit, so a stretch of at most k distinct
    names may miss a name twice; it never misses one three times. */
module CacheClockWindow {
  import opened Seqs
  import opened CacheSpec
  import opened CacheClassification
  import opened CacheWindows

  /** Entry e is not one of the stretch's names u and still has its bit set. */
  ghost predicate Shielded(e: Entry, u: set<Name>) {
    e.name !in u && e.bit
  }

  ghost predicate NoneShielded(q: seq<Entry>, u: set<Name>) {
    forall j :: 0 <= j < |q| ==> !Shielded(q[j], u)
  }

  /** x sits in slot i with no shielded entry behind it. */
  ghost predicate Once(q: seq<Entry>, i: nat, x: Name, u: set<Name>) {
    && i < |q| && q[i].name == x
    && forall j :: i < j < |q| ==> !Shielded(q[j], u)
  }

  /** x sits in slot i with only names of the stretch behind it, and no entry is shielded. */
  ghost predicate Safe(q: seq<Entry>, i: nat, x: Name, u: set<Name>) {
    && i < |q| && q[i].name == x
    && NoneShielded(q, u)
    && forall j :: i < j < |q| ==> q[j].name in u
  }

  /** What is known of x once at most n more misses of it can follow in the stretch. */
  ghost predicate Stage(n: nat, q: seq<Entry>, x: Name, u: set<Name>) {
    match n
    case 0 => exists i: nat :: Safe(q, i, x, u)
    case 1 => (exists i: nat :: Once(q, i, x, u)) || (x !in Names(q) && NoneShielded(q, u))
    case _ => true
  }

  lemma {:induction false} SearchKeepsNoneShielded(q: seq<Entry>, u: set<Name>)
    requires |q| > 0 && NoneShielded(q, u)
    ensures NoneShielded(SecondChance(q), u)
    decreases SetBits(q)
  {
    if q[0].bit {
      RotateSetBits(q);
      SearchKeepsNoneShielded(Rotate(q), u);
    }
  }

  lemma {:induction false} SearchKeepsOnce(q: seq<Entry>, i: nat, x: Name, u: set<Name>) returns (i': nat)
    requires |q| > 0 && Once(q, i, x, u)
    ensures Once(SecondChance(q), i', x, u)
    decreases SetBits(q)
  {
    i' := i;
    if q[0].bit {
      RotateSetBits(q);
      var r := Rotate(q);
      assert forall j :: 0 <= j < |q| - 1 ==> r[j] == q[j + 1];
      i' := SearchKeepsOnce(r, if i == 0 then |q| - 1 else i - 1, x, u);
    }
  }

  lemma {:induction false} SearchKeepsSafe(q: seq<Entry>, i: nat, x: Name, u: set<Name>) returns (i': nat)
    requires |q| > 0 && Safe(q, i, x, u)
    ensures Safe(SecondChance(q), i', x, u)
    decreases SetBits(q)
  {
    i' := i;
    if q[0].bit {
      RotateSetBits(q);
      var r := Rotate(q);
      assert forall j :: 0 <= j < |q| - 1 ==> r[j] == q[j + 1];
      assert q[0].name in u;
      i' := SearchKeepsSafe(r, if i == 0 then |q| - 1 else i - 1, x, u);
    }
  }

  /** A full cache of names of the stretch leaves no name of the stretch to miss. */
  lemma NoVictim(k: nat, q: seq<Entry>, u: set<Name>, y: Name)
    requires |q| == k && Unique(Names(q)) && |u| <= k && y in u && y !in Names(q)
    ensures exists j :: 0 <= j < |q| && q[j].name !in u
  {
    if forall j :: 0 <= j < |q| ==> q[j].name in u {
      UniqueCardinality(Names(q));
      assert forall z :: z in SetOf(Names(q)) ==> z in u;
      SubsetCardinality(SetOf(Names(q)) + {y}, u);
      assert false;
    }
  }

  /** The miss of y in a full cache, whose search left q: its front goes, y joins at the back. */
  lemma StageEvict(n: nat, k: nat, q: seq<Entry>, x: Name, u: set<Name>, y: Name) returns (n': nat)
    requires 0 < k == |q| && Unique(Names(q)) && |u| <= k && y in u && y !in Names(q)
    requires x in u && Stage(n, q, x, u)
    ensures Stage(n', q[1..] + [Entry(y, false)], x, u) && n' + (if y == x then 1 else 0) <= n
  {
    var q' := q[1..] + [Entry(y, false)];
    assert forall j :: 0 <= j < k - 1 ==> q'[j] == q[j + 1];
    if n == 0 {
      n' := 0;
      var i: nat :| Safe(q, i, x, u);
      NoVictim(k, q, u, y);
      assert i > 0 && Names(q)[i] == x;
      assert Safe(q', i - 1, x, u);
    } else if n == 1 {
      n' := StageEvictOnce(k, q, x, u, y);
    } else if y == x {
      n' := 1;
      assert Once(q', k - 1, x, u);
    } else {
      n' := n;
    }
  }

  lemma StageEvictOnce(k: nat, q: seq<Entry>, x: Name, u: set<Name>, y: Name) returns (n': nat)
    requires 0 < k == |q| && Unique(Names(q)) && |u| <= k && y in u && y !in Names(q)
    requires Stage(1, q, x, u)
    ensures Stage(n', q[1..] + [Entry(y, false)], x, u) && n' + (if y == x then 1 else 0) <= 1
  {
    var q' := q[1..] + [Entry(y, false)];
    assert forall j :: 0 <= j < k - 1 ==> q'[j] == q[j + 1];
    if i: nat :| Once(q, i, x, u) {
      n' := 1;
      assert Names(q)[i] == x;
      if i == 0 {
        assert forall j :: 0 <= j < k - 1 ==> Names(q')[j] == Names(q)[j + 1];
        assert NoneShielded(q', u);
      } else {
        assert Once(q', i - 1, x, u);
      }
    } else if y == x {
      n' := 0;
      assert Safe(q', k - 1, x, u);
    } else {
      n' := 1;
      assert forall j :: 0 <= j < k - 1 ==> Names(q')[j] == Names(q)[j + 1];
    }
  }

  lemma StageFill(n: nat, q: seq<Entry>, x: Name, u: set<Name>, y: Name) returns (n': nat)
    requires y in u && y !in Names(q) && Stage(n, q, x, u)
    ensures Stage(n', q + [Entry(y, false)], x, u) && n' + (if y == x then 1 else 0) <= n
  {
    var q' := q + [Entry(y, false)];
    assert Names(q') == Names(q) + [y];
    n' := n;
    if n <= 1 && exists i: nat :: Once(q, i, x, u) {
      var i: nat :| Once(q, i, x, u);
      assert Names(q)[i] == x;
      assert Once(q', i, x, u);
      if n == 0 {
        var i: nat :| Safe(q, i, x, u);
        assert Safe(q', i, x, u);
      }
    } else if n == 0 {
      var i: nat :| Safe(q, i, x, u);
      assert Once(q, i, x, u);
    } else if y == x {
      n' := n - 1;
      assert n == 1 ==> Safe(q', |q|, x, u);
      assert Once(q', |q|, x, u);
    }
  }

  lemma StageHit(n: nat, q: seq<Entry>, x: Name, u: set<Name>, y: Name)
    requires Unique(Names(q)) && y in u && y in Names(q) && Stage(n, q, x, u)
    ensures Stage(n, OnHit(CLOCK, q, y), x, u)
  {
    var q' := OnHit(CLOCK, q, y);
    assert Names(q') == Names(q);
    if n == 0 {
      var i: nat :| Safe(q, i, x, u);
      assert Safe(q', i, x, u);
    } else if n == 1 && exists i: nat :: Once(q, i, x, u) {
      var i: nat :| Once(q, i, x, u);
      assert Once(q', i, x, u);
    }
  }

  lemma StageSearch(n: nat, q: seq<Entry>, x: Name, u: set<Name>)
    requires |q| > 0 && Unique(Names(q)) && Stage(n, q, x, u)
    ensures Stage(n, SecondChance(q), x, u)
  {
    if n == 0 {
      var i: nat :| Safe(q, i, x, u);
      var i' := SearchKeepsSafe(q, i, x, u);
    } else if n == 1 {
      if i: nat :| Once(q, i, x, u) {
        var i' := SearchKeepsOnce(q, i, x, u);
      } else {
        SearchKeepsNoneShielded(q, u);
        SecondChanceRearranges(q);
        assert x !in SetOf(Names(q));
        assert x !in SetOf(Names(SecondChance(q)));
      }
    }
  }

  lemma StageStep(n: nat, k: nat, s: State, x: Name, u: set<Name>, y: Name) returns (n': nat)
    requires 0 < k && Proper(k, s) && |u| <= k && y in u && x in u && Stage(n, s.queue, x, u)
    ensures Stage(n', Step(CLOCK, k, s, y).queue, x, u)
    ensures n' + (if y == x && !Hits(s, x) then 1 else 0) <= n
  {
    if Hits(s, y) {
      n' := n;
      StageHit(n, s.queue, x, u, y);
    } else if |s.queue| == k {
      SecondChanceRearranges(s.queue);
      assert y !in SetOf(Names(s.queue));
      assert y !in SetOf(Names(SecondChance(s.queue)));
      StageSearch(n, s.queue, x, u);
      n' := StageEvict(n, k, SecondChance(s.queue), x, u, y);
    } else {
      n' := StageFill(n, s.queue, x, u, y);
    }
  }

  lemma {:induction false} StageRun(n: nat, k: nat, s: State, t: seq<Name>, x: Name, u: set<Name>)
    requires 0 < k && Proper(k, s) && |u| <= k && SetOf(t) <= u && x in u && Stage(n, s.queue, x, u)
    ensures MissesOf(CLOCK, k, s, t, x) <= n
    decreases |t|
  {
    if t != [] {
      SetOfHead(t);
      var n' := StageStep(n, k, s, x, u, t[0]);
      StepSeen(CLOCK, k, s, t[0]);
      StageRun(n', k, Step(CLOCK, k, s, t[0]), t[1..], x, u);
    }
  }

  lemma {:induction false} NotRequested(p: Policy, k: nat, s: State, t: seq<Name>, x: Name)
    requires 0 < k && x !in SetOf(t)
    ensures MissesOf(p, k, s, t, x) == 0
    decreases |t|
  {
    if t != [] {
      SetOfHead(t);
      NotRequested(p, k, Step(p, k, s, t[0]), t[1..], x);
    }
  }

  /** From any state, a stretch of at most k distinct names misses each of them at most twice. */
  lemma ClockMissesAtMostTwice(k: nat, s: State, t: seq<Name>, x: Name)
    requires 0 < k && Proper(k, s) && |SetOf(t)| <= k
    ensures MissesOf(CLOCK, k, s, t, x) <= 2
  {
    if x in SetOf(t) {
      StageRun(2, k, s, t, x, SetOf(t));
    } else {
      NotRequested(CLOCK, k, s, t, x);
    }
  }

  /** With no shielded entry left, every name has at most one miss to come. */
  lemma UnshieldedMissesOnce(k: nat, s: State, t: seq<Name>, u: set<Name>, x: Name)
    requires 0 < k && Proper(k, s) && |u| <= k && SetOf(t) <= u && x in u
    requires NoneShielded(s.queue, u)
    ensures MissesOf(CLOCK, k, s, t, x) <= 1
  {
    if x in Names(s.queue) {
      assert Once(s.queue, Index(s.queue, x), x, u);
    }
    StageRun(1, k, s, t, x, u);
  }

  /** The misses charged to the names of w together. */
  function MissesAmong(p: Policy, k: nat, s: State, t: seq<Name>, w: seq<Name>): nat
    requires 0 < k
  {
    if w == [] then 0 else MissesOf(p, k, s, t, w[0]) + MissesAmong(p, k, s, t, w[1..])
  }

  lemma {:induction false} MissesAmongHead(p: Policy, k: nat, s: State, t: seq<Name>, w: seq<Name>)
    requires 0 < k && t != [] && Unique(w)
    ensures MissesAmong(p, k, s, t, w)
         == MissesAmong(p, k, Step(p, k, s, t[0]), t[1..], w)
            + if t[0] in w && !Hits(s, t[0]) then 1 else 0
  {
    if w != [] {
      MissesAmongHead(p, k, s, t, w[1..]);
    }
  }

  lemma {:induction false} NoRequestsNoMisses(p: Policy, k: nat, s: State, w: seq<Name>)
    requires 0 < k
    ensures MissesAmong(p, k, s, [], w) == 0
  {
    if w != [] { NoRequestsNoMisses(p, k, s, w[1..]); }
  }

  /** Every counted miss is charged to one name. */
  lemma {:induction false} MissesAreCharged(p: Policy, k: nat, s: State, t: seq<Name>, w: seq<Name>)
    requires 0 < k && Unique(w) && SetOf(t) <= SetOf(w)
    ensures Misses(RunFrom(p, k, s, t)) == Misses(s) + MissesAmong(p, k, s, t, w)
    decreases |t|
  {
    if t == [] {
      NoRequestsNoMisses(p, k, s, w);
    } else {
      SetOfHead(t);
      MissesAmongHead(p, k, s, t, w);
      MissesAreCharged(p, k, Step(p, k, s, t[0]), t[1..], w);
    }
  }

  /** Names charged once at most, and y not at all. */
  lemma {:induction false} ChargedAtMostOnce(p: Policy, k: nat, s: State, t: seq<Name>, w: seq<Name>, y: Name)
    requires 0 < k && Unique(w) && MissesOf(p, k, s, t, y) == 0
    requires forall x :: x in w ==> MissesOf(p, k, s, t, x) <= 1
    ensures MissesAmong(p, k, s, t, w) <= |w| - if y in w then 1 else 0
  {
    if w != [] {
      ChargedAtMostOnce(p, k, s, t, w[1..], y);
      assert w[0] in w && forall x :: x in w[1..] ==> x in w;
    }
  }

  lemma {:induction false} Listing(u: set<Name>) returns (w: seq<Name>)
    ensures Unique(w) && SetOf(w) == u
  {
    if u == {} {
      w := [];
    } else {
      var x :| x in u;
      w := Listing(u - {x});
      SetOfSnoc(w, x);
      assert x !in SetOf(w);
      w := w + [x];
    }
  }

  /** Each name of m sits in a slot with no shielded entry behind it. */
  ghost predicate AllOnce(q: seq<Entry>, m: set<Name>, u: set<Name>) {
    forall x :: x in m ==> exists i: nat :: Once(q, i, x, u)
  }

  lemma AllOnceCached(q: seq<Entry>, m: set<Name>, u: set<Name>)
    requires AllOnce(q, m, u)
    ensures forall x :: x in m ==> x in Names(q)
  {
    forall x | x in m ensures x in Names(q) {
      var i: nat :| Once(q, i, x, u);
      assert Names(q)[i] == x;
    }
  }

  lemma HitKeepsAllOnce(q: seq<Entry>, m: set<Name>, u: set<Name>, y: Name)
    requires AllOnce(q, m, u) && y in u && y in Names(q)
    ensures AllOnce(OnHit(CLOCK, q, y), m, u)
  {
    forall x | x in m ensures exists i: nat :: Once(OnHit(CLOCK, q, y), i, x, u) {
      var i: nat :| Once(q, i, x, u);
      assert Once(OnHit(CLOCK, q, y), i, x, u);
    }
  }

  lemma SearchKeepsAllOnce(q: seq<Entry>, m: set<Name>, u: set<Name>)
    requires |q| > 0 && AllOnce(q, m, u)
    ensures AllOnce(SecondChance(q), m, u)
  {
    forall x | x in m ensures exists i: nat :: Once(SecondChance(q), i, x, u) {
      var i: nat :| Once(q, i, x, u);
      var i' := SearchKeepsOnce(q, i, x, u);
    }
  }

  lemma FillKeepsAllOnce(q: seq<Entry>, m: set<Name>, u: set<Name>, y: Name)
    requires AllOnce(q, m, u) && y in u
    ensures AllOnce(q + [Entry(y, false)], m + {y}, u)
  {
    var q' := q + [Entry(y, false)];
    forall x | x in m + {y} ensures exists i: nat :: Once(q', i, x, u) {
      if x == y {
        assert Once(q', |q|, x, u);
      } else {
        var i: nat :| Once(q, i, x, u);
        assert Once(q', i, x, u);
      }
    }
  }

  /** The eviction of a name outside m. */
  lemma EvictKeepsAllOnce(q: seq<Entry>, m: set<Name>, u: set<Name>, y: Name)
    requires |q| > 0 && AllOnce(q, m, u) && y in u && q[0].name !in m
    ensures AllOnce(q[1..] + [Entry(y, false)], m + {y}, u)
  {
    forall x | x in m ensures exists i: nat :: Once(q[1..], i, x, u) {
      var i: nat :| Once(q, i, x, u);
      assert Once(q[1..], i - 1, x, u);
    }
    FillKeepsAllOnce(q[1..], m, u, y);
  }

  /** The first eviction of a name the stretch has missed leaves no shielded entry, and the name that
      evicted it safe. */
  lemma EvictSweeps(q: seq<Entry>, m: set<Name>, u: set<Name>, y: Name)
    requires |q| > 0 && Unique(Names(q)) && AllOnce(q, m, u) && y in u && q[0].name in m
    ensures var q' := q[1..] + [Entry(y, false)]; NoneShielded(q', u) && Safe(q', |q| - 1, y, u)
  {
    var i: nat :| Once(q, i, q[0].name, u);
    assert Names(q)[i] == Names(q)[0];
  }

  /** What a stretch may still miss after that. */
  lemma AfterSweep(k: nat, s: State, t: seq<Name>, u: set<Name>, y: Name, i: nat)
    requires 0 < k && Proper(k, s) && |u| <= k && SetOf(t) <= u && y in u
    requires NoneShielded(s.queue, u) && Safe(s.queue, i, y, u)
    ensures Misses(RunFrom(CLOCK, k, s, t)) <= Misses(s) + |u| - 1
  {
    var w := Listing(u);
    UniqueCardinality(w);
    assert y in SetOf(w);
    StageRun(0, k, s, t, y, u);
    forall x | x in w ensures MissesOf(CLOCK, k, s, t, x) <= 1 {
      assert x in SetOf(w);
      UnshieldedMissesOnce(k, s, t, u, x);
    }
    ChargedAtMostOnce(CLOCK, k, s, t, w, y);
    MissesAreCharged(CLOCK, k, s, t, w);
  }

  /** The misses left to a stretch that has so far missed the names m, all of them still cached. */
  function Budget(u: set<Name>, m: set<Name>): int {
    if m == u then 0 else 2 * |u| - |m| - 1
  }

  lemma SpendBudget(u: set<Name>, m: set<Name>, y: Name)
    requires m <= u && y in u && y !in m
    ensures 1 + Budget(u, m + {y}) <= Budget(u, m) && |u| <= Budget(u, m)
  {
    SubsetCardinality(m + {y}, u);
  }

  lemma {:induction false} BudgetRun(k: nat, s: State, t: seq<Name>, u: set<Name>, m: set<Name>)
    requires 0 < k && Proper(k, s) && |u| <= k && SetOf(t) <= u && m <= u && AllOnce(s.queue, m, u)
    ensures Misses(RunFrom(CLOCK, k, s, t)) <= Misses(s) + Budget(u, m)
    decreases |t|
  {
    if t == [] {
      SubsetCardinality(m, u);
    } else {
      SetOfHead(t);
      StepSeen(CLOCK, k, s, t[0]);
      var s' := Step(CLOCK, k, s, t[0]);
      if Hits(s, t[0]) {
        HitKeepsAllOnce(s.queue, m, u, t[0]);
        BudgetRun(k, s', t[1..], u, m);
      } else {
        BudgetMiss(k, s, t, u, m);
      }
    }
  }

  lemma {:induction false} BudgetMiss(k: nat, s: State, t: seq<Name>, u: set<Name>, m: set<Name>)
    requires 0 < k && Proper(k, s) && |u| <= k && t != [] && t[0] in u && SetOf(t[1..]) <= u
    requires m <= u && AllOnce(s.queue, m, u) && !Hits(s, t[0])
    ensures Misses(RunFrom(CLOCK, k, s, t)) <= Misses(s) + Budget(u, m)
    decreases |t|, 0
  {
    var y, s' := t[0], Step(CLOCK, k, s, t[0]);
    StepSeen(CLOCK, k, s, y);
    AllOnceCached(s.queue, m, u);
    SpendBudget(u, m, y);
    if |s.queue| < k {
      FillKeepsAllOnce(s.queue, m, u, y);
      BudgetRun(k, s', t[1..], u, m + {y});
    } else {
      var q := SecondChance(s.queue);
      SecondChanceRearranges(s.queue);
      SearchKeepsAllOnce(s.queue, m, u);
      if q[0].name in m {
        EvictSweeps(q, m, u, y);
        AfterSweep(k, s', t[1..], u, y, k - 1);
      } else {
        EvictKeepsAllOnce(q, m, u, y);
        BudgetRun(k, s', t[1..], u, m + {y});
      }
    }
  }

  /** A stretch of n distinct names, 0 < n <= k, makes CLOCK miss at most 2n - 1 times. */
  lemma ClockWindowedMisses(k: nat, s: State, t: seq<Name>)
    requires 0 < k && Proper(k, s) && |SetOf(t)| <= k
    ensures Misses(RunFrom(CLOCK, k, s, t)) <= Misses(s) + if t == [] then 0 else 2 * |SetOf(t)| - 1
  {
    BudgetRun(k, s, t, SetOf(t), {});
    if t != [] { assert t[0] in SetOf(t); }
  }
}
