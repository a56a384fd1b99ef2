/** The bound of 2n - 1 misses for CLOCK is attained, for every size and from a state the program
    reaches. */
module CacheClockSharp {
  import opened Seqs
  import opened LineNames
  import opened CacheSpec
  import opened CacheClock

  function Cold(xs: seq<Name>): (q: seq<Entry>)
    ensures |q| == |xs| && forall i :: 0 <= i < |xs| ==> q[i] == Entry(xs[i], false)
    ensures Names(q) == xs
  {
    seq(|xs|, i requires 0 <= i < |xs| => Entry(xs[i], false))
  }

  function Hot(xs: seq<Name>): (q: seq<Entry>)
    ensures |q| == |xs| && forall i :: 0 <= i < |xs| ==> q[i] == Entry(xs[i], true)
    ensures Names(q) == xs
  {
    seq(|xs|, i requires 0 <= i < |xs| => Entry(xs[i], true))
  }

  /** New names fill the cache, bits clear. */
  lemma {:induction false} FillRun(p: Policy, k: nat, s: State, pre: seq<Name>, xs: seq<Name>)
    requires 0 < k && s.queue == Cold(pre) && |pre| + |xs| <= k && Unique(pre + xs)
    ensures RunFrom(p, k, s, xs).queue == Cold(pre + xs)
    decreases |xs|
  {
    if xs == [] {
      assert pre + xs == pre;
    } else {
      assert xs[0] == (pre + xs)[|pre|];
      assert forall i :: 0 <= i < |pre| ==> pre[i] == (pre + xs)[i];
      assert pre + xs == pre + [xs[0]] + xs[1..];
      assert Cold(pre) + [Entry(xs[0], false)] == Cold(pre + [xs[0]]);
      FillRun(p, k, Step(p, k, s, xs[0]), pre + [xs[0]], xs[1..]);
    }
  }

  lemma HitStep(k: nat, s: State, pre: seq<Entry>, done: seq<Name>, xs: seq<Name>)
    requires 0 < k && xs != [] && s.queue == pre + Hot(done) + Cold(xs) && Unique(Names(s.queue))
    ensures var s' := Step(CLOCK, k, s, xs[0]);
      s'.queue == pre + Hot(done + [xs[0]]) + Cold(xs[1..]) && Unique(Names(s'.queue))
  {
    var x, i := xs[0], |pre| + |done|;
    HitQueue(pre, done, xs, s.queue, i);
    IndexIs(s.queue, i, x);
    assert Step(CLOCK, k, s, x).queue == s.queue[i := Entry(x, true)];
  }

  lemma HitQueue(pre: seq<Entry>, done: seq<Name>, xs: seq<Name>, q: seq<Entry>, i: nat)
    requires xs != [] && q == pre + Hot(done) + Cold(xs) && i == |pre| + |done|
    ensures i < |q| && q[i].name == xs[0]
    ensures q[i := Entry(xs[0], true)] == pre + Hot(done + [xs[0]]) + Cold(xs[1..])
    ensures Names(q[i := Entry(xs[0], true)]) == Names(q)
  {
    assert q[i] == Cold(xs)[0];
  }

  /** Requesting the names of a stretch of clear entries again sets their bits. */
  lemma {:induction false} HitRun(k: nat, s: State, pre: seq<Entry>, done: seq<Name>, xs: seq<Name>)
    requires 0 < k && s.queue == pre + Hot(done) + Cold(xs) && Unique(Names(s.queue))
    ensures RunFrom(CLOCK, k, s, xs).queue == pre + Hot(done + xs)
    decreases |xs|
  {
    if xs == [] {
      assert done + xs == done && Cold(xs) == [];
    } else {
      HitStep(k, s, pre, done, xs);
      HitRun(k, Step(CLOCK, k, s, xs[0]), pre, done + [xs[0]], xs[1..]);
      assert done + xs == done + [xs[0]] + xs[1..];
    }
  }

  /** At its turn no name of xs is cached: the clear entries c leave one by one ahead of it. */
  ghost predicate Absent(c: seq<Entry>, d: seq<Entry>, xs: seq<Name>) {
    && |xs| <= |c|
    && Unique(xs)
    && forall j :: 0 <= j < |xs| ==> xs[j] !in Names(c[j..]) && xs[j] !in Names(d)
  }

  lemma AbsentRest(c: seq<Entry>, d: seq<Entry>, xs: seq<Name>)
    requires Absent(c, d, xs) && xs != []
    ensures Absent(c[1..], d + [Entry(xs[0], false)], xs[1..])
  {
    var e := [Entry(xs[0], false)];
    NamesConcat(d, e);
    forall j | 0 <= j < |xs[1..]|
      ensures xs[1..][j] !in Names(c[1..][j..]) && xs[1..][j] !in Names(d + e)
    {
      assert c[1..][j..] == c[j + 1..];
      assert xs[1..][j] == xs[j + 1];
    }
  }

  lemma EvictStep(p: Policy, k: nat, s: State, c: seq<Entry>, d: seq<Entry>, x: Name)
    requires 0 < k == |s.queue| && s.queue == c + d && 0 < |c| && AllClear(c)
    requires x !in Names(c) && x !in Names(d)
    ensures Step(p, k, s, x).queue == c[1..] + (d + Cold([x]))
    ensures Misses(Step(p, k, s, x)) == Misses(s) + 1
  {
    NamesConcat(c, d);
  }

  lemma EvictSplit(c: seq<Entry>, d: seq<Entry>, xs: seq<Name>)
    requires 0 < |xs| <= |c|
    ensures c[1..][|xs| - 1..] + (d + Cold([xs[0]])) + Cold(xs[1..]) == c[|xs|..] + d + Cold(xs)
  {
    assert c[1..][|xs| - 1..] == c[|xs|..];
    assert Cold([xs[0]]) + Cold(xs[1..]) == Cold(xs);
    Regroup(c[|xs|..], d, Cold([xs[0]]));
    Regroup(c[|xs|..] + d, Cold([xs[0]]), Cold(xs[1..]));
  }

  /** Requests of absent names on a full cache that starts with clear entries c. */
  lemma {:induction false} EvictRun(p: Policy, k: nat, s: State, c: seq<Entry>, d: seq<Entry>, xs: seq<Name>)
    requires 0 < k == |s.queue| && s.queue == c + d && AllClear(c) && Absent(c, d, xs)
    ensures RunFrom(p, k, s, xs).queue == c[|xs|..] + d + Cold(xs)
    ensures Misses(RunFrom(p, k, s, xs)) == Misses(s) + |xs|
    decreases |xs|
  {
    if xs == [] {
      assert c[0..] + d + Cold(xs) == c + d;
    } else {
      assert c[0..] == c;
      EvictStep(p, k, s, c, d, xs[0]);
      AbsentRest(c, d, xs);
      assert [Entry(xs[0], false)] == Cold([xs[0]]);
      EvictRun(p, k, Step(p, k, s, xs[0]), c[1..], d + Cold([xs[0]]), xs[1..]);
      EvictSplit(c, d, xs);
    }
  }

  lemma FillFromEmpty(p: Policy, k: nat, xs: seq<Name>)
    requires 0 < k && |xs| <= k && Unique(xs)
    ensures Run(p, k, xs).queue == Cold(xs)
  {
    assert [] + xs == xs;
    FillRun(p, k, State([], {}, 0, 0), [], xs);
  }

  /** cs requested once, then hot names twice: a full cache with hot's bits set. */
  lemma HotBehindCold(k: nat, cs: seq<Name>, hot: seq<Name>)
    requires 0 < k == |cs| + |hot| && Unique(cs + hot)
    ensures Run(CLOCK, k, cs + hot + hot).queue == Cold(cs) + Hot(hot)
  {
    FillFromEmpty(CLOCK, k, cs + hot);
    var full := Run(CLOCK, k, cs + hot);
    assert Cold(cs + hot) == Cold(cs) + Hot([]) + Cold(hot);
    HitRun(k, full, Cold(cs), [], hot);
    RunConcat(CLOCK, k, State([], {}, 0, 0), cs + hot, hot);
    assert [] + hot == hot;
  }

  /** The search on a queue of set bits followed by clear ones. */
  lemma SearchHot(hot: seq<Name>, xs: seq<Name>)
    requires 0 < |hot|
    ensures SecondChance(Hot(hot) + Cold(xs)) == Cold(xs + hot)
  {
    var q := Hot(hot) + Cold(xs);
    FirstClearIs(q, |hot|);
    SecondChanceVictim(q);
    assert q[|hot|..] == Cold(xs);
    assert Cleared(q[..|hot|]) == Cold(hot);
    assert Cold(xs) + Cold(hot) == Cold(xs + hot);
  }

  lemma UniqueParts(a: seq<Name>, b: seq<Name>)
    requires Unique(a + b)
    ensures Unique(a) && Unique(b) && forall x :: x in a ==> x !in b
  {
    assert forall i :: 0 <= i < |a| ==> a[i] == (a + b)[i];
    assert forall j :: 0 <= j < |b| ==> b[j] == (a + b)[|a| + j];
  }

  /** No name of xs is among the names of q. */
  ghost predicate Apart(xs: seq<Name>, q: seq<Name>) {
    forall x :: x in xs ==> x !in q
  }

  /** Every name of xs has been dropped from cs, one name at a time, when its turn comes. */
  ghost predicate Outlived(xs: seq<Name>, cs: seq<Name>) {
    forall j :: 0 <= j < |xs| && j <= |cs| ==> xs[j] !in cs[j..]
  }

  lemma FirstRound(k: nat, s: State, cs: seq<Name>, hot: seq<Name>, xs: seq<Name>)
    requires 0 < k == |cs| + |hot| && |xs| == |cs| && s.queue == Cold(cs) + Hot(hot) && Unique(xs)
    requires Outlived(xs, cs) && Apart(xs, hot)
    ensures var s1 := RunFrom(CLOCK, k, s, xs);
      s1.queue == Hot(hot) + Cold(xs) && Misses(s1) == Misses(s) + |xs|
  {
    forall j | 0 <= j < |xs| ensures xs[j] !in Names(Cold(cs)[j..]) && xs[j] !in Names(Hot(hot)) {
      assert Names(Cold(cs)[j..]) == cs[j..];
      assert xs[j] in xs;
    }
    EvictRun(CLOCK, k, s, Cold(cs), Hot(hot), xs);
    assert Cold(cs)[|xs|..] + Hot(hot) + Cold(xs) == Hot(hot) + Cold(xs);
  }

  lemma TurningPoint(k: nat, s: State, hot: seq<Name>, xs: seq<Name>, y: Name)
    requires 0 < k == |hot| + |xs| && 0 < |hot| && s.queue == Hot(hot) + Cold(xs)
    requires y !in hot && y !in xs
    ensures var s' := Step(CLOCK, k, s, y);
      s'.queue == Cold((xs + hot)[1..]) + Cold([y]) && Misses(s') == Misses(s) + 1
  {
    NamesConcat(Hot(hot), Cold(xs));
    SearchHot(hot, xs);
    assert Cold(xs + hot)[1..] == Cold((xs + hot)[1..]);
  }

  lemma LastRound(k: nat, s: State, hot: seq<Name>, xs: seq<Name>, y: Name)
    requires 0 < k == |hot| + |xs| && 0 < |hot| && Unique(xs) && y !in xs && Apart(xs, hot)
    requires s.queue == Cold((xs + hot)[1..]) + Cold([y])
    ensures var s' := RunFrom(CLOCK, k, s, xs);
      s'.queue == Cold(hot[1..] + [y] + xs) && Misses(s') == Misses(s) + |xs|
  {
    var c := Cold((xs + hot)[1..]);
    forall j | 0 <= j < |xs| ensures xs[j] !in Names(c[j..]) && xs[j] !in Names(Cold([y])) {
      assert Names(c[j..]) == xs[j + 1..] + hot;
      assert xs[j] in xs;
    }
    EvictRun(CLOCK, k, s, c, Cold([y]), xs);
    LastQueue(hot, xs, y);
  }

  lemma LastQueue(hot: seq<Name>, xs: seq<Name>, y: Name)
    requires 0 < |hot|
    ensures Cold((xs + hot)[1..])[|xs|..] + Cold([y]) + Cold(xs) == Cold(hot[1..] + [y] + xs)
  {
    assert (xs + hot)[1..][|xs|..] == hot[1..];
    assert Cold((xs + hot)[1..])[|xs|..] == Cold(hot[1..]);
  }

  /** The three rounds of the stretch on a cache with set bits hot at the back. */
  lemma ThreeRounds(k: nat, s: State, cs: seq<Name>, hot: seq<Name>, xs: seq<Name>, y: Name)
    requires 0 < k == |cs| + |hot| && 0 < |hot| && |xs| == |cs| && s.queue == Cold(cs) + Hot(hot)
    requires Unique(xs) && Outlived(xs, cs) && Apart(xs, hot) && y !in xs && y !in hot
    ensures var s' := RunFrom(CLOCK, k, s, xs + [y] + xs);
      s'.queue == Cold(hot[1..] + [y] + xs) && Misses(s') == Misses(s) + 2 * |xs| + 1
  {
    FirstRound(k, s, cs, hot, xs);
    var s1 := RunFrom(CLOCK, k, s, xs);
    TurningPoint(k, s1, hot, xs, y);
    RunSnoc(CLOCK, k, s, xs, y);
    RunConcat(CLOCK, k, s, xs + [y], xs);
    LastRound(k, Step(CLOCK, k, s1, y), hot, xs, y);
  }

  /** k + n different names: n - 1 to leave first, k - n + 1 with their bits set, and n to request. */
  lemma Cast(k: nat, n: nat) returns (cs: seq<Name>, hot: seq<Name>, xs: seq<Name>, y: Name)
    requires 0 < n <= k
    ensures |cs| == |xs| == n - 1 && |hot| == k - n + 1 && Unique(cs + hot) && Unique(xs)
    ensures Apart(xs, cs) && Apart(xs, hot) && y !in xs && y !in hot
    ensures forall x :: x in cs + hot + xs + [y] ==> Short(x, k + n)
  {
    var g := FreshNames(k + n, {});
    cs, hot, xs, y := g[..n - 1], g[n - 1..k], g[k..k + n - 1], g[k + n - 1];
    assert g == cs + hot + xs + [y];
    UniqueParts(cs + hot + xs, [y]);
    UniqueParts(cs + hot, xs);
    assert y in [y];
    assert forall x :: x in cs || x in hot ==> x in cs + hot;
    assert forall x :: x in hot || x in xs ==> x in cs + hot + xs;
  }

  /** For every size k and every n with 0 < n <= k: from a state reached from the empty cache, a
      stretch of n distinct names makes CLOCK miss exactly 2n - 1 times. */
  lemma ClockBoundAttained(k: nat, n: nat) returns (before: seq<Name>, t: seq<Name>)
    requires 0 < n <= k
    ensures |SetOf(t)| == n
    ensures Misses(RunFrom(CLOCK, k, Run(CLOCK, k, before), t)) == Misses(Run(CLOCK, k, before)) + 2 * n - 1
    ensures forall x :: x in before + t ==> Short(x, k + n)
  {
    var cs, hot, xs, y := Cast(k, n);
    before, t := cs + hot + hot, xs + [y] + xs;
    HotBehindCold(k, cs, hot);
    ApartOutlived(xs, cs);
    ThreeRounds(k, Run(CLOCK, k, before), cs, hot, xs, y);
    DistinctNames(xs, y);
    assert forall x :: x in before + t ==> x in cs + hot + xs + [y];
  }

  lemma ApartOutlived(xs: seq<Name>, cs: seq<Name>)
    requires Apart(xs, cs)
    ensures Outlived(xs, cs)
  {
    forall j | 0 <= j < |xs| && j <= |cs| ensures xs[j] !in cs[j..] {
      assert xs[j] in xs;
    }
  }

  lemma DistinctNames(xs: seq<Name>, y: Name)
    requires Unique(xs) && y !in xs
    ensures |SetOf(xs + [y] + xs)| == |xs| + 1
  {
    SetOfConcat(xs + [y], xs);
    SetOfSnoc(xs, y);
    UniqueCardinality(xs);
    assert y !in SetOf(xs);
    assert SetOf(xs) + {y} + SetOf(xs) == SetOf(xs) + {y};
  }
}
