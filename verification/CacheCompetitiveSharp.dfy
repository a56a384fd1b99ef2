/** The factors of the competitive bound are the smallest: for each policy, traces and schedules of a
    rival that use them up, however long. */
module CacheCompetitiveSharp {
  import opened Seqs
  import opened LineNames
  import opened CacheSpec
  import opened CacheClassification
  import opened CacheClockSharp
  import opened CacheCompetitive

  ghost predicate AllShort(t: seq<Name>, n: nat) {
    forall x :: x in t ==> Short(x, n)
  }

  // Schedules.

  /** The rival keeps r for n requests. */
  function Hold(r: set<Name>, n: nat): (sched: seq<set<Name>>)
    ensures |sched| == n && forall i :: 0 <= i < n ==> sched[i] == r
  {
    seq(n, _ => r)
  }

  /** The rival keeps o and, in one more slot, the name being requested. */
  function Fetch(o: set<Name>, f: seq<Name>): (sched: seq<set<Name>>)
    ensures |sched| == |f| && forall i :: 0 <= i < |f| ==> sched[i] == o + {f[i]}
  {
    seq(|f|, i requires 0 <= i < |f| => o + {f[i]})
  }

  lemma {:induction false} HoldLoads(r: set<Name>, n: nat)
    ensures Loads(r, Hold(r, n)) == 0
  {
    if n > 0 {
      HoldLoads(r, n - 1);
      assert Hold(r, n)[1..] == Hold(r, n - 1);
    }
  }

  lemma ChangeLoads(q: set<Name>, r: set<Name>, n: nat)
    requires 0 < n
    ensures Loads(q, Hold(r, n)) == |r - q|
  {
    HoldLoads(r, n - 1);
    assert Hold(r, n)[1..] == Hold(r, n - 1);
  }

  lemma {:induction false} FetchLoads(q: set<Name>, o: set<Name>, f: seq<Name>)
    requires o <= q
    ensures Loads(q, Fetch(o, f)) <= |f|
    decreases |f|
  {
    if f != [] {
      assert Fetch(o, f)[1..] == Fetch(o, f[1..]);
      FetchLoads(o + {f[0]}, o, f[1..]);
      SubsetCardinality(o + {f[0]} - q, {f[0]});
    }
  }

  lemma ServesConcat(h: nat, t: seq<Name>, a: seq<set<Name>>, u: seq<Name>, b: seq<set<Name>>)
    requires Serves(h, t, a) && Serves(h, u, b)
    ensures Serves(h, t + u, a + b)
  {
  }

  lemma HoldServes(h: nat, t: seq<Name>, r: set<Name>)
    requires SetOf(t) <= r && |r| <= h
    ensures Serves(h, t, Hold(r, |t|))
  {
    forall i | 0 <= i < |t| ensures t[i] in r {
      assert t[i] in SetOf(t);
    }
  }

  lemma FetchServes(h: nat, o: set<Name>, f: seq<Name>)
    requires |o| < h
    ensures Serves(h, f, Fetch(o, f))
  {
    forall i | 0 <= i < |f| ensures |Fetch(o, f)[i]| <= h {
      assert |o + {f[i]}| <= |o| + 1;
    }
  }

  // A policy and a rival side by side.

  /** A trace with a schedule of the rival. */
  datatype Duel = Duel(trace: seq<Name>, sched: seq<set<Name>>)

  function Join(a: Duel, b: Duel): Duel {
    Duel(a.trace + b.trace, a.sched + b.sched)
  }

  function Last(q: set<Name>, sched: seq<set<Name>>): set<Name> {
    if sched == [] then q else sched[|sched| - 1]
  }

  /** From s, with the rival holding q: the policy misses that often, the rival loads no more names. */
  ghost predicate Costs(p: Policy, k: nat, h: nat, s: State, q: set<Name>, d: Duel, misses: nat, loads: nat)
    requires 0 < k
  {
    && Serves(h, d.trace, d.sched) && Loads(q, d.sched) <= loads
    && Misses(RunFrom(p, k, s, d.trace)) == Misses(s) + misses
  }

  lemma NoCosts(p: Policy, k: nat, h: nat, s: State, q: set<Name>)
    requires 0 < k
    ensures Costs(p, k, h, s, q, Duel([], []), 0, 0)
  {
  }

  lemma CostsAdd(p: Policy, k: nat, h: nat, s: State, q: set<Name>, a: Duel, m: nat, l: nat, b: Duel, m': nat, l': nat)
    requires 0 < k && Costs(p, k, h, s, q, a, m, l)
    requires Costs(p, k, h, RunFrom(p, k, s, a.trace), Last(q, a.sched), b, m', l')
    ensures Costs(p, k, h, s, q, Join(a, b), m + m', l + l')
  {
    ServesConcat(h, a.trace, a.sched, b.trace, b.sched);
    LoadsConcat(q, a.sched, b.sched);
    RunConcat(p, k, s, a.trace, b.trace);
  }

  /** c in each of m phases. */
  function Times(c: nat, m: nat): nat {
    if m == 0 then 0 else c + Times(c, m - 1)
  }

  lemma {:induction false} TimesIs(c: nat, m: nat)
    ensures Times(c, m) == c * m
  {
    if m > 0 {
      TimesIs(c, m - 1);
      assert c * m == c * (m - 1) + c;
    }
  }

  lemma ShortConcat(a: seq<Name>, b: seq<Name>, n: nat)
    requires AllShort(a, n) && AllShort(b, n)
    ensures AllShort(a + b, n)
  {
  }

  lemma ShortPart(a: seq<Name>, b: seq<Name>, n: nat)
    requires AllShort(a + b, n)
    ensures AllShort(a, n)
  {
    assert forall x :: x in a ==> x in a + b;
  }

  /** A duel from s that costs c misses and l loads, has short names, and ends ready for another. */
  ghost predicate IsRound(p: Policy, k: nat, h: nat, c: nat, l: nat, n: nat, ready: (State, set<Name>) -> bool,
                          s: State, q: set<Name>, d: Duel)
    requires 0 < k
  {
    && Costs(p, k, h, s, q, d, c, l) && AllShort(d.trace, n)
    && ready(RunFrom(p, k, s, d.trace), Last(q, d.sched))
  }

  ghost predicate HasRound(p: Policy, k: nat, h: nat, c: nat, l: nat, n: nat, ready: (State, set<Name>) -> bool,
                           s: State, q: set<Name>)
    requires 0 < k
  {
    exists d :: IsRound(p, k, h, c, l, n, ready, s, q, d)
  }

  ghost predicate AlwaysRound(p: Policy, k: nat, h: nat, c: nat, l: nat, n: nat, ready: (State, set<Name>) -> bool)
    requires 0 < k
  {
    forall s, q {:trigger HasRound(p, k, h, c, l, n, ready, s, q)} ::
      ready(s, q) ==> HasRound(p, k, h, c, l, n, ready, s, q)
  }

  /** m rounds, when every state that is ready has one. */
  lemma {:induction false} Rounds(p: Policy, k: nat, h: nat, c: nat, l: nat, n: nat,
                                  ready: (State, set<Name>) -> bool, s: State, q: set<Name>, m: nat)
    returns (d: Duel)
    requires 0 < k && ready(s, q) && AlwaysRound(p, k, h, c, l, n, ready)
    ensures Costs(p, k, h, s, q, d, Times(c, m), Times(l, m)) && AllShort(d.trace, n)
    decreases m
  {
    if m == 0 {
      d := Duel([], []);
      NoCosts(p, k, h, s, q);
    } else {
      assert HasRound(p, k, h, c, l, n, ready, s, q);
      var a :| IsRound(p, k, h, c, l, n, ready, s, q, a);
      var b := Rounds(p, k, h, c, l, n, ready, RunFrom(p, k, s, a.trace), Last(q, a.sched), m - 1);
      d := Join(a, b);
      CostsAdd(p, k, h, s, q, a, c, l, b, Times(c, m - 1), Times(l, m - 1));
      ShortConcat(a.trace, b.trace, n);
    }
  }

  /** One duel and m rounds after it. */
  lemma StartAndRounds(p: Policy, k: nat, h: nat, c: nat, l: nat, n: nat, ready: (State, set<Name>) -> bool,
                       s: State, q: set<Name>, a: Duel, m: nat)
    returns (d: Duel)
    requires 0 < k && IsRound(p, k, h, k, k, n, ready, s, q, a) && AlwaysRound(p, k, h, c, l, n, ready)
    ensures Costs(p, k, h, s, q, d, k + Times(c, m), k + Times(l, m)) && AllShort(d.trace, n)
  {
    var b := Rounds(p, k, h, c, l, n, ready, RunFrom(p, k, s, a.trace), Last(q, a.sched), m);
    d := Join(a, b);
    CostsAdd(p, k, h, s, q, a, k, k, b, Times(c, m), Times(l, m));
    ShortConcat(a.trace, b.trace, n);
  }

  // CLOCK, against a rival of its own size.

  /** Between phases: cs and h fill the cache, only h with its bit set, and z is not cached. */
  ghost predicate ClockTurn(k: nat, s: State, cs: seq<Name>, h: Name, z: Name) {
    && |cs| + 1 == k && Distinct(cs, h, z)
    && s.queue == Cold(cs) + Hot([h])
    && AllShort(cs, k + 1) && Short(h, k + 1) && Short(z, k + 1)
  }

  ghost predicate Distinct(cs: seq<Name>, h: Name, z: Name) {
    Unique(cs) && h !in cs && z !in cs && z != h
  }

  /** The phase is over the names z and cs: all but the last of them, xs, then the last, y, then xs
      again. Then y and xs fill the cache, and a request of the newest, g, sets its bit. */
  ghost predicate Parts(cs: seq<Name>, h: Name, z: Name, xs: seq<Name>, y: Name, ds: seq<Name>, g: Name) {
    && |xs| == |cs| == |ds| && [z] + cs == xs + [y] && [y] + xs == ds + [g]
    && Unique(xs) && y !in xs && y != h && Apart(xs, [h]) && Outlived(xs, cs)
    && Distinct(ds, g, h)
  }

  lemma PhaseParts(cs: seq<Name>, h: Name, z: Name) returns (xs: seq<Name>, y: Name, ds: seq<Name>, g: Name)
    requires Distinct(cs, h, z)
    ensures Parts(cs, h, z, xs, y, ds, g)
  {
    var v := [z] + cs;
    xs, y := v[..|cs|], v[|cs|];
    var u := [y] + xs;
    ds, g := u[..|cs|], u[|cs|];
    assert v == xs + [y] && u == ds + [g];
    assert forall i :: 0 <= i < |v| ==> v[i] == if i == 0 then z else cs[i - 1];
    assert Unique(v) && h !in v;
    PartsDistinct(v, xs, y, ds, g, h);
    Behind(cs, z, xs);
  }

  lemma PartsDistinct(v: seq<Name>, xs: seq<Name>, y: Name, ds: seq<Name>, g: Name, h: Name)
    requires v == xs + [y] && [y] + xs == ds + [g] && Unique(v) && h !in v
    ensures Unique(xs) && y !in xs && y != h && Apart(xs, [h]) && Distinct(ds, g, h)
  {
    UniqueParts(xs, [y]);
    assert y in [y] && y in v;
    assert forall x :: x in xs ==> x in v;
    var u := [y] + xs;
    assert forall i :: 0 <= i < |u| ==> u[i] == if i == 0 then y else xs[i - 1];
    assert Unique(u) && h !in u;
    UniqueParts(ds, [g]);
    assert g in [g] && g in u;
    assert forall x :: x in ds ==> x in u;
  }

  lemma Behind(cs: seq<Name>, z: Name, xs: seq<Name>)
    requires Unique(cs) && z !in cs && |xs| == |cs| && xs <= [z] + cs
    ensures Outlived(xs, cs)
  {
    forall j | 0 <= j < |xs| ensures xs[j] !in cs[j..] {
      assert xs[j] == ([z] + cs)[j];
    }
  }

  /** A request of the newest name sets its bit. */
  lemma NewestHit(k: nat, s: State, ds: seq<Name>, g: Name)
    requires 0 < k && g !in ds && s.queue == Cold(ds + [g])
    ensures var s' := Step(CLOCK, k, s, g); s'.queue == Cold(ds) + Hot([g]) && Misses(s') == Misses(s)
  {
    OnlyAt(s.queue, ds, g);
    assert Cold(ds + [g])[|ds| := Entry(g, true)] == Cold(ds) + Hot([g]);
  }

  lemma OnlyAt(q: seq<Entry>, ds: seq<Name>, g: Name)
    requires q == Cold(ds + [g]) && g !in ds
    ensures g in Names(q) && Index(q, g) == |ds|
  {
    assert (ds + [g])[|ds|] == g;
    assert forall i :: 0 <= i < |ds| ==> q[i].name == ds[i];
  }

  function PhaseTrace(xs: seq<Name>, y: Name, g: Name): (t: seq<Name>)
    ensures t != []
  {
    xs + [y] + xs + [g]
  }

  lemma ClockPhase(k: nat, s: State, cs: seq<Name>, h: Name, z: Name, xs: seq<Name>, y: Name, ds: seq<Name>, g: Name)
    requires |cs| + 1 == k && s.queue == Cold(cs) + Hot([h]) && Parts(cs, h, z, xs, y, ds, g)
    ensures var s' := RunFrom(CLOCK, k, s, PhaseTrace(xs, y, g));
      s'.queue == Cold(ds) + Hot([g]) && Misses(s') == Misses(s) + 2 * k - 1
  {
    ThreeRounds(k, s, cs, [h], xs, y);
    assert [h][1..] + [y] + xs == ds + [g];
    RunSnoc(CLOCK, k, s, xs + [y] + xs, g);
    NewestHit(k, RunFrom(CLOCK, k, s, xs + [y] + xs), ds, g);
  }

  /** The rival holds the names of the phase, all but one of which it held before. */
  lemma PhaseServed(k: nat, cs: seq<Name>, h: Name, z: Name, xs: seq<Name>, y: Name, ds: seq<Name>, g: Name)
    requires |cs| + 1 == k && Parts(cs, h, z, xs, y, ds, g)
    ensures var t, r := PhaseTrace(xs, y, g), SetOf([z] + cs);
      && SetOf(t) == SetOf(ds + [g]) == r
      && Serves(k, t, Hold(r, |t|)) && Loads(SetOf(cs + [h]), Hold(r, |t|)) <= 1
  {
    var t, r := PhaseTrace(xs, y, g), SetOf([z] + cs);
    PhaseSets(cs, z, xs, y, ds, g);
    SetOfConcat([z], cs);
    SetOfSnoc(cs, h);
    assert SetOf([z]) == {z};
    SubsetCardinality(r - SetOf(cs + [h]), {z});
    SeqCardinality([z] + cs);
    HoldServes(k, t, r);
    ChangeLoads(SetOf(cs + [h]), r, |t|);
  }

  lemma {:induction false} SeqCardinality(s: seq<Name>)
    ensures |SetOf(s)| <= |s|
  {
    if s != [] {
      SeqCardinality(s[1..]);
      SetOfHead(s);
    }
  }

  lemma PhaseSets(cs: seq<Name>, z: Name, xs: seq<Name>, y: Name, ds: seq<Name>, g: Name)
    requires [z] + cs == xs + [y] && [y] + xs == ds + [g]
    ensures SetOf(PhaseTrace(xs, y, g)) == SetOf(ds + [g]) == SetOf([z] + cs)
  {
    SetOfSnoc(xs, y);
    SetOfConcat([y], xs);
    assert SetOf([y]) == {y};
    SetOfConcat(xs + [y], xs);
    SetOfSnoc(xs + [y] + xs, g);
    SetOfSnoc(ds, g);
  }

  lemma PhaseShort(cs: seq<Name>, z: Name, xs: seq<Name>, y: Name, ds: seq<Name>, g: Name, n: nat)
    requires AllShort(cs, n) && Short(z, n) && [z] + cs == xs + [y] && [y] + xs == ds + [g]
    ensures AllShort(PhaseTrace(xs, y, g), n) && AllShort(ds, n) && Short(g, n)
  {
    ShortConcat([z], cs, n);
    ShortPart(xs, [y], n);
    assert y in xs + [y];
    ShortConcat([y], xs, n);
    ShortPart(ds, [g], n);
    assert g in ds + [g];
    ShortConcat(xs + [y], xs, n);
    ShortConcat(xs + [y] + xs, [g], n);
  }

  /** Such a state, with the rival holding the cached names. */
  ghost predicate ClockReady(k: nat, s: State, q: set<Name>) {
    exists cs, h, z :: ClockTurn(k, s, cs, h, z) && q == SetOf(cs + [h])
  }

  ghost function Clocked(k: nat): (State, set<Name>) -> bool {
    (s, q) => ClockReady(k, s, q)
  }

  /** One phase: 2k - 1 misses against one load. */
  lemma ClockRound(k: nat, ready: (State, set<Name>) -> bool, s: State, q: set<Name>) returns (d: Duel)
    requires 0 < k && ready == Clocked(k) && ready(s, q)
    ensures IsRound(CLOCK, k, k, 2 * k - 1, 1, k + 1, ready, s, q, d)
  {
    var cs, h, z :| ClockTurn(k, s, cs, h, z) && q == SetOf(cs + [h]);
    d := ClockRoundAt(k, s, q, cs, h, z);
  }

  lemma ClockRoundAt(k: nat, s: State, q: set<Name>, cs: seq<Name>, h: Name, z: Name) returns (d: Duel)
    requires 0 < k && ClockTurn(k, s, cs, h, z) && q == SetOf(cs + [h])
    ensures Costs(CLOCK, k, k, s, q, d, 2 * k - 1, 1) && AllShort(d.trace, k + 1)
    ensures ClockReady(k, RunFrom(CLOCK, k, s, d.trace), Last(q, d.sched))
  {
    var xs, y, ds, g := PhaseParts(cs, h, z);
    var t := PhaseTrace(xs, y, g);
    d := Duel(t, Hold(SetOf([z] + cs), |t|));
    ClockPhase(k, s, cs, h, z, xs, y, ds, g);
    PhaseServed(k, cs, h, z, xs, y, ds, g);
    PhaseShort(cs, z, xs, y, ds, g, k + 1);
    assert ClockTurn(k, RunFrom(CLOCK, k, s, t), ds, g, h);
  }

  /** The trace that fills the cache, the last name requested twice for its bit. */
  lemma ClockStart(k: nat, s: State) returns (d: Duel)
    requires 0 < k && s == State([], {}, 0, 0)
    ensures IsRound(CLOCK, k, k, k, k, k + 1, Clocked(k), s, {}, d)
  {
    var cs, h, z := StartNames(k);
    ShortConcat(cs, [h], k + 1);
    ShortConcat(cs + [h], [h], k + 1);
    d := Duel(cs + [h] + [h], Hold(SetOf(cs + [h]), k + 1));
    ClockFilled(k, s, cs, h);
    ClockStartServed(k, cs, h);
    assert ClockTurn(k, RunFrom(CLOCK, k, s, d.trace), cs, h, z);
  }

  lemma ClockFilled(k: nat, s: State, cs: seq<Name>, h: Name)
    requires s == State([], {}, 0, 0) && |cs| + 1 == k && Unique(cs + [h])
    ensures var s' := RunFrom(CLOCK, k, s, cs + [h] + [h]);
      s'.queue == Cold(cs) + Hot([h]) && Misses(s') == Misses(s) + k
  {
    HotBehindCold(k, cs, [h]);
    RefillMisses(CLOCK, k, cs + [h]);
  }

  lemma StartNames(k: nat) returns (cs: seq<Name>, h: Name, z: Name)
    requires 0 < k
    ensures |cs| + 1 == k && Unique(cs + [h]) && Distinct(cs, h, z)
    ensures AllShort(cs, k + 1) && Short(h, k + 1) && Short(z, k + 1)
  {
    var g := FreshNames(k + 1, {});
    cs, h, z := g[..k - 1], g[k - 1], g[k];
    assert g == cs + [h] + [z];
    UniqueParts(cs + [h], [z]);
    UniqueParts(cs, [h]);
    assert z in [z] && h in [h] && h in cs + [h] && forall x :: x in cs ==> x in cs + [h];
    assert h in g && z in g && forall x :: x in cs ==> x in g;
  }

  lemma ClockStartServed(k: nat, cs: seq<Name>, h: Name)
    requires |cs| + 1 == k && Unique(cs + [h])
    ensures var r := SetOf(cs + [h]); var sched := Hold(r, k + 1);
      Serves(k, cs + [h] + [h], sched) && Loads({}, sched) == k && Last({}, sched) == r
  {
    var r := SetOf(cs + [h]);
    SetOfSnoc(cs, h);
    SetOfSnoc(cs + [h], h);
    assert r + {h} == r && r - {} == r;
    UniqueCardinality(cs + [h]);
    HoldServes(k, cs + [h] + [h], r);
    ChangeLoads({}, r, k + 1);
  }

  lemma RefillMisses(p: Policy, k: nat, w: seq<Name>)
    requires 0 < k == |w| && Unique(w)
    ensures Misses(Run(p, k, w + [w[k - 1]])) == k
  {
    FillMisses(p, k, w);
    FillFromEmpty(p, k, w);
    RunSnoc(p, k, State([], {}, 0, 0), w, w[k - 1]);
  }

  lemma ClockDuel(k: nat, m: nat, s: State) returns (d: Duel)
    requires 0 < k && s == State([], {}, 0, 0)
    ensures Costs(CLOCK, k, k, s, {}, d, k + Times(2 * k - 1, m), k + Times(1, m)) && AllShort(d.trace, k + 1)
  {
    var a := ClockStart(k, s);
    ClockAlways(k, Clocked(k), 2 * k - 1);
    d := StartAndRounds(CLOCK, k, k, 2 * k - 1, 1, k + 1, Clocked(k), s, {}, a, m);
  }

  /** For every size k and every m: a trace and a schedule of a rival with k slots that loads at most
      m + k names, where CLOCK misses (2k - 1) * m + k times. */
  lemma ClockFactorAttained(k: nat, m: nat) returns (t: seq<Name>, sched: seq<set<Name>>)
    requires 0 < k
    ensures Serves(k, t, sched) && Loads({}, sched) <= m + k
    ensures Misses(Run(CLOCK, k, t)) == (2 * k - 1) * m + k && AllShort(t, k + 1)
  {
    var d := ClockDuel(k, m, State([], {}, 0, 0));
    t, sched := d.trace, d.sched;
    TimesIs(2 * k - 1, m);
    TimesIs(1, m);
  }

  lemma ClockAlways(k: nat, ready: (State, set<Name>) -> bool, c: nat)
    requires 0 < k && ready == Clocked(k) && c == 2 * k - 1
    ensures AlwaysRound(CLOCK, k, k, c, 1, k + 1, ready)
  {
    forall s, q | ready(s, q) ensures HasRound(CLOCK, k, k, c, 1, k + 1, ready, s, q) {
      var d := ClockRound(k, ready, s, q);
    }
  }

  // Every policy, against a rival with h <= k slots.

  /** The cached names the next phase requests. */
  function Again(h: nat, w: seq<Name>): (o: seq<Name>)
    requires 0 < h <= |w|
    ensures |o| == h - 1 && forall i :: 0 <= i < h - 1 ==> o[i] == w[|w| - h + i]
  {
    w[|w| - h..|w| - 1]
  }

  /** The requests of a phase, which are also the names cached after it: k - h + 1 new ones, then the
      h - 1 that the rival holds besides the last new one. */
  function OrderTrace(h: nat, w: seq<Name>, f: seq<Name>): (t: seq<Name>)
    requires 0 < h <= |w| && |f| == |w| - h + 1
    ensures |t| == |w|
  {
    f + Again(h, w)
  }

  lemma OrderNames(h: nat, w: seq<Name>, f: seq<Name>)
    requires 0 < h <= |w| && |f| == |w| - h + 1 && Unique(w) && Unique(f) && SetOf(f) !! SetOf(w)
    ensures Unique(OrderTrace(h, w, f)) && Outlived(OrderTrace(h, w, f), w)
  {
    var t := OrderTrace(h, w, f);
    assert forall j :: 0 <= j < |t| ==> t[j] == if j < |f| then f[j] else w[j - 1];
    assert forall j :: 0 <= j < |f| ==> f[j] in SetOf(f);
    assert forall j :: 0 <= j < |w| ==> w[j] in SetOf(w);
    forall j | 0 <= j < |t| && j <= |w| ensures t[j] !in w[j..] {
      assert forall i :: 0 <= i < |w| - j ==> w[j..][i] == w[j + i];
    }
  }

  /** Every request of a phase misses. */
  lemma OrderPhase(p: Policy, k: nat, s: State, w: seq<Name>, t: seq<Name>)
    requires 0 < k == |w| == |t| && s.queue == Cold(w) && Unique(t) && Outlived(t, w)
    ensures var s' := RunFrom(p, k, s, t); s'.queue == Cold(t) && Misses(s') == Misses(s) + k
  {
    forall j | 0 <= j < |t| ensures t[j] !in Names(Cold(w)[j..]) && t[j] !in Names([]) {
      assert Names(Cold(w)[j..]) == w[j..];
    }
    assert s.queue == Cold(w) + [];
    EvictRun(p, k, s, Cold(w), [], t);
    assert Cold(w)[k..] + [] + Cold(t) == Cold(t);
  }

  /** What the rival keeps: the last h names. */
  function Kept(h: nat, w: seq<Name>): seq<Name>
    requires h <= |w|
  {
    w[|w| - h..]
  }

  lemma KeptIs(h: nat, w: seq<Name>, f: seq<Name>)
    requires 0 < h <= |w| && |f| == |w| - h + 1 && Unique(OrderTrace(h, w, f))
    ensures var o := Again(h, w);
      && SetOf(o) <= SetOf(Kept(h, w)) && |SetOf(o)| < h && Unique(Kept(h, OrderTrace(h, w, f)))
      && SetOf(Kept(h, OrderTrace(h, w, f))) == SetOf(o) + {f[|f| - 1]}
  {
    var o := Again(h, w);
    assert Kept(h, w) == o + [w[|w| - 1]];
    SetOfSnoc(o, w[|w| - 1]);
    KeptAfter(h, w, f);
    LastAndRest(f[|f| - 1], o);
  }

  lemma KeptAfter(h: nat, w: seq<Name>, f: seq<Name>)
    requires 0 < h <= |w| && |f| == |w| - h + 1 && Unique(OrderTrace(h, w, f))
    ensures var q := Kept(h, OrderTrace(h, w, f));
      q == [f[|f| - 1]] + Again(h, w) && Unique(q)
  {
    var t := OrderTrace(h, w, f);
    assert t == t[..|w| - h] + Kept(h, t);
    UniqueParts(t[..|w| - h], Kept(h, t));
  }

  lemma LastAndRest(x: Name, o: seq<Name>)
    requires Unique([x] + o)
    ensures SetOf([x] + o) == SetOf(o) + {x} && |SetOf(o)| == |o|
  {
    SetOfConcat([x], o);
    assert SetOf([x]) == {x};
    UniqueParts([x], o);
    UniqueCardinality(o);
  }

  /** Between phases: short names fill the cache, and the rival holds the last h of them. */
  ghost predicate OrderTurn(k: nat, h: nat, s: State, u: seq<Name>, v: seq<Name>, q: set<Name>) {
    && 0 < h == |v| && |u| + |v| == k && Unique(u + v) && s.queue == Cold(u + v) && AllShort(u + v, 2 * k)
    && q == SetOf(v)
  }

  /** The rival's phase: one slot for the new names, and no load after them. */
  ghost function OrderSched(h: nat, w: seq<Name>, f: seq<Name>): seq<set<Name>>
    requires 0 < h <= |w| && |f| == |w| - h + 1
  {
    Fetch(SetOf(Again(h, w)), f) + Hold(SetOf(Kept(h, OrderTrace(h, w, f))), h - 1)
  }

  lemma OrderServed(h: nat, w: seq<Name>, f: seq<Name>)
    requires 0 < h <= |w| && |f| == |w| - h + 1 && Unique(OrderTrace(h, w, f))
    ensures var t, sched, q := OrderTrace(h, w, f), OrderSched(h, w, f), SetOf(Kept(h, w));
      Serves(h, t, sched) && Loads(q, sched) <= |f| && Last(q, sched) == SetOf(Kept(h, t))
  {
    var o := Again(h, w);
    var last := SetOf(Kept(h, OrderTrace(h, w, f)));
    KeptIs(h, w, f);
    UniqueCardinality(Kept(h, OrderTrace(h, w, f)));
    FetchHold(h, SetOf(Kept(h, w)), o, f, last);
  }

  /** The rival fetches the names f one by one, then holds all it needs for o. */
  lemma FetchHold(h: nat, q: set<Name>, o: seq<Name>, f: seq<Name>, last: set<Name>)
    requires f != [] && SetOf(o) <= q && |SetOf(o)| < h && last == SetOf(o) + {f[|f| - 1]} && |last| <= h
    ensures var sched := Fetch(SetOf(o), f) + Hold(last, |o|);
      Serves(h, f + o, sched) && Loads(q, sched) <= |f| && Last(q, sched) == last
  {
    FetchServes(h, SetOf(o), f);
    FetchLoads(q, SetOf(o), f);
    HoldServes(h, o, last);
    HoldLoads(last, |o|);
    ServesConcat(h, f, Fetch(SetOf(o), f), o, Hold(last, |o|));
    LoadsConcat(q, Fetch(SetOf(o), f), Hold(last, |o|));
  }

  /** Between phases, whatever the names. */
  ghost predicate OrderReady(k: nat, h: nat, s: State, q: set<Name>) {
    exists u, v :: OrderTurn(k, h, s, u, v, q)
  }

  ghost function Ordered(k: nat, h: nat): (State, set<Name>) -> bool {
    (s, q) => OrderReady(k, h, s, q)
  }

  lemma KeptReady(k: nat, h: nat, s: State, w: seq<Name>)
    requires 0 < h <= k == |w| && Unique(w) && s.queue == Cold(w) && AllShort(w, 2 * k)
    ensures OrderReady(k, h, s, SetOf(Kept(h, w)))
  {
    assert w == w[..k - h] + Kept(h, w);
    assert OrderTurn(k, h, s, w[..k - h], Kept(h, w), SetOf(Kept(h, w)));
  }

  /** One phase: k misses against k - h + 1 loads. */
  lemma OrderRound(p: Policy, k: nat, h: nat, ready: (State, set<Name>) -> bool, s: State, q: set<Name>)
    returns (d: Duel)
    requires 0 < h <= k && ready == Ordered(k, h) && ready(s, q)
    ensures IsRound(p, k, h, k, k - h + 1, 2 * k, ready, s, q, d)
  {
    var u, v :| OrderTurn(k, h, s, u, v, q);
    var w := u + v;
    assert Kept(h, w) == v;
    var f := NewNames(k, h, w);
    d := Duel(OrderTrace(h, w, f), OrderSched(h, w, f));
    OrderNames(h, w, f);
    OrderPhase(p, k, s, w, d.trace);
    OrderServed(h, w, f);
    KeptReady(k, h, RunFrom(p, k, s, d.trace), d.trace);
  }

  lemma NewNames(k: nat, h: nat, w: seq<Name>) returns (f: seq<Name>)
    requires 0 < h <= k == |w| && Unique(w) && AllShort(w, 2 * k)
    ensures |f| == k - h + 1 && Unique(f) && SetOf(f) !! SetOf(w) && AllShort(OrderTrace(h, w, f), 2 * k)
  {
    f := FreshNames(k - h + 1, SetOf(w));
    UniqueCardinality(w);
    forall x | x in OrderTrace(h, w, f) ensures Short(x, 2 * k) {
      if x in f {
        NumeralLength(k - h + 1 + k, 2 * k);
      }
    }
  }

  lemma FillMisses(p: Policy, k: nat, w: seq<Name>)
    requires 0 < k == |w| && Unique(w)
    ensures Misses(Run(p, k, w)) == k
  {
    Classification(p, k, w, Run(p, k, w));
    UniqueCardinality(w);
  }

  /** The rival serves the first k requests, each new, and ends with the last h names. */
  lemma OrderStart(p: Policy, k: nat, h: nat, s: State) returns (d: Duel)
    requires 0 < h <= k && s == State([], {}, 0, 0)
    ensures IsRound(p, k, h, k, k, 2 * k, Ordered(k, h), s, {}, d)
  {
    var w := FreshNames(k, {});
    FillFromEmpty(p, k, w);
    FillMisses(p, k, w);
    forall x | x in w ensures Short(x, 2 * k) {
      NumeralLength(k, 2 * k);
    }
    d := Duel(w, Fetch({}, w[..k - h]) + Hold(SetOf(Kept(h, w)), h));
    StartServed(h, w);
    KeptReady(k, h, Run(p, k, w), w);
  }

  lemma StartServed(h: nat, w: seq<Name>)
    requires 0 < h <= |w| && Unique(w)
    ensures var sched := Fetch({}, w[..|w| - h]) + Hold(SetOf(Kept(h, w)), h);
      Serves(h, w, sched) && Loads({}, sched) <= |w| && Last({}, sched) == SetOf(Kept(h, w))
  {
    var f, o := w[..|w| - h], Kept(h, w);
    var q := Last({}, Fetch({}, f));
    assert w == f + o;
    UniqueParts(f, o);
    UniqueCardinality(o);
    FetchServes(h, {}, f);
    FetchLoads({}, {}, f);
    HoldServes(h, o, SetOf(o));
    ChangeLoads(q, SetOf(o), h);
    SubsetCardinality(SetOf(o) - q, SetOf(o));
    ServesConcat(h, f, Fetch({}, f), o, Hold(SetOf(o), h));
    LoadsConcat({}, Fetch({}, f), Hold(SetOf(o), h));
  }

  lemma OrderDuel(p: Policy, k: nat, h: nat, m: nat, s: State) returns (d: Duel)
    requires 0 < h <= k && s == State([], {}, 0, 0)
    ensures Costs(p, k, h, s, {}, d, k + Times(k, m), k + Times(k - h + 1, m)) && AllShort(d.trace, 2 * k)
  {
    var a := OrderStart(p, k, h, s);
    OrderAlways(p, k, h, Ordered(k, h), k - h + 1);
    d := StartAndRounds(p, k, h, k, k - h + 1, 2 * k, Ordered(k, h), s, {}, a, m);
  }

  /** For every policy, every size k, every h <= k and every m: a trace and a schedule of a rival with h
      slots that loads at most (k - h + 1) * m + k names, where the policy misses k * m + k times. */
  lemma OrderFactorAttained(p: Policy, k: nat, h: nat, m: nat) returns (t: seq<Name>, sched: seq<set<Name>>)
    requires 0 < h <= k
    ensures Serves(h, t, sched) && Loads({}, sched) <= (k - h + 1) * m + k
    ensures Misses(Run(p, k, t)) == k * m + k && AllShort(t, 2 * k)
  {
    var d := OrderDuel(p, k, h, m, State([], {}, 0, 0));
    t, sched := d.trace, d.sched;
    TimesIs(k, m);
    TimesIs(k - h + 1, m);
  }

  lemma OrderAlways(p: Policy, k: nat, h: nat, ready: (State, set<Name>) -> bool, l: nat)
    requires 0 < h <= k && ready == Ordered(k, h) && l == k - h + 1
    ensures AlwaysRound(p, k, h, k, l, 2 * k, ready)
  {
    forall s, q | ready(s, q) ensures HasRound(p, k, h, k, l, 2 * k, ready, s, q) {
      var d := OrderRound(p, k, h, ready, s, q);
    }
  }

  // The factors are the smallest.

  /** With factor c and some constant b the bound holds for every trace and every schedule. */
  ghost predicate Suffices(p: Policy, k: nat, h: nat, c: nat, b: nat)
    requires 0 < h <= k
  {
    forall t, sched :: Serves(h, t, sched) ==>
      Misses(Run(p, k, t)) * (k - h + 1) <= c * Loads({}, sched) + b
  }

  /** With the factor of the bound it does. */
  lemma FactorSuffices(p: Policy, k: nat, h: nat, c: nat)
    requires 0 < h <= k && PhaseCost(p, k) <= c
    ensures Suffices(p, k, h, c, c * (k - h))
  {
    forall t, sched | Serves(h, t, sched)
      ensures Misses(Run(p, k, t)) * (k - h + 1) <= c * Loads({}, sched) + c * (k - h)
    {
      Competitive(p, k, h, t, sched);
      LargerFactor(PhaseCost(p, k), c, k - h, k - h + 1, Misses(Run(p, k, t)), Loads({}, sched));
    }
  }

  lemma LargerFactor(c: nat, c': nat, e: nat, d: nat, m: nat, l: nat)
    requires WithinRatio(c, e, m, l) && c <= c' && d == e + 1
    ensures m * d <= c' * l + c' * e
  {
    AtMost(c, c', l + e);
    assert c' * (l + e) == c' * l + c' * e;
  }

  /** d loads a phase, c misses at most for each of them and a constant are too few for c + 1 misses. */
  lemma TooFew(c: nat, d: nat, k: nat, b: nat, misses: nat, loads: nat)
    requires 0 < d && misses >= (c + 1) * (c * k + b + 1) && loads <= d * (c * k + b + 1) + k
    ensures misses * d > c * loads + b
  {
    var m := c * k + b + 1;
    AtMost((c + 1) * m, misses, d);
    AtMost(loads, d * m + k, c);
    AtMost(1, d, m);
    Phases(c, d, m, k);
  }

  lemma Phases(c: nat, d: nat, m: nat, k: nat)
    ensures (c + 1) * m * d == c * (d * m) + d * m
    ensures (d * m + k) * c == c * (d * m) + c * k
  {
  }

  lemma SmallerFactorFails(p: Policy, k: nat, h: nat, c: nat, b: nat)
    requires 0 < h <= k && c < PhaseCost(p, k) && (p.CLOCK? ==> h == k)
    ensures !Suffices(p, k, h, c, b)
  {
    var t, sched := TightTrace(p, k, h, c + 1, c * k + b + 1);
    TooFew(c, k - h + 1, k, b, Misses(Run(p, k, t)), Loads({}, sched));
  }

  lemma TightTrace(p: Policy, k: nat, h: nat, c: nat, m: nat) returns (t: seq<Name>, sched: seq<set<Name>>)
    requires 0 < h <= k && c <= PhaseCost(p, k) && (p.CLOCK? ==> h == k)
    ensures Serves(h, t, sched) && Loads({}, sched) <= (k - h + 1) * m + k && Misses(Run(p, k, t)) >= c * m
  {
    if p.CLOCK? {
      t, sched := ClockFactorAttained(k, m);
      AtMost(c, 2 * k - 1, m);
      AtMost(1, k - h + 1, m);
    } else {
      t, sched := OrderFactorAttained(p, k, h, m);
      AtMost(c, k, m);
    }
  }

  lemma AtMost(c: nat, c': nat, m: nat)
    requires c <= c'
    ensures c * m <= c' * m
  {
  }

  /** The competitive factor, exactly: a factor c is enough, with whatever constant, if and only if it
      is at least k under FIFO and LRU, for every rival with h <= k slots; and if and only if it is at
      least 2k - 1 under CLOCK, for a rival with k slots. */
  lemma FactorExactly(p: Policy, k: nat, h: nat, c: nat)
    requires 0 < h <= k && (p.CLOCK? ==> h == k)
    ensures (exists b :: Suffices(p, k, h, c, b)) <==> c >= if p.CLOCK? then 2 * k - 1 else k
  {
    if c >= PhaseCost(p, k) {
      FactorSuffices(p, k, h, c);
    } else {
      forall b ensures !Suffices(p, k, h, c, b) {
        SmallerFactorFails(p, k, h, c, b);
      }
    }
  }
}
