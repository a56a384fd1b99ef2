/** All three policies against every rival: cutting the trace into maximal phases of at most k
    distinct names, FIFO and LRU miss at most k times in each, CLOCK at most 2k - 1 times, and a
    rival with h <= k slots must load at least k - h + 1 names between the second request of a phase
    and the first of the next. */
module CacheCompetitive {
  import opened Seqs
  import opened CacheSpec
  import opened CacheClassification
  import opened CacheWindows
  import opened CacheClockWindow

  /** A rival schedule names the resident set while each request is served; it may know the whole
      trace, prefetch, and evict as it likes, but never holds more than h names. */
  ghost predicate Serves(h: nat, t: seq<Name>, sched: seq<set<Name>>) {
    && |sched| == |t|
    && forall i :: 0 <= i < |t| ==> t[i] in sched[i] && |sched[i]| <= h
  }

  /** The names the rival brings in, starting from the resident set r. */
  ghost function Loads(r: set<Name>, sched: seq<set<Name>>): nat
    decreases |sched|
  {
    if sched == [] then 0 else |sched[0] - r| + Loads(sched[0], sched[1..])
  }

  lemma {:induction false} LoadsConcat(r: set<Name>, a: seq<set<Name>>, b: seq<set<Name>>)
    ensures Loads(r, a + b) == Loads(r, a) + Loads(if a == [] then r else a[|a| - 1], b)
    decreases |a|
  {
    if a == [] {
      assert a + b == b;
    } else {
      assert (a + b)[1..] == a[1..] + b;
      LoadsConcat(a[0], a[1..], b);
    }
  }

  /** Every requested name that was not resident at the start has to be loaded. */
  lemma {:induction false} LoadsCover(h: nat, r: set<Name>, t: seq<Name>, sched: seq<set<Name>>)
    requires Serves(h, t, sched)
    ensures |SetOf(t) - r| <= Loads(r, sched)
    decreases |t|
  {
    if t == [] {
      assert SetOf(t) - r == {};
    } else {
      LoadsCover(h, sched[0], t[1..], sched[1..]);
      SetOfHead(t);
      var first, rest := sched[0] - r, SetOf(t[1..]) - sched[0];
      SubsetCardinality(SetOf(t) - r, first + rest);
      assert first !! rest;
    }
  }

  /** The end of the first phase, at or after n. */
  lemma {:induction false} PhaseFrom(k: nat, t: seq<Name>, n: nat) returns (m: nat)
    requires n <= |t| && |SetOf(t[..n])| <= k
    ensures n <= m <= |t| && |SetOf(t[..m])| <= k
    ensures m < |t| ==> |SetOf(t[..m + 1])| == k + 1
    decreases |t| - n
  {
    m := n;
    if n < |t| {
      assert t[..n + 1] == t[..n] + [t[n]];
      SetOfSnoc(t[..n], t[n]);
      if |SetOf(t[..n + 1])| <= k {
        m := PhaseFrom(k, t, n + 1);
      }
    }
  }

  lemma LongestPhase(k: nat, t: seq<Name>) returns (n: nat)
    requires 0 < k && t != []
    ensures 0 < n <= |t| && |SetOf(t[..n])| <= k
    ensures n < |t| ==> |SetOf(t[..n + 1])| == k + 1
  {
    assert t[..1] == [] + [t[0]];
    SetOfSnoc([], t[0]);
    assert SetOf<Name>([]) == {};
    n := PhaseFrom(k, t, 1);
  }

  /** What a phase costs at most. */
  function PhaseCost(p: Policy, k: nat): nat
    requires 0 < k
  {
    if p.CLOCK? then 2 * k - 1 else k
  }

  /** m misses against l loads after the first one, where a phase costs c misses and forces d loads. */
  ghost predicate Bounded(c: nat, d: nat, m: int, l: nat) {
    m * d <= c * (l + d)
  }

  lemma LastPhase(c: nat, d: nat, m: nat, l: nat)
    requires m <= c
    ensures Bounded(c, d, m, l)
  {
    assert m * d <= c * d;
    assert c * (l + d) == c * l + c * d;
  }

  lemma AddPhase(c: nat, d: nat, m: nat, m': int, l: nat, l': nat)
    requires m <= c && d <= l && Bounded(c, d, m', l')
    ensures Bounded(c, d, m + m', l + l')
  {
    assert m * d <= c * d <= c * l;
    assert c * (l + l' + d) == c * l + c * (l' + d);
    assert (m + m') * d == m * d + m' * d;
  }

  /** The loads forced on the rival between the second request of a phase and the next phase. */
  lemma ForcedLoads(k: nat, h: nat, t: seq<Name>, n: nat, sched: seq<set<Name>>)
    requires 0 < n < |t| && h <= k && Serves(h, t, sched) && |SetOf(t[..n + 1])| == k + 1
    ensures Loads(sched[0], sched[1..n + 1]) >= k - h + 1
  {
    LoadsCover(h, sched[0], t[1..n + 1], sched[1..n + 1]);
    SetOfHead(t[..n + 1]);
    assert t[..n + 1][1..] == t[1..n + 1];
    assert SetOf(t[..n + 1]) - sched[0] == SetOf(t[1..n + 1]) - sched[0];
    DifferenceCardinality(SetOf(t[..n + 1]), sched[0]);
  }

  /** Splitting the rival's loads where a phase of n requests ends. */
  lemma SplitLoads(sched: seq<set<Name>>, n: nat)
    requires 0 < n < |sched|
    ensures Loads(sched[0], sched[1..])
         == Loads(sched[0], sched[1..n + 1]) + Loads(sched[n..][0], sched[n..][1..])
  {
    assert sched[1..] == sched[1..n + 1] + sched[n + 1..];
    LoadsConcat(sched[0], sched[1..n + 1], sched[n + 1..]);
    assert sched[n..][1..] == sched[n + 1..];
  }

  /** One phase of n requests. */
  lemma Phase(p: Policy, k: nat, s: State, t: seq<Name>, n: nat, s1: State)
    requires 0 < k && Proper(k, s) && n <= |t| && |SetOf(t[..n])| <= k
    requires s1 == RunFrom(p, k, s, t[..n])
    ensures Proper(k, s1) && Misses(s1) <= Misses(s) + PhaseCost(p, k)
    ensures RunFrom(p, k, s, t) == RunFrom(p, k, s1, t[n..])
  {
    assert t == t[..n] + t[n..];
    RunConcat(p, k, s, t[..n], t[n..]);
    ProperRun(p, k, s, t[..n]);
    if p.CLOCK? {
      ClockWindowedMisses(k, s, t[..n]);
    } else {
      WindowedMisses(p, k, s, t[..n]);
    }
  }

  /** The bound from the start of a phase on, the rival having served its first request. */
  lemma {:induction false} FromPhaseStart(p: Policy, k: nat, h: nat, s: State, t: seq<Name>,
                                          sched: seq<set<Name>>)
    requires 0 < k && h <= k && Proper(k, s) && t != [] && Serves(h, t, sched)
    ensures Bounded(PhaseCost(p, k), k - h + 1, Misses(RunFrom(p, k, s, t)) - Misses(s), Loads(sched[0], sched[1..]))
    decreases |t|
  {
    var n := LongestPhase(k, t);
    var c, d := PhaseCost(p, k), k - h + 1;
    var s1 := RunFrom(p, k, s, t[..n]);
    Phase(p, k, s, t, n, s1);
    MissesGrow(p, k, s, t[..n]);
    if n == |t| {
      LastPhase(c, d, Misses(s1) - Misses(s), Loads(sched[0], sched[1..]));
    } else {
      FromPhaseStart(p, k, h, s1, t[n..], sched[n..]);
      NextPhase(c, k, h, t, n, sched, Misses(s1) - Misses(s), Misses(RunFrom(p, k, s, t)) - Misses(s1));
    }
  }

  /** A phase of n requests with m misses, and the bound for what comes after it. */
  lemma NextPhase(c: nat, k: nat, h: nat, t: seq<Name>, n: nat, sched: seq<set<Name>>, m: nat, m': int)
    requires 0 < n < |t| && h <= k && Serves(h, t, sched) && |SetOf(t[..n + 1])| == k + 1 && m <= c
    requires Bounded(c, k - h + 1, m', Loads(sched[n..][0], sched[n..][1..]))
    ensures Bounded(c, k - h + 1, m + m', Loads(sched[0], sched[1..]))
  {
    ForcedLoads(k, h, t, n, sched);
    SplitLoads(sched, n);
    AddPhase(c, k - h + 1, m, m', Loads(sched[0], sched[1..n + 1]), Loads(sched[n..][0], sched[n..][1..]));
  }

  lemma {:induction false} MissesGrow(p: Policy, k: nat, s: State, t: seq<Name>)
    requires 0 < k
    ensures Misses(RunFrom(p, k, s, t)) >= Misses(s)
    decreases |t|
  {
    if t != [] {
      MissesGrow(p, k, Step(p, k, s, t[0]), t[1..]);
    }
  }

  lemma FirstLoad(sched: seq<set<Name>>, x: Name)
    requires sched != [] && x in sched[0]
    ensures Loads({}, sched) >= 1 + Loads(sched[0], sched[1..])
  {
    assert x in sched[0] - {};
  }

  /** Sleator and Tarjan's bound. At c misses a phase, m misses with k slots stand against l loads
      with h = k - e slots as m * (k - h + 1) <= c * (l + k - h). */
  ghost predicate WithinRatio(c: nat, e: nat, m: int, l: nat) {
    m * (e + 1) <= c * (l + e)
  }

  lemma FirstPhase(c: nat, e: nat, m: int, l: nat, l': nat)
    requires Bounded(c, e + 1, m, l) && l + 1 <= l'
    ensures WithinRatio(c, e, m, l')
  {
    assert c * (l + (e + 1)) <= c * (l' + e);
  }

  /** The bound for a cache of k slots, whatever it holds at the start, against a rival
      with h <= k slots that starts empty. */
  lemma CompetitiveFrom(p: Policy, k: nat, h: nat, s: State, t: seq<Name>, sched: seq<set<Name>>)
    requires 0 < k && h <= k && Proper(k, s) && Serves(h, t, sched)
    ensures WithinRatio(PhaseCost(p, k), k - h, Misses(RunFrom(p, k, s, t)) - Misses(s), Loads({}, sched))
  {
    if t != [] {
      FromPhaseStart(p, k, h, s, t, sched);
      FirstLoad(sched, t[0]);
      FirstPhase(PhaseCost(p, k), k - h, Misses(RunFrom(p, k, s, t)) - Misses(s),
                 Loads(sched[0], sched[1..]), Loads({}, sched));
    } else {
      NoMisses(PhaseCost(p, k), k - h, Loads({}, sched));
    }
  }

  lemma NoMisses(c: nat, e: nat, l: nat)
    ensures WithinRatio(c, e, 0, l)
  {
    assert 0 <= c * (l + e);
  }

  /** The bound for the simulator itself, which starts empty. */
  lemma Competitive(p: Policy, k: nat, h: nat, t: seq<Name>, sched: seq<set<Name>>)
    requires 0 < k && h <= k && Serves(h, t, sched)
    ensures WithinRatio(PhaseCost(p, k), k - h, Misses(Run(p, k, t)), Loads({}, sched))
  {
    var s := State([], {}, 0, 0);
    EmptyInv(k);
    CompetitiveFrom(p, k, h, s, t, sched);
  }

  /** Against a rival of its own size FIFO and LRU miss at most k times as often, CLOCK at most 2k - 1
      times as often. */
  lemma CompetitiveSameSize(p: Policy, k: nat, t: seq<Name>, sched: seq<set<Name>>)
    requires 0 < k && Serves(k, t, sched)
    ensures Run(p, k, t).com + Run(p, k, t).cap <= (if p.CLOCK? then 2 * k - 1 else k) * Loads({}, sched)
  {
    Competitive(p, k, k, t, sched);
  }
}
