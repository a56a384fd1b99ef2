/** Bounded misses for FIFO and LRU within a stretch of requests. */
module CacheWindows {
  import opened Seqs
  import opened CacheSpec
  import opened CacheClassification

  /** The misses charged to x while t is replayed from s. */
  function MissesOf(p: Policy, k: nat, s: State, t: seq<Name>, x: Name): nat
    requires 0 < k
    decreases |t|
  {
    if t == [] then 0
    else (if t[0] == x && !Hits(s, x) then 1 else 0) + MissesOf(p, k, Step(p, k, s, t[0]), t[1..], x)
  }

  /** The queue split into entries older than the stretch and entries the stretch put behind them. */
  ghost predicate Split(k: nat, s: State, older: seq<Entry>, newer: seq<Entry>, u: set<Name>) {
    && Proper(k, s)
    && s.queue == older + newer
    && SetOf(Names(newer)) <= u
    && |u| <= k
  }

  lemma UniqueSuffix(older: seq<Entry>, newer: seq<Entry>)
    requires Unique(Names(older + newer))
    ensures Unique(Names(newer))
  {
    assert forall i :: 0 <= i < |newer| ==> Names(newer)[i] == Names(older + newer)[|older| + i];
  }

  /** A name outside a guarded suffix leaves room for it in a stretch of |u| names. */
  lemma RoomFor(k: nat, s: State, older: seq<Entry>, newer: seq<Entry>, u: set<Name>, x: Name)
    requires Split(k, s, older, newer, u) && x in u && x !in Names(newer)
    ensures |newer| < |u|
  {
    UniqueSuffix(older, newer);
    UniqueCardinality(Names(newer));
    var names := SetOf(Names(newer));
    assert x !in names;
    SubsetCardinality(names + {x}, u);
  }

  /** One request of the stretch: guarded entries stay, a missed name becomes guarded. */
  lemma SplitMiss(p: Policy, k: nat, s: State, x: Name,
                  older: seq<Entry>, newer: seq<Entry>, u: set<Name>) returns (older': seq<Entry>)
    requires 0 < k && !p.CLOCK? && Split(k, s, older, newer, u) && x in u && !Hits(s, x)
    ensures Split(k, Step(p, k, s, x), older', newer + [Entry(x, false)], u)
  {
    var e := [Entry(x, false)];
    NamesConcat(older, newer);
    NamesConcat(newer, e);
    assert Names(e) == [x];
    SetOfSnoc(Names(newer), x);
    if |s.queue| == k {
      RoomFor(k, s, older, newer, u, x);
      older' := older[1..];
      assert s.queue[1..] + e == older' + (newer + e);
      Replace(s.queue, x);
    } else {
      older' := older;
      assert s.queue + e == older' + (newer + e);
      assert Names(s.queue + e) == Names(s.queue) + [x];
    }
  }

  /** Where slot i of a split queue goes when it is moved to the back. */
  lemma TouchSplit(older: seq<Entry>, newer: seq<Entry>, i: nat, e: Entry, u: set<Name>)
    returns (older': seq<Entry>, newer': seq<Entry>)
    requires var q := older + newer; i < |q| && e.name == q[i].name && !e.bit && Unique(Names(q))
    requires SetOf(Names(newer)) <= u && e.name in u
    ensures (older + newer)[..i] + (older + newer)[i + 1..] + [e] == older' + newer'
    ensures SetOf(Names(newer)) <= SetOf(Names(newer')) <= u && |newer| <= |newer'|
  {
    if i < |older| {
      older', newer' := older[..i] + older[i + 1..], newer + [e];
      assert Names(newer') == Names(newer) + [e.name];
      SetOfSnoc(Names(newer), e.name);
    } else {
      var j := i - |older|;
      older', newer' := older, newer[..j] + newer[j + 1..] + [e];
      UniqueSuffix(older, newer);
      MoveToBack(newer, j, false);
    }
  }

  lemma SplitTouch(k: nat, s: State, x: Name, older: seq<Entry>, newer: seq<Entry>, u: set<Name>)
    returns (older': seq<Entry>, newer': seq<Entry>)
    requires 0 < k && Split(k, s, older, newer, u) && x in u && Hits(s, x)
    ensures Split(k, Step(LRU, k, s, x), older', newer', u)
    ensures SetOf(Names(newer)) <= SetOf(Names(newer')) && |newer| <= |newer'|
  {
    HitRearranges(LRU, s.queue, x);
    older', newer' := TouchSplit(older, newer, Index(s.queue, x), Entry(x, false), u);
  }

  lemma SplitStep(p: Policy, k: nat, s: State, x: Name,
                  older: seq<Entry>, newer: seq<Entry>, u: set<Name>)
    returns (older': seq<Entry>, newer': seq<Entry>)
    requires 0 < k && !p.CLOCK? && Split(k, s, older, newer, u) && x in u
    ensures Split(k, Step(p, k, s, x), older', newer', u)
    ensures SetOf(Names(newer)) <= SetOf(Names(newer'))
    ensures Misses(Step(p, k, s, x)) + |newer| <= Misses(s) + |newer'|
    ensures !Hits(s, x) ==> x in SetOf(Names(newer'))
  {
    if !Hits(s, x) {
      newer' := newer + [Entry(x, false)];
      older' := SplitMiss(p, k, s, x, older, newer, u);
      assert Names(newer') == Names(newer) + [x];
      SetOfSnoc(Names(newer), x);
    } else if p.LRU? {
      older', newer' := SplitTouch(k, s, x, older, newer, u);
    } else {
      older', newer' := older, newer;
    }
  }

  lemma {:induction false} SplitRun(p: Policy, k: nat, s: State, t: seq<Name>,
                                    older: seq<Entry>, newer: seq<Entry>, u: set<Name>, x: Name)
    requires 0 < k && !p.CLOCK? && Split(k, s, older, newer, u) && SetOf(t) <= u
    ensures Misses(RunFrom(p, k, s, t)) + |newer| <= Misses(s) + |u|
    ensures MissesOf(p, k, s, t, x) <= if x in SetOf(Names(newer)) then 0 else 1
    decreases |t|
  {
    if t == [] {
      UniqueSuffix(older, newer);
      UniqueCardinality(Names(newer));
      SubsetCardinality(SetOf(Names(newer)), u);
    } else {
      SetOfHead(t);
      var older', newer' := SplitStep(p, k, s, t[0], older, newer, u);
      SplitRun(p, k, Step(p, k, s, t[0]), t[1..], older', newer', u, x);
      if x in SetOf(Names(newer)) {
        NamesConcat(older, newer);
        assert Hits(s, x);
      }
    }
  }

  /** From any state, a stretch of at most k distinct names misses each of them at most once, and
      so misses at most as often as it has distinct names: whatever the cache held before. */
  lemma WindowedMisses(p: Policy, k: nat, s: State, t: seq<Name>)
    requires 0 < k && !p.CLOCK? && Proper(k, s) && |SetOf(t)| <= k
    ensures forall x :: MissesOf(p, k, s, t, x) <= 1
    ensures Misses(RunFrom(p, k, s, t)) <= Misses(s) + |SetOf(t)|
  {
    assert s.queue == s.queue + [] && Names([]) == [];
    forall x ensures MissesOf(p, k, s, t, x) <= 1 {
      SplitRun(p, k, s, t, s.queue, [], SetOf(t), x);
    }
    SplitRun(p, k, s, t, s.queue, [], SetOf(t), "");
  }

  lemma {:induction false} ProperRun(p: Policy, k: nat, s: State, t: seq<Name>)
    requires 0 < k && Proper(k, s)
    ensures Proper(k, RunFrom(p, k, s, t))
    decreases |t|
  {
    if t != [] {
      StepSeen(p, k, s, t[0]);
      ProperRun(p, k, Step(p, k, s, t[0]), t[1..]);
    }
  }
}
