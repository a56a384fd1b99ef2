/** LRU is a stack algorithm: a cache of k slots is the k-suffix of one recency order that does not
    depend on k. */
module CacheStack {
  import opened Seqs
  import opened CacheSpec
  import opened CacheClassification

  function Without(r: seq<Name>, x: Name): seq<Name> {
    if r == [] then [] else if r[0] == x then r[1..] else [r[0]] + Without(r[1..], x)
  }

  /** All names of t, least recently requested first. */
  function Recency(t: seq<Name>): seq<Name> {
    if t == [] then [] else Without(Recency(t[..|t| - 1]), t[|t| - 1]) + [t[|t| - 1]]
  }

  function Suffix(k: nat, r: seq<Name>): seq<Name> {
    if |r| <= k then r else r[|r| - k..]
  }

  lemma {:induction false} WithoutAt(r: seq<Name>, i: nat)
    requires i < |r| && Unique(r)
    ensures Without(r, r[i]) == r[..i] + r[i + 1..]
  {
    if i > 0 {
      WithoutAt(r[1..], i - 1);
    }
  }

  lemma {:induction false} WithoutAbsent(r: seq<Name>, x: Name)
    requires x !in r
    ensures Without(r, x) == r
  {
    if r != [] { WithoutAbsent(r[1..], x); }
  }

  /** The index of the last request of x. */
  function LastUse(t: seq<Name>, x: Name): (i: nat)
    requires x in t
    ensures i < |t| && t[i] == x
  {
    if t[|t| - 1] == x then |t| - 1 else LastUse(t[..|t| - 1], x)
  }

  lemma {:induction false} LastUseIsLast(t: seq<Name>, m: nat)
    requires m < |t|
    ensures m <= LastUse(t, t[m])
  {
    if t[|t| - 1] != t[m] {
      LastUseIsLast(t[..|t| - 1], m);
    }
  }

  /** r lists the names of t, each once, by increasing last use. */
  ghost predicate ByLastUse(t: seq<Name>, r: seq<Name>) {
    && Unique(r)
    && SetOf(r) == SetOf(t)
    && (forall i :: 0 <= i < |r| ==> r[i] in t)
    && forall i, j :: 0 <= i < j < |r| ==> LastUse(t, r[i]) < LastUse(t, r[j])
  }

  lemma WithoutMembers(r: seq<Name>, x: Name)
    requires Unique(r)
    ensures Unique(Without(r, x))
    ensures forall y :: y in Without(r, x) <==> y in r && y != x
  {
    var m := WithoutShift(r, x);
    assert forall j :: 0 <= j < |r| && r[j] != x ==> r[j] == Without(r, x)[if j < m then j else j - 1];
  }

  /** Taking x out moves what stands behind it up by one. */
  lemma WithoutShift(r: seq<Name>, x: Name) returns (m: nat)
    requires Unique(r)
    ensures m < |r| ==> r[m] == x
    ensures m <= |r| && |Without(r, x)| == if m < |r| then |r| - 1 else |r|
    ensures m == |r| ==> x !in r
    ensures forall j :: 0 <= j < |Without(r, x)| ==> Without(r, x)[j] == r[if j < m then j else j + 1]
  {
    if x in r {
      m :| m < |r| && r[m] == x;
      WithoutAt(r, m);
    } else {
      m := |r|;
      WithoutAbsent(r, x);
    }
  }

  lemma WithoutOrdered(t: seq<Name>, r: seq<Name>, x: Name)
    requires ByLastUse(t, r)
    ensures var w := Without(r, x);
      && (forall i :: 0 <= i < |w| ==> w[i] in t)
      && forall i, j :: 0 <= i < j < |w| ==> LastUse(t, w[i]) < LastUse(t, w[j])
  {
    var w := Without(r, x);
    var m := WithoutShift(r, x);
    forall i | 0 <= i < |w| ensures w[i] in t {
      assert r[if i < m then i else i + 1] in t;
    }
    forall i, j | 0 <= i < j < |w| ensures LastUse(t, w[i]) < LastUse(t, w[j]) {
      Later(t, r, if i < m then i else i + 1, if j < m then j else j + 1);
    }
  }

  lemma Later(t: seq<Name>, r: seq<Name>, i: nat, j: nat)
    requires ByLastUse(t, r) && i < j < |r|
    ensures r[i] in t && r[j] in t && LastUse(t, r[i]) < LastUse(t, r[j])
  {
  }

  lemma LastUseSnoc(t: seq<Name>, x: Name, y: Name)
    requires y in t || y == x
    ensures LastUse(t + [x], y) == if y == x then |t| else LastUse(t, y)
  {
    assert (t + [x])[..|t|] == t;
  }

  lemma TouchByLastUse(t: seq<Name>, r: seq<Name>, x: Name)
    requires ByLastUse(t, r)
    ensures ByLastUse(t + [x], Without(r, x) + [x])
  {
    WithoutMembers(r, x);
    WithoutOrdered(t, r, x);
    TouchMembers(t, r, x);
    TouchOrdered(t, Without(r, x), x);
  }

  lemma TouchMembers(t: seq<Name>, r: seq<Name>, x: Name)
    requires Unique(r) && SetOf(r) == SetOf(t)
    ensures Unique(Without(r, x) + [x]) && SetOf(Without(r, x) + [x]) == SetOf(t + [x])
  {
    WithoutMembers(r, x);
    SetOfSnoc(t, x);
    SetOfSnoc(Without(r, x), x);
    assert SetOf(Without(r, x)) == SetOf(r) - {x};
  }

  lemma TouchOrdered(t: seq<Name>, w: seq<Name>, x: Name)
    requires x !in w && forall i :: 0 <= i < |w| ==> w[i] in t
    requires forall i, j :: 0 <= i < j < |w| ==> LastUse(t, w[i]) < LastUse(t, w[j])
    ensures forall i :: 0 <= i < |w + [x]| ==> (w + [x])[i] in t + [x]
    ensures forall i, j :: 0 <= i < j < |w + [x]| ==> LastUse(t + [x], (w + [x])[i]) < LastUse(t + [x], (w + [x])[j])
  {
    var t', r' := t + [x], w + [x];
    forall i | 0 <= i < |r'| ensures r'[i] in t' {
      assert i < |w| ==> r'[i] == w[i];
    }
    forall i, j | 0 <= i < j < |r'| ensures LastUse(t', r'[i]) < LastUse(t', r'[j]) {
      assert r'[i] == w[i] && w[i] in t && w[i] != x;
      LastUseSnoc(t, x, w[i]);
      if j < |w| {
        assert r'[j] == w[j] && w[j] in t && w[j] != x;
        LastUseSnoc(t, x, w[j]);
      } else {
        LastUseSnoc(t, x, x);
      }
    }
  }

  /** What the recency order is, without reference to how it is updated. */
  lemma {:induction false} RecencyByLastUse(t: seq<Name>)
    ensures ByLastUse(t, Recency(t))
  {
    if t != [] {
      var front, x := t[..|t| - 1], t[|t| - 1];
      RecencyByLastUse(front);
      assert t == front + [x];
      TouchByLastUse(front, Recency(front), x);
    }
  }

  /** The k-suffix of a + z is z when z is k long, or all there is. */
  lemma SuffixOf(k: nat, a: seq<Name>, z: seq<Name>)
    requires |z| == k || (|z| < k && a == [])
    ensures Suffix(k, a + z) == z
  {
  }

  lemma ConcatWithout(a: seq<Name>, q: seq<Name>, i: nat)
    requires i < |q|
    ensures (a + q)[..|a| + i] + (a + q)[|a| + i + 1..] == a + (q[..i] + q[i + 1..])
  {
    assert (a + q)[..|a| + i] == a + q[..i];
    assert (a + q)[|a| + i + 1..] == q[i + 1..];
  }

  lemma WithoutIs(r: seq<Name>, w: seq<Name>, i: nat)
    requires i < |r| && Unique(r) && w == r[..i] + r[i + 1..]
    ensures Without(r, r[i]) == w
  {
    WithoutAt(r, i);
  }

  lemma SuffixHit(k: nat, r: seq<Name>, q: seq<Name>, i: nat)
    requires 0 < k && Unique(r) && q == Suffix(k, r) && i < |q|
    ensures q[..i] + q[i + 1..] + [q[i]] == Suffix(k, Without(r, q[i]) + [q[i]])
  {
    var a, z := r[..|r| - |q|], q[..i] + q[i + 1..];
    assert r == a + q;
    ConcatWithout(a, q, i);
    WithoutIs(r, a + z, |a| + i);
    Regroup(a, z, [q[i]]);
    SuffixOf(k, a, z + [q[i]]);
  }

  lemma SuffixMiss(k: nat, r: seq<Name>, q: seq<Name>, x: Name)
    requires 0 < k && Unique(r) && q == Suffix(k, r) && x !in q
    ensures (if |q| == k then q[1..] else q) + [x] == Suffix(k, Without(r, x) + [x])
  {
    if x in r {
      SuffixReturn(k, r, q, x);
    } else {
      WithoutAbsent(r, x);
      SuffixAppend(k, r, q, x);
    }
  }

  lemma SuffixAppend(k: nat, r: seq<Name>, q: seq<Name>, x: Name)
    requires 0 < k && q == Suffix(k, r)
    ensures (if |q| == k then q[1..] else q) + [x] == Suffix(k, r + [x])
  {
    if |q| == k {
      assert r + [x] == r[..|r| - k + 1] + (q[1..] + [x]);
      SuffixOf(k, r[..|r| - k + 1], q[1..] + [x]);
    }
  }

  /** x comes back from behind the suffix. */
  lemma SuffixReturn(k: nat, r: seq<Name>, q: seq<Name>, x: Name)
    requires 0 < k && Unique(r) && q == Suffix(k, r) && x in r && x !in q
    ensures (if |q| == k then q[1..] else q) + [x] == Suffix(k, Without(r, x) + [x])
  {
    var i := BehindSuffix(k, r, q, x);
    WithoutAt(r, i);
    TailAfter(r, i, |r| - k);
    SuffixAppend(k, Without(r, x), q, x);
  }

  lemma BehindSuffix(k: nat, r: seq<Name>, q: seq<Name>, x: Name) returns (i: nat)
    requires q == Suffix(k, r) && x in r && x !in q
    ensures i < |r| - |q| && r[i] == x
  {
    assert r == r[..|r| - |q|] + q;
    i :| i < |r| - |q| && r[..|r| - |q|][i] == x;
  }

  lemma TailAfter(r: seq<Name>, i: nat, d: nat)
    requires i < d <= |r|
    ensures Suffix(|r| - d, r[..i] + r[i + 1..]) == Suffix(|r| - d, r)
  {
    assert (r[..i] + r[i + 1..])[d - 1..] == r[d..];
  }

  lemma NamesAfterHit(k: nat, s: State, x: Name, i: nat)
    requires 0 < k && Hits(s, x) && i == Index(s.queue, x)
    ensures var q := Names(s.queue);
      Names(Step(LRU, k, s, x).queue) == q[..i] + q[i + 1..] + [q[i]]
  {
  }

  lemma NamesAfterMiss(k: nat, s: State, x: Name)
    requires 0 < k && !Hits(s, x)
    ensures var q := Names(s.queue);
      Names(Step(LRU, k, s, x).queue) == (if |q| == k then q[1..] else q) + [x]
  {
  }

  /** One LRU request is one move in the recency order. */
  lemma StackStep(k: nat, s: State, r: seq<Name>, x: Name)
    requires 0 < k && Unique(r) && Names(s.queue) == Suffix(k, r)
    ensures Names(Step(LRU, k, s, x).queue) == Suffix(k, Without(r, x) + [x])
  {
    var q := Names(s.queue);
    if Hits(s, x) {
      var i := Index(s.queue, x);
      SuffixHit(k, r, q, i);
      NamesAfterHit(k, s, x, i);
      assert q[i] == x;
    } else {
      SuffixMiss(k, r, q, x);
      NamesAfterMiss(k, s, x);
    }
  }

  /** After any trace the LRU slots are exactly the last min(k, distinct) names by recency. */
  lemma {:induction false} LruIsRecencySuffix(k: nat, t: seq<Name>)
    requires 0 < k
    ensures Names(Run(LRU, k, t).queue) == Suffix(k, Recency(t))
  {
    if t == [] {
      assert Names([]) == [];
    } else {
      var front, x := t[..|t| - 1], t[|t| - 1];
      LruIsRecencySuffix(k, front);
      assert t == front + [x];
      RunSnoc(LRU, k, State([], {}, 0, 0), front, x);
      RecencyByLastUse(front);
      StackStep(k, Run(LRU, k, front), Recency(front), x);
    }
  }

  /** Behind slot i of the recency order stand the names requested since its last use. */
  lemma SinceLastUse(t: seq<Name>, r: seq<Name>, i: nat)
    requires ByLastUse(t, r) && i < |r|
    ensures |SetOf(t[LastUse(t, r[i]) + 1..])| == |r| - 1 - i
  {
    var l := LastUse(t, r[i]);
    var behind, since := SetOf(r[i + 1..]), SetOf(t[l + 1..]);
    forall y | y in behind ensures y in since {
      var j :| i + 1 <= j < |r| && r[j] == y;
      Later(t, r, i, j);
      assert t[l + 1..][LastUse(t, y) - (l + 1)] == y;
    }
    forall y | y in since ensures y in behind {
      BehindAt(t, r, i, l, y);
    }
    assert behind == since;
    UniqueCardinality(r[i + 1..]);
  }

  lemma BehindAt(t: seq<Name>, r: seq<Name>, i: nat, l: nat, y: Name)
    requires ByLastUse(t, r) && i < |r| && l == LastUse(t, r[i]) && y in t[l + 1..]
    ensures y in r[i + 1..]
  {
    var m :| l + 1 <= m < |t| && t[m] == y;
    assert y in SetOf(t);
    assert y in SetOf(r);
    var j :| 0 <= j < |r| && r[j] == y;
    LastUseIsLast(t, m);
    assert LastUse(t, r[j]) > l;
    assert r[i + 1..][j - (i + 1)] == y;
  }

  lemma InSuffix(k: nat, r: seq<Name>, i: nat)
    requires Unique(r) && i < |r|
    ensures r[i] in Suffix(k, r) <==> |r| - 1 - i < k
  {
    if |r| > k && |r| - 1 - i < k {
      assert Suffix(k, r)[i - (|r| - k)] == r[i];
    }
  }

  lemma RecencyDistance(t: seq<Name>, i: nat, x: Name)
    requires i < |Recency(t)| && x == Recency(t)[i]
    ensures x in t && |SetOf(t[LastUse(t, x) + 1..])| == |Recency(t)| - 1 - i
    ensures Unique(Recency(t))
  {
    RecencyByLastUse(t);
    SinceLastUse(t, Recency(t), i);
  }

  lemma NoDistance(k: nat, t: seq<Name>, x: Name)
    requires x !in Recency(t)
    ensures x !in t && x !in Suffix(k, Recency(t))
  {
    RecencyByLastUse(t);
    assert x !in SetOf(Recency(t));
  }

  /** The stack distance rule: x is resident exactly when fewer than k distinct names have been
      requested since x last was. */
  lemma StackDistance(k: nat, t: seq<Name>, x: Name)
    requires 0 < k
    ensures Hits(Run(LRU, k, t), x)
       <==> x in t && |SetOf(t[LastUse(t, x) + 1..])| < k
  {
    LruIsRecencySuffix(k, t);
    if x in Recency(t) {
      var i :| 0 <= i < |Recency(t)| && Recency(t)[i] == x;
      RecencyDistance(t, i, x);
      InSuffix(k, Recency(t), i);
    } else {
      NoDistance(k, t, x);
    }
  }

  /** A larger LRU cache holds everything a smaller one holds. */
  lemma LruInclusion(k: nat, n: nat, t: seq<Name>)
    requires 0 < k <= n
    ensures SetOf(Names(Run(LRU, k, t).queue)) <= SetOf(Names(Run(LRU, n, t).queue))
  {
    forall x | x in SetOf(Names(Run(LRU, k, t).queue))
      ensures x in SetOf(Names(Run(LRU, n, t).queue))
    {
      StackDistance(k, t, x);
      StackDistance(n, t, x);
    }
  }

  lemma {:induction false} LruMissesShrink(k: nat, n: nat, t: seq<Name>)
    requires 0 < k <= n
    ensures Misses(Run(LRU, n, t)) <= Misses(Run(LRU, k, t))
  {
    if t != [] {
      var front, x := t[..|t| - 1], t[|t| - 1];
      LruMissesShrink(k, n, front);
      assert t == front + [x];
      RunSnoc(LRU, k, State([], {}, 0, 0), front, x);
      RunSnoc(LRU, n, State([], {}, 0, 0), front, x);
      StackDistance(k, front, x);
      StackDistance(n, front, x);
    }
  }

  /** Enlarging an LRU cache never adds a capacity miss and leaves the compulsory ones. */
  lemma LruMonotone(k: nat, n: nat, t: seq<Name>)
    requires 0 < k <= n
    ensures Run(LRU, n, t).cap <= Run(LRU, k, t).cap
    ensures Run(LRU, n, t).com == Run(LRU, k, t).com
  {
    LruMissesShrink(k, n, t);
    CompulsoryIsPolicyIndependent(LRU, n, LRU, k, t);
  }
}
