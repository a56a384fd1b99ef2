/** What every request keeps, under all three policies, and what the miss counters mean. */
module CacheClassification {
  import opened Seqs
  import opened CacheSpec

  /** All names the state remembers having been requested. */
  ghost function Seen(s: State): set<Name> {
    SetOf(Names(s.queue)) + s.evicted
  }

  /** What the slots of every state reached with a cache of k slots satisfy. */
  ghost predicate Proper(k: nat, s: State) {
    |s.queue| <= k && Unique(Names(s.queue))
  }

  ghost predicate Inv(k: nat, s: State) {
    && Proper(k, s)
    && (|s.queue| < k ==> s.evicted == {})
    && s.com == |Seen(s)|
  }

  /** q' holds the same names as q, each once. */
  ghost predicate Rearranged(q: seq<Entry>, q': seq<Entry>) {
    && |q'| == |q|
    && Unique(Names(q'))
    && SetOf(Names(q')) == SetOf(Names(q))
  }

  /** Moving slot i to the back, with any bit, rearranges the queue. */
  lemma MoveToBack(q: seq<Entry>, i: nat, bit: bool)
    requires i < |q| && Unique(Names(q))
    ensures Rearranged(q, q[..i] + q[i + 1..] + [Entry(q[i].name, bit)])
  {
    var q' := q[..i] + q[i + 1..] + [Entry(q[i].name, bit)];
    assert forall j :: 0 <= j < |q'| ==>
      Names(q')[j] == Names(q)[if j < i then j else if j < |q| - 1 then j + 1 else i];
    forall x ensures x in SetOf(Names(q')) <==> x in SetOf(Names(q)) {
      if x in Names(q) {
        var j :| 0 <= j < |q| && Names(q)[j] == x;
        assert Names(q')[if j < i then j else if j == i then |q| - 1 else j - 1] == x;
      }
    }
  }

  lemma {:induction false} SecondChanceRearranges(q: seq<Entry>)
    requires |q| > 0 && Unique(Names(q))
    ensures Rearranged(q, SecondChance(q))
    decreases SetBits(q)
  {
    if q[0].bit {
      MoveToBack(q, 0, false);
      assert Rotate(q) == q[..0] + q[1..] + [Entry(q[0].name, false)];
      RotateSetBits(q);
      SecondChanceRearranges(Rotate(q));
    }
  }

  lemma FacingRearranges(p: Policy, q: seq<Entry>)
    requires |q| > 0 && Unique(Names(q))
    ensures Rearranged(q, Facing(p, q))
  {
    if p.CLOCK? { SecondChanceRearranges(q); }
  }

  lemma HitRearranges(p: Policy, q: seq<Entry>, x: Name)
    requires Unique(Names(q)) && x in Names(q)
    ensures Rearranged(q, OnHit(p, q, x))
  {
    var i := Index(q, x);
    match p
    case FIFO =>
    case LRU => MoveToBack(q, i, false);
    case CLOCK => assert Names(q[i := Entry(x, true)]) == Names(q);
  }

  /** Dropping the front of a queue and appending a new name. */
  lemma Replace(q: seq<Entry>, x: Name)
    requires |q| > 0 && Unique(Names(q)) && x !in Names(q)
    ensures var q' := q[1..] + [Entry(x, false)];
      && Unique(Names(q'))
      && SetOf(Names(q')) == SetOf(Names(q)) - {q[0].name} + {x}
  {
    var q' := q[1..] + [Entry(x, false)];
    assert Names(q') == Names(q)[1..] + [x];
    assert Names(q) == [q[0].name] + Names(q)[1..];
    SetOfSnoc(Names(q)[1..], x);
    SetOfConcat([q[0].name], Names(q)[1..]);
  }

  lemma HitSeen(p: Policy, k: nat, s: State, x: Name)
    requires 0 < k && Proper(k, s) && Hits(s, x)
    ensures Proper(k, Step(p, k, s, x)) && Hits(Step(p, k, s, x), x)
    ensures Seen(Step(p, k, s, x)) == Seen(s) + {x}
  {
    HitRearranges(p, s.queue, x);
    assert x in SetOf(Names(s.queue));
    assert x in SetOf(Names(Step(p, k, s, x).queue));
  }

  lemma FillSeen(p: Policy, k: nat, s: State, x: Name)
    requires 0 < k && Proper(k, s) && !Hits(s, x) && |s.queue| < k
    ensures Proper(k, Step(p, k, s, x)) && Hits(Step(p, k, s, x), x)
    ensures Seen(Step(p, k, s, x)) == Seen(s) + {x}
  {
    var q' := s.queue + [Entry(x, false)];
    assert Names(q') == Names(s.queue) + [x];
    SetOfSnoc(Names(s.queue), x);
    assert Names(q')[|s.queue|] == x;
  }

  lemma EvictSeen(p: Policy, k: nat, s: State, x: Name)
    requires 0 < k && Proper(k, s) && !Hits(s, x) && |s.queue| == k
    ensures Proper(k, Step(p, k, s, x)) && Hits(Step(p, k, s, x), x)
    ensures Seen(Step(p, k, s, x)) == Seen(s) + {x}
  {
    var q := Facing(p, s.queue);
    FacingRearranges(p, s.queue);
    assert x !in SetOf(Names(s.queue));
    Replace(q, x);
    var q' := q[1..] + [Entry(x, false)];
    assert q[0].name == Names(q)[0];
    assert q[0].name in SetOf(Names(s.queue));
    assert Names(q')[k - 1] == x;
    assert SetOf(Names(q')) + (s.evicted + {q[0].name}) == Seen(s) + {x};
  }

  /** Every request adds exactly the requested name to those seen, and leaves it cached. */
  lemma StepSeen(p: Policy, k: nat, s: State, x: Name)
    requires 0 < k && Proper(k, s)
    ensures Proper(k, Step(p, k, s, x)) && Hits(Step(p, k, s, x), x)
    ensures Seen(Step(p, k, s, x)) == Seen(s) + {x}
    ensures Misses(Step(p, k, s, x)) == Misses(s) + if Hits(s, x) then 0 else 1
  {
    if Hits(s, x) {
      HitSeen(p, k, s, x);
    } else if |s.queue| < k {
      FillSeen(p, k, s, x);
    } else {
      EvictSeen(p, k, s, x);
    }
  }

  /** A slot still free after the request was free before it, and nothing was evicted. */
  lemma StepCounts(p: Policy, k: nat, s: State, x: Name)
    requires 0 < k && Proper(k, s)
    ensures Step(p, k, s, x).com == s.com + if Hits(s, x) || x in s.evicted then 0 else 1
    ensures |Step(p, k, s, x).queue| < k ==> |s.queue| < k && Step(p, k, s, x).evicted == s.evicted
  {
    if Hits(s, x) {
      HitRearranges(p, s.queue, x);
    } else if |s.queue| == k {
      FacingRearranges(p, s.queue);
    }
  }

  lemma SeenKnows(s: State, x: Name)
    ensures x in Seen(s) <==> Hits(s, x) || x in s.evicted
  {
    assert x in SetOf(Names(s.queue)) <==> x in Names(s.queue);
  }

  lemma SeenGrows(seen: set<Name>, x: Name)
    ensures |seen + {x}| == |seen| + if x in seen then 0 else 1
  {
    assert x in seen ==> seen + {x} == seen;
  }

  lemma InvFollows(k: nat, s: State, s': State, x: Name)
    requires Inv(k, s) && Proper(k, s') && Seen(s') == Seen(s) + {x}
    requires s'.com == s.com + if Hits(s, x) || x in s.evicted then 0 else 1
    requires |s'.queue| < k ==> |s.queue| < k && s'.evicted == s.evicted
    ensures Inv(k, s')
  {
    SeenKnows(s, x);
    SeenGrows(Seen(s), x);
  }

  /** Every request keeps the invariant. */
  lemma StepKeepsInv(p: Policy, k: nat, s: State, x: Name)
    requires 0 < k && Inv(k, s)
    ensures Inv(k, Step(p, k, s, x))
  {
    StepSeen(p, k, s, x);
    StepCounts(p, k, s, x);
    InvFollows(k, s, Step(p, k, s, x), x);
  }

  lemma {:induction false} RunKeepsInv(p: Policy, k: nat, s: State, t: seq<Name>)
    requires 0 < k && Inv(k, s)
    ensures Inv(k, RunFrom(p, k, s, t))
    ensures Seen(RunFrom(p, k, s, t)) == Seen(s) + SetOf(t)
    decreases |t|
  {
    if t != [] {
      StepKeepsInv(p, k, s, t[0]);
      RunKeepsInv(p, k, Step(p, k, s, t[0]), t[1..]);
      RunSeen(p, k, s, t);
    }
  }

  lemma RunSeen(p: Policy, k: nat, s: State, t: seq<Name>)
    requires 0 < k && Proper(k, s) && t != []
    ensures Seen(Step(p, k, s, t[0])) + SetOf(t[1..]) == Seen(s) + SetOf(t)
  {
    StepSeen(p, k, s, t[0]);
    SetOfHead(t);
  }

  lemma EmptyInv(k: nat)
    ensures Inv(k, State([], {}, 0, 0)) && Seen(State([], {}, 0, 0)) == {}
  {
    assert Names([]) == [];
  }

  function HitLines(out: seq<bool>): nat {
    if out == [] then 0 else (if out[0] then 1 else 0) + HitLines(out[1..])
  }

  lemma {:induction false} HitsPlusMisses(p: Policy, k: nat, s: State, t: seq<Name>)
    requires 0 < k && Inv(k, s)
    ensures |Printed(p, k, s, t)| == |t|
    ensures HitLines(Printed(p, k, s, t)) + Misses(RunFrom(p, k, s, t)) == Misses(s) + |t|
    decreases |t|
  {
    if t != [] {
      StepKeepsInv(p, k, s, t[0]);
      StepSeen(p, k, s, t[0]);
      HitsPlusMisses(p, k, Step(p, k, s, t[0]), t[1..]);
    }
  }

  /** A reached state caches min(k, distinct) names. */
  lemma Occupancy(k: nat, s: State)
    requires Inv(k, s)
    ensures |s.queue| == if |Seen(s)| < k then |Seen(s)| else k
  {
    UniqueCardinality(Names(s.queue));
    if |s.queue| == k {
      SubsetCardinality(SetOf(Names(s.queue)), Seen(s));
    } else {
      assert Seen(s) == SetOf(Names(s.queue));
    }
  }

  lemma RunInv(p: Policy, k: nat, t: seq<Name>)
    requires 0 < k
    ensures Inv(k, Run(p, k, t))
    ensures Seen(Run(p, k, t)) == SetOf(t)
  {
    EmptyInv(k);
    RunKeepsInv(p, k, State([], {}, 0, 0), t);
  }

  lemma RunHits(p: Policy, k: nat, t: seq<Name>)
    requires 0 < k
    ensures HitLines(Printed(p, k, State([], {}, 0, 0), t)) + Misses(Run(p, k, t)) == |t|
  {
    EmptyInv(k);
    HitsPlusMisses(p, k, State([], {}, 0, 0), t);
  }

  /** After any trace, and whatever the policy: the cached and the evicted names together are the
      names requested, compulsory misses count the distinct names, every request was either a HIT
      line or one counted miss, and the cache holds min(k, distinct) names. */
  lemma Classification(p: Policy, k: nat, t: seq<Name>, s: State)
    requires 0 < k && s == Run(p, k, t)
    ensures Unique(Names(s.queue))
    ensures SetOf(Names(s.queue)) + s.evicted == SetOf(t)
    ensures s.com == |SetOf(t)|
    ensures HitLines(Printed(p, k, State([], {}, 0, 0), t)) + s.com + s.cap == |t|
    ensures |s.queue| == if |SetOf(t)| < k then |SetOf(t)| else k
  {
    RunInv(p, k, t);
    RunHits(p, k, t);
    Occupancy(k, s);
  }

  /** The classification does not depend on the policy or, for compulsory misses, on the size. */
  lemma CompulsoryIsPolicyIndependent(p: Policy, k: nat, p': Policy, k': nat, t: seq<Name>)
    requires 0 < k && 0 < k'
    ensures Run(p, k, t).com == Run(p', k', t).com
  {
    Classification(p, k, t, Run(p, k, t));
    Classification(p', k', t, Run(p', k', t));
  }
}
