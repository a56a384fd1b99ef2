/** CLOCK: the ring with a hand is a second-chance queue, its search for a victim in closed form,
    and its agreement with FIFO until the first hit. */
module CacheClock {
  import opened Seqs
  import opened CacheSpec

  /** The occupied slots read from the hand round. */
  function RingView(slots: seq<Entry>, hand: nat): (q: seq<Entry>)
    requires hand <= |slots|
    ensures |q| == |slots|
  {
    slots[hand..] + slots[..hand]
  }

  lemma Advance(hand: nat, n: nat)
    requires hand < n
    ensures (hand + 1) % n == if hand + 1 == n then 0 else hand + 1
  {
  }

  /** Position m of the queue is m slots on from the hand, going round at the end. */
  lemma RingViewAt(slots: seq<Entry>, hand: nat, m: nat)
    requires hand < |slots| && m < |slots|
    ensures RingView(slots, hand)[m] == slots[if hand + m < |slots| then hand + m else hand + m - |slots|]
  {
  }

  /** Overwriting the slot under the hand and advancing replaces the front by a new back. */
  lemma RingOverwrite(slots: seq<Entry>, hand: nat, e: Entry)
    requires hand < |slots|
    ensures (hand + 1) % |slots| < |slots|
    ensures RingView(slots[hand := e], (hand + 1) % |slots|) == RingView(slots, hand)[1..] + [e]
  {
    Advance(hand, |slots|);
    var s := slots[hand := e];
    if hand + 1 == |slots| {
      assert RingView(s, 0) == s;
    }
  }

  /** Clearing the bit under the hand and advancing is one rotation of the queue. */
  lemma RingInspect(slots: seq<Entry>, hand: nat)
    requires hand < |slots|
    ensures (hand + 1) % |slots| < |slots|
    ensures RingView(slots[hand := Entry(slots[hand].name, false)], (hand + 1) % |slots|)
         == Rotate(RingView(slots, hand))
  {
    RingOverwrite(slots, hand, Entry(slots[hand].name, false));
  }

  /** Filling an unfull ring, where the hand stands on the first free slot, appends. */
  lemma RingFill(slots: seq<Entry>, n: nat, e: Entry)
    requires |slots| < n
    ensures (|slots| + 1) % n <= |slots| + 1
    ensures RingView(slots + [e], (|slots| + 1) % n) == RingView(slots, |slots|) + [e]
  {
    Advance(|slots|, n);
  }

  /** Setting the bit of the slot that holds x is the CLOCK hit. */
  lemma RingHit(slots: seq<Entry>, hand: nat, i: nat, x: Name)
    requires hand <= |slots| && i < |slots| && slots[i].name == x
    requires Unique(Names(slots))
    ensures x in Names(RingView(slots, hand))
    ensures RingView(slots[i := Entry(x, true)], hand) == OnHit(CLOCK, RingView(slots, hand), x)
  {
    var q := RingView(slots, hand);
    var j := if i >= hand then i - hand else |slots| - hand + i;
    assert q[j] == slots[i] && Names(q)[j] == x;
    RingNames(slots, hand);
    IndexIs(q, j, x);
    assert RingView(slots[i := Entry(x, true)], hand) == q[j := Entry(x, true)];
  }

  lemma IndexIs(q: seq<Entry>, j: nat, x: Name)
    requires Unique(Names(q)) && j < |q| && q[j].name == x
    ensures x in Names(q) && Index(q, x) == j
  {
    assert Names(q)[j] == x;
    assert Names(q)[Index(q, x)] == x;
  }

  lemma RingNames(slots: seq<Entry>, hand: nat)
    requires hand <= |slots| && Unique(Names(slots))
    ensures Unique(Names(RingView(slots, hand)))
  {
    var q := RingView(slots, hand);
    assert forall m :: 0 <= m < |q| ==>
      Names(q)[m] == Names(slots)[if m < |slots| - hand then m + hand else m - (|slots| - hand)];
  }

  /** How many entries in front have a set bit. */
  function FirstClear(q: seq<Entry>): (m: nat)
    ensures m <= |q| && (m < |q| ==> !q[m].bit)
    ensures forall i :: 0 <= i < m ==> q[i].bit
  {
    if q == [] || !q[0].bit then 0 else 1 + FirstClear(q[1..])
  }

  function Cleared(q: seq<Entry>): (r: seq<Entry>)
    ensures |r| == |q| && forall i :: 0 <= i < |q| ==> r[i] == Entry(q[i].name, false)
  {
    seq(|q|, i requires 0 <= i < |q| => Entry(q[i].name, false))
  }

  /** The slots the eviction loop inspects, the victim's included. */
  function Inspections(q: seq<Entry>): nat
    requires |q| > 0
    decreases SetBits(q)
  {
    if q[0].bit then
      RotateSetBits(q);
      1 + Inspections(Rotate(q))
    else 1
  }

  lemma FirstClearIs(q: seq<Entry>, m: nat)
    requires m <= |q| && (m < |q| ==> !q[m].bit)
    requires forall i :: 0 <= i < m ==> q[i].bit
    ensures FirstClear(q) == m
  {
  }

  lemma FirstClearRotate(q: seq<Entry>)
    requires |q| > 0 && q[0].bit
    ensures FirstClear(Rotate(q)) == FirstClear(q) - 1
  {
    FirstClearIs(Rotate(q), FirstClear(q) - 1);
  }

  lemma VictimStep(q: seq<Entry>, m: nat)
    requires 0 < m <= |q|
    ensures Rotate(q)[m - 1..] + Cleared(Rotate(q)[..m - 1]) == q[m..] + Cleared(q[..m])
  {
    var e, r := [Entry(q[0].name, false)], Rotate(q);
    assert r[..m - 1] == q[..m][1..];
    ClearedHead(q[..m]);
    Regroup(q[m..], e, Cleared(q[..m][1..]));
    assert r[m - 1..] == q[m..] + e;
  }

  lemma ClearedHead(q: seq<Entry>)
    requires q != []
    ensures Cleared(q) == [Entry(q[0].name, false)] + Cleared(q[1..])
  {
  }

  /** The search in closed form. With m set bits ahead of the first clear one, the victim is entry m
      (entry 0 when all bits are set, since then m == |q|), exactly the m inspected bits are
      cleared, and m + 1 <= |q| + 1 slots are inspected. */
  lemma {:induction false} SecondChanceVictim(q: seq<Entry>)
    requires |q| > 0
    ensures SecondChance(q) == q[FirstClear(q)..] + Cleared(q[..FirstClear(q)])
    ensures SecondChance(q)[0].name == q[if FirstClear(q) < |q| then FirstClear(q) else 0].name
    ensures Inspections(q) == FirstClear(q) + 1 <= |q| + 1
    decreases SetBits(q)
  {
    if q[0].bit {
      RotateSetBits(q);
      FirstClearRotate(q);
      SecondChanceVictim(Rotate(q));
      VictimStep(q, FirstClear(q));
    }
  }

  /** Slot i lies on the way round from the hand to slot v. */
  predicate Passed(hand: nat, v: nat, i: nat) {
    if hand <= v then hand <= i < v else hand <= i || i < v
  }

  /** The victim on the ring itself: going round from the hand, the first slot with a clear bit, or the
      slot under the hand when every bit is set. Every slot on the way has its bit set. */
  lemma RingVictim(slots: seq<Entry>, hand: nat) returns (v: nat)
    requires hand < |slots|
    ensures v < |slots| && slots[v].name == SecondChance(RingView(slots, hand))[0].name
    ensures slots[v].bit ==> v == hand && forall i :: 0 <= i < |slots| ==> slots[i].bit
    ensures forall i :: 0 <= i < |slots| && Passed(hand, v, i) ==> slots[i].bit
  {
    var q := RingView(slots, hand);
    var m := FirstClear(q);
    SecondChanceVictim(q);
    var n := if m < |slots| then m else 0;
    v := if hand + n < |slots| then hand + n else hand + n - |slots|;
    RingViewAt(slots, hand, n);
    forall i | 0 <= i < |slots| ensures slots[i] == q[if hand <= i then i - hand else i + |slots| - hand] {
      RingViewAt(slots, hand, if hand <= i then i - hand else i + |slots| - hand);
    }
  }

  ghost predicate AllClear(q: seq<Entry>) {
    forall i :: 0 <= i < |q| ==> !q[i].bit
  }

  lemma MissWithClearBits(k: nat, s: State, x: Name)
    requires 0 < k && AllClear(s.queue) && !Hits(s, x)
    ensures Step(CLOCK, k, s, x) == Step(FIFO, k, s, x)
    ensures AllClear(Step(FIFO, k, s, x).queue)
  {
  }

  lemma {:induction false} AtMostOneMissEach(p: Policy, k: nat, s: State, t: seq<Name>)
    requires 0 < k
    ensures Misses(RunFrom(p, k, s, t)) <= Misses(s) + |t|
    decreases |t|
  {
    if t != [] { AtMostOneMissEach(p, k, Step(p, k, s, t[0]), t[1..]); }
  }

  lemma {:induction false} ClearUntilHit(p: Policy, k: nat, s: State, t: seq<Name>)
    requires 0 < k && AllClear(s.queue)
    requires p != LRU && Misses(RunFrom(p, k, s, t)) == Misses(s) + |t|
    ensures RunFrom(CLOCK, k, s, t) == RunFrom(FIFO, k, s, t)
    ensures AllClear(RunFrom(FIFO, k, s, t).queue)
    decreases |t|
  {
    if t != [] {
      var s' := Step(p, k, s, t[0]);
      AtMostOneMissEach(p, k, s', t[1..]);
      MissWithClearBits(k, s, t[0]);
      ClearUntilHit(p, k, s', t[1..]);
    }
  }

  /** On a trace without hits, under either policy, CLOCK and FIFO are in the same state: the same
      queue, counters and evicted names, so the next request hits both or neither. */
  lemma ClockIsFifoUntilHit(p: Policy, k: nat, t: seq<Name>)
    requires 0 < k && p != LRU && Misses(Run(p, k, t)) == |t|
    ensures Run(CLOCK, k, t) == Run(FIFO, k, t)
  {
    var s := State([], {}, 0, 0);
    assert AllClear(s.queue) && Misses(s) == 0;
    ClearUntilHit(p, k, s, t);
  }
}
