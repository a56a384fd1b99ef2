/** The three eviction policies of the cache simulator as functions on values.

    A state lists the cached items from the next candidate for eviction to the newest: for FIFO
    and LRU that is the slot array itself, for CLOCK the ring read from the hand round. */
module CacheSpec {

  type Name = string

  datatype Policy = FIFO | LRU | CLOCK

  datatype Entry = Entry(name: Name, bit: bool)

  datatype State = State(queue: seq<Entry>, evicted: set<Name>, com: nat, cap: nat)

  function Names(q: seq<Entry>): (r: seq<Name>)
    ensures |r| == |q|
    ensures forall i :: 0 <= i < |q| ==> r[i] == q[i].name
  {
    seq(|q|, i requires 0 <= i < |q| => q[i].name)
  }

  lemma NamesConcat(q: seq<Entry>, r: seq<Entry>)
    ensures Names(q + r) == Names(q) + Names(r)
  {
  }

  /** The first slot that holds x. */
  function Index(q: seq<Entry>, x: Name): (i: nat)
    requires x in Names(q)
    ensures i < |q| && q[i].name == x
    ensures forall j :: 0 <= j < i ==> q[j].name != x
  {
    if q[0].name == x then 0
    else
      assert Names(q[1..]) == Names(q)[1..];
      1 + Index(q[1..], x)
  }

  function SetBits(q: seq<Entry>): nat {
    if q == [] then 0 else (if q[0].bit then 1 else 0) + SetBits(q[1..])
  }

  lemma {:induction false} SetBitsSnoc(q: seq<Entry>, e: Entry)
    ensures SetBits(q + [e]) == SetBits(q) + if e.bit then 1 else 0
  {
    if q == [] {
      assert q + [e] == [e];
    } else {
      assert (q + [e])[1..] == q[1..] + [e];
      SetBitsSnoc(q[1..], e);
    }
  }

  /** One inspection of a set reference bit: the front entry goes to the back, its bit cleared. */
  function Rotate(q: seq<Entry>): seq<Entry>
    requires |q| > 0
  {
    q[1..] + [Entry(q[0].name, false)]
  }

  lemma RotateSetBits(q: seq<Entry>)
    requires |q| > 0 && q[0].bit
    ensures SetBits(Rotate(q)) == SetBits(q) - 1
  {
    SetBitsSnoc(q[1..], Entry(q[0].name, false));
  }

  /** The second-chance rule: rotate until the front entry has a clear bit. */
  function SecondChance(q: seq<Entry>): (r: seq<Entry>)
    requires |q| > 0
    ensures |r| == |q| && !r[0].bit
    decreases SetBits(q)
  {
    if q[0].bit then
      RotateSetBits(q);
      SecondChance(Rotate(q))
    else q
  }

  function OnHit(p: Policy, q: seq<Entry>, x: Name): seq<Entry>
    requires x in Names(q)
  {
    var i := Index(q, x);
    match p
    case FIFO => q
    case LRU => q[..i] + q[i + 1..] + [Entry(x, false)]
    case CLOCK => q[i := Entry(x, true)]
  }

  /** The queue with the victim of the next eviction in front. */
  function Facing(p: Policy, q: seq<Entry>): (r: seq<Entry>)
    requires |q| > 0
    ensures |r| == |q|
  {
    if p.CLOCK? then SecondChance(q) else q
  }

  function OnMiss(p: Policy, k: nat, s: State, x: Name): State
    requires 0 < k
  {
    var s' := if x in s.evicted then s.(cap := s.cap + 1) else s.(com := s.com + 1);
    if |s.queue| == k then
      var q := Facing(p, s.queue);
      s'.(queue := q[1..] + [Entry(x, false)], evicted := s.evicted + {q[0].name})
    else
      s'.(queue := s.queue + [Entry(x, false)])
  }

  predicate Hits(s: State, x: Name) {
    x in Names(s.queue)
  }

  function Step(p: Policy, k: nat, s: State, x: Name): State
    requires 0 < k
  {
    if Hits(s, x) then s.(queue := OnHit(p, s.queue, x)) else OnMiss(p, k, s, x)
  }

  /** The state after replaying the requests t from s. */
  function RunFrom(p: Policy, k: nat, s: State, t: seq<Name>): State
    requires 0 < k
    decreases |t|
  {
    if t == [] then s else RunFrom(p, k, Step(p, k, s, t[0]), t[1..])
  }

  function Run(p: Policy, k: nat, t: seq<Name>): State
    requires 0 < k
  {
    RunFrom(p, k, State([], {}, 0, 0), t)
  }

  /** The HIT and MISS lines printed for t, HIT as true. */
  function Printed(p: Policy, k: nat, s: State, t: seq<Name>): seq<bool>
    requires 0 < k
    decreases |t|
  {
    if t == [] then []
    else [Hits(s, t[0])] + Printed(p, k, Step(p, k, s, t[0]), t[1..])
  }

  function Misses(s: State): nat {
    s.com + s.cap
  }

  lemma {:induction false} RunConcat(p: Policy, k: nat, s: State, t: seq<Name>, u: seq<Name>)
    requires 0 < k
    ensures RunFrom(p, k, s, t + u) == RunFrom(p, k, RunFrom(p, k, s, t), u)
    ensures Printed(p, k, s, t + u) == Printed(p, k, s, t) + Printed(p, k, RunFrom(p, k, s, t), u)
    decreases |t|
  {
    if t == [] {
      assert t + u == u;
    } else {
      assert (t + u)[1..] == t[1..] + u;
      RunConcat(p, k, Step(p, k, s, t[0]), t[1..], u);
    }
  }

  lemma RunSnoc(p: Policy, k: nat, s: State, t: seq<Name>, x: Name)
    requires 0 < k
    ensures RunFrom(p, k, s, t + [x]) == Step(p, k, RunFrom(p, k, s, t), x)
    ensures Printed(p, k, s, t + [x]) == Printed(p, k, s, t) + [Hits(RunFrom(p, k, s, t), x)]
  {
    RunConcat(p, k, s, t, [x]);
    var s' := RunFrom(p, k, s, t);
    assert RunFrom(p, k, s', [x]) == Step(p, k, s', x);
  }
}
