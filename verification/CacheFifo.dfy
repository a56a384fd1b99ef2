/** FIFO over whole traces: the slots are the last names loaded, in the order in which they were. */
module CacheFifo {
  import opened CacheSpec
  import opened CacheStack

  /** The requests of t whose line in out is MISS. */
  function Missed(t: seq<Name>, out: seq<bool>): seq<Name>
    requires |t| == |out|
  {
    if t == [] then []
    else
      var front := Missed(t[..|t| - 1], out[..|t| - 1]);
      if out[|t| - 1] then front else front + [t[|t| - 1]]
  }

  lemma MissedSnoc(t: seq<Name>, out: seq<bool>, x: Name, hit: bool)
    requires |t| == |out|
    ensures Missed(t + [x], out + [hit]) == if hit then Missed(t, out) else Missed(t, out) + [x]
  {
    assert (t + [x])[..|t|] == t && (out + [hit])[..|t|] == out;
  }

  /** What FIFO prints for t, from the names loaded so far alone: a name is a HIT if and only if it is
      among the last k of them. */
  function FifoLines(k: nat, t: seq<Name>): (out: seq<bool>)
    ensures |out| == |t|
  {
    if t == [] then []
    else
      var front, out := t[..|t| - 1], FifoLines(k, t[..|t| - 1]);
      out + [t[|t| - 1] in Suffix(k, Missed(front, out))]
  }

  lemma LoadedNext(k: nat, s: State, loaded: seq<Name>, x: Name)
    requires 0 < k && Names(s.queue) == Suffix(k, loaded)
    ensures Names(Step(FIFO, k, s, x).queue) == Suffix(k, if Hits(s, x) then loaded else loaded + [x])
  {
    if !Hits(s, x) {
      SuffixAppend(k, loaded, Names(s.queue), x);
      LoadedNames(k, s, x);
    }
  }

  lemma LoadedNames(k: nat, s: State, x: Name)
    requires 0 < k && !Hits(s, x)
    ensures var q := Names(s.queue);
      Names(Step(FIFO, k, s, x).queue) == (if |q| == k then q[1..] else q) + [x]
  {
  }

  /** After any trace the slots hold the last k names loaded, oldest first, and the lines printed say
      of each request whether it was among the last k names loaded before it. */
  lemma {:induction false} FifoOrder(k: nat, t: seq<Name>)
    requires 0 < k
    ensures Printed(FIFO, k, State([], {}, 0, 0), t) == FifoLines(k, t)
    ensures Names(Run(FIFO, k, t).queue) == Suffix(k, Missed(t, FifoLines(k, t)))
  {
    if t == [] {
      assert Names([]) == [];
    } else {
      var front, x := t[..|t| - 1], t[|t| - 1];
      FifoOrder(k, front);
      assert t == front + [x];
      RunSnoc(FIFO, k, State([], {}, 0, 0), front, x);
      MissedSnoc(front, FifoLines(k, front), x, x in Suffix(k, Missed(front, FifoLines(k, front))));
      LoadedNext(k, Run(FIFO, k, front), Missed(front, FifoLines(k, front)), x);
    }
  }

  /** A name is resident if and only if it is among the last k names loaded. */
  lemma FifoResident(k: nat, t: seq<Name>, x: Name)
    requires 0 < k
    ensures Hits(Run(FIFO, k, t), x) <==> x in Suffix(k, Missed(t, FifoLines(k, t)))
  {
    FifoOrder(k, t);
  }
}
