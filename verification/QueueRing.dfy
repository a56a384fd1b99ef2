/** The ring behind the bounded queue, as a value. */
module QueueRing {

  /** A pointer-sized element; the queue never looks inside it. */
  type Elem = int

  datatype Ring = Ring(in_: int, out: int, count: int, buffer: seq<Elem>)

  predicate RingOk(r: Ring) {
    && 0 < |r.buffer|
    && 0 <= r.count <= |r.buffer|
    && 0 <= r.out < |r.buffer|
    && r.in_ == (r.out + r.count) % |r.buffer|
  }

  /** The queued elements, oldest first. */
  function Contents(r: Ring): (s: seq<Elem>)
    requires RingOk(r)
    ensures |s| == r.count
    ensures forall i :: 0 <= i < r.count ==> s[i] == r.buffer[Wrap(r.out + i, |r.buffer|)]
  {
    seq(r.count, i requires 0 <= i < r.count => r.buffer[Wrap(r.out + i, |r.buffer|)])
  }

  function Wrap(i: int, n: int): (w: int)
    requires 0 <= i < 2 * n
    ensures 0 <= w < n
  {
    if i < n then i else i - n
  }

  lemma WrapIsMod(i: int, n: int)
    requires 0 <= i < 2 * n
    ensures i % n == Wrap(i, n)
  {
    var q := i / n;
    assert i == q * n + i % n;
    assert q >= 2 ==> q * n >= 2 * n;
    assert q <= 0 ==> q * n <= 0;
  }

  function WriteSlot(r: Ring, v: Elem): Ring
    requires 0 <= r.in_ < |r.buffer|
  {
    r.(buffer := r.buffer[r.in_ := v])
  }

  function AdvanceIn(r: Ring): Ring
    requires 0 < |r.buffer|
  {
    r.(in_ := (r.in_ + 1) % |r.buffer|)
  }

  function AdvanceOut(r: Ring): Ring
    requires 0 < |r.buffer|
  {
    r.(out := (r.out + 1) % |r.buffer|)
  }

  /** Writing the slot at in leaves the queued elements alone while the ring is not full. */
  lemma WriteKeeps(r: Ring, v: Elem)
    requires RingOk(r) && r.count < |r.buffer|
    ensures 0 <= r.in_ < |r.buffer|
    ensures RingOk(WriteSlot(r, v)) && Contents(WriteSlot(r, v)) == Contents(r)
  {
    WrapIsMod(r.out + r.count, |r.buffer|);
  }

  /** Advancing in and counting appends the element written there. */
  lemma PushAppends(r: Ring, v: Elem)
    requires RingOk(r) && r.count < |r.buffer| && r.buffer[Wrap(r.out + r.count, |r.buffer|)] == v
    ensures var r' := AdvanceIn(r).(count := r.count + 1);
      RingOk(r') && Contents(r') == Contents(r) + [v]
  {
    var n := |r.buffer|;
    WrapIsMod(r.out + r.count, n);
    WrapIsMod(r.in_ + 1, n);
    WrapIsMod(r.out + r.count + 1, n);
  }

  lemma FrontIsOut(r: Ring)
    requires RingOk(r) && 0 < r.count
    ensures Contents(r)[0] == r.buffer[r.out]
  {
  }

  /** Advancing out and counting down removes the oldest element. */
  lemma PopRemoves(r: Ring)
    requires RingOk(r) && 0 < r.count
    ensures var r' := AdvanceOut(r).(count := r.count - 1);
      RingOk(r') && Contents(r') == Contents(r)[1..]
  {
    var n := |r.buffer|;
    WrapIsMod(r.out + r.count, n);
    WrapIsMod(r.out + 1, n);
    WrapIsMod(Wrap(r.out + 1, n) + r.count - 1, n);
  }

  function PushRing(r: Ring, v: Elem): Ring
    requires RingOk(r)
  {
    AdvanceIn(WriteSlot(r, v)).(count := r.count + 1)
  }

  function PopRing(r: Ring): Ring
    requires RingOk(r)
  {
    AdvanceOut(r).(count := r.count - 1)
  }

  lemma PushRingAppends(r: Ring, v: Elem)
    requires RingOk(r) && r.count < |r.buffer|
    ensures RingOk(PushRing(r, v)) && Contents(PushRing(r, v)) == Contents(r) + [v]
  {
    WriteKeeps(r, v);
    WrapIsMod(r.out + r.count, |r.buffer|);
    PushAppends(WriteSlot(r, v), v);
  }
}
