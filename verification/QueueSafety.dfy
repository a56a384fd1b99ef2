/** In every interleaving the queue is first in, first out: nothing is lost, duplicated or reordered. */
module QueueSafety {
  import opened QueueRing
  import opened QueueMonitor

  ghost predicate LockOk(s: Mon) {
    forall t :: 0 <= t < |s.pc| ==> (Holding(s.pc[t]) <==> s.lock == Held(t))
  }

  /** The state of the thread inside the critical section; Idle stands for none. */
  ghost function Inside(s: Mon): Pc {
    if s.lock.Held? && s.lock.t < |s.pc| then s.pc[s.lock.t] else Idle
  }

  /** The ring against the history, given how far the thread inside has got. */
  ghost predicate Coherent(r: Ring, p: Pc, pushed: seq<Elem>, popped: seq<Elem>) {
    Usable(r) &&
    if p.PushCount? then
      var r' := r.(count := r.count + 1);
      0 <= r.count && RingOk(r') && pushed + [p.v] == popped + Contents(r')
    else if p.PopCount? then
      var r' := r.(count := r.count - 1);
      r.count <= |r.buffer| && RingOk(r') && pushed == popped + [p.x] + Contents(r')
    else
      && RingOk(r)
      && pushed == popped + Contents(r)
      && (p.PushWrite? || p.PushAdvance? ==> r.count < |r.buffer|)
      && (p.PushAdvance? ==> r.buffer[r.in_] == p.v)
      && (p.PopRead? || p.PopAdvance? ==> 0 < r.count)
      && (p.PopAdvance? ==> r.buffer[r.out] == p.x)
  }

  ghost predicate Inv(s: Mon) {
    && LockOk(s)
    && (s.lock.Held? ==> s.lock.t < |s.pc|)
    && Coherent(s.ring, Inside(s), s.pushed, s.popped)
  }

  lemma PushAccess(s: Mon, t: nat)
    requires Inv(s) && Enabled(s, Proceed(t)) && s.lock == Held(t)
    requires s.pc[t].PushTest? || s.pc[t].PushWrite? || s.pc[t].PushAdvance? || s.pc[t].PushCount?
    ensures var s' := Next(s, t);
      Coherent(s'.ring, if s'.lock.Free? then Idle else s'.pc[t], s'.pushed, s'.popped)
  {
    var r := s.ring;
    match s.pc[t]
    case PushTest(v) =>
    case PushWrite(v) => WriteKeeps(r, v);
    case PushAdvance(v) =>
      WrapIsMod(r.out + r.count, |r.buffer|);
      PushAppends(r, v);
      assert AdvanceIn(r).(count := r.count + 1) == Next(s, t).ring.(count := r.count + 1);
    case PushCount(v) =>
  }

  lemma MoveFront(a: seq<Elem>, b: seq<Elem>)
    requires b != []
    ensures a + b == a + [b[0]] + b[1..]
  {
  }

  lemma PopAccess(s: Mon, t: nat)
    requires Inv(s) && Enabled(s, Proceed(t)) && s.lock == Held(t)
    requires s.pc[t].PopTest? || s.pc[t].PopRead? || s.pc[t].PopAdvance? || s.pc[t].PopCount?
    ensures var s' := Next(s, t);
      Coherent(s'.ring, if s'.lock.Free? then Idle else s'.pc[t], s'.pushed, s'.popped)
  {
    var r := s.ring;
    match s.pc[t]
    case PopTest =>
    case PopRead =>
    case PopAdvance(x) =>
      FrontIsOut(r);
      PopRemoves(r);
      MoveFront(s.popped, Contents(r));
    case PopCount(x) =>
  }

  lemma ProceedKeepsInv(s: Mon, t: nat)
    requires Inv(s) && Enabled(s, Proceed(t))
    ensures Inv(Next(s, t))
  {
    ProceedKeepsLock(s, t);
    if s.pc[t].PushTest? || s.pc[t].PushWrite? || s.pc[t].PushAdvance? || s.pc[t].PushCount? {
      PushAccess(s, t);
    } else if s.pc[t].PopTest? || s.pc[t].PopRead? || s.pc[t].PopAdvance? || s.pc[t].PopCount? {
      PopAccess(s, t);
    } else {
      CrossKeepsRing(s, t);
    }
  }

  lemma ProceedKeepsLock(s: Mon, t: nat)
    requires Inv(s) && Enabled(s, Proceed(t))
    ensures LockOk(Next(s, t)) && (Next(s, t).lock.Held? ==> Next(s, t).lock == Held(t))
    ensures |Next(s, t).pc| == |s.pc|
  {
  }

  /** Entering and leaving. */
  lemma CrossKeepsRing(s: Mon, t: nat)
    requires Inv(s) && Enabled(s, Proceed(t))
    requires var p := s.pc[t];
      p.PushLock? || p.PushWoken? || p.PushUnlock? || p.PopLock? || p.PopWoken? || p.PopUnlock?
    ensures var s' := Next(s, t); Coherent(s'.ring, Inside(s'), s'.pushed, s'.popped)
  {
  }

  lemma OutsideKeepsInv(s: Mon, s': Mon)
    requires Inv(s) && s' == s.(pc := s'.pc) && |s'.pc| == |s.pc|
    requires forall t :: 0 <= t < |s.pc| ==> s'.pc[t] == s.pc[t] || (!Holding(s.pc[t]) && !Holding(s'.pc[t]))
    ensures Inv(s')
  {
  }

  lemma DoKeepsInv(s: Mon, a: Action)
    requires Inv(s) && Enabled(s, a)
    ensures Inv(Do(s, a))
  {
    match a
    case Proceed(t) => ProceedKeepsInv(s, t);
    case CallPush(t, v) => OutsideKeepsInv(s, Do(s, a));
    case CallPop(t) => OutsideKeepsInv(s, Do(s, a));
    case Signal(t, w) => SignalKeepsInv(s, t, w);
    case Spurious(t) => OutsideKeepsInv(s, Do(s, a));
  }

  lemma SignalOutside(s: Mon, t: nat, w: set<nat>)
    requires Enabled(s, Signal(t, w))
    ensures var s' := Do(s, Signal(t, w));
      && s' == s.(pc := s'.pc) && |s'.pc| == |s.pc|
      && forall x :: 0 <= x < |s.pc| ==> s'.pc[x] == s.pc[x] || (!Holding(s.pc[x]) && !Holding(s'.pc[x]))
  {
  }

  lemma SignalKeepsInv(s: Mon, t: nat, w: set<nat>)
    requires Inv(s) && Enabled(s, Signal(t, w))
    ensures Inv(Do(s, Signal(t, w)))
  {
    var s' := Do(s, Signal(t, w));
    SignalOutside(s, t, w);
    OutsideKeepsInv(s, s');
  }

  lemma {:induction false} RunsKeepInv(s: Mon, acts: seq<Action>)
    requires Inv(s) && Runs(s, acts)
    ensures Inv(After(s, acts))
    decreases |acts|
  {
    if acts != [] {
      DoKeepsInv(s, acts[0]);
      RunsKeepInv(Do(s, acts[0]), acts[1..]);
    }
  }

  lemma StartInv(s: Mon)
    requires Start(s)
    ensures Inv(s)
  {
    assert 0 % |s.ring.buffer| == 0;
    assert Contents(s.ring) == [];
  }

  lemma CoherentCount(r: Ring, p: Pc, pushed: seq<Elem>, popped: seq<Elem>)
    requires Coherent(r, p, pushed, popped)
    ensures 0 <= r.count <= |r.buffer| && popped <= pushed
  {
    if p.PushCount? {
      CountsOne(pushed, p.v, popped, Contents(r.(count := r.count + 1)));
    } else if p.PopCount? {
      var rest := Contents(r.(count := r.count - 1));
      assert popped + [p.x] + rest == popped + ([p.x] + rest);
    }
  }

  /** For any number of threads and any interleaving: at most one thread is inside; the count stays
      within the size and popped values are a prefix of pushed ones, in every state; and whenever
      nobody is inside, the elements pushed so far, in the order of the critical sections, are those
      popped so far followed by those in the ring, and the cursors agree with the count. Inside, the
      same holds up to the one element on its way, as Coherent says. */
  lemma ConcurrentFifo(s: Mon, acts: seq<Action>, s': Mon)
    requires Start(s) && Runs(s, acts) && s' == After(s, acts)
    ensures forall t, u :: 0 <= t < |s'.pc| && 0 <= u < |s'.pc| && Holding(s'.pc[t]) && Holding(s'.pc[u]) ==> t == u
    ensures 0 <= s'.ring.count <= |s'.ring.buffer|
    ensures s'.popped <= s'.pushed
    ensures s'.lock.Free? ==> RingOk(s'.ring) && s'.pushed == s'.popped + Contents(s'.ring)
    ensures Coherent(s'.ring, Inside(s'), s'.pushed, s'.popped)
  {
    StartInv(s);
    RunsKeepInv(s, acts);
    CoherentCount(s'.ring, Inside(s'), s'.pushed, s'.popped);
  }

  lemma CountsOne(pushed: seq<Elem>, v: Elem, popped: seq<Elem>, c: seq<Elem>)
    requires pushed + [v] == popped + c && c != []
    ensures popped <= pushed
  {
    assert pushed == (popped + c)[..|pushed|];
  }
}
