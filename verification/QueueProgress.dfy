/** No wake-up is lost, and once no new call is made every call that can complete does. */
module QueueProgress {
  import opened Seqs
  import opened QueueRing
  import opened QueueMonitor
  import opened QueueSafety

  lemma TotalGrowsAt(pc: seq<Pc>, pc': seq<Pc>, w: Pc -> nat, t: nat)
    requires |pc| == |pc'| && forall i :: 0 <= i < |pc| ==> w(pc[i]) <= w(pc'[i])
    requires t < |pc| && w(pc[t]) < w(pc'[t])
    ensures Total(pc, w) < Total(pc', w)
  {
    TotalUpdate(pc, t, pc'[t], w);
    TotalGrows(pc[t := pc'[t]], pc', w);
  }

  /** The two conditions: full is waited on by pushers, empty by poppers. */
  datatype Side = Full | Empty

  predicate Asleep(c: Side, p: Pc) {
    if c.Full? then p.PushAsleep? else p.PopAsleep?
  }

  /** What a sleeper on c waits for: free slots, or queued elements. */
  function Supply(c: Side, r: Ring): int {
    if c.Full? then |r.buffer| - r.count else r.count
  }

  /** The threads that owe the sleepers on c something: those that made supply and have yet to
      signal, and those on the way to testing for it and taking it. */
  predicate Owes(c: Side, p: Pc) {
    match c
    case Full =>
      p.PopUnlock? || p.PopSignal?
      || p.PushWoken? || p.PushTest? || p.PushWrite? || p.PushAdvance? || p.PushCount?
    case Empty =>
      p.PushUnlock? || p.PushSignal?
      || p.PopWoken? || p.PopTest? || p.PopRead? || p.PopAdvance? || p.PopCount?
  }

  function Debt(c: Side): Pc -> nat {
    p => if Owes(c, p) then 1 else 0
  }

  /** While anyone sleeps on c, the supply is spoken for. */
  ghost predicate Covered(c: Side, s: Mon) {
    (exists t :: 0 <= t < |s.pc| && Asleep(c, s.pc[t])) ==> Supply(c, s.ring) <= Total(s.pc, Debt(c))
  }

  /** One access never adds supply without a debt, and a thread falls asleep only without supply. */
  lemma AccessDebt(c: Side, s: Mon, t: nat)
    requires Enabled(s, Proceed(t))
    ensures var s' := Next(s, t);
      && s'.pc == s.pc[t := s'.pc[t]]
      && (if Asleep(c, s'.pc[t]) then Supply(c, s'.ring) == 0
          else Supply(c, s'.ring) + Debt(c)(s.pc[t]) <= Supply(c, s.ring) + Debt(c)(s'.pc[t]))
  {
    match s.pc[t] {
      case PushTest(_) =>
      case PopTest =>
      case _ =>
    }
  }

  lemma ProceedCovered(c: Side, s: Mon, t: nat)
    requires Covered(c, s) && Enabled(s, Proceed(t))
    ensures Covered(c, Next(s, t))
  {
    var s' := Next(s, t);
    AccessDebt(c, s, t);
    TotalUpdate(s.pc, t, s'.pc[t], Debt(c));
    if u :| 0 <= u < |s'.pc| && Asleep(c, s'.pc[u]) {
      if u != t { assert Asleep(c, s.pc[u]); }
    }
  }

  lemma WakeRaises(c: Side, p: Pc)
    ensures Debt(c)(p) <= Debt(c)(Wake(p))
    ensures Asleep(c, p) ==> Debt(c)(p) < Debt(c)(Wake(p))
  {
  }

  /** Waking the waiters w, which sleep on c if the signaller owed c, repays the debt. */
  lemma WakeDebt(c: Side, pc: seq<Pc>, w: set<nat>, owed: bool)
    requires forall u :: u in w ==> u < |pc|
    requires owed ==> w != {} && forall u :: u in w ==> Asleep(c, pc[u])
    ensures Total(pc, Debt(c)) + (if owed then 1 else 0) <= Total(WakeAll(pc, w), Debt(c))
  {
    var pc', d := WakeAll(pc, w), Debt(c);
    forall i | 0 <= i < |pc| ensures d(pc[i]) <= d(pc'[i]) {
      WakeRaises(c, pc[i]);
    }
    if owed {
      var x :| x in w;
      WakeRaises(c, pc[x]);
      TotalGrowsAt(pc, pc', d, x);
    } else {
      TotalGrows(pc, pc', d);
    }
  }

  lemma SignalCovered(c: Side, s: Mon, t: nat, w: set<nat>)
    requires Covered(c, s) && Enabled(s, Signal(t, w))
    ensures Covered(c, Do(s, Signal(t, w)))
  {
    var p, s' := s.pc[t], Do(s, Signal(t, w));
    if u :| 0 <= u < |s'.pc| && Asleep(c, s'.pc[u]) {
      SignalWakes(c, s, t, w, u);
      TotalUpdate(s.pc, t, Idle, Debt(c));
      WakeDebt(c, s.pc[t := Idle], w, Owes(c, p));
    }
  }

  /** With a sleeper left on c, a signaller that owed c has woken a sleeper on c. */
  lemma SignalWakes(c: Side, s: Mon, t: nat, w: set<nat>, u: nat)
    requires Enabled(s, Signal(t, w)) && u < |s.pc| && Asleep(c, Do(s, Signal(t, w)).pc[u])
    ensures Asleep(c, s.pc[u]) && forall v :: v in w ==> v < |s.pc| && v != t
    ensures Owes(c, s.pc[t]) ==> w != {} && forall v :: v in w ==> Asleep(c, s.pc[t := Idle][v])
  {
    assert Asleep(c, s.pc[u]);
    assert Owes(c, s.pc[t]) ==> Waits(s.pc[t], s.pc[u]);
  }

  lemma OtherCovered(c: Side, s: Mon, a: Action)
    requires Covered(c, s) && Enabled(s, a) && (a.CallPush? || a.CallPop? || a.Spurious?)
    ensures Covered(c, Do(s, a))
  {
    var s' := Do(s, a);
    TotalUpdate(s.pc, a.t, s'.pc[a.t], Debt(c));
    if u :| 0 <= u < |s'.pc| && Asleep(c, s'.pc[u]) {
      assert Asleep(c, s.pc[u]);
    }
  }

  lemma {:induction false} RunsCovered(c: Side, s: Mon, acts: seq<Action>)
    requires Inv(s) && Covered(c, s) && Runs(s, acts)
    ensures Covered(c, After(s, acts))
    decreases |acts|
  {
    if acts != [] {
      var a := acts[0];
      DoKeepsInv(s, a);
      match a {
        case Proceed(t) => ProceedCovered(c, s, t);
        case Signal(t, w) => SignalCovered(c, s, t, w);
        case _ => OtherCovered(c, s, a);
      }
      RunsCovered(c, Do(s, a), acts[1..]);
    }
  }

  /** No lost wake-up: in every reachable state in which a pusher sleeps, the free slots are at most
      the threads that owe: poppers that made one and have yet to signal, and pushers on the way from
      waking, or from the lock, to taking one. Likewise, for queued elements, when a popper sleeps. */
  lemma NoLostWakeup(c: Side, s: Mon, acts: seq<Action>, s': Mon)
    requires Start(s) && Runs(s, acts) && s' == After(s, acts)
    ensures (exists t :: 0 <= t < |s'.pc| && Asleep(c, s'.pc[t])) ==>
      Supply(c, s'.ring) <= Total(s'.pc, Debt(c))
  {
    StartInv(s);
    RunsCovered(c, s, acts);
  }

  /** The threads that owe without being inside: yet to signal, or woken and yet to test again. */
  predicate OwesOutside(c: Side, p: Pc) {
    if c.Full? then p.PopSignal? || p.PushWoken? else p.PushSignal? || p.PopWoken?
  }

  function OutsideDebt(c: Side): Pc -> nat {
    p => if OwesOutside(c, p) then 1 else 0
  }

  /** While nobody is inside: if a pusher sleeps, the free slots are at most the poppers yet to signal
      plus the woken pushers yet to test again; and likewise if a popper sleeps. */
  lemma NoLostWakeupOutside(c: Side, s: Mon, acts: seq<Action>, s': Mon)
    requires Start(s) && Runs(s, acts) && s' == After(s, acts) && s'.lock.Free?
    ensures (exists t :: 0 <= t < |s'.pc| && Asleep(c, s'.pc[t])) ==>
      Supply(c, s'.ring) <= Total(s'.pc, OutsideDebt(c))
  {
    NoLostWakeup(c, s, acts, s');
    StartInv(s);
    RunsKeepInv(s, acts);
    forall i | 0 <= i < |s'.pc| ensures Debt(c)(s'.pc[i]) <= OutsideDebt(c)(s'.pc[i]) {
      assert !Holding(s'.pc[i]);
    }
    TotalPointwise(s'.pc, Debt(c), OutsideDebt(c));
  }

  lemma {:induction false} TotalPointwise(pc: seq<Pc>, w: Pc -> nat, w': Pc -> nat)
    requires forall i :: 0 <= i < |pc| ==> w(pc[i]) <= w'(pc[i])
    ensures Total(pc, w) <= Total(pc, w')
  {
    if pc != [] { TotalPointwise(pc[1..], w, w'); }
  }

  /** No thread can make an access or send a signal: only new calls or unsignalled wakings are left. */
  ghost predicate Quiescent(s: Mon) {
    forall a :: Enabled(s, a) ==> !a.Proceed? && !a.Signal?
  }

  lemma SignalPossible(s: Mon, t: nat)
    requires Usable(s.ring) && t < |s.pc| && (s.pc[t].PushSignal? || s.pc[t].PopSignal?)
    ensures !Quiescent(s)
  {
    if u :| 0 <= u < |s.pc| && Waits(s.pc[t], s.pc[u]) {
      assert Enabled(s, Signal(t, {u}));
    } else {
      assert Enabled(s, Signal(t, {}));
    }
  }

  lemma QuiescentThreads(s: Mon)
    requires Inv(s) && Quiescent(s)
    ensures s.lock.Free?
    ensures forall t :: 0 <= t < |s.pc| ==> s.pc[t].Idle? || s.pc[t].PushAsleep? || s.pc[t].PopAsleep?
  {
    if s.lock.Held? {
      assert Enabled(s, Proceed(s.lock.t));
      assert false;
    }
    forall t | 0 <= t < |s.pc| ensures s.pc[t].Idle? || s.pc[t].PushAsleep? || s.pc[t].PopAsleep? {
      assert !Enabled(s, Proceed(t));
      if s.pc[t].PushSignal? || s.pc[t].PopSignal? { SignalPossible(s, t); }
    }
  }

  /** A reachable state in which nothing more happens by itself is one in which every call has
      returned or sleeps rightly: pushers only on a full queue, poppers only on an empty one. As the
      queue has a slot, pushers and poppers are never all asleep together. */
  lemma NoDeadlock(s: Mon, acts: seq<Action>, s': Mon)
    requires Start(s) && Runs(s, acts) && s' == After(s, acts) && Quiescent(s')
    ensures forall t :: 0 <= t < |s'.pc| ==> s'.pc[t].Idle? || s'.pc[t].PushAsleep? || s'.pc[t].PopAsleep?
    ensures forall t :: 0 <= t < |s'.pc| && s'.pc[t].PushAsleep? ==> s'.ring.count == |s'.ring.buffer|
    ensures forall t :: 0 <= t < |s'.pc| && s'.pc[t].PopAsleep? ==> s'.ring.count == 0
    ensures forall t, u :: 0 <= t < |s'.pc| && 0 <= u < |s'.pc| && s'.pc[t].PushAsleep? ==> !s'.pc[u].PopAsleep?
  {
    StartInv(s);
    RunsKeepInv(s, acts);
    QuiescentThreads(s');
    forall t | 0 <= t < |s'.pc| && s'.pc[t].PushAsleep? ensures s'.ring.count == |s'.ring.buffer| {
      NoSupply(Full, s, acts, s', t);
    }
    forall t | 0 <= t < |s'.pc| && s'.pc[t].PopAsleep? ensures s'.ring.count == 0 {
      NoSupply(Empty, s, acts, s', t);
    }
  }

  lemma NoSupply(c: Side, s: Mon, acts: seq<Action>, s': Mon, t: nat)
    requires Start(s) && Runs(s, acts) && s' == After(s, acts) && t < |s'.pc| && Asleep(c, s'.pc[t])
    requires forall u :: 0 <= u < |s'.pc| ==> !Owes(c, s'.pc[u])
    ensures Supply(c, s'.ring) <= 0
  {
    NoLostWakeup(c, s, acts, s');
    TotalBound(s'.pc, Debt(c), 0);
  }

  /** The accesses a thread may still make before it sleeps or returns. */
  function Work(p: Pc): nat {
    match p
    case PushLock(_) => 8
    case PushWoken(_) => 8
    case PopLock => 8
    case PopWoken => 8
    case PushTest(_) => 7
    case PopTest => 7
    case PushWrite(_) => 6
    case PopRead => 6
    case PushAdvance(_) => 5
    case PopAdvance(_) => 5
    case PushCount(_) => 4
    case PopCount(_) => 4
    case PushUnlock => 3
    case PopUnlock(_) => 3
    case PushSignal => 2
    case PopSignal(_) => 2
    case PushAsleep(_) => 1
    case PopAsleep => 1
    case Idle => 0
  }

  function InCall(p: Pc): nat {
    if p.Idle? then 0 else 1
  }

  /** Every call signals once, and one signal can set at most every thread to work again. */
  function Potential(pc: seq<Pc>): nat {
    Total(pc, InCall) * (8 * |pc| + 1) + Total(pc, Work)
  }

  lemma WakeAllInCall(pc: seq<Pc>, w: set<nat>)
    ensures Total(WakeAll(pc, w), InCall) == Total(pc, InCall)
  {
    TotalGrows(pc, WakeAll(pc, w), InCall);
    TotalGrows(WakeAll(pc, w), pc, InCall);
  }

  lemma AccessWork(s: Mon, t: nat)
    requires Enabled(s, Proceed(t))
    ensures var p := Next(s, t).pc;
      |p| == |s.pc| && p == s.pc[t := p[t]] && Work(p[t]) < Work(s.pc[t]) && InCall(p[t]) == InCall(s.pc[t])
  {
  }

  lemma ProceedFalls(s: Mon, t: nat)
    requires Enabled(s, Proceed(t))
    ensures Potential(Next(s, t).pc) < Potential(s.pc)
  {
    var p := Next(s, t).pc;
    AccessWork(s, t);
    TotalUpdate(s.pc, t, p[t], InCall);
    TotalUpdate(s.pc, t, p[t], Work);
  }

  lemma OneCallLess(calls: nat, n: nat, work: nat, work': nat)
    requires 0 < calls && work' < n
    ensures (calls - 1) * n + work' < calls * n + work
  {
    assert calls * n == (calls - 1) * n + n;
  }

  lemma SignalFalls(pc: seq<Pc>, t: nat, w: set<nat>)
    requires t < |pc| && !pc[t].Idle?
    ensures Potential(WakeAll(pc[t := Idle], w)) < Potential(pc)
  {
    var pc' := WakeAll(pc[t := Idle], w);
    TotalUpdate(pc, t, Idle, InCall);
    WakeAllInCall(pc[t := Idle], w);
    TotalBound(pc', Work, 8);
    OneCallLess(Total(pc, InCall), 8 * |pc| + 1, Total(pc, Work), Total(pc', Work));
  }

  lemma PotentialFalls(s: Mon, a: Action)
    requires Enabled(s, a) && (a.Proceed? || a.Signal?)
    ensures Potential(Do(s, a).pc) < Potential(s.pc)
  {
    match a
    case Proceed(t) => ProceedFalls(s, t);
    case Signal(t, w) => SignalFalls(s.pc, t, w);
  }

  /** Every run without new calls and without wakings that no signal caused is bounded, so it ends in
      a quiescent state whatever the scheduler does: with NoDeadlock, every call that can complete
      does. */
  lemma {:induction false} RunsEnd(s: Mon, acts: seq<Action>)
    requires Runs(s, acts) && forall i :: 0 <= i < |acts| ==> acts[i].Proceed? || acts[i].Signal?
    ensures |acts| <= Potential(s.pc)
    decreases |acts|
  {
    if acts != [] {
      PotentialFalls(s, acts[0]);
      RunsEnd(Do(s, acts[0]), acts[1..]);
    }
  }
}
