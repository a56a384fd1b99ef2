/** queue_push and queue_pop run by any number of threads, one shared access at a time.

    Mutex and condition variables follow pthread_mutex_lock, pthread_cond_wait and
    pthread_cond_signal of IEEE Std 1003.1: a wait releases the lock and blocks in one step, a signal
    wakes at least one waiter if there is any, and a waiter may also wake without a signal. */
module QueueMonitor {
  import opened QueueRing

  /** Where a thread is. The states from Test to Unlock hold the lock. */
  datatype Pc =
    | Idle
    | PushLock(v: Elem)
    | PushTest(v: Elem)
    | PushAsleep(v: Elem)
    | PushWoken(v: Elem)
    | PushWrite(v: Elem)
    | PushAdvance(v: Elem)
    | PushCount(v: Elem)
    | PushUnlock
    | PushSignal
    | PopLock
    | PopTest
    | PopAsleep
    | PopWoken
    | PopRead
    | PopAdvance(x: Elem)
    | PopCount(x: Elem)
    | PopUnlock(x: Elem)
    | PopSignal(x: Elem)

  datatype Owner = Free | Held(t: nat)

  /** pushed and popped record the elements in the order in which count was changed for them. */
  datatype Mon = Mon(ring: Ring, lock: Owner, pc: seq<Pc>, pushed: seq<Elem>, popped: seq<Elem>)

  datatype Action =
    | CallPush(t: nat, v: Elem)
    | CallPop(t: nat)
    | Proceed(t: nat)
    | Signal(t: nat, woken: set<nat>)
    | Spurious(t: nat)

  predicate Holding(p: Pc) {
    match p
    case PushTest(_) => true
    case PushWrite(_) => true
    case PushAdvance(_) => true
    case PushCount(_) => true
    case PushUnlock => true
    case PopTest => true
    case PopRead => true
    case PopAdvance(_) => true
    case PopCount(_) => true
    case PopUnlock(_) => true
    case _ => false
  }

  /** About to lock, for the first time or to return from a wait. */
  predicate Locking(p: Pc) {
    p.PushLock? || p.PushWoken? || p.PopLock? || p.PopWoken?
  }

  /** The waiters on the condition that thread state p signals. */
  predicate Waits(p: Pc, sleeper: Pc) {
    (p.PushSignal? && sleeper.PopAsleep?) || (p.PopSignal? && sleeper.PushAsleep?)
  }

  function Wake(p: Pc): Pc {
    match p
    case PushAsleep(v) => PushWoken(v)
    case PopAsleep => PopWoken
    case _ => p
  }

  /** The two cursors are slots, so that every access is defined. */
  predicate Usable(r: Ring) {
    0 <= r.in_ < |r.buffer| && 0 <= r.out < |r.buffer|
  }

  predicate Enabled(s: Mon, a: Action) {
    a.t < |s.pc| && Usable(s.ring) &&
    var p := s.pc[a.t];
    match a
    case CallPush(_, _) => p.Idle?
    case CallPop(_) => p.Idle?
    case Proceed(_) => Holding(p) || (Locking(p) && s.lock.Free?)
    case Signal(t, w) =>
      && (p.PushSignal? || p.PopSignal?)
      && (forall u :: u in w ==> u < |s.pc| && Waits(p, s.pc[u]))
      && ((exists u :: 0 <= u < |s.pc| && Waits(p, s.pc[u])) ==> w != {})
    case Spurious(_) => p.PushAsleep? || p.PopAsleep?
  }

  function Goto(s: Mon, t: nat, p: Pc): Mon
    requires t < |s.pc|
  {
    s.(pc := s.pc[t := p])
  }

  /** The next access of a thread that holds the lock or can take it. */
  function Next(s: Mon, t: nat): Mon
    requires Enabled(s, Proceed(t))
  {
    var r := s.ring;
    match s.pc[t]
    case PushLock(v) => Goto(s, t, PushTest(v)).(lock := Held(t))
    case PushWoken(v) => Goto(s, t, PushTest(v)).(lock := Held(t))
    case PushTest(v) =>
      if r.count == |r.buffer| then Goto(s, t, PushAsleep(v)).(lock := Free) else Goto(s, t, PushWrite(v))
    case PushWrite(v) => Goto(s, t, PushAdvance(v)).(ring := WriteSlot(r, v))
    case PushAdvance(v) => Goto(s, t, PushCount(v)).(ring := AdvanceIn(r))
    case PushCount(v) => Goto(s, t, PushUnlock).(ring := r.(count := r.count + 1), pushed := s.pushed + [v])
    case PushUnlock => Goto(s, t, PushSignal).(lock := Free)
    case PopLock => Goto(s, t, PopTest).(lock := Held(t))
    case PopWoken => Goto(s, t, PopTest).(lock := Held(t))
    case PopTest =>
      if r.count == 0 then Goto(s, t, PopAsleep).(lock := Free) else Goto(s, t, PopRead)
    case PopRead => Goto(s, t, PopAdvance(r.buffer[r.out]))
    case PopAdvance(x) => Goto(s, t, PopCount(x)).(ring := AdvanceOut(r))
    case PopCount(x) => Goto(s, t, PopUnlock(x)).(ring := r.(count := r.count - 1), popped := s.popped + [x])
    case PopUnlock(x) => Goto(s, t, PopSignal(x)).(lock := Free)
    case _ => s
  }

  function WakeAll(pc: seq<Pc>, w: set<nat>): (r: seq<Pc>)
    ensures |r| == |pc|
    ensures forall i :: 0 <= i < |pc| ==> r[i] == if i in w then Wake(pc[i]) else pc[i]
  {
    seq(|pc|, i requires 0 <= i < |pc| => if i in w then Wake(pc[i]) else pc[i])
  }

  /** The state after action a. A pop returns its element when its signal is sent. */
  function Do(s: Mon, a: Action): Mon
    requires Enabled(s, a)
  {
    match a
    case CallPush(t, v) => Goto(s, t, PushLock(v))
    case CallPop(t) => Goto(s, t, PopLock)
    case Proceed(t) => Next(s, t)
    case Signal(t, w) => var s' := Goto(s, t, Idle); s'.(pc := WakeAll(s'.pc, w))
    case Spurious(t) => Goto(s, t, Wake(s.pc[t]))
  }

  /** n threads and a new queue of the given size, whose slots hold whatever malloc returned. */
  ghost predicate Start(s: Mon) {
    && 0 < |s.ring.buffer|
    && s.ring.in_ == s.ring.out == s.ring.count == 0
    && s.lock.Free? && s.pushed == [] && s.popped == []
    && forall t :: 0 <= t < |s.pc| ==> s.pc[t].Idle?
  }

  /** The actions of acts can be taken one after the other from s. */
  ghost predicate Runs(s: Mon, acts: seq<Action>)
    decreases |acts|
  {
    acts == [] || (Enabled(s, acts[0]) && Runs(Do(s, acts[0]), acts[1..]))
  }

  ghost function After(s: Mon, acts: seq<Action>): Mon
    requires Runs(s, acts)
    decreases |acts|
  {
    if acts == [] then s else After(Do(s, acts[0]), acts[1..])
  }
}
