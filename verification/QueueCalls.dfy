/** The queue between the arguments of its calls and their results. */
module QueueCalls {
  import opened Seqs
  import opened QueueRing
  import opened QueueMonitor
  import opened QueueSafety

  /** An element enters the history of pushes, or of pops, in a step of thread t. */
  datatype Event = Pushed(t: nat, v: Elem) | Popped(t: nat, x: Elem)

  ghost function Recorded(s: Mon, a: Action): seq<Event>
    requires Enabled(s, a)
  {
    var s' := Do(s, a);
    if |s'.pushed| > |s.pushed| then [Pushed(a.t, s'.pushed[|s.pushed|])]
    else if |s'.popped| > |s.popped| then [Popped(a.t, s'.popped[|s.popped|])]
    else []
  }

  ghost function Events(s: Mon, acts: seq<Action>): seq<Event>
    requires Runs(s, acts)
    decreases |acts|
  {
    if acts == [] then [] else Recorded(s, acts[0]) + Events(Do(s, acts[0]), acts[1..])
  }

  /** The elements of all events, in order. */
  function PushValues(e: seq<Event>): seq<Elem> {
    if e == [] then [] else PushValue(e[0]) + PushValues(e[1..])
  }

  function PushValue(ev: Event): seq<Elem> {
    if ev.Pushed? then [ev.v] else []
  }

  function PopValues(e: seq<Event>): seq<Elem> {
    if e == [] then [] else PopValue(e[0]) + PopValues(e[1..])
  }

  function PopValue(ev: Event): seq<Elem> {
    if ev.Popped? then [ev.x] else []
  }

  /** Those of thread t. */
  function PushedBy(e: seq<Event>, t: nat): seq<Elem> {
    if e == [] then [] else (if e[0].Pushed? && e[0].t == t then [e[0].v] else []) + PushedBy(e[1..], t)
  }

  function PoppedBy(e: seq<Event>, t: nat): seq<Elem> {
    if e == [] then [] else (if e[0].Popped? && e[0].t == t then [e[0].x] else []) + PoppedBy(e[1..], t)
  }

  /** The arguments of thread t's calls of queue_push. */
  function Given(acts: seq<Action>, t: nat): seq<Elem> {
    if acts == [] then [] else GivenIn(acts[0], t) + Given(acts[1..], t)
  }

  function GivenIn(a: Action, t: nat): seq<Elem> {
    if a.CallPush? && a.t == t then [a.v] else []
  }

  /** How often thread t has called queue_pop. */
  function PopCalls(acts: seq<Action>, t: nat): nat {
    if acts == [] then 0 else (if acts[0].CallPop? && acts[0].t == t then 1 else 0) + PopCalls(acts[1..], t)
  }

  /** The results of thread t's calls of queue_pop, handed back with the signal that ends the call. */
  ghost function Returned(s: Mon, acts: seq<Action>, t: nat): seq<Elem>
    requires Runs(s, acts)
    decreases |acts|
  {
    if acts == [] then [] else ReturnedIn(s, acts[0], t) + Returned(Do(s, acts[0]), acts[1..], t)
  }

  ghost function ReturnedIn(s: Mon, a: Action, t: nat): seq<Elem>
    requires Enabled(s, a)
  {
    if a.Signal? && a.t == t && s.pc[t].PopSignal? then [s.pc[t].x] else []
  }

  /** What an unfinished push has yet to record. */
  function Carried(p: Pc): seq<Elem> {
    if p.PushLock? || p.PushTest? || p.PushAsleep? || p.PushWoken? || p.PushWrite? || p.PushAdvance? || p.PushCount?
    then [p.v] else []
  }

  /** What an unfinished pop has recorded and has yet to hand back. */
  function InHand(p: Pc): seq<Elem> {
    if p.PopUnlock? || p.PopSignal? then [p.x] else []
  }

  predicate Popping(p: Pc) {
    p.PopLock? || p.PopTest? || p.PopAsleep? || p.PopWoken? || p.PopRead? || p.PopAdvance? || p.PopCount?
    || p.PopUnlock? || p.PopSignal?
  }

  // One step.

  lemma RecordedIs(s: Mon, a: Action)
    requires Enabled(s, a)
    ensures Recorded(s, a) ==
      if a.Proceed? && s.pc[a.t].PushCount? then [Pushed(a.t, s.pc[a.t].v)]
      else if a.Proceed? && s.pc[a.t].PopCount? then [Popped(a.t, s.pc[a.t].x)]
      else []
  {
    if a.Proceed? { NextRecords(s, a.t); }
  }

  lemma NextRecords(s: Mon, t: nat)
    requires Enabled(s, Proceed(t))
    ensures Next(s, t).pushed == s.pushed + if s.pc[t].PushCount? then [s.pc[t].v] else []
    ensures Next(s, t).popped == s.popped + if s.pc[t].PopCount? then [s.pc[t].x] else []
  {
  }

  lemma StepRecords(s: Mon, a: Action)
    requires Enabled(s, a)
    ensures Do(s, a).pushed == s.pushed + PushValues(Recorded(s, a))
    ensures Do(s, a).popped == s.popped + PopValues(Recorded(s, a))
  {
    RecordedIs(s, a);
    if a.Proceed? { NextRecords(s, a.t); }
  }

  /** A thread that another one wakes, or that stays as it is, keeps its call. */
  ghost predicate SameCall(p: Pc, p': Pc) {
    Carried(p') == Carried(p) && InHand(p') == InHand(p) && Popping(p') == Popping(p)
  }

  lemma WakeKeepsCall(p: Pc)
    ensures SameCall(p, Wake(p))
  {
  }

  lemma OthersKeepCall(s: Mon, a: Action, t: nat)
    requires Enabled(s, a) && t < |s.pc| && t != a.t
    ensures |Do(s, a).pc| == |s.pc| && SameCall(s.pc[t], Do(s, a).pc[t])
  {
    WakeKeepsCall(s.pc[t]);
    if a.Proceed? { NextMoves(s, a.t); }
  }

  lemma NextMoves(s: Mon, t: nat)
    requires Enabled(s, Proceed(t))
    ensures Next(s, t).pc == s.pc[t := Next(s, t).pc[t]]
  {
  }

  lemma NextPushes(s: Mon, t: nat)
    requires Enabled(s, Proceed(t))
    ensures var p, p' := s.pc[t], Next(s, t).pc[t];
      Carried(p) == (if p.PushCount? then [p.v] else []) + Carried(p')
  {
  }

  lemma NextPops(s: Mon, t: nat)
    requires Enabled(s, Proceed(t))
    ensures var p, p' := s.pc[t], Next(s, t).pc[t];
      InHand(p) + (if p.PopCount? then [p.x] else []) == InHand(p')
  {
  }

  lemma NextPopping(s: Mon, t: nat)
    requires Enabled(s, Proceed(t))
    ensures Popping(s.pc[t]) == Popping(Next(s, t).pc[t])
  {
  }

  lemma OwnMove(s: Mon, a: Action)
    requires Enabled(s, a) && !a.Proceed?
    ensures var p := Do(s, a).pc;
      && |p| == |s.pc|
      && p[a.t] == match a
                   case CallPush(_, v) => PushLock(v)
                   case CallPop(_) => PopLock
                   case Signal(_, _) => Idle
                   case _ => Wake(s.pc[a.t])
  {
  }

  lemma StepPushes(s: Mon, a: Action, t: nat)
    requires Enabled(s, a) && t < |s.pc|
    ensures |Do(s, a).pc| == |s.pc|
    ensures Carried(s.pc[t]) + GivenIn(a, t) == PushedBy(Recorded(s, a), t) + Carried(Do(s, a).pc[t])
  {
    RecordedIs(s, a);
    if t != a.t {
      OthersKeepCall(s, a, t);
    } else if a.Proceed? {
      NextMoves(s, t);
      NextPushes(s, t);
    } else {
      OwnMove(s, a);
      WakeKeepsCall(s.pc[t]);
    }
  }

  /** Begin, wake-up and return. */
  lemma OwnPops(s: Mon, a: Action)
    requires Enabled(s, a) && !a.Proceed?
    ensures var p, p' := s.pc[a.t], Do(s, a).pc[a.t];
      && InHand(p) == ReturnedIn(s, a, a.t) && InHand(p') == []
      && (Popping(p) || a.CallPop? <==> Popping(p') || (a.Signal? && p.PopSignal?))
      && (Popping(p) ==> !a.CallPop?) && (Popping(p') ==> !a.Signal?)
  {
    OwnMove(s, a);
  }

  lemma StepPops(s: Mon, a: Action, t: nat)
    requires Enabled(s, a) && t < |s.pc|
    ensures |Do(s, a).pc| == |s.pc|
    ensures InHand(s.pc[t]) + PoppedBy(Recorded(s, a), t) == ReturnedIn(s, a, t) + InHand(Do(s, a).pc[t])
  {
    RecordedIs(s, a);
    if t != a.t {
      OthersKeepCall(s, a, t);
    } else if a.Proceed? {
      NextMoves(s, t);
      NextPops(s, t);
    } else {
      OwnMove(s, a);
      OwnPops(s, a);
    }
  }

  lemma StepPopCount(s: Mon, a: Action, t: nat)
    requires Enabled(s, a) && t < |s.pc|
    ensures |Do(s, a).pc| == |s.pc|
    ensures (if Popping(s.pc[t]) then 1 else 0) + (if a.CallPop? && a.t == t then 1 else 0)
         == |ReturnedIn(s, a, t)| + if Popping(Do(s, a).pc[t]) then 1 else 0
  {
    if t != a.t {
      OthersKeepCall(s, a, t);
    } else if a.Proceed? {
      NextMoves(s, t);
      NextPopping(s, t);
    } else {
      OwnMove(s, a);
      OwnPops(s, a);
    }
  }

  // Whole runs.

  lemma {:induction false} PushedByConcat(e: seq<Event>, f: seq<Event>, t: nat)
    ensures PushedBy(e + f, t) == PushedBy(e, t) + PushedBy(f, t)
  {
    if e == [] {
      assert e + f == f;
    } else {
      assert (e + f)[1..] == e[1..] + f;
      PushedByConcat(e[1..], f, t);
    }
  }

  lemma {:induction false} PoppedByConcat(e: seq<Event>, f: seq<Event>, t: nat)
    ensures PoppedBy(e + f, t) == PoppedBy(e, t) + PoppedBy(f, t)
  {
    if e == [] {
      assert e + f == f;
    } else {
      assert (e + f)[1..] == e[1..] + f;
      PoppedByConcat(e[1..], f, t);
    }
  }

  lemma {:induction false} PushValuesConcat(e: seq<Event>, f: seq<Event>)
    ensures PushValues(e + f) == PushValues(e) + PushValues(f)
  {
    if e == [] {
      assert e + f == f;
    } else {
      assert (e + f)[1..] == e[1..] + f;
      PushValuesConcat(e[1..], f);
      Regroup(PushValue(e[0]), PushValues(e[1..]), PushValues(f));
    }
  }

  lemma {:induction false} PopValuesConcat(e: seq<Event>, f: seq<Event>)
    ensures PopValues(e + f) == PopValues(e) + PopValues(f)
  {
    if e == [] {
      assert e + f == f;
    } else {
      assert (e + f)[1..] == e[1..] + f;
      PopValuesConcat(e[1..], f);
      Regroup(PopValue(e[0]), PopValues(e[1..]), PopValues(f));
    }
  }

  lemma {:induction false} RunRecords(s: Mon, acts: seq<Action>)
    requires Runs(s, acts)
    ensures After(s, acts).pushed == s.pushed + PushValues(Events(s, acts))
    ensures After(s, acts).popped == s.popped + PopValues(Events(s, acts))
    decreases |acts|
  {
    if acts != [] {
      var s1, e := Do(s, acts[0]), Recorded(s, acts[0]);
      var f := Events(s1, acts[1..]);
      RunRecords(s1, acts[1..]);
      StepRecords(s, acts[0]);
      PushValuesConcat(e, f);
      PopValuesConcat(e, f);
      Regroup(s.pushed, PushValues(e), PushValues(f));
      Regroup(s.popped, PopValues(e), PopValues(f));
    }
  }

  lemma {:induction false} RunPushes(s: Mon, acts: seq<Action>, t: nat)
    requires Runs(s, acts) && t < |s.pc|
    ensures |After(s, acts).pc| == |s.pc|
    ensures Carried(s.pc[t]) + Given(acts, t) == PushedBy(Events(s, acts), t) + Carried(After(s, acts).pc[t])
    decreases |acts|
  {
    if acts != [] {
      var a, s1 := acts[0], Do(s, acts[0]);
      StepPushes(s, a, t);
      RunPushes(s1, acts[1..], t);
      PushedByConcat(Recorded(s, a), Events(s1, acts[1..]), t);
      Exchange(Carried(s.pc[t]), GivenIn(a, t), Given(acts[1..], t),
               PushedBy(Recorded(s, a), t), Carried(s1.pc[t]),
               PushedBy(Events(s1, acts[1..]), t), Carried(After(s, acts).pc[t]));
    }
  }

  /** a + b and c + d are one step's balance, d + e and f + g the rest of the run's. */
  lemma Exchange(a: seq<Elem>, b: seq<Elem>, e: seq<Elem>, c: seq<Elem>, d: seq<Elem>, f: seq<Elem>, g: seq<Elem>)
    requires a + b == c + d && d + e == f + g
    ensures a + (b + e) == (c + f) + g
  {
    Regroup(a, b, e);
    Regroup(c, d, e);
    Regroup(c, f, g);
  }

  lemma {:induction false} RunPops(s: Mon, acts: seq<Action>, t: nat)
    requires Runs(s, acts) && t < |s.pc|
    ensures |After(s, acts).pc| == |s.pc|
    ensures InHand(s.pc[t]) + PoppedBy(Events(s, acts), t) == Returned(s, acts, t) + InHand(After(s, acts).pc[t])
    decreases |acts|
  {
    if acts != [] {
      var a, s1 := acts[0], Do(s, acts[0]);
      StepPops(s, a, t);
      RunPops(s1, acts[1..], t);
      PoppedByConcat(Recorded(s, a), Events(s1, acts[1..]), t);
      Exchange(InHand(s.pc[t]), PoppedBy(Recorded(s, a), t), PoppedBy(Events(s1, acts[1..]), t),
               ReturnedIn(s, a, t), InHand(s1.pc[t]),
               Returned(s1, acts[1..], t), InHand(After(s, acts).pc[t]));
    }
  }

  lemma {:induction false} RunPopCount(s: Mon, acts: seq<Action>, t: nat)
    requires Runs(s, acts) && t < |s.pc|
    ensures |After(s, acts).pc| == |s.pc|
    ensures (if Popping(s.pc[t]) then 1 else 0) + PopCalls(acts, t)
         == |Returned(s, acts, t)| + if Popping(After(s, acts).pc[t]) then 1 else 0
    decreases |acts|
  {
    if acts != [] {
      StepPopCount(s, acts[0], t);
      RunPopCount(Do(s, acts[0]), acts[1..], t);
    }
  }

  /** In every interleaving, for every thread: the arguments of its pushes are, in order, the elements
      recorded for it and the one its unfinished push carries; the elements recorded for its pops are,
      in order, its results and the one its unfinished pop is about to hand back; and every call of
      queue_pop has one result or is unfinished. */
  lemma CallsAreRecorded(s: Mon, acts: seq<Action>, s': Mon, e: seq<Event>, t: nat)
    requires Start(s) && Runs(s, acts) && s' == After(s, acts) && e == Events(s, acts) && t < |s.pc|
    ensures |s'.pc| == |s.pc|
    ensures Given(acts, t) == PushedBy(e, t) + Carried(s'.pc[t])
    ensures PoppedBy(e, t) == Returned(s, acts, t) + InHand(s'.pc[t])
    ensures PopCalls(acts, t) == |Returned(s, acts, t)| + if Popping(s'.pc[t]) then 1 else 0
  {
    RunPushes(s, acts, t);
    RunPops(s, acts, t);
    RunPopCount(s, acts, t);
  }

  /** And the recorded elements go through the queue first in, first out: popped ones are always a prefix
      of pushed ones, and whenever nobody is inside the rest is in the ring. */
  lemma RecordedFifo(s: Mon, acts: seq<Action>, s': Mon, e: seq<Event>)
    requires Start(s) && Runs(s, acts) && s' == After(s, acts) && e == Events(s, acts)
    ensures PopValues(e) <= PushValues(e)
    ensures s'.lock.Free? ==> RingOk(s'.ring) && PushValues(e) == PopValues(e) + Contents(s'.ring)
  {
    RunRecords(s, acts);
    assert [] + PushValues(e) == PushValues(e) && [] + PopValues(e) == PopValues(e);
    ConcurrentFifo(s, acts, s');
  }

  /** Once every call has returned: one order of all pushes and pops explains every thread's arguments
      and results, and in it the queue is first in, first out. */
  lemma CallsFifo(s: Mon, acts: seq<Action>, s': Mon) returns (e: seq<Event>)
    requires Start(s) && Runs(s, acts) && s' == After(s, acts)
    requires forall t :: 0 <= t < |s'.pc| ==> s'.pc[t].Idle?
    ensures forall t :: 0 <= t < |s.pc| ==>
      Given(acts, t) == PushedBy(e, t) && Returned(s, acts, t) == PoppedBy(e, t)
    ensures RingOk(s'.ring) && PushValues(e) == PopValues(e) + Contents(s'.ring)
  {
    e := Events(s, acts);
    forall t | 0 <= t < |s.pc|
      ensures |s'.pc| == |s.pc| && Given(acts, t) == PushedBy(e, t) && Returned(s, acts, t) == PoppedBy(e, t)
    {
      CallsAreRecorded(s, acts, s', e, t);
    }
    IdleIsFree(s, acts, s');
    RecordedFifo(s, acts, s', e);
  }

  lemma IdleIsFree(s: Mon, acts: seq<Action>, s': Mon)
    requires Start(s) && Runs(s, acts) && s' == After(s, acts)
    requires forall t :: 0 <= t < |s'.pc| ==> s'.pc[t].Idle?
    ensures s'.lock.Free?
  {
    StartInv(s);
    RunsKeepInv(s, acts);
  }
}
