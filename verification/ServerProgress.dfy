/** Over whole runs: mutual exclusion, no sleeper on creation_waiting, no wait cycle, no deadlock. */
module ServerProgress {
  import opened ServerModel
  import opened ServerLocks

  lemma {:induction false} RunsKeepLocks(s: Server, acts: seq<Action>)
    requires LockInv(s) && FlockInv(s) && Runs(s, acts)
    ensures LockInv(After(s, acts)) && FlockInv(After(s, acts))
    decreases |acts|
  {
    if acts != [] {
      DoKeepsLock(s, acts[0]);
      DoKeepsFlocks(s, acts[0]);
      RunsKeepLocks(Do(s, acts[0]), acts[1..]);
    }
  }

  lemma StartLocks(s: Server, fs0: map<Uri, Node>)
    requires Start(s, fs0)
    ensures LockInv(s) && FlockInv(s)
  {
  }

  lemma CreatingIsClaimed(s: Server)
    requires LockInv(s)
    ensures s.creating <==> exists t :: 0 <= t < |s.pc| && s.lock == Held(t) && Claimed(s.pc[t])
  {
    if s.creating { assert s.lock == Held(s.lock.t); }
  }

  /** In every reachable state: at most one thread is in the section; creating is true only while
      exactly one thread holds creation_lock and has claimed it; nobody waits on creation_waiting;
      and a file locked exclusively by one thread is locked by no other. */
  lemma Exclusion(s: Server, fs0: map<Uri, Node>, acts: seq<Action>, s': Server)
    requires Start(s, fs0) && Runs(s, acts) && s' == After(s, acts)
    ensures forall t, u :: 0 <= t < |s'.pc| && 0 <= u < |s'.pc| && InSection(s'.pc[t]) && InSection(s'.pc[u]) ==> t == u
    ensures s'.creating <==> exists t :: 0 <= t < |s'.pc| && s'.lock == Held(t) && Claimed(s'.pc[t])
    ensures forall t :: 0 <= t < |s'.pc| ==> !s'.pc[t].Asleep?
    ensures forall t, x, u :: 0 <= t < |s'.pc| && 0 <= x < |s'.pc| && t != x && HoldsEx(s'.pc[t], u) ==>
      !HoldsEx(s'.pc[x], u) && !HoldsSh(s'.pc[x], u)
  {
    StartLocks(s, fs0);
    RunsKeepLocks(s, acts);
    CreatingIsClaimed(s');
    forall t, x, u | 0 <= t < |s'.pc| && 0 <= x < |s'.pc| && t != x && HoldsEx(s'.pc[t], u)
      ensures !HoldsEx(s'.pc[x], u) && !HoldsSh(s'.pc[x], u)
    {
      HeldAlone(s', t, x, u);
    }
  }

  /** Thread t cannot step until thread x gives up a lock. */
  ghost predicate WaitsFor(s: Server, t: nat, x: nat) {
    t < |s.pc| && x < |s.pc| &&
    var p := s.pc[t];
    || ((p.Enter? || p.Woken?) && s.lock == Held(x))
    || (p.GetFlock? && p.u in s.ex && s.ex[p.u] == x)
    || (p.PutFlock? && ((p.u in s.ex && s.ex[p.u] == x) || (p.u, x) in s.sh))
  }

  function Rank(p: Pc): nat {
    if p.Enter? || p.Woken? then 2 else if p.GetFlock? || p.PutFlock? then 1 else 0
  }

  /** Waiting leads from creation_lock to a file lock to a thread that waits for nothing: whoever
      holds a file lock does not ask for creation_lock again before closing. */
  lemma WaitingDescends(s: Server, t: nat, x: nat)
    requires LockInv(s) && FlockInv(s) && WaitsFor(s, t, x)
    ensures Rank(s.pc[x]) < Rank(s.pc[t])
  {
    var p := s.pc[t];
    if !p.Enter? && !p.Woken? {
      if p.u in s.ex && s.ex[p.u] == x {
        assert HoldsEx(s.pc[x], p.u);
      } else {
        assert HoldsSh(s.pc[x], p.u);
      }
    }
  }

  ghost predicate WaitChain(s: Server, chain: seq<nat>) {
    forall i :: 0 <= i < |chain| - 1 ==> WaitsFor(s, chain[i], chain[i + 1])
  }

  lemma {:induction false} ChainDescends(s: Server, chain: seq<nat>)
    requires LockInv(s) && FlockInv(s) && |chain| > 1 && WaitChain(s, chain)
    ensures chain[0] < |s.pc| && chain[|chain| - 1] < |s.pc|
    ensures Rank(s.pc[chain[|chain| - 1]]) + |chain| - 1 <= Rank(s.pc[chain[0]])
  {
    assert WaitsFor(s, chain[0], chain[1]);
    WaitingDescends(s, chain[0], chain[1]);
    if |chain| > 2 {
      var rest := chain[1..];
      forall i | 0 <= i < |rest| - 1 ensures WaitsFor(s, rest[i], rest[i + 1]) {
        assert WaitsFor(s, chain[i + 1], chain[i + 1 + 1]);
      }
      ChainDescends(s, rest);
    }
  }

  /** The threads of a reachable state never wait for each other in a circle; no chain of waiting
      threads is longer than three. */
  lemma NoWaitCycle(s: Server, fs0: map<Uri, Node>, acts: seq<Action>, s': Server, chain: seq<nat>)
    requires Start(s, fs0) && Runs(s, acts) && s' == After(s, acts)
    requires |chain| > 1 && WaitChain(s', chain)
    ensures chain[0] != chain[|chain| - 1] && |chain| <= 3
  {
    StartLocks(s, fs0);
    RunsKeepLocks(s, acts);
    ChainDescends(s', chain);
  }

  /** Thread t has a step of its own to take, given that its client's I/O goes on. */
  ghost predicate CanStep(s: Server, t: nat) {
    exists a: Action :: a.t == t && (a.Go? || a.Signal?) && Enabled(s, a)
  }

  lemma NotWaiting(s: Server, t: nat)
    requires LockInv(s) && t < |s.pc| && !s.pc[t].Idle? && Rank(s.pc[t]) == 0
    ensures CanStep(s, t)
  {
    var p := s.pc[t];
    if p.Notify? {
      assert Enabled(s, Signal(t, {}));
    } else if p.GetSend? || p.PutRecv? {
      assert Enabled(s, Go(t, End(Ok)));
    } else {
      assert Enabled(s, Go(t, Plain));
    }
  }

  /** A thread that holds a file lock waits for nothing, creation_lock least of all: it can step, all
      the way to the close that gives the lock up. */
  lemma FileHolderRuns(s: Server, t: nat, u: Uri)
    requires LockInv(s) && t < |s.pc| && (HoldsEx(s.pc[t], u) || HoldsSh(s.pc[t], u))
    ensures CanStep(s, t) && forall x :: !WaitsFor(s, t, x)
  {
    NotWaiting(s, t);
  }

  /** Whoever is in a request can step or waits for someone who can, directly or at one remove. */
  lemma SomeoneCanStep(s: Server, t: nat)
    requires LockInv(s) && FlockInv(s) && t < |s.pc| && !s.pc[t].Idle?
    ensures exists x :: CanStep(s, x)
    decreases Rank(s.pc[t])
  {
    var p := s.pc[t];
    if p.Enter? || p.Woken? {
      if s.lock.Free? {
        assert Enabled(s, Go(t, Plain));
        assert CanStep(s, t);
      } else {
        SomeoneCanStep(s, s.lock.t);
      }
    } else if p.GetFlock? || p.PutFlock? {
      FlockHolder(s, t);
    } else {
      NotWaiting(s, t);
    }
  }

  lemma FlockHolder(s: Server, t: nat)
    requires LockInv(s) && FlockInv(s) && t < |s.pc| && (s.pc[t].GetFlock? || s.pc[t].PutFlock?)
    ensures exists x :: CanStep(s, x)
  {
    var u := s.pc[t].u;
    if u in s.ex {
      assert HoldsEx(s.pc[s.ex[u]], u);
      NotWaiting(s, s.ex[u]);
    } else if s.pc[t].PutFlock? && Shared(s, u) {
      var x :| 0 <= x < |s.pc| && (u, x) in s.sh;
      assert HoldsSh(s.pc[x], u);
      NotWaiting(s, x);
    } else {
      assert Enabled(s, Go(t, Plain));
      assert CanStep(s, t);
    }
  }

  /** While any request is in flight, some thread can step. */
  lemma NoDeadlock(s: Server, fs0: map<Uri, Node>, acts: seq<Action>, s': Server)
    requires Start(s, fs0) && Runs(s, acts) && s' == After(s, acts)
    requires exists t :: 0 <= t < |s'.pc| && !s'.pc[t].Idle?
    ensures exists x :: CanStep(s', x)
  {
    StartLocks(s, fs0);
    RunsKeepLocks(s, acts);
    var t :| 0 <= t < |s'.pc| && !s'.pc[t].Idle?;
    SomeoneCanStep(s', t);
  }
}
