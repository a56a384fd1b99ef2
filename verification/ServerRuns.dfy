/** Building runs of one thread while the others are idle. */
module ServerRuns {
  import opened ServerModel

  ghost predicate Leads(s: Server, acts: seq<Action>, s': Server) {
    Runs(s, acts) && After(s, acts) == s'
  }

  /** No open fails for want of a resource. */
  ghost predicate NoFail(acts: seq<Action>) {
    forall a :: a in acts && a.Go? ==> !a.c.Fail?
  }

  lemma {:induction false} Chain(s: Server, a: seq<Action>, mid: Server, b: seq<Action>, s': Server)
    requires Leads(s, a, mid) && Leads(mid, b, s')
    ensures Leads(s, a + b, s')
    decreases |a|
  {
    if a == [] {
      assert a + b == b;
    } else {
      assert (a + b)[0] == a[0] && (a + b)[1..] == a[1..] + b;
      Chain(Do(s, a[0]), a[1..], mid, b, s');
    }
  }

  lemma One(s: Server, a: Action)
    requires Enabled(s, a)
    ensures Leads(s, [a], Do(s, a))
  {
    assert Runs(Do(s, a), [a][1..]);
  }

  lemma Then(s: Server, acts: seq<Action>, mid: Server, a: Action)
    requires Leads(s, acts, mid) && Enabled(mid, a)
    ensures Leads(s, acts + [a], Do(mid, a))
  {
    One(mid, a);
    Chain(s, acts, mid, [a], Do(mid, a));
  }

  /** The state after three steps. */
  function Third(s: Server, a: Action, b: Action, c: Action): Server
    requires Enabled(s, a) && Enabled(Do(s, a), b) && Enabled(Do(Do(s, a), b), c)
  {
    Do(Do(Do(s, a), b), c)
  }

  lemma Two(s: Server, a: Action, b: Action) returns (acts: seq<Action>)
    requires Enabled(s, a) && Enabled(Do(s, a), b)
    requires (a.Go? ==> !a.c.Fail?) && (b.Go? ==> !b.c.Fail?)
    ensures acts == [a] + [b] && Leads(s, acts, Do(Do(s, a), b)) && NoFail(acts)
  {
    One(s, a);
    acts := [a] + [b];
    Then(s, [a], Do(s, a), b);
  }

  lemma Three(s: Server, a: Action, b: Action, c: Action) returns (acts: seq<Action>)
    requires Enabled(s, a) && Enabled(Do(s, a), b) && Enabled(Do(Do(s, a), b), c)
    requires (a.Go? ==> !a.c.Fail?) && (b.Go? ==> !b.c.Fail?) && (c.Go? ==> !c.c.Fail?)
    ensures Leads(s, acts, Third(s, a, b, c)) && NoFail(acts)
  {
    One(s, a);
    Then(s, [a], Do(s, a), b);
    acts := [a] + [b] + [c];
    Then(s, [a] + [b], Do(Do(s, a), b), c);
  }

  lemma EnterFree(s: Server, t: nat, v: Visit)
    requires t < |s.pc| && s.pc[t] == Enter(v) && s.lock.Free?
    ensures Enabled(s, Go(t, Plain))
    ensures Do(s, Go(t, Plain)) == Goto(s.(lock := Held(t)), t, Test(v))
  {
  }

  lemma TestOpen(s: Server, t: nat, v: Visit)
    requires t < |s.pc| && s.pc[t] == Test(v) && !s.creating
    ensures Enabled(s, Go(t, Plain)) && Do(s, Go(t, Plain)) == Goto(s, t, Claim(v))
  {
  }

  lemma ClaimSection(s: Server, t: nat, v: Visit)
    requires t < |s.pc| && s.pc[t] == Claim(v)
    ensures Enabled(s, Go(t, Plain))
    ensures Do(s, Go(t, Plain)) == Goto(s.(creating := true), t, Section(v))
  {
  }

  /** Thread t alone takes the section. */
  lemma TakeSection(s: Server, t: nat, v: Visit) returns (acts: seq<Action>)
    requires t < |s.pc| && s.pc[t] == Enter(v) && s.lock.Free? && !s.creating
    ensures NoFail(acts)
    ensures Leads(s, acts, Goto(s, t, Section(v)).(lock := Held(t), creating := true))
  {
    var go := Go(t, Plain);
    EnterFree(s, t, v);
    TestOpen(Do(s, go), t, v);
    ClaimSection(Do(Do(s, go), go), t, v);
    acts := Three(s, go, go, go);
    assert Third(s, go, go, go).pc == s.pc[t := Section(v)];
  }

  lemma ResetCreating(s: Server, t: nat, e: Exit)
    requires t < |s.pc| && s.pc[t] == Reset(e)
    ensures Enabled(s, Go(t, Plain))
    ensures Do(s, Go(t, Plain)) == Goto(s.(creating := false), t, Unlock(e))
  {
  }

  lemma Release(s: Server, t: nat, e: Exit)
    requires t < |s.pc| && s.pc[t] == Unlock(e)
    ensures Enabled(s, Go(t, Plain))
    ensures Do(s, Go(t, Plain)) == Goto(s.(lock := Free), t, Notify(e))
  {
  }

  lemma SignalNobody(s: Server, t: nat, e: Exit)
    requires t < |s.pc| && s.pc[t] == Notify(e) && forall x :: 0 <= x < |s.pc| ==> !s.pc[x].Asleep?
    ensures Enabled(s, Signal(t, {})) && Do(s, Signal(t, {})) == Goto(s, t, AfterExit(e))
  {
    assert WakeAll(s.pc[t := AfterExit(e)], {}) == s.pc[t := AfterExit(e)];
  }

  /** Thread t alone leaves it. */
  lemma LeaveSection(s: Server, t: nat, e: Exit) returns (acts: seq<Action>)
    requires t < |s.pc| && s.pc[t] == Reset(e) && forall x :: 0 <= x < |s.pc| ==> !s.pc[x].Asleep?
    ensures NoFail(acts)
    ensures Leads(s, acts, Goto(s, t, AfterExit(e)).(lock := Free, creating := false))
  {
    var go, signal := Go(t, Plain), Signal(t, {});
    ResetCreating(s, t, e);
    Release(Do(s, go), t, e);
    SignalNobody(Do(Do(s, go), go), t, e);
    acts := Three(s, go, go, signal);
    assert Third(s, go, go, signal).pc == s.pc[t := AfterExit(e)];
  }

  /** Nothing going on but thread t, which is in state p, outside the section. */
  ghost predicate Alone(s: Server, t: nat, p: Pc) {
    && t < |s.pc| && s.pc[t] == p && s.lock.Free? && !s.creating
    && forall x :: 0 <= x < |s.pc| && x != t ==> s.pc[x].Idle?
  }

  /** The same with thread t inside. */
  ghost predicate Inside(s: Server, t: nat, p: Pc) {
    && t < |s.pc| && s.pc[t] == p && s.lock == Held(t) && s.creating
    && forall x :: 0 <= x < |s.pc| && x != t ==> s.pc[x].Idle?
  }

  ghost predicate SameFiles(s: Server, s': Server) {
    s'.fs == s.fs && s'.ex == s.ex && s'.sh == s.sh && s'.log == s.log
  }

  lemma Take(s: Server, t: nat, v: Visit) returns (acts: seq<Action>, s': Server)
    requires Alone(s, t, Enter(v))
    ensures NoFail(acts)
    ensures Leads(s, acts, s') && Inside(s', t, Section(v)) && SameFiles(s, s') && s'.reqId == s.reqId
  {
    acts := TakeSection(s, t, v);
    s' := Goto(s, t, Section(v)).(lock := Held(t), creating := true);
  }

  lemma Leave(s: Server, t: nat, e: Exit) returns (acts: seq<Action>, s': Server)
    requires Inside(s, t, Reset(e))
    ensures NoFail(acts)
    ensures Leads(s, acts, s') && Alone(s', t, AfterExit(e)) && SameFiles(s, s') && s'.reqId == s.reqId
  {
    acts := LeaveSection(s, t, e);
    s' := Goto(s, t, AfterExit(e)).(lock := Free, creating := false);
  }

  /** A GET, alone, goes once round its loop and comes to test for the file. */
  lemma ComeToCheck(s: Server, t: nat, u: Uri, id: int) returns (acts: seq<Action>, s': Server)
    requires Alone(s, t, Idle)
    ensures NoFail(acts)
    ensures Leads(s, acts, s') && Inside(s', t, GetCheck(u, id)) && SameFiles(s, s') && s'.reqId == s.reqId
  {
    var begin := BeginGet(t, u, id);
    One(s, begin);
    var s1 := Do(s, begin);
    var take, s2 := Take(s1, t, GetFirst(u, id));
    Chain(s, [begin], s1, take, s2);
    var again, s3 := Leave(s2, t, Retry(u, id));
    Chain(s, [begin] + take, s2, again, s3);
    var back;
    back, s' := Take(s3, t, GetAgain(u, id));
    acts := [begin] + take + again + back;
    Chain(s, [begin] + take + again, s3, back, s');
  }

  /** A PUT, alone, comes into the section. */
  lemma ComeToSetId(s: Server, t: nat, u: Uri, id: int) returns (acts: seq<Action>, s': Server)
    requires Alone(s, t, Idle)
    ensures NoFail(acts)
    ensures Leads(s, acts, s') && Inside(s', t, PutSetId(u, id)) && SameFiles(s, s') && s'.reqId == s.reqId
  {
    var begin := BeginPut(t, u, id);
    One(s, begin);
    var s1 := Do(s, begin);
    var take;
    take, s' := Take(s1, t, PutFirst(u, id));
    acts := [begin] + take;
    Chain(s, [begin], s1, take, s');
  }

  /** A GET that finds its file, or whose id is not ahead, is admitted and sets req_id. */
  lemma AdmitGet(s: Server, t: nat, u: Uri, id: int) returns (acts: seq<Action>, s': Server, k: nat)
    requires Inside(s, t, GetCheck(u, id)) && (u in s.fs || id <= s.reqId)
    ensures NoFail(acts)
    ensures Leads(s, acts, s') && Inside(s', t, GetOpen(u, id, k)) && SameFiles(s, s') && s'.reqId == id
  {
    var go := Go(t, Plain);
    k := |s.admitted|;
    PassCheck(s, t, u, id);
    SetReqId(Do(s, go), t, u, id);
    acts := Two(s, go, go);
    s' := Do(Do(s, go), go);
  }

  lemma PassCheck(s: Server, t: nat, u: Uri, id: int)
    requires Inside(s, t, GetCheck(u, id)) && (u in s.fs || id <= s.reqId)
    ensures Enabled(s, Go(t, Plain)) && Do(s, Go(t, Plain)) == Goto(s, t, GetSetId(u, id))
  {
  }

  lemma SetReqId(s: Server, t: nat, u: Uri, id: int)
    requires Inside(s, t, GetSetId(u, id))
    ensures Enabled(s, Go(t, Plain))
    ensures Do(s, Go(t, Plain))
         == Goto(s.(admitted := s.admitted + [id], reqId := id), t, GetOpen(u, id, |s.admitted|))
  {
  }

  lemma AdmitPut(s: Server, t: nat, u: Uri, id: int)
    requires Inside(s, t, PutSetId(u, id))
    ensures Enabled(s, Go(t, Plain))
    ensures var s' := Do(s, Go(t, Plain));
      && Inside(s', t, PutAccess(u, id)) && SameFiles(s, s')
      && s'.reqId == if s.reqId < id then id else s.reqId
  {
  }

  lemma MissFile(s: Server, t: nat, u: Uri, id: int)
    requires Inside(s, t, PutAccess(u, id)) && u !in s.fs
    ensures Enabled(s, Go(t, Plain)) && Do(s, Go(t, Plain)) == Goto(s, t, PutCreate(u, id))
  {
  }

  lemma CreateFile(s: Server, t: nat, u: Uri, id: int)
    requires Inside(s, t, PutCreate(u, id))
    ensures Enabled(s, Go(t, Plain))
    ensures Do(s, Go(t, Plain)) == Goto(s.(fs := s.fs[u := Regular([], true, true)]), t, PutReopen(u, id, true))
  {
  }

  /** A PUT of a missing file is admitted, which makes req_id at least its id, and creates the file. */
  lemma CreateNew(s: Server, t: nat, u: Uri, id: int) returns (acts: seq<Action>, s': Server)
    requires Inside(s, t, PutSetId(u, id)) && u !in s.fs
    ensures NoFail(acts)
    ensures Leads(s, acts, s') && Inside(s', t, PutReopen(u, id, true))
    ensures s'.fs == s.fs[u := Regular([], true, true)] && s'.ex == s.ex && s'.sh == s.sh && s'.log == s.log
    ensures s'.reqId == if s.reqId < id then id else s.reqId
  {
    var go := Go(t, Plain);
    AdmitPut(s, t, u, id);
    MissFile(Do(s, go), t, u, id);
    CreateFile(Do(Do(s, go), go), t, u, id);
    acts := Three(s, go, go, go);
    s' := Third(s, go, go, go);
  }
}
