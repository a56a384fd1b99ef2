/** The one way in which a GET answered 200 can send a file nobody has written: a PUT that creates it
    and then fails to reopen it, for instance for want of a file descriptor. */
module ServerOrphans {
  import opened ServerModel
  import opened ServerLocks
  import opened ServerProgress
  import opened ServerFiles
  import opened ServerAudit
  import opened ServerRuns
  import opened ServerTransfers

  /** The section of a PUT that creates u and cannot reopen it. */
  lemma CreateAndFail(s: Server, t: nat, u: Uri, id: int) returns (acts: seq<Action>, s': Server)
    requires Inside(s, t, PutSetId(u, id)) && u !in s.fs
    ensures Leads(s, acts, s') && Inside(s', t, Reset(PutFailed(u, id, InternalError)))
    ensures s'.fs == s.fs[u := Regular([], true, true)]
    ensures s'.ex == s.ex && s'.sh == s.sh && s'.log == s.log
  {
    var make, s1 := CreateNew(s, t, u, id);
    ReopenFails(s1, t, u, id);
    Then(s, make, s1, Go(t, Fail));
    acts, s' := make + [Go(t, Fail)], Do(s1, Go(t, Fail));
  }

  lemma ReopenFails(s: Server, t: nat, u: Uri, id: int)
    requires Inside(s, t, PutReopen(u, id, true))
    ensures Enabled(s, Go(t, Fail))
    ensures Do(s, Go(t, Fail))
         == Goto(s.(orphans := s.orphans + {u}), t, Reset(PutFailed(u, id, InternalError)))
  {
  }

  lemma LogPut(s: Server, t: nat, u: Uri, id: int) returns (acts: seq<Action>, s': Server)
    requires Alone(s, t, PutLog(u, id, InternalError, [], false))
    ensures Leads(s, acts, s') && Alone(s', t, Idle)
    ensures s'.fs == s.fs && s'.ex == s.ex && s'.sh == s.sh
    ensures s'.log == s.log + [PutLine(u, id, InternalError, false, [], Data(s.fs, u))]
  {
    var go := Go(t, Plain);
    LogFailedPut(s, t, u, id);
    CloseUnlocked(Do(s, go), t, u);
    acts := Two(s, go, go);
    s' := Do(Do(s, go), go);
  }

  lemma LogFailedPut(s: Server, t: nat, u: Uri, id: int)
    requires Alone(s, t, PutLog(u, id, InternalError, [], false))
    ensures Enabled(s, Go(t, Plain))
    ensures Do(s, Go(t, Plain)) == Goto(
      s.(log := s.log + [PutLine(u, id, InternalError, false, [], Data(s.fs, u))]), t, PutClose(u, false))
  {
  }

  lemma CloseUnlocked(s: Server, t: nat, u: Uri)
    requires Alone(s, t, PutClose(u, false))
    ensures Enabled(s, Go(t, Plain)) && Do(s, Go(t, Plain)) == Goto(s, t, Idle)
  {
  }

  lemma LeaveAndLog(s: Server, t: nat, u: Uri, id: int) returns (acts: seq<Action>, s': Server)
    requires Inside(s, t, Reset(PutFailed(u, id, InternalError)))
    ensures Leads(s, acts, s') && Alone(s', t, Idle)
    ensures s'.fs == s.fs && s'.ex == s.ex && s'.sh == s.sh
    ensures s'.log == s.log + [PutLine(u, id, InternalError, false, [], Data(s.fs, u))]
  {
    var leave, s1 := Leave(s, t, PutFailed(u, id, InternalError));
    var log;
    log, s' := LogPut(s1, t, u, id);
    acts := leave + log;
    Chain(s, leave, s1, log, s');
  }

  /** A PUT of u creates the file, fails to reopen it, and answers with an error. */
  lemma FailedPut(s: Server, t: nat, u: Uri, id: int) returns (acts: seq<Action>, s': Server)
    requires Alone(s, t, Idle) && u !in s.fs
    ensures Leads(s, acts, s') && Alone(s', t, Idle)
    ensures s'.fs == s.fs[u := Regular([], true, true)] && s'.ex == s.ex && s'.sh == s.sh
    ensures s'.log == s.log + [PutLine(u, id, InternalError, false, [], [])]
  {
    var come, s1 := ComeToSetId(s, t, u, id);
    var make, s2 := CreateAndFail(s1, t, u, id);
    Chain(s, come, s1, make, s2);
    var log;
    log, s' := LeaveAndLog(s2, t, u, id);
    acts := come + make + log;
    Chain(s, come + make, s2, log, s');
  }

  /** A GET of an existing empty file, alone, is answered 200. */
  lemma GetEmpty(s: Server, t: nat, u: Uri, id: int) returns (acts: seq<Action>, s': Server, k: nat)
    requires Alone(s, t, Idle) && u in s.fs && s.fs[u] == Regular([], true, true) && u !in s.ex
    ensures NoFail(acts)
    ensures Leads(s, acts, s') && s'.log == s.log + [GetLine(u, id, Ok, k, [], true)]
  {
    acts, s', k := GetWhole(s, t, u, id, []);
  }

  // Files that were not there at the start are the server's own.

  /** They are regular files their creator can read and write, and every orphan is one of them. */
  ghost predicate OwnFiles(fs: map<Uri, Node>, orphans: set<Uri>, fs0: map<Uri, Node>) {
    && (forall u :: u in fs && u !in fs0 ==> fs[u].Regular? && fs[u].readable && fs[u].writable)
    && (forall u :: u in orphans ==> u in fs && u !in fs0)
  }

  /** The file a PUT has created is the server's own. */
  ghost predicate CreatedOk(fs: map<Uri, Node>, fs0: map<Uri, Node>, p: Pc) {
    (p.PutReopen? || p.PutFlock?) && p.created ==> p.u in fs && p.u !in fs0
  }

  ghost predicate OwnInv(s: Server, fs0: map<Uri, Node>) {
    && OwnFiles(s.fs, s.orphans, fs0)
    && forall t :: 0 <= t < |s.pc| ==> CreatedOk(s.fs, fs0, s.pc[t])
  }

  lemma EffectOwn(s: Server, fs0: map<Uri, Node>, t: nat, p: Pc, c: Choice)
    requires CreatedOk(s.fs, fs0, p) && FileOk(s.fs, s.log, s.orphans, fs0, p) && FilesKept(s.fs, fs0)
    ensures var e := EffectOf(s, p, c);
      && CreatedOk(Apply(s, t, e.ch).fs, fs0, e.p)
      && (e.ch.Create? ==> e.ch.u !in fs0)
      && (e.ch.Orphan? ==> e.ch.u in s.fs && e.ch.u !in fs0)
  {
    if InPut(p) { PutOwn(s, fs0, t, p, c); }
  }

  lemma PutOwn(s: Server, fs0: map<Uri, Node>, t: nat, p: Pc, c: Choice)
    requires InPut(p)
    requires CreatedOk(s.fs, fs0, p) && FileOk(s.fs, s.log, s.orphans, fs0, p) && FilesKept(s.fs, fs0)
    ensures var e := PutEffect(s, p, c);
      && CreatedOk(Apply(s, t, e.ch).fs, fs0, e.p)
      && (e.ch.Create? ==> e.ch.u !in fs0)
      && (e.ch.Orphan? ==> e.ch.u in s.fs && e.ch.u !in fs0)
  {
  }

  lemma ApplyOwn(s: Server, fs0: map<Uri, Node>, t: nat, ch: Change)
    requires OwnFiles(s.fs, s.orphans, fs0)
    requires ch.Create? ==> ch.u !in fs0
    requires ch.Orphan? ==> ch.u in s.fs && ch.u !in fs0
    ensures OwnFiles(Apply(s, t, ch).fs, Apply(s, t, ch).orphans, fs0)
    ensures forall u :: u in s.fs ==> u in Apply(s, t, ch).fs
  {
  }

  lemma MoveOwn(s: Server, s': Server, fs0: map<Uri, Node>, t: nat, p: Pc)
    requires OwnInv(s, fs0) && t < |s.pc| && s'.pc == s.pc[t := p]
    requires OwnFiles(s'.fs, s'.orphans, fs0) && CreatedOk(s'.fs, fs0, p)
    requires forall u :: u in s.fs ==> u in s'.fs
    ensures OwnInv(s', fs0)
  {
  }

  lemma GoOwn(s: Server, fs0: map<Uri, Node>, t: nat, c: Choice)
    requires FileInv(s, fs0) && OwnInv(s, fs0) && t < |s.pc| && CanGo(s, s.pc[t], c)
    ensures OwnInv(Do(s, Go(t, c)), fs0)
  {
    EffectOwn(s, fs0, t, s.pc[t], c);
    StepOwn(s, fs0, t, EffectOf(s, s.pc[t], c));
  }

  lemma StepOwn(s: Server, fs0: map<Uri, Node>, t: nat, e: Effect)
    requires OwnInv(s, fs0) && t < |s.pc| && CreatedOk(Apply(s, t, e.ch).fs, fs0, e.p)
    requires e.ch.Create? ==> e.ch.u !in fs0
    requires e.ch.Orphan? ==> e.ch.u in s.fs && e.ch.u !in fs0
    ensures OwnInv(Goto(Apply(s, t, e.ch), t, e.p), fs0)
  {
    ApplyOwn(s, fs0, t, e.ch);
    MoveOwn(s, Goto(Apply(s, t, e.ch), t, e.p), fs0, t, e.p);
  }

  lemma DoOwn(s: Server, fs0: map<Uri, Node>, a: Action)
    requires LockInv(s) && FileInv(s, fs0) && OwnInv(s, fs0) && Enabled(s, a)
    ensures OwnInv(Do(s, a), fs0)
  {
    if a.Go? {
      GoOwn(s, fs0, a.t, a.c);
    } else {
      var p := LocalStep(s, a);
      MoveOwn(s, Do(s, a), fs0, a.t, p);
    }
  }

  /** What holds in every reachable state. */
  ghost predicate Sound(s: Server, fs0: map<Uri, Node>) {
    Steady(s, fs0) && OwnInv(s, fs0)
  }

  lemma DoSound(s: Server, fs0: map<Uri, Node>, a: Action)
    requires Sound(s, fs0) && Enabled(s, a)
    ensures Sound(Do(s, a), fs0)
  {
    DoSteady(s, fs0, a);
    DoOwn(s, fs0, a);
  }

  lemma {:induction false} RunsSound(s: Server, fs0: map<Uri, Node>, acts: seq<Action>)
    requires Sound(s, fs0) && Runs(s, acts)
    ensures Sound(After(s, acts), fs0)
    decreases |acts|
  {
    if acts != [] {
      DoSound(s, fs0, acts[0]);
      RunsSound(Do(s, acts[0]), fs0, acts[1..]);
    }
  }

  lemma ReachableSound(s: Server, fs0: map<Uri, Node>, acts: seq<Action>)
    requires Start(s, fs0) && Runs(s, acts)
    ensures Sound(After(s, acts), fs0)
  {
    StartLocks(s, fs0);
    StartFiles(s, fs0);
    RunsSound(s, fs0, acts);
  }

  lemma PutNoOrphan(s: Server, fs0: map<Uri, Node>, p: Pc, c: Choice)
    requires InPut(p) && OwnFiles(s.fs, s.orphans, fs0) && CreatedOk(s.fs, fs0, p) && !c.Fail?
    ensures !PutEffect(s, p, c).ch.Orphan?
  {
  }

  lemma EffectNoOrphan(s: Server, fs0: map<Uri, Node>, p: Pc, c: Choice)
    requires OwnFiles(s.fs, s.orphans, fs0) && CreatedOk(s.fs, fs0, p) && !c.Fail?
    ensures !EffectOf(s, p, c).ch.Orphan?
  {
    if InPut(p) { PutNoOrphan(s, fs0, p, c); }
  }

  /** Orphans are made only by an open that fails. */
  lemma NoFailNoOrphan(s: Server, fs0: map<Uri, Node>, a: Action)
    requires OwnInv(s, fs0) && Enabled(s, a) && (a.Go? ==> !a.c.Fail?)
    ensures Do(s, a).orphans == s.orphans
  {
    if a.Go? {
      EffectNoOrphan(s, fs0, s.pc[a.t], a.c);
      AppliedLog(s, a.t, EffectOf(s, s.pc[a.t], a.c));
    } else {
      OnlyMoves(s, a);
    }
  }

  lemma AppliedLog(s: Server, t: nat, e: Effect)
    requires t < |s.pc|
    ensures var s' := Goto(Apply(s, t, e.ch), t, e.p);
      && s'.log == s.log + (if e.ch.Append? then [e.ch.line] else [])
      && s'.orphans == s.orphans + (if e.ch.Orphan? then {e.ch.u} else {})
  {
  }

  lemma {:induction false} NoFailKeepsOrphans(s: Server, fs0: map<Uri, Node>, acts: seq<Action>)
    requires Sound(s, fs0) && Runs(s, acts) && NoFail(acts)
    ensures After(s, acts).orphans == s.orphans
    decreases |acts|
  {
    if acts != [] {
      assert acts[0] in acts && forall a :: a in acts[1..] ==> a in acts;
      NoFailNoOrphan(s, fs0, acts[0]);
      DoSound(s, fs0, acts[0]);
      NoFailKeepsOrphans(Do(s, acts[0]), fs0, acts[1..]);
    }
  }

  // When line i was written.

  /** The log grows by at most one line a step, and only when a thread logs. */
  lemma StepLogs(s: Server, a: Action)
    requires Enabled(s, a)
    ensures Do(s, a).log == s.log ||
      (a.Go? && EffectOf(s, s.pc[a.t], a.c).ch.Append?
        && Do(s, a).log == s.log + [EffectOf(s, s.pc[a.t], a.c).ch.line])
  {
    if a.Go? {
      AppliedLog(s, a.t, EffectOf(s, s.pc[a.t], a.c));
    } else {
      OnlyMoves(s, a);
    }
  }

  lemma {:induction false} LogGrows(s: Server, acts: seq<Action>)
    requires Runs(s, acts)
    ensures s.log <= After(s, acts).log
    decreases |acts|
  {
    if acts != [] {
      StepLogs(s, acts[0]);
      LogGrows(Do(s, acts[0]), acts[1..]);
    }
  }

  /** A line that is a GET answered 200 had, in the very state in which it was written, an origin for
      the file it sent. */
  lemma LineHadOrigin(s: Server, fs0: map<Uri, Node>, a: Action)
    requires Sound(s, fs0) && Enabled(s, a) && |Do(s, a).log| == |s.log| + 1
    requires var l := Do(s, a).log[|s.log|]; l.GetLine? && l.st.Ok?
    ensures Origin(s.log, s.orphans, fs0, Do(s, a).log[|s.log|].u)
  {
    StepLogs(s, a);
    EffectFileMove(s, fs0, s.pc[a.t], a.c);
  }

  /** The state n steps into a run, just before line i of its log was written. */
  ghost predicate WrittenAt(s: Server, acts: seq<Action>, i: nat, n: nat) {
    && n < |acts| && Runs(s, acts) && Runs(s, acts[..n]) && Enabled(After(s, acts[..n]), acts[n])
    && |After(s, acts[..n]).log| == i
    && |Do(After(s, acts[..n]), acts[n]).log| == i + 1
    && Do(After(s, acts[..n]), acts[n]).log <= After(s, acts).log
  }

  lemma {:induction false} FindWriting(s: Server, acts: seq<Action>, i: nat) returns (n: nat)
    requires Runs(s, acts) && |s.log| <= i < |After(s, acts).log|
    ensures WrittenAt(s, acts, i, n)
    decreases |acts|
  {
    StepLogs(s, acts[0]);
    var s1 := Do(s, acts[0]);
    if |s1.log| > i {
      n := 0;
      LogGrows(s1, acts[1..]);
      assert acts[..0] == [];
    } else {
      var m := FindWriting(s1, acts[1..], i);
      n := m + 1;
      assert acts[..n][0] == acts[0] && acts[..n][1..] == acts[1..][..m];
    }
  }

  /** Some state of the run that had at most i log lines already had u among its orphans. */
  ghost predicate OrphanedBefore(s: Server, acts: seq<Action>, u: Uri, i: nat) {
    exists n :: 0 <= n <= |acts| && Runs(s, acts[..n])
      && |After(s, acts[..n]).log| <= i && u in After(s, acts[..n]).orphans
  }

  /** A file that was not there initially and that no earlier PUT line wrote under its lock is served
      only if, before, a PUT had created it and then failed to reopen it. */
  lemma UnwrittenServedOnlyIfOrphaned(s: Server, fs0: map<Uri, Node>, acts: seq<Action>, s': Server, i: nat)
    requires Start(s, fs0) && Runs(s, acts) && s' == After(s, acts) && i < |s'.log|
    requires s'.log[i].GetLine? && s'.log[i].st.Ok?
    ensures s'.log[i].u in fs0 || Rewritten(s'.log[..i], s'.log[i].u) || OrphanedBefore(s, acts, s'.log[i].u, i)
  {
    var n := FindWriting(s, acts, i);
    var before := After(s, acts[..n]);
    ReachableSound(s, fs0, acts[..n]);
    LineHadOrigin(before, fs0, acts[n]);
    StepLogs(before, acts[n]);
    assert s'.log[..i] == before.log;
  }

  // The other half: every orphan can be served.

  /** Between requests, the unwritten files that exist are the orphans; they are empty and free. */
  lemma UnwrittenAreOrphans(s: Server, fs0: map<Uri, Node>, u: Uri)
    requires Sound(s, fs0) && AllIdle(s) && u !in fs0 && !Rewritten(s.log, u)
    ensures u in s.fs <==> u in s.orphans
    ensures u in s.orphans ==> s.fs[u] == Regular([], true, true) && u !in s.ex
    ensures Alone(s, 0, Idle)
  {
    assert s.lock.Free?;
    HoldersBusy(s);
    NeverRewritten(s.log, u, fs0);
  }

  /** A continuation in which no open fails and a GET of u is answered 200 while u is unwritten. */
  ghost predicate ServesUnwritten(s: Server, u: Uri, more: seq<Action>) {
    Runs(s, more) && NoFail(more) &&
    var log := After(s, more).log;
    exists i :: |s.log| <= i < |log|
      && log[i].GetLine? && log[i].u == u && log[i].st.Ok? && !Rewritten(log[..i], u)
  }

  lemma ServeOrphan(s: Server, fs0: map<Uri, Node>, u: Uri) returns (more: seq<Action>, s': Server, k: nat)
    requires Sound(s, fs0) && AllIdle(s) && u !in fs0 && !Rewritten(s.log, u) && u in s.orphans
    ensures Leads(s, more, s') && s'.log == s.log + [GetLine(u, 0, Ok, k, [], true)]
    ensures ServesUnwritten(s, u, more)
  {
    UnwrittenAreOrphans(s, fs0, u);
    more, s', k := GetEmpty(s, 0, u, 0);
    assert s'.log[..|s.log|] == s.log;
    assert s'.log[|s.log|].GetLine?;
  }

  lemma ServedIsOrphan(s: Server, fs0: map<Uri, Node>, u: Uri, more: seq<Action>)
    requires Sound(s, fs0) && u !in fs0 && ServesUnwritten(s, u, more)
    ensures u in s.orphans
  {
    var log := After(s, more).log;
    var i :| |s.log| <= i < |log|
      && log[i].GetLine? && log[i].u == u && log[i].st.Ok? && !Rewritten(log[..i], u);
    RunsSound(s, fs0, more);
    NoFailKeepsOrphans(s, fs0, more);
    assert LineOk(log[..i], log[i], After(s, more).orphans, fs0);
  }

  /** Exactly when a created but unwritten file can be served. In every reachable state with no
      request in flight, for a file that was not there initially and that no PUT line has written: it
      exists if and only if it is an orphan, and there is a continuation without a failing open in
      which a GET of it is answered 200 while it is unwritten if and only if it is an orphan. */
  lemma UnwrittenServedExactly(s: Server, fs0: map<Uri, Node>, acts: seq<Action>, s': Server, u: Uri)
    requires Start(s, fs0) && Runs(s, acts) && s' == After(s, acts)
    requires AllIdle(s') && u !in fs0 && !Rewritten(s'.log, u)
    ensures u in s'.fs <==> u in s'.orphans
    ensures u in s'.orphans <==> exists more :: ServesUnwritten(s', u, more)
  {
    ReachableSound(s, fs0, acts);
    UnwrittenAreOrphans(s', fs0, u);
    if u in s'.orphans {
      var more, s2, k := ServeOrphan(s', fs0, u);
    }
    if more :| ServesUnwritten(s', u, more) {
      ServedIsOrphan(s', fs0, u, more);
    }
  }

  /** Orphans do come about: from every start, for every missing file u, a single PUT can make one, and
      a GET is then answered 200 though no PUT on u ever had its lock. */
  lemma OrphanIsServed(s: Server, fs0: map<Uri, Node>, u: Uri) returns (acts: seq<Action>, s': Server)
    requires Start(s, fs0) && 0 < |s.pc| && u !in fs0
    ensures Runs(s, acts) && s' == After(s, acts)
    ensures |s'.log| == 2 && s'.log[1].GetLine? && s'.log[1].u == u && s'.log[1].st.Ok? && s'.log[1].complete
    ensures !Rewritten(s'.log, u)
  {
    var put, s1 := FailedPut(s, 0, u, 0);
    var get, s2, k := GetEmpty(s1, 0, u, 0);
    Chain(s, put, s1, get, s2);
    acts, s' := put + get, s2;
  }
}
