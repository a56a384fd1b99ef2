/** The audit log linearizes the server: the file invariant holds in every run. */
module ServerAudit {
  import opened ServerModel
  import opened ServerLocks
  import opened ServerProgress
  import opened ServerFiles

  lemma OneInSection(s: Server, t: nat, x: nat)
    requires LockInv(s) && t < |s.pc| && x < |s.pc| && InSection(s.pc[t]) && InSection(s.pc[x])
    ensures t == x
  {
  }

  lemma OthersOnCreate(s: Server, fs0: map<Uri, Node>, t: nat, x: nat, u: Uri)
    requires LockInv(s) && t < |s.pc| && x < |s.pc| && t != x
    requires s.pc[t].PutCreate? && u !in s.fs && FileOk(s.fs, s.log, s.orphans, fs0, s.pc[x])
    ensures FileOk(s.fs[u := Regular([], true, true)], s.log, s.orphans, fs0, s.pc[x])
  {
    if s.pc[x].PutCreate? { OneInSection(s, t, x); }
    KnowledgeStays(s.fs, s.log, s.orphans, fs0, s.pc[x], s.fs[u := Regular([], true, true)], s.log, s.orphans);
  }

  lemma OthersOnWrite(s: Server, fs0: map<Uri, Node>, t: nat, x: nat, u: Uri, d: Content)
    requires FlockInv(s) && t < |s.pc| && x < |s.pc| && t != x
    requires HoldsEx(s.pc[t], u) && IsRegular(s.fs, u) && FileOk(s.fs, s.log, s.orphans, fs0, s.pc[x])
    ensures FileOk(s.fs[u := s.fs[u].(data := d)], s.log, s.orphans, fs0, s.pc[x])
  {
    HeldAlone(s, t, x, u);
    KnowledgeStays(s.fs, s.log, s.orphans, fs0, s.pc[x], s.fs[u := s.fs[u].(data := d)], s.log, s.orphans);
  }

  lemma OthersOnAppend(s: Server, fs0: map<Uri, Node>, t: nat, x: nat, l: Line)
    requires FlockInv(s) && t < |s.pc| && x < |s.pc| && t != x
    requires FileMove(s, fs0, s.pc[t], Append(l)) && FileOk(s.fs, s.log, s.orphans, fs0, s.pc[x])
    ensures FileOk(s.fs, s.log + [l], s.orphans, fs0, s.pc[x])
  {
    forall u ensures Rewritten(s.log, u) ==> Rewritten(s.log + [l], u) {
      AppendLine(s.log, l, u, fs0);
    }
    forall u | HoldsEx(s.pc[x], u) || HoldsSh(s.pc[x], u)
      ensures LeftBy(s.log + [l], u, fs0) == LeftBy(s.log, u, fs0)
    {
      AppendLine(s.log, l, u, fs0);
      if LockedLine(l, u) { HeldAlone(s, t, x, u); }
    }
    KnowledgeStays(s.fs, s.log, s.orphans, fs0, s.pc[x], s.fs, s.log + [l], s.orphans);
  }

  lemma OthersKnow(s: Server, fs0: map<Uri, Node>, t: nat, x: nat, ch: Change)
    requires LockInv(s) && FlockInv(s) && t < |s.pc| && x < |s.pc| && t != x
    requires FileMove(s, fs0, s.pc[t], ch) && FileOk(s.fs, s.log, s.orphans, fs0, s.pc[x])
    ensures var s' := Apply(s, t, ch); FileOk(s'.fs, s'.log, s'.orphans, fs0, s.pc[x])
  {
    match ch {
      case Create(u) => OthersOnCreate(s, fs0, t, x, u);
      case Write(u, d) => OthersOnWrite(s, fs0, t, x, u, d);
      case Append(l) => OthersOnAppend(s, fs0, t, x, l);
      case Orphan(u) =>
        KnowledgeStays(s.fs, s.log, s.orphans, fs0, s.pc[x], s.fs, s.log, s.orphans + {u});
      case _ =>
    }
  }

  // The clauses that speak of all files.

  lemma CreateKeeps(s: Server, fs0: map<Uri, Node>, u: Uri)
    requires FileInv(s, fs0) && u !in s.fs
    ensures var fs' := s.fs[u := Regular([], true, true)];
      FilesKept(fs', fs0) && ContentLogged(fs', s.ex, s.log, fs0) && RewrittenExist(fs', s.log)
  {
    assert !Rewritten(s.log, u);
    NeverRewritten(s.log, u, fs0);
  }

  lemma WriteKeeps(s: Server, fs0: map<Uri, Node>, u: Uri, d: Content)
    requires FileInv(s, fs0) && IsRegular(s.fs, u) && u in s.ex
    ensures var fs' := s.fs[u := s.fs[u].(data := d)];
      FilesKept(fs', fs0) && ContentLogged(fs', s.ex, s.log, fs0) && RewrittenExist(fs', s.log)
  {
  }

  lemma LogKeeps(log: seq<Line>, l: Line, orphans: set<Uri>, fs0: map<Uri, Node>)
    requires LogOk(log, orphans, fs0) && LineOk(log, l, orphans, fs0)
    ensures LogOk(log + [l], orphans, fs0)
  {
    var log' := log + [l];
    forall i | 0 <= i < |log'| ensures LineOk(log'[..i], log'[i], orphans, fs0) {
      assert log'[..i] == if i < |log| then log[..i] else log;
    }
  }

  lemma AppendKeeps(s: Server, fs0: map<Uri, Node>, t: nat, l: Line)
    requires FlockInv(s) && FileInv(s, fs0) && t < |s.pc| && FileMove(s, fs0, s.pc[t], Append(l))
    ensures ContentLogged(s.fs, s.ex, s.log + [l], fs0) && RewrittenExist(s.fs, s.log + [l])
    ensures LogOk(s.log + [l], s.orphans, fs0)
  {
    forall u ensures IsRegular(s.fs, u) && u !in s.ex ==> Data(s.fs, u) == LeftBy(s.log + [l], u, fs0) {
      AppendLine(s.log, l, u, fs0);
    }
    forall u ensures Rewritten(s.log + [l], u) ==> u in s.fs {
      AppendLine(s.log, l, u, fs0);
    }
    if l.GetLine? && l.st.Ok? {
      assert (l.u, t) in s.sh;
    }
    LogKeeps(s.log, l, s.orphans, fs0);
  }

  lemma OrphanLog(log: seq<Line>, orphans: set<Uri>, u: Uri, fs0: map<Uri, Node>)
    requires LogOk(log, orphans, fs0)
    ensures LogOk(log, orphans + {u}, fs0)
  {
  }

  /** Everything but Originated and what the threads know. */
  lemma FilesStay(s: Server, fs0: map<Uri, Node>, t: nat, ch: Change)
    requires FlockInv(s) && FileInv(s, fs0) && t < |s.pc| && FileMove(s, fs0, s.pc[t], ch)
    ensures var s' := Apply(s, t, ch);
      && FilesKept(s'.fs, fs0) && ContentLogged(s'.fs, s'.ex, s'.log, fs0)
      && RewrittenExist(s'.fs, s'.log) && LogOk(s'.log, s'.orphans, fs0)
  {
    match ch {
      case Create(u) => CreateKeeps(s, fs0, u);
      case Write(u, d) => assert s.ex[u] == t; WriteKeeps(s, fs0, u, d);
      case Append(l) => AppendKeeps(s, fs0, t, l);
      case Orphan(u) => OrphanLog(s.log, s.orphans, u, fs0);
      case _ =>
    }
  }

  lemma OriginStays(log: seq<Line>, orphans: set<Uri>, fs0: map<Uri, Node>, u: Uri, s: Server, t: nat, ch: Change)
    requires log == s.log && orphans == s.orphans && Origin(log, orphans, fs0, u)
    ensures Origin(Apply(s, t, ch).log, Apply(s, t, ch).orphans, fs0, u)
  {
    if ch.Append? { AppendLine(log, ch.line, u, fs0); }
  }

  /** The file thread t has created stays in the making until it is locked or given up. */
  ghost predicate MakingMove(s: Server, t: nat, e: Effect)
    requires t < |s.pc|
  {
    var s' := Goto(Apply(s, t, e.ch), t, e.p);
    && (e.ch.Create? ==> InTheMaking(s', e.ch.u))
    && forall u :: InTheMaking(s, u) ==> u in s'.ex || u in s'.orphans || InTheMaking(s', u)
  }

  lemma EffectMakingMove(s: Server, t: nat, c: Choice)
    requires LockInv(s) && t < |s.pc| && CanGo(s, s.pc[t], c)
    ensures MakingMove(s, t, EffectOf(s, s.pc[t], c))
  {
    var e := EffectOf(s, s.pc[t], c);
    if s.lock == Held(t) {
      OwnMakingMoves(s, t, c);
    } else {
      EffectLockMove(s, s.pc[t], c);
      assert !InSection(s.pc[t]);
      CreatesInside(s, s.pc[t], c);
    }
  }

  lemma CreatesInside(s: Server, p: Pc, c: Choice)
    ensures EffectOf(s, p, c).ch.Create? ==> p.PutCreate?
  {
  }

  lemma OwnMakingMoves(s: Server, t: nat, c: Choice)
    requires LockInv(s) && t < |s.pc| && CanGo(s, s.pc[t], c) && s.lock == Held(t)
    ensures MakingMove(s, t, EffectOf(s, s.pc[t], c))
  {
    CreatesInside(s, s.pc[t], c);
  }

  /** A file that is new was created, and a file that is free was free before or has been freed. */
  lemma NewFile(s: Server, t: nat, ch: Change, u: Uri)
    requires u in Apply(s, t, ch).fs
    ensures u in s.fs || ch == Create(u)
  {
  }

  lemma FreedFile(s: Server, t: nat, ch: Change, u: Uri)
    requires u !in Apply(s, t, ch).ex
    ensures u !in s.ex || ch == DropEx(u)
  {
  }

  lemma FileOriginated(s: Server, fs0: map<Uri, Node>, t: nat, e: Effect, u: Uri)
    requires t < |s.pc| && Originated(s, fs0) && FileMove(s, fs0, s.pc[t], e.ch) && MakingMove(s, t, e)
    requires u in Apply(s, t, e.ch).fs && u !in Apply(s, t, e.ch).ex
    ensures var s' := Goto(Apply(s, t, e.ch), t, e.p);
      Origin(s'.log, s'.orphans, fs0, u) || InTheMaking(s', u)
  {
    NewFile(s, t, e.ch, u);
    FreedFile(s, t, e.ch, u);
    if u in s.fs && !InTheMaking(s, u) {
      OriginStays(s.log, s.orphans, fs0, u, s, t, e.ch);
    }
  }

  lemma OriginatedStays(s: Server, fs0: map<Uri, Node>, t: nat, e: Effect)
    requires t < |s.pc| && Originated(s, fs0) && FileMove(s, fs0, s.pc[t], e.ch) && MakingMove(s, t, e)
    ensures Originated(Goto(Apply(s, t, e.ch), t, e.p), fs0)
  {
    var s' := Goto(Apply(s, t, e.ch), t, e.p);
    forall u | u in s'.fs && u !in s'.ex ensures Origin(s'.log, s'.orphans, fs0, u) || InTheMaking(s', u) {
      FileOriginated(s, fs0, t, e, u);
    }
  }

  /** What the thread's own knowledge and the change it makes say carries over to all. */
  lemma MoveKeepsFiles(s: Server, fs0: map<Uri, Node>, t: nat, e: Effect)
    requires LockInv(s) && FlockInv(s) && FileInv(s, fs0) && t < |s.pc|
    requires FileMove(s, fs0, s.pc[t], e.ch) && MakingMove(s, t, e)
    requires var s' := Apply(s, t, e.ch); FileOk(s'.fs, s'.log, s'.orphans, fs0, e.p)
    ensures FileInv(Goto(Apply(s, t, e.ch), t, e.p), fs0)
  {
    FilesStay(s, fs0, t, e.ch);
    OriginatedStays(s, fs0, t, e);
    AllKnow(s, fs0, t, e);
  }

  lemma AllKnow(s: Server, fs0: map<Uri, Node>, t: nat, e: Effect)
    requires LockInv(s) && FlockInv(s) && t < |s.pc| && FileMove(s, fs0, s.pc[t], e.ch)
    requires forall x :: 0 <= x < |s.pc| ==> FileOk(s.fs, s.log, s.orphans, fs0, s.pc[x])
    requires var s' := Apply(s, t, e.ch); FileOk(s'.fs, s'.log, s'.orphans, fs0, e.p)
    ensures var s' := Goto(Apply(s, t, e.ch), t, e.p);
      forall x :: 0 <= x < |s'.pc| ==> FileOk(s'.fs, s'.log, s'.orphans, fs0, s'.pc[x])
  {
    var s' := Apply(s, t, e.ch);
    forall x | 0 <= x < |s.pc| && x != t ensures FileOk(s'.fs, s'.log, s'.orphans, fs0, s.pc[x]) {
      OthersKnow(s, fs0, t, x, e.ch);
    }
  }

  lemma GoKeepsFiles(s: Server, fs0: map<Uri, Node>, t: nat, c: Choice)
    requires LockInv(s) && FlockInv(s) && FileInv(s, fs0) && t < |s.pc| && CanGo(s, s.pc[t], c)
    ensures FileInv(Do(s, Go(t, c)), fs0)
  {
    EffectFileMove(s, fs0, s.pc[t], c);
    EffectMakingMove(s, t, c);
    StepperKnows(s, fs0, t, c);
    MoveKeepsFiles(s, fs0, t, EffectOf(s, s.pc[t], c));
  }

  lemma StepperKnows(s: Server, fs0: map<Uri, Node>, t: nat, c: Choice)
    requires LockInv(s) && FileInv(s, fs0) && t < |s.pc| && CanGo(s, s.pc[t], c)
    ensures var e := EffectOf(s, s.pc[t], c); var s' := Apply(s, t, e.ch);
      FileOk(s'.fs, s'.log, s'.orphans, fs0, e.p)
  {
    var p := s.pc[t];
    if InGet(p) {
      if p.GetFlock? { assert !InTheMaking(s, p.u); }
      GetKnows(s, fs0, t, p, c);
    } else if InPut(p) {
      PutKnows(s, fs0, t, p, c);
    } else if Serving(p) {
      ServeKnows(s, fs0, t, p, c);
    } else {
      CrossKnows(s, fs0, t, p);
    }
  }

  /** A step outside all shared state. */
  lemma LocalKeepsFiles(s: Server, fs0: map<Uri, Node>, t: nat, p: Pc)
    requires FileInv(s, fs0) && t < |s.pc| && FileOk(s.fs, s.log, s.orphans, fs0, p)
    requires LockInv(s) && !InSection(s.pc[t])
    ensures FileInv(Goto(s, t, p), fs0)
  {
    forall u | InTheMaking(s, u) ensures InTheMaking(Goto(s, t, p), u) {
      assert s.lock.t != t;
    }
  }

  lemma DoKeepsFiles(s: Server, fs0: map<Uri, Node>, a: Action)
    requires LockInv(s) && FlockInv(s) && FileInv(s, fs0) && Enabled(s, a)
    ensures FileInv(Do(s, a), fs0)
  {
    if a.Go? {
      GoKeepsFiles(s, fs0, a.t, a.c);
    } else {
      var p := LocalStep(s, a);
      LocalKeepsFiles(s, fs0, a.t, p);
    }
  }

  lemma {:induction false} RunsKeepFiles(s: Server, fs0: map<Uri, Node>, acts: seq<Action>)
    requires LockInv(s) && FlockInv(s) && FileInv(s, fs0) && Runs(s, acts)
    ensures FileInv(After(s, acts), fs0)
    decreases |acts|
  {
    if acts != [] {
      DoKeepsLock(s, acts[0]);
      DoKeepsFlocks(s, acts[0]);
      DoKeepsFiles(s, fs0, acts[0]);
      RunsKeepFiles(Do(s, acts[0]), fs0, acts[1..]);
    }
  }

  lemma StartFiles(s: Server, fs0: map<Uri, Node>)
    requires Start(s, fs0)
    ensures FileInv(s, fs0)
  {
  }

  /** What the invariants say of a reachable state. */
  ghost predicate Steady(s: Server, fs0: map<Uri, Node>) {
    LockInv(s) && FlockInv(s) && FileInv(s, fs0)
  }

  lemma DoSteady(s: Server, fs0: map<Uri, Node>, a: Action)
    requires Steady(s, fs0) && Enabled(s, a)
    ensures Steady(Do(s, a), fs0)
  {
    DoKeepsLock(s, a);
    DoKeepsFlocks(s, a);
    DoKeepsFiles(s, fs0, a);
  }

  lemma ReachableSteady(s: Server, fs0: map<Uri, Node>, acts: seq<Action>)
    requires Start(s, fs0) && Runs(s, acts)
    ensures Steady(After(s, acts), fs0)
  {
    StartLocks(s, fs0);
    StartFiles(s, fs0);
    RunsKeepLocks(s, acts);
    RunsKeepFiles(s, fs0, acts);
  }

  /** In every interleaving, line i of the audit log, when it is a GET answered 200, sent a prefix,
      and if the transfer was completed the whole, of the content left by the nearest earlier PUT
      line on that file that had its exclusive lock, or of the initial content. A PUT line that had
      the lock left exactly the body it received. */
  lemma AuditLogLinearizes(s: Server, fs0: map<Uri, Node>, acts: seq<Action>, s': Server, i: nat)
    requires Start(s, fs0) && Runs(s, acts) && s' == After(s, acts) && i < |s'.log|
    ensures s'.log[i].GetLine? && s'.log[i].st.Ok? ==>
      && s'.log[i].sent <= LeftBy(s'.log[..i], s'.log[i].u, fs0)
      && (s'.log[i].complete <==> s'.log[i].sent == LeftBy(s'.log[..i], s'.log[i].u, fs0))
    ensures s'.log[i].PutLine? && s'.log[i].locked ==> s'.log[i].left == s'.log[i].body
  {
    StartLocks(s, fs0);
    StartFiles(s, fs0);
    RunsKeepFiles(s, fs0, acts);
  }

  lemma HoldersBusy(s: Server)
    requires FlockInv(s)
    ensures forall u :: u in s.ex ==> s.ex[u] < |s.pc| && !s.pc[s.ex[u]].Idle?
  {
    forall u | u in s.ex ensures s.ex[u] < |s.pc| && !s.pc[s.ex[u]].Idle? {
      assert HoldsEx(s.pc[s.ex[u]], u);
    }
  }

  /** Between requests the files are what the log says. */
  lemma IdleFilesMatchLog(s: Server, fs0: map<Uri, Node>, acts: seq<Action>, s': Server, u: Uri)
    requires Start(s, fs0) && Runs(s, acts) && s' == After(s, acts)
    requires forall t :: 0 <= t < |s'.pc| ==> s'.pc[t].Idle?
    ensures Data(s'.fs, u) == if IsRegular(s'.fs, u) then LeftBy(s'.log, u, fs0) else []
  {
    StartLocks(s, fs0);
    StartFiles(s, fs0);
    RunsKeepLocks(s, acts);
    RunsKeepFiles(s, fs0, acts);
    HoldersBusy(s');
  }
}
