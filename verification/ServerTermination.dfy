/** Requests come to an end: how many steps they can take, and that each is answered by one log line. */
module ServerTermination {
  import opened Seqs
  import opened ServerModel
  import opened ServerLocks
  import opened ServerProgress
  import opened ServerFiles
  import opened ServerAudit

  /** The steps left from the entry with v, of a GET whose file is at most m long. */
  function VisitWork(m: nat, v: Visit): nat {
    match v
    case GetFirst(_, _) => m + 17
    case GetAgain(_, _) => m + 11
    case PutFirst(_, _) => 12
  }

  /** The steps left behind the reset of creating. */
  function ExitWork(m: nat, e: Exit): nat {
    match e
    case Retry(_, _) => m + 14
    case GetFailed(_, _, _, _) => 2
    case GetLocked(_, _, _) => m + 4
    case PutFailed(_, _, _) => 2
    case PutLocked(_, _) => 3
  }

  /** The steps a thread takes at most before it is idle, apart from further turns of the GET loop and
      from receiving, when no file grows longer than m. */
  function WorkAt(m: nat, p: Pc): nat {
    match p
    case Idle => 0
    case Enter(v) => VisitWork(m, v) + 3
    case Woken(v) => VisitWork(m, v) + 3
    case Asleep(v) => VisitWork(m, v) + 3
    case Test(v) => VisitWork(m, v) + 2
    case Claim(v) => VisitWork(m, v) + 1
    case GetCheck(_, _) => m + 11
    case GetSetId(_, _) => m + 10
    case GetOpen(_, _, _) => m + 9
    case GetFlock(_, _, _) => m + 8
    case PutSetId(_, _) => 12
    case PutAccess(_, _) => 11
    case PutCreate(_, _) => 10
    case PutReopen(_, _, _) => 9
    case PutFlock(_, _, _) => 8
    case PutTruncate(_, _) => 7
    case Reset(e) => ExitWork(m, e) + 3
    case Unlock(e) => ExitWork(m, e) + 2
    case Notify(e) => ExitWork(m, e) + 1
    case GetStat(_, _, _) => m + 4
    case GetSend(_, _, _, size, sent) => if |sent| <= size then size - |sent| + 3 else 3
    case GetLog(_, _, _, _, _, _, _) => 2
    case GetClose(_, _) => 1
    case PutRecv(_, _, _) => 3
    case PutLog(_, _, _, _, _) => 2
    case PutClose(_, _) => 1
  }

  function Work(m: nat): Pc -> nat {
    (p: Pc) => WorkAt(m, p)
  }

  /** A step that sends a GET round its loop again. */
  predicate Turns(s: Server, a: Action) {
    a.t < |s.pc| && a.Go? && s.pc[a.t].GetCheck? && s.pc[a.t].u !in s.fs && s.pc[a.t].id > s.reqId
  }

  predicate Receives(a: Action) {
    a.Go? && a.c.Recv?
  }

  predicate Begins(a: Action) {
    a.BeginGet? || a.BeginPut?
  }

  /** How often a GET of the run goes round its loop again. */
  ghost function TurnCount(s: Server, acts: seq<Action>): nat
    requires Runs(s, acts)
    decreases |acts|
  {
    if acts == [] then 0 else (if Turns(s, acts[0]) then 1 else 0) + TurnCount(Do(s, acts[0]), acts[1..])
  }

  ghost function ChunkCount(acts: seq<Action>): nat {
    if acts == [] then 0 else (if Receives(acts[0]) then 1 else 0) + ChunkCount(acts[1..])
  }

  ghost function ByteCount(acts: seq<Action>): nat {
    if acts == [] then 0 else (if Receives(acts[0]) then |acts[0].c.chunk| else 0) + ByteCount(acts[1..])
  }

  ghost function BeginCount(acts: seq<Action>): nat {
    if acts == [] then 0 else (if Begins(acts[0]) then 1 else 0) + BeginCount(acts[1..])
  }

  /** No file is longer than m. */
  ghost predicate Within(fs: map<Uri, Node>, m: nat) {
    forall u :: u in fs ==> |Data(fs, u)| <= m
  }

  // One step.

  lemma CrossWork(m: nat, s: Server, p: Pc, c: Choice)
    requires !InGet(p) && !InPut(p) && !Serving(p) && CanGo(s, p, c) && (p.Test? ==> !s.creating)
    ensures WorkAt(m, CrossEffect(s, p).p) < WorkAt(m, p)
  {
  }

  lemma GetWork(m: nat, s: Server, p: Pc, c: Choice)
    requires InGet(p) && CanGo(s, p, c)
    ensures var turn := p.GetCheck? && p.u !in s.fs && p.id > s.reqId;
      WorkAt(m, GetEffect(s, p, c).p) < WorkAt(m, p) + if turn then 7 else 0
  {
  }

  lemma PutWork(m: nat, s: Server, p: Pc, c: Choice)
    requires InPut(p)
    ensures WorkAt(m, PutEffect(s, p, c).p) < WorkAt(m, p)
  {
  }

  lemma ServeWork(m: nat, s: Server, fs0: map<Uri, Node>, p: Pc, c: Choice)
    requires Serving(p) && CanGo(s, p, c) && Within(s.fs, m) && FileOk(s.fs, s.log, s.orphans, fs0, p)
    ensures WorkAt(m, ServeEffect(s, p, c).p) < WorkAt(m, p) + if c.Recv? then 1 else 0
  {
  }

  lemma GoWork(m: nat, s: Server, fs0: map<Uri, Node>, t: nat, c: Choice)
    requires Steady(s, fs0) && Within(s.fs, m) && t < |s.pc| && CanGo(s, s.pc[t], c)
    ensures WorkAt(m, EffectOf(s, s.pc[t], c).p)
          < WorkAt(m, s.pc[t]) + (if Turns(s, Go(t, c)) then 7 else 0) + (if c.Recv? then 1 else 0)
  {
    var p := s.pc[t];
    if InGet(p) {
      GetWork(m, s, p, c);
    } else if InPut(p) {
      PutWork(m, s, p, c);
    } else if Serving(p) {
      ServeWork(m, s, fs0, p, c);
    } else {
      assert p.Test? ==> !s.creating;
      CrossWork(m, s, p, c);
    }
  }

  lemma LocalWork(m: nat, s: Server, a: Action)
    requires LockInv(s) && Enabled(s, a) && !a.Go?
    ensures Do(s, a).pc == s.pc[a.t := Do(s, a).pc[a.t]]
    ensures WorkAt(m, Do(s, a).pc[a.t]) < WorkAt(m, s.pc[a.t]) + if Begins(a) then m + 21 else 0
  {
    var p := LocalStep(s, a);
    assert a.Signal? ==> s.pc[a.t].Notify?;
  }

  lemma GoMoves(s: Server, t: nat, c: Choice)
    requires Enabled(s, Go(t, c))
    ensures Do(s, Go(t, c)).pc == s.pc[t := EffectOf(s, s.pc[t], c).p]
  {
  }

  /** Every step uses up work, but for those that begin a request, turn round, or receive. */
  lemma DoWork(m: nat, s: Server, fs0: map<Uri, Node>, a: Action)
    requires Steady(s, fs0) && Within(s.fs, m) && Enabled(s, a)
    ensures Total(Do(s, a).pc, Work(m)) < Total(s.pc, Work(m)) + (if Begins(a) then m + 21 else 0)
              + (if Turns(s, a) then 7 else 0) + (if Receives(a) then 1 else 0)
  {
    if a.Go? {
      GoMoves(s, a.t, a.c);
      GoWork(m, s, fs0, a.t, a.c);
    } else {
      LocalWork(m, s, a);
    }
    TotalUpdate(s.pc, a.t, Do(s, a).pc[a.t], Work(m));
  }

  // No file outgrows what there was and what is received.

  lemma EffectWithin(s: Server, fs0: map<Uri, Node>, p: Pc, c: Choice, m: nat)
    requires CanGo(s, p, c) && FileOk(s.fs, s.log, s.orphans, fs0, p) && Within(s.fs, m)
    ensures var ch := EffectOf(s, p, c).ch; ch.Write? ==> |ch.d| <= m + if c.Recv? then |c.chunk| else 0
  {
    if Serving(p) { ServeWithin(s, fs0, p, c, m); }
  }

  lemma ServeWithin(s: Server, fs0: map<Uri, Node>, p: Pc, c: Choice, m: nat)
    requires Serving(p) && CanGo(s, p, c) && FileOk(s.fs, s.log, s.orphans, fs0, p) && Within(s.fs, m)
    ensures var ch := ServeEffect(s, p, c).ch; ch.Write? ==> |ch.d| <= m + if c.Recv? then |c.chunk| else 0
  {
    if p.PutRecv? && c.Recv? { Received(p.got, c.chunk); }
  }

  lemma ApplyWithin(s: Server, t: nat, ch: Change, m: nat, m': nat)
    requires Within(s.fs, m) && m <= m' && (ch.Write? ==> |ch.d| <= m')
    ensures Within(Apply(s, t, ch).fs, m')
  {
  }

  function Bytes(a: Action): nat {
    if Receives(a) then |a.c.chunk| else 0
  }

  lemma DoWithin(s: Server, fs0: map<Uri, Node>, a: Action, m: nat)
    requires Steady(s, fs0) && Within(s.fs, m) && Enabled(s, a)
    ensures Within(Do(s, a).fs, m + Bytes(a))
  {
    if a.Go? {
      EffectWithin(s, fs0, s.pc[a.t], a.c, m);
      ApplyWithin(s, a.t, EffectOf(s, s.pc[a.t], a.c).ch, m, m + Bytes(a));
    } else {
      OnlyMoves(s, a);
    }
  }

  // Whole runs.

  /** The work the requests begun in the run bring with them. */
  ghost function BeginWork(m: nat, acts: seq<Action>): nat {
    if acts == [] then 0 else (if Begins(acts[0]) then m + 21 else 0) + BeginWork(m, acts[1..])
  }

  lemma {:induction false} BeginWorkIs(m: nat, acts: seq<Action>)
    ensures BeginWork(m, acts) == (m + 21) * BeginCount(acts)
  {
    if acts != [] { BeginWorkIs(m, acts[1..]); }
  }

  lemma {:induction false} RunWork(s: Server, fs0: map<Uri, Node>, acts: seq<Action>, k: nat, m: nat)
    requires Steady(s, fs0) && Runs(s, acts) && Within(s.fs, k) && k + ByteCount(acts) <= m
    ensures |acts| + Total(After(s, acts).pc, Work(m))
         <= Total(s.pc, Work(m)) + BeginWork(m, acts) + 7 * TurnCount(s, acts) + ChunkCount(acts)
    decreases |acts|
  {
    if acts != [] {
      var a, rest := acts[0], acts[1..];
      DoWork(m, s, fs0, a);
      DoWithin(s, fs0, a, k);
      DoSteady(s, fs0, a);
      RunWork(Do(s, a), fs0, rest, k + Bytes(a), m);
    }
  }

  lemma WorkBound(s: Server, fs0: map<Uri, Node>, k: nat, m: nat)
    requires Steady(s, fs0) && Within(s.fs, k) && k <= m
    ensures Total(s.pc, Work(m)) <= (m + 20) * |s.pc|
  {
    forall t | 0 <= t < |s.pc| ensures Work(m)(s.pc[t]) <= m + 20 {
      assert FileOk(s.fs, s.log, s.orphans, fs0, s.pc[t]);
      if s.pc[t].GetSend? { assert s.pc[t].size <= k; }
    }
    TotalBound(s.pc, Work(m), m + 20);
  }

  lemma SteadyRunsEnd(s: Server, fs0: map<Uri, Node>, acts: seq<Action>, k: nat, m: nat)
    requires Steady(s, fs0) && Runs(s, acts) && Within(s.fs, k) && m == k + ByteCount(acts)
    ensures |acts| <= (m + 20) * |s.pc| + (m + 21) * BeginCount(acts) + 7 * TurnCount(s, acts) + ChunkCount(acts)
  {
    RunWork(s, fs0, acts, k, m);
    WorkBound(s, fs0, k, m);
    BeginWorkIs(m, acts);
  }

  /** Every run from a reachable state is bounded by its threads, the requests it begins, the turns GETs
      take round their loop, and the chunks received. No file gets longer than m: the longest there was
      and all that is received. */
  lemma RunsEnd(s: Server, fs0: map<Uri, Node>, before: seq<Action>, s': Server, acts: seq<Action>,
                k: nat, m: nat)
    requires Start(s, fs0) && Runs(s, before) && s' == After(s, before) && Runs(s', acts)
    requires Within(s'.fs, k) && m == k + ByteCount(acts)
    ensures |acts| <= (m + 20) * |s'.pc| + (m + 21) * BeginCount(acts) + 7 * TurnCount(s', acts) + ChunkCount(acts)
  {
    ReachableSteady(s, fs0, before);
    SteadyRunsEnd(s', fs0, acts, k, m);
  }

  // Every request is answered, once.

  datatype Request = GetOf(u: Uri, id: int) | PutOf(u: Uri, id: int)

  function VisitRequest(v: Visit): Request {
    match v
    case GetFirst(u, id) => GetOf(u, id)
    case GetAgain(u, id) => GetOf(u, id)
    case PutFirst(u, id) => PutOf(u, id)
  }

  function ExitRequest(e: Exit): Request {
    match e
    case Retry(u, id) => GetOf(u, id)
    case GetFailed(u, id, _, _) => GetOf(u, id)
    case GetLocked(u, id, _) => GetOf(u, id)
    case PutFailed(u, id, _) => PutOf(u, id)
    case PutLocked(u, id) => PutOf(u, id)
  }

  /** The thread has been given r and has not logged it. */
  predicate Asks(r: Request, p: Pc) {
    match p
    case Idle => false
    case Enter(v) => VisitRequest(v) == r
    case Woken(v) => VisitRequest(v) == r
    case Asleep(v) => VisitRequest(v) == r
    case Test(v) => VisitRequest(v) == r
    case Claim(v) => VisitRequest(v) == r
    case GetCheck(u, id) => r == GetOf(u, id)
    case GetSetId(u, id) => r == GetOf(u, id)
    case GetOpen(u, id, _) => r == GetOf(u, id)
    case GetFlock(u, id, _) => r == GetOf(u, id)
    case PutSetId(u, id) => r == PutOf(u, id)
    case PutAccess(u, id) => r == PutOf(u, id)
    case PutCreate(u, id) => r == PutOf(u, id)
    case PutReopen(u, id, _) => r == PutOf(u, id)
    case PutFlock(u, id, _) => r == PutOf(u, id)
    case PutTruncate(u, id) => r == PutOf(u, id)
    case Reset(e) => ExitRequest(e) == r
    case Unlock(e) => ExitRequest(e) == r
    case Notify(e) => ExitRequest(e) == r
    case GetStat(u, id, _) => r == GetOf(u, id)
    case GetSend(u, id, _, _, _) => r == GetOf(u, id)
    case GetLog(u, id, _, _, _, _, _) => r == GetOf(u, id)
    case PutRecv(u, id, _) => r == PutOf(u, id)
    case PutLog(u, id, _, _, _) => r == PutOf(u, id)
    case GetClose(_, _) => false
    case PutClose(_, _) => false
  }

  predicate Answers(r: Request, l: Line) {
    if l.GetLine? then r == GetOf(l.u, l.id) else r == PutOf(l.u, l.id)
  }

  predicate Starts(r: Request, a: Action) {
    match a
    case BeginGet(_, u, id) => r == GetOf(u, id)
    case BeginPut(_, u, id) => r == PutOf(u, id)
    case _ => false
  }

  /** The threads busy with r, the lines that answer it, and the times it was begun. */
  function Asking(r: Request): Pc -> nat {
    (p: Pc) => if Asks(r, p) then 1 else 0
  }

  function Answering(r: Request): Line -> nat {
    (l: Line) => if Answers(r, l) then 1 else 0
  }

  function Starting(r: Request): Action -> nat {
    (a: Action) => if Starts(r, a) then 1 else 0
  }

  lemma CrossAsks(r: Request, s: Server, p: Pc)
    requires !InGet(p) && !InPut(p) && !Serving(p)
    ensures var e := CrossEffect(s, p); (Asks(r, e.p) <==> Asks(r, p)) && !e.ch.Append?
  {
  }

  lemma GetAsks(r: Request, s: Server, p: Pc, c: Choice)
    requires InGet(p)
    ensures var e := GetEffect(s, p, c); (Asks(r, e.p) <==> Asks(r, p)) && !e.ch.Append?
  {
  }

  lemma PutAsks(r: Request, s: Server, p: Pc, c: Choice)
    requires InPut(p)
    ensures var e := PutEffect(s, p, c); (Asks(r, e.p) <==> Asks(r, p)) && !e.ch.Append?
  {
  }

  lemma ServeAsks(r: Request, s: Server, p: Pc, c: Choice)
    requires Serving(p)
    ensures var e := ServeEffect(s, p, c);
      if e.ch.Append? then !Asks(r, e.p) && (Answers(r, e.ch.line) <==> Asks(r, p))
      else Asks(r, e.p) <==> Asks(r, p)
  {
  }

  /** A step keeps its thread's request, or answers it. */
  lemma EffectAsks(r: Request, s: Server, p: Pc, c: Choice)
    ensures var e := EffectOf(s, p, c);
      if e.ch.Append? then !Asks(r, e.p) && (Answers(r, e.ch.line) <==> Asks(r, p))
      else Asks(r, e.p) <==> Asks(r, p)
  {
    if InGet(p) { GetAsks(r, s, p, c); }
    else if InPut(p) { PutAsks(r, s, p, c); }
    else if Serving(p) { ServeAsks(r, s, p, c); }
    else { CrossAsks(r, s, p); }
  }

  /** The lines and the threads for r together. */
  function Handled(r: Request, s: Server): nat {
    Total(s.log, Answering(r)) + Total(s.pc, Asking(r))
  }

  lemma GoHandles(r: Request, s: Server, t: nat, c: Choice)
    requires Enabled(s, Go(t, c))
    ensures Handled(r, Do(s, Go(t, c))) == Handled(r, s)
  {
    var e := EffectOf(s, s.pc[t], c);
    EffectAsks(r, s, s.pc[t], c);
    StepHandles(r, s, t, e);
  }

  lemma StepHandles(r: Request, s: Server, t: nat, e: Effect)
    requires t < |s.pc|
    requires if e.ch.Append? then !Asks(r, e.p) && (Answers(r, e.ch.line) <==> Asks(r, s.pc[t]))
             else Asks(r, e.p) <==> Asks(r, s.pc[t])
    ensures Handled(r, Goto(Apply(s, t, e.ch), t, e.p)) == Handled(r, s)
  {
    TotalUpdate(s.pc, t, e.p, Asking(r));
    LogHandles(r, s, t, e.ch);
  }

  lemma LogHandles(r: Request, s: Server, t: nat, ch: Change)
    ensures var s' := Apply(s, t, ch);
      && s'.pc == s.pc
      && Total(s'.log, Answering(r))
         == Total(s.log, Answering(r)) + if ch.Append? then Answering(r)(ch.line) else 0
  {
    if ch.Append? { TotalSnoc(s.log, ch.line, Answering(r)); }
  }

  lemma LocalHandles(r: Request, s: Server, a: Action)
    requires LockInv(s) && Enabled(s, a) && !a.Go?
    ensures Handled(r, Do(s, a)) == Handled(r, s) + Starting(r)(a)
  {
    var p := LocalStep(s, a);
    TotalUpdate(s.pc, a.t, p, Asking(r));
    LocalAsks(r, s, a);
  }

  lemma LocalAsks(r: Request, s: Server, a: Action)
    requires LockInv(s) && Enabled(s, a) && !a.Go?
    ensures Asking(r)(Do(s, a).pc[a.t]) == Asking(r)(s.pc[a.t]) + Starting(r)(a)
  {
    var p := LocalStep(s, a);
    assert a.Signal? ==> s.pc[a.t].Notify?;
  }

  lemma {:induction false} RunHandles(r: Request, s: Server, acts: seq<Action>)
    requires LockInv(s) && Runs(s, acts)
    ensures Handled(r, After(s, acts)) == Handled(r, s) + Total(acts, Starting(r))
    decreases |acts|
  {
    if acts != [] {
      DoKeepsLock(s, acts[0]);
      if acts[0].Go? {
        GoHandles(r, s, acts[0].t, acts[0].c);
      } else {
        LocalHandles(r, s, acts[0]);
      }
      RunHandles(r, Do(s, acts[0]), acts[1..]);
    }
  }

  /** In every run: each request has been answered by a line of its own or is still with a thread. */
  lemma AnsweredOnce(r: Request, s: Server, fs0: map<Uri, Node>, acts: seq<Action>, s': Server)
    requires Start(s, fs0) && Runs(s, acts) && s' == After(s, acts)
    ensures Total(s'.log, Answering(r)) + Total(s'.pc, Asking(r)) == Total(acts, Starting(r))
  {
    StartLocks(s, fs0);
    TotalBound(s.pc, Asking(r), 0);
    RunHandles(r, s, acts);
  }

  /** A run after which no thread can step has answered every request it began, once each. With
      RunsEnd: unless GETs go round their loop for ever, or clients never stop sending, every request
      is answered. */
  lemma AllAnswered(r: Request, s: Server, fs0: map<Uri, Node>, acts: seq<Action>, s': Server)
    requires Start(s, fs0) && Runs(s, acts) && s' == After(s, acts)
    requires forall t :: 0 <= t < |s'.pc| ==> !CanStep(s', t)
    ensures forall t :: 0 <= t < |s'.pc| ==> s'.pc[t].Idle?
    ensures Total(s'.log, Answering(r)) == Total(acts, Starting(r))
  {
    AnsweredOnce(r, s, fs0, acts, s');
    StuckIsIdle(s, fs0, acts, s');
    TotalBound(s'.pc, Asking(r), 0);
  }

  lemma StuckIsIdle(s: Server, fs0: map<Uri, Node>, acts: seq<Action>, s': Server)
    requires Start(s, fs0) && Runs(s, acts) && s' == After(s, acts)
    requires forall t :: 0 <= t < |s'.pc| ==> !CanStep(s', t)
    ensures forall t :: 0 <= t < |s'.pc| ==> s'.pc[t].Idle?
  {
    StartLocks(s, fs0);
    RunsKeepLocks(s, acts);
    forall t | 0 <= t < |s'.pc| ensures s'.pc[t].Idle? {
      if !s'.pc[t].Idle? {
        SomeoneCanStep(s', t);
      }
    }
  }
}
