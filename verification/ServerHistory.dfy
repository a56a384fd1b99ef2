/** Every line of the audit log against what happened to its request: what was asked, the file table at
    its open, what the client sent and was sent. */
module ServerHistory {
  import opened ServerModel
  import opened ServerLocks
  import opened ServerFiles
  import opened ServerAudit
  import opened ServerTermination
  import opened ServerIds
  import opened ServerOrphans

  /** The open of a request: whether it failed for want of a resource, and the files at that time. */
  datatype Opening = Opening(failed: bool, fs: map<Uri, Node>)

  datatype Option<T> = None | Some(value: T)

  /** A thread's current or latest request: what was asked, its open, the chunks received one behind the
      other, how much was sent, and how the receiving ended. */
  datatype Past = Past(asked: Option<Request>, open: Option<Opening>, received: Content, sent: nat,
                       ended: Option<Status>)

  const NOTHING := Past(None, None, [], 0, None)

  predicate Opens(p: Pc) {
    p.GetOpen? || p.PutReopen?
  }

  /** What action a, taken in state s, adds to the past h of its thread. */
  function Note(h: Past, s: Server, a: Action): Past
    requires a.t < |s.pc|
  {
    match a
    case BeginGet(_, u, id) => NOTHING.(asked := Some(GetOf(u, id)))
    case BeginPut(_, u, id) => NOTHING.(asked := Some(PutOf(u, id)))
    case Go(t, c) =>
      if Opens(s.pc[t]) then h.(open := Some(Opening(c.Fail?, s.fs)))
      else if c.Recv? then h.(received := h.received + c.chunk)
      else if c.Send? then h.(sent := h.sent + c.n)
      else if c.End? then h.(ended := Some(c.st))
      else h
    case _ => h
  }

  /** Thread t's past after the run, read off its actions. */
  ghost function PastOf(s: Server, acts: seq<Action>, t: nat): Past
    requires Runs(s, acts)
    decreases |acts|
  {
    if acts == [] then NOTHING
    else
      Unsnoc(s, acts);
      var front, a := acts[..|acts| - 1], acts[|acts| - 1];
      var h := PastOf(s, front, t);
      if a.t == t then Note(h, After(s, front), a) else h
  }

  lemma {:induction false} Unsnoc(s: Server, acts: seq<Action>)
    requires acts != [] && Runs(s, acts)
    ensures var front, a := acts[..|acts| - 1], acts[|acts| - 1];
      Runs(s, front) && Enabled(After(s, front), a) && After(s, acts) == Do(After(s, front), a)
    decreases |acts|
  {
    if |acts| > 1 {
      Unsnoc(Do(s, acts[0]), acts[1..]);
      assert acts[1..][..|acts| - 2] == acts[..|acts| - 1][1..];
    }
  }

  // What a thread in state p remembers of its past.

  /** The open could read u, or it could write u. */
  ghost predicate CouldRead(o: Opening, u: Uri) {
    !o.failed && u in o.fs && o.fs[u].readable
  }

  ghost predicate CouldWrite(o: Opening, u: Uri) {
    !o.failed && u in o.fs && o.fs[u].Regular? && o.fs[u].writable
  }

  /** The response to a GET of u, by what its open found. */
  ghost function GetStatus(o: Opening, u: Uri): Status {
    if o.failed then InternalError
    else if u !in o.fs then NotFound
    else if !o.fs[u].readable || o.fs[u].Directory? then Forbidden
    else Ok
  }

  ghost predicate Untouched(h: Past) {
    h.open.None? && h.received == [] && h.sent == 0 && h.ended.None?
  }

  ghost predicate Opened(h: Past) {
    h.open.Some? && h.received == [] && h.sent == 0 && h.ended.None?
  }

  ghost predicate ExitRecalls(h: Past, e: Exit) {
    match e
    case Retry(_, _) => Untouched(h)
    case GetFailed(u, _, _, st) =>
      Opened(h) && !CouldRead(h.open.value, u) && st == GetStatus(h.open.value, u)
    case GetLocked(u, _, _) => Opened(h) && CouldRead(h.open.value, u)
    case PutFailed(u, _, st) =>
      Opened(h) && !CouldWrite(h.open.value, u) && st == if h.open.value.failed then InternalError else Forbidden
    case PutLocked(u, _) => Opened(h) && CouldWrite(h.open.value, u)
  }

  ghost predicate Recalls(h: Past, p: Pc) {
    match p
    case Idle => true
    case GetClose(_, _) => true
    case PutClose(_, _) => true
    case Reset(e) => ExitRecalls(h, e)
    case Unlock(e) => ExitRecalls(h, e)
    case Notify(e) => ExitRecalls(h, e)
    case GetFlock(u, _, _) => Opened(h) && CouldRead(h.open.value, u)
    case GetStat(u, _, _) => Opened(h) && CouldRead(h.open.value, u)
    case GetSend(u, _, _, _, sent) =>
      h.open.Some? && GetStatus(h.open.value, u).Ok? && |sent| == h.sent
    case GetLog(u, _, _, st, sent, complete, _) =>
      && h.open.Some? && st == GetStatus(h.open.value, u) && |sent| == h.sent
      && (!st.Ok? ==> sent == [] && !complete)
    case PutFlock(u, _, _) => Opened(h) && CouldWrite(h.open.value, u)
    case PutTruncate(u, _) => Opened(h) && CouldWrite(h.open.value, u)
    case PutRecv(u, _, got) => h.open.Some? && CouldWrite(h.open.value, u) && got == h.received
    case PutLog(u, _, st, got, locked) =>
      && h.open.Some? && locked == CouldWrite(h.open.value, u)
      && (locked ==> got == h.received && h.ended == Some(st))
      && (!locked ==> got == [] && st == if h.open.value.failed then InternalError else Forbidden)
    case _ => Untouched(h)
  }

  /** Files that were there at the open still are, and are of the same kind. */
  ghost predicate StillThere(h: Past, fs: map<Uri, Node>) {
    h.open.Some? ==> forall u :: u in h.open.value.fs ==>
      u in fs && (fs[u].Regular? <==> h.open.value.fs[u].Regular?)
  }

  // One step.

  lemma CrossRecalls(h: Past, s: Server, p: Pc, c: Choice)
    requires !InGet(p) && !InPut(p) && !Serving(p) && CanGo(s, p, c) && Recalls(h, p) && (p.Test? ==> !s.creating)
    ensures Recalls(h, CrossEffect(s, p).p)
  {
  }

  lemma GetRecalls(h: Past, s: Server, t: nat, c: Choice)
    requires t < |s.pc| && InGet(s.pc[t]) && CanGo(s, s.pc[t], c) && Recalls(h, s.pc[t])
    ensures Recalls(Note(h, s, Go(t, c)), GetEffect(s, s.pc[t], c).p)
  {
  }

  lemma PutRecalls(h: Past, s: Server, t: nat, c: Choice)
    requires t < |s.pc| && InPut(s.pc[t]) && CanGo(s, s.pc[t], c) && Recalls(h, s.pc[t])
    ensures Recalls(Note(h, s, Go(t, c)), PutEffect(s, s.pc[t], c).p)
  {
  }

  lemma ServeRecalls(h: Past, s: Server, fs0: map<Uri, Node>, t: nat, c: Choice)
    requires t < |s.pc| && Serving(s.pc[t]) && CanGo(s, s.pc[t], c) && Recalls(h, s.pc[t])
    requires FileOk(s.fs, s.log, s.orphans, fs0, s.pc[t]) && StillThere(h, s.fs)
    ensures Recalls(Note(h, s, Go(t, c)), ServeEffect(s, s.pc[t], c).p)
  {
    var p := s.pc[t];
    if p.GetSend? && c.Send? { Sent(Data(s.fs, p.u), p.sent, c.n); }
  }

  lemma GoRecalls(h: Past, s: Server, fs0: map<Uri, Node>, t: nat, c: Choice)
    requires Steady(s, fs0) && t < |s.pc| && CanGo(s, s.pc[t], c) && Recalls(h, s.pc[t]) && StillThere(h, s.fs)
    ensures Recalls(Note(h, s, Go(t, c)), EffectOf(s, s.pc[t], c).p)
  {
    var p := s.pc[t];
    if InGet(p) {
      GetRecalls(h, s, t, c);
    } else if InPut(p) {
      PutRecalls(h, s, t, c);
    } else if Serving(p) {
      ServeRecalls(h, s, fs0, t, c);
    } else {
      assert p.Test? ==> !s.creating;
      CrossRecalls(h, s, p, c);
      CrossNotes(h, s, t, c);
    }
  }

  lemma CrossNotes(h: Past, s: Server, t: nat, c: Choice)
    requires t < |s.pc| && CanGo(s, s.pc[t], c)
    requires var p := s.pc[t]; !InGet(p) && !InPut(p) && !Serving(p)
    ensures Note(h, s, Go(t, c)) == h
  {
  }

  lemma LocalRecalls(h: Past, s: Server, a: Action, p: Pc)
    requires Enabled(s, a) && !a.Go? && Recalls(h, s.pc[a.t])
    requires (s.pc[a.t].Idle? && p.Enter?) || (s.pc[a.t].Notify? && p == AfterExit(s.pc[a.t].e))
    ensures Recalls(Note(h, s, a), p)
  {
  }

  /** No file goes away or changes its kind. */
  ghost predicate FsKept(fs: map<Uri, Node>, fs': map<Uri, Node>) {
    forall u :: u in fs ==> u in fs' && (fs'[u].Regular? <==> fs[u].Regular?)
  }

  lemma ApplyKeepsFs(s: Server, t: nat, ch: Change)
    requires ch.Create? ==> ch.u !in s.fs
    ensures FsKept(s.fs, Apply(s, t, ch).fs)
  {
  }

  lemma DoKeepsFs(s: Server, fs0: map<Uri, Node>, a: Action)
    requires Steady(s, fs0) && Enabled(s, a)
    ensures FsKept(s.fs, Do(s, a).fs)
  {
    if a.Go? {
      EffectFileMove(s, fs0, s.pc[a.t], a.c);
      ApplyKeepsFs(s, a.t, EffectOf(s, s.pc[a.t], a.c).ch);
      GoApplies(s, a.t, a.c);
    } else {
      OnlyMoves(s, a);
    }
  }

  lemma GoApplies(s: Server, t: nat, c: Choice)
    requires Enabled(s, Go(t, c))
    ensures Do(s, Go(t, c)).fs == Apply(s, t, EffectOf(s, s.pc[t], c).ch).fs
  {
  }

  lemma StillThereStays(h: Past, fs: map<Uri, Node>, fs': map<Uri, Node>)
    requires StillThere(h, fs) && FsKept(fs, fs')
    ensures StillThere(h, fs')
  {
  }

  lemma NoteStillThere(h: Past, s: Server, a: Action, fs': map<Uri, Node>)
    requires a.t < |s.pc| && StillThere(h, s.fs) && FsKept(s.fs, fs')
    ensures StillThere(Note(h, s, a), fs')
  {
    StillThereStays(h, s.fs, fs');
  }

  /** The thread has been given a request it has not logged. */
  predicate InRequest(p: Pc) {
    !p.Idle? && !p.GetClose? && !p.PutClose?
  }

  ghost predicate Asked(h: Past, p: Pc) {
    InRequest(p) ==> h.asked.Some? && Asks(h.asked.value, p)
  }

  lemma EffectInRequest(s: Server, p: Pc, c: Choice)
    requires CanGo(s, p, c) && InRequest(EffectOf(s, p, c).p)
    ensures InRequest(p) && !EffectOf(s, p, c).ch.Append?
  {
  }

  lemma GoAsked(h: Past, s: Server, t: nat, c: Choice)
    requires t < |s.pc| && CanGo(s, s.pc[t], c) && Asked(h, s.pc[t])
    ensures Asked(Note(h, s, Go(t, c)), EffectOf(s, s.pc[t], c).p)
  {
    if InRequest(EffectOf(s, s.pc[t], c).p) {
      EffectInRequest(s, s.pc[t], c);
      EffectAsks(h.asked.value, s, s.pc[t], c);
    }
  }

  lemma LocalAsked(h: Past, s: Server, a: Action)
    requires LockInv(s) && Enabled(s, a) && !a.Go? && Asked(h, s.pc[a.t])
    ensures Asked(Note(h, s, a), Do(s, a).pc[a.t])
  {
    var p := LocalStep(s, a);
    if a.BeginGet? {
      LocalAsks(GetOf(a.u, a.id), s, a);
    } else if a.BeginPut? {
      LocalAsks(PutOf(a.u, a.id), s, a);
    } else {
      LocalAsks(h.asked.value, s, a);
    }
  }

  ghost predicate ThreadRecalls(h: Past, s: Server, t: nat) {
    t < |s.pc| && Recalls(h, s.pc[t]) && Asked(h, s.pc[t]) && StillThere(h, s.fs)
  }

  lemma StepRecalls(h: Past, s: Server, fs0: map<Uri, Node>, a: Action)
    requires Steady(s, fs0) && Enabled(s, a) && ThreadRecalls(h, s, a.t)
    ensures ThreadRecalls(Note(h, s, a), Do(s, a), a.t)
  {
    DoKeepsFs(s, fs0, a);
    NoteStillThere(h, s, a, Do(s, a).fs);
    if a.Go? {
      GoMoves(s, a.t, a.c);
      GoRecalls(h, s, fs0, a.t, a.c);
      GoAsked(h, s, a.t, a.c);
    } else {
      var p := LocalStep(s, a);
      LocalRecalls(h, s, a, p);
      LocalAsked(h, s, a);
    }
  }

  lemma OthersRecall(h: Past, s: Server, fs0: map<Uri, Node>, a: Action, t: nat)
    requires Steady(s, fs0) && Enabled(s, a) && ThreadRecalls(h, s, t) && t != a.t
    ensures ThreadRecalls(h, Do(s, a), t)
  {
    DoKeepsFs(s, fs0, a);
    StillThereStays(h, s.fs, Do(s, a).fs);
    if a.Go? {
      GoMoves(s, a.t, a.c);
    } else {
      var p := LocalStep(s, a);
    }
  }

  /** Every thread of every reachable state recalls its past. */
  lemma {:induction false} RunRecalls(s: Server, fs0: map<Uri, Node>, acts: seq<Action>, t: nat)
    requires Start(s, fs0) && Runs(s, acts) && t < |s.pc|
    ensures ThreadRecalls(PastOf(s, acts, t), After(s, acts), t)
    decreases |acts|
  {
    if acts != [] {
      Unsnoc(s, acts);
      var front, a := acts[..|acts| - 1], acts[|acts| - 1];
      RunRecalls(s, fs0, front, t);
      ReachableSteady(s, fs0, front);
      if a.t == t {
        StepRecalls(PastOf(s, front, t), After(s, front), fs0, a);
      } else {
        OthersRecall(PastOf(s, front, t), After(s, front), fs0, a, t);
      }
    }
  }

  // What a line says.

  /** A GET line: what was asked, the status its open calls for, and when it is 200 as much of the content
      as was sent, complete exactly when that is all of it. */
  ghost predicate GetLaw(h: Past, before: seq<Line>, fs0: map<Uri, Node>, l: Line) {
    l.GetLine? && h.asked == Some(GetOf(l.u, l.id)) && h.open.Some? &&
    var o, content := h.open.value, LeftBy(before, l.u, fs0);
    && l.st == (if o.failed then InternalError
                else if l.u !in o.fs then NotFound
                else if !o.fs[l.u].readable || o.fs[l.u].Directory? then Forbidden
                else Ok)
    && (l.st.Ok? ==> h.sent <= |content| && l.sent == content[..h.sent] && (l.complete <==> h.sent == |content|))
    && (!l.st.Ok? ==> l.sent == [] && !l.complete)
  }

  /** A PUT line: what was asked; it had its lock exactly when its open could write a regular file, and then
      the body, and the content left, is what was received, and the status how the receiving ended;
      otherwise the status is the one its open calls for. */
  ghost predicate PutLaw(h: Past, l: Line) {
    l.PutLine? && h.asked == Some(PutOf(l.u, l.id)) && h.open.Some? &&
    var o := h.open.value;
    && (l.locked <==> !o.failed && l.u in o.fs && o.fs[l.u].Regular? && o.fs[l.u].writable)
    && (l.locked ==> l.body == l.left == h.received && h.ended == Some(l.st))
    && (!l.locked ==> l.body == [] && l.st == if o.failed then InternalError else Forbidden)
  }

  lemma PrefixOfLength(a: Content, b: Content)
    requires a <= b
    ensures a == b[..|a|] && (a == b <==> |a| == |b|)
  {
  }

  lemma GetLogged(h: Past, s: Server, fs0: map<Uri, Node>, t: nat, l: Line, orphans: set<Uri>)
    requires ThreadRecalls(h, s, t) && s.pc[t].GetLog? && LineOk(s.log, l, orphans, fs0)
    requires var p := s.pc[t]; l == GetLine(p.u, p.id, p.st, p.ticket, p.sent, p.complete)
    ensures GetLaw(h, s.log, fs0, l)
  {
    if l.st.Ok? { PrefixOfLength(l.sent, LeftBy(s.log, l.u, fs0)); }
  }

  lemma PutLogged(h: Past, s: Server, fs0: map<Uri, Node>, t: nat, l: Line, orphans: set<Uri>)
    requires ThreadRecalls(h, s, t) && s.pc[t].PutLog? && LineOk(s.log, l, orphans, fs0)
    requires var p := s.pc[t]; l == PutLine(p.u, p.id, p.st, p.locked, p.got, Data(s.fs, p.u))
    ensures PutLaw(h, l)
  {
  }

  lemma LoggingStep(s: Server, a: Action)
    requires Enabled(s, a) && |Do(s, a).log| == |s.log| + 1
    ensures var p, l := s.pc[a.t], Do(s, a).log[|s.log|];
      || (p.GetLog? && l == GetLine(p.u, p.id, p.st, p.ticket, p.sent, p.complete))
      || (p.PutLog? && l == PutLine(p.u, p.id, p.st, p.locked, p.got, Data(s.fs, p.u)))
  {
    StepLogs(s, a);
    AppendsLine(s, s.pc[a.t], a.c);
  }

  lemma AppendsLine(s: Server, p: Pc, c: Choice)
    requires EffectOf(s, p, c).ch.Append?
    ensures var l := EffectOf(s, p, c).ch.line;
      || (p.GetLog? && l == GetLine(p.u, p.id, p.st, p.ticket, p.sent, p.complete))
      || (p.PutLog? && l == PutLine(p.u, p.id, p.st, p.locked, p.got, Data(s.fs, p.u)))
  {
  }

  /** In every run, line i of the audit log was written in some step n of a thread, and agrees with that
      thread's past as its actions before that step tell it. */
  lemma LineTells(s: Server, fs0: map<Uri, Node>, acts: seq<Action>, s': Server, i: nat) returns (n: nat)
    requires Start(s, fs0) && Runs(s, acts) && s' == After(s, acts) && i < |s'.log|
    ensures WrittenAt(s, acts, i, n)
    ensures var h := PastOf(s, acts[..n], acts[n].t);
      if s'.log[i].GetLine? then GetLaw(h, s'.log[..i], fs0, s'.log[i]) else PutLaw(h, s'.log[i])
  {
    n := FindWriting(s, acts, i);
    var before, t := After(s, acts[..n]), acts[n].t;
    RunPcs(s, acts[..n]);
    RunRecalls(s, fs0, acts[..n], t);
    StepLogs(before, acts[n]);
    LoggingStep(before, acts[n]);
    assert s'.log[..i] == before.log;
    LogSound(s, fs0, acts, s', i);
    if s'.log[i].GetLine? {
      GetLogged(PastOf(s, acts[..n], t), before, fs0, t, s'.log[i], s'.orphans);
    } else {
      PutLogged(PastOf(s, acts[..n], t), before, fs0, t, s'.log[i], s'.orphans);
    }
  }

  lemma LogSound(s: Server, fs0: map<Uri, Node>, acts: seq<Action>, s': Server, i: nat)
    requires Start(s, fs0) && Runs(s, acts) && s' == After(s, acts) && i < |s'.log|
    ensures LineOk(s'.log[..i], s'.log[i], s'.orphans, fs0)
  {
    ReachableSteady(s, fs0, acts);
  }

  lemma {:induction false} RunPcs(s: Server, acts: seq<Action>)
    requires Runs(s, acts)
    ensures |After(s, acts).pc| == |s.pc|
    decreases |acts|
  {
    if acts != [] {
      StepPcs(s, acts[0]);
      RunPcs(Do(s, acts[0]), acts[1..]);
    }
  }

  lemma StepPcs(s: Server, a: Action)
    requires Enabled(s, a)
    ensures |Do(s, a).pc| == |s.pc|
  {
  }

  // Who was admitted.

  /** Step m of the run admits the request its thread was given, as number j. */
  ghost predicate AdmittedAt(s: Server, acts: seq<Action>, j: nat, m: nat, r: Request) {
    && m < |acts| && Runs(s, acts) && Runs(s, acts[..m]) && Enabled(After(s, acts[..m]), acts[m])
    && var before := After(s, acts[..m]);
      && |before.admitted| == j && |Do(before, acts[m]).admitted| == j + 1
      && acts[m].Go? && PastOf(s, acts[..m], acts[m].t).asked == Some(r)
  }

  lemma EffectAdmits(s: Server, p: Pc, c: Choice)
    requires EffectOf(s, p, c).ch.Admit?
    ensures (p.GetSetId? || p.PutSetId?) && EffectOf(s, p, c).ch.id == p.id
  {
    EffectReqId(s, p, c);
  }

  lemma AppliedAdmitted(s: Server, t: nat, e: Effect)
    requires t < |s.pc|
    ensures Goto(Apply(s, t, e.ch), t, e.p).admitted == s.admitted + if e.ch.Admit? then [e.ch.id] else []
  {
  }

  /** A step admits at most one request, the one its thread is about to admit. */
  lemma StepAdmits(s: Server, a: Action)
    requires Enabled(s, a)
    ensures Do(s, a).admitted == s.admitted ||
      (a.Go? && (s.pc[a.t].GetSetId? || s.pc[a.t].PutSetId?) && Do(s, a).admitted == s.admitted + [s.pc[a.t].id])
  {
    if a.Go? {
      AppliedAdmitted(s, a.t, EffectOf(s, s.pc[a.t], a.c));
      if EffectOf(s, s.pc[a.t], a.c).ch.Admit? { EffectAdmits(s, s.pc[a.t], a.c); }
    } else {
      OnlyMoves(s, a);
    }
  }

  lemma {:induction false} AdmittedGrows(s: Server, acts: seq<Action>)
    requires Runs(s, acts)
    ensures s.admitted <= After(s, acts).admitted
    decreases |acts|
  {
    if acts != [] {
      StepAdmits(s, acts[0]);
      AdmittedGrows(Do(s, acts[0]), acts[1..]);
    }
  }

  lemma {:induction false} FindAdmission(s: Server, acts: seq<Action>, j: nat) returns (m: nat)
    requires Runs(s, acts) && |s.admitted| <= j < |After(s, acts).admitted|
    ensures m < |acts| && Runs(s, acts[..m]) && Enabled(After(s, acts[..m]), acts[m])
    ensures |After(s, acts[..m]).admitted| == j
    ensures |Do(After(s, acts[..m]), acts[m]).admitted| == j + 1
    ensures Do(After(s, acts[..m]), acts[m]).admitted <= After(s, acts).admitted
    decreases |acts|
  {
    StepAdmits(s, acts[0]);
    var s1 := Do(s, acts[0]);
    if |s1.admitted| > j {
      m := 0;
      AdmittedGrows(s1, acts[1..]);
      assert acts[..0] == [];
    } else {
      var n := FindAdmission(s1, acts[1..], j);
      m := n + 1;
      assert acts[..m][0] == acts[0] && acts[..m][1..] == acts[1..][..n];
    }
  }

  /** Entry j of the admitted ids is the id of the request that some step of the run admitted. */
  lemma AdmittedTells(s: Server, fs0: map<Uri, Node>, acts: seq<Action>, s': Server, j: nat)
    returns (m: nat, r: Request)
    requires Start(s, fs0) && Runs(s, acts) && s' == After(s, acts) && j < |s'.admitted|
    ensures AdmittedAt(s, acts, j, m, r) && s'.admitted[j] == r.id
  {
    m := FindAdmission(s, acts, j);
    var before, t := After(s, acts[..m]), acts[m].t;
    StepAdmits(before, acts[m]);
    RunPcs(s, acts[..m]);
    RunRecalls(s, fs0, acts[..m], t);
    r := PastOf(s, acts[..m], t).asked.value;
    AsksId(r, before.pc[t]);
  }

  lemma AsksId(r: Request, p: Pc)
    requires (p.GetSetId? || p.PutSetId?) && Asks(r, p)
    ensures r.id == p.id
  {
  }

  /** A GET with a positive id is answered Not Found only after the admission of an earlier request that
      was given an id at least as large. */
  lemma NotFoundAfterRequest(s: Server, fs0: map<Uri, Node>, acts: seq<Action>, s': Server, i: nat)
    returns (j: nat, m: nat, r: Request)
    requires Start(s, fs0) && Runs(s, acts) && s' == After(s, acts) && i < |s'.log|
    requires s'.log[i].GetLine? && s'.log[i].st.NotFound? && s'.log[i].id > 0
    ensures j < s'.log[i].ticket && AdmittedAt(s, acts, j, m, r) && r.id >= s'.log[i].id
  {
    NotFoundInTurn(s, fs0, acts, s', i);
    j :| 0 <= j < s'.log[i].ticket && s'.admitted[j] >= s'.log[i].id;
    m, r := AdmittedTells(s, fs0, acts, s', j);
  }
}
