/** The files against the audit log: every GET answered 200 sent what the log says was there. */
module ServerFiles {
  import opened ServerModel
  import opened ServerLocks

  predicate LockedLine(l: Line, u: Uri) {
    l.PutLine? && l.locked && l.u == u
  }

  /** The content left by the last PUT line on u that had its exclusive lock, or the initial one. */
  function LeftBy(log: seq<Line>, u: Uri, fs0: map<Uri, Node>): Content {
    if log == [] then Data(fs0, u)
    else if LockedLine(log[|log| - 1], u) then log[|log| - 1].left
    else LeftBy(log[..|log| - 1], u, fs0)
  }

  /** Some PUT line on u had its exclusive lock. */
  predicate Rewritten(log: seq<Line>, u: Uri) {
    exists i :: 0 <= i < |log| && LockedLine(log[i], u)
  }

  lemma AppendLine(log: seq<Line>, l: Line, u: Uri, fs0: map<Uri, Node>)
    ensures LeftBy(log + [l], u, fs0) == if LockedLine(l, u) then l.left else LeftBy(log, u, fs0)
    ensures Rewritten(log + [l], u) <==> Rewritten(log, u) || LockedLine(l, u)
  {
    assert (log + [l])[..|log|] == log;
    assert forall i :: 0 <= i < |log| ==> (log + [l])[i] == log[i];
    assert (log + [l])[|log|] == l;
  }

  lemma {:induction false} NeverRewritten(log: seq<Line>, u: Uri, fs0: map<Uri, Node>)
    requires !Rewritten(log, u)
    ensures LeftBy(log, u, fs0) == Data(fs0, u)
  {
    if log != [] {
      assert !LockedLine(log[|log| - 1], u);
      assert forall i :: 0 <= i < |log| - 1 ==> log[..|log| - 1][i] == log[i];
      NeverRewritten(log[..|log| - 1], u, fs0);
    }
  }

  /** Where file u's content comes from: it was there, a logged PUT wrote it, or a PUT created it and
      could not reopen it. */
  ghost predicate Origin(log: seq<Line>, orphans: set<Uri>, fs0: map<Uri, Node>, u: Uri) {
    u in fs0 || Rewritten(log, u) || u in orphans
  }

  /** What a thread in state p knows of the file it works on. */
  ghost predicate FileOk(fs: map<Uri, Node>, log: seq<Line>, orphans: set<Uri>, fs0: map<Uri, Node>, p: Pc) {
    match p
    case PutCreate(u, _) => u !in fs
    case PutFlock(u, _, _) => IsRegular(fs, u)
    case PutTruncate(u, _) => IsRegular(fs, u)
    case PutRecv(u, _, got) => IsRegular(fs, u) && Data(fs, u) == got
    case PutLog(u, _, _, got, locked) => locked ==> IsRegular(fs, u) && Data(fs, u) == got
    case PutClose(u, locked) =>
      locked ==> IsRegular(fs, u) && Data(fs, u) == LeftBy(log, u, fs0) && Rewritten(log, u)
    case GetFlock(u, _, _) => u in fs
    case GetStat(u, _, _) => u in fs && Origin(log, orphans, fs0, u)
    case GetSend(u, _, _, size, sent) =>
      && IsRegular(fs, u) && Origin(log, orphans, fs0, u)
      && size == |Data(fs, u)| && sent <= Data(fs, u)
    case GetLog(u, _, _, st, sent, complete, locked) =>
      st.Ok? ==>
        && locked && IsRegular(fs, u) && Origin(log, orphans, fs0, u)
        && sent <= Data(fs, u) && (complete <==> sent == Data(fs, u))
    case Reset(e) => ExitOk(fs, log, orphans, fs0, e)
    case Unlock(e) => ExitOk(fs, log, orphans, fs0, e)
    case Notify(e) => ExitOk(fs, log, orphans, fs0, e)
    case _ => true
  }

  ghost predicate ExitOk(fs: map<Uri, Node>, log: seq<Line>, orphans: set<Uri>, fs0: map<Uri, Node>, e: Exit) {
    match e
    case GetFailed(_, _, _, st) => !st.Ok?
    case GetLocked(u, _, _) => u in fs && Origin(log, orphans, fs0, u)
    case PutLocked(u, _) => IsRegular(fs, u) && Data(fs, u) == []
    case _ => true
  }

  /** A log line against the lines before it. */
  ghost predicate LineOk(before: seq<Line>, l: Line, orphans: set<Uri>, fs0: map<Uri, Node>) {
    if l.GetLine? then
      l.st.Ok? ==>
        && l.sent <= LeftBy(before, l.u, fs0)
        && (l.complete <==> l.sent == LeftBy(before, l.u, fs0))
        && Origin(before, orphans, fs0, l.u)
    else
      l.locked ==> l.left == l.body
  }

  /** u was created by the thread in the section and is not locked yet. */
  ghost predicate InTheMaking(s: Server, u: Uri) {
    s.lock.Held? && s.lock.t < |s.pc| &&
    var p := s.pc[s.lock.t];
    (p.PutReopen? || p.PutFlock?) && p.created && p.u == u
  }

  ghost predicate FilesKept(fs: map<Uri, Node>, fs0: map<Uri, Node>) {
    forall u :: u in fs0 ==> u in fs && (IsRegular(fs, u) <==> IsRegular(fs0, u))
  }

  /** Unless a PUT has it locked, a file's content is what the log says. */
  ghost predicate ContentLogged(fs: map<Uri, Node>, ex: map<Uri, nat>, log: seq<Line>, fs0: map<Uri, Node>) {
    forall u :: IsRegular(fs, u) && u !in ex ==> Data(fs, u) == LeftBy(log, u, fs0)
  }

  ghost predicate RewrittenExist(fs: map<Uri, Node>, log: seq<Line>) {
    forall u :: Rewritten(log, u) ==> u in fs
  }

  ghost predicate LogOk(log: seq<Line>, orphans: set<Uri>, fs0: map<Uri, Node>) {
    forall i :: 0 <= i < |log| ==> LineOk(log[..i], log[i], orphans, fs0)
  }

  ghost predicate Originated(s: Server, fs0: map<Uri, Node>) {
    forall u :: u in s.fs && u !in s.ex ==> Origin(s.log, s.orphans, fs0, u) || InTheMaking(s, u)
  }

  ghost predicate FileInv(s: Server, fs0: map<Uri, Node>) {
    && FilesKept(s.fs, fs0)
    && ContentLogged(s.fs, s.ex, s.log, fs0)
    && RewrittenExist(s.fs, s.log)
    && LogOk(s.log, s.orphans, fs0)
    && Originated(s, fs0)
    && forall t :: 0 <= t < |s.pc| ==> FileOk(s.fs, s.log, s.orphans, fs0, s.pc[t])
  }

  /** What others' steps leave of a thread's knowledge: files stay, a file it has locked keeps its
      content and its last PUT line, origins are not lost. */
  lemma KnowledgeStays(fs: map<Uri, Node>, log: seq<Line>, orphans: set<Uri>, fs0: map<Uri, Node>, p: Pc,
                       fs': map<Uri, Node>, log': seq<Line>, orphans': set<Uri>)
    requires FileOk(fs, log, orphans, fs0, p)
    requires forall u :: u in fs ==> u in fs' && IsRegular(fs, u) == IsRegular(fs', u)
    requires p.PutCreate? ==> p.u !in fs'
    requires forall u :: u in fs && (HoldsEx(p, u) || HoldsSh(p, u)) ==>
      Data(fs', u) == Data(fs, u) && LeftBy(log', u, fs0) == LeftBy(log, u, fs0)
    requires forall u :: Rewritten(log, u) ==> Rewritten(log', u)
    requires orphans <= orphans'
    ensures FileOk(fs', log', orphans', fs0, p)
  {
  }

  // What the stepping thread knows after its step.

  lemma CrossKnows(s: Server, fs0: map<Uri, Node>, t: nat, p: Pc)
    requires !InGet(p) && !InPut(p) && !Serving(p) && FileOk(s.fs, s.log, s.orphans, fs0, p)
    ensures var e := CrossEffect(s, p); var s' := Apply(s, t, e.ch);
      FileOk(s'.fs, s'.log, s'.orphans, fs0, e.p)
  {
  }

  lemma GetKnows(s: Server, fs0: map<Uri, Node>, t: nat, p: Pc, c: Choice)
    requires InGet(p) && CanGo(s, p, c) && FileOk(s.fs, s.log, s.orphans, fs0, p)
    requires p.GetFlock? ==> Origin(s.log, s.orphans, fs0, p.u)
    ensures var e := GetEffect(s, p, c); var s' := Apply(s, t, e.ch);
      FileOk(s'.fs, s'.log, s'.orphans, fs0, e.p)
  {
  }

  lemma PutKnows(s: Server, fs0: map<Uri, Node>, t: nat, p: Pc, c: Choice)
    requires InPut(p) && CanGo(s, p, c) && FileOk(s.fs, s.log, s.orphans, fs0, p)
    ensures var e := PutEffect(s, p, c); var s' := Apply(s, t, e.ch);
      FileOk(s'.fs, s'.log, s'.orphans, fs0, e.p)
  {
  }

  lemma Received(d: Content, chunk: Content)
    ensures WriteAt(d, |d|, chunk) == d + chunk
  {
  }

  lemma Sent(d: Content, sent: Content, n: nat)
    requires sent <= d && |sent| + n <= |d|
    ensures sent + Slice(d, |sent|, n) <= d
  {
  }

  lemma ServeKnows(s: Server, fs0: map<Uri, Node>, t: nat, p: Pc, c: Choice)
    requires Serving(p) && CanGo(s, p, c) && FileOk(s.fs, s.log, s.orphans, fs0, p)
    ensures var e := ServeEffect(s, p, c); var s' := Apply(s, t, e.ch);
      FileOk(s'.fs, s'.log, s'.orphans, fs0, e.p)
  {
    match p
    case PutRecv(u, id, got) => if c.Recv? { Received(got, c.chunk); }
    case GetSend(u, id, k, size, sent) => if c.Send? { Sent(Data(s.fs, u), sent, c.n); }
    case PutLog(u, id, st, got, locked) =>
      AppendLine(s.log, PutLine(u, id, st, locked, got, Data(s.fs, u)), u, fs0);
    case _ =>
  }

  /** What a step says about the file its thread changes or logs. */
  ghost predicate FileMove(s: Server, fs0: map<Uri, Node>, p: Pc, ch: Change) {
    match ch
    case Create(u) => p.PutCreate? && u !in s.fs
    case Write(u, _) => HoldsEx(p, u) && IsRegular(s.fs, u)
    case DropEx(u) => Data(s.fs, u) == LeftBy(s.log, u, fs0) && Rewritten(s.log, u)
    case Append(l) =>
      if l.GetLine? then l.st.Ok? ==>
        && HoldsSh(p, l.u) && IsRegular(s.fs, l.u) && Origin(s.log, s.orphans, fs0, l.u)
        && l.sent <= Data(s.fs, l.u) && (l.complete <==> l.sent == Data(s.fs, l.u))
      else l.locked ==>
        && HoldsEx(p, l.u) && IsRegular(s.fs, l.u) && l.left == Data(s.fs, l.u) == l.body
    case _ => true
  }

  lemma EffectFileMove(s: Server, fs0: map<Uri, Node>, p: Pc, c: Choice)
    requires CanGo(s, p, c) && FileOk(s.fs, s.log, s.orphans, fs0, p)
    ensures FileMove(s, fs0, p, EffectOf(s, p, c).ch)
  {
    if InPut(p) { PutFileMove(s, fs0, p, c); }
    else if Serving(p) { ServeFileMove(s, fs0, p, c); }
  }

  lemma PutFileMove(s: Server, fs0: map<Uri, Node>, p: Pc, c: Choice)
    requires InPut(p) && FileOk(s.fs, s.log, s.orphans, fs0, p)
    ensures FileMove(s, fs0, p, PutEffect(s, p, c).ch)
  {
  }

  lemma ServeFileMove(s: Server, fs0: map<Uri, Node>, p: Pc, c: Choice)
    requires Serving(p) && CanGo(s, p, c) && FileOk(s.fs, s.log, s.orphans, fs0, p)
    ensures FileMove(s, fs0, p, ServeEffect(s, p, c).ch)
  {
  }
}
