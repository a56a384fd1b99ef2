/** Transfers: a file is sent, and a body received, in any pieces; and the runs of a PUT and of a GET
    from end to end. */
module ServerTransfers {
  import opened ServerModel
  import opened ServerLocks
  import opened ServerFiles
  import opened ServerAudit
  import opened ServerRuns

  ghost predicate AllIdle(s: Server) {
    0 < |s.pc| && forall t :: 0 <= t < |s.pc| ==> s.pc[t].Idle?
  }

  // Sending.

  function Sum(ns: seq<nat>): nat {
    if ns == [] then 0 else ns[0] + Sum(ns[1..])
  }

  ghost predicate Positive(ns: seq<nat>) {
    forall i :: 0 <= i < |ns| ==> 0 < ns[i]
  }

  /** Thread t sends, ns[0] elements first. */
  function Sends(t: nat, ns: seq<nat>): seq<Action> {
    if ns == [] then [] else [Go(t, Send(ns[0]))] + Sends(t, ns[1..])
  }

  lemma SendStep(s: Server, t: nat, u: Uri, id: int, k: nat, d: Content, m: nat, n: nat)
    requires t < |s.pc| && IsRegular(s.fs, u) && d == Data(s.fs, u) && 0 < n && m + n <= |d|
    requires s.pc[t] == GetSend(u, id, k, |d|, d[..m])
    ensures Enabled(s, Go(t, Send(n)))
    ensures Do(s, Go(t, Send(n))) == Goto(s, t, GetSend(u, id, k, |d|, d[..m + n]))
  {
    assert d[..m] + Slice(d, m, n) == d[..m + n];
  }

  lemma {:induction false} SendAll(s: Server, t: nat, u: Uri, id: int, k: nat, d: Content, m: nat, ns: seq<nat>)
    requires t < |s.pc| && IsRegular(s.fs, u) && d == Data(s.fs, u) && Positive(ns) && m + Sum(ns) == |d|
    requires s.pc[t] == GetSend(u, id, k, |d|, d[..m])
    ensures Leads(s, Sends(t, ns), Goto(s, t, GetSend(u, id, k, |d|, d)))
    decreases |ns|
  {
    if ns == [] {
      assert d[..m] == d;
      assert s.pc[t := s.pc[t]] == s.pc;
    } else {
      SendStep(s, t, u, id, k, d, m, ns[0]);
      var s1 := Goto(s, t, GetSend(u, id, k, |d|, d[..m + ns[0]]));
      assert Positive(ns[1..]);
      SendAll(s1, t, u, id, k, d, m + ns[0], ns[1..]);
      One(s, Go(t, Send(ns[0])));
      Chain(s, [Go(t, Send(ns[0]))], s1, Sends(t, ns[1..]), Goto(s1, t, GetSend(u, id, k, |d|, d)));
      assert Goto(s1, t, GetSend(u, id, k, |d|, d)).pc == Goto(s, t, GetSend(u, id, k, |d|, d)).pc;
    }
  }

  lemma EndSending(s: Server, t: nat, u: Uri, id: int, k: nat, d: Content)
    requires t < |s.pc| && s.pc[t] == GetSend(u, id, k, |d|, d)
    ensures Enabled(s, Go(t, End(Ok)))
    ensures Do(s, Go(t, End(Ok))) == Goto(s, t, GetLog(u, id, k, Ok, d, true, true))
  {
  }

  lemma LogGet(s: Server, t: nat, u: Uri, id: int, k: nat, d: Content)
    requires t < |s.pc| && s.pc[t] == GetLog(u, id, k, Ok, d, true, true)
    ensures Enabled(s, Go(t, Plain)) && Do(s, Go(t, Plain)).log == s.log + [GetLine(u, id, Ok, k, d, true)]
  {
  }

  /** What is left of the file, sent in the pieces ns, the end of the sending, and the log line. */
  function SendRest(t: nat, ns: seq<nat>): seq<Action> {
    Sends(t, ns) + ([Go(t, End(Ok))] + [Go(t, Plain)])
  }

  lemma SendWhole(s: Server, t: nat, u: Uri, id: int, k: nat, d: Content, m: nat, ns: seq<nat>) returns (s': Server)
    requires t < |s.pc| && IsRegular(s.fs, u) && d == Data(s.fs, u) && Positive(ns) && m + Sum(ns) == |d|
    requires s.pc[t] == GetSend(u, id, k, |d|, d[..m])
    ensures Leads(s, SendRest(t, ns), s') && s'.log == s.log + [GetLine(u, id, Ok, k, d, true)]
  {
    var end, go := Go(t, End(Ok)), Go(t, Plain);
    var s1 := Goto(s, t, GetSend(u, id, k, |d|, d));
    SendAll(s, t, u, id, k, d, m, ns);
    EndSending(s1, t, u, id, k, d);
    LogGet(Do(s1, end), t, u, id, k, d);
    var acts := Two(s1, end, go);
    s' := Do(Do(s1, end), go);
    Chain(s, Sends(t, ns), s1, acts, s');
  }

  // Receiving.

  function Joined(chunks: seq<Content>): Content {
    if chunks == [] then [] else chunks[0] + Joined(chunks[1..])
  }

  ghost predicate NoneEmpty(chunks: seq<Content>) {
    forall i :: 0 <= i < |chunks| ==> chunks[i] != []
  }

  function Recvs(t: nat, chunks: seq<Content>): seq<Action> {
    if chunks == [] then [] else [Go(t, Recv(chunks[0]))] + Recvs(t, chunks[1..])
  }

  /** The server after thread t, receiving a body for the regular file u, has got d. */
  function Filled(s: Server, t: nat, u: Uri, id: int, d: Content): Server
    requires t < |s.pc| && IsRegular(s.fs, u)
  {
    Goto(s.(fs := s.fs[u := s.fs[u].(data := d)]), t, PutRecv(u, id, d))
  }

  lemma RecvStep(s: Server, t: nat, u: Uri, id: int, got: Content, chunk: Content)
    requires t < |s.pc| && IsRegular(s.fs, u) && Data(s.fs, u) == got && chunk != []
    requires s.pc[t] == PutRecv(u, id, got)
    ensures Enabled(s, Go(t, Recv(chunk))) && Do(s, Go(t, Recv(chunk))) == Filled(s, t, u, id, got + chunk)
  {
    assert WriteAt(got, |got|, chunk) == got + chunk;
  }

  lemma FilledAlready(s: Server, t: nat, u: Uri, id: int)
    requires t < |s.pc| && IsRegular(s.fs, u) && s.pc[t] == PutRecv(u, id, Data(s.fs, u))
    ensures Filled(s, t, u, id, Data(s.fs, u)) == s
  {
    assert s.fs[u := s.fs[u].(data := Data(s.fs, u))] == s.fs;
    assert s.pc[t := s.pc[t]] == s.pc;
  }

  lemma FilledTwice(s: Server, t: nat, u: Uri, id: int, d: Content, d': Content)
    requires t < |s.pc| && IsRegular(s.fs, u)
    ensures Filled(Filled(s, t, u, id, d), t, u, id, d') == Filled(s, t, u, id, d')
  {
    var s1 := Filled(s, t, u, id, d);
    assert s1.fs[u := s1.fs[u].(data := d')] == s.fs[u := s.fs[u].(data := d')];
    assert s1.pc[t := PutRecv(u, id, d')] == s.pc[t := PutRecv(u, id, d')];
  }

  lemma {:induction false} RecvAll(s: Server, t: nat, u: Uri, id: int, got: Content, chunks: seq<Content>)
    requires t < |s.pc| && IsRegular(s.fs, u) && Data(s.fs, u) == got && NoneEmpty(chunks)
    requires s.pc[t] == PutRecv(u, id, got)
    ensures Leads(s, Recvs(t, chunks), Filled(s, t, u, id, got + Joined(chunks)))
    decreases |chunks|
  {
    if chunks == [] {
      assert got + [] == got;
      FilledAlready(s, t, u, id);
    } else {
      var got' := got + chunks[0];
      var s1 := Filled(s, t, u, id, got');
      RecvStep(s, t, u, id, got, chunks[0]);
      assert NoneEmpty(chunks[1..]);
      RecvAll(s1, t, u, id, got', chunks[1..]);
      One(s, Go(t, Recv(chunks[0])));
      assert got' + Joined(chunks[1..]) == got + Joined(chunks);
      FilledTwice(s, t, u, id, got', got + Joined(chunks));
      Chain(s, [Go(t, Recv(chunks[0]))], s1, Recvs(t, chunks[1..]), Filled(s, t, u, id, got + Joined(chunks)));
    }
  }

  lemma EndReceiving(s: Server, t: nat, u: Uri, id: int, got: Content)
    requires t < |s.pc| && s.pc[t] == PutRecv(u, id, got)
    ensures Enabled(s, Go(t, End(Ok))) && Do(s, Go(t, End(Ok))) == Goto(s, t, PutLog(u, id, Ok, got, true))
  {
  }

  lemma LogPutLine(s: Server, t: nat, u: Uri, id: int, got: Content)
    requires t < |s.pc| && s.pc[t] == PutLog(u, id, Ok, got, true) && Data(s.fs, u) == got
    ensures Enabled(s, Go(t, Plain))
    ensures Do(s, Go(t, Plain)) == Goto(s.(log := s.log + [PutLine(u, id, Ok, true, got, got)]), t, PutClose(u, true))
  {
  }

  /** The rest of the body in the pieces chunks, its end, and the log line. */
  function ReceiveRest(t: nat, chunks: seq<Content>): seq<Action> {
    Recvs(t, chunks) + ([Go(t, End(Ok))] + [Go(t, Plain)])
  }

  /** The server after thread t has received d for u and logged it. */
  function Delivered(s: Server, t: nat, u: Uri, id: int, d: Content): Server
    requires t < |s.pc| && IsRegular(s.fs, u)
  {
    var f := Filled(s, t, u, id, d);
    Goto(f.(log := s.log + [PutLine(u, id, Ok, true, d, d)]), t, PutClose(u, true))
  }

  lemma ReceiveWhole(s: Server, t: nat, u: Uri, id: int, got: Content, chunks: seq<Content>)
    requires t < |s.pc| && IsRegular(s.fs, u) && Data(s.fs, u) == got && NoneEmpty(chunks)
    requires s.pc[t] == PutRecv(u, id, got)
    ensures Leads(s, ReceiveRest(t, chunks), Delivered(s, t, u, id, got + Joined(chunks)))
  {
    var d, end, go := got + Joined(chunks), Go(t, End(Ok)), Go(t, Plain);
    var s1 := Filled(s, t, u, id, d);
    RecvAll(s, t, u, id, got, chunks);
    EndReceiving(s1, t, u, id, d);
    LogPutLine(Do(s1, end), t, u, id, d);
    var acts := Two(s1, end, go);
    assert Do(Do(s1, end), go).pc == Delivered(s, t, u, id, d).pc;
    Chain(s, Recvs(t, chunks), s1, acts, Delivered(s, t, u, id, d));
  }

  // A PUT, alone, from end to end.

  /** A PUT can open u for writing: it is missing, or a regular file that can be written. */
  ghost predicate Writable(fs: map<Uri, Node>, u: Uri) {
    u in fs ==> fs[u].Regular? && fs[u].writable
  }

  ghost predicate Unshared(sh: set<(Uri, nat)>, u: Uri) {
    forall x :: (u, x) !in sh
  }

  lemma FindFile(s: Server, t: nat, u: Uri, id: int)
    requires Inside(s, t, PutAccess(u, id)) && u in s.fs
    ensures Enabled(s, Go(t, Plain)) && Do(s, Go(t, Plain)) == Goto(s, t, PutReopen(u, id, false))
  {
  }

  /** It is admitted and has its file, new or old. */
  lemma HaveFile(s: Server, t: nat, u: Uri, id: int) returns (acts: seq<Action>, s': Server, created: bool)
    requires Inside(s, t, PutSetId(u, id))
    ensures NoFail(acts)
    ensures Leads(s, acts, s') && Inside(s', t, PutReopen(u, id, created))
    ensures s'.fs == (if u in s.fs then s.fs else s.fs[u := Regular([], true, true)])
    ensures s'.ex == s.ex && s'.sh == s.sh && s'.log == s.log
    ensures s'.reqId == if s.reqId < id then id else s.reqId
  {
    created := u !in s.fs;
    if created {
      acts, s' := CreateNew(s, t, u, id);
    } else {
      var go := Go(t, Plain);
      AdmitPut(s, t, u, id);
      FindFile(Do(s, go), t, u, id);
      acts := Two(s, go, go);
      s' := Do(Do(s, go), go);
    }
  }

  lemma OpenForPut(s: Server, t: nat, u: Uri, id: int, created: bool)
    requires Inside(s, t, PutReopen(u, id, created)) && IsRegular(s.fs, u) && s.fs[u].writable
    ensures Enabled(s, Go(t, Plain)) && Do(s, Go(t, Plain)) == Goto(s, t, PutFlock(u, id, created))
  {
  }

  lemma FlockForPut(s: Server, t: nat, u: Uri, id: int, created: bool)
    requires Inside(s, t, PutFlock(u, id, created)) && u !in s.ex && Unshared(s.sh, u)
    ensures Enabled(s, Go(t, Plain))
    ensures Do(s, Go(t, Plain)) == Goto(s.(ex := s.ex[u := t]), t, PutTruncate(u, id))
  {
  }

  lemma TruncateForPut(s: Server, t: nat, u: Uri, id: int)
    requires Inside(s, t, PutTruncate(u, id)) && IsRegular(s.fs, u)
    ensures Enabled(s, Go(t, Plain))
    ensures Do(s, Go(t, Plain))
         == Goto(s.(fs := s.fs[u := s.fs[u].(data := [])]), t, Reset(PutLocked(u, id)))
  {
  }

  /** The three steps that open, lock and empty the file. */
  lemma LockFile(s: Server, t: nat, u: Uri, id: int, created: bool) returns (acts: seq<Action>, s': Server)
    requires Inside(s, t, PutReopen(u, id, created)) && IsRegular(s.fs, u) && s.fs[u].writable
    requires u !in s.ex && Unshared(s.sh, u)
    ensures NoFail(acts)
    ensures Leads(s, acts, s') && Inside(s', t, Reset(PutLocked(u, id)))
    ensures s'.fs == s.fs[u := s.fs[u].(data := [])] && s'.ex == s.ex[u := t] && s'.sh == s.sh
    ensures s'.log == s.log && s'.reqId == s.reqId
  {
    var go := Go(t, Plain);
    OpenForPut(s, t, u, id, created);
    FlockForPut(Do(s, go), t, u, id, created);
    TruncateForPut(Do(Do(s, go), go), t, u, id);
    acts := Three(s, go, go, go);
    s' := Third(s, go, go, go);
  }

  /** It takes the section and has its file. */
  lemma PutHasFile(s: Server, t: nat, u: Uri, id: int) returns (acts: seq<Action>, s': Server, created: bool)
    requires Alone(s, t, Idle)
    ensures NoFail(acts)
    ensures Leads(s, acts, s') && Inside(s', t, PutReopen(u, id, created))
    ensures s'.fs == (if u in s.fs then s.fs else s.fs[u := Regular([], true, true)])
    ensures s'.ex == s.ex && s'.sh == s.sh && s'.log == s.log
    ensures s'.reqId == if s.reqId < id then id else s.reqId
  {
    var come, s1 := ComeToSetId(s, t, u, id);
    var have;
    have, s', created := HaveFile(s1, t, u, id);
    acts := come + have;
    Chain(s, come, s1, have, s');
  }

  /** It opens, locks and empties the file and leaves the section. */
  lemma LockAndLeave(s: Server, t: nat, u: Uri, id: int, created: bool) returns (acts: seq<Action>, s': Server)
    requires Inside(s, t, PutReopen(u, id, created)) && IsRegular(s.fs, u) && s.fs[u].writable
    requires u !in s.ex && Unshared(s.sh, u)
    ensures NoFail(acts)
    ensures Leads(s, acts, s') && Alone(s', t, PutRecv(u, id, []))
    ensures s'.fs == s.fs[u := s.fs[u].(data := [])] && s'.ex == s.ex[u := t] && s'.sh == s.sh
    ensures s'.log == s.log && s'.reqId == s.reqId
  {
    var lock, s1 := LockFile(s, t, u, id, created);
    var leave;
    leave, s' := Leave(s1, t, PutLocked(u, id));
    acts := lock + leave;
    Chain(s, lock, s1, leave, s');
  }

  /** The files when u holds d. */
  function Holding(fs: map<Uri, Node>, u: Uri, d: Content): map<Uri, Node>
    requires Writable(fs, u)
  {
    fs[u := if u in fs then fs[u].(data := d) else Regular(d, true, true)]
  }

  lemma HoldingAgain(fs: map<Uri, Node>, fs1: map<Uri, Node>, u: Uri, d: Content)
    requires Writable(fs, u) && fs1 == if u in fs then fs else fs[u := Regular([], true, true)]
    ensures IsRegular(fs1, u) && fs1[u].writable && fs1[u := fs1[u].(data := d)] == Holding(fs, u, d)
  {
  }

  lemma HoldingNext(fs: map<Uri, Node>, u: Uri, d: Content, d': Content)
    requires Writable(fs, u)
    ensures var fs1 := Holding(fs, u, d);
      IsRegular(fs1, u) && fs1[u].data == d && fs1[u := fs1[u].(data := d')] == Holding(fs, u, d')
  {
  }

  lemma PutEnters(s: Server, t: nat, u: Uri, id: int) returns (acts: seq<Action>, s': Server)
    requires Alone(s, t, Idle) && Writable(s.fs, u) && u !in s.ex && Unshared(s.sh, u)
    ensures NoFail(acts)
    ensures Leads(s, acts, s') && Alone(s', t, PutRecv(u, id, []))
    ensures s'.fs == Holding(s.fs, u, []) && s'.ex == s.ex[u := t] && s'.sh == s.sh
    ensures s'.log == s.log && s'.reqId == if s.reqId < id then id else s.reqId
  {
    var have, s1, created := PutHasFile(s, t, u, id);
    HoldingAgain(s.fs, s1.fs, u, []);
    var lock;
    lock, s' := LockAndLeave(s1, t, u, id, created);
    acts := have + lock;
    Chain(s, have, s1, lock, s');
  }

  lemma CloseLocked(s: Server, t: nat, u: Uri)
    requires t < |s.pc| && s.pc[t] == PutClose(u, true)
    ensures Enabled(s, Go(t, Plain)) && Do(s, Go(t, Plain)) == Goto(s.(ex := s.ex - {u}), t, Idle)
  {
  }

  lemma NoFailRest(t: nat, chunks: seq<Content>)
    ensures NoFail(ReceiveRest(t, chunks))
  {
    RecvsNoFail(t, chunks);
  }

  lemma {:induction false} RecvsNoFail(t: nat, chunks: seq<Content>)
    ensures NoFail(Recvs(t, chunks))
  {
    if chunks != [] { RecvsNoFail(t, chunks[1..]); }
  }

  /** The receiving and the close. */
  lemma PutDelivers(s: Server, t: nat, u: Uri, id: int, chunks: seq<Content>) returns (acts: seq<Action>, s': Server)
    requires Alone(s, t, PutRecv(u, id, [])) && IsRegular(s.fs, u) && Data(s.fs, u) == [] && NoneEmpty(chunks)
    ensures NoFail(acts)
    ensures Leads(s, acts, s') && Alone(s', t, Idle)
    ensures s'.log == s.log + [PutLine(u, id, Ok, true, Joined(chunks), Joined(chunks))]
    ensures s'.fs == s.fs[u := s.fs[u].(data := Joined(chunks))]
    ensures s'.ex == s.ex - {u} && s'.sh == s.sh && s'.reqId == s.reqId
  {
    var go, s1 := Go(t, Plain), Delivered(s, t, u, id, Joined(chunks));
    assert [] + Joined(chunks) == Joined(chunks);
    ReceiveWhole(s, t, u, id, [], chunks);
    NoFailRest(t, chunks);
    CloseLocked(s1, t, u);
    acts, s' := ReceiveRest(t, chunks) + [go], Do(s1, go);
    Then(s, ReceiveRest(t, chunks), s1, go);
  }

  /** A PUT of a file nobody has locked, alone, its body arriving in any pieces: it is answered 200, and
      the file and the log line hold the body. */
  lemma PutWhole(s: Server, t: nat, u: Uri, id: int, chunks: seq<Content>) returns (acts: seq<Action>, s': Server)
    requires Alone(s, t, Idle) && Writable(s.fs, u) && u !in s.ex && Unshared(s.sh, u) && NoneEmpty(chunks)
    ensures NoFail(acts)
    ensures Leads(s, acts, s') && Alone(s', t, Idle)
    ensures s'.log == s.log + [PutLine(u, id, Ok, true, Joined(chunks), Joined(chunks))]
    ensures s'.fs == Holding(s.fs, u, Joined(chunks))
    ensures s'.ex == s.ex && s'.sh == s.sh && s'.reqId == if s.reqId < id then id else s.reqId
  {
    var enter, s1 := PutEnters(s, t, u, id);
    HoldingNext(s.fs, u, [], Joined(chunks));
    var deliver;
    deliver, s' := PutDelivers(s1, t, u, id, chunks);
    acts := enter + deliver;
    Chain(s, enter, s1, deliver, s');
    assert s.ex[u := t] - {u} == s.ex;
  }

  // A GET, alone, from end to end.

  /** The section of a GET that finds u and locks it. */
  lemma OpenAndLock(s: Server, t: nat, u: Uri, id: int) returns (acts: seq<Action>, s': Server, k: nat)
    requires Inside(s, t, GetCheck(u, id)) && IsRegular(s.fs, u) && s.fs[u].readable && u !in s.ex
    ensures NoFail(acts)
    ensures Leads(s, acts, s') && Inside(s', t, Reset(GetLocked(u, id, k)))
    ensures s'.fs == s.fs && s'.log == s.log
  {
    var admit, s1, k' := AdmitGet(s, t, u, id);
    k := k';
    var go := Go(t, Plain);
    OpenFile(s1, t, u, id, k);
    FlockFile(Do(s1, go), t, u, id, k);
    var lock := Two(s1, go, go);
    s' := Do(Do(s1, go), go);
    acts := admit + lock;
    Chain(s, admit, s1, lock, s');
  }

  lemma OpenFile(s: Server, t: nat, u: Uri, id: int, k: nat)
    requires Inside(s, t, GetOpen(u, id, k)) && IsRegular(s.fs, u) && s.fs[u].readable
    ensures Enabled(s, Go(t, Plain)) && Do(s, Go(t, Plain)) == Goto(s, t, GetFlock(u, id, k))
  {
  }

  lemma FlockFile(s: Server, t: nat, u: Uri, id: int, k: nat)
    requires Inside(s, t, GetFlock(u, id, k)) && u !in s.ex
    ensures Enabled(s, Go(t, Plain))
    ensures Do(s, Go(t, Plain)) == Goto(s.(sh := s.sh + {(u, t)}), t, Reset(GetLocked(u, id, k)))
  {
  }

  lemma GetLocks(s: Server, t: nat, u: Uri, id: int) returns (acts: seq<Action>, s': Server, k: nat)
    requires Alone(s, t, Idle) && IsRegular(s.fs, u) && s.fs[u].readable && u !in s.ex
    ensures NoFail(acts)
    ensures Leads(s, acts, s') && Inside(s', t, Reset(GetLocked(u, id, k))) && s'.fs == s.fs && s'.log == s.log
  {
    var come, s1 := ComeToCheck(s, t, u, id);
    var open;
    open, s', k := OpenAndLock(s1, t, u, id);
    acts := come + open;
    Chain(s, come, s1, open, s');
  }

  lemma StatFile(s: Server, t: nat, u: Uri, id: int, k: nat)
    requires t < |s.pc| && s.pc[t] == GetStat(u, id, k) && IsRegular(s.fs, u)
    ensures Enabled(s, Go(t, Plain))
    ensures Do(s, Go(t, Plain)) == Goto(s, t, GetSend(u, id, k, |Data(s.fs, u)|, []))
  {
  }

  lemma {:induction false} SendsNoFail(t: nat, ns: seq<nat>)
    ensures NoFail(Sends(t, ns))
  {
    if ns != [] { SendsNoFail(t, ns[1..]); }
  }

  /** A GET of a file that can be read and nobody writes, alone, sent in any pieces: it is answered 200
      and sends the whole content. */
  lemma GetWhole(s: Server, t: nat, u: Uri, id: int, ns: seq<nat>) returns (acts: seq<Action>, s': Server, k: nat)
    requires Alone(s, t, Idle) && IsRegular(s.fs, u) && s.fs[u].readable && u !in s.ex
    requires Positive(ns) && Sum(ns) == |Data(s.fs, u)|
    ensures NoFail(acts)
    ensures Leads(s, acts, s') && s'.log == s.log + [GetLine(u, id, Ok, k, Data(s.fs, u), true)]
  {
    var d := Data(s.fs, u);
    var start, s1, k' := GetStarts(s, t, u, id);
    k := k';
    assert d[..0] == [];
    s' := SendWhole(s1, t, u, id, k, d, 0, ns);
    SendsNoFail(t, ns);
    acts := start + SendRest(t, ns);
    Chain(s, start, s1, SendRest(t, ns), s');
  }

  /** The GET up to the first piece it sends. */
  lemma GetStarts(s: Server, t: nat, u: Uri, id: int) returns (acts: seq<Action>, s': Server, k: nat)
    requires Alone(s, t, Idle) && IsRegular(s.fs, u) && s.fs[u].readable && u !in s.ex
    ensures NoFail(acts)
    ensures Leads(s, acts, s') && Alone(s', t, GetSend(u, id, k, |Data(s.fs, u)|, []))
    ensures s'.fs == s.fs && s'.log == s.log
  {
    var go := Go(t, Plain);
    var lock, s1, k' := GetLocks(s, t, u, id);
    k := k';
    var leave, s2 := Leave(s1, t, GetLocked(u, id, k));
    Chain(s, lock, s1, leave, s2);
    StatFile(s2, t, u, id, k);
    acts, s' := lock + leave + [go], Do(s2, go);
    Then(s, lock + leave, s2, go);
  }

  // From every reachable state.

  /** Whatever else goes on: a thread that is sending a file can be let send the rest of it in any pieces,
      and then logs a 200 that sent the whole content. */
  lemma ServeWhole(s: Server, fs0: map<Uri, Node>, before: seq<Action>, s': Server, t: nat, ns: seq<nat>)
    returns (s'': Server)
    requires Start(s, fs0) && Runs(s, before) && s' == After(s, before)
    requires t < |s'.pc| && s'.pc[t].GetSend? && Positive(ns) && |s'.pc[t].sent| + Sum(ns) == s'.pc[t].size
    ensures Leads(s', SendRest(t, ns), s'')
    ensures var p := s'.pc[t]; var content := Data(s'.fs, p.u);
      && p.size == |content| && s''.log == s'.log + [GetLine(p.u, p.id, Ok, p.ticket, content, true)]
  {
    ReachableSteady(s, fs0, before);
    var p := s'.pc[t];
    assert FileOk(s'.fs, s'.log, s'.orphans, fs0, p);
    s'' := SendWhole(s', t, p.u, p.id, p.ticket, Data(s'.fs, p.u), |p.sent|, ns);
  }

  /** And a thread that is receiving a body can be given the rest of it in any pieces, and then has stored
      and logged all of it. */
  lemma StoreWhole(s: Server, fs0: map<Uri, Node>, before: seq<Action>, s': Server, t: nat, chunks: seq<Content>)
    returns (s'': Server)
    requires Start(s, fs0) && Runs(s, before) && s' == After(s, before)
    requires t < |s'.pc| && s'.pc[t].PutRecv? && NoneEmpty(chunks)
    ensures Leads(s', ReceiveRest(t, chunks), s'')
    ensures var p := s'.pc[t]; var body := p.got + Joined(chunks);
      && Data(s''.fs, p.u) == body && s''.log == s'.log + [PutLine(p.u, p.id, Ok, true, body, body)]
  {
    ReachableSteady(s, fs0, before);
    var p := s'.pc[t];
    assert FileOk(s'.fs, s'.log, s'.orphans, fs0, p);
    ReceiveWhole(s', t, p.u, p.id, p.got, chunks);
    s'' := Delivered(s', t, p.u, p.id, p.got + Joined(chunks));
  }

  lemma IdleUnlocked(s: Server, u: Uri)
    requires LockInv(s) && FlockInv(s) && AllIdle(s)
    ensures u !in s.ex && Unshared(s.sh, u) && Alone(s, 0, Idle)
  {
    HoldersBusy(s);
    assert forall x: nat :: x < |s.pc| ==> !HoldsSh(s.pc[x], u);
    assert s.lock.Free?;
  }

  /** The round trip. From every reachable state without a request in flight, for a file that is missing or
      regular, readable and writable: a PUT whose body arrives in any pieces and a GET sent in any
      pieces are both answered 200, and the GET sends the body. */
  lemma PutThenGet(s: Server, fs0: map<Uri, Node>, before: seq<Action>, s': Server, u: Uri, id: int, id': int,
                   chunks: seq<Content>, ns: seq<nat>)
    returns (acts: seq<Action>, s'': Server, k: nat)
    requires Start(s, fs0) && Runs(s, before) && s' == After(s, before) && AllIdle(s')
    requires u in s'.fs ==> s'.fs[u].Regular? && s'.fs[u].readable && s'.fs[u].writable
    requires NoneEmpty(chunks) && Positive(ns) && Sum(ns) == |Joined(chunks)|
    ensures NoFail(acts) && Leads(s', acts, s'')
    ensures s''.log == s'.log
      + [PutLine(u, id, Ok, true, Joined(chunks), Joined(chunks)), GetLine(u, id', Ok, k, Joined(chunks), true)]
  {
    ReachableSteady(s, fs0, before);
    IdleUnlocked(s', u);
    var put, s1 := PutWhole(s', 0, u, id, chunks);
    var get;
    get, s'', k := GetWhole(s1, 0, u, id', ns);
    acts := put + get;
    Chain(s', put, s1, get, s'');
  }
}
