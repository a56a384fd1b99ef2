/** The Request-Id rule: Not Found is answered only in turn. */
module ServerIds {
  import opened ServerModel
  import opened ServerLocks
  import opened ServerProgress

  /** id is not positive, or one of the first n admitted requests carried an id at least as large. */
  ghost predicate InTurn(admitted: seq<int>, n: nat, id: int) {
    id <= 0 || exists j :: 0 <= j < n && j < |admitted| && admitted[j] >= id
  }

  /** Ticket k belongs to a request with this id, and a miss would come in turn. */
  ghost predicate Ticket(admitted: seq<int>, k: nat, id: int) {
    k < |admitted| && admitted[k] == id && InTurn(admitted, k, id)
  }

  ghost predicate ExitInTurn(admitted: seq<int>, e: Exit) {
    e.GetFailed? && e.st.NotFound? ==> Ticket(admitted, e.ticket, e.id)
  }

  /** What a thread in state p knows of the admitted requests. */
  ghost predicate IdOk(fs: map<Uri, Node>, reqId: int, admitted: seq<int>, p: Pc) {
    match p
    case GetSetId(u, id) => u in fs || id <= reqId
    case GetOpen(u, id, k) => u in fs || Ticket(admitted, k, id)
    case GetLog(_, id, k, st, _, _, _) => st.NotFound? ==> Ticket(admitted, k, id)
    case Reset(e) => ExitInTurn(admitted, e)
    case Unlock(e) => ExitInTurn(admitted, e)
    case Notify(e) => ExitInTurn(admitted, e)
    case _ => true
  }

  ghost predicate IdInv(s: Server) {
    && InTurn(s.admitted, |s.admitted|, s.reqId)
    && (forall t :: 0 <= t < |s.pc| ==> IdOk(s.fs, s.reqId, s.admitted, s.pc[t]))
    && (forall i :: 0 <= i < |s.log| && s.log[i].GetLine? && s.log[i].st.NotFound? ==>
          Ticket(s.admitted, s.log[i].ticket, s.log[i].id))
  }

  lemma TicketStays(admitted: seq<int>, k: nat, id: int, x: int)
    requires Ticket(admitted, k, id)
    ensures Ticket(admitted + [x], k, id)
  {
    if id > 0 {
      var j :| 0 <= j < k && admitted[j] >= id;
      assert (admitted + [x])[j] >= id;
    }
  }

  lemma Admitted(admitted: seq<int>, reqId: int, id: int)
    requires InTurn(admitted, |admitted|, reqId)
    ensures InTurn(admitted + [id], |admitted| + 1, id)
    ensures InTurn(admitted + [id], |admitted| + 1, reqId)
    ensures id <= reqId ==> Ticket(admitted + [id], |admitted|, id)
  {
    assert (admitted + [id])[|admitted|] == id;
    if reqId > 0 {
      var j :| 0 <= j < |admitted| && admitted[j] >= reqId;
      assert (admitted + [id])[j] >= reqId;
    }
  }

  lemma GetInTurn(s: Server, t: nat, p: Pc, c: Choice)
    requires InGet(p) && IdOk(s.fs, s.reqId, s.admitted, p) && InTurn(s.admitted, |s.admitted|, s.reqId)
    ensures var e := GetEffect(s, p, c); var s' := Apply(s, t, e.ch);
      IdOk(s'.fs, s'.reqId, s'.admitted, e.p) && InTurn(s'.admitted, |s'.admitted|, s'.reqId)
  {
    if p.GetSetId? { Admitted(s.admitted, s.reqId, p.id); }
  }

  lemma PutInTurn(s: Server, t: nat, p: Pc, c: Choice)
    requires InPut(p) && InTurn(s.admitted, |s.admitted|, s.reqId)
    ensures var e := PutEffect(s, p, c); var s' := Apply(s, t, e.ch);
      IdOk(s'.fs, s'.reqId, s'.admitted, e.p) && InTurn(s'.admitted, |s'.admitted|, s'.reqId)
  {
    if p.PutSetId? { Admitted(s.admitted, s.reqId, p.id); }
  }

  lemma ServeInTurn(s: Server, t: nat, p: Pc, c: Choice)
    requires Serving(p) && IdOk(s.fs, s.reqId, s.admitted, p)
    ensures var e := ServeEffect(s, p, c); var s' := Apply(s, t, e.ch);
      IdOk(s'.fs, s'.reqId, s'.admitted, e.p) && s'.admitted == s.admitted && s'.reqId == s.reqId
    ensures var ch := ServeEffect(s, p, c).ch;
      ch.Append? && ch.line.GetLine? && ch.line.st.NotFound? ==> Ticket(s.admitted, ch.line.ticket, ch.line.id)
  {
  }

  lemma CrossInTurn(s: Server, t: nat, p: Pc)
    requires !InGet(p) && !InPut(p) && !Serving(p) && IdOk(s.fs, s.reqId, s.admitted, p)
    ensures var e := CrossEffect(s, p); var s' := Apply(s, t, e.ch);
      IdOk(s'.fs, s'.reqId, s'.admitted, e.p) && s'.admitted == s.admitted && s'.reqId == s.reqId
      && !e.ch.Append?
  {
  }

  lemma StepperInTurn(s: Server, t: nat, c: Choice)
    requires IdInv(s) && t < |s.pc| && CanGo(s, s.pc[t], c)
    ensures var e := EffectOf(s, s.pc[t], c); var s' := Apply(s, t, e.ch);
      && IdOk(s'.fs, s'.reqId, s'.admitted, e.p) && InTurn(s'.admitted, |s'.admitted|, s'.reqId)
      && (e.ch.Append? && e.ch.line.GetLine? && e.ch.line.st.NotFound? ==>
           Ticket(s.admitted, e.ch.line.ticket, e.ch.line.id))
  {
    var p := s.pc[t];
    if InGet(p) { GetInTurn(s, t, p, c); }
    else if InPut(p) { PutInTurn(s, t, p, c); }
    else if Serving(p) { ServeInTurn(s, t, p, c); }
    else { CrossInTurn(s, t, p); }
  }

  /** Admitting another request leaves a waiting thread's knowledge; only the section compares req_id. */
  lemma KnowledgeOnAdmit(fs: map<Uri, Node>, reqId: int, admitted: seq<int>, p: Pc, id: int, reqId': int)
    requires IdOk(fs, reqId, admitted, p) && !p.GetSetId?
    ensures IdOk(fs, reqId', admitted + [id], p)
  {
    match p
    case GetOpen(u, i, k) => if u !in fs { TicketStays(admitted, k, i, id); }
    case GetLog(_, i, k, st, _, _, _) => if st.NotFound? { TicketStays(admitted, k, i, id); }
    case Reset(e) => ExitOnAdmit(admitted, e, id);
    case Unlock(e) => ExitOnAdmit(admitted, e, id);
    case Notify(e) => ExitOnAdmit(admitted, e, id);
    case _ =>
  }

  lemma ExitOnAdmit(admitted: seq<int>, e: Exit, id: int)
    requires ExitInTurn(admitted, e)
    ensures ExitInTurn(admitted + [id], e)
  {
    if e.GetFailed? && e.st.NotFound? { TicketStays(admitted, e.ticket, e.id, id); }
  }

  lemma OthersInTurn(s: Server, t: nat, x: nat, ch: Change)
    requires LockInv(s) && IdInv(s) && t < |s.pc| && x < |s.pc| && t != x
    requires ch.Admit? ==> InSection(s.pc[t])
    ensures var s' := Apply(s, t, ch); IdOk(s'.fs, s'.reqId, s'.admitted, s.pc[x])
  {
    if ch.Admit? {
      KnowledgeOnAdmit(s.fs, s.reqId, s.admitted, s.pc[x], ch.id, ch.reqId);
    }
  }

  lemma LogInTurn(s: Server, t: nat, ch: Change)
    requires IdInv(s)
    requires ch.Append? && ch.line.GetLine? && ch.line.st.NotFound? ==>
      Ticket(s.admitted, ch.line.ticket, ch.line.id)
    ensures var s' := Apply(s, t, ch);
      forall i :: 0 <= i < |s'.log| && s'.log[i].GetLine? && s'.log[i].st.NotFound? ==>
        Ticket(s'.admitted, s'.log[i].ticket, s'.log[i].id)
  {
    if ch.Admit? {
      forall i | 0 <= i < |s.log| && s.log[i].GetLine? && s.log[i].st.NotFound?
        ensures Ticket(s.admitted + [ch.id], s.log[i].ticket, s.log[i].id)
      {
        TicketStays(s.admitted, s.log[i].ticket, s.log[i].id, ch.id);
      }
    }
  }

  lemma AdmitsInside(s: Server, p: Pc, c: Choice)
    ensures EffectOf(s, p, c).ch.Admit? ==> InSection(p)
  {
  }

  /** What the stepping thread and the log know carries over to all. */
  lemma MoveInTurn(s: Server, t: nat, e: Effect)
    requires LockInv(s) && IdInv(s) && t < |s.pc| && (e.ch.Admit? ==> InSection(s.pc[t]))
    requires var s' := Apply(s, t, e.ch);
      IdOk(s'.fs, s'.reqId, s'.admitted, e.p) && InTurn(s'.admitted, |s'.admitted|, s'.reqId)
    requires e.ch.Append? && e.ch.line.GetLine? && e.ch.line.st.NotFound? ==>
      Ticket(s.admitted, e.ch.line.ticket, e.ch.line.id)
    ensures IdInv(Goto(Apply(s, t, e.ch), t, e.p))
  {
    LogInTurn(s, t, e.ch);
    AllInTurn(s, t, e);
  }

  lemma AllInTurn(s: Server, t: nat, e: Effect)
    requires LockInv(s) && IdInv(s) && t < |s.pc| && (e.ch.Admit? ==> InSection(s.pc[t]))
    requires var s' := Apply(s, t, e.ch); IdOk(s'.fs, s'.reqId, s'.admitted, e.p)
    ensures var s' := Goto(Apply(s, t, e.ch), t, e.p);
      forall x :: 0 <= x < |s'.pc| ==> IdOk(s'.fs, s'.reqId, s'.admitted, s'.pc[x])
  {
    var s' := Apply(s, t, e.ch);
    forall x | 0 <= x < |s.pc| && x != t ensures IdOk(s'.fs, s'.reqId, s'.admitted, s.pc[x]) {
      OthersInTurn(s, t, x, e.ch);
    }
  }

  lemma GoInTurn(s: Server, t: nat, c: Choice)
    requires LockInv(s) && IdInv(s) && t < |s.pc| && CanGo(s, s.pc[t], c)
    ensures IdInv(Do(s, Go(t, c)))
  {
    StepperInTurn(s, t, c);
    AdmitsInside(s, s.pc[t], c);
    MoveInTurn(s, t, EffectOf(s, s.pc[t], c));
  }

  lemma {:induction false} RunsInTurn(s: Server, acts: seq<Action>)
    requires LockInv(s) && IdInv(s) && Runs(s, acts)
    ensures IdInv(After(s, acts))
    decreases |acts|
  {
    if acts != [] {
      DoKeepsLock(s, acts[0]);
      DoInTurn(s, acts[0]);
      RunsInTurn(Do(s, acts[0]), acts[1..]);
    }
  }

  lemma DoInTurn(s: Server, a: Action)
    requires LockInv(s) && IdInv(s) && Enabled(s, a)
    ensures IdInv(Do(s, a))
  {
    if a.Go? {
      GoInTurn(s, a.t, a.c);
    } else {
      var p := LocalStep(s, a);
      MoveInTurn(s, a.t, Effect(p, Nothing));
    }
  }

  /** In every run of this server alone, in which no file is ever removed: a GET with a positive id
      that was answered Not Found had an earlier admitted request with an id at least as large.
      (req_id itself may go down: a GET sets it to its own id.) */
  lemma NotFoundInTurn(s: Server, fs0: map<Uri, Node>, acts: seq<Action>, s': Server, i: nat)
    requires Start(s, fs0) && Runs(s, acts) && s' == After(s, acts) && i < |s'.log|
    requires s'.log[i].GetLine? && s'.log[i].st.NotFound? && s'.log[i].id > 0
    ensures s'.log[i].ticket < |s'.admitted| && s'.admitted[s'.log[i].ticket] == s'.log[i].id
    ensures exists j :: 0 <= j < s'.log[i].ticket && s'.admitted[j] >= s'.log[i].id
  {
    StartLocks(s, fs0);
    RunsInTurn(s, acts);
    assert Ticket(s'.admitted, s'.log[i].ticket, s'.log[i].id);
  }

  /** req_id falls in exactly one kind of step: a GET whose id is smaller sets it to its own. A PUT
      leaves it at least at its own id. */
  lemma OnlyGetLowersReqId(s: Server, a: Action)
    requires Enabled(s, a)
    ensures Do(s, a).reqId < s.reqId <==> a.Go? && s.pc[a.t].GetSetId? && s.pc[a.t].id < s.reqId
    ensures a.Go? && s.pc[a.t].GetSetId? ==> Do(s, a).reqId == s.pc[a.t].id
    ensures a.Go? && s.pc[a.t].PutSetId? ==> Do(s, a).reqId >= s.pc[a.t].id
  {
    if a.Go? {
      EffectReqId(s, s.pc[a.t], a.c);
      AppliedReqId(s, a.t, EffectOf(s, s.pc[a.t], a.c));
    } else {
      OnlyMoves(s, a);
    }
  }

  lemma AppliedReqId(s: Server, t: nat, e: Effect)
    requires t < |s.pc|
    ensures Goto(Apply(s, t, e.ch), t, e.p).reqId == if e.ch.Admit? then e.ch.reqId else s.reqId
  {
  }

  lemma EffectReqId(s: Server, p: Pc, c: Choice)
    ensures var ch := EffectOf(s, p, c).ch;
      && (ch.Admit? <==> p.GetSetId? || p.PutSetId?)
      && (p.GetSetId? ==> ch.reqId == p.id)
      && (p.PutSetId? ==> ch.reqId == if s.reqId < p.id then p.id else s.reqId)
  {
    if Serving(p) { ServeReqId(s, p, c); }
  }

  lemma ServeReqId(s: Server, p: Pc, c: Choice)
    requires Serving(p)
    ensures !ServeEffect(s, p, c).ch.Admit?
  {
  }
}
