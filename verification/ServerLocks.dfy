/** creation_lock, creating and the file locks: who holds what, and why some thread can always go on. */
module ServerLocks {
  import opened ServerModel

  /** The states that hold creation_lock. */
  predicate InSection(p: Pc) {
    p.Test? || p.Claim? || InGet(p) || InPut(p) || p.Reset? || p.Unlock?
  }

  /** Of these, the states in which the thread has set creating and not reset it. */
  predicate Claimed(p: Pc) {
    InGet(p) || InPut(p) || p.Reset?
  }

  /** creation_lock has one holder; creating is true exactly while that holder has claimed the
      section; and nobody sleeps on creation_waiting. */
  ghost predicate LockInv(s: Server) {
    && (forall t :: 0 <= t < |s.pc| ==> (InSection(s.pc[t]) <==> s.lock == Held(t)))
    && (s.lock.Held? ==> s.lock.t < |s.pc|)
    && (s.creating <==> s.lock.Held? && Claimed(s.pc[s.lock.t]))
    && (forall t :: 0 <= t < |s.pc| ==> !s.pc[t].Asleep? && !s.pc[t].Woken?)
  }

  /** What a change of the lock or the flag says about the thread that makes it. */
  ghost predicate LockMove(p: Pc, e: Effect, creating: bool) {
    match e.ch
    case TakeLock => !InSection(p) && InSection(e.p) && !Claimed(e.p) && !e.p.Asleep? && !e.p.Woken?
    case DropLock => InSection(p) && !Claimed(p) && !InSection(e.p) && !e.p.Woken? && (e.p.Asleep? ==> creating)
    case SetCreating(b) =>
      InSection(p) && InSection(e.p) && Claimed(p) == !b && Claimed(e.p) == b && !e.p.Asleep? && !e.p.Woken?
    case _ =>
      InSection(p) == InSection(e.p) && Claimed(p) == Claimed(e.p) && !e.p.Asleep? && !e.p.Woken?
  }

  lemma EffectLockMove(s: Server, p: Pc, c: Choice)
    requires CanGo(s, p, c)
    ensures LockMove(p, EffectOf(s, p, c), s.creating)
  {
    if InGet(p) { GetLockMove(s, p, c); }
    else if InPut(p) { PutLockMove(s, p, c); }
    else if Serving(p) { ServeLockMove(s, p, c); }
  }

  lemma GetLockMove(s: Server, p: Pc, c: Choice)
    requires InGet(p)
    ensures LockMove(p, GetEffect(s, p, c), s.creating)
  {
  }

  lemma PutLockMove(s: Server, p: Pc, c: Choice)
    requires InPut(p)
    ensures LockMove(p, PutEffect(s, p, c), s.creating)
  {
  }

  lemma ServeLockMove(s: Server, p: Pc, c: Choice)
    requires Serving(p)
    ensures LockMove(p, ServeEffect(s, p, c), s.creating)
  {
  }

  lemma LockMoveKeepsLock(s: Server, t: nat, e: Effect)
    requires LockInv(s) && t < |s.pc| && LockMove(s.pc[t], e, s.creating)
    requires e.ch.TakeLock? ==> s.lock.Free?
    ensures LockInv(Goto(Apply(s, t, e.ch), t, e.p))
  {
    HolderMoves(s, t, e);
    ClaimMoves(s, t, e);
    NobodySleeps(s, t, e);
  }

  lemma ClaimMoves(s: Server, t: nat, e: Effect)
    requires LockInv(s) && t < |s.pc| && LockMove(s.pc[t], e, s.creating)
    requires e.ch.TakeLock? ==> s.lock.Free?
    ensures var s' := Apply(s, t, e.ch);
      s'.creating <==> s'.lock.Held? && s'.lock.t < |s.pc| && Claimed(s.pc[t := e.p][s'.lock.t])
  {
  }

  lemma NobodySleeps(s: Server, t: nat, e: Effect)
    requires LockInv(s) && t < |s.pc| && LockMove(s.pc[t], e, s.creating)
    ensures !e.p.Asleep? && !e.p.Woken?
  {
  }

  lemma HolderMoves(s: Server, t: nat, e: Effect)
    requires LockInv(s) && t < |s.pc| && LockMove(s.pc[t], e, s.creating)
    requires e.ch.TakeLock? ==> s.lock.Free?
    ensures var lock := Apply(s, t, e.ch).lock;
      && (InSection(e.p) <==> lock == Held(t))
      && (lock.Held? ==> lock.t < |s.pc|)
      && forall x :: 0 <= x < |s.pc| && x != t ==> (InSection(s.pc[x]) <==> lock == Held(x))
  {
  }

  /** With nobody asleep a signal wakes nobody. */
  lemma SignalIsLocal(s: Server, t: nat, w: set<nat>)
    requires LockInv(s) && Enabled(s, Signal(t, w))
    ensures Do(s, Signal(t, w)) == Goto(s, t, AfterExit(s.pc[t].e))
  {
    var s' := Goto(s, t, AfterExit(s.pc[t].e));
    assert forall i :: 0 <= i < |s.pc| ==> !s'.pc[i].Asleep?;
    assert WakeAll(s'.pc, w) == s'.pc;
  }

  /** A step that is no Go leaves everything but the program states alone. */
  lemma OnlyMoves(s: Server, a: Action)
    requires Enabled(s, a) && !a.Go?
    ensures Do(s, a) == s.(pc := Do(s, a).pc)
  {
  }

  /** A step that is no Go begins a request or ends the signal, outside all shared state. */
  lemma LocalStep(s: Server, a: Action) returns (p: Pc)
    requires LockInv(s) && Enabled(s, a) && !a.Go?
    ensures Do(s, a) == Goto(s, a.t, p)
    ensures (s.pc[a.t].Idle? && p.Enter?) || (s.pc[a.t].Notify? && p == AfterExit(s.pc[a.t].e))
  {
    match a
    case BeginGet(_, u, id) => p := Enter(GetFirst(u, id));
    case BeginPut(_, u, id) => p := Enter(PutFirst(u, id));
    case Signal(t, w) =>
      SignalIsLocal(s, t, w);
      p := AfterExit(s.pc[t].e);
    case Spurious(t) => assert false;
  }

  lemma DoKeepsLock(s: Server, a: Action)
    requires LockInv(s) && Enabled(s, a)
    ensures LockInv(Do(s, a))
  {
    if a.Go? {
      GoKeepsLock(s, a.t, a.c);
    } else {
      var p := LocalStep(s, a);
      LockMoveKeepsLock(s, a.t, Effect(p, Nothing));
    }
  }

  lemma GoKeepsLock(s: Server, t: nat, c: Choice)
    requires LockInv(s) && t < |s.pc| && CanGo(s, s.pc[t], c)
    ensures LockInv(Do(s, Go(t, c)))
  {
    EffectLockMove(s, s.pc[t], c);
    TakesFree(s, s.pc[t], c);
    LockMoveKeepsLock(s, t, EffectOf(s, s.pc[t], c));
  }

  lemma TakesFree(s: Server, p: Pc, c: Choice)
    requires CanGo(s, p, c)
    ensures EffectOf(s, p, c).ch.TakeLock? ==> s.lock.Free?
  {
  }

  /** The state holds file u's exclusive lock. */
  predicate HoldsEx(p: Pc, u: Uri) {
    match p
    case PutTruncate(f, _) => f == u
    case Reset(e) => e.PutLocked? && e.u == u
    case Unlock(e) => e.PutLocked? && e.u == u
    case Notify(e) => e.PutLocked? && e.u == u
    case PutRecv(f, _, _) => f == u
    case PutLog(f, _, _, _, locked) => locked && f == u
    case PutClose(f, locked) => locked && f == u
    case _ => false
  }

  /** The state holds a shared lock on file u. */
  predicate HoldsSh(p: Pc, u: Uri) {
    match p
    case Reset(e) => e.GetLocked? && e.u == u
    case Unlock(e) => e.GetLocked? && e.u == u
    case Notify(e) => e.GetLocked? && e.u == u
    case GetStat(f, _, _) => f == u
    case GetSend(f, _, _, _, _) => f == u
    case GetLog(f, _, _, _, _, _, locked) => locked && f == u
    case GetClose(f, locked) => locked && f == u
    case _ => false
  }

  ghost predicate ExTable(pc: seq<Pc>, ex: map<Uri, nat>) {
    && (forall u, t :: 0 <= t < |pc| ==> (HoldsEx(pc[t], u) <==> u in ex && ex[u] == t))
    && (forall u :: u in ex ==> ex[u] < |pc|)
  }

  ghost predicate ShTable(pc: seq<Pc>, sh: set<(Uri, nat)>) {
    && (forall u, t: nat :: t < |pc| ==> (HoldsSh(pc[t], u) <==> (u, t) in sh))
    && (forall u, t :: (u, t) in sh ==> t < |pc|)
  }

  /** The lock tables say what the threads hold, and no file is locked both ways. */
  ghost predicate FlockInv(s: Server) {
    && ExTable(s.pc, s.ex)
    && ShTable(s.pc, s.sh)
    && (forall u, t :: (u, t) in s.sh ==> u !in s.ex)
  }

  /** What a step says about the locks its thread holds. */
  ghost predicate FlockMove(p: Pc, e: Effect) {
    && (forall u :: HoldsEx(e.p, u) <==>
         if e.ch == AddEx(u) then true else if e.ch == DropEx(u) then false else HoldsEx(p, u))
    && (forall u :: HoldsSh(e.p, u) <==>
         if e.ch == AddSh(u) then true else if e.ch == DropSh(u) then false else HoldsSh(p, u))
    && (e.ch.DropEx? ==> HoldsEx(p, e.ch.u))
  }

  lemma GetFlockMove(s: Server, p: Pc, c: Choice)
    requires InGet(p)
    ensures FlockMove(p, GetEffect(s, p, c))
  {
  }

  lemma PutFlockMove(s: Server, p: Pc, c: Choice)
    requires InPut(p)
    ensures FlockMove(p, PutEffect(s, p, c))
  {
  }

  lemma ServeFlockMove(s: Server, p: Pc, c: Choice)
    requires Serving(p)
    ensures FlockMove(p, ServeEffect(s, p, c))
  {
  }

  lemma EffectFlockMove(s: Server, p: Pc, c: Choice)
    requires CanGo(s, p, c)
    ensures FlockMove(p, EffectOf(s, p, c))
  {
    if InGet(p) { GetFlockMove(s, p, c); }
    else if InPut(p) { PutFlockMove(s, p, c); }
    else if Serving(p) { ServeFlockMove(s, p, c); }
  }

  lemma LocksFree(s: Server, p: Pc, c: Choice)
    requires CanGo(s, p, c)
    ensures var ch := EffectOf(s, p, c).ch;
      && (ch.AddSh? ==> ch.u !in s.ex)
      && (ch.AddEx? ==> ch.u !in s.ex && !Shared(s, ch.u))
  {
  }

  lemma ExAdd(pc: seq<Pc>, ex: map<Uri, nat>, t: nat, p: Pc, u: Uri)
    requires ExTable(pc, ex) && t < |pc| && u !in ex
    requires forall v :: HoldsEx(p, v) <==> v == u || HoldsEx(pc[t], v)
    ensures ExTable(pc[t := p], ex[u := t])
  {
  }

  lemma ExDrop(pc: seq<Pc>, ex: map<Uri, nat>, t: nat, p: Pc, u: Uri)
    requires ExTable(pc, ex) && t < |pc| && HoldsEx(pc[t], u)
    requires forall v :: HoldsEx(p, v) <==> v != u && HoldsEx(pc[t], v)
    ensures ExTable(pc[t := p], ex - {u})
  {
    assert ex[u] == t;
    var pc', ex' := pc[t := p], ex - {u};
    forall v, x | 0 <= x < |pc| ensures HoldsEx(pc'[x], v) <==> v in ex' && ex'[v] == x {
      assert HoldsEx(pc[x], v) <==> v in ex && ex[v] == x;
    }
  }

  lemma ExKeep(pc: seq<Pc>, ex: map<Uri, nat>, t: nat, p: Pc)
    requires ExTable(pc, ex) && t < |pc|
    requires forall v :: HoldsEx(p, v) <==> HoldsEx(pc[t], v)
    ensures ExTable(pc[t := p], ex)
  {
  }

  lemma ExMove(s: Server, t: nat, e: Effect)
    requires FlockInv(s) && t < |s.pc| && FlockMove(s.pc[t], e)
    requires e.ch.AddEx? ==> e.ch.u !in s.ex
    ensures ExTable(s.pc[t := e.p], Apply(s, t, e.ch).ex)
  {
    if e.ch.AddEx? {
      ExAdd(s.pc, s.ex, t, e.p, e.ch.u);
    } else if e.ch.DropEx? {
      ExDrop(s.pc, s.ex, t, e.p, e.ch.u);
    } else {
      ExKeep(s.pc, s.ex, t, e.p);
      assert Apply(s, t, e.ch).ex == s.ex;
    }
  }

  lemma ShMove(s: Server, t: nat, e: Effect)
    requires FlockInv(s) && t < |s.pc| && FlockMove(s.pc[t], e)
    ensures ShTable(s.pc[t := e.p], Apply(s, t, e.ch).sh)
  {
    var sh' := Apply(s, t, e.ch).sh;
    assert forall u, x :: (u, x) in sh' <==>
      ((u, x) in s.sh && !(e.ch == DropSh(u) && x == t)) || (e.ch == AddSh(u) && x == t);
  }

  lemma FlockMoveKeepsFlocks(s: Server, t: nat, e: Effect)
    requires FlockInv(s) && t < |s.pc| && FlockMove(s.pc[t], e)
    requires e.ch.AddSh? ==> e.ch.u !in s.ex
    requires e.ch.AddEx? ==> e.ch.u !in s.ex && !Shared(s, e.ch.u)
    ensures FlockInv(Goto(Apply(s, t, e.ch), t, e.p))
  {
    ExMove(s, t, e);
    ShMove(s, t, e);
    ModesApart(s, t, e.ch);
  }

  lemma ModesApart(s: Server, t: nat, ch: Change)
    requires FlockInv(s)
    requires ch.AddSh? ==> ch.u !in s.ex
    requires ch.AddEx? ==> ch.u !in s.ex && !Shared(s, ch.u)
    ensures forall u, x :: (u, x) in Apply(s, t, ch).sh ==> u !in Apply(s, t, ch).ex
  {
    match ch
    case AddEx(v) => assert forall x :: (v, x) !in s.sh;
    case _ =>
  }

  lemma DoKeepsFlocks(s: Server, a: Action)
    requires LockInv(s) && FlockInv(s) && Enabled(s, a)
    ensures FlockInv(Do(s, a))
  {
    if a.Go? {
      GoKeepsFlocks(s, a.t, a.c);
    } else {
      var p := LocalStep(s, a);
      FlockMoveKeepsFlocks(s, a.t, Effect(p, Nothing));
    }
  }

  lemma GoKeepsFlocks(s: Server, t: nat, c: Choice)
    requires FlockInv(s) && t < |s.pc| && CanGo(s, s.pc[t], c)
    ensures FlockInv(Do(s, Go(t, c)))
  {
    EffectFlockMove(s, s.pc[t], c);
    LocksFree(s, s.pc[t], c);
    FlockMoveKeepsFlocks(s, t, EffectOf(s, s.pc[t], c));
  }

  /** A file locked exclusively by one thread is not locked by another. */
  lemma HeldAlone(s: Server, t: nat, x: nat, u: Uri)
    requires FlockInv(s) && t < |s.pc| && x < |s.pc| && t != x && HoldsEx(s.pc[t], u)
    ensures !HoldsEx(s.pc[x], u) && !HoldsSh(s.pc[x], u)
  {
    assert s.ex[u] == t;
    assert (u, x) in s.sh ==> u !in s.ex;
  }
}
