/** handle_get and handle_put run by any number of worker threads over the same files.

    A step takes one thread from one program state to the next and makes one change at most. Every
    access to creation_lock, creating, req_id, a file, a file lock or the audit log is one step;
    a PUT writes its body and a GET sends the file in as many steps as the client's I/O takes. */
module ServerModel {

  type Uri = string
  type Content = seq<int>

  datatype Node =
    | Regular(data: Content, readable: bool, writable: bool)
    | Directory(readable: bool)

  /** Refused stands for whatever response conn_recv_file made of a failed transfer. */
  datatype Status = Ok | Forbidden | NotFound | InternalError | Refused(code: int)

  /** Why a thread wants creation_lock: its first entry, or another turn of the GET loop. */
  datatype Visit = GetFirst(u: Uri, id: int) | GetAgain(u: Uri, id: int) | PutFirst(u: Uri, id: int)

  /** How a thread leaves the critical section. ticket is its position among the admitted requests. */
  datatype Exit =
    | Retry(u: Uri, id: int)
    | GetFailed(u: Uri, id: int, ticket: nat, st: Status)
    | GetLocked(u: Uri, id: int, ticket: nat)
    | PutFailed(u: Uri, id: int, st: Status)
    | PutLocked(u: Uri, id: int)

  datatype Pc =
    | Idle
    // entering the critical section
    | Enter(v: Visit)
    | Test(v: Visit)
    | Asleep(v: Visit)
    | Woken(v: Visit)
    | Claim(v: Visit)
    // inside, creating being true
    | GetCheck(u: Uri, id: int)
    | GetSetId(u: Uri, id: int)
    | GetOpen(u: Uri, id: int, ticket: nat)
    | GetFlock(u: Uri, id: int, ticket: nat)
    | PutSetId(u: Uri, id: int)
    | PutAccess(u: Uri, id: int)
    | PutCreate(u: Uri, id: int)
    | PutReopen(u: Uri, id: int, created: bool)
    | PutFlock(u: Uri, id: int, created: bool)
    | PutTruncate(u: Uri, id: int)
    // leaving it
    | Reset(e: Exit)
    | Unlock(e: Exit)
    | Notify(e: Exit)
    // serving
    | GetStat(u: Uri, id: int, ticket: nat)
    | GetSend(u: Uri, id: int, ticket: nat, size: nat, sent: Content)
    | GetLog(u: Uri, id: int, ticket: nat, st: Status, sent: Content, complete: bool, locked: bool)
    | GetClose(u: Uri, locked: bool)
    | PutRecv(u: Uri, id: int, got: Content)
    | PutLog(u: Uri, id: int, st: Status, got: Content, locked: bool)
    | PutClose(u: Uri, locked: bool)

  /** One line of the audit log. Beyond what is printed it remembers what was sent; and of a PUT
      whether it had its exclusive lock, the body received and the content the file was left with. */
  datatype Line =
    | GetLine(u: Uri, id: int, st: Status, ticket: nat, sent: Content, complete: bool)
    | PutLine(u: Uri, id: int, st: Status, locked: bool, body: Content, left: Content)

  datatype Owner = Free | Held(t: nat)

  /** ex and sh are the exclusive and shared flocks. admitted lists the ids of the requests that
      have set or compared req_id, in order; orphans the files a PUT created and could not reopen. */
  datatype Server = Server(
    lock: Owner, creating: bool, reqId: int,
    fs: map<Uri, Node>, ex: map<Uri, nat>, sh: set<(Uri, nat)>,
    log: seq<Line>, admitted: seq<int>, orphans: set<Uri>, pc: seq<Pc>)

  /** What the environment decides in a step: nothing, that an open fails for want of a resource,
      how much of the file is sent, what is received, or how the transfer ends. */
  datatype Choice = Plain | Fail | Send(n: nat) | Recv(chunk: Content) | End(st: Status)

  datatype Action =
    | BeginGet(t: nat, u: Uri, id: int)
    | BeginPut(t: nat, u: Uri, id: int)
    | Go(t: nat, c: Choice)
    | Signal(t: nat, woken: set<nat>)
    | Spurious(t: nat)

  function Goto(s: Server, t: nat, p: Pc): Server
    requires t < |s.pc|
  {
    s.(pc := s.pc[t := p])
  }

  predicate IsRegular(fs: map<Uri, Node>, u: Uri) {
    u in fs && fs[u].Regular?
  }

  function Data(fs: map<Uri, Node>, u: Uri): Content {
    if IsRegular(fs, u) then fs[u].data else []
  }

  /** Up to n elements of d from position i on. */
  function Slice(d: Content, i: nat, n: nat): Content {
    if i + n <= |d| then d[i..i + n] else if i <= |d| then d[i..] else []
  }

  /** Writing chunk at position n. */
  function WriteAt(d: Content, n: nat, chunk: Content): Content {
    if n + |chunk| <= |d| then d[..n] + chunk + d[n + |chunk|..]
    else if n <= |d| then d[..n] + chunk
    else d + seq(n - |d|, _ => 0) + chunk
  }

  /** The response to open(uri, O_RDONLY) when it fails for the file's own sake, else Ok. */
  function OpenForReading(fs: map<Uri, Node>, u: Uri): Status {
    if u !in fs then NotFound else if !fs[u].readable then Forbidden else Ok
  }

  /** The response to open(uri, O_WRONLY) when it fails for the file's own sake, else Ok. */
  function OpenForWriting(fs: map<Uri, Node>, u: Uri): Status {
    if IsRegular(fs, u) && fs[u].writable then Ok else Forbidden
  }

  predicate Shared(s: Server, u: Uri) {
    exists t :: 0 <= t < |s.pc| && (u, t) in s.sh
  }

  predicate Enabled(s: Server, a: Action) {
    a.t < |s.pc| &&
    var p := s.pc[a.t];
    match a
    case BeginGet(_, _, _) => p.Idle?
    case BeginPut(_, _, _) => p.Idle?
    case Spurious(_) => p.Asleep?
    case Signal(_, w) =>
      && p.Notify?
      && (forall t :: t in w ==> t < |s.pc| && s.pc[t].Asleep?)
      && ((exists t :: 0 <= t < |s.pc| && s.pc[t].Asleep?) ==> w != {})
    case Go(_, c) => CanGo(s, p, c)
  }

  predicate CanGo(s: Server, p: Pc, c: Choice) {
    match p
    case Idle => false
    case Asleep(_) => false
    case Notify(_) => false
    case Enter(_) => s.lock.Free? && c.Plain?
    case Woken(_) => s.lock.Free? && c.Plain?
    case GetOpen(_, _, _) => c.Plain? || c.Fail?
    case PutCreate(_, _) => c.Plain? || c.Fail?
    case PutReopen(_, _, _) => c.Plain? || c.Fail?
    case GetFlock(u, _, _) => u !in s.ex && c.Plain?
    case PutFlock(u, _, _) => u !in s.ex && !Shared(s, u) && c.Plain?
    case GetSend(_, _, _, size, sent) => (c.Send? && 0 < c.n && |sent| + c.n <= size) || c.End?
    case PutRecv(_, _, _) => (c.Recv? && 0 < |c.chunk|) || (c.End? && (c.st.Ok? || c.st.Refused?))
    case _ => c.Plain?
  }

  /** Where a thread goes once it has released creation_lock and signalled. */
  function AfterExit(e: Exit): Pc {
    match e
    case Retry(u, id) => Enter(GetAgain(u, id))
    case GetFailed(u, id, k, st) => GetLog(u, id, k, st, [], false, false)
    case GetLocked(u, id, k) => GetStat(u, id, k)
    case PutFailed(u, id, st) => PutLog(u, id, st, [], false)
    case PutLocked(u, id) => PutRecv(u, id, [])
  }

  function Section(v: Visit): Pc {
    match v
    case GetFirst(u, id) => Reset(Retry(u, id))
    case GetAgain(u, id) => GetCheck(u, id)
    case PutFirst(u, id) => PutSetId(u, id)
  }

  /** The one thing a step does to the shared state. */
  datatype Change =
    | Nothing
    | TakeLock
    | DropLock
    | SetCreating(value: bool)
    | Admit(id: int, reqId: int)
    | Create(u: Uri)
    | Orphan(u: Uri)
    | AddSh(u: Uri)
    | DropSh(u: Uri)
    | AddEx(u: Uri)
    | DropEx(u: Uri)
    | Write(u: Uri, d: Content)
    | Append(line: Line)

  datatype Effect = Effect(p: Pc, ch: Change)

  predicate InGet(p: Pc) {
    p.GetCheck? || p.GetSetId? || p.GetOpen? || p.GetFlock?
  }

  predicate InPut(p: Pc) {
    p.PutSetId? || p.PutAccess? || p.PutCreate? || p.PutReopen? || p.PutFlock? || p.PutTruncate?
  }

  predicate Serving(p: Pc) {
    p.GetStat? || p.GetSend? || p.GetLog? || p.GetClose? || p.PutRecv? || p.PutLog? || p.PutClose?
  }

  /** Entering and leaving the critical section. */
  function CrossEffect(s: Server, p: Pc): Effect {
    match p
    case Enter(v) => Effect(Test(v), TakeLock)
    case Woken(v) => Effect(Test(v), TakeLock)
    case Test(v) => if s.creating then Effect(Asleep(v), DropLock) else Effect(Claim(v), Nothing)
    case Claim(v) => Effect(Section(v), SetCreating(true))
    case Reset(e) => Effect(Unlock(e), SetCreating(false))
    case Unlock(e) => Effect(Notify(e), DropLock)
    case _ => Effect(p, Nothing)
  }

  /** handle_get inside the section. */
  function GetEffect(s: Server, p: Pc, c: Choice): Effect {
    match p
    case GetCheck(u, id) =>
      Effect(if u !in s.fs && id > s.reqId then Reset(Retry(u, id)) else GetSetId(u, id), Nothing)
    case GetSetId(u, id) => Effect(GetOpen(u, id, |s.admitted|), Admit(id, id))
    case GetOpen(u, id, k) =>
      var st := if c.Fail? then InternalError else OpenForReading(s.fs, u);
      Effect(if st.Ok? then GetFlock(u, id, k) else Reset(GetFailed(u, id, k, st)), Nothing)
    case GetFlock(u, id, k) => Effect(Reset(GetLocked(u, id, k)), AddSh(u))
    case _ => Effect(p, Nothing)
  }

  /** handle_put inside the section. */
  function PutEffect(s: Server, p: Pc, c: Choice): Effect {
    match p
    case PutSetId(u, id) => Effect(PutAccess(u, id), Admit(id, if s.reqId < id then id else s.reqId))
    case PutAccess(u, id) => Effect(if u in s.fs then PutReopen(u, id, false) else PutCreate(u, id), Nothing)
    case PutCreate(u, id) =>
      if c.Fail? then Effect(PutReopen(u, id, false), Nothing)
      else Effect(PutReopen(u, id, true), Create(u))
    case PutReopen(u, id, created) =>
      var st := if c.Fail? then InternalError else OpenForWriting(s.fs, u);
      if st.Ok? then Effect(PutFlock(u, id, created), Nothing)
      else Effect(Reset(PutFailed(u, id, st)), if created then Orphan(u) else Nothing)
    case PutFlock(u, id, _) => Effect(PutTruncate(u, id), AddEx(u))
    case PutTruncate(u, id) => Effect(Reset(PutLocked(u, id)), Write(u, []))
    case _ => Effect(p, Nothing)
  }

  /** Serving, after creation_lock is released. */
  function ServeEffect(s: Server, p: Pc, c: Choice): Effect {
    match p
    case GetStat(u, id, k) =>
      Effect(if IsRegular(s.fs, u) then GetSend(u, id, k, |s.fs[u].data|, [])
             else GetLog(u, id, k, Forbidden, [], false, true), Nothing)
    case GetSend(u, id, k, size, sent) =>
      Effect(if c.Send? then GetSend(u, id, k, size, sent + Slice(Data(s.fs, u), |sent|, c.n))
             else GetLog(u, id, k, Ok, sent, |sent| == size, true), Nothing)
    case GetLog(u, id, k, st, sent, complete, locked) =>
      Effect(GetClose(u, locked), Append(GetLine(u, id, st, k, sent, complete)))
    case GetClose(u, locked) => Effect(Idle, if locked then DropSh(u) else Nothing)
    case PutRecv(u, id, got) =>
      if c.Recv? then
        Effect(PutRecv(u, id, got + c.chunk), Write(u, WriteAt(Data(s.fs, u), |got|, c.chunk)))
      else Effect(PutLog(u, id, if c.End? then c.st else Ok, got, true), Nothing)
    case PutLog(u, id, st, got, locked) =>
      Effect(PutClose(u, locked), Append(PutLine(u, id, st, locked, got, Data(s.fs, u))))
    case PutClose(u, locked) => Effect(Idle, if locked then DropEx(u) else Nothing)
    case _ => Effect(p, Nothing)
  }

  function EffectOf(s: Server, p: Pc, c: Choice): Effect {
    if InGet(p) then GetEffect(s, p, c)
    else if InPut(p) then PutEffect(s, p, c)
    else if Serving(p) then ServeEffect(s, p, c)
    else CrossEffect(s, p)
  }

  function Apply(s: Server, t: nat, ch: Change): Server {
    match ch
    case Nothing => s
    case TakeLock => s.(lock := Held(t))
    case DropLock => s.(lock := Free)
    case SetCreating(b) => s.(creating := b)
    case Admit(id, reqId) => s.(admitted := s.admitted + [id], reqId := reqId)
    case Create(u) => s.(fs := s.fs[u := Regular([], true, true)])
    case Orphan(u) => s.(orphans := s.orphans + {u})
    case AddSh(u) => s.(sh := s.sh + {(u, t)})
    case DropSh(u) => s.(sh := s.sh - {(u, t)})
    case AddEx(u) => s.(ex := s.ex[u := t])
    case DropEx(u) => s.(ex := s.ex - {u})
    case Write(u, d) => if IsRegular(s.fs, u) then s.(fs := s.fs[u := s.fs[u].(data := d)]) else s
    case Append(line) => s.(log := s.log + [line])
  }

  function Do(s: Server, a: Action): Server
    requires Enabled(s, a)
  {
    match a
    case BeginGet(t, u, id) => Goto(s, t, Enter(GetFirst(u, id)))
    case BeginPut(t, u, id) => Goto(s, t, Enter(PutFirst(u, id)))
    case Spurious(t) => Goto(s, t, Woken(s.pc[t].v))
    case Signal(t, w) => var s' := Goto(s, t, AfterExit(s.pc[t].e)); s'.(pc := WakeAll(s'.pc, w))
    case Go(t, c) => var e := EffectOf(s, s.pc[t], c); Goto(Apply(s, t, e.ch), t, e.p)
  }

  function WakeAll(pc: seq<Pc>, w: set<nat>): (r: seq<Pc>)
    ensures |r| == |pc|
    ensures forall i :: 0 <= i < |pc| ==> r[i] == if i in w && pc[i].Asleep? then Woken(pc[i].v) else pc[i]
  {
    seq(|pc|, i requires 0 <= i < |pc| => if i in w && pc[i].Asleep? then Woken(pc[i].v) else pc[i])
  }

  /** The server before its first request, over the files fs0. */
  ghost predicate Start(s: Server, fs0: map<Uri, Node>) {
    && s.lock.Free? && !s.creating && s.reqId == 0
    && s.fs == fs0 && s.ex == map[] && s.sh == {}
    && s.log == [] && s.admitted == [] && s.orphans == {}
    && forall t :: 0 <= t < |s.pc| ==> s.pc[t].Idle?
  }

  ghost predicate Runs(s: Server, acts: seq<Action>)
    decreases |acts|
  {
    acts == [] || (Enabled(s, acts[0]) && Runs(Do(s, acts[0]), acts[1..]))
  }

  ghost function After(s: Server, acts: seq<Action>): Server
    requires Runs(s, acts)
    decreases |acts|
  {
    if acts == [] then s else After(Do(s, acts[0]), acts[1..])
  }
}
