/** The inductive invariant of the RPC life cycle.

    `IdInv` (no id is handed out twice) holds in every reachable state.  `LocalInv` speaks of one
    thread and the queue it owns; it holds until the first `Release` of each server.  A step of
    thread `t` changes only what `LocalInv(_, t)` reads, so the proof is one frame lemma plus one
    small lemma per statement. */
module RpcInvariant {
  import opened RpcModel

  // ---------------------------------------------------------------- definitions

  ghost predicate IdInv(s: Server) {
    && WellFormed(s)
    && s.base <= s.nextId
    && (forall id | id in s.pool :: id < s.nextId)
    && (forall t | 0 <= t < |s.threads| && s.threads[t].Insert? ::
          s.base <= s.threads[t].id < s.nextId && s.threads[t].id !in s.pool)
    && (forall t, u | 0 <= t < u < |s.threads| && s.threads[t].Insert? && s.threads[u].Insert? ::
          s.threads[t].id != s.threads[u].id)
  }

  /** The rpc `id` was created by this server for queue `t`. */
  ghost predicate Own(s: Server, t: nat, id: nat) {
    s.base <= id && id in s.pool && s.pool[id].queue == t
  }

  /** The number of undelivered events that carry the tag of rpc `id`. */
  function Pending(q: multiset<Event>, id: nat): nat {
    q[Armed(id)] + q[Request(id)] + q[Done(id)]
  }

  function Parent(c: Caller): set<nat> {
    if c.Replacing? then {c.parent} else {}
  }

  /** The thread is in its start-up code. */
  predicate Boots(pc: Pc) {
    match pc
    case Fetch(c) => c.Booting?
    case Insert(c, _, _, _) => c.Booting?
    case Setup(c, _, _) => c.Booting?
    case MarkProcess(c, _) => c.Booting?
    case _ => false
  }

  /** The rpcs a thread works on that have no undelivered event. */
  function Holds(pc: Pc): set<nat> {
    match pc
    case Fetch(c) => Parent(c)
    case Insert(c, _, _, _) => Parent(c)
    case Setup(c, id, _) => Parent(c) + {id}
    case MarkProcess(c, _) => Parent(c)
    case Got(e, _) => {e.id}
    case Processing(id) => {id}
    case Writing(id) => {id}
    case Removing(id) => {id}
    case _ => {}
  }

  /** Every rpc of queue `t` is either waiting for exactly one event or held by thread `t`. */
  ghost predicate TokenInv(s: Server, t: nat)
    requires WellFormed(s) && t <= s.n
  {
    && (forall id | Own(s, t, id) :: Pending(s.queues[t], id) == if id in Holds(s.threads[t]) then 0 else 1)
    && (forall e | e in s.queues[t] :: Own(s, t, e.id))
    && (forall id | id in Holds(s.threads[t]) :: Own(s, t, id))
  }

  /** The state a pending event promises; it lags behind while the operation was started but the
      state field not yet written. */
  function Promised(e: Event, pc: Pc): RpcState {
    if IsListener(e)
    then if pc.MarkProcess? && pc.id == e.id then Create else Process
    else if pc.MarkFinish? && pc.id == e.id then Process else Finish
  }

  ghost predicate StateInv(s: Server, t: nat)
    requires WellFormed(s) && t <= s.n
  {
    && (forall e | e in s.queues[t] && Own(s, t, e.id) :: s.pool[e.id].state == Promised(e, s.threads[t]))
    && (forall id | Own(s, t, id) :: s.pool[id].kind in KindsOn(s.n, t))
  }

  ghost predicate CallerInv(s: Server, t: nat, c: Caller)
    requires WellFormed(s) && t <= s.n
  {
    match c
    case Booting(todo) => IsSuffix(todo, KindsOn(s.n, t))
    case Replacing(p) => Own(s, t, p) && s.pool[p].state == Process
    case Handling => false
  }

  /** The kinds still to start up are the last ones of the list. */
  ghost predicate IsSuffix<T>(todo: seq<T>, all: seq<T>) {
    |todo| <= |all| && forall i | 0 <= i < |todo| :: todo[i] == all[|all| - |todo| + i]
  }

  /** The kind a caller is about to create. */
  ghost predicate Creates(s: Server, c: Caller, kind: Kind) {
    match c
    case Booting(todo) => todo != [] && todo[0] == kind
    case Replacing(p) => p in s.pool && s.pool[p].kind == kind
    case Handling => false
  }

  ghost predicate PcInv(s: Server, t: nat)
    requires WellFormed(s) && t <= s.n
  {
    match s.threads[t]
    case Fetch(c) => CallerInv(s, t, c)
    case Insert(c, id, kind, queue) => CallerInv(s, t, c) && queue == t && Creates(s, c, kind)
    case Setup(c, id, queue) =>
      && CallerInv(s, t, c) && queue == t && Own(s, t, id)
      && s.pool[id].state == Create && Creates(s, c, s.pool[id].kind)
    case MarkProcess(c, id) =>
      && CallerInv(s, t, c) && Own(s, t, id)
      && s.pool[id].state == Create && Creates(s, c, s.pool[id].kind)
      && (Armed(id) in s.queues[t] || Request(id) in s.queues[t])
    case Waiting => true
    case Got(e, ok) =>
      && MayDeliver(s.refusing, e, ok) && Own(s, t, e.id)
      && s.pool[e.id].state == if IsListener(e) then Process else Finish
    case Processing(id) => Own(s, t, id) && s.pool[id].state == Process
    case Writing(id) => Own(s, t, id) && s.pool[id].state == Process
    case MarkFinish(id) => Own(s, t, id) && s.pool[id].state == Process && Done(id) in s.queues[t]
    case Removing(id) => Own(s, t, id)
    case Exited => false
    case Fault => false
  }

  /** An rpc of kind `kind` is listening on queue `t`: its event has not been delivered yet. */
  ghost predicate Listens(s: Server, t: nat, kind: Kind, id: nat)
    requires WellFormed(s) && t <= s.n
  {
    Own(s, t, id) && s.pool[id].kind == kind && (Armed(id) in s.queues[t] || Request(id) in s.queues[t])
  }

  /** The kinds that thread `t` still has to arm: those left to start up, or the kind whose
      listener event it has taken and not yet replaced. */
  ghost predicate InGap(s: Server, t: nat, kind: Kind)
    requires WellFormed(s) && t <= s.n
  {
    match s.threads[t]
    case Fetch(c) => CallerGap(s, c, kind)
    case Insert(c, _, _, _) => CallerGap(s, c, kind)
    case Setup(c, _, _) => CallerGap(s, c, kind)
    case MarkProcess(Booting(todo), _) => todo != [] && kind in todo[1..]
    case Got(e, _) => IsListener(e) && e.id in s.pool && s.pool[e.id].kind == kind
    case _ => false
  }

  ghost predicate CallerGap(s: Server, c: Caller, kind: Kind) {
    match c
    case Booting(todo) => kind in todo
    case Replacing(p) => p in s.pool && s.pool[p].kind == kind
    case Handling => false
  }

  /** The rpc whose replacement thread `t` has armed and which it is still serving. */
  function Served(pc: Pc): set<nat> {
    match pc
    case MarkProcess(c, _) => Parent(c)
    case Processing(id) => {id}
    case Writing(id) => {id}
    case MarkFinish(id) => {id}
    case _ => {}
  }

  ghost predicate ListenInv(s: Server, t: nat)
    requires WellFormed(s) && t <= s.n
  {
    && (forall kind, a, b | Listens(s, t, kind, a) && Listens(s, t, kind, b) :: a == b)
    && (forall kind, id | InGap(s, t, kind) :: !Listens(s, t, kind, id))
    && (!s.refusing ==> forall kind | kind in KindsOn(s.n, t) && !InGap(s, t, kind) :: exists id :: Listens(s, t, kind, id))
    && (forall p | p in Served(s.threads[t]) && p in s.pool :: exists id :: Listens(s, t, s.pool[p].kind, id))
  }

  ghost predicate WorkInv(s: Server, t: nat)
    requires WellFormed(s) && t <= s.n
  {
    TokenInv(s, t) && StateInv(s, t) && PcInv(s, t)
  }

  ghost predicate LocalInv(s: Server, t: nat)
    requires WellFormed(s) && t <= s.n
  {
    WorkInv(s, t) && ListenInv(s, t)
  }

  /** Before its pool is released a server is untouched by `stop`. */
  ghost predicate UpInv(s: Server) {
    && WellFormed(s) && s.shut == {}
    && (forall id | id in s.pool && s.base <= id :: s.pool[id].queue <= s.n)
    && (forall t: nat | t <= s.n :: LocalInv(s, t))
  }

  ghost predicate Inv(s: Server) {
    IdInv(s) && (!s.released ==> UpInv(s))
  }

  // ---------------------------------------------------------------- initial state

  lemma KindsDistinct(n: nat, t: nat)
    ensures forall i, j | 0 <= i < j < |KindsOn(n, t)| :: KindsOn(n, t)[i] != KindsOn(n, t)[j]
  {
  }

  lemma StartInv(n: nat, nextId: nat, pool: map<nat, Entry>)
    requires forall id | id in pool :: id < nextId
    ensures Inv(Start(n, nextId, pool))
  {
    var s := Start(n, nextId, pool);
    forall t: nat | t <= s.n ensures LocalInv(s, t) {
      assert s.threads[t] == Fetch(Booting(KindsOn(n, t)));
      assert s.queues[t] == multiset{};
    }
  }

  // ---------------------------------------------------------------- ids

  lemma IdStep(s: Server, a: Action)
    requires IdInv(s) && Enabled(s, a)
    ensures IdInv(Step(s, a))
  {
    match a
    case Tick(t) => IdTick(s, t);
    case _ =>
  }

  /** A statement that hands out no id and inserts nothing. */
  lemma IdKept(s: Server, s': Server, t: nat)
    requires IdInv(s) && t < |s.threads| && WellFormed(s')
    requires s'.n == s.n && s'.base == s.base && s'.nextId == s.nextId && s'.pool.Keys <= s.pool.Keys
    requires !s'.threads[t].Insert?
    requires forall u | 0 <= u < |s.threads| && u != t :: s'.threads[u] == s.threads[u]
    ensures IdInv(s')
  {
  }

  lemma IdFetched(s: Server, s': Server, t: nat)
    requires IdInv(s) && t < |s.threads| && WellFormed(s')
    requires s'.n == s.n && s'.base == s.base && s'.nextId == s.nextId + 1 && s'.pool == s.pool
    requires s'.threads[t].Insert? && s'.threads[t].id == s.nextId
    requires forall u | 0 <= u < |s.threads| && u != t :: s'.threads[u] == s.threads[u]
    ensures IdInv(s')
  {
  }

  lemma IdInserted(s: Server, s': Server, t: nat)
    requires IdInv(s) && t < |s.threads| && WellFormed(s')
    requires s'.n == s.n && s'.base == s.base && s'.nextId == s.nextId
    requires s.threads[t].Insert? && s'.pool.Keys == s.pool.Keys + {s.threads[t].id}
    requires !s'.threads[t].Insert?
    requires forall u | 0 <= u < |s.threads| && u != t :: s'.threads[u] == s.threads[u]
    ensures IdInv(s')
  {
  }

  lemma IdTick(s: Server, t: nat)
    requires IdInv(s) && Enabled(s, Tick(t))
    ensures IdInv(Step(s, Tick(t)))
  {
    var s' := TickStep(s, t);
    if s'.threads[t].Insert? {
      IdFetched(s, s', t);
    } else if s.threads[t].Insert? {
      IdInserted(s, s', t);
    } else {
      IdKept(s, s', t);
    }
  }

  // ---------------------------------------------------------------- frame

  /** Nothing that `LocalInv(_, t)` reads differs, except that the server may have begun to refuse calls. */
  ghost predicate Same(s: Server, s': Server, t: nat)
    requires WellFormed(s) && WellFormed(s') && t <= s.n
  {
    && s'.n == s.n && s'.base == s.base && (s.refusing ==> s'.refusing)
    && s'.queues[t] == s.queues[t] && s'.threads[t] == s.threads[t]
    && (forall id :: Own(s, t, id) <==> Own(s', t, id))
    && (forall id | Own(s, t, id) :: s'.pool[id] == s.pool[id])
  }

  lemma FrameWork(s: Server, s': Server, t: nat)
    requires WellFormed(s) && WellFormed(s') && t <= s.n && Same(s, s', t)
    requires WorkInv(s, t)
    ensures WorkInv(s', t)
  {
  }

  lemma FrameListen(s: Server, s': Server, t: nat)
    requires WellFormed(s) && WellFormed(s') && t <= s.n && Same(s, s', t)
    requires WorkInv(s, t)
    ensures forall kind, id :: Listens(s, t, kind, id) <==> Listens(s', t, kind, id)
    ensures forall kind :: InGap(s, t, kind) <==> InGap(s', t, kind)
    ensures forall p | p in Served(s'.threads[t]) && p in s'.pool :: p in s.pool && s.pool[p].kind == s'.pool[p].kind
  {
  }

  lemma Frame(s: Server, s': Server, t: nat)
    requires WellFormed(s) && WellFormed(s') && t <= s.n && Same(s, s', t)
    requires LocalInv(s, t)
    ensures LocalInv(s', t)
  {
    FrameWork(s, s', t);
    FrameListen(s, s', t);
    ListenKept(s, s', t);
  }

  // ---------------------------------------------------------------- one lemma per statement

  /** A step of thread `t` that starts no listener and consumes none. */
  lemma ListenKept(s: Server, s': Server, t: nat)
    requires WellFormed(s) && WellFormed(s') && t <= s.n && s'.n == s.n
    requires ListenInv(s, t) && (s.refusing ==> s'.refusing)
    requires forall kind, id :: Listens(s', t, kind, id) <==> Listens(s, t, kind, id)
    requires forall kind | InGap(s', t, kind) :: InGap(s, t, kind)
    requires !s'.refusing ==> forall kind | InGap(s, t, kind) :: InGap(s', t, kind)
    requires forall p | p in Served(s'.threads[t]) && p in s'.pool ::
               p in Served(s.threads[t]) && p in s.pool && s.pool[p].kind == s'.pool[p].kind
    ensures ListenInv(s', t)
  {
  }

  ghost predicate At(s: Server, t: nat) {
    WellFormed(s) && t <= s.n && WorkInv(s, t)
  }

  /** What thread `t` sees after its step. */
  ghost predicate Becomes(s: Server, s': Server, t: nat, pool: map<nat, Entry>, queue: multiset<Event>, pc: Pc) {
    && WellFormed(s') && t <= s'.n
    && s'.n == s.n && s'.base == s.base && s'.refusing == s.refusing
    && s'.pool == pool && s'.queues[t] == queue && s'.threads[t] == pc
  }

  lemma FetchWork(s: Server, s': Server, t: nat, c: Caller)
    requires At(s, t) && s.threads[t] == Fetch(c)
    requires Becomes(s, s', t, s.pool, s.queues[t], Fetched(s, t, c))
    ensures WorkInv(s', t)
  {
  }

  lemma InsertWork(s: Server, s': Server, t: nat, c: Caller, id: nat, kind: Kind, queue: nat)
    requires At(s, t) && s.threads[t] == Insert(c, id, kind, queue) && s.base <= id && id !in s.pool
    requires Becomes(s, s', t, s.pool[id := Entry(kind, queue, Create)], s.queues[t], Setup(c, id, queue))
    ensures WorkInv(s', t)
  {
  }

  lemma SetupTokens(s: Server, s': Server, t: nat, c: Caller, id: nat)
    requires At(s, t) && s.threads[t] == Setup(c, id, t)
    requires Becomes(s, s', t, s.pool, s.queues[t] + multiset{Armed(id)}, MarkProcess(c, id))
    ensures TokenInv(s', t)
  {
  }

  lemma SetupStates(s: Server, s': Server, t: nat, c: Caller, id: nat)
    requires At(s, t) && s.threads[t] == Setup(c, id, t)
    requires Becomes(s, s', t, s.pool, s.queues[t] + multiset{Armed(id)}, MarkProcess(c, id))
    ensures StateInv(s', t) && PcInv(s', t)
  {
  }

  lemma SetupWork(s: Server, s': Server, t: nat, c: Caller, id: nat)
    requires At(s, t) && s.threads[t] == Setup(c, id, t)
    requires Becomes(s, s', t, s.pool, s.queues[t] + multiset{Armed(id)}, MarkProcess(c, id))
    ensures WorkInv(s', t)
  {
    SetupTokens(s, s', t, c, id);
    SetupStates(s, s', t, c, id);
  }

  lemma MarkProcessTokens(s: Server, s': Server, t: nat, c: Caller, id: nat)
    requires At(s, t) && s.threads[t] == MarkProcess(c, id)
    requires Becomes(s, s', t, SetState(s.pool, id, Process), s.queues[t], Resume(c))
    ensures TokenInv(s', t)
  {
  }

  lemma MarkProcessStates(s: Server, s': Server, t: nat, c: Caller, id: nat)
    requires At(s, t) && s.threads[t] == MarkProcess(c, id)
    requires Becomes(s, s', t, SetState(s.pool, id, Process), s.queues[t], Resume(c))
    ensures StateInv(s', t) && PcInv(s', t)
  {
  }

  lemma MarkProcessWork(s: Server, s': Server, t: nat, c: Caller, id: nat)
    requires At(s, t) && s.threads[t] == MarkProcess(c, id)
    requires Becomes(s, s', t, SetState(s.pool, id, Process), s.queues[t], Resume(c))
    ensures WorkInv(s', t)
  {
    MarkProcessTokens(s, s', t, c, id);
    MarkProcessStates(s, s', t, c, id);
  }

  lemma GotWork(s: Server, s': Server, t: nat, e: Event, ok: bool)
    requires At(s, t) && s.threads[t] == Got(e, ok) && e.id in s.pool
    requires Becomes(s, s', t, s.pool, s.queues[t], Dispatch(e, ok, s.pool[e.id]))
    ensures WorkInv(s', t)
  {
  }

  lemma ProcessingWork(s: Server, s': Server, t: nat, id: nat)
    requires At(s, t) && s.threads[t] == Processing(id)
    requires Becomes(s, s', t, s.pool, s.queues[t], Writing(id))
    ensures WorkInv(s', t)
  {
  }

  lemma WritingTokens(s: Server, s': Server, t: nat, id: nat)
    requires At(s, t) && s.threads[t] == Writing(id)
    requires Becomes(s, s', t, s.pool, s.queues[t] + multiset{Done(id)}, MarkFinish(id))
    ensures TokenInv(s', t)
  {
  }

  lemma WritingStates(s: Server, s': Server, t: nat, id: nat)
    requires At(s, t) && s.threads[t] == Writing(id)
    requires Becomes(s, s', t, s.pool, s.queues[t] + multiset{Done(id)}, MarkFinish(id))
    ensures StateInv(s', t) && PcInv(s', t)
  {
  }

  lemma WritingWork(s: Server, s': Server, t: nat, id: nat)
    requires At(s, t) && s.threads[t] == Writing(id)
    requires Becomes(s, s', t, s.pool, s.queues[t] + multiset{Done(id)}, MarkFinish(id))
    ensures WorkInv(s', t)
  {
    WritingTokens(s, s', t, id);
    WritingStates(s, s', t, id);
  }

  lemma MarkFinishWork(s: Server, s': Server, t: nat, id: nat)
    requires At(s, t) && s.threads[t] == MarkFinish(id)
    requires Becomes(s, s', t, SetState(s.pool, id, Finish), s.queues[t], Waiting)
    ensures WorkInv(s', t)
  {
  }

  lemma RemovingWork(s: Server, s': Server, t: nat, id: nat)
    requires At(s, t) && s.threads[t] == Removing(id)
    requires Becomes(s, s', t, s.pool - {id}, s.queues[t], Waiting)
    ensures WorkInv(s', t)
  {
  }

  lemma PendingTake(q: multiset<Event>, e: Event)
    requires e in q
    ensures forall id :: Pending(q - multiset{e}, id) == Pending(q, id) - if e.id == id then 1 else 0
  {
  }

  lemma DeliverTokens(s: Server, s': Server, t: nat, e: Event, ok: bool)
    requires At(s, t) && s.threads[t] == Waiting && e in s.queues[t] && MayDeliver(s.refusing, e, ok)
    requires Becomes(s, s', t, s.pool, s.queues[t] - multiset{e}, Got(e, ok))
    ensures TokenInv(s', t)
  {
    PendingTake(s.queues[t], e);
  }

  lemma DeliverStates(s: Server, s': Server, t: nat, e: Event, ok: bool)
    requires At(s, t) && s.threads[t] == Waiting && e in s.queues[t] && MayDeliver(s.refusing, e, ok)
    requires Becomes(s, s', t, s.pool, s.queues[t] - multiset{e}, Got(e, ok))
    ensures StateInv(s', t) && PcInv(s', t)
  {
  }

  lemma DeliverWork(s: Server, s': Server, t: nat, e: Event, ok: bool)
    requires At(s, t) && s.threads[t] == Waiting && e in s.queues[t] && MayDeliver(s.refusing, e, ok)
    requires Becomes(s, s', t, s.pool, s.queues[t] - multiset{e}, Got(e, ok))
    ensures WorkInv(s', t)
  {
    DeliverTokens(s, s', t, e, ok);
    DeliverStates(s, s', t, e, ok);
  }

  lemma AcceptTokens(s: Server, s': Server, t: nat, pc: Pc, id: nat)
    requires At(s, t) && s.threads[t] == pc && Armed(id) in s.queues[t]
    requires Becomes(s, s', t, s.pool, s.queues[t] - multiset{Armed(id)} + multiset{Request(id)}, pc)
    ensures TokenInv(s', t)
  {
  }

  lemma AcceptStates(s: Server, s': Server, t: nat, pc: Pc, id: nat)
    requires At(s, t) && s.threads[t] == pc && Armed(id) in s.queues[t]
    requires Becomes(s, s', t, s.pool, s.queues[t] - multiset{Armed(id)} + multiset{Request(id)}, pc)
    ensures StateInv(s', t) && PcInv(s', t)
  {
  }

  lemma AcceptWork(s: Server, s': Server, t: nat, pc: Pc, id: nat)
    requires At(s, t) && s.threads[t] == pc && Armed(id) in s.queues[t]
    requires Becomes(s, s', t, s.pool, s.queues[t] - multiset{Armed(id)} + multiset{Request(id)}, pc)
    ensures WorkInv(s', t)
  {
    AcceptTokens(s, s', t, pc, id);
    AcceptStates(s, s', t, pc, id);
  }


  // ---------------------------------------------------------------- listeners

  lemma SameListeners(s: Server, s': Server, t: nat)
    requires WellFormed(s) && WellFormed(s') && t <= s.n && s'.n == s.n && s'.base == s.base
    requires forall id :: (Armed(id) in s'.queues[t] || Request(id) in s'.queues[t]) <==> (Armed(id) in s.queues[t] || Request(id) in s.queues[t])
    requires forall id | Armed(id) in s.queues[t] || Request(id) in s.queues[t] ::
               && (id in s.pool <==> id in s'.pool)
               && (id in s.pool ==> (s'.pool[id].kind, s'.pool[id].queue) == (s.pool[id].kind, s.pool[id].queue))
    ensures forall kind, id :: Listens(s', t, kind, id) <==> Listens(s, t, kind, id)
  {
  }

  /** `setup_request` arms the kind the thread owes. */
  lemma ListenArmed(s: Server, s': Server, t: nat, c: Caller, id: nat)
    requires At(s, t) && ListenInv(s, t) && s.threads[t] == Setup(c, id, t)
    requires Becomes(s, s', t, s.pool, s.queues[t] + multiset{Armed(id)}, MarkProcess(c, id))
    ensures ListenInv(s', t)
  {
    var made := s.pool[id].kind;
    assert forall kind, i :: Listens(s', t, kind, i) <==> Listens(s, t, kind, i) || (i == id && kind == made);
    assert InGap(s, t, made);
    KindsDistinct(s.n, t);
    assert forall kind :: InGap(s', t, kind) <==> InGap(s, t, kind) && kind != made;
    assert Listens(s', t, made, id);
    forall kind | kind in KindsOn(s.n, t) && !InGap(s', t, kind) && !s.refusing
      ensures exists i :: Listens(s', t, kind, i)
    {
      if kind != made {
        var i :| Listens(s, t, kind, i);
        assert Listens(s', t, kind, i);
      }
    }
  }

  /** `Next` takes an event: a listener event opens a gap for its kind. */
  lemma TakenListeners(s: Server, s': Server, t: nat, e: Event, ok: bool)
    requires At(s, t) && e in s.queues[t]
    requires Becomes(s, s', t, s.pool, s.queues[t] - multiset{e}, Got(e, ok))
    ensures forall kind, i :: Listens(s', t, kind, i) <==> Listens(s, t, kind, i) && !(IsListener(e) && i == e.id)
    ensures Own(s, t, e.id) && (IsListener(e) ==> Listens(s, t, s.pool[e.id].kind, e.id))
  {
    assert Pending(s.queues[t], e.id) == 1;
  }

  lemma ListenTaken(s: Server, s': Server, t: nat, e: Event, ok: bool)
    requires At(s, t) && ListenInv(s, t) && s.threads[t] == Waiting
    requires e in s.queues[t] && MayDeliver(s.refusing, e, ok)
    requires Becomes(s, s', t, s.pool, s.queues[t] - multiset{e}, Got(e, ok))
    ensures ListenInv(s', t)
  {
    TakenListeners(s, s', t, e, ok);
    forall kind | kind in KindsOn(s.n, t) && !InGap(s', t, kind) && !s.refusing
      ensures exists i :: Listens(s', t, kind, i)
    {
      var i :| Listens(s, t, kind, i);
      assert Listens(s', t, kind, i);
    }
  }

  // ---------------------------------------------------------------- every statement

  /** What one statement of thread `t` does to what the thread sees, when no rpc it uses is dead. */
  ghost predicate Ticks(s: Server, s': Server, t: nat)
    requires WellFormed(s) && t <= s.n
  {
    var queue := s.queues[t];
    match s.threads[t]
    case Fetch(c) => Becomes(s, s', t, s.pool, queue, Fetched(s, t, c))
    case Insert(c, id, kind, q) => Becomes(s, s', t, s.pool[id := Entry(kind, q, Create)], queue, Setup(c, id, q))
    case Setup(c, id, _) => Becomes(s, s', t, s.pool, queue + multiset{Armed(id)}, MarkProcess(c, id))
    case MarkProcess(c, id) => Becomes(s, s', t, SetState(s.pool, id, Process), queue, Resume(c))
    case Got(e, ok) => e.id in s.pool && Becomes(s, s', t, s.pool, queue, Dispatch(e, ok, s.pool[e.id]))
    case Processing(id) => Becomes(s, s', t, s.pool, queue, Writing(id))
    case Writing(id) => Becomes(s, s', t, s.pool, queue + multiset{Done(id)}, MarkFinish(id))
    case MarkFinish(id) => Becomes(s, s', t, SetState(s.pool, id, Finish), queue, Waiting)
    case Removing(id) => Becomes(s, s', t, s.pool - {id}, queue, Waiting)
    case _ => false
  }

  /** The queue a thread is about to start an operation on. */
  ghost predicate OnOwnQueue(s: Server, t: nat)
    requires WellFormed(s) && t <= s.n
  {
    match s.threads[t]
    case Setup(_, _, queue) => queue == t
    case Writing(id) => id in s.pool && s.pool[id].queue == t
    case _ => true
  }

  lemma UsesLiveRpcs(s: Server, t: nat)
    requires At(s, t)
    ensures Deref(s.threads[t]) <= s.pool.Keys && OnOwnQueue(s, t)
  {
  }

  lemma TickShape(s: Server, t: nat)
    requires WellFormed(s) && t <= s.n && Enabled(s, Tick(t))
    requires Deref(s.threads[t]) <= s.pool.Keys && OnOwnQueue(s, t)
    ensures Ticks(s, TickStep(s, t), t)
  {
  }

  lemma TickWork(s: Server, s': Server, t: nat)
    requires At(s, t) && Ticks(s, s', t)
    requires s.threads[t].Insert? ==> s.base <= s.threads[t].id && s.threads[t].id !in s.pool
    ensures WorkInv(s', t)
  {
    match s.threads[t] {
      case Fetch(c) => FetchWork(s, s', t, c);
      case Insert(c, id, kind, queue) => InsertWork(s, s', t, c, id, kind, queue);
      case Setup(c, id, queue) => SetupWork(s, s', t, c, id);
      case MarkProcess(c, id) => MarkProcessWork(s, s', t, c, id);
      case Got(e, ok) => GotWork(s, s', t, e, ok);
      case Processing(id) => ProcessingWork(s, s', t, id);
      case Writing(id) => WritingWork(s, s', t, id);
      case MarkFinish(id) => MarkFinishWork(s, s', t, id);
      case Removing(id) => RemovingWork(s, s', t, id);
    }
  }

  /** The listening rpcs of queue `t` stay in the pool with their kind. */
  lemma TickKeepsListeners(s: Server, s': Server, t: nat)
    requires At(s, t) && Ticks(s, s', t)
    requires s.threads[t].Insert? ==> s.threads[t].id !in s.pool
    ensures forall id | Armed(id) in s.queues[t] || Request(id) in s.queues[t] ::
              && id in s.pool && id in s'.pool
              && (s'.pool[id].kind, s'.pool[id].queue) == (s.pool[id].kind, s.pool[id].queue)
  {
    var pc := s.threads[t];
    if pc.Removing? {
      assert Pending(s.queues[t], pc.id) == 0;
    }
  }

  lemma TickQueue(s: Server, s': Server, t: nat)
    requires WellFormed(s) && t <= s.n && Ticks(s, s', t) && !s.threads[t].Setup?
    ensures forall id :: (Armed(id) in s'.queues[t] || Request(id) in s'.queues[t]) <==> (Armed(id) in s.queues[t] || Request(id) in s.queues[t])
    ensures WellFormed(s') && s'.n == s.n && s'.base == s.base
  {
  }

  lemma TickListeners(s: Server, s': Server, t: nat)
    requires At(s, t) && Ticks(s, s', t) && !s.threads[t].Setup?
    requires s.threads[t].Insert? ==> s.base <= s.threads[t].id && s.threads[t].id !in s.pool
    ensures forall kind, id :: Listens(s', t, kind, id) <==> Listens(s, t, kind, id)
  {
    TickKeepsListeners(s, s', t);
    TickQueue(s, s', t);
    SameListeners(s, s', t);
  }

  lemma TickGap(s: Server, s': Server, t: nat)
    requires At(s, t) && Ticks(s, s', t) && !s.threads[t].Setup?
    requires s.threads[t].Insert? ==> s.base <= s.threads[t].id && s.threads[t].id !in s.pool
    ensures forall kind | InGap(s', t, kind) :: InGap(s, t, kind)
    ensures !s'.refusing ==> forall kind | InGap(s, t, kind) :: InGap(s', t, kind)
    ensures forall p | p in Served(s'.threads[t]) && p in s'.pool ::
              p in Served(s.threads[t]) && p in s.pool && s.pool[p].kind == s'.pool[p].kind
  {
  }

  lemma TickListen(s: Server, s': Server, t: nat)
    requires At(s, t) && ListenInv(s, t) && Ticks(s, s', t)
    requires s.threads[t].Insert? ==> s.base <= s.threads[t].id && s.threads[t].id !in s.pool
    ensures ListenInv(s', t)
  {
    if s.threads[t].Setup? {
      ListenArmed(s, s', t, s.threads[t].caller, s.threads[t].id);
    } else {
      TickListeners(s, s', t);
      TickGap(s, s', t);
      ListenKept(s, s', t);
    }
  }

  // ---------------------------------------------------------------- every action

  lemma TickLocal(s: Server, t: nat)
    requires IdInv(s) && t <= s.n && LocalInv(s, t) && Enabled(s, Tick(t))
    ensures LocalInv(TickStep(s, t), t)
  {
    UsesLiveRpcs(s, t);
    TickShape(s, t);
    TickWork(s, TickStep(s, t), t);
    TickListen(s, TickStep(s, t), t);
  }

  /** A statement of thread `t` leaves the queue and the rpcs of thread `u` alone. */
  lemma TickOthers(s: Server, t: nat, u: nat)
    requires IdInv(s) && At(s, t) && u <= s.n && u != t && Enabled(s, Tick(t))
    ensures Same(s, TickStep(s, t), u)
  {
    UsesLiveRpcs(s, t);
    TickShape(s, t);
    TickPool(s, TickStep(s, t), t);
  }

  lemma TickPool(s: Server, s': Server, t: nat)
    requires IdInv(s) && At(s, t) && Ticks(s, s', t)
    ensures forall id | id in s.pool && s.pool[id].queue != t :: id in s'.pool && s'.pool[id] == s.pool[id]
    ensures forall id | id in s'.pool && s'.pool[id].queue != t :: id in s.pool && s'.pool[id] == s.pool[id]
  {
  }

  lemma TickUp(s: Server, t: nat)
    requires IdInv(s) && UpInv(s) && Enabled(s, Tick(t))
    ensures UpInv(TickStep(s, t))
  {
    var s' := TickStep(s, t);
    TickLocal(s, t);
    forall u: nat | u <= s.n ensures LocalInv(s', u) {
      if u != t {
        TickOthers(s, t, u);
        Frame(s, s', u);
      }
    }
    UsesLiveRpcs(s, t);
    TickShape(s, t);
    TickPool(s, s', t);
  }

  lemma DeliverLocal(s: Server, t: nat, e: Event, ok: bool)
    requires t < |s.threads| && Enabled(s, Deliver(t, e, ok)) && LocalInv(s, t)
    ensures LocalInv(Step(s, Deliver(t, e, ok)), t)
  {
    DeliverWork(s, Step(s, Deliver(t, e, ok)), t, e, ok);
    ListenTaken(s, Step(s, Deliver(t, e, ok)), t, e, ok);
  }

  lemma DeliverUp(s: Server, t: nat, e: Event, ok: bool)
    requires UpInv(s) && Enabled(s, Deliver(t, e, ok))
    ensures UpInv(Step(s, Deliver(t, e, ok)))
  {
    var s' := Step(s, Deliver(t, e, ok));
    DeliverLocal(s, t, e, ok);
    forall u: nat | u <= s.n && u != t ensures LocalInv(s', u) {
      Frame(s, s', u);
    }
  }

  lemma AcceptListen(s: Server, s': Server, t: nat, id: nat)
    requires At(s, t) && ListenInv(s, t) && Armed(id) in s.queues[t]
    requires Becomes(s, s', t, s.pool, s.queues[t] - multiset{Armed(id)} + multiset{Request(id)}, s.threads[t])
    ensures ListenInv(s', t)
  {
    assert Pending(s.queues[t], id) == 1;
    SameListeners(s, s', t);
    ListenKept(s, s', t);
  }

  lemma AcceptLocal(s: Server, t: nat, id: nat)
    requires t < |s.queues| && Enabled(s, Accept(t, id)) && LocalInv(s, t)
    ensures LocalInv(Step(s, Accept(t, id)), t)
  {
    AcceptWork(s, Step(s, Accept(t, id)), t, s.threads[t], id);
    AcceptListen(s, Step(s, Accept(t, id)), t, id);
  }

  lemma AcceptUp(s: Server, q: nat, id: nat)
    requires UpInv(s) && Enabled(s, Accept(q, id))
    ensures UpInv(Step(s, Accept(q, id)))
  {
    var s' := Step(s, Accept(q, id));
    AcceptLocal(s, q, id);
    forall u: nat | u <= s.n && u != q ensures LocalInv(s', u) {
      Frame(s, s', u);
    }
  }

  lemma RefuseUp(s: Server)
    requires UpInv(s) && Enabled(s, Refuse)
    ensures UpInv(Step(s, Refuse))
  {
    forall t: nat | t <= s.n ensures LocalInv(Step(s, Refuse), t) {
      Frame(s, Step(s, Refuse), t);
    }
  }

  lemma {:induction false} InvStep(s: Server, a: Action)
    requires Inv(s) && Enabled(s, a)
    ensures Inv(Step(s, a))
  {
    IdStep(s, a);
    if !s.released {
      match a {
        case Accept(q, id) => AcceptUp(s, q, id);
        case Refuse => RefuseUp(s);
        case Deliver(t, e, ok) => DeliverUp(s, t, e, ok);
        case Tick(t) => TickUp(s, t);
        case Restart(n) => StartInv(n, s.nextId, s.pool);
        case _ =>
      }
    } else if a.Restart? {
      StartInv(a.n, s.nextId, s.pool);
    }
  }

  lemma {:induction false} InvRun(s0: Server, r: Run)
    requires Inv(s0) && Valid(s0, r)
    ensures Inv(After(s0, r))
  {
    match r
    case Begin =>
    case Then(past, a) =>
      InvRun(s0, past);
      InvStep(After(s0, past), a);
  }

  lemma ReachableInv(s: Server)
    requires Reachable(s)
    ensures Inv(s)
  {
    var n: nat, r: Run :| Valid(Start(n, 0, map[]), r) && After(Start(n, 0, map[]), r) == s;
    StartInv(n, 0, map[]);
    InvRun(Start(n, 0, map[]), r);
  }
}
