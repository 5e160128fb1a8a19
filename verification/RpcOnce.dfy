/** No request is answered twice, over every run of the process, also after releases.  Once the pool
    was released nothing is known of the rpcs that were dropped, but those that are still alive keep
    their tokens and states. */
module RpcOnce {
  import opened RpcModel
  import opened RpcInvariant
  import opened RpcLife

  // ---------------------------------------------------------------- definitions

  /** If the rpc `id` is alive it was created by this server for queue `t`. */
  ghost predicate Near(s: Server, t: nat, id: nat) {
    s.base <= id && (id in s.pool ==> s.pool[id].queue == t)
  }

  ghost predicate InState(s: Server, t: nat, id: nat, st: RpcState) {
    Near(s, t, id) && (id in s.pool ==> s.pool[id].state == st)
  }

  ghost predicate TameCaller(s: Server, t: nat, c: Caller) {
    match c
    case Booting(_) => true
    case Replacing(p) => InState(s, t, p, Process)
    case Handling => false
  }

  ghost predicate TamePc(s: Server, t: nat, pc: Pc) {
    match pc
    case Fetch(c) => TameCaller(s, t, c)
    case Insert(c, id, _, queue) => TameCaller(s, t, c) && queue == t && id !in Parent(c)
    case Setup(c, id, queue) => TameCaller(s, t, c) && queue == t && id !in Parent(c) && InState(s, t, id, Create)
    case MarkProcess(c, id) => TameCaller(s, t, c) && id !in Parent(c) && InState(s, t, id, Create)
    case Got(e, _) => InState(s, t, e.id, if IsListener(e) then Process else Finish)
    case Processing(id) => InState(s, t, id, Process)
    case Writing(id) => InState(s, t, id, Process)
    case MarkFinish(id) => InState(s, t, id, Process)
    case Removing(id) => Near(s, t, id)
    case _ => true
  }

  /** What is left of the local invariant when rpcs may be dead: every tag is of this queue, a living
      rpc has at most one token, and its state is the one its event promises. */
  ghost predicate TameQueue(s: Server, t: nat, q: multiset<Event>, pc: Pc) {
    && (forall e | e in q :: Near(s, t, e.id))
    && (forall e | e in q && e.id in s.pool :: s.pool[e.id].state == Promised(e, pc))
    && (forall id | Own(s, t, id) :: Pending(q, id) <= if id in Holds(pc) then 0 else 1)
    && (pc.MarkFinish? ==> forall e | e in q && e.id == pc.id :: e.Done?)
  }

  ghost predicate Tame(s: Server, t: nat)
    requires WellFormed(s) && t <= s.n
  {
    TamePc(s, t, s.threads[t]) && TameQueue(s, t, s.queues[t], s.threads[t])
  }

  /** The rpcs a thread works with; an id it has fetched and not inserted is none. */
  function Uses(pc: Pc): set<nat> {
    if pc.Insert? then Parent(pc.caller) else Mentions(pc)
  }

  /** Nothing refers to an id before it is inserted. */
  ghost predicate Unmet(s: Server, t: nat, id: nat)
    requires WellFormed(s) && t <= s.n
  {
    id !in Uses(s.threads[t]) && forall e | e in s.queues[t] :: e.id != id
  }

  ghost predicate NewIdsUnmet(s: Server)
    requires WellFormed(s)
  {
    forall u: nat, t: nat | u <= s.n && t <= s.n && s.threads[u].Insert? :: Unmet(s, t, s.threads[u].id)
  }

  /** Holds in every state of every run. */
  ghost predicate AlwaysInv(s: Server) {
    IdInv(s) && IssuedInv(s) && NewIdsUnmet(s) && forall t: nat | t <= s.n :: Tame(s, t)
  }

  // ---------------------------------------------------------------- the moving thread

  lemma TameDeref(s: Server, t: nat)
    requires WellFormed(s) && t <= s.n && Tame(s, t)
    ensures Deref(s.threads[t]) <= s.pool.Keys ==> OnOwnQueue(s, t)
  {
  }

  lemma TameFetch(s: Server, s': Server, t: nat)
    requires WellFormed(s) && t <= s.n && Tame(s, t) && Ticks(s, s', t) && s.threads[t].Fetch?
    requires Deref(s.threads[t]) <= s.pool.Keys
    requires forall id | id in Uses(s.threads[t]) :: id < s.nextId
    ensures Tame(s', t)
  {
    assert forall p | p in Parent(s.threads[t].caller) :: p in Uses(s.threads[t]);
  }

  lemma TameInsert(s: Server, s': Server, t: nat)
    requires WellFormed(s) && t <= s.n && Tame(s, t) && Ticks(s, s', t) && s.threads[t].Insert?
    requires s.base <= s.threads[t].id && s.threads[t].id !in s.pool && Unmet(s, t, s.threads[t].id)
    ensures Tame(s', t)
  {
    var id := s.threads[t].id;
    assert Armed(id) !in s.queues[t] && Request(id) !in s.queues[t] && Done(id) !in s.queues[t];
  }

  lemma TameArming(s: Server, s': Server, t: nat)
    requires WellFormed(s) && t <= s.n && Tame(s, t) && Ticks(s, s', t) && s.threads[t].Setup?
    ensures Tame(s', t)
  {
    var id := s.threads[t].id;
    assert id in Holds(s.threads[t]);
    assert forall i :: Pending(s'.queues[t], i) == Pending(s.queues[t], i) + if i == id then 1 else 0;
    assert Own(s, t, id) ==> Pending(s.queues[t], id) == 0;
  }

  lemma TameMarkProcess(s: Server, s': Server, t: nat)
    requires WellFormed(s) && t <= s.n && Tame(s, t) && Ticks(s, s', t) && s.threads[t].MarkProcess?
    ensures Tame(s', t)
  {
  }

  lemma TameGot(s: Server, s': Server, t: nat)
    requires WellFormed(s) && t <= s.n && Tame(s, t) && Ticks(s, s', t) && (s.threads[t].Got? || s.threads[t].Processing?)
    ensures Tame(s', t)
  {
  }

  lemma TameWriting(s: Server, s': Server, t: nat)
    requires WellFormed(s) && t <= s.n && Tame(s, t) && Ticks(s, s', t) && s.threads[t].Writing?
    requires s.threads[t].id in s.pool
    ensures Tame(s', t)
  {
    var id := s.threads[t].id;
    assert id in Holds(s.threads[t]) && Own(s, t, id);
    assert forall i :: Pending(s'.queues[t], i) == Pending(s.queues[t], i) + if i == id then 1 else 0;
  }

  lemma TameMarkFinish(s: Server, s': Server, t: nat)
    requires WellFormed(s) && t <= s.n && Tame(s, t) && Ticks(s, s', t) && s.threads[t].MarkFinish?
    ensures Tame(s', t)
  {
  }

  lemma TameRemoving(s: Server, s': Server, t: nat)
    requires WellFormed(s) && t <= s.n && Tame(s, t) && Ticks(s, s', t) && s.threads[t].Removing?
    ensures Tame(s', t)
  {
  }

  lemma TameOwn(s: Server, s': Server, t: nat)
    requires WellFormed(s) && t <= s.n && Tame(s, t) && Ticks(s, s', t) && Deref(s.threads[t]) <= s.pool.Keys
    requires s.threads[t].Insert? ==> s.base <= s.threads[t].id && s.threads[t].id !in s.pool && Unmet(s, t, s.threads[t].id)
    requires forall id | id in Uses(s.threads[t]) :: id < s.nextId
    ensures Tame(s', t)
  {
    match s.threads[t] {
      case Fetch(_) => TameFetch(s, s', t);
      case Insert(_, _, _, _) => TameInsert(s, s', t);
      case Setup(_, _, _) => TameArming(s, s', t);
      case MarkProcess(_, _) => TameMarkProcess(s, s', t);
      case Got(_, _) => TameGot(s, s', t);
      case Processing(_) => TameGot(s, s', t);
      case Writing(_) => TameWriting(s, s', t);
      case MarkFinish(_) => TameMarkFinish(s, s', t);
      case Removing(_) => TameRemoving(s, s', t);
    }
  }

  /** The use of a dead rpc stops the thread and changes nothing else. */
  lemma TameFault(s: Server, t: nat)
    requires WellFormed(s) && t <= s.n && Tame(s, t) && !(Deref(s.threads[t]) <= s.pool.Keys)
    ensures Tame(s.(threads := s.threads[t := Fault]), t)
  {
  }

  // ---------------------------------------------------------------- the other threads

  /** A thread keeps its invariant when its queue and its living rpcs are left alone and no id it
      refers to comes to life. */
  lemma TameFrame(s: Server, s': Server, t: nat)
    requires WellFormed(s) && WellFormed(s') && t <= s.n && Same(s, s', t) && Tame(s, t)
    requires forall id | id in s'.pool && id !in s.pool :: Unmet(s, t, id)
    requires forall id | id in s'.pool && id in s.pool :: s'.pool[id].queue == s.pool[id].queue
    ensures Tame(s', t)
  {
    assert forall id | Near(s, t, id) && (id in s'.pool ==> id in s.pool) :: Near(s', t, id);
    assert forall id, st | InState(s, t, id, st) && (id in s'.pool ==> id in s.pool) :: InState(s', t, id, st) by {
      forall id, st | InState(s, t, id, st) && (id in s'.pool ==> id in s.pool) ensures InState(s', t, id, st) {
        assert id in s'.pool ==> Own(s, t, id);
      }
    }
    FramePc(s, s', t);
    FrameQueue(s, s', t);
  }

  lemma FramePc(s: Server, s': Server, t: nat)
    requires WellFormed(s) && WellFormed(s') && t <= s.n == s'.n && s'.threads[t] == s.threads[t] && TamePc(s, t, s.threads[t])
    requires forall id | id in s'.pool && id !in s.pool :: id !in Uses(s.threads[t])
    requires forall id | Near(s, t, id) && (id in s'.pool ==> id in s.pool) :: Near(s', t, id)
    requires forall id, st | InState(s, t, id, st) && (id in s'.pool ==> id in s.pool) :: InState(s', t, id, st)
    ensures TamePc(s', t, s'.threads[t])
  {
  }

  lemma FrameQueue(s: Server, s': Server, t: nat)
    requires WellFormed(s) && WellFormed(s') && t <= s.n && Same(s, s', t) && Tame(s, t)
    requires forall id | id in s'.pool && id !in s.pool :: Unmet(s, t, id)
    requires forall id | Near(s, t, id) && (id in s'.pool ==> id in s.pool) :: Near(s', t, id)
    ensures TameQueue(s', t, s'.queues[t], s'.threads[t])
  {
    forall e | e in s'.queues[t] && e.id in s'.pool ensures s'.pool[e.id].state == Promised(e, s'.threads[t]) {
      assert Near(s, t, e.id) && Own(s, t, e.id);
    }
  }

  lemma TameRelease(s: Server, t: nat)
    requires WellFormed(s) && t <= s.n && Tame(s, t)
    ensures Tame(s.(pool := map[], released := true), t)
  {
    assert forall e | e in s.queues[t] :: Near(s, t, e.id);
  }

  lemma TickedPool(s: Server, s': Server, t: nat)
    requires IdInv(s) && t <= s.n && Tame(s, t) && Ticks(s, s', t) && Deref(s.threads[t]) <= s.pool.Keys
    ensures forall id | id in s.pool && s.pool[id].queue != t :: id in s'.pool && s'.pool[id] == s.pool[id]
    ensures forall id | id in s'.pool && id !in s.pool :: s.threads[t].Insert? && s.threads[t].id == id && s'.pool[id].queue == t
    ensures forall id | id in s'.pool && id in s.pool :: s'.pool[id].queue == s.pool[id].queue
  {
  }

  // ---------------------------------------------------------------- new ids

  lemma UnmetKept(s: Server, s': Server, t: nat, id: nat)
    requires WellFormed(s) && WellFormed(s') && s'.n == s.n && t <= s.n && Unmet(s, t, id)
    requires forall i | i in Uses(s'.threads[t]) :: i in Uses(s.threads[t]) || i != id
    requires forall e | e in s'.queues[t] :: e in s.queues[t] || e.id != id
    ensures Unmet(s', t, id)
  {
  }

  lemma TickUses(s: Server, t: nat)
    requires t < |s.threads| && Deref(s.threads[t]) <= s.pool.Keys
    ensures Uses(NextPc(s, t)) <= Uses(s.threads[t]) + (if s.threads[t].Insert? then {s.threads[t].id} else {})
    ensures forall q, e | 0 <= q < |s.queues| && e in Effect(s, t).queues[q] :: e in s.queues[q] || e.id in Uses(s.threads[t])
  {
  }

  /** The ids that are fetched and not inserted after a statement of thread `t`. */
  lemma UnmetTick(s: Server, t: nat, u: nat, v: nat)
    requires IdInv(s) && IssuedInv(s) && NewIdsUnmet(s) && t <= s.n && u <= s.n && v <= s.n
    requires TickStep(s, t).threads[u].Insert?
    ensures WellFormed(TickStep(s, t)) && TickStep(s, t).n == s.n && Unmet(TickStep(s, t), v, TickStep(s, t).threads[u].id)
  {
    var s' := TickStep(s, t);
    var id := s'.threads[u].id;
    if u == t {
      assert s.threads[t].Fetch? && id == s.nextId;
      assert forall i | i in Uses(s.threads[v]) :: i in Mentions(s.threads[v]);
      assert Unmet(s, v, id);
      assert forall i | i in Uses(s.threads[t]) :: i in Mentions(s.threads[t]);
    } else {
      assert Unmet(s, v, id) && Unmet(s, t, id);
    }
    UnmetMoved(s, t, v, id);
  }

  lemma UnmetMoved(s: Server, t: nat, v: nat, id: nat)
    requires WellFormed(s) && t <= s.n && v <= s.n && Unmet(s, v, id) && Unmet(s, t, id)
    requires s.threads[t].Insert? ==> s.threads[t].id != id
    ensures WellFormed(TickStep(s, t)) && Unmet(TickStep(s, t), v, id)
  {
    if Deref(s.threads[t]) <= s.pool.Keys {
      TickUses(s, t);
      UnmetKept(s, TickStep(s, t), v, id);
    }
  }

  // ---------------------------------------------------------------- every action

  lemma AlwaysTick(s: Server, t: nat)
    requires AlwaysInv(s) && Enabled(s, Tick(t))
    ensures AlwaysInv(TickStep(s, t))
  {
    var s' := TickStep(s, t);
    IdStep(s, Tick(t));
    IssuedStep(s, Tick(t));
    forall u: nat, v: nat | u <= s.n && v <= s.n && s'.threads[u].Insert? ensures Unmet(s', v, s'.threads[u].id) {
      UnmetTick(s, t, u, v);
    }
    forall u: nat | u <= s.n ensures Tame(s', u) {
      AlwaysTame(s, t, u);
    }
  }

  lemma AlwaysTame(s: Server, t: nat, u: nat)
    requires AlwaysInv(s) && Enabled(s, Tick(t)) && u <= s.n
    ensures WellFormed(TickStep(s, t)) && TickStep(s, t).n == s.n && Tame(TickStep(s, t), u)
  {
    var s' := TickStep(s, t);
    assert Tame(s, t) && Tame(s, u);
    if !(Deref(s.threads[t]) <= s.pool.Keys) {
      if u == t { TameFault(s, t); } else { TameFrame(s, s', u); }
    } else {
      AlwaysLive(s, t, u);
    }
  }

  lemma AlwaysLive(s: Server, t: nat, u: nat)
    requires AlwaysInv(s) && Enabled(s, Tick(t)) && u <= s.n && Deref(s.threads[t]) <= s.pool.Keys
    ensures WellFormed(TickStep(s, t)) && TickStep(s, t).n == s.n && Tame(TickStep(s, t), u)
  {
    var s' := TickStep(s, t);
    assert Tame(s, t) && Tame(s, u);
    TameDeref(s, t);
    TickShape(s, t);
    if u == t {
      assert forall id | id in Uses(s.threads[t]) :: id in Mentions(s.threads[t]);
      TameOwn(s, s', t);
    } else {
      TickedPool(s, s', t);
      TameFrame(s, s', u);
    }
  }

  lemma AlwaysQueue(s: Server, s': Server, q: nat)
    requires AlwaysInv(s) && q <= s.n && IdInv(s') && IssuedInv(s') && s'.n == s.n && s'.base == s.base
    requires s'.pool == s.pool && s'.queues == s.queues[q := s'.queues[q]] && s'.refusing == s.refusing
    requires s'.threads == s.threads || (s'.threads == s.threads[q := s'.threads[q]] && !s'.threads[q].Insert?)
    requires Tame(s', q) && (forall id | Unmet(s, q, id) :: Unmet(s', q, id))
    ensures AlwaysInv(s')
  {
    forall u: nat | u <= s.n && u != q ensures Tame(s', u) {
      assert Tame(s, u);
      TameFrame(s, s', u);
    }
    forall u: nat, v: nat | u <= s.n && v <= s.n && s'.threads[u].Insert? ensures Unmet(s', v, s'.threads[u].id) {
      assert Unmet(s, v, s.threads[u].id);
    }
  }

  lemma AlwaysDeliver(s: Server, t: nat, e: Event, ok: bool)
    requires AlwaysInv(s) && Enabled(s, Deliver(t, e, ok))
    ensures AlwaysInv(Step(s, Deliver(t, e, ok)))
  {
    var s' := Step(s, Deliver(t, e, ok));
    IdStep(s, Deliver(t, e, ok));
    IssuedStep(s, Deliver(t, e, ok));
    assert Tame(s, t);
    TameTaken(s, s', t, e, ok);
    AlwaysQueue(s, s', t);
  }

  lemma TameTaken(s: Server, s': Server, t: nat, e: Event, ok: bool)
    requires WellFormed(s) && t <= s.n && Tame(s, t) && s.threads[t] == Waiting && e in s.queues[t]
    requires Becomes(s, s', t, s.pool, s.queues[t] - multiset{e}, Got(e, ok))
    ensures Tame(s', t) && forall id | Unmet(s, t, id) :: Unmet(s', t, id)
  {
    PendingTake(s.queues[t], e);
    assert Near(s, t, e.id);
    assert e.id in s.pool ==> Own(s, t, e.id);
  }

  lemma AlwaysAccept(s: Server, q: nat, id: nat)
    requires AlwaysInv(s) && Enabled(s, Accept(q, id))
    ensures AlwaysInv(Step(s, Accept(q, id)))
  {
    var s' := Step(s, Accept(q, id));
    IdStep(s, Accept(q, id));
    IssuedStep(s, Accept(q, id));
    assert Tame(s, q);
    TameAccept(s, s', q, id);
    AlwaysQueue(s, s', q);
  }

  lemma TameAccept(s: Server, s': Server, t: nat, id: nat)
    requires WellFormed(s) && t <= s.n && Tame(s, t) && Armed(id) in s.queues[t]
    requires Becomes(s, s', t, s.pool, s.queues[t] - multiset{Armed(id)} + multiset{Request(id)}, s.threads[t])
    ensures Tame(s', t) && forall i | Unmet(s, t, i) :: Unmet(s', t, i)
  {
    assert Near(s, t, Armed(id).id);
    assert forall e | e in s'.queues[t] :: e in s.queues[t] || e == Request(id);
    assert forall i :: Pending(s'.queues[t], i) == Pending(s.queues[t], i);
  }

  lemma AlwaysDrain(s: Server, q: nat, e: Event)
    requires AlwaysInv(s) && Enabled(s, MainDrain(q, e))
    ensures AlwaysInv(Step(s, MainDrain(q, e)))
  {
    var s' := Step(s, MainDrain(q, e));
    IdStep(s, MainDrain(q, e));
    IssuedStep(s, MainDrain(q, e));
    assert Tame(s, q) && s'.queues[q] <= s.queues[q];
    assert forall i :: Pending(s'.queues[q], i) <= Pending(s.queues[q], i);
    assert IssuedInv(s');
    AlwaysQueue(s, s', q);
  }

  lemma AlwaysRelease(s: Server)
    requires AlwaysInv(s) && Enabled(s, Release)
    ensures AlwaysInv(Step(s, Release))
  {
    var s' := Step(s, Release);
    IdStep(s, Release);
    IssuedStep(s, Release);
    forall t: nat | t <= s.n ensures Tame(s', t) {
      TameRelease(s, t);
    }
    forall u: nat, v: nat | u <= s.n && v <= s.n && s'.threads[u].Insert? ensures Unmet(s', v, s'.threads[u].id) {
      assert Unmet(s, v, s.threads[u].id);
    }
  }

  /** The server starts to refuse calls, a queue is shut down, a thread ends. */
  lemma AlwaysRest(s: Server, a: Action)
    requires AlwaysInv(s) && Enabled(s, a) && (a.Refuse? || a.ShutQueue? || a.Exit?)
    ensures AlwaysInv(Step(s, a))
  {
    var s' := Step(s, a);
    IdStep(s, a);
    IssuedStep(s, a);
    forall t: nat | t <= s.n ensures Tame(s', t) {
      assert Tame(s, t);
      if !(a == Exit(t)) { TameFrame(s, s', t); }
    }
    forall u: nat, v: nat | u <= s.n && v <= s.n && s'.threads[u].Insert? ensures Unmet(s', v, s'.threads[u].id) {
      assert Unmet(s, v, s.threads[u].id);
    }
  }

  lemma AlwaysStart(n: nat, nextId: nat, pool: map<nat, Entry>)
    requires forall id | id in pool :: id < nextId
    ensures AlwaysInv(Start(n, nextId, pool))
  {
    StartInv(n, nextId, pool);
    var s := Start(n, nextId, pool);
    forall t: nat | t <= s.n ensures Tame(s, t) && !s.threads[t].Insert? && Mentions(s.threads[t]) == {} {
      assert s.queues[t] == multiset{} && s.threads[t] == Fetch(Booting(KindsOn(n, t)));
    }
  }

  lemma AlwaysStep(s: Server, a: Action)
    requires AlwaysInv(s) && Enabled(s, a)
    ensures AlwaysInv(Step(s, a))
  {
    match a {
      case Tick(t) => AlwaysTick(s, t);
      case Deliver(t, e, ok) => AlwaysDeliver(s, t, e, ok);
      case Accept(q, id) => AlwaysAccept(s, q, id);
      case MainDrain(q, e) => AlwaysDrain(s, q, e);
      case Release => AlwaysRelease(s);
      case Restart(n) => AlwaysStart(n, s.nextId, s.pool);
      case Refuse => AlwaysRest(s, a);
      case ShutQueue(_) => AlwaysRest(s, a);
      case Exit(_) => AlwaysRest(s, a);
    }
  }

  // ---------------------------------------------------------------- answers to come

  /** The thread is going to arm or to answer rpc `id`. */
  predicate HeadsFor(pc: Pc, id: nat) {
    || Answering(pc, id)
    || (pc.Setup? && pc.id == id)
    || (pc.Got? && IsListener(pc.event) && pc.event.id == id)
  }

  predicate Awaits(q: multiset<Event>, pc: Pc, id: nat) {
    Armed(id) in q || Request(id) in q || HeadsFor(pc, id)
  }

  /** Rpc `id` may still be answered. */
  ghost predicate CanAnswer(s: Server, id: nat) {
    || id >= s.nextId
    || InsertPending(s, id)
    || (s.base <= id && id in s.pool && var t := s.pool[id].queue;
        t < |s.queues| && t < |s.threads| && Awaits(s.queues[t], s.threads[t], id))
  }

  ghost predicate AtMostOne(s: Server, id: nat, life: seq<Phase>) {
    var answers := multiset(life)[Answered];
    answers == 0 || (answers == 1 && !CanAnswer(s, id))
  }

  /** A step that gives no answer gives no new prospect of one. */
  lemma AtMostOneKept(s: Server, s': Server, id: nat, life: seq<Phase>, more: seq<Phase>)
    requires AtMostOne(s, id, life) && Answered !in more && (CanAnswer(s', id) ==> CanAnswer(s, id))
    ensures AtMostOne(s', id, life + more)
  {
    assert multiset(life + more) == multiset(life) + multiset(more);
  }

  /** The statements of thread `t` on its own rpc. */
  lemma AwaitsOwn(s: Server, s': Server, t: nat, id: nat)
    requires WellFormed(s) && t <= s.n && Tame(s, t) && Ticks(s, s', t) && Own(s, t, id)
    requires s.threads[t].Insert? ==> s.threads[t].id !in s.pool
    requires Awaits(s'.queues[t], s'.threads[t], id)
    ensures Awaits(s.queues[t], s.threads[t], id)
  {
  }

  lemma AwaitsNoMore(s: Server, s': Server, t: nat, id: nat)
    requires WellFormed(s) && t <= s.n && Tame(s, t) && Ticks(s, s', t) && Own(s, t, id) && s.threads[t] == Writing(id)
    ensures Awaits(s.queues[t], s.threads[t], id) && !Awaits(s'.queues[t], s'.threads[t], id)
  {
  }

  lemma PendingInserts(s: Server, s': Server, t: nat, id: nat)
    requires WellFormed(s) && t <= s.n && Elsewhere(s, s', t) && Ticks(s, s', t) && InsertPending(s', id)
    requires s.threads[t].Fetch? && s'.threads[t].Insert? ==> s'.threads[t].id == s.nextId
    ensures id == s.nextId || InsertPending(s, id)
  {
    var u :| 0 <= u < |s'.threads| && s'.threads[u].Insert? && s'.threads[u].id == id;
    if u != t { assert s.threads[u].Insert? && s.threads[u].id == id; }
  }

  lemma ProspectTick(s: Server, s': Server, t: nat, id: nat)
    requires IdInv(s) && t <= s.n && Tame(s, t) && Ticks(s, s', t) && Elsewhere(s, s', t)
    requires Deref(s.threads[t]) <= s.pool.Keys && CanAnswer(s', id)
    ensures CanAnswer(s, id)
  {
    TickedPool(s, s', t);
    if id >= s'.nextId {
    } else if InsertPending(s', id) {
      PendingInserts(s, s', t, id);
    } else if id !in s.pool {
      assert InsertPending(s, id);
    } else if s.pool[id].queue == t {
      AwaitsOwn(s, s', t, id);
      assert Own(s, t, id);
    }
  }

  lemma AnswerTick(s: Server, s': Server, t: nat, id: nat)
    requires IdInv(s) && t <= s.n && Tame(s, t) && Ticks(s, s', t) && Elsewhere(s, s', t)
    requires s.threads[t] == Writing(id) && id in s.pool
    ensures CanAnswer(s, id) && !CanAnswer(s', id)
  {
    AwaitsNoMore(s, s', t, id);
    InsertPendingKept(s, s', t, id);
  }

  lemma OneAnswerTick(s: Server, t: nat, id: nat, life: seq<Phase>)
    requires AlwaysInv(s) && Enabled(s, Tick(t)) && AtMostOne(s, id, life)
    ensures AtMostOne(TickStep(s, t), id, life + PhaseOf(s, Tick(t), id))
  {
    var s', more := TickStep(s, t), PhaseOf(s, Tick(t), id);
    if !(Deref(s.threads[t]) <= s.pool.Keys) {
      if CanAnswer(s', id) { ProspectFault(s, t, id); }
      AtMostOneKept(s, s', id, life, more);
    } else {
      assert Tame(s, t);
      TameDeref(s, t);
      TickShape(s, t);
      TickElsewhere(s, t);
      if s.threads[t] == Writing(id) {
        AnswerTick(s, s', t, id);
        assert more == [Answered];
      } else {
        if CanAnswer(s', id) { ProspectTick(s, s', t, id); }
        AtMostOneKept(s, s', id, life, more);
      }
    }
  }

  lemma ProspectFault(s: Server, t: nat, id: nat)
    requires WellFormed(s) && t <= s.n && CanAnswer(s.(threads := s.threads[t := Fault]), id)
    ensures CanAnswer(s, id)
  {
    var s' := s.(threads := s.threads[t := Fault]);
    if InsertPending(s', id) {
      var u :| 0 <= u < |s'.threads| && s'.threads[u].Insert? && s'.threads[u].id == id;
      assert s.threads[u].Insert? && s.threads[u].id == id;
    }
  }

  lemma ProspectDeliver(s: Server, t: nat, e: Event, ok: bool, id: nat)
    requires AlwaysInv(s) && Enabled(s, Deliver(t, e, ok)) && CanAnswer(Step(s, Deliver(t, e, ok)), id)
    ensures CanAnswer(s, id)
  {
    var s' := Step(s, Deliver(t, e, ok));
    InsertPendingKept(s, s', t, id);
    assert Tame(s, t) && Near(s, t, e.id);
  }

  lemma ProspectRestart(s: Server, n: nat, id: nat)
    requires IdInv(s) && CanAnswer(Start(n, s.nextId, s.pool), id)
    ensures id >= s.nextId
  {
    var s' := Start(n, s.nextId, s.pool);
    assert forall t | 0 <= t < |s'.threads| :: s'.threads[t].Fetch?;
    assert !InsertPending(s', id);
  }

  lemma ProspectOther(s: Server, a: Action, id: nat)
    requires AlwaysInv(s) && Enabled(s, a) && !a.Tick? && !a.Deliver? && CanAnswer(Step(s, a), id)
    ensures CanAnswer(s, id)
  {
    var s' := Step(s, a);
    if a.Exit? {
      InsertPendingKept(s, s', a.t, id);
    } else if a.Restart? {
      ProspectRestart(s, a.n, id);
    } else {
      assert s'.threads == s.threads;
      assert InsertPending(s', id) <==> InsertPending(s, id);
    }
  }

  lemma OneAnswerStep(s: Server, a: Action, id: nat, life: seq<Phase>)
    requires AlwaysInv(s) && Enabled(s, a) && AtMostOne(s, id, life)
    ensures AtMostOne(Step(s, a), id, life + PhaseOf(s, a, id))
  {
    if a.Tick? {
      OneAnswerTick(s, a.t, id, life);
    } else {
      if CanAnswer(Step(s, a), id) {
        if a.Deliver? { ProspectDeliver(s, a.t, a.event, a.ok, id); } else { ProspectOther(s, a, id); }
      }
      AtMostOneKept(s, Step(s, a), id, life, PhaseOf(s, a, id));
    }
  }

  // ---------------------------------------------------------------- main result

  lemma {:induction false} OneAnswerRun(n: nat, r: Run, id: nat)
    requires Valid(Start(n, 0, map[]), r)
    ensures AlwaysInv(After(Start(n, 0, map[]), r))
    ensures AtMostOne(After(Start(n, 0, map[]), r), id, Life(Start(n, 0, map[]), r, id))
  {
    var s0 := Start(n, 0, map[]);
    match r
    case Begin => AlwaysStart(n, 0, map[]);
    case Then(past, a) =>
      OneAnswerRun(n, past, id);
      AlwaysStep(After(s0, past), a);
      OneAnswerStep(After(s0, past), a, id, Life(s0, past, id));
  }

  /** No rpc is answered twice, over all interleavings, releases and restarts of the process. */
  lemma NeverAnsweredTwice(n: nat, r: Run, id: nat)
    requires Valid(Start(n, 0, map[]), r)
    ensures multiset(Life(Start(n, 0, map[]), r, id))[Answered] <= 1
  {
    OneAnswerRun(n, r, id);
  }
}
