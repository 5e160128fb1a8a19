/** The asynchronous RPC life cycle of the server as a transition system.

    `n` inference threads and one common thread each consume their own completion queue; thread
    `t` owns queue `t`, and queue `n` is the common one.  They share the rpc pool and its id
    counter.  Every statement that touches shared state (the id fetch, the map insert, the start
    of an operation, the write of the state field, the erase) is a step of its own, and an
    `Action` says which thread or which part of the environment moves next, so that runs range
    over all interleavings.

    A completion-queue tag is the address of an rpc object.  It is modelled by the id of that
    object, and the object is alive while the pool has an entry for the id: apart from the
    temporary that `create_rpc` returns, the pool holds the only owner. */
module RpcModel {

  datatype Kind =
    | ServerLive | ServerReady | ServerMetadata | ModelList | ModelLoad
    | ModelMetadata | ModelReady | ModelUnload | ModelInfer

  datatype RpcState = Create | Process | Finish

  datatype Entry = Entry(kind: Kind, queue: nat, state: RpcState)

  /** A started operation whose event has not been delivered.  A listener is `Armed` until a call
      arrives, then it is a `Request`; `Done` is the completion of a response. */
  datatype Event = Armed(id: nat) | Request(id: nat) | Done(id: nat)

  /** Who called `execute` on a fresh rpc: the start-up code of a thread, the PROCESS branch of
      `parent`, or (never, as is proved) the handler loop. */
  datatype Caller = Booting(todo: seq<Kind>) | Replacing(parent: nat) | Handling

  /** The next thing a thread does. */
  datatype Pc =
    | Fetch(caller: Caller)                                     // next_id++
    | Insert(caller: Caller, id: nat, kind: Kind, queue: nat)   // _rpcs[rpc_id] = rpc
    | Setup(caller: Caller, id: nat, queue: nat)                // setup_request()
    | MarkProcess(caller: Caller, id: nat)                      // _rpc_state = PROCESS
    | Waiting                                                   // cq->Next(&tag, &ok)
    | Got(event: Event, ok: bool)                               // inspect ok, then switch on the state
    | Processing(id: nat)                                       // process_request()
    | Writing(id: nat)                                          // write_response()
    | MarkFinish(id: nat)                                       // _rpc_state = FINISH
    | Removing(id: nat)                                         // remove_rpc(rpc->id)
    | Exited                                                    // Next returned false
    | Fault                                                     // a dead rpc object was used

  datatype Server = Server(
    n: nat,
    base: nat,
    nextId: nat,
    pool: map<nat, Entry>,
    queues: seq<multiset<Event>>,
    threads: seq<Pc>,
    refusing: bool,
    released: bool,
    shut: set<nat>)

  /** Environment: a call arrives, the server starts refusing calls, the pool is released, a queue
      is shut down, the stopping thread drains a queue, a new server is started by the main loop.
      Threads: `Next` delivers an event, a thread executes its next statement, `Next` returns
      false. */
  datatype Action =
    | Accept(q: nat, id: nat)
    | Refuse
    | Deliver(t: nat, event: Event, ok: bool)
    | Tick(t: nat)
    | Exit(t: nat)
    | Release
    | ShutQueue(q: nat)
    | MainDrain(q: nat, event: Event)
    | Restart(n: nat)

  function CommonKinds(): seq<Kind> {
    [ServerLive, ServerReady, ServerMetadata, ModelList, ModelLoad, ModelMetadata, ModelReady, ModelUnload]
  }

  /** The kinds that the start-up code of thread `q` creates on queue `q`, in order. */
  function KindsOn(n: nat, q: nat): seq<Kind> {
    if q < n then [ModelInfer] else CommonKinds()
  }

  /** The state in which `start` leaves the server; the pool and the id counter are process-wide
      and keep whatever earlier servers left in them. */
  function Start(n: nat, nextId: nat, pool: map<nat, Entry>): Server {
    Server(n, nextId, nextId, pool,
           seq(n + 1, _ => multiset{}),
           seq(n + 1, t requires 0 <= t => Fetch(Booting(KindsOn(n, t)))),
           false, false, {})
  }

  predicate WellFormed(s: Server) {
    |s.queues| == |s.threads| == s.n + 1
  }

  predicate IsListener(e: Event) {
    e.Armed? || e.Request?
  }

  /** The completion-queue contract: an accepted call is delivered with `ok`, a listener fails
      only once the server refuses calls, a finished response may or may not be delivered `ok`. */
  predicate MayDeliver(refusing: bool, e: Event, ok: bool) {
    match e
    case Request(_) => ok
    case Armed(_) => !ok && refusing
    case Done(_) => true
  }

  predicate Enabled(s: Server, a: Action) {
    WellFormed(s) &&
    match a
    case Accept(q, id) => q < |s.queues| && !s.refusing && Armed(id) in s.queues[q]
    case Refuse => !s.refusing
    case Deliver(t, e, ok) => t < |s.threads| && s.threads[t].Waiting? && e in s.queues[t] && MayDeliver(s.refusing, e, ok)
    case Tick(t) => t < |s.threads| && !s.threads[t].Waiting? && !s.threads[t].Exited? && !s.threads[t].Fault?
    case Exit(t) => t < |s.threads| && s.threads[t].Waiting? && t in s.shut && s.queues[t] == multiset{}
    case Release => true
    case ShutQueue(q) => s.released && s.refusing
    case MainDrain(q, e) => q < |s.queues| && q in s.shut && e in s.queues[q]
    case Restart(_) => forall t | 0 <= t < |s.threads| :: s.threads[t].Exited?
  }

  /** The rpc objects that the next statement reaches through a raw pointer (`this` or a tag). */
  function Deref(pc: Pc): set<nat> {
    match pc
    case Fetch(Replacing(p)) => {p}
    case Setup(Handling, id, _) => {id}
    case MarkProcess(Handling, id) => {id}
    case Got(e, _) => {e.id}
    case Processing(id) => {id}
    case Writing(id) => {id}
    case MarkFinish(id) => {id}
    case Removing(id) => {id}
    case _ => {}
  }

  function Enqueue(s: Server, q: nat, e: Event): Server {
    if q < |s.queues| then s.(queues := s.queues[q := s.queues[q] + multiset{e}]) else s
  }

  function SetState(pool: map<nat, Entry>, id: nat, st: RpcState): map<nat, Entry> {
    if id in pool then pool[id := pool[id].(state := st)] else pool
  }

  /** Where control goes when `execute` returns from its CREATE branch. */
  function Resume(c: Caller): Pc {
    match c
    case Booting(todo) => Fetch(Booting(if todo == [] then [] else todo[1..]))
    case Replacing(p) => Processing(p)
    case Handling => Waiting
  }

  function Goto(s: Server, t: nat, pc: Pc): Server
    requires t < |s.threads|
  {
    s.(threads := s.threads[t := pc])
  }

  /** Where `create_rpc` continues once it owns a fresh id: start-up creates the next kind of its
      list on its own queue, a replacement copies the kind and the queue of its parent. */
  function Fetched(s: Server, t: nat, c: Caller): Pc {
    match c
    case Booting(todo) => if todo == [] then Waiting else Insert(c, s.nextId, todo[0], t)
    case Replacing(p) => if p in s.pool then Insert(c, s.nextId, s.pool[p].kind, s.pool[p].queue) else Fault
    case Handling => Waiting
  }

  /** The handler loop after `Next`: a failed event removes the rpc; otherwise `execute` switches
      on the state, and its FINISH branch returns false, which removes the rpc as well. */
  function Dispatch(e: Event, ok: bool, entry: Entry): Pc {
    if !ok then Removing(e.id)
    else
      match entry.state
      case Create => Setup(Handling, e.id, entry.queue)
      case Process => Fetch(Replacing(e.id))
      case Finish => Removing(e.id)
  }

  /** Where one statement of thread `t` leaves its program counter.  A fresh rpc is in state CREATE,
      so its `execute` begins with `setup_request`. */
  function NextPc(s: Server, t: nat): Pc
    requires t < |s.threads| && Deref(s.threads[t]) <= s.pool.Keys
  {
    match s.threads[t]
    case Fetch(c) => Fetched(s, t, c)
    case Insert(c, id, kind, queue) => Setup(c, id, queue)
    case Setup(c, id, queue) => MarkProcess(c, id)
    case MarkProcess(c, id) => Resume(c)
    case Got(e, ok) => Dispatch(e, ok, s.pool[e.id])
    case Processing(id) => Writing(id)
    case Writing(id) => MarkFinish(id)
    case MarkFinish(id) => Waiting
    case Removing(id) => Waiting
    case pc => pc
  }

  /** What that statement does to the shared state. */
  function Effect(s: Server, t: nat): (s': Server)
    requires t < |s.threads| && Deref(s.threads[t]) <= s.pool.Keys
    ensures s' == s.(nextId := s'.nextId, pool := s'.pool, queues := s'.queues) && |s'.queues| == |s.queues|
  {
    match s.threads[t]
    case Fetch(c) => if Fetched(s, t, c).Insert? then s.(nextId := s.nextId + 1) else s
    case Insert(c, id, kind, queue) => s.(pool := s.pool[id := Entry(kind, queue, Create)])
    case Setup(c, id, queue) => Enqueue(s, queue, Armed(id))
    case MarkProcess(c, id) => s.(pool := SetState(s.pool, id, Process))
    case Writing(id) => Enqueue(s, s.pool[id].queue, Done(id))
    case MarkFinish(id) => s.(pool := SetState(s.pool, id, Finish))
    case Removing(id) => s.(pool := s.pool - {id})
    case _ => s
  }

  /** One statement of thread `t`; using a dead rpc object is a fault. */
  function TickStep(s: Server, t: nat): Server
    requires t < |s.threads|
  {
    if Deref(s.threads[t]) <= s.pool.Keys then Goto(Effect(s, t), t, NextPc(s, t)) else Goto(s, t, Fault)
  }

  function Step(s: Server, a: Action): Server
    requires Enabled(s, a)
  {
    match a
    case Accept(q, id) =>
      s.(queues := s.queues[q := s.queues[q] - multiset{Armed(id)} + multiset{Request(id)}])
    case Refuse => s.(refusing := true)
    case Deliver(t, e, ok) =>
      Goto(s.(queues := s.queues[t := s.queues[t] - multiset{e}]), t, Got(e, ok))
    case Tick(t) => TickStep(s, t)
    case Exit(t) => Goto(s, t, Exited)
    case Release => s.(pool := map[], released := true)
    case ShutQueue(q) => s.(shut := s.shut + {q})
    case MainDrain(q, e) => s.(queues := s.queues[q := s.queues[q] - multiset{e}])
    case Restart(n) => Start(n, s.nextId, s.pool)
  }

  /** A run: the actions taken so far, the latest outermost. */
  datatype Run = Begin | Then(past: Run, action: Action)

  ghost predicate Valid(s0: Server, r: Run)
    decreases r, 0
  {
    match r
    case Begin => true
    case Then(past, a) => Valid(s0, past) && Enabled(After(s0, past), a)
  }

  ghost function After(s0: Server, r: Run): Server
    requires Valid(s0, r)
    decreases r, 1
  {
    match r
    case Begin => s0
    case Then(past, a) => Step(After(s0, past), a)
  }

  /** A run and its continuation. */
  function Append(r: Run, more: Run): Run {
    match more
    case Begin => r
    case Then(past, a) => Then(Append(r, past), a)
  }

  lemma {:induction false} AppendRun(s: Server, r: Run, more: Run)
    requires Valid(s, r) && Valid(After(s, r), more)
    ensures Valid(s, Append(r, more)) && After(s, Append(r, more)) == After(After(s, r), more)
  {
    if more.Then? { AppendRun(s, r, more.past); }
  }

  /** The whole life of the process: the first server starts with an empty pool and id 0. */
  ghost predicate Reachable(s: Server) {
    exists n: nat, r: Run :: Valid(Start(n, 0, map[]), r) && After(Start(n, 0, map[]), r) == s
  }
}
