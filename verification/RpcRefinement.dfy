/** The pooled server refines the example: seen from one queue and one kind that `start` sets up on
    it, its pool is the heap of the example and both produce the same observations, as long as no
    event of that kind fails.  On a common queue the thread serves the other seven kinds in between;
    the example then waits in `Next`. */
module RpcRefinement {
  import opened RpcModel
  import opened RpcInvariant
  import opened CallDataExample

  // ---------------------------------------------------------------- abstraction

  function Why(c: Caller): Purpose {
    if c.Replacing? then Successor(c.parent) else FirstCall
  }

  /** The pooled server writes the state after it has started an operation, the example before. */
  function ObjectState(pc: Pc, id: nat, st: RpcState): RpcState {
    if pc.MarkProcess? && pc.id == id then Process
    else if pc.MarkFinish? && pc.id == id then Finish
    else st
  }

  predicate IsKind(pool: map<nat, Entry>, id: nat, kind: Kind) {
    id in pool && pool[id].kind == kind
  }

  /** The next statement of the thread is about an rpc of kind `kind`. */
  predicate WorksFor(pool: map<nat, Entry>, pc: Pc, kind: Kind) {
    match pc
    case Fetch(Booting(todo)) => todo != [] && todo[0] == kind
    case Fetch(Replacing(p)) => IsKind(pool, p, kind)
    case Insert(_, _, made, _) => made == kind
    case Setup(_, id, _) => IsKind(pool, id, kind)
    case MarkProcess(_, id) => IsKind(pool, id, kind)
    case Got(e, _) => IsKind(pool, e.id, kind)
    case Processing(id) => IsKind(pool, id, kind)
    case Writing(id) => IsKind(pool, id, kind)
    case MarkFinish(id) => IsKind(pool, id, kind)
    case Removing(id) => IsKind(pool, id, kind)
    case _ => false
  }

  function BootKinds(c: Caller): seq<Kind> {
    if c.Booting? then c.todo else []
  }

  /** What the start-up code was called for, this kind and those after it. */
  function Todo(pc: Pc): seq<Kind> {
    match pc
    case Fetch(c) => BootKinds(c)
    case Insert(c, _, _, _) => BootKinds(c)
    case Setup(c, _, _) => BootKinds(c)
    case MarkProcess(c, _) => BootKinds(c)
    case _ => []
  }

  function WorkPoint(pc: Pc): Point {
    match pc
    case Fetch(c) => Allocate(Why(c))
    case Insert(c, _, _, _) => Allocate(Why(c))
    case Setup(c, id, _) => SetProcess(Why(c), id)
    case MarkProcess(c, _) => if c.Replacing? then SetFinish(c.parent) else Next
    case Got(e, _) => Took(e)
    case Processing(id) => SetFinish(id)
    case Writing(id) => SetFinish(id)
    case Removing(id) => Delete(id)
    case _ => Next
  }

  /** The example waits while the thread works for another kind, and has not begun while its kind is
      still to be started up. */
  function PointOf(pool: map<nat, Entry>, pc: Pc, kind: Kind): Point {
    if WorksFor(pool, pc, kind) then WorkPoint(pc)
    else if kind in Todo(pc) then Allocate(FirstCall)
    else Next
  }

  ghost predicate Mine(s: Server, t: nat, kind: Kind, id: nat) {
    Own(s, t, id) && s.pool[id].kind == kind
  }

  ghost function Heap(s: Server, t: nat, kind: Kind): map<nat, RpcState>
    requires t < |s.threads|
  {
    map id | id in s.pool && Mine(s, t, kind, id) :: ObjectState(s.threads[t], id, s.pool[id].state)
  }

  ghost function Events(s: Server, t: nat, kind: Kind): set<Event>
    requires t < |s.queues|
  {
    set e | e in s.queues[t] && Mine(s, t, kind, e.id)
  }

  /** The example's view of queue `t`, its thread and the rpcs of kind `kind`. */
  ghost function View(s: Server, t: nat, kind: Kind): Example
    requires WellFormed(s) && t <= s.n
  {
    Example(Heap(s, t, kind), multiset(Events(s, t, kind)), PointOf(s.pool, s.threads[t], kind))
  }

  /** The moves of the example that match an action of the pooled server. */
  function Matches(s: Server, t: nat, kind: Kind, a: Action): seq<Move> {
    match a
    case Accept(q, id) => if q == t && IsKind(s.pool, id, kind) then [Arrive(id)] else []
    case Deliver(u, e, _) => if u == t && IsKind(s.pool, e.id, kind) then [Return(e, true)] else []
    case Tick(u) => if u == t && t < |s.threads| && WorksFor(s.pool, s.threads[t], kind) then TickMatches(s.threads[t]) else []
    case _ => []
  }

  function TickMatches(pc: Pc): seq<Move> {
    match pc
    case Insert(_, id, _, _) => [Do(id)]
    case Setup(_, _, _) => [Do(0), Do(0)]
    case Got(_, _) => [Do(0)]
    case Writing(_) => [Do(0), Do(0)]
    case Removing(_) => [Do(0)]
    case _ => []
  }

  /** What the pooled server lets see of kind `kind` on queue `t`. */
  function Shown(s: Server, t: nat, kind: Kind, a: Action): seq<Sight> {
    match a
    case Deliver(u, Request(id), true) => if u == t && IsKind(s.pool, id, kind) then [SawRequest(id)] else []
    case Tick(u) => if u == t && t < |s.threads| && WorksFor(s.pool, s.threads[t], kind) then TickShown(s.threads[t]) else []
    case _ => []
  }

  function TickShown(pc: Pc): seq<Sight> {
    match pc
    case Writing(id) => [SawAnswer(id)]
    case Removing(id) => [SawDelete(id)]
    case _ => []
  }

  /** The restriction of the example: no failed event of the watched kind.  Calls may be refused and
      events of other kinds and queues may fail. */
  predicate AllOk(s: Server, t: nat, kind: Kind, a: Action) {
    !a.Release? && !a.Restart? && (a.Deliver? && a.t == t && IsKind(s.pool, a.event.id, kind) ==> a.ok)
  }

  /** The event that thread `t` has taken did not fail. */
  ghost predicate GotOk(s: Server, t: nat, kind: Kind) {
    t < |s.threads| && (s.threads[t].Got? && IsKind(s.pool, s.threads[t].event.id, kind) ==> s.threads[t].ok)
  }

  // ---------------------------------------------------------------- steps the example does not see

  ghost predicate SameObjects(s: Server, s': Server, t: nat, kind: Kind)
    requires t < |s.threads| && t < |s'.threads|
  {
    forall id :: (Mine(s, t, kind, id) <==> Mine(s', t, kind, id))
                 && (Mine(s, t, kind, id) ==>
                       ObjectState(s'.threads[t], id, s'.pool[id].state) == ObjectState(s.threads[t], id, s.pool[id].state))
  }

  ghost predicate SameEvents(s: Server, s': Server, t: nat, kind: Kind)
    requires t < |s.queues| && t < |s'.queues|
  {
    forall e: Event | Mine(s, t, kind, e.id) :: e in s'.queues[t] <==> e in s.queues[t]
  }

  ghost predicate SamePoint(s: Server, s': Server, t: nat, kind: Kind)
    requires t < |s.threads| && t < |s'.threads|
  {
    PointOf(s'.pool, s'.threads[t], kind) == PointOf(s.pool, s.threads[t], kind)
  }

  /** Everything the view is made of is the same. */
  ghost predicate Unseen(s: Server, s': Server, t: nat, kind: Kind) {
    && WellFormed(s) && WellFormed(s') && t <= s.n == s'.n
    && SameObjects(s, s', t, kind) && SameEvents(s, s', t, kind) && SamePoint(s, s', t, kind)
  }

  lemma UnseenView(s: Server, s': Server, t: nat, kind: Kind)
    requires Unseen(s, s', t, kind)
    ensures View(s', t, kind) == View(s, t, kind)
  {
    assert Heap(s', t, kind) == Heap(s, t, kind);
    assert Events(s', t, kind) == Events(s, t, kind);
  }

  /** The example can make `moves`, shows `shown` and ends in the view of `s'`. */
  ghost predicate Simulates(s: Server, s': Server, t: nat, kind: Kind, moves: seq<Move>, shown: seq<Sight>)
    requires WellFormed(s) && WellFormed(s') && t <= s.n == s'.n
  {
    && Playable(View(s, t, kind), moves)
    && Played(View(s, t, kind), moves) == View(s', t, kind)
    && Sights(View(s, t, kind), moves) == shown
  }

  lemma UnseenSimulates(s: Server, s': Server, t: nat, kind: Kind)
    requires Unseen(s, s', t, kind)
    ensures Simulates(s, s', t, kind, [], [])
  {
    UnseenView(s, s', t, kind);
  }

  /** The start-up code creates no kind twice. */
  lemma FirstOnly(n: nat, t: nat, todo: seq<Kind>)
    requires IsSuffix(todo, KindsOn(n, t)) && todo != []
    ensures todo[0] !in todo[1..] && IsSuffix(todo[1..], KindsOn(n, t))
  {
    KindsDistinct(n, t);
  }

  predicate Marks(pc: Pc) {
    pc.MarkProcess? || pc.MarkFinish?
  }

  /** Nothing is inserted, erased or written, and no write of a watched state is now owed. */
  lemma ObjectsKept(s: Server, s': Server, t: nat, kind: Kind)
    requires t < |s.threads| && t < |s'.threads| && s'.pool == s.pool && s'.base == s.base
    requires s'.threads[t] == s.threads[t] || !Marks(s.threads[t])
    requires s'.threads[t] == s.threads[t] || (Marks(s'.threads[t]) ==> !IsKind(s.pool, s'.threads[t].id, kind))
    ensures SameObjects(s, s', t, kind)
  {
  }

  /** An owed write is done. */
  lemma ObjectsMarked(s: Server, s': Server, t: nat, kind: Kind, id: nat)
    requires t < |s.threads| && t < |s'.threads| && s'.base == s.base
    requires Marks(s.threads[t]) && s.threads[t].id == id && !Marks(s'.threads[t])
    requires s'.pool == SetState(s.pool, id, if s.threads[t].MarkProcess? then Process else Finish)
    ensures SameObjects(s, s', t, kind)
  {
  }

  lemma ObjectsInserted(s: Server, s': Server, t: nat, kind: Kind, id: nat, made: Kind)
    requires t < |s.threads| && t < |s'.threads| && s'.base == s.base && !Marks(s.threads[t]) && !Marks(s'.threads[t])
    requires id !in s.pool && made != kind && s'.pool == s.pool[id := Entry(made, t, Create)]
    ensures SameObjects(s, s', t, kind)
  {
  }

  lemma ObjectsRemoved(s: Server, s': Server, t: nat, kind: Kind, id: nat)
    requires t < |s.threads| && t < |s'.threads| && s'.base == s.base && !Marks(s.threads[t]) && !Marks(s'.threads[t])
    requires !IsKind(s.pool, id, kind) && s'.pool == s.pool - {id}
    ensures SameObjects(s, s', t, kind)
  {
  }

  lemma PointFetch(s: Server, s': Server, t: nat, kind: Kind, c: Caller)
    requires WellFormed(s) && t <= s.n && PcInv(s, t) && s.threads[t] == Fetch(c)
    requires Becomes(s, s', t, s.pool, s.queues[t], Fetched(s, t, c))
    ensures SamePoint(s, s', t, kind)
  {
    assert c.Booting? ==> WorksFor(s.pool, Fetch(c), kind) == (c.todo != [] && c.todo[0] == kind);
  }

  lemma PointInsert(pool: map<nat, Entry>, pool': map<nat, Entry>, kind: Kind, c: Caller, id: nat, made: Kind, q: nat)
    requires made != kind && pool' == pool[id := Entry(made, q, Create)]
    ensures PointOf(pool', Setup(c, id, q), kind) == PointOf(pool, Insert(c, id, made, q), kind)
  {
  }

  lemma PointSetup(pool: map<nat, Entry>, kind: Kind, c: Caller, id: nat, q: nat)
    requires !IsKind(pool, id, kind)
    ensures PointOf(pool, MarkProcess(c, id), kind) == PointOf(pool, Setup(c, id, q), kind)
  {
  }

  lemma PointResume(s: Server, t: nat, kind: Kind, c: Caller, id: nat)
    requires WellFormed(s) && t <= s.n && PcInv(s, t) && s.threads[t] == MarkProcess(c, id)
    ensures PointOf(SetState(s.pool, id, Process), Resume(c), kind) == PointOf(s.pool, MarkProcess(c, id), kind)
  {
    match c {
      case Booting(todo) =>
        FirstOnly(s.n, t, todo);
        PointBooted(s.pool, SetState(s.pool, id, Process), kind, todo, id);
      case Replacing(p) =>
        assert IsKind(s.pool, p, kind) == IsKind(s.pool, id, kind);
        assert IsKind(SetState(s.pool, id, Process), p, kind) == IsKind(s.pool, p, kind);
    }
  }

  lemma PointBooted(pool: map<nat, Entry>, pool': map<nat, Entry>, kind: Kind, todo: seq<Kind>, id: nat)
    requires todo != [] && id in pool && pool[id].kind == todo[0] && todo[0] !in todo[1..]
    ensures PointOf(pool', Fetch(Booting(todo[1..])), kind) == PointOf(pool, MarkProcess(Booting(todo), id), kind)
  {
    var rest := todo[1..];
    assert todo == [todo[0]] + rest;
    assert WorksFor(pool, MarkProcess(Booting(todo), id), kind) == (todo[0] == kind);
  }

  lemma PointDispatch(pool: map<nat, Entry>, kind: Kind, e: Event, ok: bool)
    requires e.id in pool && !IsKind(pool, e.id, kind) && pool[e.id].state != Create
    ensures PointOf(pool, Dispatch(e, ok, pool[e.id]), kind) == PointOf(pool, Got(e, ok), kind)
  {
  }

  /** A statement that is about another kind. */
  lemma OtherCreating(s: Server, s': Server, t: nat, kind: Kind)
    requires At(s, t) && Ticks(s, s', t) && !WorksFor(s.pool, s.threads[t], kind)
    requires s.threads[t].Insert? || s.threads[t].Setup?
    requires s.threads[t].Insert? ==> s.threads[t].id !in s.pool
    ensures Unseen(s, s', t, kind)
  {
    match s.threads[t] {
      case Insert(c, id, made, q) =>
        ObjectsInserted(s, s', t, kind, id, made);
        PointInsert(s.pool, s'.pool, kind, c, id, made, q);
      case Setup(c, id, q) =>
        ObjectsKept(s, s', t, kind);
        PointSetup(s.pool, kind, c, id, q);
    }
  }

  lemma OtherServing(s: Server, s': Server, t: nat, kind: Kind)
    requires At(s, t) && Ticks(s, s', t) && !WorksFor(s.pool, s.threads[t], kind)
    requires s.threads[t].Got? || s.threads[t].Writing? || s.threads[t].Removing?
    ensures Unseen(s, s', t, kind)
  {
    match s.threads[t] {
      case Got(e, ok) =>
        ObjectsKept(s, s', t, kind);
        PointDispatch(s.pool, kind, e, ok);
      case Writing(id) => ObjectsKept(s, s', t, kind);
      case Removing(id) => ObjectsRemoved(s, s', t, kind, id);
    }
  }

  /** A statement that the example does not have. */
  lemma SilentStatement(s: Server, s': Server, t: nat, kind: Kind)
    requires At(s, t) && Ticks(s, s', t)
    requires s.threads[t].Fetch? || s.threads[t].MarkProcess? || s.threads[t].Processing? || s.threads[t].MarkFinish?
    ensures Unseen(s, s', t, kind)
  {
    match s.threads[t] {
      case Fetch(c) =>
        ObjectsKept(s, s', t, kind);
        PointFetch(s, s', t, kind, c);
      case MarkProcess(c, id) =>
        ObjectsMarked(s, s', t, kind, id);
        PointResume(s, t, kind, c, id);
      case Processing(id) => ObjectsKept(s, s', t, kind);
      case MarkFinish(id) => ObjectsMarked(s, s', t, kind, id);
    }
  }

  lemma UnseenDeliver(s: Server, s': Server, t: nat, kind: Kind, e: Event, ok: bool)
    requires At(s, t) && s.threads[t] == Waiting && e in s.queues[t] && !IsKind(s.pool, e.id, kind)
    requires Becomes(s, s', t, s.pool, s.queues[t] - multiset{e}, Got(e, ok))
    ensures Unseen(s, s', t, kind)
  {
    ObjectsKept(s, s', t, kind);
  }

  lemma UnseenAccept(s: Server, s': Server, t: nat, kind: Kind, id: nat)
    requires At(s, t) && Armed(id) in s.queues[t] && !IsKind(s.pool, id, kind)
    requires Becomes(s, s', t, s.pool, s.queues[t] - multiset{Armed(id)} + multiset{Request(id)}, s.threads[t])
    ensures Unseen(s, s', t, kind)
  {
    ObjectsKept(s, s', t, kind);
  }

  /** A statement that the example does not have, or that is about another kind. */
  lemma UnseenTick(s: Server, s': Server, t: nat, kind: Kind)
    requires At(s, t) && Ticks(s, s', t)
    requires s.threads[t].Insert? ==> s.threads[t].id !in s.pool
    requires !WorksFor(s.pool, s.threads[t], kind) || TickMatches(s.threads[t]) == []
    ensures WellFormed(s') && s'.n == s.n && Unseen(s, s', t, kind)
  {
    var pc := s.threads[t];
    if pc.Fetch? || pc.MarkProcess? || pc.Processing? || pc.MarkFinish? {
      SilentStatement(s, s', t, kind);
    } else if pc.Insert? || pc.Setup? {
      OtherCreating(s, s', t, kind);
    } else {
      OtherServing(s, s', t, kind);
    }
  }

  /** Another thread moves, or the server begins to refuse calls. */
  lemma UnseenSame(s: Server, s': Server, t: nat, kind: Kind)
    requires At(s, t) && WellFormed(s') && Same(s, s', t)
    ensures Unseen(s, s', t, kind) && (GotOk(s, t, kind) ==> GotOk(s', t, kind))
  {
    SameKinds(s, s', t, kind);
    assert forall id | Mine(s, t, kind, id) :: Own(s, t, id);
    assert forall id | Mine(s', t, kind, id) :: Own(s', t, id);
  }

  lemma SameKinds(s: Server, s': Server, t: nat, kind: Kind)
    requires At(s, t) && WellFormed(s') && Same(s, s', t)
    ensures WorksFor(s.pool, s.threads[t], kind) == WorksFor(s'.pool, s'.threads[t], kind)
    ensures s.threads[t].Got? ==> IsKind(s.pool, s.threads[t].event.id, kind) == IsKind(s'.pool, s'.threads[t].event.id, kind)
  {
  }

  // ---------------------------------------------------------------- steps the example makes

  /** The events of a kind, when one is added or taken away. */
  lemma EventAdded(s: Server, s': Server, t: nat, kind: Kind, e: Event)
    requires t < |s.queues| && t < |s'.queues| && Mine(s, t, kind, e.id) && e !in s.queues[t]
    requires s'.queues[t] == s.queues[t] + multiset{e} && s'.pool == s.pool && s'.base == s.base
    ensures multiset(Events(s', t, kind)) == multiset(Events(s, t, kind)) + multiset{e}
  {
    assert Events(s', t, kind) == Events(s, t, kind) + {e};
  }

  lemma EventTaken(s: Server, s': Server, t: nat, kind: Kind, e: Event)
    requires t < |s.queues| && t < |s'.queues| && Mine(s, t, kind, e.id) && s.queues[t][e] == 1
    requires s'.queues[t] == s.queues[t] - multiset{e} && s'.pool == s.pool && s'.base == s.base
    ensures multiset(Events(s', t, kind)) == multiset(Events(s, t, kind)) - multiset{e}
  {
    assert Events(s', t, kind) == Events(s, t, kind) - {e};
  }

  lemma EventAccepted(s: Server, s': Server, t: nat, kind: Kind, id: nat)
    requires t < |s.queues| && t < |s'.queues| && Mine(s, t, kind, id)
    requires s.queues[t][Armed(id)] == 1 && Request(id) !in s.queues[t] && s'.pool == s.pool && s'.base == s.base
    requires s'.queues[t] == s.queues[t] - multiset{Armed(id)} + multiset{Request(id)}
    ensures multiset(Events(s', t, kind)) == multiset(Events(s, t, kind)) - multiset{Armed(id)} + multiset{Request(id)}
    ensures Armed(id) in Events(s, t, kind)
  {
    assert Events(s', t, kind) == Events(s, t, kind) - {Armed(id)} + {Request(id)};
  }

  lemma SimOne(s: Server, s': Server, t: nat, kind: Kind, m: Move)
    requires WellFormed(s) && WellFormed(s') && t <= s.n == s'.n
    requires Can(View(s, t, kind), m) && Made(View(s, t, kind), m) == View(s', t, kind)
    ensures Simulates(s, s', t, kind, [m], Seen(View(s, t, kind), m))
  {
    PlayOne(View(s, t, kind), m);
  }

  lemma SimTwo(s: Server, s': Server, t: nat, kind: Kind)
    requires WellFormed(s) && WellFormed(s') && t <= s.n == s'.n
    requires var v := View(s, t, kind);
             && (v.point.SetProcess? || v.point.SetFinish?)
             && Made(Made(v, Do(0)), Do(0)) == View(s', t, kind)
    ensures var v := View(s, t, kind);
            Simulates(s, s', t, kind, [Do(0), Do(0)], if v.point.SetFinish? then [SawAnswer(v.point.address)] else [])
  {
    PlayTwo(View(s, t, kind), Do(0), Do(0));
  }

  /** The objects of a kind, when one is inserted, started, finished or erased. */
  lemma HeapInserted(s: Server, s': Server, t: nat, kind: Kind, id: nat)
    requires t < |s.threads| && t < |s'.threads| && s'.base == s.base && !Marks(s.threads[t]) && !Marks(s'.threads[t])
    requires s.base <= id && id !in s.pool && s'.pool == s.pool[id := Entry(kind, t, Create)]
    ensures Heap(s', t, kind) == Heap(s, t, kind)[id := Create]
  {
  }

  lemma HeapStarted(s: Server, s': Server, t: nat, kind: Kind, id: nat)
    requires t < |s.threads| && t < |s'.threads| && s'.base == s.base && s'.pool == s.pool && Mine(s, t, kind, id)
    requires !Marks(s.threads[t]) && Marks(s'.threads[t]) && s'.threads[t].id == id
    ensures Heap(s', t, kind) == Heap(s, t, kind)[id := if s'.threads[t].MarkProcess? then Process else Finish]
  {
  }

  lemma HeapErased(s: Server, s': Server, t: nat, kind: Kind, id: nat)
    requires t < |s.threads| && t < |s'.threads| && s'.base == s.base && !Marks(s.threads[t]) && !Marks(s'.threads[t])
    requires s'.pool == s.pool - {id}
    ensures Heap(s', t, kind) == Heap(s, t, kind) - {id}
  {
  }

  lemma HeapKept(s: Server, s': Server, t: nat, kind: Kind)
    requires t < |s.threads| && t < |s'.threads| && s'.pool == s.pool && s'.base == s.base
    requires s'.threads[t] == s.threads[t] || (!Marks(s.threads[t]) && !Marks(s'.threads[t]))
    ensures Heap(s', t, kind) == Heap(s, t, kind)
  {
  }

  lemma SimInsert(s: Server, s': Server, t: nat, kind: Kind, c: Caller, id: nat)
    requires At(s, t) && s.threads[t] == Insert(c, id, kind, t) && s.base <= id && id !in s.pool
    requires Becomes(s, s', t, s.pool[id := Entry(kind, t, Create)], s.queues[t], Setup(c, id, t))
    ensures Simulates(s, s', t, kind, [Do(id)], [])
  {
    HeapInserted(s, s', t, kind, id);
    EventsInserted(s, s', t, kind, id);
    SimOne(s, s', t, kind, Do(id));
  }

  lemma EventsInserted(s: Server, s': Server, t: nat, kind: Kind, id: nat)
    requires At(s, t) && t < |s'.queues| && s'.base == s.base && s'.queues[t] == s.queues[t]
    requires id !in s.pool && s'.pool == s.pool[id := Entry(kind, t, Create)]
    ensures Events(s', t, kind) == Events(s, t, kind)
  {
    assert forall e | e in s.queues[t] :: e.id != id;
  }

  lemma SimSetup(s: Server, s': Server, t: nat, kind: Kind, c: Caller, id: nat)
    requires At(s, t) && s.threads[t] == Setup(c, id, t) && IsKind(s.pool, id, kind)
    requires Becomes(s, s', t, s.pool, s.queues[t] + multiset{Armed(id)}, MarkProcess(c, id))
    ensures Simulates(s, s', t, kind, [Do(0), Do(0)], [])
  {
    assert id in Holds(s.threads[t]) && Pending(s.queues[t], id) == 0;
    ViewSetup(s, s', t, kind, c, id);
  }

  lemma ViewSetup(s: Server, s': Server, t: nat, kind: Kind, c: Caller, id: nat)
    requires WellFormed(s) && t <= s.n && s.threads[t] == Setup(c, id, t) && Mine(s, t, kind, id) && Armed(id) !in s.queues[t]
    requires Becomes(s, s', t, s.pool, s.queues[t] + multiset{Armed(id)}, MarkProcess(c, id))
    ensures Simulates(s, s', t, kind, [Do(0), Do(0)], [])
  {
    EventAdded(s, s', t, kind, Armed(id));
    HeapStarted(s, s', t, kind, id);
    SimTwo(s, s', t, kind);
  }

  lemma SimGot(s: Server, s': Server, t: nat, kind: Kind, e: Event)
    requires At(s, t) && s.threads[t] == Got(e, true) && IsKind(s.pool, e.id, kind)
    requires Becomes(s, s', t, s.pool, s.queues[t], Dispatch(e, true, s.pool[e.id]))
    ensures Simulates(s, s', t, kind, [Do(0)], [])
  {
    ViewGot(s, s', t, kind, e);
  }

  lemma ViewGot(s: Server, s': Server, t: nat, kind: Kind, e: Event)
    requires WellFormed(s) && t <= s.n && s.threads[t] == Got(e, true)
    requires Mine(s, t, kind, e.id) && s.pool[e.id].state != Create
    requires Becomes(s, s', t, s.pool, s.queues[t], Dispatch(e, true, s.pool[e.id]))
    ensures Simulates(s, s', t, kind, [Do(0)], [])
  {
    HeapKept(s, s', t, kind);
    assert Heap(s, t, kind)[e.id] == s.pool[e.id].state;
    assert Events(s', t, kind) == Events(s, t, kind);
    SimOne(s, s', t, kind, Do(0));
  }

  lemma SimWriting(s: Server, s': Server, t: nat, kind: Kind, id: nat)
    requires At(s, t) && s.threads[t] == Writing(id) && IsKind(s.pool, id, kind)
    requires Becomes(s, s', t, s.pool, s.queues[t] + multiset{Done(id)}, MarkFinish(id))
    ensures Simulates(s, s', t, kind, [Do(0), Do(0)], [SawAnswer(id)])
  {
    assert id in Holds(s.threads[t]) && Pending(s.queues[t], id) == 0;
    ViewWriting(s, s', t, kind, id);
  }

  lemma ViewWriting(s: Server, s': Server, t: nat, kind: Kind, id: nat)
    requires WellFormed(s) && t <= s.n && s.threads[t] == Writing(id) && Mine(s, t, kind, id) && Done(id) !in s.queues[t]
    requires Becomes(s, s', t, s.pool, s.queues[t] + multiset{Done(id)}, MarkFinish(id))
    ensures Simulates(s, s', t, kind, [Do(0), Do(0)], [SawAnswer(id)])
  {
    EventAdded(s, s', t, kind, Done(id));
    HeapStarted(s, s', t, kind, id);
    SimTwo(s, s', t, kind);
  }

  lemma SimRemoving(s: Server, s': Server, t: nat, kind: Kind, id: nat)
    requires At(s, t) && s.threads[t] == Removing(id) && IsKind(s.pool, id, kind)
    requires Becomes(s, s', t, s.pool - {id}, s.queues[t], Waiting)
    ensures Simulates(s, s', t, kind, [Do(0)], [SawDelete(id)])
  {
    assert id in Holds(s.threads[t]) && Pending(s.queues[t], id) == 0;
    assert forall e | e in s.queues[t] :: e.id != id;
    ViewRemoving(s, s', t, kind, id);
  }

  lemma ViewRemoving(s: Server, s': Server, t: nat, kind: Kind, id: nat)
    requires WellFormed(s) && t <= s.n && s.threads[t] == Removing(id) && Mine(s, t, kind, id)
    requires forall e | e in s.queues[t] :: e.id != id
    requires Becomes(s, s', t, s.pool - {id}, s.queues[t], Waiting)
    ensures Simulates(s, s', t, kind, [Do(0)], [SawDelete(id)])
  {
    HeapErased(s, s', t, kind, id);
    assert Events(s', t, kind) == Events(s, t, kind);
    SimOne(s, s', t, kind, Do(0));
  }

  lemma SimDeliver(s: Server, s': Server, t: nat, kind: Kind, e: Event)
    requires At(s, t) && s.threads[t] == Waiting && e in s.queues[t] && IsKind(s.pool, e.id, kind) && !e.Armed?
    requires Becomes(s, s', t, s.pool, s.queues[t] - multiset{e}, Got(e, true))
    ensures Simulates(s, s', t, kind, [Return(e, true)], (if e.Request? then [SawRequest(e.id)] else []))
  {
    assert Own(s, t, e.id) && Pending(s.queues[t], e.id) == 1;
    ViewDeliver(s, s', t, kind, e);
  }

  lemma ViewDeliver(s: Server, s': Server, t: nat, kind: Kind, e: Event)
    requires WellFormed(s) && t <= s.n && s.threads[t] == Waiting && Mine(s, t, kind, e.id) && !e.Armed?
    requires s.queues[t][e] == 1
    requires Becomes(s, s', t, s.pool, s.queues[t] - multiset{e}, Got(e, true))
    ensures Simulates(s, s', t, kind, [Return(e, true)], (if e.Request? then [SawRequest(e.id)] else []))
  {
    EventTaken(s, s', t, kind, e);
    HeapKept(s, s', t, kind);
    SimOne(s, s', t, kind, Return(e, true));
  }

  lemma SimAccept(s: Server, s': Server, t: nat, kind: Kind, id: nat)
    requires At(s, t) && Armed(id) in s.queues[t] && IsKind(s.pool, id, kind)
    requires Becomes(s, s', t, s.pool, s.queues[t] - multiset{Armed(id)} + multiset{Request(id)}, s.threads[t])
    ensures Simulates(s, s', t, kind, [Arrive(id)], [])
  {
    assert Own(s, t, Armed(id).id) && Pending(s.queues[t], id) == 1;
    ViewAccept(s, s', t, kind, id);
  }

  lemma ViewAccept(s: Server, s': Server, t: nat, kind: Kind, id: nat)
    requires WellFormed(s) && t <= s.n && Mine(s, t, kind, id)
    requires s.queues[t][Armed(id)] == 1 && Request(id) !in s.queues[t]
    requires Becomes(s, s', t, s.pool, s.queues[t] - multiset{Armed(id)} + multiset{Request(id)}, s.threads[t])
    ensures Simulates(s, s', t, kind, [Arrive(id)], [])
  {
    EventAccepted(s, s', t, kind, id);
    HeapKept(s, s', t, kind);
    SimOne(s, s', t, kind, Arrive(id));
  }

  lemma SimTick(s: Server, s': Server, t: nat, kind: Kind)
    requires At(s, t) && Ticks(s, s', t) && GotOk(s, t, kind)
    requires s.threads[t].Insert? ==> s.base <= s.threads[t].id && s.threads[t].id !in s.pool
    requires WorksFor(s.pool, s.threads[t], kind) && TickMatches(s.threads[t]) != []
    ensures WellFormed(s') && s'.n == s.n
    ensures Simulates(s, s', t, kind, TickMatches(s.threads[t]), TickShown(s.threads[t]))
  {
    match s.threads[t] {
      case Insert(c, id, _, _) => SimInsert(s, s', t, kind, c, id);
      case Setup(c, id, _) => SimSetup(s, s', t, kind, c, id);
      case Got(e, _) => SimGot(s, s', t, kind, e);
      case Writing(id) => SimWriting(s, s', t, kind, id);
      case Removing(id) => SimRemoving(s, s', t, kind, id);
    }
  }

  // ---------------------------------------------------------------- every action

  /** What is shown of one action. */
  ghost predicate Simulated(s: Server, s': Server, t: nat, kind: Kind, a: Action) {
    && WellFormed(s) && WellFormed(s') && t <= s.n == s'.n && GotOk(s', t, kind)
    && Simulates(s, s', t, kind, Matches(s, t, kind, a), Shown(s, t, kind, a))
  }

  lemma Conclude(s: Server, s': Server, t: nat, kind: Kind, a: Action, moves: seq<Move>, shown: seq<Sight>)
    requires WellFormed(s) && WellFormed(s') && t <= s.n == s'.n && GotOk(s', t, kind)
    requires moves == Matches(s, t, kind, a) && shown == Shown(s, t, kind, a)
    requires Simulates(s, s', t, kind, moves, shown)
    ensures Simulated(s, s', t, kind, a)
  {
  }

  lemma SimOwnTick(s: Server, t: nat, kind: Kind)
    requires IdInv(s) && t <= s.n && LocalInv(s, t) && GotOk(s, t, kind) && Enabled(s, Tick(t))
    ensures Simulated(s, TickStep(s, t), t, kind, Tick(t))
  {
    UsesLiveRpcs(s, t);
    TickShape(s, t);
    SimTicked(s, TickStep(s, t), t, kind);
  }

  lemma SimTicked(s: Server, s': Server, t: nat, kind: Kind)
    requires At(s, t) && Ticks(s, s', t) && GotOk(s, t, kind)
    requires s.threads[t].Insert? ==> s.base <= s.threads[t].id && s.threads[t].id !in s.pool
    ensures Simulated(s, s', t, kind, Tick(t))
  {
    TickNotGot(s, s', t);
    var pc := s.threads[t];
    assert TickMatches(pc) == [] ==> TickShown(pc) == [];
    if WorksFor(s.pool, pc, kind) && TickMatches(pc) != [] {
      SimTick(s, s', t, kind);
      Conclude(s, s', t, kind, Tick(t), TickMatches(pc), TickShown(pc));
    } else {
      UnseenTick(s, s', t, kind);
      UnseenSimulates(s, s', t, kind);
      Conclude(s, s', t, kind, Tick(t), [], []);
    }
  }

  lemma TickNotGot(s: Server, s': Server, t: nat)
    requires At(s, t) && Ticks(s, s', t)
    ensures WellFormed(s') && s'.n == s.n && !s'.threads[t].Got?
  {
  }

  lemma SimOwnAccept(s: Server, s': Server, t: nat, kind: Kind, id: nat)
    requires At(s, t) && Armed(id) in s.queues[t] && GotOk(s, t, kind)
    requires Becomes(s, s', t, s.pool, s.queues[t] - multiset{Armed(id)} + multiset{Request(id)}, s.threads[t])
    ensures Simulated(s, s', t, kind, Accept(t, id))
  {
    if IsKind(s.pool, id, kind) {
      SimAccept(s, s', t, kind, id);
      Conclude(s, s', t, kind, Accept(t, id), [Arrive(id)], []);
    } else {
      UnseenAccept(s, s', t, kind, id);
      UnseenSimulates(s, s', t, kind);
      Conclude(s, s', t, kind, Accept(t, id), [], []);
    }
  }

  lemma SimOwnDeliver(s: Server, s': Server, t: nat, kind: Kind, e: Event, ok: bool)
    requires At(s, t) && s.threads[t] == Waiting && e in s.queues[t] && MayDeliver(s.refusing, e, ok)
    requires AllOk(s, t, kind, Deliver(t, e, ok))
    requires Becomes(s, s', t, s.pool, s.queues[t] - multiset{e}, Got(e, ok))
    ensures Simulated(s, s', t, kind, Deliver(t, e, ok))
  {
    if IsKind(s.pool, e.id, kind) {
      SimDeliver(s, s', t, kind, e);
      Conclude(s, s', t, kind, Deliver(t, e, ok), [Return(e, true)], if e.Request? then [SawRequest(e.id)] else []);
    } else {
      UnseenDeliver(s, s', t, kind, e, ok);
      UnseenSimulates(s, s', t, kind);
      Conclude(s, s', t, kind, Deliver(t, e, ok), [], []);
    }
  }

  lemma SimOthers(s: Server, a: Action, t: nat, kind: Kind)
    requires Inv(s) && !s.released && t <= s.n && GotOk(s, t, kind) && Enabled(s, a) && AllOk(s, t, kind, a)
    requires a != Tick(t) && !(a.Deliver? && a.t == t) && !(a.Accept? && a.q == t)
    ensures Simulated(s, Step(s, a), t, kind, a)
  {
    assert LocalInv(s, t);
    var s' := Step(s, a);
    if a.Tick? {
      assert LocalInv(s, a.t);
      TickOthers(s, a.t, t);
    }
    SameOthers(s, a, t);
    UnseenSame(s, s', t, kind);
    UnseenSimulates(s, s', t, kind);
  }

  lemma SameOthers(s: Server, a: Action, t: nat)
    requires UpInv(s) && t <= s.n && Enabled(s, a) && !a.Release? && !a.Restart?
    requires a != Tick(t) && !(a.Deliver? && a.t == t) && !(a.Accept? && a.q == t)
    requires a.Tick? ==> Same(s, TickStep(s, a.t), t)
    ensures var s' := Step(s, a); WellFormed(s') && s'.n == s.n && Same(s, s', t)
  {
  }

  lemma SimStep(s: Server, a: Action, t: nat, kind: Kind)
    requires Inv(s) && !s.released && t <= s.n && GotOk(s, t, kind) && Enabled(s, a) && AllOk(s, t, kind, a)
    ensures Inv(Step(s, a)) && !Step(s, a).released && Simulated(s, Step(s, a), t, kind, a)
  {
    InvStep(s, a);
    assert LocalInv(s, t);
    if a == Tick(t) {
      SimOwnTick(s, t, kind);
    } else if a.Deliver? && a.t == t {
      SimOwnDeliver(s, Step(s, a), t, kind, a.event, a.ok);
    } else if a.Accept? && a.q == t {
      SimOwnAccept(s, Step(s, a), t, kind, a.id);
    } else {
      SimOthers(s, a, t, kind);
    }
  }

  // ---------------------------------------------------------------- runs

  ghost predicate AllOkRun(s0: Server, t: nat, kind: Kind, r: Run)
    requires Valid(s0, r)
  {
    match r
    case Begin => true
    case Then(past, a) => AllOkRun(s0, t, kind, past) && AllOk(After(s0, past), t, kind, a)
  }

  ghost function ShownRun(s0: Server, t: nat, kind: Kind, r: Run): seq<Sight>
    requires Valid(s0, r)
  {
    match r
    case Begin => []
    case Then(past, a) => ShownRun(s0, t, kind, past) + Shown(After(s0, past), t, kind, a)
  }

  ghost function MatchesRun(s0: Server, t: nat, kind: Kind, r: Run): seq<Move>
    requires Valid(s0, r)
  {
    match r
    case Begin => []
    case Then(past, a) => MatchesRun(s0, t, kind, past) + Matches(After(s0, past), t, kind, a)
  }

  /** A server as `start` leaves it: the first of the process, or a later one. */
  ghost predicate IsStart(s: Server) {
    s == Start(s.n, s.nextId, s.pool) && forall id | id in s.pool :: id < s.nextId
  }

  /** Each restart of the process gives such a server again; the pool and the id counter live as
      long as the process. */
  lemma RestartStarts(s: Server, n: nat)
    requires Reachable(s) && Enabled(s, Restart(n))
    ensures IsStart(Step(s, Restart(n)))
    ensures var s' := Step(s, Restart(n)); s'.n == n && s'.pool == s.pool && s'.nextId == s.nextId
  {
    ReachableInv(s);
  }

  /** The queue and the kind are a pair that `start` sets up. */
  predicate SetUp(s0: Server, t: nat, kind: Kind) {
    t <= s0.n && kind in KindsOn(s0.n, t)
  }

  lemma StartView(s0: Server, t: nat, kind: Kind)
    requires IsStart(s0) && SetUp(s0, t, kind)
    ensures Inv(s0) && WellFormed(s0) && !s0.released && View(s0, t, kind) == ExampleStart() && GotOk(s0, t, kind)
  {
    StartInv(s0.n, s0.nextId, s0.pool);
    assert s0.threads[t] == Fetch(Booting(KindsOn(s0.n, t)));
    assert Heap(s0, t, kind) == map[] && Events(s0, t, kind) == {};
  }

  /** The moves so far lead the example to the view of `s`. */
  ghost predicate Mirrors(s: Server, t: nat, kind: Kind, moves: seq<Move>, shown: seq<Sight>) {
    && Inv(s) && !s.released && t <= s.n && GotOk(s, t, kind)
    && Playable(ExampleStart(), moves)
    && Played(ExampleStart(), moves) == View(s, t, kind)
    && Sights(ExampleStart(), moves) == shown
  }

  lemma MirrorsOn(s: Server, t: nat, kind: Kind, moves: seq<Move>, shown: seq<Sight>, a: Action)
    requires Mirrors(s, t, kind, moves, shown) && Enabled(s, a) && AllOk(s, t, kind, a)
    ensures Mirrors(Step(s, a), t, kind, moves + Matches(s, t, kind, a), shown + Shown(s, t, kind, a))
    ensures Step(s, a).n == s.n
  {
    SimStep(s, a, t, kind);
    PlayOn(ExampleStart(), moves, Matches(s, t, kind, a));
  }

  lemma {:induction false} SimRun(s0: Server, t: nat, kind: Kind, r: Run)
    requires IsStart(s0) && SetUp(s0, t, kind) && Valid(s0, r) && AllOkRun(s0, t, kind, r)
    ensures Mirrors(After(s0, r), t, kind, MatchesRun(s0, t, kind, r), ShownRun(s0, t, kind, r))
    ensures After(s0, r).n == s0.n
  {
    match r
    case Begin => StartView(s0, t, kind);
    case Then(past, a) =>
      SimRun(s0, t, kind, past);
      MirrorsOn(After(s0, past), t, kind, MatchesRun(s0, t, kind, past), ShownRun(s0, t, kind, past), a);
  }

  lemma {:induction false} MatchesOk(s0: Server, t: nat, kind: Kind, r: Run)
    requires Valid(s0, r)
    ensures AllReturnOk(MatchesRun(s0, t, kind, r))
  {
    match r
    case Begin =>
    case Then(past, a) =>
      MatchesOk(s0, t, kind, past);
      assert AllReturnOk(Matches(After(s0, past), t, kind, a));
  }

  /** Refinement: every run of the pooled server, watched on one queue for one kind that `start` set
      up there, is a run of the example with the same requests, answers and deletions; at its end the
      heap of the example is the part of the pool that belongs to the queue and the kind, with the
      same states up to an assignment that the pooled server makes one statement later. */
  lemma RefinesExample(s0: Server, t: nat, kind: Kind, r: Run)
    requires IsStart(s0) && SetUp(s0, t, kind) && Valid(s0, r) && AllOkRun(s0, t, kind, r)
    ensures var s := After(s0, r);
            && WellFormed(s) && t <= s.n
            && exists moves ::
                 && Playable(ExampleStart(), moves) && AllReturnOk(moves)
                 && Played(ExampleStart(), moves) == View(s, t, kind)
                 && Sights(ExampleStart(), moves) == ShownRun(s0, t, kind, r)
  {
    SimRun(s0, t, kind, r);
    MatchesOk(s0, t, kind, r);
  }
}
