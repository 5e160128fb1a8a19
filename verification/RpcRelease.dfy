/** What the release of the pool in `stop` may cost: exactly when a handler can go on to use a dead
    rpc object, for a release at any moment of a running server. */
module RpcRelease {
  import opened RpcModel
  import opened RpcInvariant
  import opened RpcSafety
  import opened RpcConservation
  import opened RpcDrain
  import opened RpcSequential
  import opened RpcSchedule

  /** The rest of the life of the stopped server: it is not released again, and no new server is
      started. */
  predicate NoRelease(r: Run) {
    match r
    case Begin => true
    case Then(past, a) => NoRelease(past) && !a.Release? && !a.Restart?
  }

  ghost predicate SomeFault(s: Server) {
    exists t :: 0 <= t < |s.threads| && s.threads[t] == Fault
  }

  /** Some schedule makes a thread use a dead rpc object. */
  ghost predicate CanFault(s: Server) {
    exists r :: Valid(s, r) && NoRelease(r) && SomeFault(After(s, r))
  }

  // ---------------------------------------------------------------- safe: nothing to dangle

  ghost predicate LiveCaller(s: Server, t: nat, c: Caller) {
    c.Replacing? ==> Own(s, t, c.parent)
  }

  /** The rpcs that the statements of thread `t` are going to read, write or erase. */
  ghost predicate LivePc(s: Server, t: nat)
    requires WellFormed(s) && t <= s.n
  {
    match s.threads[t]
    case Fetch(c) => LiveCaller(s, t, c)
    case Insert(c, _, _, queue) => LiveCaller(s, t, c) && queue == t
    case Setup(c, id, queue) => LiveCaller(s, t, c) && queue == t && Own(s, t, id) && id !in Parent(c)
    case MarkProcess(c, id) => LiveCaller(s, t, c) && Own(s, t, id)
    case Waiting => true
    case Got(e, _) => Own(s, t, e.id)
    case Processing(id) => Own(s, t, id)
    case Writing(id) => Own(s, t, id)
    case MarkFinish(id) => Own(s, t, id)
    case Removing(id) => Own(s, t, id)
    case Exited => true
    case Fault => false
  }

  /** Whatever thread `t` can reach is alive, and no rpc is reachable twice.  Nothing is said about
      states and kinds, so this outlives the release, the shutdown and the draining of queues. */
  ghost predicate LiveInv(s: Server, t: nat)
    requires WellFormed(s) && t <= s.n
  {
    && (forall e | e in s.queues[t] :: Own(s, t, e.id))
    && (forall id | Own(s, t, id) :: Pending(s.queues[t], id) <= if id in Holds(s.threads[t]) then 0 else 1)
    && LivePc(s, t)
  }

  ghost predicate SafeInv(s: Server) {
    IdInv(s) && forall t: nat | t <= s.n :: LiveInv(s, t)
  }

  lemma LiveFrame(s: Server, s': Server, t: nat)
    requires WellFormed(s) && WellFormed(s') && t <= s.n && Same(s, s', t) && LiveInv(s, t)
    ensures LiveInv(s', t)
  {
  }

  lemma LiveDeref(s: Server, t: nat)
    requires WellFormed(s) && t <= s.n && LiveInv(s, t)
    ensures Deref(s.threads[t]) <= s.pool.Keys && OnOwnQueue(s, t)
  {
  }

  lemma LiveCreating(s: Server, s': Server, t: nat)
    requires WellFormed(s) && t <= s.n && LiveInv(s, t) && Ticks(s, s', t)
    requires s.threads[t].Fetch? || s.threads[t].Insert?
    requires s.threads[t].Insert? ==> s.base <= s.threads[t].id && s.threads[t].id !in s.pool
    ensures LiveInv(s', t)
  {
  }

  lemma LiveArming(s: Server, s': Server, t: nat)
    requires WellFormed(s) && t <= s.n && LiveInv(s, t) && Ticks(s, s', t)
    requires s.threads[t].Setup? || s.threads[t].MarkProcess?
    ensures LiveInv(s', t)
  {
  }

  lemma LiveServing(s: Server, s': Server, t: nat)
    requires WellFormed(s) && t <= s.n && LiveInv(s, t) && Ticks(s, s', t)
    requires s.threads[t].Got? || s.threads[t].Processing? || s.threads[t].Writing?
    ensures LiveInv(s', t)
  {
  }

  lemma LiveEnding(s: Server, s': Server, t: nat)
    requires WellFormed(s) && t <= s.n && LiveInv(s, t) && Ticks(s, s', t)
    requires s.threads[t].MarkFinish? || s.threads[t].Removing?
    ensures LiveInv(s', t)
  {
  }

  lemma LivePool(s: Server, s': Server, t: nat)
    requires IdInv(s) && t <= s.n && LiveInv(s, t) && Ticks(s, s', t)
    ensures forall id | id in s.pool && s.pool[id].queue != t :: id in s'.pool && s'.pool[id] == s.pool[id]
    ensures forall id | id in s'.pool && s'.pool[id].queue != t :: id in s.pool && s'.pool[id] == s.pool[id]
  {
  }

  lemma LiveTick(s: Server, t: nat)
    requires SafeInv(s) && Enabled(s, Tick(t))
    ensures SafeInv(TickStep(s, t))
  {
    var s' := TickStep(s, t);
    LiveDeref(s, t);
    TickShape(s, t);
    LivePool(s, s', t);
    IdStep(s, Tick(t));
    forall u: nat | u <= s.n ensures LiveInv(s', u) {
      if u != t {
        LiveFrame(s, s', u);
      } else if s.threads[t].Fetch? || s.threads[t].Insert? {
        LiveCreating(s, s', t);
      } else if s.threads[t].Setup? || s.threads[t].MarkProcess? {
        LiveArming(s, s', t);
      } else if s.threads[t].MarkFinish? || s.threads[t].Removing? {
        LiveEnding(s, s', t);
      } else {
        LiveServing(s, s', t);
      }
    }
  }

  lemma LiveDeliver(s: Server, t: nat, e: Event, ok: bool)
    requires SafeInv(s) && Enabled(s, Deliver(t, e, ok))
    ensures SafeInv(Step(s, Deliver(t, e, ok)))
  {
    var s' := Step(s, Deliver(t, e, ok));
    IdStep(s, Deliver(t, e, ok));
    assert LiveInv(s, t);
    forall u: nat | u <= s.n && u != t ensures LiveInv(s', u) {
      LiveFrame(s, s', u);
    }
    LiveTaken(s, s', t, e, ok);
  }

  lemma LiveTaken(s: Server, s': Server, t: nat, e: Event, ok: bool)
    requires WellFormed(s) && t <= s.n && LiveInv(s, t) && s.threads[t] == Waiting && e in s.queues[t]
    requires Becomes(s, s', t, s.pool, s.queues[t] - multiset{e}, Got(e, ok))
    ensures LiveInv(s', t)
  {
    PendingTake(s.queues[t], e);
    assert Own(s, t, e.id) && Pending(s.queues[t], e.id) <= 1;
  }

  lemma LiveQueue(s: Server, s': Server, q: nat)
    requires SafeInv(s) && q <= s.n && IdInv(s') && s'.n == s.n && s'.base == s.base && s'.refusing == s.refusing
    requires s'.pool == s.pool && s'.threads == s.threads && s'.queues == s.queues[q := s'.queues[q]]
    requires forall e | e in s'.queues[q] :: Own(s, q, e.id)
    requires forall id :: Pending(s'.queues[q], id) <= Pending(s.queues[q], id)
    ensures SafeInv(s')
  {
    forall u: nat | u <= s.n ensures LiveInv(s', u) {
      if u != q { LiveFrame(s, s', u); }
    }
  }

  lemma LiveAccept(s: Server, q: nat, id: nat)
    requires SafeInv(s) && Enabled(s, Accept(q, id))
    ensures SafeInv(Step(s, Accept(q, id)))
  {
    var s' := Step(s, Accept(q, id));
    IdStep(s, Accept(q, id));
    assert LiveInv(s, q) && Own(s, q, Armed(id).id);
    forall e | e in s'.queues[q] ensures Own(s, q, e.id) {
      assert e in s.queues[q] || e == Request(id);
    }
    LiveQueue(s, s', q);
  }

  lemma LiveDrain(s: Server, q: nat, e: Event)
    requires SafeInv(s) && Enabled(s, MainDrain(q, e))
    ensures SafeInv(Step(s, MainDrain(q, e)))
  {
    var s' := Step(s, MainDrain(q, e));
    IdStep(s, MainDrain(q, e));
    assert LiveInv(s, q);
    assert s'.queues[q] <= s.queues[q];
    LiveQueue(s, s', q);
  }

  lemma LiveStep(s: Server, a: Action)
    requires SafeInv(s) && Enabled(s, a) && !a.Release? && !a.Restart?
    ensures SafeInv(Step(s, a))
  {
    IdStep(s, a);
    match a {
      case Tick(t) => LiveTick(s, t);
      case Deliver(t, e, ok) => LiveDeliver(s, t, e, ok);
      case Accept(q, id) => LiveAccept(s, q, id);
      case MainDrain(q, e) => LiveDrain(s, q, e);
      case Exit(t) => LiveOthers(s, a, t);
      case Refuse => LiveOthers(s, a, s.n + 1);
      case ShutQueue(_) => LiveOthers(s, a, s.n + 1);
    }
  }

  lemma LiveOthers(s: Server, a: Action, t: nat)
    requires SafeInv(s) && Enabled(s, a) && (a == Exit(t) || ((a.Refuse? || a.ShutQueue?) && t > s.n))
    ensures SafeInv(Step(s, a))
  {
    var s' := Step(s, a);
    IdStep(s, a);
    forall u: nat | u <= s.n ensures LiveInv(s', u) {
      if u != t { LiveFrame(s, s', u); }
    }
  }

  lemma {:induction false} LiveRun(s: Server, r: Run)
    requires SafeInv(s) && Valid(s, r) && NoRelease(r)
    ensures SafeInv(After(s, r))
  {
    match r
    case Begin =>
    case Then(past, a) =>
      LiveRun(s, past);
      LiveStep(After(s, past), a);
  }

  lemma SafeNeverFaults(s: Server)
    requires SafeInv(s)
    ensures !CanFault(s)
  {
    forall r | Valid(s, r) && NoRelease(r) ensures !SomeFault(After(s, r)) {
      LiveRun(s, r);
      var s' := After(s, r);
      forall t | 0 <= t < |s'.threads| ensures s'.threads[t] != Fault {
        assert LiveInv(s', t);
      }
    }
  }

  lemma EmptyRelease(s: Server)
    requires Inv(s) && !s.released && OwnIds(s) == {}
    ensures SafeInv(Step(s, Release))
  {
    var s' := Step(s, Release);
    IdStep(s, Release);
    forall t: nat | t <= s.n ensures LiveInv(s', t) {
      assert LocalInv(s, t);
      forall id ensures !Own(s, t, id) { assert Own(s, t, id) ==> id in OwnIds(s); }
    }
  }

  // ---------------------------------------------------------------- unsafe: something dangles

  /** Thread `t` holds or is still going to receive the tag of the dead rpc `id`, and on its way
      uses no other queue. */
  ghost predicate Doomed(s: Server, t: nat, id: nat) {
    && WellFormed(s) && t <= s.n && id < s.nextId && id !in s.pool
    && (Pending(s.queues[t], id) > 0 || id in Holds(s.threads[t]))
    && (!(Deref(s.threads[t]) <= s.pool.Keys) || match s.threads[t]
        case Fetch(c) => c.Booting?
        case Insert(c, i, _, queue) => !c.Handling? && i != id && i !in Parent(c) && Parent(c) !! s.pool.Keys && queue == t
        case Setup(c, _, queue) => !c.Handling? && Parent(c) !! s.pool.Keys && queue == t
        case MarkProcess(c, _) => !c.Handling? && Parent(c) !! s.pool.Keys
        case Waiting => true
        case _ => false)
  }

  /** An rpc of the server that is dropped by the release is pending or held. */
  lemma ReleaseDooms(s: Server, id: nat)
    requires Inv(s) && !s.released && id in OwnIds(s)
    ensures s.pool[id].queue <= s.n && Doomed(Step(s, Release), s.pool[id].queue, id)
  {
    var t := s.pool[id].queue;
    assert LocalInv(s, t) && Own(s, t, id);
    assert s.threads[t].Insert? ==> s.threads[t].id !in s.pool;
  }

  lemma DoomedTick(s: Server, t: nat, id: nat)
    requires Doomed(s, t, id) && !s.threads[t].Waiting? && Deref(s.threads[t]) <= s.pool.Keys
    ensures Enabled(s, Tick(t)) && Doomed(TickStep(s, t), t, id)
  {
  }

  lemma DoomedWeight(s: Server, t: nat, id: nat)
    requires Doomed(s, t, id) && !s.threads[t].Waiting? && Deref(s.threads[t]) <= s.pool.Keys
    ensures 0 <= PcWeight(TickStep(s, t).threads[t]) < PcWeight(s.threads[t])
  {
  }

  lemma Extended(s: Server, r: Run, now: Server, a: Action)
    requires Valid(s, r) && After(s, r) == now && Enabled(now, a)
    ensures Valid(s, Then(r, a)) && After(s, Then(r, a)) == Step(now, a)
  {
  }

  /** `Next` can be made to return a pending tag, whatever the event. */
  lemma DoomedWaiting(s: Server, r: Run, t: nat, id: nat) returns (r': Run)
    requires Valid(s, r) && NoRelease(r) && Doomed(After(s, r), t, id) && After(s, r).threads[t].Waiting?
    ensures Valid(s, r') && NoRelease(r') && Doomed(After(s, r'), t, id)
    ensures !(Deref(After(s, r').threads[t]) <= After(s, r').pool.Keys)
  {
    var now := After(s, r);
    var e: Event :| e in now.queues[t] && e.id == id;
    r' := r;
    if e.Armed? && !now.refusing {
      Extended(s, r, now, Refuse);
      now, r' := now.(refusing := true), Then(r, Refuse);
    }
    Extended(s, r', now, Deliver(t, e, !e.Armed?));
    DoomedTaken(now, t, e);
    r' := Then(r', Deliver(t, e, !e.Armed?));
  }

  lemma DoomedTaken(s: Server, t: nat, e: Event)
    requires Doomed(s, t, e.id) && Enabled(s, Deliver(t, e, !e.Armed?))
    ensures var s' := Step(s, Deliver(t, e, !e.Armed?));
            Doomed(s', t, e.id) && !(Deref(s'.threads[t]) <= s'.pool.Keys)
  {
    assert e.id in Deref(Got(e, !e.Armed?));
  }

  lemma DoomedDead(s: Server, r: Run, t: nat, id: nat)
    requires Valid(s, r) && NoRelease(r) && Doomed(After(s, r), t, id)
    requires !(Deref(After(s, r).threads[t]) <= After(s, r).pool.Keys)
    ensures Valid(s, Then(r, Tick(t))) && NoRelease(Then(r, Tick(t))) && SomeFault(After(s, Then(r, Tick(t))))
  {
    var s' := TickStep(After(s, r), t);
    assert After(s, Then(r, Tick(t))) == s';
    assert s'.threads[t] == Fault;
  }

  /** Thread `t` alone reaches the fault. */
  lemma {:induction false} DoomedRuns(s: Server, r: Run, t: nat, id: nat) returns (r': Run)
    requires Valid(s, r) && NoRelease(r) && Doomed(After(s, r), t, id)
    ensures Valid(s, r') && NoRelease(r') && SomeFault(After(s, r'))
    decreases PcWeight(After(s, r).threads[t])
  {
    var now := After(s, r);
    if !(Deref(now.threads[t]) <= now.pool.Keys) {
      DoomedDead(s, r, t, id);
      r' := Then(r, Tick(t));
    } else if now.threads[t].Waiting? {
      var r1 := DoomedWaiting(s, r, t, id);
      DoomedDead(s, r1, t, id);
      r' := Then(r1, Tick(t));
    } else {
      DoomedTick(now, t, id);
      DoomedWeight(now, t, id);
      assert After(s, Then(r, Tick(t))) == TickStep(now, t);
      r' := DoomedRuns(s, Then(r, Tick(t)), t, id);
    }
  }

  /** Every statement of the handler that is about a dead rpc is a fault, and does nothing else. */
  lemma DeadRpcFaults(s: Server, t: nat, id: nat)
    requires t < |s.threads| && id !in s.pool
    requires var pc := s.threads[t];
             || pc == Fetch(Replacing(id)) || pc == Processing(id) || pc == Writing(id) || pc == MarkFinish(id)
             || pc == Removing(id) || (pc.Got? && pc.event.id == id)
    ensures TickStep(s, t) == s.(threads := s.threads[t := Fault])
  {
    assert id in Deref(s.threads[t]);
  }

  // ---------------------------------------------------------------- main results

  lemma ReleaseFrom(s: Server)
    requires Inv(s) && !s.released
    ensures CanFault(Step(s, Release)) <==> OwnIds(s) != {}
  {
    if OwnIds(s) == {} {
      EmptyRelease(s);
      SafeNeverFaults(Step(s, Release));
    } else {
      var id :| id in OwnIds(s);
      ReleaseDooms(s, id);
      var s' := Step(s, Release);
      assert After(s', Begin) == s';
      var r := DoomedRuns(s', Begin, s.pool[id].queue, id);
    }
  }

  /** Whenever the running server is released: some thread can go on to use a dead rpc if and only
      if the pool holds an rpc of this server at that moment. */
  lemma ReleaseExact(s: Server)
    requires Running(s)
    ensures Enabled(s, Release)
    ensures CanFault(Step(s, Release)) <==> OwnIds(s) != {}
  {
    ReachableInv(s);
    ReleaseFrom(s);
  }

  /** Releasing a server that has an armed listener is unsafe. */
  lemma ReleaseListening(s: Server, q: nat, id: nat)
    requires Running(s) && q < |s.queues| && Armed(id) in s.queues[q]
    ensures Enabled(s, Release) && CanFault(Step(s, Release))
  {
    ReachableInv(s);
    assert LocalInv(s, q);
    assert Own(s, q, Armed(id).id) && id in OwnIds(s);
    ReleaseFrom(s);
  }

  /** A thread that has finished its start-up has an rpc: it listens, or the thread works on it. */
  lemma StartedOwns(s: Server, t: nat)
    requires Inv(s) && !s.released && !s.refusing && t <= s.n && !Boots(s.threads[t])
    ensures OwnIds(s) != {}
  {
    assert LocalInv(s, t);
    var kind := KindsOn(s.n, t)[0];
    if InGap(s, t, kind) {
      var pc := s.threads[t];
      var id := if pc.Got? then pc.event.id else pc.caller.parent;
      assert Own(s, t, id) && id in OwnIds(s);
    } else {
      var id :| Listens(s, t, kind, id);
      assert id in OwnIds(s);
    }
  }

  /** `stop` releases a server that does not yet refuse calls: that is unsafe as soon as one thread
      has finished its start-up, whatever the threads are doing. */
  lemma StopUnsafe(s: Server, t: nat)
    requires Running(s) && !s.refusing && t < |s.threads| && !Boots(s.threads[t])
    ensures Enabled(s, Release) && CanFault(Step(s, Release))
  {
    ReachableInv(s);
    StartedOwns(s, t);
    ReleaseFrom(s);
  }

  /** Releasing a server after it has refused calls and run dry is safe. */
  lemma DrainedReleaseSafe(s: Server, r: Run)
    requires Running(s) && s.refusing && Valid(s, r) && !Releases(r)
    requires forall a | Enabled(After(s, r), a) :: a.Release?
    ensures Enabled(After(s, r), Release) && !CanFault(Step(After(s, r), Release))
  {
    ReachableInv(s);
    DrainBound(s, r);
    StuckIsDrained(After(s, r));
    ReleaseFrom(After(s, r));
  }

  /** The order of `stop` on an idle server, action by action: the release, the refusal of calls,
      the failing listener, and the handler that removes it. */
  function StopRun(r: Run, t: nat, id: nat): Run {
    Then(Then(Then(Then(r, Release), Refuse), Deliver(t, Armed(id), false)), Tick(t))
  }

  /** Whatever led to it: on an idle server with an armed listener these actions are possible and end
      in the use of a dead rpc. */
  lemma StopFaults(s: Server, r: Run, now: Server, t: nat, id: nat)
    requires Valid(s, r) && now == After(s, r) && WellFormed(now) && !now.refusing
    requires t <= now.n && now.threads[t] == Waiting && Armed(id) in now.queues[t]
    ensures Valid(s, StopRun(r, t, id)) && t < |After(s, StopRun(r, t, id)).threads|
    ensures After(s, StopRun(r, t, id)).threads[t] == Fault
  {
    Extended(s, r, now, Release);
    var s1 := now.(pool := map[], released := true);
    Extended(s, Then(r, Release), s1, Refuse);
    var s2 := s1.(refusing := true);
    Extended(s, Then(Then(r, Release), Refuse), s2, Deliver(t, Armed(id), false));
    var s3 := Step(s2, Deliver(t, Armed(id), false));
    Extended(s, Then(Then(Then(r, Release), Refuse), Deliver(t, Armed(id), false)), s3, Tick(t));
  }

  const FIRST_BOOT := Then(Then(Then(Then(Then(Begin, Tick(0)), Tick(0)), Tick(0)), Tick(0)), Tick(0))

  lemma FirstBoot()
    ensures Reached(Start(1, 0, map[]), 0, FIRST_BOOT, CreateCall(Shared(0, map[], multiset{}), ModelInfer, 0), Waiting)
  {
    var s, sh := Start(1, 0, map[]), Shared(0, map[], multiset{});
    assert s == Put(s, 0, sh, Fetch(Booting([ModelInfer])));
    assert Reached(s, 0, Begin, sh, Fetch(Booting([ModelInfer])));
    var r := CreateRuns(s, 0, Begin, sh, Booting([ModelInfer]), ModelInfer);
    assert [ModelInfer][1..] == [];
    var sh' := CreateCall(sh, ModelInfer, 0);
    TickNext(s, 0, r, sh', Fetch(Booting([])), sh', Waiting);
  }

  /** A run of the process that ends in the use of a dead rpc: one inference thread starts up, and
      `stop` is called. */
  lemma ReleaseFault()
    ensures var s, r := Start(1, 0, map[]), StopRun(FIRST_BOOT, 0, 0);
            Valid(s, r) && SomeFault(After(s, r))
  {
    var s := Start(1, 0, map[]);
    FirstBoot();
    StopFaults(s, FIRST_BOOT, After(s, FIRST_BOOT), 0, 0);
  }

  // ---------------------------------------------------------------- entries of earlier servers

  /** The entries below `base` are the same in both states. */
  ghost predicate SameLeftovers(s: Server, s': Server) {
    s'.base == s.base && forall id | id < s.base :: (id in s.pool <==> id in s'.pool) && (id in s.pool ==> s'.pool[id] == s.pool[id])
  }

  lemma LeftoversTick(s: Server, s': Server, t: nat)
    requires At(s, t) && Ticks(s, s', t)
    requires s.threads[t].Insert? ==> s.base <= s.threads[t].id
    ensures SameLeftovers(s, s')
  {
  }

  lemma LeftoversStep(s: Server, a: Action)
    requires Inv(s) && !s.released && Enabled(s, a) && !a.Release?
    ensures SameLeftovers(s, Step(s, a)) && !Step(s, a).released
  {
    assert LocalInv(s, 0);
    if a.Tick? {
      assert LocalInv(s, a.t);
      UsesLiveRpcs(s, a.t);
      TickShape(s, a.t);
      LeftoversTick(s, TickStep(s, a.t), a.t);
    }
  }

  /** Until its pool is released, a server leaves what earlier servers left in the pool alone. */
  lemma {:induction false} LeftoversKept(s: Server, r: Run)
    requires Inv(s) && !s.released && Valid(s, r) && !Releases(r)
    ensures SameLeftovers(s, After(s, r)) && !After(s, r).released
  {
    if r.Then? {
      LeftoversKept(s, r.past);
      InvRun(s, r.past);
      LeftoversStep(After(s, r.past), r.action);
    }
  }

  // ---------------------------------------------------------------- a stop that completes

  lemma ShutQueues(s: Server, r: Run, now: Server, k: nat) returns (r': Run)
    requires Valid(s, r) && After(s, r) == now && WellFormed(now) && now.released && now.refusing
    ensures Valid(s, r') && After(s, r') == now.(shut := now.shut + Below(k))
  {
    if k == 0 {
      r' := r;
      assert now.shut + Below(0) == now.shut;
    } else {
      var r1 := ShutQueues(s, r, now, k - 1);
      var mid := now.(shut := now.shut + Below(k - 1));
      Extended(s, r1, mid, ShutQueue(k - 1));
      assert now.shut + Below(k - 1) + {k - 1} == now.shut + Below(k);
      r' := Then(r1, ShutQueue(k - 1));
    }
  }

  lemma DrainQueue(s: Server, r: Run, now: Server, q: nat) returns (r': Run)
    requires Valid(s, r) && After(s, r) == now && WellFormed(now) && q <= now.n && q in now.shut
    ensures Valid(s, r') && After(s, r') == now.(queues := now.queues[q := multiset{}])
    decreases |now.queues[q]|
  {
    if e :| e in now.queues[q] {
      Extended(s, r, now, MainDrain(q, e));
      var mid := now.(queues := now.queues[q := now.queues[q] - multiset{e}]);
      r' := DrainQueue(s, Then(r, MainDrain(q, e)), mid, q);
      assert mid.queues[q := multiset{}] == now.queues[q := multiset{}];
    } else {
      r' := r;
      assert now.queues[q := multiset{}] == now.queues;
    }
  }

  function EmptyUpto(queues: seq<multiset<Event>>, k: nat): seq<multiset<Event>> {
    seq(|queues|, i requires 0 <= i < |queues| => if i < k then multiset{} else queues[i])
  }

  lemma DrainQueues(s: Server, r: Run, now: Server, k: nat) returns (r': Run)
    requires Valid(s, r) && After(s, r) == now && WellFormed(now) && k <= now.n + 1 && forall q: nat | q <= now.n :: q in now.shut
    ensures Valid(s, r') && After(s, r') == now.(queues := EmptyUpto(now.queues, k))
  {
    if k == 0 {
      r' := r;
      assert EmptyUpto(now.queues, 0) == now.queues;
    } else {
      var r1 := DrainQueues(s, r, now, k - 1);
      var mid := now.(queues := EmptyUpto(now.queues, k - 1));
      r' := DrainQueue(s, r1, mid, k - 1);
      assert mid.queues[k - 1 := multiset{}] == EmptyUpto(now.queues, k);
    }
  }

  function ExitedUpto(threads: seq<Pc>, k: nat): seq<Pc> {
    seq(|threads|, i requires 0 <= i < |threads| => if i < k then Exited else threads[i])
  }

  lemma ExitThreads(s: Server, r: Run, now: Server, k: nat) returns (r': Run)
    requires Valid(s, r) && After(s, r) == now && WellFormed(now) && k <= now.n + 1
    requires forall t: nat | t <= now.n :: t in now.shut && now.queues[t] == multiset{} && now.threads[t] == Waiting
    ensures Valid(s, r') && After(s, r') == now.(threads := ExitedUpto(now.threads, k))
  {
    if k == 0 {
      r' := r;
      assert ExitedUpto(now.threads, 0) == now.threads;
    } else {
      var r1 := ExitThreads(s, r, now, k - 1);
      var mid := now.(threads := ExitedUpto(now.threads, k - 1));
      Extended(s, r1, mid, Exit(k - 1));
      r' := Then(r1, Exit(k - 1));
      assert mid.threads[k - 1 := Exited] == ExitedUpto(now.threads, k);
    }
  }

  lemma StopsFrom(s: Server) returns (r: Run)
    requires WellFormed(s) && !s.refusing && forall t | 0 <= t < |s.threads| :: s.threads[t] == Waiting
    ensures Valid(s, r)
    ensures After(s, r) == s.(pool := map[], released := true, refusing := true, shut := s.shut + Below(s.n + 1),
                              queues := EmptyUpto(s.queues, s.n + 1), threads := ExitedUpto(s.threads, s.n + 1))
  {
    Extended(s, Begin, s, Release);
    var s1 := s.(pool := map[], released := true);
    Extended(s, Then(Begin, Release), s1, Refuse);
    var s2 := s1.(refusing := true);
    var r2 := ShutQueues(s, Then(Then(Begin, Release), Refuse), s2, s.n + 1);
    var s3 := s2.(shut := s.shut + Below(s.n + 1));
    var r3 := DrainQueues(s, r2, s3, s.n + 1);
    var s4 := s3.(queues := EmptyUpto(s.queues, s.n + 1));
    r := ExitThreads(s, r3, s4, s.n + 1);
  }

  /** On an idle server `stop` can also complete without a fault, when the stopping thread takes every
      event before the handlers do; all threads then end, and the main loop can start a new server,
      with an empty pool and ids that go on. */
  lemma StopCanComplete(s: Server, m: nat)
    requires Running(s) && !s.refusing && forall t | 0 <= t < |s.threads| :: s.threads[t] == Waiting
    ensures exists r :: Valid(s, r) && Enabled(After(s, r), Restart(m))
                        && Step(After(s, r), Restart(m)) == Start(m, s.nextId, map[])
  {
    ReachableInv(s);
    var r := StopsFrom(s);
    assert forall t | 0 <= t < |After(s, r).threads| :: After(s, r).threads[t].Exited?;
    assert Enabled(After(s, r), Restart(m));
  }
}
