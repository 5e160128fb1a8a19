/** The sequential code is one schedule of the transition system: the start-up code of a thread and
    an iteration of its handler loop are runs of that thread alone, step by step. */
module RpcSchedule {
  import opened RpcModel
  import opened RpcInvariant
  import opened RpcSequential

  function SharedOf(s: Server, t: nat): Shared
    requires t < |s.queues|
  {
    Shared(s.nextId, s.pool, s.queues[t])
  }

  /** State `s` with thread `t` at `pc` and its shared state replaced. */
  function Put(s: Server, t: nat, sh: Shared, pc: Pc): Server
    requires WellFormed(s) && t <= s.n
  {
    s.(nextId := sh.nextId, pool := sh.pool, queues := s.queues[t := sh.queue], threads := s.threads[t := pc])
  }

  /** Only thread `t` moves, and calls arrive only on its queue. */
  predicate Alone(r: Run, t: nat) {
    match r
    case Begin => true
    case Then(past, Accept(q, _)) => q == t && Alone(past, t)
    case Then(past, Tick(u)) => u == t && Alone(past, t)
    case Then(past, Deliver(u, _, _)) => u == t && Alone(past, t)
    case _ => false
  }

  /** Run `r` of thread `t` alone has reached the given local state. */
  ghost predicate Reached(s: Server, t: nat, r: Run, sh: Shared, pc: Pc) {
    WellFormed(s) && t <= s.n && Valid(s, r) && Alone(r, t) && After(s, r) == Put(s, t, sh, pc)
  }

  lemma TickNext(s: Server, t: nat, r: Run, sh: Shared, pc: Pc, sh': Shared, pc': Pc)
    requires Reached(s, t, r, sh, pc) && !pc.Waiting? && !pc.Exited? && !pc.Fault?
    requires Deref(pc) <= sh.pool.Keys
    requires NextPc(Put(s, t, sh, pc), t) == pc'
    requires var e := Effect(Put(s, t, sh, pc), t);
             e.nextId == sh'.nextId && e.pool == sh'.pool && e.queues == s.queues[t := sh'.queue]
    ensures Reached(s, t, Then(r, Tick(t)), sh', pc')
  {
    assert s.threads[t := pc][t := pc'] == s.threads[t := pc'];
  }

  lemma FetchNext(s: Server, t: nat, r: Run, sh: Shared, c: Caller, kind: Kind)
    requires Reached(s, t, r, sh, Fetch(c))
    requires c.Booting? ==> c.todo != [] && c.todo[0] == kind
    requires c.Replacing? ==> c.parent in sh.pool && sh.pool[c.parent].kind == kind && sh.pool[c.parent].queue == t
    requires !c.Handling?
    ensures Reached(s, t, Then(r, Tick(t)), sh.(nextId := sh.nextId + 1), Insert(c, sh.nextId, kind, t))
  {
    TickNext(s, t, r, sh, Fetch(c), sh.(nextId := sh.nextId + 1), Insert(c, sh.nextId, kind, t));
  }

  lemma InsertNext(s: Server, t: nat, r: Run, sh: Shared, c: Caller, id: nat, kind: Kind)
    requires Reached(s, t, r, sh, Insert(c, id, kind, t))
    ensures Reached(s, t, Then(r, Tick(t)), sh.(pool := sh.pool[id := Entry(kind, t, Create)]), Setup(c, id, t))
  {
    TickNext(s, t, r, sh, Insert(c, id, kind, t), sh.(pool := sh.pool[id := Entry(kind, t, Create)]), Setup(c, id, t));
  }

  lemma SetupNext(s: Server, t: nat, r: Run, sh: Shared, c: Caller, id: nat)
    requires Reached(s, t, r, sh, Setup(c, id, t)) && !c.Handling?
    ensures Reached(s, t, Then(r, Tick(t)), sh.(queue := sh.queue + multiset{Armed(id)}), MarkProcess(c, id))
  {
    assert s.queues[t := sh.queue][t := sh.queue + multiset{Armed(id)}] == s.queues[t := sh.queue + multiset{Armed(id)}];
    TickNext(s, t, r, sh, Setup(c, id, t), sh.(queue := sh.queue + multiset{Armed(id)}), MarkProcess(c, id));
  }

  lemma MarkNext(s: Server, t: nat, r: Run, sh: Shared, c: Caller, id: nat)
    requires Reached(s, t, r, sh, MarkProcess(c, id)) && !c.Handling?
    ensures Reached(s, t, Then(r, Tick(t)), sh.(pool := SetState(sh.pool, id, Process)), Resume(c))
  {
    TickNext(s, t, r, sh, MarkProcess(c, id), sh.(pool := SetState(sh.pool, id, Process)), Resume(c));
  }

  /** `create_rpc<kind>(...)->execute()` takes four statements. */
  lemma CreateRuns(s: Server, t: nat, r: Run, sh: Shared, c: Caller, kind: Kind) returns (r': Run)
    requires Reached(s, t, r, sh, Fetch(c))
    requires c.Booting? ==> c.todo != [] && c.todo[0] == kind
    requires c.Replacing? ==> c.parent in sh.pool && sh.pool[c.parent].kind == kind && sh.pool[c.parent].queue == t
    requires !c.Handling?
    ensures r' == Then(Then(Then(Then(r, Tick(t)), Tick(t)), Tick(t)), Tick(t))
    ensures Reached(s, t, r', CreateCall(sh, kind, t), Resume(c))
  {
    var id := sh.nextId;
    FetchNext(s, t, r, sh, c, kind);
    var sh1 := sh.(nextId := id + 1);
    var r1 := Then(r, Tick(t));
    InsertNext(s, t, r1, sh1, c, id, kind);
    var sh2 := sh1.(pool := sh1.pool[id := Entry(kind, t, Create)]);
    var r2 := Then(r1, Tick(t));
    SetupNext(s, t, r2, sh2, c, id);
    var sh3 := sh2.(queue := sh2.queue + multiset{Armed(id)});
    var r3 := Then(r2, Tick(t));
    MarkNext(s, t, r3, sh3, c, id);
    r' := Then(r3, Tick(t));
    assert SetState(sh3.pool, id, Process) == CreateCall(sh, kind, t).pool;
  }

  /** The start-up code of thread `t`, uninterrupted, does what `BootAll` says. */
  lemma {:induction false} BootRuns(s: Server, t: nat, r: Run, sh: Shared, todo: seq<Kind>) returns (r': Run)
    requires Reached(s, t, r, sh, Fetch(Booting(todo)))
    ensures Reached(s, t, r', BootAll(sh, todo, t), Waiting)
    decreases todo
  {
    if todo == [] {
      TickNext(s, t, r, sh, Fetch(Booting(todo)), sh, Waiting);
      r' := Then(r, Tick(t));
    } else {
      var r1 := CreateRuns(s, t, r, sh, Booting(todo), todo[0]);
      r' := BootRuns(s, t, r1, CreateCall(sh, todo[0], t), todo[1..]);
    }
  }

  /** After `create_rpc` the PROCESS branch takes three statements. */
  lemma AnswerRuns(s: Server, t: nat, r: Run, sh: Shared, id: nat) returns (r': Run)
    requires Reached(s, t, r, sh, Processing(id)) && id in sh.pool && sh.pool[id].queue == t
    ensures Reached(s, t, r', sh.(pool := SetState(sh.pool, id, Finish), queue := sh.queue + multiset{Done(id)}), Waiting)
  {
    TickNext(s, t, r, sh, Processing(id), sh, Writing(id));
    var r1 := Then(r, Tick(t));
    var sh1 := sh.(queue := sh.queue + multiset{Done(id)});
    assert s.queues[t := sh.queue][t := sh1.queue] == s.queues[t := sh1.queue];
    TickNext(s, t, r1, sh, Writing(id), sh1, MarkFinish(id));
    var r2 := Then(r1, Tick(t));
    var sh2 := sh1.(pool := SetState(sh1.pool, id, Finish));
    TickNext(s, t, r2, sh1, MarkFinish(id), sh2, Waiting);
    r' := Then(r2, Tick(t));
  }

  lemma RemoveRuns(s: Server, t: nat, r: Run, sh: Shared, id: nat) returns (r': Run)
    requires Reached(s, t, r, sh, Removing(id)) && id in sh.pool
    ensures Reached(s, t, r', sh.(pool := sh.pool - {id}), Waiting)
  {
    TickNext(s, t, r, sh, Removing(id), sh.(pool := sh.pool - {id}), Waiting);
    r' := Then(r, Tick(t));
  }

  lemma DeliverRuns(s: Server, t: nat, e: Event, ok: bool)
    requires Enabled(s, Deliver(t, e, ok))
    ensures var sh := SharedOf(s, t);
            Reached(s, t, Then(Begin, Deliver(t, e, ok)), sh.(queue := sh.queue - multiset{e}), Got(e, ok))
  {
    var r := Then(Begin, Deliver(t, e, ok));
    assert After(s, Begin) == s && Valid(s, Begin) && Alone(Begin, t);
    assert Valid(s, r) && After(s, r) == Step(s, Deliver(t, e, ok));
  }

  /** What the handler finds when it looks at an event it can be given. */
  lemma DeliveredRpc(s: Server, t: nat, e: Event, ok: bool)
    requires Inv(s) && !s.released && Enabled(s, Deliver(t, e, ok))
    ensures e.id in s.pool && s.pool[e.id].queue == t
    ensures s.pool[e.id].state == if IsListener(e) then Process else Finish
  {
    assert LocalInv(s, t);
    assert Own(s, t, e.id);
  }

  /** An iteration of the handler loop of thread `t`, uninterrupted, does what `Handle` says. */
  lemma HandlerRuns(s: Server, t: nat, e: Event, ok: bool) returns (r: Run)
    requires Inv(s) && !s.released && Enabled(s, Deliver(t, e, ok))
    ensures e.id in s.pool
    ensures Reached(s, t, r, Handle(SharedOf(s, t), e, ok), Waiting)
  {
    DeliverRuns(s, t, e, ok);
    DeliveredRpc(s, t, e, ok);
    r := HandledRuns(s, t, e, ok, SharedOf(s, t));
  }

  lemma HandledRuns(s: Server, t: nat, e: Event, ok: bool, sh: Shared) returns (r: Run)
    requires e.id in sh.pool && sh.pool[e.id].queue == t
    requires sh.pool[e.id].state != Create
    requires Reached(s, t, Then(Begin, Deliver(t, e, ok)), sh.(queue := sh.queue - multiset{e}), Got(e, ok))
    ensures Reached(s, t, r, Handle(sh, e, ok), Waiting)
  {
    var me := sh.pool[e.id];
    var taken := sh.(queue := sh.queue - multiset{e});
    var r0 := Then(Begin, Deliver(t, e, ok));
    var next := Dispatch(e, ok, me);
    TickNext(s, t, r0, taken, Got(e, ok), taken, next);
    var r1 := Then(r0, Tick(t));
    if next.Removing? {
      r := RemoveRuns(s, t, r1, taken, e.id);
    } else {
      var r2 := CreateRuns(s, t, r1, taken, Replacing(e.id), me.kind);
      r := AnswerRuns(s, t, r2, CreateCall(taken, me.kind, t), e.id);
    }
  }

  // ---------------------------------------------------------------- the whole loop

  /** What the environment may do while the server refuses calls, or does not. */
  predicate Timely(refusing: bool, i: Input) {
    match i
    case Call(_) => !refusing
    case Ready(e, ok) => MayDeliver(refusing, e, ok)
  }

  lemma {:induction false} AloneAppend(r: Run, more: Run, t: nat)
    requires Alone(r, t) && Alone(more, t)
    ensures Alone(Append(r, more), t)
  {
    if more.Then? { AloneAppend(r, more.past, t); }
  }

  lemma InputRuns(s: Server, t: nat, i: Input) returns (r: Run)
    requires Inv(s) && !s.released && t <= s.n && s.threads[t] == Waiting
    requires Acceptable(SharedOf(s, t), i) && Timely(s.refusing, i)
    ensures Reached(s, t, r, HandleInput(SharedOf(s, t), i), Waiting)
  {
    match i {
      case Call(id) =>
        r := Then(Begin, Accept(t, id));
        assert After(s, Begin) == s && Alone(Begin, t);
        assert s.threads[t := Waiting] == s.threads;
        assert After(s, r) == Step(s, Accept(t, id));
      case Ready(e, ok) =>
        r := HandlerRuns(s, t, e, ok);
    }
  }

  lemma ReachedThen(s: Server, t: nat, r: Run, sh: Shared, more: Run, sh': Shared)
    requires Reached(s, t, r, sh, Waiting) && Reached(After(s, r), t, more, sh', Waiting)
    ensures Reached(s, t, Append(r, more), sh', Waiting)
  {
    AppendRun(s, r, more);
    AloneAppend(r, more, t);
    var s1 := After(s, r);
    assert s1.queues[t := sh'.queue] == s.queues[t := sh'.queue];
    assert s1.threads[t := Waiting] == s.threads[t := Waiting];
  }

  /** The handler loop of thread `t` over any calls and events that fit, undisturbed, is a run with
      the effect of `HandleAll`. */
  lemma {:induction false} LoopRuns(s: Server, t: nat, inputs: seq<Input>) returns (r: Run)
    requires Inv(s) && !s.released && t <= s.n && s.threads[t] == Waiting
    requires AllAcceptable(SharedOf(s, t), inputs) && forall i | i in inputs :: Timely(s.refusing, i)
    ensures Reached(s, t, r, HandleAll(SharedOf(s, t), inputs), Waiting)
    decreases |inputs|
  {
    if inputs == [] {
      r := Begin;
      assert s.queues[t := s.queues[t]] == s.queues && s.threads[t := Waiting] == s.threads;
    } else {
      var r1 := InputRuns(s, t, inputs[0]);
      var sh := HandleInput(SharedOf(s, t), inputs[0]);
      InvRun(s, r1);
      var s1 := After(s, r1);
      assert SharedOf(s1, t) == sh;
      var more := LoopRuns(s1, t, inputs[1..]);
      ReachedThen(s, t, r1, sh, more, HandleAll(sh, inputs[1..]));
      r := Append(r1, more);
    }
  }
}
