/** Draining: once the server refuses new calls and as long as the pool is not released, every
    action of the threads decreases a weight, and nothing is left when none is possible.  The
    event of an accepted call outweighs the failing listener and the answer it gives rise to. */
module RpcDrain {
  import opened RpcModel
  import opened RpcInvariant
  import opened RpcConservation
  import opened Sums

  // ---------------------------------------------------------------- weights

  function EventWeight(e: Event): nat {
    if e.Request? then 15 else 3
  }

  ghost function Pick(q: multiset<Event>): (e: Event)
    requires q != multiset{}
    ensures e in q
  {
    var e :| e in q;
    e
  }

  ghost function QueueWeight(q: multiset<Event>): (w: int)
    ensures w >= 0
  {
    if q == multiset{} then 0 else EventWeight(Pick(q)) + QueueWeight(q - multiset{Pick(q)})
  }

  /** The weight does not depend on the order in which events are picked. */
  lemma {:induction false} QueueAdd(q: multiset<Event>, e: Event)
    ensures QueueWeight(q + multiset{e}) == QueueWeight(q) + EventWeight(e)
    decreases |q|
  {
    var sum := q + multiset{e};
    var x := Pick(sum);
    if x == e {
      assert sum - multiset{x} == q;
    } else {
      var rest := q - multiset{x};
      assert sum - multiset{x} == rest + multiset{e};
      QueueAdd(rest, e);
      assert q == rest + multiset{x};
      QueueAdd(rest, x);
    }
  }

  lemma QueueTake(q: multiset<Event>, e: Event)
    requires e in q
    ensures QueueWeight(q) == QueueWeight(q - multiset{e}) + EventWeight(e)
  {
    assert q == q - multiset{e} + multiset{e};
    QueueAdd(q - multiset{e}, e);
  }

  /** The statements a thread still has to execute after `execute` returns to `c`. */
  function Afterwards(c: Caller): int {
    match c
    case Booting(_) => 7 * Remaining(c) + 1
    case Replacing(_) => 6
    case Handling => 0
  }

  function PcWeight(pc: Pc): int {
    match pc
    case Fetch(c) => if c.Booting? then 7 * |c.todo| + 1 else Afterwards(c) + 7
    case Insert(c, _, _, _) => Afterwards(c) + 6
    case Setup(c, _, _) => Afterwards(c) + 5
    case MarkProcess(c, _) => Afterwards(c) + 1
    case Got(e, _) => if e.Request? then 14 else 2
    case Processing(_) => 6
    case Writing(_) => 5
    case MarkFinish(_) => 1
    case Removing(_) => 1
    case _ => 0
  }

  ghost function Outstanding(s: Server): int {
    Sum(PcWeight, s.threads) + Sum(QueueWeight, s.queues)
  }

  lemma {:induction false} SumNonNegative<T>(f: T -> int, xs: seq<T>)
    requires forall i | 0 <= i < |xs| :: f(xs[i]) >= 0
    ensures Sum(f, xs) >= 0
  {
    if xs != [] { SumNonNegative(f, xs[1..]); }
  }

  lemma OutstandingNonNegative(s: Server)
    ensures Outstanding(s) >= 0
  {
    SumNonNegative(PcWeight, s.threads);
    SumNonNegative(QueueWeight, s.queues);
  }

  // ---------------------------------------------------------------- one action

  /** Thread `t` moves and only its own queue changes. */
  lemma Moved(s: Server, s': Server, t: nat)
    requires WellFormed(s) && WellFormed(s') && t <= s.n == s'.n
    requires s'.threads == s.threads[t := s'.threads[t]] && s'.queues == s.queues[t := s'.queues[t]]
    requires PcWeight(s'.threads[t]) + QueueWeight(s'.queues[t]) < PcWeight(s.threads[t]) + QueueWeight(s.queues[t])
    ensures Outstanding(s') < Outstanding(s)
  {
    SumUpdate(PcWeight, s.threads, t, s'.threads[t]);
    SumUpdate(QueueWeight, s.queues, t, s'.queues[t]);
  }

  /** A statement uses up its own weight and the weight of the operation it starts. */
  lemma TickPcWeight(s: Server, s': Server, t: nat)
    requires WellFormed(s) && t <= s.n && PcInv(s, t) && Ticks(s, s', t)
    ensures var starts := s.threads[t].Setup? || s.threads[t].Writing?;
            PcWeight(s'.threads[t]) + (if starts then 3 else 0) < PcWeight(s.threads[t])
  {
  }

  lemma TickQueueWeight(s: Server, s': Server, t: nat)
    requires WellFormed(s) && t <= s.n && Ticks(s, s', t)
    ensures QueueWeight(s'.queues[t]) == QueueWeight(s.queues[t]) + if s.threads[t].Setup? || s.threads[t].Writing? then 3 else 0
  {
    match s.threads[t] {
      case Setup(c, id, _) => QueueAdd(s.queues[t], Armed(id));
      case Writing(id) => QueueAdd(s.queues[t], Done(id));
      case _ =>
    }
  }

  lemma TickDrains(s: Server, t: nat)
    requires IdInv(s) && UpInv(s) && Enabled(s, Tick(t))
    ensures Outstanding(TickStep(s, t)) < Outstanding(s)
  {
    assert LocalInv(s, t);
    UsesLiveRpcs(s, t);
    TickShape(s, t);
    TickQueues(s, t);
    TickPcWeight(s, TickStep(s, t), t);
    TickQueueWeight(s, TickStep(s, t), t);
    Moved(s, TickStep(s, t), t);
  }

  lemma TickQueues(s: Server, t: nat)
    requires WellFormed(s) && t <= s.n && Deref(s.threads[t]) <= s.pool.Keys && OnOwnQueue(s, t)
    ensures var s' := TickStep(s, t);
            s'.threads == s.threads[t := s'.threads[t]] && s'.queues == s.queues[t := s'.queues[t]]
  {
  }

  lemma TakenWeighs(q: multiset<Event>, e: Event, ok: bool)
    requires e in q
    ensures PcWeight(Got(e, ok)) + QueueWeight(q - multiset{e}) < PcWeight(Waiting) + QueueWeight(q)
  {
    QueueTake(q, e);
  }

  lemma DeliverDrains(s: Server, t: nat, e: Event, ok: bool)
    requires Enabled(s, Deliver(t, e, ok))
    ensures Outstanding(Step(s, Deliver(t, e, ok))) < Outstanding(s)
  {
    TakenWeighs(s.queues[t], e, ok);
    Moved(s, Step(s, Deliver(t, e, ok)), t);
  }

  /** In a refusing server nothing but a release can happen without using up the weight. */
  lemma DrainStep(s: Server, a: Action)
    requires Inv(s) && !s.released && s.refusing && Enabled(s, a) && !a.Release?
    ensures Outstanding(Step(s, a)) < Outstanding(s)
    ensures !Step(s, a).released && Step(s, a).refusing
  {
    assert LocalInv(s, 0);
    match a {
      case Tick(t) => TickDrains(s, t);
      case Deliver(t, e, ok) => DeliverDrains(s, t, e, ok);
      case _ =>
    }
  }

  // ---------------------------------------------------------------- runs

  function Length(r: Run): nat {
    match r
    case Begin => 0
    case Then(past, _) => Length(past) + 1
  }

  predicate Releases(r: Run) {
    match r
    case Begin => false
    case Then(past, a) => Releases(past) || a.Release?
  }

  /** Every schedule drains: no run without a release is longer than the weight it starts with. */
  lemma {:induction false} DrainBound(s: Server, r: Run)
    requires Inv(s) && !s.released && s.refusing && Valid(s, r) && !Releases(r)
    ensures Inv(After(s, r)) && !After(s, r).released && After(s, r).refusing
    ensures Length(r) + Outstanding(After(s, r)) <= Outstanding(s)
    ensures Length(r) <= Outstanding(s)
  {
    match r
    case Begin => OutstandingNonNegative(s);
    case Then(past, a) =>
      DrainBound(s, past);
      InvStep(After(s, past), a);
      DrainStep(After(s, past), a);
      OutstandingNonNegative(After(s, r));
  }

  /** No thread can move: each is blocked in `Next` on an empty queue. */
  ghost predicate Drained(s: Server) {
    && (forall t | 0 <= t < |s.threads| :: s.threads[t] == Waiting)
    && (forall q | 0 <= q < |s.queues| :: s.queues[q] == multiset{})
  }

  /** A refusing server that cannot move is drained, and nothing it created is left in the pool. */
  lemma StuckIsDrained(s: Server)
    requires Inv(s) && !s.released && s.refusing
    requires forall a | Enabled(s, a) :: a.Release?
    ensures Drained(s) && OwnIds(s) == {} && (s.base == 0 ==> s.pool == map[])
  {
    forall t | 0 <= t < |s.threads| ensures s.threads[t] == Waiting && s.queues[t] == multiset{} {
      assert LocalInv(s, t);
      assert !Enabled(s, Tick(t));
      if e :| e in s.queues[t] {
        assert Enabled(s, Deliver(t, e, !e.Armed?));
      }
    }
    forall id | id in OwnIds(s) ensures false {
      var t := s.pool[id].queue;
      assert LocalInv(s, t) && Own(s, t, id);
    }
    assert forall id | id in s.pool && s.base <= id :: id in OwnIds(s);
  }

  lemma {:induction false} DrainsFrom(s: Server, r: Run) returns (r': Run)
    requires Inv(s) && !s.released && s.refusing && Valid(s, r) && !Releases(r)
    ensures Valid(s, r') && !Releases(r')
    ensures Drained(After(s, r')) && OwnIds(After(s, r')) == {}
    decreases Outstanding(After(s, r))
  {
    DrainBound(s, r);
    var now := After(s, r);
    if a :| Enabled(now, a) && !a.Release? {
      DrainStep(now, a);
      OutstandingNonNegative(Step(now, a));
      assert After(s, Then(r, a)) == Step(now, a);
      r' := DrainsFrom(s, Then(r, a));
    } else {
      StuckIsDrained(now);
      r' := r;
    }
  }

  /** A refusing server drains: some run ends, every run is bounded, and wherever a run cannot
      continue all queues are empty and the pool holds nothing of this server. */
  lemma DrainTerminates(s: Server)
    requires Reachable(s) && !s.released && s.refusing
    ensures exists r :: Valid(s, r) && !Releases(r) && Drained(After(s, r))
    ensures forall r | Valid(s, r) && !Releases(r) ::
              && Length(r) <= Outstanding(s)
              && ((forall a | Enabled(After(s, r), a) :: a.Release?) ==>
                    && Drained(After(s, r)) && OwnIds(After(s, r)) == {}
                    && (After(s, r).base == 0 ==> After(s, r).pool == map[]))
  {
    ReachableInv(s);
    var r := DrainsFrom(s, Begin);
    forall r | Valid(s, r) && !Releases(r)
      ensures Length(r) <= Outstanding(s)
      ensures (forall a | Enabled(After(s, r), a) :: a.Release?) ==>
                && Drained(After(s, r)) && OwnIds(After(s, r)) == {}
                && (After(s, r).base == 0 ==> After(s, r).pool == map[])
    {
      DrainBound(s, r);
      if forall a | Enabled(After(s, r), a) :: a.Release? { StuckIsDrained(After(s, r)); }
    }
  }
}
