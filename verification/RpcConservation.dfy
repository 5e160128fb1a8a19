/** Conservation: the ids issued and the entries in the pool are accounted for by the requests
    accepted and the events consumed, in every reachable state of a running server. */
module RpcConservation {
  import opened RpcModel
  import opened RpcInvariant
  import opened Sums

  // ---------------------------------------------------------------- tallies

  datatype Tally = Tally(accepted: nat, completed: nat, refused: nat)

  /** The events delivered since the current server was started. */
  function Counted(r: Run): Tally {
    match r
    case Begin => Tally(0, 0, 0)
    case Then(past, Restart(_)) => Tally(0, 0, 0)
    case Then(past, Deliver(_, e, ok)) =>
      var c := Counted(past);
      if e.Done? then c.(completed := c.completed + 1)
      else if ok then c.(accepted := c.accepted + 1)
      else c.(refused := c.refused + 1)
    case Then(past, _) => Counted(past)
  }

  function Remaining(c: Caller): int {
    match c
    case Booting(todo) => if todo == [] then 0 else |todo| - 1
    case _ => 0
  }

  /** The ids a thread is still going to fetch for what it has begun. */
  function Owed(pc: Pc): int {
    match pc
    case Fetch(Booting(todo)) => |todo|
    case Fetch(Replacing(_)) => 1
    case Insert(c, _, _, _) => Remaining(c)
    case Setup(c, _, _) => Remaining(c)
    case MarkProcess(c, _) => Remaining(c)
    case Got(e, ok) => if IsListener(e) && ok then 1 else 0
    case _ => 0
  }

  /** Ids fetched but not yet inserted, minus rpcs whose last event was consumed but which are not
      yet erased. */
  function Unsettled(pc: Pc): int {
    match pc
    case Insert(_, _, _, _) => 1
    case Got(e, ok) => if IsListener(e) && ok then 0 else -1
    case Removing(_) => -1
    case _ => 0
  }

  /** The pool entries created by the current server. */
  function OwnIds(s: Server): set<nat> {
    set id | id in s.pool && s.base <= id
  }

  ghost predicate Balance(s: Server, c: Tally) {
    && s.nextId - s.base + Sum(Owed, s.threads) == s.n + |CommonKinds()| + c.accepted
    && |OwnIds(s)| + Sum(Unsettled, s.threads) + c.completed + c.refused == s.nextId - s.base
    && (!s.refusing ==> c.refused == 0)
  }

  // ---------------------------------------------------------------- steps

  lemma StartBalance(n: nat, nextId: nat, pool: map<nat, Entry>)
    requires forall id | id in pool :: id < nextId
    ensures Balance(Start(n, nextId, pool), Tally(0, 0, 0))
  {
    var s := Start(n, nextId, pool);
    SumAllButLast(Owed, s.threads);
    SumZero(Unsettled, s.threads);
    assert OwnIds(s) == {};
  }

  /** What a statement changes in the accounts. */
  lemma TickOwed(s: Server, s': Server, t: nat)
    requires WellFormed(s) && t <= s.n && PcInv(s, t) && Ticks(s, s', t)
    ensures Owed(s'.threads[t]) == Owed(s.threads[t]) - if s.threads[t].Fetch? && s'.threads[t].Insert? then 1 else 0
  {
  }

  lemma TickOwnIds(s: Server, s': Server, t: nat)
    requires WellFormed(s) && t <= s.n && Ticks(s, s', t)
    requires s.threads[t].Removing? ==> s.threads[t].id in OwnIds(s)
    requires s.threads[t].Insert? ==> s.base <= s.threads[t].id && s.threads[t].id !in s.pool
    ensures |OwnIds(s')| - |OwnIds(s)| == if s.threads[t].Insert? then 1 else if s.threads[t].Removing? then -1 else 0
  {
    var pc := s.threads[t];
    if pc.Insert? {
      assert OwnIds(s') == OwnIds(s) + {pc.id};
    } else if pc.Removing? {
      assert OwnIds(s') == OwnIds(s) - {pc.id};
    } else {
      assert OwnIds(s') == OwnIds(s);
    }
  }

  lemma TickUnsettled(s: Server, s': Server, t: nat)
    requires WellFormed(s) && t <= s.n && PcInv(s, t) && Ticks(s, s', t)
    ensures Unsettled(s'.threads[t]) - Unsettled(s.threads[t]) ==
              if s.threads[t].Fetch? && s'.threads[t].Insert? then 1
              else if s.threads[t].Insert? then -1
              else if s.threads[t].Removing? then 1
              else 0
  {
  }

  lemma TickBalance(s: Server, t: nat, c: Tally)
    requires Inv(s) && !s.released && Enabled(s, Tick(t)) && Balance(s, c)
    ensures Balance(TickStep(s, t), c)
  {
    assert LocalInv(s, t);
    UsesLiveRpcs(s, t);
    TickShape(s, t);
    var s' := TickStep(s, t);
    TickOwed(s, s', t);
    assert s.threads[t].Removing? ==> Own(s, t, s.threads[t].id);
    TickOwnIds(s, s', t);
    TickUnsettled(s, s', t);
    SumUpdate(Owed, s.threads, t, s'.threads[t]);
    SumUpdate(Unsettled, s.threads, t, s'.threads[t]);
  }

  lemma DeliverBalance(s: Server, t: nat, e: Event, ok: bool, r: Run)
    requires Enabled(s, Deliver(t, e, ok)) && Balance(s, Counted(r))
    ensures Balance(Step(s, Deliver(t, e, ok)), Counted(Then(r, Deliver(t, e, ok))))
  {
    var s' := Step(s, Deliver(t, e, ok));
    SumUpdate(Owed, s.threads, t, Got(e, ok));
    SumUpdate(Unsettled, s.threads, t, Got(e, ok));
    assert OwnIds(s') == OwnIds(s);
  }

  lemma {:induction false} BalanceRun(n: nat, r: Run)
    requires Valid(Start(n, 0, map[]), r)
    ensures var s := After(Start(n, 0, map[]), r);
            Inv(s) && (!s.released ==> Balance(s, Counted(r)))
  {
    var s0 := Start(n, 0, map[]);
    match r
    case Begin =>
      StartInv(n, 0, map[]);
      StartBalance(n, 0, map[]);
    case Then(past, a) =>
      BalanceRun(n, past);
      var s := After(s0, past);
      InvStep(s, a);
      match a {
        case Restart(m) => StartBalance(m, s.nextId, s.pool);
        case Tick(t) => if !s.released { TickBalance(s, t, Counted(past)); }
        case Deliver(t, e, ok) => if !s.released { DeliverBalance(s, t, e, ok, past); }
        case Accept(_, _) => assert OwnIds(Step(s, a)) == OwnIds(s);
        case Refuse => assert OwnIds(Step(s, a)) == OwnIds(s);
        case _ =>
      }
  }

  // ---------------------------------------------------------------- main results

  /** The exact accounts in every state of a running server. */
  lemma Accounts(n: nat, r: Run)
    requires Valid(Start(n, 0, map[]), r) && !After(Start(n, 0, map[]), r).released
    ensures var s := After(Start(n, 0, map[]), r);
            var c := Counted(r);
            && s.nextId - s.base == s.n + 8 + c.accepted - Sum(Owed, s.threads)
            && |OwnIds(s)| == s.n + 8 + c.accepted - c.completed - c.refused - Sum(Owed, s.threads) - Sum(Unsettled, s.threads)
  {
    BalanceRun(n, r);
  }

  /** When every thread waits for its next event, the server has issued one id per set-up rpc and
      per accepted request, and its pool holds those whose last event is outstanding; before the
      server refuses calls nothing else was removed. */
  lemma Conservation(n: nat, r: Run)
    requires Valid(Start(n, 0, map[]), r)
    requires var s := After(Start(n, 0, map[]), r);
             !s.released && forall t | 0 <= t < |s.threads| :: s.threads[t].Waiting?
    ensures var s := After(Start(n, 0, map[]), r);
            var c := Counted(r);
            && s.nextId - s.base == s.n + 8 + c.accepted
            && |OwnIds(s)| == s.n + 8 + c.accepted - c.completed - c.refused
            && (s.base == 0 ==> |s.pool| == |OwnIds(s)|)
            && (!s.refusing ==> c.refused == 0)
  {
    BalanceRun(n, r);
    var s := After(Start(n, 0, map[]), r);
    SumZero(Owed, s.threads);
    SumZero(Unsettled, s.threads);
    assert s.base == 0 ==> s.pool.Keys == OwnIds(s);
  }
}
