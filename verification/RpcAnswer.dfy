/** Answers over whole runs: a request that a thread has taken is answered within seven statements
    of that thread, and when the server has drained every rpc has lived one of the two lives to its
    end. */
module RpcAnswer {
  import opened RpcModel
  import opened RpcInvariant
  import opened RpcLife
  import opened RpcDrain

  /** The statements that thread `t` executes in a run. */
  function TicksOf(r: Run, t: nat): nat {
    match r
    case Begin => 0
    case Then(past, a) => TicksOf(past, t) + if a == Tick(t) then 1 else 0
  }

  /** Thread `t` is still on its way to answer `id`, and has used up some of the way. */
  ghost predicate OnTheWay(s: Server, t: nat, id: nat, budget: int) {
    && !s.released && t < |s.threads| && Answering(s.threads[t], id)
    && AnswerRank(s.threads[t]) <= budget
  }

  lemma AnswerStep(s: Server, t: nat, id: nat, budget: int, a: Action)
    requires Inv(s) && OnTheWay(s, t, id, budget) && Enabled(s, a) && !a.Release?
    ensures PhaseOf(s, a, id) == [Answered] || OnTheWay(Step(s, a), t, id, if a == Tick(t) then budget - 1 else budget)
  {
    if a == Tick(t) {
      AnswerNow(s, t, id);
    } else {
      OnlyOwnSteps(s, t, a);
    }
  }

  /** Whatever the schedule, the request is answered or the thread is still on its way, and every
      statement it executed has brought it closer. */
  lemma {:induction false} AnswerRun(s: Server, r: Run, t: nat, id: nat)
    requires Inv(s) && !s.released && t < |s.threads| && Answering(s.threads[t], id)
    requires Valid(s, r) && !Releases(r)
    ensures Answered in Life(s, r, id) || OnTheWay(After(s, r), t, id, AnswerRank(s.threads[t]) - TicksOf(r, t))
  {
    match r
    case Begin =>
    case Then(past, a) =>
      AnswerRun(s, past, t, id);
      InvRun(s, past);
      AnswerThen(s, past, a, t, id, AnswerRank(s.threads[t]) - TicksOf(past, t));
  }

  lemma AnswerThen(s: Server, past: Run, a: Action, t: nat, id: nat, budget: int)
    requires Valid(s, Then(past, a)) && Inv(After(s, past)) && !a.Release?
    requires Answered in Life(s, past, id) || OnTheWay(After(s, past), t, id, budget)
    ensures || Answered in Life(s, Then(past, a), id)
            || OnTheWay(After(s, Then(past, a)), t, id, budget - if a == Tick(t) then 1 else 0)
  {
    var now := After(s, past);
    if OnTheWay(now, t, id, budget) {
      AnswerStep(now, t, id, budget, a);
    }
    AnswerLater(s, past, a, id);
  }

  lemma AnswerLater(s: Server, past: Run, a: Action, id: nat)
    requires Valid(s, Then(past, a))
    ensures Answered in Life(s, past, id) || Answered in PhaseOf(After(s, past), a, id) ==> Answered in Life(s, Then(past, a), id)
  {
  }

  /** Hence seven statements of the thread are enough. */
  lemma AnsweredWithinSeven(s: Server, r: Run, t: nat, id: nat)
    requires Reachable(s) && !s.released && t < |s.threads| && Answering(s.threads[t], id)
    requires Valid(s, r) && !Releases(r) && TicksOf(r, t) >= 7
    ensures Answered in Life(s, r, id)
  {
    ReachableInv(s);
    AnswerRun(s, r, t, id);
    RankBounds(s.threads[t], id);
    if t < |After(s, r).threads| && Answering(After(s, r).threads[t], id) { RankBounds(After(s, r).threads[t], id); }
  }

  lemma RankBounds(pc: Pc, id: nat)
    requires Answering(pc, id)
    ensures 1 <= AnswerRank(pc) <= 7
  {
  }

  // ---------------------------------------------------------------- drained servers

  lemma DrainedEmpty(s: Server, id: nat)
    requires Inv(s) && !s.released && Drained(s) && s.base <= id
    ensures id !in s.pool && !InsertPending(s, id)
  {
    if id in s.pool {
      var t := s.pool[id].queue;
      assert LocalInv(s, t) && Own(s, t, id);
    }
  }

  /** In a drained state each id of this server has lived one of the two lives entirely. */
  lemma DrainedLives(n: nat, r: Run, id: nat)
    requires Valid(Start(n, 0, map[]), r)
    requires var s := After(Start(n, 0, map[]), r); !s.released && Drained(s) && s.base <= id < s.nextId
    ensures var life := Life(Start(n, 0, map[]), r, id); life == SERVED || life == TURNED_AWAY
  {
    HistoryInv(n, r, id);
    DrainedEmpty(After(Start(n, 0, map[]), r), id);
  }

  ghost predicate Stuck(s: Server) {
    forall a | Enabled(s, a) :: a.Release?
  }

  lemma WholeLife(life: seq<Phase>)
    requires life == SERVED || life == TURNED_AWAY
    ensures multiset(life)[Answered] == if Accepted in life then 1 else 0
  {
    AnswerCount(life);
    assert |SERVED[..4]| == 4 && |SERVED[..5]| == 5 && |SERVED| == 8;
  }

  lemma Rested(s: Server, more: Run)
    requires Inv(s) && !s.released && s.refusing && Valid(s, more) && !Releases(more) && Stuck(After(s, more))
    ensures !After(s, more).released && Drained(After(s, more))
  {
    DrainBound(s, more);
    StuckIsDrained(After(s, more));
  }

  /** Exactly one answer: a server that has begun to refuse calls can only come to rest with every
      rpc at the end of its life, and then each accepted request, of the whole run, was answered
      exactly once and each other rpc never. */
  lemma AllAnsweredAtRest(n: nat, r: Run, more: Run, id: nat)
    requires Valid(Start(n, 0, map[]), r)
    requires var s := After(Start(n, 0, map[]), r);
             !s.released && s.refusing && Valid(s, more) && !Releases(more) && Stuck(After(s, more))
    requires var s' := After(After(Start(n, 0, map[]), r), more); s'.base <= id < s'.nextId
    ensures Valid(Start(n, 0, map[]), Append(r, more))
    ensures var life := Life(Start(n, 0, map[]), Append(r, more), id);
            && (life == SERVED || life == TURNED_AWAY)
            && multiset(life)[Answered] == if Accepted in life then 1 else 0
  {
    var s0 := Start(n, 0, map[]);
    var s := After(s0, r);
    StartInv(n, 0, map[]);
    InvRun(s0, r);
    Rested(s, more);
    AppendRun(s0, r, more);
    DrainedLives(n, Append(r, more), id);
    WholeLife(Life(s0, Append(r, more), id));
  }
}
