/** The history of each rpc id over a whole run: what was done with the id, in order.  Every id
    goes through one of two fixed lives, so that an accepted request is answered exactly once and
    is not removed before the event of its answer. */
module RpcLife {
  import opened RpcModel
  import opened RpcInvariant

  datatype Phase = Issued | Inserted | Listening | Accepted | Refused | Processed | Answered | Completed | Removed

  /** What an action does with rpc `id`, if anything. */
  function PhaseOf(s: Server, a: Action, id: nat): seq<Phase> {
    match a
    case Deliver(_, e, ok) =>
      if e.id != id then [] else if e.Done? then [Completed] else if ok then [Accepted] else [Refused]
    case Tick(t) =>
      if t < |s.threads| && Deref(s.threads[t]) <= s.pool.Keys then TickPhase(s, t, id) else []
    case _ => []
  }

  function TickPhase(s: Server, t: nat, id: nat): seq<Phase>
    requires t < |s.threads|
  {
    match s.threads[t]
    case Fetch(c) => if Fetched(s, t, c).Insert? && id == s.nextId then [Issued] else []
    case Insert(_, i, _, _) => if i == id then [Inserted] else []
    case Setup(_, i, _) => if i == id then [Listening] else []
    case Processing(i) => if i == id then [Processed] else []
    case Writing(i) => if i == id then [Answered] else []
    case Removing(i) => if i == id then [Removed] else []
    case _ => []
  }

  ghost function Life(s0: Server, r: Run, id: nat): seq<Phase>
    requires Valid(s0, r)
  {
    match r
    case Begin => []
    case Then(past, a) => Life(s0, past, id) + PhaseOf(After(s0, past), a, id)
  }

  const SERVED := [Issued, Inserted, Listening, Accepted, Processed, Answered, Completed, Removed]
  const TURNED_AWAY := [Issued, Inserted, Listening, Refused, Removed]

  // ---------------------------------------------------------------- invariant

  ghost predicate InsertPending(s: Server, id: nat) {
    exists t :: 0 <= t < |s.threads| && s.threads[t].Insert? && s.threads[t].id == id
  }

  /** The possible histories of an rpc that its thread holds. */
  function HeldLives(pc: Pc, id: nat): set<seq<Phase>> {
    match pc
    case Setup(_, i, _) => if i == id then {SERVED[..2]} else {SERVED[..4]}
    case Got(e, _) => if e.Request? then {SERVED[..4]} else if e.Armed? then {TURNED_AWAY[..4]} else {SERVED[..7]}
    case Writing(_) => {SERVED[..5]}
    case Removing(_) => {TURNED_AWAY[..4], SERVED[..7]}
    case _ => {SERVED[..4]}
  }

  function PooledLives(q: multiset<Event>, pc: Pc, id: nat): set<seq<Phase>> {
    if Armed(id) in q || Request(id) in q then {SERVED[..3]}
    else if Done(id) in q then {SERVED[..6]}
    else HeldLives(pc, id)
  }

  /** The possible histories of rpc `id` in state `s`. */
  ghost function Lives(s: Server, id: nat): set<seq<Phase>> {
    if id >= s.nextId then {[]}
    else if id in s.pool then
      var t := s.pool[id].queue;
      if t < |s.queues| && t < |s.threads| then PooledLives(s.queues[t], s.threads[t], id) else {}
    else if InsertPending(s, id) then {SERVED[..1]}
    else {SERVED, TURNED_AWAY}
  }

  // ---------------------------------------------------------------- one step

  lemma Grows()
    ensures forall k | 0 <= k < |SERVED| :: SERVED[..k] + [SERVED[k]] == SERVED[..k + 1]
    ensures forall k | 0 <= k < |TURNED_AWAY| :: TURNED_AWAY[..k] + [TURNED_AWAY[k]] == TURNED_AWAY[..k + 1]
    ensures SERVED[..3] == TURNED_AWAY[..3] && SERVED[..|SERVED|] == SERVED && TURNED_AWAY[..|TURNED_AWAY|] == TURNED_AWAY
    ensures forall life: seq<Phase> :: life + [] == life
  {
  }

  lemma InsertPendingKept(s: Server, s': Server, t: nat, id: nat)
    requires t < |s.threads| == |s'.threads| && s'.threads == s.threads[t := s'.threads[t]]
    requires (s.threads[t].Insert? && s.threads[t].id == id) <==> (s'.threads[t].Insert? && s'.threads[t].id == id)
    ensures InsertPending(s', id) <==> InsertPending(s, id)
  {
    if InsertPending(s, id) {
      var u :| 0 <= u < |s.threads| && s.threads[u].Insert? && s.threads[u].id == id;
      assert s'.threads[u].Insert? && s'.threads[u].id == id;
    }
    if InsertPending(s', id) {
      var u :| 0 <= u < |s'.threads| && s'.threads[u].Insert? && s'.threads[u].id == id;
      assert s.threads[u].Insert? && s.threads[u].id == id;
    }
  }

  lemma LifeDeliver(s: Server, t: nat, e: Event, ok: bool, id: nat, life: seq<Phase>)
    requires WellFormed(s) && Enabled(s, Deliver(t, e, ok)) && WorkInv(s, t)
    requires IdInv(s) && s.base <= id && life in Lives(s, id)
    ensures life + PhaseOf(s, Deliver(t, e, ok), id) in Lives(Step(s, Deliver(t, e, ok)), id)
  {
    Grows();
    InsertPendingKept(s, Step(s, Deliver(t, e, ok)), t, id);
    assert Own(s, t, e.id) && Pending(s.queues[t], e.id) == 1;
    if id in s.pool && s.pool[id].queue != t {
      assert e.id != id;
    }
  }

  lemma LifeAccept(s: Server, q: nat, i: nat, id: nat, life: seq<Phase>)
    requires WellFormed(s) && Enabled(s, Accept(q, i)) && life in Lives(s, id)
    ensures life + PhaseOf(s, Accept(q, i), id) in Lives(Step(s, Accept(q, i)), id)
  {
    Grows();
    var s' := Step(s, Accept(q, i));
    assert InsertPending(s', id) <==> InsertPending(s, id);
  }

  /** The start-up and creating statements. */
  lemma LifeCreating(s: Server, s': Server, t: nat, id: nat, life: seq<Phase>)
    requires At(s, t) && Ticks(s, s', t) && Own(s, t, id)
    requires s.threads[t].Fetch? || s.threads[t].Insert? || s.threads[t].Setup? || s.threads[t].MarkProcess?
    requires s.threads[t].Insert? ==> s.threads[t].id !in s.pool
    requires id < s.nextId && life in PooledLives(s.queues[t], s.threads[t], id)
    ensures id in s'.pool && life + TickPhase(s, t, id) in PooledLives(s'.queues[t], s'.threads[t], id)
  {
    Grows();
  }

  lemma LifeServing(s: Server, s': Server, t: nat, id: nat, life: seq<Phase>)
    requires At(s, t) && Ticks(s, s', t) && Own(s, t, id)
    requires !s.threads[t].Fetch? && !s.threads[t].Insert? && !s.threads[t].Setup? && !s.threads[t].MarkProcess?
    requires id < s.nextId && life in PooledLives(s.queues[t], s.threads[t], id)
    ensures life + TickPhase(s, t, id) in
              if id in s'.pool then PooledLives(s'.queues[t], s'.threads[t], id) else {SERVED, TURNED_AWAY}
  {
    Grows();
  }

  /** A statement of thread `t` advances the life of the rpcs on its queue. */
  lemma LifeOwn(s: Server, s': Server, t: nat, id: nat, life: seq<Phase>)
    requires At(s, t) && Ticks(s, s', t) && Own(s, t, id)
    requires s.threads[t].Insert? ==> s.threads[t].id !in s.pool
    requires id < s.nextId && life in PooledLives(s.queues[t], s.threads[t], id)
    ensures life + TickPhase(s, t, id) in
              if id in s'.pool then PooledLives(s'.queues[t], s'.threads[t], id) else {SERVED, TURNED_AWAY}
  {
    var pc := s.threads[t];
    if pc.Fetch? || pc.Insert? || pc.Setup? || pc.MarkProcess? {
      LifeCreating(s, s', t, id, life);
    } else {
      LifeServing(s, s', t, id, life);
    }
  }

  /** What `TickStep` keeps outside the view of thread `t`. */
  ghost predicate Elsewhere(s: Server, s': Server, t: nat)
    requires WellFormed(s) && t <= s.n
  {
    && |s'.threads| == |s.threads| && s'.threads == s.threads[t := s'.threads[t]]
    && s'.nextId == (if s.threads[t].Fetch? && s'.threads[t].Insert? then s.nextId + 1 else s.nextId)
    && |s'.queues| == |s.queues| && (forall u | 0 <= u <= s.n && u != t :: s'.queues[u] == s.queues[u])
  }

  /** An rpc on another queue. */
  lemma LifeAway(s: Server, s': Server, t: nat, id: nat, life: seq<Phase>)
    requires IdInv(s) && At(s, t) && Ticks(s, s', t) && Elsewhere(s, s', t) && s.base <= id && life in Lives(s, id)
    requires id in s.pool && s.pool[id].queue != t
    ensures life + TickPhase(s, t, id) in Lives(s', id)
  {
    Grows();
    TickPool(s, s', t);
    assert TickPhase(s, t, id) == [];
  }

  /** An id that is not in the pool: unissued, about to be inserted, or removed. */
  lemma LifeOut(s: Server, s': Server, t: nat, id: nat, life: seq<Phase>)
    requires IdInv(s) && At(s, t) && Ticks(s, s', t) && Elsewhere(s, s', t) && s.base <= id && life in Lives(s, id)
    requires id !in s.pool
    ensures life + TickPhase(s, t, id) in Lives(s', id)
  {
    Grows();
    var pc := s.threads[t];
    if pc.Insert? && pc.id == id {
      assert InsertPending(s, id);
      assert s'.pool[id].queue == t && Pending(s'.queues[t], id) == 0;
    } else if pc.Fetch? && id == s.nextId {
      assert life == SERVED[..0] && id !in s'.pool;
      if s'.threads[t].Insert? { assert InsertPending(s', id); }
    } else {
      assert id !in s'.pool && TickPhase(s, t, id) == [];
      InsertPendingKept(s, s', t, id);
    }
  }

  lemma LifeTick(s: Server, t: nat, id: nat, life: seq<Phase>)
    requires IdInv(s) && At(s, t) && Enabled(s, Tick(t)) && s.base <= id && life in Lives(s, id)
    ensures life + PhaseOf(s, Tick(t), id) in Lives(TickStep(s, t), id)
  {
    UsesLiveRpcs(s, t);
    TickShape(s, t);
    TickElsewhere(s, t);
    LifeMove(s, TickStep(s, t), t, id, life);
  }

  lemma TickElsewhere(s: Server, t: nat)
    requires WellFormed(s) && t <= s.n && Deref(s.threads[t]) <= s.pool.Keys && OnOwnQueue(s, t)
    ensures Elsewhere(s, TickStep(s, t), t)
  {
  }

  lemma LifeMove(s: Server, s': Server, t: nat, id: nat, life: seq<Phase>)
    requires IdInv(s) && At(s, t) && Ticks(s, s', t) && Elsewhere(s, s', t) && s.base <= id && life in Lives(s, id)
    ensures life + TickPhase(s, t, id) in Lives(s', id)
  {
    if Own(s, t, id) {
      LifeOwn(s, s', t, id, life);
      LifeLeft(s, s', t, id);
    } else if id in s.pool {
      LifeAway(s, s', t, id, life);
    } else {
      LifeOut(s, s', t, id, life);
    }
  }

  lemma LifeLeft(s: Server, s': Server, t: nat, id: nat)
    requires IdInv(s) && At(s, t) && Ticks(s, s', t) && Elsewhere(s, s', t) && Own(s, t, id)
    ensures id < s'.nextId && (id in s'.pool ==> s'.pool[id].queue == t) && !InsertPending(s', id)
  {
    InsertPendingKept(s, s', t, id);
  }

  // ---------------------------------------------------------------- whole runs

  lemma LifeStep(s: Server, a: Action, id: nat, life: seq<Phase>)
    requires Inv(s) && !s.released && Enabled(s, a) && !a.Release? && !a.Restart?
    requires s.base <= id && life in Lives(s, id)
    ensures life + PhaseOf(s, a, id) in Lives(Step(s, a), id)
  {
    Grows();
    match a {
      case Deliver(t, e, ok) => assert LocalInv(s, t); LifeDeliver(s, t, e, ok, id, life);
      case Accept(q, i) => LifeAccept(s, q, i, id, life);
      case Tick(t) => assert LocalInv(s, t); LifeTick(s, t, id, life);
      case Refuse => assert InsertPending(Step(s, a), id) <==> InsertPending(s, id);
      case _ =>
    }
  }

  /** Every id that occurs in a queue or in a program counter was issued. */
  ghost predicate IssuedInv(s: Server) {
    && (forall q, e | 0 <= q < |s.queues| && e in s.queues[q] :: e.id < s.nextId)
    && (forall t, id | 0 <= t < |s.threads| && id in Mentions(s.threads[t]) :: id < s.nextId)
  }

  function Mentions(pc: Pc): set<nat> {
    match pc
    case Fetch(c) => Parent(c)
    case Insert(c, id, _, _) => Parent(c) + {id}
    case Setup(c, id, _) => Parent(c) + {id}
    case MarkProcess(c, id) => Parent(c) + {id}
    case Got(e, _) => {e.id}
    case Processing(id) => {id}
    case Writing(id) => {id}
    case MarkFinish(id) => {id}
    case Removing(id) => {id}
    case _ => {}
  }

  lemma NextMentions(s: Server, t: nat)
    requires t < |s.threads| && Deref(s.threads[t]) <= s.pool.Keys
    ensures Mentions(NextPc(s, t)) <= Mentions(s.threads[t]) + (if s.threads[t].Fetch? && NextPc(s, t).Insert? then {s.nextId} else {})
  {
  }

  lemma EffectQueues(s: Server, t: nat)
    requires t < |s.threads| && Deref(s.threads[t]) <= s.pool.Keys
    ensures forall q, e | 0 <= q < |s.queues| && e in Effect(s, t).queues[q] :: e in s.queues[q] || e.id in Mentions(s.threads[t])
    ensures Effect(s, t).nextId == if s.threads[t].Fetch? && NextPc(s, t).Insert? then s.nextId + 1 else s.nextId
  {
  }

  lemma IssuedTick(s: Server, t: nat)
    requires IssuedInv(s) && t < |s.threads|
    ensures IssuedInv(TickStep(s, t))
  {
    if Deref(s.threads[t]) <= s.pool.Keys {
      NextMentions(s, t);
      EffectQueues(s, t);
      var s' := TickStep(s, t);
      forall u, id | 0 <= u < |s'.threads| && id in Mentions(s'.threads[u]) ensures id < s'.nextId {
        assert u != t ==> s'.threads[u] == s.threads[u];
      }
    }
  }

  lemma IssuedDeliver(s: Server, t: nat, e: Event, ok: bool)
    requires IssuedInv(s) && Enabled(s, Deliver(t, e, ok))
    ensures IssuedInv(Step(s, Deliver(t, e, ok)))
  {
    var s' := Step(s, Deliver(t, e, ok));
    assert forall q | 0 <= q < |s.queues| :: s'.queues[q] <= s.queues[q];
    assert forall u | 0 <= u < |s.threads| && u != t :: s'.threads[u] == s.threads[u];
  }

  lemma IssuedAccept(s: Server, q: nat, id: nat)
    requires IssuedInv(s) && Enabled(s, Accept(q, id))
    ensures IssuedInv(Step(s, Accept(q, id)))
  {
  }

  lemma IssuedStep(s: Server, a: Action)
    requires IssuedInv(s) && Enabled(s, a)
    ensures IssuedInv(Step(s, a))
  {
    if a.Tick? {
      IssuedTick(s, a.t);
    } else if a.Deliver? {
      IssuedDeliver(s, a.t, a.event, a.ok);
    } else if a.Accept? {
      IssuedAccept(s, a.q, a.id);
    }
  }

  /** The history of one id, with no assumption about releases and restarts: the id is issued once,
      and inserted at most once, by the thread that fetched it. */
  ghost predicate Once(s: Server, id: nat, life: seq<Phase>) {
    if id >= s.nextId then life == []
    else
      && multiset(life)[Issued] == 1
      && multiset(life)[Inserted] <= 1
      && (InsertPending(s, id) ==> multiset(life)[Inserted] == 0)
  }

  lemma TickCounts(s: Server, t: nat, id: nat)
    requires t < |s.threads| && Deref(s.threads[t]) <= s.pool.Keys
    requires forall i | i in Mentions(s.threads[t]) :: i < s.nextId
    ensures var issues := s.threads[t].Fetch? && NextPc(s, t).Insert?;
            && (s.nextId < id || (s.nextId == id && !issues) ==> TickPhase(s, t, id) == [])
            && multiset(TickPhase(s, t, id))[Issued] == (if issues && id == s.nextId then 1 else 0)
            && multiset(TickPhase(s, t, id))[Inserted] == (if s.threads[t].Insert? && s.threads[t].id == id then 1 else 0)
  {
    var pc := s.threads[t];
    assert pc.Insert? || pc.Setup? || pc.Processing? || pc.Writing? || pc.Removing? ==> pc.id in Mentions(pc);
  }

  lemma OncePending(s: Server, t: nat, id: nat)
    requires IdInv(s) && t < |s.threads| && Deref(s.threads[t]) <= s.pool.Keys
    requires !(s.threads[t].Fetch? && id == s.nextId)
    ensures InsertPending(TickStep(s, t), id) <==> InsertPending(s, id) && !(s.threads[t].Insert? && s.threads[t].id == id)
  {
    var s' := TickStep(s, t);
    if s.threads[t].Insert? && s.threads[t].id == id {
      assert forall u | 0 <= u < |s.threads| && u != t :: s'.threads[u] == s.threads[u];
    } else {
      InsertPendingKept(s, s', t, id);
    }
  }

  lemma OnceTick(s: Server, t: nat, id: nat, life: seq<Phase>)
    requires IdInv(s) && IssuedInv(s) && t < |s.threads| && Once(s, id, life)
    ensures Once(TickStep(s, t), id, life + PhaseOf(s, Tick(t), id))
  {
    if Deref(s.threads[t]) <= s.pool.Keys {
      EffectQueues(s, t);
      TickCounts(s, t, id);
      if !(s.threads[t].Fetch? && id == s.nextId) { OncePending(s, t, id); }
    } else {
      InsertPendingKept(s, TickStep(s, t), t, id);
    }
  }

  lemma OnceStep(s: Server, a: Action, id: nat, life: seq<Phase>)
    requires IdInv(s) && IssuedInv(s) && Enabled(s, a) && Once(s, id, life)
    ensures Once(Step(s, a), id, life + PhaseOf(s, a, id))
  {
    var s' := Step(s, a);
    match a {
      case Tick(t) => OnceTick(s, t, id, life);
      case Deliver(t, e, ok) => InsertPendingKept(s, s', t, id);
      case Exit(t) => InsertPendingKept(s, s', t, id);
      case Restart(n) =>
        assert forall t | 0 <= t < |s'.threads| :: s'.threads[t].Fetch?;
        assert !InsertPending(s', id);
      case _ => assert InsertPending(s', id) <==> InsertPending(s, id);
    }
  }

  /** What is known of the history of one id. */
  ghost predicate Known(s: Server, id: nat, life: seq<Phase>) {
    && Inv(s) && IssuedInv(s) && Once(s, id, life)
    && (!s.released && s.base <= id ==> life in Lives(s, id))
  }

  lemma KnownStep(s: Server, a: Action, id: nat, life: seq<Phase>)
    requires Known(s, id, life) && Enabled(s, a)
    ensures Known(Step(s, a), id, life + PhaseOf(s, a, id))
  {
    InvStep(s, a);
    IssuedStep(s, a);
    OnceStep(s, a, id, life);
    if !s.released && s.base <= id && !a.Release? && !a.Restart? {
      LifeStep(s, a, id, life);
    }
  }

  lemma KnownStart(n: nat, id: nat)
    ensures Known(Start(n, 0, map[]), id, [])
  {
    StartInv(n, 0, map[]);
  }

  lemma {:induction false} HistoryInv(n: nat, r: Run, id: nat)
    requires Valid(Start(n, 0, map[]), r)
    ensures Known(After(Start(n, 0, map[]), r), id, Life(Start(n, 0, map[]), r, id))
  {
    match r
    case Begin => KnownStart(n, id);
    case Then(past, a) =>
      HistoryInv(n, past, id);
      KnownStep(After(Start(n, 0, map[]), past), a, id, Life(Start(n, 0, map[]), past, id));
  }

  // ---------------------------------------------------------------- main results

  /** No id is handed out twice and none is inserted twice, over all interleavings, releases and
      server restarts of the process. */
  lemma IdsNeverReused(n: nat, r: Run, id: nat)
    requires Valid(Start(n, 0, map[]), r)
    ensures multiset(Life(Start(n, 0, map[]), r, id))[Issued] <= 1
    ensures multiset(Life(Start(n, 0, map[]), r, id))[Inserted] <= 1
  {
    HistoryInv(n, r, id);
  }

  /** When a thread is about to insert, no entry is overwritten, although other threads may have
      fetched and inserted in between. */
  lemma InsertNeverOverwrites(s: Server, t: nat)
    requires Reachable(s) && t < |s.threads| && s.threads[t].Insert?
    ensures s.threads[t].id !in s.pool
    ensures forall u | 0 <= u < |s.threads| && u != t && s.threads[u].Insert? :: s.threads[u].id != s.threads[t].id
  {
    ReachableInv(s);
  }

  lemma LivesArePrefixes(s: Server, id: nat, life: seq<Phase>)
    requires life in Lives(s, id)
    ensures life <= SERVED || life <= TURNED_AWAY
  {
    Grows();
  }

  /** Every rpc of a running server has lived a prefix of one of the two lives. */
  lemma LifeIsPrefix(n: nat, r: Run, id: nat)
    requires Valid(Start(n, 0, map[]), r)
    requires var s := After(Start(n, 0, map[]), r); !s.released && s.base <= id
    ensures var life := Life(Start(n, 0, map[]), r, id); life <= SERVED || life <= TURNED_AWAY
  {
    HistoryInv(n, r, id);
    LivesArePrefixes(After(Start(n, 0, map[]), r), id, Life(Start(n, 0, map[]), r, id));
  }

  /** Thread `pc` is in the PROCESS branch of `execute` for rpc `id` and has not answered yet. */
  predicate Answering(pc: Pc, id: nat) {
    match pc
    case Fetch(c) => id in Parent(c)
    case Insert(c, _, _, _) => id in Parent(c)
    case Setup(c, _, _) => id in Parent(c)
    case MarkProcess(c, _) => id in Parent(c)
    case Got(e, _) => e == Request(id)
    case Processing(i) => i == id
    case Writing(i) => i == id
    case _ => false
  }

  /** Accepted, and processed perhaps, but not answered yet. */
  predicate Unanswered(life: seq<Phase>) {
    life == SERVED[..4] || life == SERVED[..5]
  }

  /** Only the thread that owns the queue of an rpc answers it, and its history tells whether. */
  lemma AnsweringOwn(s: Server, t: nat, id: nat, life: seq<Phase>)
    requires WellFormed(s) && t <= s.n && WorkInv(s, t) && Own(s, t, id)
    requires life in PooledLives(s.queues[t], s.threads[t], id)
    ensures Unanswered(life) <==> Answering(s.threads[t], id)
  {
    assert |SERVED[..2]| == 2 && |SERVED[..3]| == 3 && |SERVED[..6]| == 6 && |SERVED[..7]| == 7;
    assert TURNED_AWAY[..4][3] == Refused && SERVED[..4][3] == Accepted && |SERVED[..4]| == 4 && |SERVED[..5]| == 5;
  }

  lemma AnsweringAway(s: Server, t: nat, id: nat)
    requires WellFormed(s) && t <= s.n && WorkInv(s, t) && !Own(s, t, id)
    ensures !Answering(s.threads[t], id)
  {
  }

  lemma {:induction false} CountDistinct(s: seq<Phase>, x: Phase)
    requires forall i, j | 0 <= i < j < |s| :: s[i] != s[j]
    ensures multiset(s)[x] == if x in s then 1 else 0
  {
    if s != [] {
      CountDistinct(s[1..], x);
      assert s == [s[0]] + s[1..];
    }
  }

  lemma AnswerCount(life: seq<Phase>)
    requires life <= SERVED || life <= TURNED_AWAY
    ensures multiset(life)[Accepted] == (if Accepted in life then 1 else 0)
    ensures multiset(life)[Answered] == if Accepted in life && !Unanswered(life) then 1 else 0
  {
    CountDistinct(life, Accepted);
    CountDistinct(life, Answered);
    if life <= SERVED {
      assert life == SERVED[..|life|];
      assert |life| > 3 ==> life[3] == Accepted;
      assert |life| > 5 ==> life[5] == Answered;
      assert |SERVED[..4]| == 4 && |SERVED[..5]| == 5;
    }
  }

  /** Some thread is at this moment on its way to answer rpc `id`. */
  ghost predicate BeingAnswered(s: Server, id: nat) {
    exists t :: 0 <= t < |s.threads| && Answering(s.threads[t], id)
  }

  lemma AnsweringKnown(s: Server, id: nat, life: seq<Phase>)
    requires IdInv(s) && UpInv(s) && s.base <= id && life in Lives(s, id)
    ensures Unanswered(life) <==> BeingAnswered(s, id)
  {
    forall t | 0 <= t < |s.threads| && !Own(s, t, id) ensures !Answering(s.threads[t], id) {
      assert LocalInv(s, t);
      AnsweringAway(s, t, id);
    }
    if id in s.pool && s.pool[id].queue <= s.n {
      var t := s.pool[id].queue;
      assert LocalInv(s, t);
      AnsweringOwn(s, t, id, life);
    } else {
      assert life == [] || life == SERVED[..1] || life == SERVED || life == TURNED_AWAY;
      assert |SERVED[..1]| == 1 && |SERVED[..4]| == 4 && |SERVED[..5]| == 5 && |SERVED| == 8;
      assert SERVED[..5][3] == Accepted && TURNED_AWAY[3] == Refused;
    }
  }

  /** Exactly-once answering: an accepted request has been answered exactly once, on the id that
      received it, unless a thread is at this moment on its way to do so; a request that was not
      accepted is never answered. */
  lemma AnsweredExactlyOnce(n: nat, r: Run, id: nat)
    requires Valid(Start(n, 0, map[]), r)
    requires var s := After(Start(n, 0, map[]), r); !s.released && s.base <= id
    ensures var s := After(Start(n, 0, map[]), r);
            var life := Life(Start(n, 0, map[]), r, id);
            && multiset(life)[Accepted] <= 1
            && multiset(life)[Answered] == if Accepted in life && !BeingAnswered(s, id) then 1 else 0
  {
    var s := After(Start(n, 0, map[]), r);
    var life := Life(Start(n, 0, map[]), r, id);
    HistoryInv(n, r, id);
    LivesArePrefixes(s, id, life);
    AnswerCount(life);
    AnsweringKnown(s, id, life);
  }

  function AnswerRank(pc: Pc): nat {
    match pc
    case Got(_, _) => 7
    case Fetch(_) => 6
    case Insert(_, _, _, _) => 5
    case Setup(_, _, _) => 4
    case MarkProcess(_, _) => 3
    case Processing(_) => 2
    case Writing(_) => 1
    case _ => 0
  }

  lemma AnswerNext(s: Server, t: nat, id: nat)
    requires WellFormed(s) && t <= s.n && PcInv(s, t) && Deref(s.threads[t]) <= s.pool.Keys && Answering(s.threads[t], id)
    ensures var pc' := NextPc(s, t);
            || TickPhase(s, t, id) == [Answered]
            || (Answering(pc', id) && AnswerRank(pc') < AnswerRank(s.threads[t]))
  {
  }

  /** Nobody else moves a thread that is not waiting. */
  lemma OnlyOwnSteps(s: Server, t: nat, a: Action)
    requires t < |s.threads| && !s.threads[t].Waiting? && !s.threads[t].Exited?
    requires Enabled(s, a) && a != Tick(t)
    ensures !a.Restart? && Step(s, a).threads[t] == s.threads[t]
  {
  }

  /** And the thread does get there: it is never blocked before it has answered, nobody else moves
      it, and each of its statements is the answer or brings it closer. */
  lemma AnswerProgress(s: Server, t: nat, id: nat)
    requires Reachable(s) && !s.released && t < |s.threads| && Answering(s.threads[t], id)
    ensures Enabled(s, Tick(t))
    ensures var pc' := TickStep(s, t).threads[t];
            || PhaseOf(s, Tick(t), id) == [Answered]
            || (Answering(pc', id) && AnswerRank(pc') < AnswerRank(s.threads[t]))
    ensures forall a | Enabled(s, a) && a != Tick(t) :: Step(s, a).threads[t] == s.threads[t]
  {
    ReachableInv(s);
    forall a | Enabled(s, a) && a != Tick(t) ensures Step(s, a).threads[t] == s.threads[t] {
      OnlyOwnSteps(s, t, a);
    }
    AnswerNow(s, t, id);
  }

  lemma AnswerNow(s: Server, t: nat, id: nat)
    requires IdInv(s) && UpInv(s) && t < |s.threads| && Answering(s.threads[t], id)
    ensures Deref(s.threads[t]) <= s.pool.Keys
    ensures var pc' := NextPc(s, t);
            || TickPhase(s, t, id) == [Answered]
            || (Answering(pc', id) && AnswerRank(pc') < AnswerRank(s.threads[t]))
  {
    assert LocalInv(s, t);
    UsesLiveRpcs(s, t);
    AnswerNext(s, t, id);
  }
}
