/** The converse of the refinement: whatever the example lets see, the pooled server can let see, on
    every queue and for every kind that `start` sets up.  Rpc ids are never reused, so call objects
    are named in the order of their allocation. */
module RpcEquivalence {
  import opened RpcModel
  import opened RpcInvariant
  import opened RpcDrain
  import opened CallDataExample
  import opened ExampleRenaming
  import opened RpcRefinement

  // ---------------------------------------------------------------- ids to come

  /** The kinds that the start-up code has not yet inserted. */
  function Left(pc: Pc): seq<Kind> {
    match pc
    case Fetch(c) => BootKinds(c)
    case Insert(c, _, _, _) => BootKinds(c)
    case Setup(c, _, _) => if BootKinds(c) == [] then [] else BootKinds(c)[1..]
    case MarkProcess(c, _) => if BootKinds(c) == [] then [] else BootKinds(c)[1..]
    case _ => []
  }

  /** The kinds that come before `kind`. */
  function Ahead(todo: seq<Kind>, kind: Kind): nat {
    if todo == [] || todo[0] == kind then 0 else 1 + Ahead(todo[1..], kind)
  }

  lemma {:induction false} AheadOf(todo: seq<Kind>, kind: Kind)
    ensures Ahead(todo, kind) <= |todo|
    ensures kind in todo <==> Ahead(todo, kind) < |todo|
  {
    if todo != [] { AheadOf(todo[1..], kind); }
  }

  /** The kinds that come after it. */
  function Behind(todo: seq<Kind>, kind: Kind): int {
    if kind in todo then |todo| - 1 - Ahead(todo, kind) else 0
  }

  predicate Reserved(nextId: nat, pc: Pc, kind: Kind, w: Naming) {
    && w.next == nextId - (if pc.Insert? then 1 else 0) + Ahead(Left(pc), kind)
    && w.gap == Behind(Left(pc), kind)
  }

  /** The id that the next rpc of the kind gets when no other thread moves, and how many ids go to
      other kinds after that. */
  predicate Reserves(s: Server, t: nat, kind: Kind, w: Naming)
    requires t < |s.threads|
  {
    Reserved(s.nextId, s.threads[t], kind, w)
  }

  /** The names of the objects in the order of allocation. */
  function IdsFor(s0: Server, t: nat, kind: Kind): Naming
    requires SetUp(s0, t, kind)
  {
    var kinds := KindsOn(s0.n, t);
    AheadOf(kinds, kind);
    Numbers(s0.nextId + Ahead(kinds, kind), Behind(kinds, kind))
  }

  /** Only thread `t` has moved lately, and after its start-up only for the kind. */
  predicate Lone(s: Server, t: nat, kind: Kind)
    requires t < |s.threads|
  {
    var pc := s.threads[t];
    && (pc.Insert? ==> pc.id == s.nextId - 1)
    && (Boots(pc) || pc.Waiting? || WorksFor(s.pool, pc, kind))
  }

  // ---------------------------------------------------------------- catching up

  /** Statements that the example does not have, has already executed, or leaves to other kinds. */
  predicate Silent(s: Server, pc: Pc, kind: Kind) {
    !pc.Waiting? && !(WorksFor(s.pool, pc, kind) && TickMatches(pc) != [])
  }

  ghost predicate Good(s0: Server, t: nat, kind: Kind, r: Run) {
    && IsStart(s0) && SetUp(s0, t, kind) && Valid(s0, r) && AllOkRun(s0, t, kind, r)
    && var s := After(s0, r);
       WellFormed(s) && s.n == s0.n && !s.refusing
  }

  lemma GoodInv(s0: Server, t: nat, kind: Kind, r: Run)
    requires Good(s0, t, kind, r)
    ensures var s := After(s0, r); Inv(s) && !s.released && WorkInv(s, t) && GotOk(s, t, kind)
  {
    SimRun(s0, t, kind, r);
    assert LocalInv(After(s0, r), t);
  }

  lemma Extend(s0: Server, t: nat, kind: Kind, r: Run, a: Action)
    requires Good(s0, t, kind, r) && Enabled(After(s0, r), a) && AllOk(After(s0, r), t, kind, a) && !a.Refuse?
    ensures Good(s0, t, kind, Then(r, a)) && After(s0, Then(r, a)) == Step(After(s0, r), a)
    ensures ShownRun(s0, t, kind, Then(r, a)) == ShownRun(s0, t, kind, r) + Shown(After(s0, r), t, kind, a)
    ensures Simulated(After(s0, r), Step(After(s0, r), a), t, kind, a)
  {
    var s := After(s0, r);
    GoodInv(s0, t, kind, r);
    SimStep(s, a, t, kind);
    assert Valid(s0, Then(r, a)) && After(s0, Then(r, a)) == Step(s, a);
    NoRefusal(s, a);
  }

  lemma NoRefusal(s: Server, a: Action)
    requires Enabled(s, a) && !s.refusing && !a.Refuse? && !a.Restart?
    ensures !Step(s, a).refusing && Step(s, a).n == s.n
  {
  }

  lemma FetchKeeps(s: Server, t: nat, kind: Kind, w: Naming, c: Caller)
    requires (c.Booting? || (c.Replacing? && IsKind(s.pool, c.parent, kind))) && Reserved(s.nextId, Fetch(c), kind, w)
    ensures var pc' := Fetched(s, t, c);
            && Reserved(if pc'.Insert? then s.nextId + 1 else s.nextId, pc', kind, w)
            && (pc'.Insert? ==> pc'.id == s.nextId && (Boots(pc') || WorksFor(s.pool, pc', kind)))
            && (pc'.Insert? || pc'.Waiting?)
  {
  }

  lemma InsertKeeps(nextId: nat, kind: Kind, w: Naming, todo: seq<Kind>, id: nat, made: Kind, q: nat)
    requires todo != [] && todo[0] == made != kind && Reserved(nextId, Insert(Booting(todo), id, made, q), kind, w)
    ensures Reserved(nextId, Setup(Booting(todo), id, q), kind, w)
  {
    assert todo == [made] + todo[1..];
  }

  lemma ResumeKeeps(nextId: nat, kind: Kind, w: Naming, c: Caller, id: nat)
    requires !c.Handling? && (c.Booting? ==> c.todo != []) && Reserved(nextId, MarkProcess(c, id), kind, w)
    ensures Reserved(nextId, Resume(c), kind, w)
    ensures Resume(c) == if c.Booting? then Fetch(Booting(c.todo[1..])) else Processing(c.parent)
  {
  }

  lemma SilentKeeps(s: Server, s': Server, t: nat, kind: Kind, w: Naming)
    requires At(s, t) && Ticks(s, s', t) && Silent(s, s.threads[t], kind) && Lone(s, t, kind) && Reserves(s, t, kind, w)
    requires s'.nextId == s.nextId + if s.threads[t].Fetch? && s'.threads[t].Insert? then 1 else 0
    ensures t < |s'.threads| && Lone(s', t, kind) && Reserves(s', t, kind, w)
  {
    var pc := s.threads[t];
    if pc.Fetch? {
      FetchKeeps(s, t, kind, w, pc.caller);
    } else if pc.Insert? {
      InsertKeeps(s.nextId, kind, w, pc.caller.todo, pc.id, pc.kind, pc.queue);
    } else if pc.MarkProcess? {
      ResumeKeeps(s.nextId, kind, w, pc.caller, pc.id);
      if pc.caller.Replacing? { ResumesFor(s, s', t, kind, pc.caller.parent, pc.id); }
    } else {
      RestKeeps(s, s', t, kind, w);
    }
  }

  lemma ResumesFor(s: Server, s': Server, t: nat, kind: Kind, p: nat, id: nat)
    requires WellFormed(s) && t <= s.n && PcInv(s, t) && s.threads[t] == MarkProcess(Replacing(p), id)
    requires s'.pool == SetState(s.pool, id, Process)
    ensures IsKind(s.pool, id, kind) == IsKind(s'.pool, p, kind)
  {
  }

  lemma RestKeeps(s: Server, s': Server, t: nat, kind: Kind, w: Naming)
    requires WellFormed(s) && t <= s.n && Ticks(s, s', t) && s'.nextId == s.nextId
    requires Silent(s, s.threads[t], kind) && Lone(s, t, kind) && Reserves(s, t, kind, w)
    requires s.threads[t].Setup? || s.threads[t].Processing? || s.threads[t].MarkFinish? || s.threads[t].Got? || s.threads[t].Writing? || s.threads[t].Removing?
    ensures t < |s'.threads| && Lone(s', t, kind) && Reserves(s', t, kind, w)
  {
  }

  lemma SilentTick(s: Server, t: nat, kind: Kind, w: Naming)
    requires Inv(s) && !s.released && t <= s.n && Silent(s, s.threads[t], kind) && Lone(s, t, kind) && Reserves(s, t, kind, w)
    ensures Enabled(s, Tick(t)) && Shown(s, t, kind, Tick(t)) == [] && View(TickStep(s, t), t, kind) == View(s, t, kind)
    ensures 0 <= PcWeight(TickStep(s, t).threads[t]) < PcWeight(s.threads[t])
    ensures Lone(TickStep(s, t), t, kind) && Reserves(TickStep(s, t), t, kind, w)
  {
    assert LocalInv(s, t);
    UsesLiveRpcs(s, t);
    TickShape(s, t);
    SilentTicked(s, TickStep(s, t), t, kind, w);
  }

  lemma SilentTicked(s: Server, s': Server, t: nat, kind: Kind, w: Naming)
    requires At(s, t) && Ticks(s, s', t) && Silent(s, s.threads[t], kind) && Lone(s, t, kind) && Reserves(s, t, kind, w)
    requires s.threads[t].Insert? ==> s.threads[t].id !in s.pool
    requires s'.nextId == s.nextId + if s.threads[t].Fetch? && s'.threads[t].Insert? then 1 else 0
    ensures WellFormed(s') && t <= s'.n && View(s', t, kind) == View(s, t, kind) && Shown(s, t, kind, Tick(t)) == []
    ensures 0 <= PcWeight(s'.threads[t]) < PcWeight(s.threads[t])
    ensures Lone(s', t, kind) && Reserves(s', t, kind, w)
  {
    SilentView(s, s', t, kind);
    SilentWeight(s, s', t, kind);
    SilentKeeps(s, s', t, kind, w);
  }

  lemma SilentView(s: Server, s': Server, t: nat, kind: Kind)
    requires At(s, t) && Ticks(s, s', t) && Silent(s, s.threads[t], kind)
    requires s.threads[t].Insert? ==> s.threads[t].id !in s.pool
    ensures WellFormed(s') && t <= s'.n && View(s', t, kind) == View(s, t, kind)
  {
    UnseenTick(s, s', t, kind);
    UnseenView(s, s', t, kind);
  }

  lemma SilentWeight(s: Server, s': Server, t: nat, kind: Kind)
    requires WellFormed(s) && t <= s.n && PcInv(s, t) && Ticks(s, s', t) && Silent(s, s.threads[t], kind)
    ensures 0 <= PcWeight(s'.threads[t]) < PcWeight(s.threads[t]) && Shown(s, t, kind, Tick(t)) == []
  {
    TickPcWeight(s, s', t);
    assert TickMatches(s.threads[t]) == [] ==> TickShown(s.threads[t]) == [];
  }

  lemma {:induction false} CatchUp(s0: Server, t: nat, kind: Kind, r: Run, w: Naming) returns (r': Run)
    requires Good(s0, t, kind, r) && Lone(After(s0, r), t, kind) && Reserves(After(s0, r), t, kind, w)
    ensures Good(s0, t, kind, r') && Lone(After(s0, r'), t, kind) && Reserves(After(s0, r'), t, kind, w)
    ensures View(After(s0, r'), t, kind) == View(After(s0, r), t, kind)
    ensures ShownRun(s0, t, kind, r') == ShownRun(s0, t, kind, r)
    ensures !Silent(After(s0, r'), After(s0, r').threads[t], kind)
    decreases PcWeight(After(s0, r).threads[t])
  {
    var s := After(s0, r);
    if Silent(s, s.threads[t], kind) {
      GoodInv(s0, t, kind, r);
      SilentTick(s, t, kind, w);
      Extend(s0, t, kind, r, Tick(t));
      r' := CatchUp(s0, t, kind, Then(r, Tick(t)), w);
    } else {
      r' := r;
    }
  }

  // ---------------------------------------------------------------- simulation

  /** The example writes a state before it starts the operation: it may be one statement ahead. */
  ghost predicate Tracks(s: Server, t: nat, kind: Kind, x: Example)
    requires WellFormed(s) && t <= s.n
  {
    var v := View(s, t, kind);
    x == v || ((v.point.SetProcess? || v.point.SetFinish?) && x == Made(v, Do(0)))
  }

  /** A thread that is not silent waits, or is at one of these statements. */
  lemma Speaks(s: Server, t: nat, kind: Kind)
    requires WellFormed(s) && t <= s.n && !Silent(s, s.threads[t], kind)
    ensures var pc, v := s.threads[t], View(s, t, kind);
            && (pc.Waiting? <==> v.point.Next?) && !v.point.Aborted?
            && (v.point.Allocate? <==> pc.Insert?)
            && (!pc.Waiting? ==> WorksFor(s.pool, pc, kind))
            && (!pc.Waiting? ==>
                  TickMatches(pc) == if v.point.SetProcess? || v.point.SetFinish? then [Do(0), Do(0)] else [Do(if pc.Insert? then pc.id else 0)])
  {
  }

  lemma TracksPc(s: Server, t: nat, kind: Kind, x: Example)
    requires WellFormed(s) && t <= s.n && PcInv(s, t) && !Silent(s, s.threads[t], kind) && Tracks(s, t, kind, x)
    ensures x.queue == multiset(Events(s, t, kind))
    ensures x.point.Next? <==> s.threads[t].Waiting?
    ensures s.threads[t].Waiting? ==> x == View(s, t, kind)
    ensures !x.point.Aborted? && !s.threads[t].Exited? && !s.threads[t].Fault?
  {
    Speaks(s, t, kind);
  }

  lemma ArriveTracks(s: Server, s': Server, t: nat, kind: Kind, x: Example, id: nat)
    requires WellFormed(s) && WellFormed(s') && t <= s.n == s'.n && Tracks(s, t, kind, x)
    requires Simulates(s, s', t, kind, [Arrive(id)], [])
    ensures Tracks(s', t, kind, Made(x, Arrive(id)))
  {
    PlayOne(View(s, t, kind), Arrive(id));
  }

  lemma ReturnTracks(s: Server, s': Server, t: nat, kind: Kind, x: Example, e: Event, shown: seq<Sight>)
    requires WellFormed(s) && WellFormed(s') && t <= s.n == s'.n && x == View(s, t, kind)
    requires Simulates(s, s', t, kind, [Return(e, true)], shown)
    ensures Tracks(s', t, kind, Made(x, Return(e, true))) && shown == Seen(x, Return(e, true))
  {
    PlayOne(x, Return(e, true));
  }

  lemma DoAhead(v: Example, spot: nat)
    requires v.point.SetProcess? || v.point.SetFinish?
    ensures Played(v, [Do(0), Do(0)]) == Made(Made(v, Do(0)), Do(spot))
    ensures Sights(v, [Do(0), Do(0)]) == Seen(Made(v, Do(0)), Do(spot))
  {
    PlayTwo(v, Do(0), Do(0));
  }

  lemma DoLevel(v: Example, k: nat, spot: nat)
    requires v.point.Allocate? ==> spot == k
    ensures Played(v, [Do(k)]) == Made(v, Do(spot)) && Sights(v, [Do(k)]) == Seen(v, Do(spot))
  {
    PlayOne(v, Do(k));
  }

  /** One statement of the example, which one statement of the pooled server completes. */
  lemma DoTracks(s: Server, s': Server, t: nat, kind: Kind, x: Example, spot: nat)
    requires WellFormed(s) && WellFormed(s') && t <= s.n == s'.n && Tracks(s, t, kind, x)
    requires !Silent(s, s.threads[t], kind) && !s.threads[t].Waiting?
    requires !(x == View(s, t, kind) && (x.point.SetProcess? || x.point.SetFinish?))
    requires s.threads[t].Insert? ==> spot == s.threads[t].id
    requires Simulates(s, s', t, kind, TickMatches(s.threads[t]), TickShown(s.threads[t]))
    ensures View(s', t, kind) == Made(x, Do(spot)) && TickShown(s.threads[t]) == Seen(x, Do(spot))
  {
    var v := View(s, t, kind);
    Speaks(s, t, kind);
    if v.point.SetProcess? || v.point.SetFinish? {
      DoAhead(v, spot);
    } else {
      DoLevel(v, if s.threads[t].Insert? then s.threads[t].id else 0, spot);
    }
  }

  /** The insert uses up the id reserved for it. */
  lemma InsertUses(s: Server, t: nat, kind: Kind, w: Naming, c: Caller, id: nat)
    requires WellFormed(s) && t <= s.n && PcInv(s, t) && s.threads[t] == Insert(c, id, kind, t)
    requires id == s.nextId - 1 && Reserves(s, t, kind, w)
    ensures id == w.next && Reserved(s.nextId, Setup(c, id, t), kind, Numbered(w, id))
  {
    if c.Booting? {
      FirstOnly(s.n, t, c.todo);
      AheadOf(c.todo[1..], kind);
    }
  }

  lemma ServingKeeps(s: Server, s': Server, t: nat, kind: Kind, w: Naming)
    requires WellFormed(s) && t <= s.n && PcInv(s, t) && Ticks(s, s', t) && GotOk(s, t, kind)
    requires WorksFor(s.pool, s.threads[t], kind) && Reserves(s, t, kind, w) && s'.nextId == s.nextId
    requires s.threads[t].Setup? || s.threads[t].Got? || s.threads[t].Writing? || s.threads[t].Removing?
    ensures t < |s'.threads| && Lone(s', t, kind) && Reserves(s', t, kind, w)
  {
  }

  lemma SpokenKeeps(s: Server, s': Server, t: nat, kind: Kind, w: Naming)
    requires WellFormed(s) && t <= s.n && PcInv(s, t) && Ticks(s, s', t) && GotOk(s, t, kind)
    requires WorksFor(s.pool, s.threads[t], kind) && TickMatches(s.threads[t]) != []
    requires Lone(s, t, kind) && Reserves(s, t, kind, w) && s'.nextId == s.nextId
    ensures t < |s'.threads| && Lone(s', t, kind)
    ensures Reserves(s', t, kind, if s.threads[t].Insert? then Numbered(w, w.next) else w)
    ensures s.threads[t].Insert? ==> s.threads[t].id == w.next
  {
    if s.threads[t].Insert? {
      InsertUses(s, t, kind, w, s.threads[t].caller, s.threads[t].id);
    } else {
      ServingKeeps(s, s', t, kind, w);
    }
  }

  /** Run `r` has caught up with the example state `x`. */
  ghost predicate Level(s0: Server, t: nat, kind: Kind, r: Run, x: Example, w: Naming) {
    && Good(s0, t, kind, r)
    && var s := After(s0, r);
       && Lone(s, t, kind) && Reserves(s, t, kind, w) && Tracks(s, t, kind, x)
       && !Silent(s, s.threads[t], kind)
  }

  /** `r'` shows what move `m` shows and still tracks the example. */
  ghost predicate Follows(s0: Server, t: nat, kind: Kind, r: Run, x: Example, w: Naming, m: Move, r': Run)
    requires Good(s0, t, kind, r)
  {
    && Good(s0, t, kind, r')
    && var s' := After(s0, r');
    && Lone(s', t, kind) && Tracks(s', t, kind, Made(x, m))
    && ShownRun(s0, t, kind, r') == ShownRun(s0, t, kind, r) + Seen(x, m)
    && Reserves(s', t, kind, Renaming(w, x, m))
  }

  /** A statement that the pooled server has not executed yet. */
  lemma FollowTick(s0: Server, t: nat, kind: Kind, r: Run, x: Example, w: Naming, spot: nat) returns (r': Run)
    requires Level(s0, t, kind, r, x, w) && Can(x, Do(spot)) && (x.point.Allocate? ==> spot == w.next)
    requires !(x == View(After(s0, r), t, kind) && (x.point.SetProcess? || x.point.SetFinish?))
    ensures Follows(s0, t, kind, r, x, w, Do(spot), r')
  {
    var s := After(s0, r);
    GoodInv(s0, t, kind, r);
    TracksPc(s, t, kind, x);
    UsesLiveRpcs(s, t);
    TickShape(s, t);
    Extend(s0, t, kind, r, Tick(t));
    TracksInsert(s, t, kind, x);
    FollowTicked(s, TickStep(s, t), t, kind, x, w, spot);
    r' := Followed(s0, t, kind, r, x, w, Do(spot), Tick(t));
  }

  lemma FollowTicked(s: Server, s': Server, t: nat, kind: Kind, x: Example, w: Naming, spot: nat)
    requires WellFormed(s) && t <= s.n && PcInv(s, t) && Ticks(s, s', t) && GotOk(s, t, kind)
    requires !Silent(s, s.threads[t], kind) && !s.threads[t].Waiting? && WorksFor(s.pool, s.threads[t], kind)
    requires Lone(s, t, kind) && Reserves(s, t, kind, w) && Tracks(s, t, kind, x) && s'.nextId == s.nextId
    requires (x.point.Allocate? <==> s.threads[t].Insert?) && (x.point.Allocate? ==> spot == w.next)
    requires !(x == View(s, t, kind) && (x.point.SetProcess? || x.point.SetFinish?))
    requires Simulated(s, s', t, kind, Tick(t))
    ensures Lone(s', t, kind) && Reserves(s', t, kind, Renaming(w, x, Do(spot)))
    ensures View(s', t, kind) == Made(x, Do(spot)) && Shown(s, t, kind, Tick(t)) == Seen(x, Do(spot))
  {
    SpokenKeeps(s, s', t, kind, w);
    SimulatedTick(s, s', t, kind);
    DoTracks(s, s', t, kind, x, spot);
  }

  lemma SimulatedTick(s: Server, s': Server, t: nat, kind: Kind)
    requires Simulated(s, s', t, kind, Tick(t)) && WorksFor(s.pool, s.threads[t], kind)
    ensures Simulates(s, s', t, kind, TickMatches(s.threads[t]), TickShown(s.threads[t]))
    ensures Shown(s, t, kind, Tick(t)) == TickShown(s.threads[t])
  {
  }

  lemma TracksInsert(s: Server, t: nat, kind: Kind, x: Example)
    requires WellFormed(s) && t <= s.n && !Silent(s, s.threads[t], kind) && Tracks(s, t, kind, x)
    ensures x.point.Allocate? <==> s.threads[t].Insert?
    ensures !s.threads[t].Waiting? ==> WorksFor(s.pool, s.threads[t], kind) && TickMatches(s.threads[t]) != []
  {
    Speaks(s, t, kind);
  }

  lemma FollowDo(s0: Server, t: nat, kind: Kind, r: Run, x: Example, w: Naming, spot: nat) returns (r': Run)
    requires Level(s0, t, kind, r, x, w) && Can(x, Do(spot)) && (x.point.Allocate? ==> spot == w.next)
    ensures Follows(s0, t, kind, r, x, w, Do(spot), r')
  {
    if x == View(After(s0, r), t, kind) && (x.point.SetProcess? || x.point.SetFinish?) {
      assert Made(x, Do(spot)) == Made(x, Do(0));
      r' := r;
    } else {
      r' := FollowTick(s0, t, kind, r, x, w, spot);
    }
  }

  lemma LevelPc(s0: Server, t: nat, kind: Kind, r: Run, x: Example, w: Naming)
    requires Level(s0, t, kind, r, x, w)
    ensures var s := After(s0, r);
            && x.queue == multiset(Events(s, t, kind))
            && (x.point.Next? ==> x == View(s, t, kind) && s.threads[t].Waiting?)
  {
    GoodInv(s0, t, kind, r);
    TracksPc(After(s0, r), t, kind, x);
  }

  lemma FollowArrive(s0: Server, t: nat, kind: Kind, r: Run, x: Example, w: Naming, id: nat) returns (r': Run)
    requires Level(s0, t, kind, r, x, w) && Can(x, Arrive(id))
    ensures Follows(s0, t, kind, r, x, w, Arrive(id), r')
  {
    var s := After(s0, r);
    LevelPc(s0, t, kind, r, x, w);
    ArriveEnabled(s, t, kind, x, id);
    Extend(s0, t, kind, r, Accept(t, id));
    Arrived(s, Step(s, Accept(t, id)), t, kind, x, w, id);
    r' := Followed(s0, t, kind, r, x, w, Arrive(id), Accept(t, id));
  }

  lemma ArriveEnabled(s: Server, t: nat, kind: Kind, x: Example, id: nat)
    requires WellFormed(s) && t <= s.n && x.queue == multiset(Events(s, t, kind)) && Can(x, Arrive(id)) && !s.refusing
    ensures Enabled(s, Accept(t, id)) && AllOk(s, t, kind, Accept(t, id)) && IsKind(s.pool, id, kind)
    ensures var s' := Step(s, Accept(t, id));
            s'.nextId == s.nextId && s'.pool == s.pool && s'.threads == s.threads
  {
    assert Armed(id) in Events(s, t, kind);
  }

  lemma Arrived(s: Server, s': Server, t: nat, kind: Kind, x: Example, w: Naming, id: nat)
    requires Simulated(s, s', t, kind, Accept(t, id)) && Tracks(s, t, kind, x) && IsKind(s.pool, id, kind)
    requires Lone(s, t, kind) && Reserves(s, t, kind, w)
    requires s'.nextId == s.nextId && s'.pool == s.pool && s'.threads == s.threads
    ensures Shown(s, t, kind, Accept(t, id)) == Seen(x, Arrive(id))
    ensures Tracks(s', t, kind, Made(x, Arrive(id))) && Lone(s', t, kind) && Reserves(s', t, kind, w)
  {
    ArriveTracks(s, s', t, kind, x, id);
  }

  lemma FollowReturn(s0: Server, t: nat, kind: Kind, r: Run, x: Example, w: Naming, e: Event) returns (r': Run)
    requires Level(s0, t, kind, r, x, w) && Can(x, Return(e, true))
    ensures Follows(s0, t, kind, r, x, w, Return(e, true), r')
  {
    var s := After(s0, r);
    LevelPc(s0, t, kind, r, x, w);
    ReturnEnabled(s, t, kind, x, e);
    Extend(s0, t, kind, r, Deliver(t, e, true));
    Returned(s, Step(s, Deliver(t, e, true)), t, kind, x, w, e);
    r' := Followed(s0, t, kind, r, x, w, Return(e, true), Deliver(t, e, true));
  }

  lemma Followed(s0: Server, t: nat, kind: Kind, r: Run, x: Example, w: Naming, m: Move, a: Action) returns (r': Run)
    requires Good(s0, t, kind, r) && Enabled(After(s0, r), a) && Good(s0, t, kind, Then(r, a))
    requires ShownRun(s0, t, kind, Then(r, a)) == ShownRun(s0, t, kind, r) + Seen(x, m)
    requires var s' := Step(After(s0, r), a);
             && WellFormed(s') && t <= s'.n && Lone(s', t, kind)
             && Tracks(s', t, kind, Made(x, m)) && Reserves(s', t, kind, Renaming(w, x, m))
    ensures r' == Then(r, a) && Follows(s0, t, kind, r, x, w, m, r')
  {
    r' := Then(r, a);
    assert After(s0, r') == Step(After(s0, r), a);
  }

  lemma ReturnEnabled(s: Server, t: nat, kind: Kind, x: Example, e: Event)
    requires WellFormed(s) && t <= s.n && x.queue == multiset(Events(s, t, kind)) && Can(x, Return(e, true))
    requires s.threads[t].Waiting?
    ensures Enabled(s, Deliver(t, e, true)) && AllOk(s, t, kind, Deliver(t, e, true)) && IsKind(s.pool, e.id, kind)
    ensures var s' := Step(s, Deliver(t, e, true));
            s'.nextId == s.nextId && s'.pool == s.pool && s'.threads[t] == Got(e, true)
  {
    assert e in Events(s, t, kind);
  }

  lemma Returned(s: Server, s': Server, t: nat, kind: Kind, x: Example, w: Naming, e: Event)
    requires Simulated(s, s', t, kind, Deliver(t, e, true)) && x == View(s, t, kind) && IsKind(s.pool, e.id, kind)
    requires s.threads[t].Waiting? && Reserves(s, t, kind, w)
    requires s'.nextId == s.nextId && s'.pool == s.pool && s'.threads[t] == Got(e, true)
    ensures Shown(s, t, kind, Deliver(t, e, true)) == Seen(x, Return(e, true))
    ensures Tracks(s', t, kind, Made(x, Return(e, true))) && Lone(s', t, kind) && Reserves(s', t, kind, w)
  {
    ReturnTracks(s, s', t, kind, x, e, Shown(s, t, kind, Deliver(t, e, true)));
  }

  lemma FollowMove(s0: Server, t: nat, kind: Kind, r: Run, x: Example, w: Naming, m: Move) returns (r': Run)
    requires Level(s0, t, kind, r, x, w) && Can(x, m) && (m.Return? ==> m.ok)
    requires m.Do? && x.point.Allocate? ==> m.spot == w.next
    ensures Follows(s0, t, kind, r, x, w, m, r')
  {
    match m {
      case Arrive(id) => r' := FollowArrive(s0, t, kind, r, x, w, id);
      case Return(e, ok) => r' := FollowReturn(s0, t, kind, r, x, w, e);
      case Do(spot) => r' := FollowDo(s0, t, kind, r, x, w, spot);
    }
  }

  lemma FollowStart(s0: Server, t: nat, kind: Kind) returns (r: Run)
    requires IsStart(s0) && SetUp(s0, t, kind)
    ensures Level(s0, t, kind, r, ExampleStart(), IdsFor(s0, t, kind)) && ShownRun(s0, t, kind, r) == []
  {
    StartView(s0, t, kind);
    assert s0.threads[t] == Fetch(Booting(KindsOn(s0.n, t)));
    r := CatchUp(s0, t, kind, Begin, IdsFor(s0, t, kind));
  }

  lemma {:induction false} FollowAll(s0: Server, t: nat, kind: Kind, moves: seq<Move>) returns (r: Run)
    requires IsStart(s0) && SetUp(s0, t, kind)
    requires Playable(ExampleStart(), moves) && AllReturnOk(moves) && Orderly(IdsFor(s0, t, kind), moves)
    ensures Level(s0, t, kind, r, Played(ExampleStart(), moves), NamesAfter(IdsFor(s0, t, kind), moves))
    ensures ShownRun(s0, t, kind, r) == Sights(ExampleStart(), moves)
    decreases |moves|
  {
    var start := IdsFor(s0, t, kind);
    if moves == [] {
      r := FollowStart(s0, t, kind);
    } else {
      var past, m := moves[..|moves| - 1], moves[|moves| - 1];
      assert moves == past + [m];
      var x, w := Played(ExampleStart(), past), NamesAfter(start, past);
      PlayedOn(past, m);
      var r0 := FollowAll(s0, t, kind, past);
      var r1 := FollowMove(s0, t, kind, r0, x, w, m);
      r := CatchUp(s0, t, kind, r1, Renaming(w, x, m));
    }
  }

  lemma PlayedOn(past: seq<Move>, m: Move)
    requires Playable(ExampleStart(), past + [m])
    ensures var x := Played(ExampleStart(), past);
            && Playable(ExampleStart(), past) && Can(x, m) && Played(ExampleStart(), past + [m]) == Made(x, m)
            && Sights(ExampleStart(), past + [m]) == Sights(ExampleStart(), past) + Seen(x, m)
  {
    PlayOn(ExampleStart(), past, [m]);
    PlayOne(Played(ExampleStart(), past), m);
  }

  /** Whatever the example lets see, some run of the pooled server shows on the given queue for the
      given kind, with the number of an object for its address; addresses may be reused.  Together
      with `RefinesExample`: both have the same observations. */
  lemma ExampleIsMatched(s0: Server, t: nat, kind: Kind, moves: seq<Move>)
    requires IsStart(s0) && SetUp(s0, t, kind) && Playable(ExampleStart(), moves) && AllReturnOk(moves)
    ensures exists r :: && Valid(s0, r) && AllOkRun(s0, t, kind, r)
                        && ShownRun(s0, t, kind, r) == NamedSights(IdsFor(s0, t, kind), moves)
  {
    RenamingKeepsMeaning(IdsFor(s0, t, kind), moves);
    var r := FollowAll(s0, t, kind, Renamed(IdsFor(s0, t, kind), moves));
  }
}
