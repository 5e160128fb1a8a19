/** What holds in every reachable state of every interleaving, over any number of server
    restarts, as long as the current server has not released the pool. */
module RpcSafety {
  import opened RpcModel
  import opened RpcInvariant

  /** Running: the current server has not reached the `release` call of `stop`. */
  ghost predicate Running(s: Server) {
    Reachable(s) && !s.released
  }

  /** The rpcs of kind `kind` with an undelivered listener event on queue `t`. */
  ghost function Listeners(s: Server, t: nat, kind: Kind): set<nat>
    requires t < |s.queues|
  {
    set id | id in s.pool && s.pool[id].kind == kind && (Armed(id) in s.queues[t] || Request(id) in s.queues[t])
  }

  // ---------------------------------------------------------------- listeners

  lemma ListenersListen(s: Server, t: nat, kind: Kind)
    requires WellFormed(s) && t <= s.n && WorkInv(s, t)
    ensures forall id: nat :: id in Listeners(s, t, kind) <==> Listens(s, t, kind, id)
  {
  }

  lemma ListenersOne(s: Server, t: nat, kind: Kind, id: nat)
    requires WellFormed(s) && t <= s.n && LocalInv(s, t) && Listens(s, t, kind, id)
    ensures Listeners(s, t, kind) == {id}
  {
    ListenersListen(s, t, kind);
  }

  /** Each kind that `start` set up on a queue has exactly one armed listener there, except while
      the owning thread has yet to start it up or has taken its event and not yet armed the
      replacement; any other kind has none. */
  lemma ExactlyOneListener(s: Server, t: nat, kind: Kind)
    requires Running(s) && !s.refusing && t < |s.queues|
    ensures t <= s.n && WellFormed(s)
    ensures |Listeners(s, t, kind)| == if kind in KindsOn(s.n, t) && !InGap(s, t, kind) then 1 else 0
  {
    ReachableInv(s);
    assert LocalInv(s, t);
    if kind in KindsOn(s.n, t) && !InGap(s, t, kind) {
      var id: nat :| Listens(s, t, kind, id);
      ListenersOne(s, t, kind, id);
    } else {
      ListenersListen(s, t, kind);
      assert forall id: nat :: !Listens(s, t, kind, id);
      assert Listeners(s, t, kind) == {};
    }
  }

  /** Refusing calls never duplicates a listener. */
  lemma AtMostOneListener(s: Server, t: nat, kind: Kind)
    requires Running(s) && t < |s.queues|
    ensures |Listeners(s, t, kind)| <= 1
  {
    ReachableInv(s);
    assert LocalInv(s, t);
    ListenersListen(s, t, kind);
    if id: nat :| Listens(s, t, kind, id) {
      ListenersOne(s, t, kind, id);
    } else {
      assert Listeners(s, t, kind) == {};
    }
  }

  /** Inference rpcs live on the inference queues and all other kinds on the common queue. */
  lemma KindsSeparated(s: Server, id: nat)
    requires Running(s) && id in s.pool && s.base <= id
    ensures s.pool[id].queue <= s.n
    ensures s.pool[id].kind == ModelInfer <==> s.pool[id].queue < s.n
  {
    ReachableInv(s);
    assert LocalInv(s, s.pool[id].queue);
    assert Own(s, s.pool[id].queue, id);
  }

  // ---------------------------------------------------------------- tags

  /** No tag dangles: neither one that waits in a queue nor one that a thread works with. */
  ghost predicate TagsLive(s: Server) {
    && (forall t, e | 0 <= t < |s.queues| && e in s.queues[t] :: e.id in s.pool)
    && (forall t | 0 <= t < |s.threads| :: Deref(s.threads[t]) <= s.pool.Keys && s.threads[t] != Fault)
  }

  lemma TagsAlwaysLive(s: Server)
    requires Running(s)
    ensures TagsLive(s)
  {
    ReachableInv(s);
    forall t, e | 0 <= t < |s.queues| && e in s.queues[t] ensures e.id in s.pool {
      assert LocalInv(s, t);
    }
    forall t | 0 <= t < |s.threads| ensures Deref(s.threads[t]) <= s.pool.Keys && s.threads[t] != Fault {
      assert LocalInv(s, t);
      UsesLiveRpcs(s, t);
    }
  }

  /** When the handler calls `execute`, the state it finds is the one the event stands for,
      although the state is written only after the operation was started. */
  lemma StateMatchesEvent(s: Server, t: nat)
    requires Running(s) && t < |s.threads| && s.threads[t].Got?
    ensures var e := s.threads[t].event;
            && e.id in s.pool
            && s.pool[e.id].state == (if IsListener(e) then Process else Finish)
            && s.pool[e.id].queue == t
  {
    ReachableInv(s);
    assert LocalInv(s, t);
  }

  /** The bound is sharp: an event that a handler could be given at the moment of the release is a
      fault after it.  `RpcRelease` says exactly which releases are safe. */
  lemma ReleaseDangles(s: Server, t: nat, e: Event, ok: bool)
    requires Running(s) && Enabled(s, Deliver(t, e, ok))
    ensures var r := Then(Then(Then(Begin, Release), Deliver(t, e, ok)), Tick(t));
            Valid(s, r) && After(s, r).threads[t] == Fault
  {
    var s1 := Step(s, Release);
    assert After(s, Then(Begin, Release)) == s1 by { assert After(s, Begin) == s; }
    var s2 := Step(s1, Deliver(t, e, ok));
    assert After(s, Then(Then(Begin, Release), Deliver(t, e, ok))) == s2;
    assert s2.threads[t] == Got(e, ok) && Enabled(s2, Tick(t));
  }

  // ---------------------------------------------------------------- concurrency

  /** The threads inside `process_request` for an rpc whose kind satisfies `infer`. */
  ghost function InProcess(s: Server, infer: bool): set<nat> {
    set t: nat | t < |s.threads| && s.threads[t].Processing? && s.threads[t].id in s.pool
                 && (s.pool[s.threads[t].id].kind == ModelInfer <==> infer)
  }

  ghost function Below(n: nat): (r: set<nat>)
    ensures |r| == n && forall i: nat :: i in r <==> i < n
  {
    if n == 0 then {} else Below(n - 1) + {n - 1}
  }

  lemma SubsetSize<T>(a: set<T>, b: set<T>)
    requires a <= b
    ensures |a| <= |b|
  {
    assert b == a + (b - a);
  }

  /** At most `n` inference requests and at most one common request are processed at once. */
  lemma ConcurrencyBound(s: Server)
    requires Running(s)
    ensures |InProcess(s, true)| <= s.n && |InProcess(s, false)| <= 1
  {
    ReachableInv(s);
    forall t: nat, infer | t in InProcess(s, infer) ensures infer <==> t < s.n {
      assert LocalInv(s, t);
    }
    assert forall t | t in InProcess(s, true) :: t < s.n;
    SubsetSize(InProcess(s, true), Below(s.n));
    assert forall t | t in InProcess(s, false) :: !(t < s.n);
    SubsetSize(InProcess(s, false), {s.n});
  }

  lemma ProcessingHere(s: Server, t: nat)
    requires Running(s) && t < |s.threads| && s.threads[t].Processing?
    ensures WellFormed(s) && Own(s, t, s.threads[t].id) && s.pool[s.threads[t].id].kind in KindsOn(s.n, t)
  {
    ReachableInv(s);
    assert LocalInv(s, t);
  }

  /** Loading a model never overlaps with unloading one. */
  lemma LoadExcludesUnload(s: Server, t: nat, u: nat)
    requires Running(s) && t < |s.threads| && u < |s.threads|
    requires s.threads[t].Processing? && s.threads[u].Processing?
    ensures s.threads[t].id in s.pool && s.threads[u].id in s.pool
    ensures !(s.pool[s.threads[t].id].kind == ModelLoad && s.pool[s.threads[u].id].kind == ModelUnload)
  {
    ProcessingHere(s, t);
    ProcessingHere(s, u);
    assert t < s.n || u < s.n || t == u;
  }

  /** While a request is processed, a different rpc of its kind already listens on its queue; this
      holds even when the server refuses calls. */
  lemma ReplacementArmed(s: Server, t: nat)
    requires Running(s) && t < |s.threads| && s.threads[t].Processing?
    ensures var id := s.threads[t].id;
            && id in s.pool && t < |s.queues|
            && (exists other :: other != id && Listeners(s, t, s.pool[id].kind) == {other})
  {
    ReachableInv(s);
    assert LocalInv(s, t);
    var id := s.threads[t].id;
    assert id in Served(s.threads[t]);
    var other: nat :| Listens(s, t, s.pool[id].kind, other);
    assert Pending(s.queues[t], id) == 0;
    ListenersOne(s, t, s.pool[id].kind, other);
  }
}
