/** The sequential code of the server as classes: the pool, the rpc objects, the handler loop and
    the start of a server. */
module RpcRuntime {
  import opened RpcModel
  import opened RpcSequential

  /** A completion queue; `pending` holds the started operations. */
  class CompletionQueue {
    const index: nat
    var pending: multiset<Event>

    constructor (index: nat)
      ensures this.index == index && pending == multiset{}
    {
      this.index := index;
      pending := multiset{};
    }
  }

  class Rpc {
    const id: nat
    const kind: Kind
    const cq: CompletionQueue
    var state: RpcState

    constructor (id: nat, kind: Kind, cq: CompletionQueue)
      ensures this.id == id && this.kind == kind && this.cq == cq && state == Create
    {
      this.id := id;
      this.kind := kind;
      this.cq := cq;
      state := Create;
    }

    method SetupRequest()
      modifies cq
      ensures cq.pending == old(cq.pending) + multiset{Armed(id)}
    {
      cq.pending := cq.pending + multiset{Armed(id)};
    }

    method WriteResponse()
      modifies cq
      ensures cq.pending == old(cq.pending) + multiset{Done(id)}
    {
      cq.pending := cq.pending + multiset{Done(id)};
    }

    /** The assignment to `_rpc_state`, seen from the pool. */
    method Mark(ghost pool: RpcPool, st: RpcState)
      requires pool.Valid() && pool.Has(this)
      modifies this`state
      ensures state == st && pool.View() == SetState(old(pool.View()), id, st)
    {
      state := st;
    }

    /** The virtual `create_rpc()`: a listening rpc of the same kind on the same queue. */
    method CreateReplacement(pool: RpcPool)
      requires pool.Valid() && pool.Has(this) && state == Process
      modifies pool, cq
      ensures pool.Valid() && pool.nextId == old(pool.nextId) + 1
      ensures pool.rpcs.Keys == old(pool.rpcs.Keys) + {old(pool.nextId)} && pool.Grew(old(pool.rpcs), cq)
      ensures pool.Shared(cq) == CreateCall(old(pool.Shared(cq)), kind, cq.index)
      decreases 1, 0
    {
      var next := pool.CreateRpc(kind, cq);
      assert pool.View() == old(pool.View())[next.id := Entry(kind, cq.index, Create)];
      var _ := next.Execute(pool);
    }

    /** The bodies of `process_request` only fill in the response. */
    method Execute(pool: RpcPool) returns (keep: bool)
      requires pool.Valid() && pool.Has(this)
      modifies pool, cq, this
      ensures pool.Valid() && pool.Has(this) && pool.Grew(old(pool.rpcs), cq)
      ensures old(state) == Create ==> pool.rpcs == old(pool.rpcs) && pool.nextId == old(pool.nextId)
      ensures keep <==> old(state) != Finish
      ensures state == if old(state) == Create then Process else Finish
      ensures cq.pending == match old(state)
                            case Create => old(cq.pending) + multiset{Armed(id)}
                            case Process => old(cq.pending) + multiset{Armed(old(pool.nextId)), Done(id)}
                            case Finish => old(cq.pending)
      ensures pool.rpcs.Keys == old(pool.rpcs.Keys) + if old(state) == Process then {old(pool.nextId)} else {}
      ensures (pool.Shared(cq), keep) == ExecuteOn(old(pool.Shared(cq)), id)
      decreases if state == Create then 0 else 1, 1
    {
      match state {
        case Create =>
          SetupRequest();
          Mark(pool, Process);
          return true;
        case Process =>
          CreateReplacement(pool);
          WriteResponse();
          Mark(pool, Finish);
          return true;
        case Finish =>
          return false;
      }
    }
  }

  class RpcPool {
    var nextId: nat
    var rpcs: map<nat, Rpc>

    ghost predicate Valid()
      reads this
    {
      forall id | id in rpcs :: rpcs[id].id == id && id < nextId
    }

    ghost predicate Has(r: Rpc)
      reads this
    {
      r.id in rpcs && rpcs[r.id] == r
    }

    /** No rpc was replaced, and those added belong to `cq` and were not allocated before. */
    twostate predicate Grew(earlier: map<nat, Rpc>, cq: CompletionQueue)
      reads this
    {
      && (forall i | i in earlier :: i in rpcs && rpcs[i] == earlier[i])
      && (forall i | i in rpcs && i !in earlier :: fresh(rpcs[i]) && rpcs[i].cq == cq)
    }

    ghost function View(): map<nat, Entry>
      reads this, rpcs.Values
    {
      map id | id in rpcs :: Entry(rpcs[id].kind, rpcs[id].cq.index, rpcs[id].state)
    }

    /** The rpcs from id `first` on are of these kinds, on this queue and listening. */
    ghost predicate Lists(first: nat, kinds: seq<Kind>, queue: nat)
      reads this, rpcs.Values
    {
      forall id | first <= id < first + |kinds| :: id in View() && View()[id] == Entry(kinds[id - first], queue, Process)
    }

    ghost function Shared(cq: CompletionQueue): Shared
      reads this, rpcs.Values, cq
    {
      RpcSequential.Shared(nextId, View(), cq.pending)
    }

    /** `create_rpc`: an id of its own for every rpc, and no entry is overwritten. */
    method CreateRpc(kind: Kind, cq: CompletionQueue) returns (r: Rpc)
      requires Valid()
      modifies this
      ensures Valid() && fresh(r) && r.id == old(nextId) && r.kind == kind && r.cq == cq && r.state == Create
      ensures old(nextId) !in old(rpcs) && rpcs == old(rpcs)[old(nextId) := r]
      ensures nextId == old(nextId) + 1
    {
      var id := nextId;
      nextId := nextId + 1;
      r := new Rpc(id, kind, cq);
      rpcs := rpcs[id := r];
    }

    /** `remove_rpc`: erasing an absent id changes nothing. */
    method RemoveRpc(id: nat)
      requires Valid()
      modifies this`rpcs
      ensures Valid() && rpcs == old(rpcs) - {id}
      ensures View() == old(View()) - {id}
    {
      rpcs := rpcs - {id};
    }

    method Release()
      modifies this`rpcs
      ensures Valid() && View() == map[]
    {
      rpcs := map[];
    }
  }

  // ---------------------------------------------------------------- the handler loop

  /** `Next` with the event the environment chose. */
  method Next(cq: CompletionQueue, e: Event)
    requires e in cq.pending
    modifies cq
    ensures cq.pending == old(cq.pending) - multiset{e}
  {
    cq.pending := cq.pending - multiset{e};
  }

  method Arrive(cq: CompletionQueue, id: nat)
    requires Armed(id) in cq.pending
    modifies cq
    ensures cq.pending == old(cq.pending) - multiset{Armed(id)} + multiset{Request(id)}
  {
    cq.pending := cq.pending - multiset{Armed(id)} + multiset{Request(id)};
  }

  /** One iteration of `rpc_handler`. */
  method HandleEvent(pool: RpcPool, cq: CompletionQueue, e: Event, ok: bool)
    requires pool.Valid() && Returnable(pool.Shared(cq), e, ok) && pool.rpcs[e.id].cq == cq
    modifies pool, cq, pool.rpcs[e.id]
    ensures pool.Valid() && pool.Shared(cq) == Handle(old(pool.Shared(cq)), e, ok)
    ensures forall i | i in pool.rpcs ::
              if i in old(pool.rpcs) then pool.rpcs[i] == old(pool.rpcs)[i]
              else fresh(pool.rpcs[i]) && pool.rpcs[i].cq == cq
  {
    Next(cq, e);
    var rpc := pool.rpcs[e.id];
    if !ok {
      pool.RemoveRpc(rpc.id);
      return;
    }
    var keep := rpc.Execute(pool);
    if !keep {
      pool.RemoveRpc(rpc.id);
    }
  }

  /** Every tag in the queue points to an rpc that was created on this queue. */
  ghost predicate OwnTags(pool: RpcPool, cq: CompletionQueue)
    reads pool, cq
  {
    forall e | e in cq.pending && e.id in pool.rpcs :: pool.rpcs[e.id].cq == cq
  }

  method HandleOne(pool: RpcPool, cq: CompletionQueue, i: Input)
    requires pool.Valid() && OwnTags(pool, cq) && Acceptable(pool.Shared(cq), i)
    modifies pool, cq, pool.rpcs.Values
    ensures pool.Valid() && OwnTags(pool, cq)
    ensures pool.Shared(cq) == HandleInput(old(pool.Shared(cq)), i)
    ensures forall r | r in pool.rpcs.Values :: r in old(pool.rpcs.Values) || fresh(r)
  {
    match i {
      case Call(id) => Arrive(cq, id);
      case Ready(e, ok) =>
        HandleEvent(pool, cq, e, ok);
        HandledTags(old(pool.Shared(cq)), e, ok);
    }
  }

  /** After an iteration a queue holds no tag but the ones it held, the handled one and a new one. */
  lemma HandledTags(sh: Shared, e: Event, ok: bool)
    requires e.id in sh.pool && e in sh.queue
    ensures forall x | x in Handle(sh, e, ok).queue :: x in sh.queue || x.id == e.id || x.id == sh.nextId
  {
  }

  /** The loop of `rpc_handler`, over what `Next` returns until the queue is shut down. */
  method RpcHandler(pool: RpcPool, cq: CompletionQueue, inputs: seq<Input>)
    requires pool.Valid() && OwnTags(pool, cq) && AllAcceptable(pool.Shared(cq), inputs)
    modifies pool, cq, pool.rpcs.Values
    ensures pool.Valid() && OwnTags(pool, cq)
    ensures pool.Shared(cq) == HandleAll(old(pool.Shared(cq)), inputs)
  {
    var k := 0;
    while k < |inputs|
      invariant 0 <= k <= |inputs|
      invariant pool.Valid() && OwnTags(pool, cq)
      invariant forall r | r in pool.rpcs.Values :: r in old(pool.rpcs.Values) || fresh(r)
      invariant AllAcceptable(pool.Shared(cq), inputs[k..])
      invariant HandleAll(pool.Shared(cq), inputs[k..]) == HandleAll(old(pool.Shared(cq)), inputs)
    {
      assert inputs[k..][1..] == inputs[k + 1..];
      HandleOne(pool, cq, inputs[k]);
      k := k + 1;
    }
    assert inputs[k..] == [];
  }

  // ---------------------------------------------------------------- the server object

  /** `create_rpc<kind>(...)->execute()` in the start-up code of a thread. */
  method StartCall(pool: RpcPool, kind: Kind, cq: CompletionQueue)
    requires pool.Valid()
    modifies pool, cq
    ensures pool.Valid()
    ensures forall i | i in old(pool.rpcs) :: i in pool.rpcs && pool.rpcs[i] == old(pool.rpcs)[i]
    ensures pool.Shared(cq) == CreateCall(old(pool.Shared(cq)), kind, cq.index)
  {
    var r := pool.CreateRpc(kind, cq);
    assert pool.View() == old(pool.View())[r.id := Entry(kind, cq.index, Create)];
    var _ := r.Execute(pool);
  }

  /** The start-up code of an inference thread. */
  method BootInference(pool: RpcPool, cq: CompletionQueue)
    requires pool.Valid()
    modifies pool, cq
    ensures pool.Valid() && pool.Shared(cq) == BootAll(old(pool.Shared(cq)), [ModelInfer], cq.index)
    ensures pool.Lists(old(pool.nextId), [ModelInfer], cq.index)
  {
    StartCall(pool, ModelInfer, cq);
    BootedLists(pool, cq, old(pool.Shared(cq)), [ModelInfer]);
  }

  /** The start-up code of the common thread. */
  method BootCommon(pool: RpcPool, cq: CompletionQueue)
    requires pool.Valid()
    modifies pool, cq
    ensures pool.Valid() && pool.Shared(cq) == BootAll(old(pool.Shared(cq)), CommonKinds(), cq.index)
    ensures pool.Lists(old(pool.nextId), [ServerLive, ServerReady, ServerMetadata, ModelList, ModelLoad, ModelMetadata,
                                          ModelReady, ModelUnload], cq.index)
  {
    ghost var sh0 := pool.Shared(cq);
    StartCall(pool, ServerLive, cq);
    StartCall(pool, ServerReady, cq);
    StartCall(pool, ServerMetadata, cq);
    StartCall(pool, ModelList, cq);
    StartCall(pool, ModelLoad, cq);
    StartCall(pool, ModelMetadata, cq);
    StartCall(pool, ModelReady, cq);
    StartCall(pool, ModelUnload, cq);
    BootEight(sh0, cq.index);
    BootedLists(pool, cq, sh0, CommonKinds());
  }

  lemma BootedLists(pool: RpcPool, cq: CompletionQueue, sh: Shared, kinds: seq<Kind>)
    requires pool.Shared(cq) == BootAll(sh, kinds, cq.index)
    ensures pool.Lists(sh.nextId, kinds, cq.index)
  {
    Booted(sh, kinds, cq.index);
  }

  lemma BootEight(sh: Shared, q: nat)
    ensures BootAll(sh, CommonKinds(), q) ==
              CreateCall(CreateCall(CreateCall(CreateCall(CreateCall(CreateCall(CreateCall(CreateCall(sh,
                ServerLive, q), ServerReady, q), ServerMetadata, q), ModelList, q), ModelLoad, q),
                ModelMetadata, q), ModelReady, q), ModelUnload, q)
  {
    var kinds := CommonKinds();
    BootTail(sh, kinds, q, 4);
    BootTail(sh, kinds[..4], q, 4);
  }

  lemma {:induction false} BootTail(sh: Shared, kinds: seq<Kind>, q: nat, k: nat)
    requires k <= |kinds|
    ensures BootAll(sh, kinds, q) == BootAll(BootAll(sh, kinds[..k], q), kinds[k..], q)
    decreases k
  {
    if k > 0 {
      BootTail(CreateCall(sh, kinds[0], q), kinds[1..], q, k - 1);
      assert kinds[..k][1..] == kinds[1..][..k - 1] && kinds[1..][k - 1..] == kinds[k..];
    }
  }

  /** The server object.  A spawned thread is represented by its first statement; `built` says
      whether `BuildAndStart` returned a server. */
  class GrpcServer {
    var isRunning: bool
    var inferenceQueues: seq<CompletionQueue>
    var commonQueue: CompletionQueue?
    var threads: seq<Pc>

    constructor ()
      ensures !isRunning && inferenceQueues == [] && commonQueue == null && threads == []
    {
      isRunning, inferenceQueues, commonQueue, threads := false, [], null, [];
    }

    ghost function Pending(): seq<multiset<Event>>
      requires commonQueue != null
      reads this, inferenceQueues, commonQueue
    {
      var queues: seq<CompletionQueue> := inferenceQueues + [commonQueue];
      seq(|queues|, i requires 0 <= i < |queues| reads queues => queues[i].pending)
    }

    ghost function View(pool: RpcPool): Server
      requires commonQueue != null
      reads this, inferenceQueues, commonQueue, pool, pool.rpcs.Values
    {
      Server(|inferenceQueues|, pool.nextId, pool.nextId, pool.View(), Pending(), threads, false, false, {})
    }

    /** A running server is not started again.  A new server object ends up in the start state of
        the transition system, whether or not the build succeeded. */
    method Start(pool: RpcPool, numInferenceThreads: int, built: bool) returns (running: bool)
      modifies this
      ensures old(isRunning) ==> !running && unchanged(this)
      ensures !old(isRunning) ==> running == isRunning == built
      ensures !old(isRunning) && old(inferenceQueues) == [] && old(threads) == [] ==>
                && commonQueue != null
                && View(pool) == RpcModel.Start(if numInferenceThreads < 0 then 0 else numInferenceThreads, pool.nextId, pool.View())
      ensures !old(isRunning) && old(inferenceQueues) == [] ==>
                && commonQueue != null && commonQueue.index == |inferenceQueues|
                && (forall i | 0 <= i < |inferenceQueues| :: inferenceQueues[i].index == i && inferenceQueues[i] != commonQueue)
    {
      if isRunning {
        return false;
      }
      var queueIndex := 0;
      while queueIndex < numInferenceThreads
        invariant 0 <= queueIndex && (numInferenceThreads >= 0 ==> queueIndex <= numInferenceThreads)
        invariant numInferenceThreads < 0 ==> queueIndex == 0
        invariant unchanged(`isRunning) && unchanged(`threads)
        invariant |inferenceQueues| == |old(inferenceQueues)| + queueIndex
        invariant forall i | |old(inferenceQueues)| <= i < |inferenceQueues| ::
                    fresh(inferenceQueues[i]) && inferenceQueues[i].index == i && inferenceQueues[i].pending == multiset{}
      {
        var queue := new CompletionQueue(|inferenceQueues|);
        inferenceQueues := inferenceQueues + [queue];
        queueIndex := queueIndex + 1;
      }
      commonQueue := new CompletionQueue(|inferenceQueues|);
      isRunning := built;

      for k := 0 to |inferenceQueues|
        invariant isRunning == built && commonQueue != null && fresh(commonQueue)
        invariant commonQueue.index == |inferenceQueues| && commonQueue.pending == multiset{}
        invariant |inferenceQueues| == |old(inferenceQueues)| + queueIndex
        invariant forall i | |old(inferenceQueues)| <= i < |inferenceQueues| ::
                    fresh(inferenceQueues[i]) && inferenceQueues[i].index == i && inferenceQueues[i].pending == multiset{}
                    && inferenceQueues[i] != commonQueue
        invariant threads == old(threads) + seq(k, i => Fetch(Booting([ModelInfer])))
      {
        threads := threads + [Fetch(Booting([ModelInfer]))];
      }
      threads := threads + [Fetch(Booting(CommonKinds()))];
      running := isRunning;
    }
  }
}
