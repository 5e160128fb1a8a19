/** One event at a time: what the handler loop does with an event when no other thread interferes,
    as functions on the shared state that one thread can reach. */
module RpcSequential {
  import opened RpcModel

  datatype Shared = Shared(nextId: nat, pool: map<nat, Entry>, queue: multiset<Event>)

  /** `create_rpc<kind>(..., q)->execute()`: a fresh rpc in the pool, listening on `q`. */
  function CreateCall(sh: Shared, kind: Kind, q: nat): Shared {
    Shared(sh.nextId + 1,
           sh.pool[sh.nextId := Entry(kind, q, Process)],
           sh.queue + multiset{Armed(sh.nextId)})
  }

  /** The start-up code of a thread. */
  function BootAll(sh: Shared, kinds: seq<Kind>, q: nat): Shared
    decreases kinds
  {
    if kinds == [] then sh else BootAll(CreateCall(sh, kinds[0], q), kinds[1..], q)
  }

  /** The start-up code leaves one listening rpc for each kind, with ids in the order of the kinds,
      and keeps older entries. */
  lemma {:induction false} Booted(sh: Shared, kinds: seq<Kind>, q: nat)
    ensures var after := BootAll(sh, kinds, q);
            && after.nextId == sh.nextId + |kinds|
            && (forall id | id < sh.nextId && id in sh.pool :: id in after.pool && after.pool[id] == sh.pool[id])
            && (forall id | sh.nextId <= id < sh.nextId + |kinds| ::
                  id in after.pool && after.pool[id] == Entry(kinds[id - sh.nextId], q, Process))
    decreases kinds
  {
    if kinds != [] {
      var next := CreateCall(sh, kinds[0], q);
      Booted(next, kinds[1..], q);
      var after := BootAll(next, kinds[1..], q);
      assert sh.nextId in next.pool && sh.nextId < next.nextId;
      forall id | sh.nextId <= id < sh.nextId + |kinds|
        ensures id in after.pool && after.pool[id] == Entry(kinds[id - sh.nextId], q, Process)
      {
        if id > sh.nextId { assert kinds[1..][id - next.nextId] == kinds[id - sh.nextId]; }
      }
    }
  }

  /** `execute` on rpc `id`, and whether the rpc is to be kept. */
  function ExecuteOn(sh: Shared, id: nat): (Shared, bool)
    requires id in sh.pool
  {
    var me := sh.pool[id];
    match me.state
    case Create => (sh.(pool := SetState(sh.pool, id, Process), queue := sh.queue + multiset{Armed(id)}), true)
    case Process =>
      var next := CreateCall(sh, me.kind, me.queue);
      (next.(pool := SetState(next.pool, id, Finish), queue := next.queue + multiset{Done(id)}), true)
    case Finish => (sh, false)
  }

  /** One iteration of the handler loop. */
  function Handle(sh: Shared, e: Event, ok: bool): Shared
    requires e.id in sh.pool
  {
    var taken := sh.(queue := sh.queue - multiset{e});
    if !ok then taken.(pool := taken.pool - {e.id})
    else
      var (after, keep) := ExecuteOn(taken, e.id);
      if keep then after else after.(pool := after.pool - {e.id})
  }

  /** What `Next` may return: the tag of an operation of the queue whose rpc is alive. */
  predicate Returnable(sh: Shared, e: Event, ok: bool) {
    e in sh.queue && e.id in sh.pool && (IsListener(e) ==> (ok <==> e.Request?))
  }

  /** A call arrives for an armed listener. */
  function Arrived(sh: Shared, id: nat): Shared {
    sh.(queue := sh.queue - multiset{Armed(id)} + multiset{Request(id)})
  }

  /** What the environment does to the handler of one queue: a call arrives, or `Next` returns. */
  datatype Input = Call(id: nat) | Ready(event: Event, ok: bool)

  predicate Acceptable(sh: Shared, i: Input) {
    match i
    case Call(id) => Armed(id) in sh.queue
    case Ready(e, ok) => Returnable(sh, e, ok)
  }

  function HandleInput(sh: Shared, i: Input): Shared
    requires Acceptable(sh, i)
  {
    match i
    case Call(id) => Arrived(sh, id)
    case Ready(e, ok) => Handle(sh, e, ok)
  }

  predicate AllAcceptable(sh: Shared, inputs: seq<Input>)
    decreases inputs
  {
    inputs == [] || (Acceptable(sh, inputs[0]) && AllAcceptable(HandleInput(sh, inputs[0]), inputs[1..]))
  }

  function HandleAll(sh: Shared, inputs: seq<Input>): Shared
    requires AllAcceptable(sh, inputs)
    decreases inputs
  {
    if inputs == [] then sh else HandleAll(HandleInput(sh, inputs[0]), inputs[1..])
  }
}
