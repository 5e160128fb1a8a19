/** The stand-alone example server: heap-allocated call objects, one kind of call, one queue, one
    thread.  A tag is the address of a call object; `HandleRPCs` aborts on a failed event. */
module CallDataExample {
  import opened RpcModel

  /** Why a call object is allocated: before the event loop, or in the PROCESS case of `parent`. */
  datatype Purpose = FirstCall | Successor(parent: nat)

  datatype Point =
    | Allocate(purpose: Purpose)                    // new CallData
    | SetProcess(purpose: Purpose, address: nat)    // _status = PROCESS
    | StartListener(purpose: Purpose, address: nat) // RequestServerLive(..., this)
    | Next                                          // _queue->Next(&tag, &ok)
    | Took(event: Event)                            // Proceed()
    | SetFinish(address: nat)                       // _status = FINISH
    | StartFinish(address: nat)                     // _responder.Finish(..., this)
    | Delete(address: nat)                          // delete this
    | Aborted

  datatype Example = Example(heap: map<nat, RpcState>, queue: multiset<Event>, point: Point)

  /** A call arrives, `Next` returns, or the thread executes a statement; `spot` is the address
      that an allocation returns. */
  datatype Move = Arrive(address: nat) | Return(event: Event, ok: bool) | Do(spot: nat)

  function ExampleStart(): Example {
    Example(map[], multiset{}, Allocate(FirstCall))
  }

  predicate Can(x: Example, m: Move) {
    match m
    case Arrive(a) => Armed(a) in x.queue
    case Return(e, ok) => x.point.Next? && e in x.queue && MayDeliver(false, e, ok)
    case Do(spot) => !x.point.Next? && !x.point.Aborted? && (x.point.Allocate? ==> spot !in x.heap)
  }

  function Proceed(x: Example, e: Event): Point {
    if e.id !in x.heap then Aborted
    else
      match x.heap[e.id]
      case Create => SetProcess(FirstCall, e.id)
      case Process => Allocate(Successor(e.id))
      case Finish => Delete(e.id)
  }

  function Perform(x: Example, spot: nat): Example {
    match x.point
    case Allocate(why) => x.(heap := x.heap[spot := Create], point := SetProcess(why, spot))
    case SetProcess(why, a) => x.(heap := x.heap[a := Process], point := StartListener(why, a))
    case StartListener(why, a) =>
      x.(queue := x.queue + multiset{Armed(a)},
         point := match why case FirstCall => Next case Successor(p) => SetFinish(p))
    case Took(e) => x.(point := Proceed(x, e))
    case SetFinish(a) => x.(heap := x.heap[a := Finish], point := StartFinish(a))
    case StartFinish(a) => x.(queue := x.queue + multiset{Done(a)}, point := Next)
    case Delete(a) => x.(heap := x.heap - {a}, point := Next)
    case _ => x
  }

  function Made(x: Example, m: Move): Example {
    match m
    case Arrive(a) => x.(queue := x.queue - multiset{Armed(a)} + multiset{Request(a)})
    case Return(e, ok) => x.(queue := x.queue - multiset{e}, point := if ok then Took(e) else Aborted)
    case Do(spot) => Perform(x, spot)
  }

  /** What a client and the allocator can observe: a request is taken, it is answered, its object
      is deleted. */
  datatype Sight = SawRequest(id: nat) | SawAnswer(id: nat) | SawDelete(id: nat)

  function Seen(x: Example, m: Move): seq<Sight> {
    match m
    case Return(Request(a), true) => [SawRequest(a)]
    case Do(_) =>
      (match x.point
       case StartFinish(a) => [SawAnswer(a)]
       case Delete(a) => [SawDelete(a)]
       case _ => [])
    case _ => []
  }

  // ---------------------------------------------------------------- runs, first move first

  predicate Playable(x: Example, moves: seq<Move>)
    decreases moves
  {
    moves == [] || (Can(x, moves[0]) && Playable(Made(x, moves[0]), moves[1..]))
  }

  function Played(x: Example, moves: seq<Move>): Example
    decreases moves
  {
    if moves == [] then x else Played(Made(x, moves[0]), moves[1..])
  }

  function Sights(x: Example, moves: seq<Move>): seq<Sight>
    decreases moves
  {
    if moves == [] then [] else Seen(x, moves[0]) + Sights(Made(x, moves[0]), moves[1..])
  }

  /** No event fails: the restriction of the example, which aborts otherwise. */
  predicate AllReturnOk(moves: seq<Move>) {
    forall m | m in moves && m.Return? :: m.ok
  }

  lemma {:induction false} PlayOn(x: Example, a: seq<Move>, b: seq<Move>)
    ensures Playable(x, a + b) <==> Playable(x, a) && Playable(Played(x, a), b)
    ensures Played(x, a + b) == Played(Played(x, a), b)
    ensures Sights(x, a + b) == Sights(x, a) + Sights(Played(x, a), b)
    decreases a
  {
    if a == [] {
      assert a + b == b;
    } else {
      assert (a + b)[1..] == a[1..] + b && (a + b)[0] == a[0];
      PlayOn(Made(x, a[0]), a[1..], b);
    }
  }

  lemma PlayOne(x: Example, m: Move)
    ensures Playable(x, [m]) <==> Can(x, m)
    ensures Played(x, [m]) == Made(x, m) && Sights(x, [m]) == Seen(x, m)
  {
    assert Playable(Made(x, m), []) && Sights(Made(x, m), []) == [];
  }

  lemma PlayTwo(x: Example, m: Move, k: Move)
    ensures Playable(x, [m, k]) <==> Can(x, m) && Can(Made(x, m), k)
    ensures Played(x, [m, k]) == Made(Made(x, m), k)
    ensures Sights(x, [m, k]) == Seen(x, m) + Seen(Made(x, m), k)
  {
    assert [m, k] == [m] + [k];
    PlayOn(x, [m], [k]);
    PlayOne(x, m);
    PlayOne(Made(x, m), k);
  }
}
