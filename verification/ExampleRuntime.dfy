/** The example server as it runs: call objects that advance, replace and delete themselves. */
module ExampleRuntime {
  import opened RpcModel
  import opened CallDataExample

  // ---------------------------------------------------------------- one call of Proceed

  /** The whole effect of `Proceed` on the object at `a`; `spot` is where a new object is put. */
  function Proceeded(x: Example, a: nat, spot: nat): Example
    requires a in x.heap
  {
    match x.heap[a]
    case Create => Example(x.heap[a := Process], x.queue + multiset{Armed(a)}, Next)
    case Process => Example(x.heap[spot := Process][a := Finish], x.queue + multiset{Armed(spot)} + multiset{Done(a)}, Next)
    case Finish => Example(x.heap - {a}, x.queue, Next)
  }

  function ProceedMoves(st: RpcState, spot: nat): seq<Move> {
    match st
    case Create => [Do(0)] + [Do(0), Do(0)]
    case Process => [Do(0), Do(spot)] + ([Do(0), Do(0)] + [Do(0), Do(0)])
    case Finish => [Do(0), Do(0)]
  }

  lemma AllocatePlays(x: Example, a: nat, spot: nat)
    requires a in x.heap && x.heap[a] == Process && spot !in x.heap && x.point.Took? && x.point.event.id == a
    ensures Playable(x, [Do(0), Do(spot)])
    ensures Played(x, [Do(0), Do(spot)]) == Example(x.heap[spot := Create], x.queue, SetProcess(Successor(a), spot))
  {
    PlayTwo(x, Do(0), Do(spot));
  }

  lemma ListenPlays(x: Example)
    requires x.point.SetProcess?
    ensures Playable(x, [Do(0), Do(0)])
    ensures var a := x.point.address;
            Played(x, [Do(0), Do(0)]) ==
              Example(x.heap[a := Process], x.queue + multiset{Armed(a)},
                      match x.point.purpose case FirstCall => Next case Successor(p) => SetFinish(p))
  {
    PlayTwo(x, Do(0), Do(0));
  }

  lemma FinishPlays(x: Example)
    requires x.point.SetFinish?
    ensures Playable(x, [Do(0), Do(0)])
    ensures Played(x, [Do(0), Do(0)]) == Example(x.heap[x.point.address := Finish], x.queue + multiset{Done(x.point.address)}, Next)
  {
    PlayTwo(x, Do(0), Do(0));
  }

  lemma AnswerPlays(x: Example, a: nat, spot: nat)
    requires a in x.heap && x.heap[a] == Process && spot !in x.heap && x.point.Took? && x.point.event.id == a
    ensures Playable(x, ProceedMoves(Process, spot)) && Played(x, ProceedMoves(Process, spot)) == Proceeded(x, a, spot)
  {
    AllocatePlays(x, a, spot);
    var x1 := Example(x.heap[spot := Create], x.queue, SetProcess(Successor(a), spot));
    ListenPlays(x1);
    var x2 := Example(x1.heap[spot := Process], x.queue + multiset{Armed(spot)}, SetFinish(a));
    FinishPlays(x2);
    assert x1.heap[spot := Process] == x.heap[spot := Process];
    PlayOn(x1, [Do(0), Do(0)], [Do(0), Do(0)]);
    PlayOn(x, [Do(0), Do(spot)], [Do(0), Do(0)] + [Do(0), Do(0)]);
  }

  /** `Proceed`, statement by statement, is a sequence of moves of the machine. */
  lemma ProceedPlays(x: Example, e: Event, spot: nat)
    requires x.point == Took(e) && e.id in x.heap && spot !in x.heap
    ensures Playable(x, ProceedMoves(x.heap[e.id], spot))
    ensures Played(x, ProceedMoves(x.heap[e.id], spot)) == Proceeded(x, e.id, spot)
  {
    match x.heap[e.id] {
      case Create =>
        PlayOne(x, Do(0));
        ListenPlays(Made(x, Do(0)));
        PlayOn(x, [Do(0)], [Do(0), Do(0)]);
      case Process =>
        AnswerPlays(x, e.id, spot);
      case Finish =>
        PlayTwo(x, Do(0), Do(0));
    }
  }

  /** The first `new CallData` of `HandleRPCs`. */
  lemma FirstPlays(spot: nat)
    ensures Playable(ExampleStart(), [Do(spot)] + [Do(0), Do(0)])
    ensures Played(ExampleStart(), [Do(spot)] + [Do(0), Do(0)]) == Example(map[spot := Process], multiset{Armed(spot)}, Next)
  {
    var x := ExampleStart();
    PlayOne(x, Do(spot));
    ListenPlays(Made(x, Do(spot)));
    PlayOn(x, [Do(spot)], [Do(0), Do(0)]);
    assert map[spot := Create][spot := Process] == map[spot := Process];
  }

  // ---------------------------------------------------------------- the event loop

  /** What happens between two iterations: a call arrives, or `Next` returns an event, with the
      address that an allocation would return. */
  datatype Input = Call(address: nat) | Ready(event: Event, ok: bool, spot: nat)

  predicate Admissible(x: Example, i: Input) {
    match i
    case Call(a) => Armed(a) in x.queue
    case Ready(e, ok, spot) => e in x.queue && MayDeliver(false, e, ok) && e.id in x.heap && spot !in x.heap
  }

  function InputMoves(x: Example, i: Input): seq<Move> {
    match i
    case Call(a) => [Arrive(a)]
    case Ready(e, ok, spot) =>
      if ok && e.id in x.heap then [Return(e, true)] + ProceedMoves(x.heap[e.id], spot) else [Return(e, ok)]
  }

  /** The inputs fit the states they meet, up to the first failed event, which aborts the loop. */
  predicate AllAdmissible(x: Example, inputs: seq<Input>)
    decreases inputs
  {
    inputs == [] ||
    (Admissible(x, inputs[0]) &&
     ((inputs[0].Ready? && !inputs[0].ok) || AllAdmissible(Played(x, InputMoves(x, inputs[0])), inputs[1..])))
  }

  function Affected(x: Example, i: Input): Example
    requires Admissible(x, i)
  {
    match i
    case Call(a) => x.(queue := x.queue - multiset{Armed(a)} + multiset{Request(a)})
    case Ready(e, ok, spot) =>
      var taken := x.(queue := x.queue - multiset{e});
      if ok then Proceeded(taken, e.id, spot) else taken.(point := Aborted)
  }

  lemma InputPlays(x: Example, i: Input)
    requires x.point == Next && Admissible(x, i)
    ensures Playable(x, InputMoves(x, i)) && Played(x, InputMoves(x, i)) == Affected(x, i)
  {
    match i {
      case Call(a) => PlayOne(x, Arrive(a));
      case Ready(e, ok, spot) =>
        PlayOne(x, Return(e, ok));
        if ok {
          ProceedPlays(Made(x, Return(e, true)), e, spot);
          PlayOn(x, [Return(e, true)], ProceedMoves(x.heap[e.id], spot));
        }
    }
  }

  // ---------------------------------------------------------------- objects

  class CallData {
    const address: nat
    var status: RpcState

    constructor (address: nat)
      ensures this.address == address && status == Create
    {
      this.address := address;
      status := Create;
    }
  }

  class ServerImpl {
    var heap: map<nat, CallData>
    var queue: multiset<Event>

    constructor ()
      ensures Valid() && heap == map[] && queue == multiset{}
    {
      heap, queue := map[], multiset{};
    }

    ghost predicate Valid()
      reads this
    {
      forall a | a in heap :: heap[a].address == a
    }

    ghost function View(point: Point): Example
      reads this, heap.Values
    {
      Example(map a | a in heap :: heap[a].status, queue, point)
    }

    /** `new CallData{...}`, whose constructor calls `Proceed` in state CREATE. */
    method NewCallData(spot: nat)
      requires Valid() && spot !in heap
      modifies this
      ensures Valid() && forall a | a in old(heap) :: a in heap && heap[a] == old(heap)[a]
      ensures heap.Keys == old(heap.Keys) + {spot} && fresh(heap[spot])
      ensures View(Next) == Example(old(View(Next)).heap[spot := Process], old(queue) + multiset{Armed(spot)}, Next)
    {
      var c := new CallData(spot);
      heap := heap[spot := c];
      c.status := Process;
      queue := queue + multiset{Armed(spot)};
    }

    /** The PROCESS case. */
    method Answer(c: CallData, spot: nat)
      requires Valid() && c.address in heap && heap[c.address] == c && spot !in heap && c.status == Process
      modifies this, c
      ensures Valid() && forall b | b in heap :: if b in old(heap) then heap[b] == old(heap)[b] else fresh(heap[b])
      ensures View(Next) == Proceeded(old(View(Next)), c.address, spot)
    {
      NewCallData(spot);
      c.status := Finish;
      queue := queue + multiset{Done(c.address)};
    }

    /** `Proceed` on the object at `a`, called by the event loop. */
    method Proceed(a: nat, spot: nat)
      requires Valid() && a in heap && spot !in heap
      modifies this, heap[a]
      ensures Valid() && forall b | b in heap :: if b in old(heap) then heap[b] == old(heap)[b] else fresh(heap[b])
      ensures View(Next) == Proceeded(old(View(Next)), a, spot)
    {
      var c := heap[a];
      match c.status {
        case Create =>
          c.status := Process;
          queue := queue + multiset{Armed(a)};
        case Process =>
          Answer(c, spot);
        case Finish =>
          heap := heap - {a};
      }
    }

    method HandleReady(e: Event, ok: bool, spot: nat)
      requires Valid() && Admissible(View(Next), Ready(e, ok, spot))
      modifies this, heap[e.id]
      ensures Valid() && forall b | b in heap :: if b in old(heap) then heap[b] == old(heap)[b] else fresh(heap[b])
      ensures View(if ok then Next else Aborted) == Affected(old(View(Next)), Ready(e, ok, spot))
    {
      queue := queue - multiset{e};
      assert View(Next) == old(View(Next)).(queue := queue);
      if ok { Proceed(e.id, spot); }
    }

    method HandleInput(i: Input) returns (aborted: bool)
      requires Valid() && Admissible(View(Next), i)
      modifies this, heap.Values
      ensures Valid() && forall b | b in heap :: if b in old(heap) then heap[b] == old(heap)[b] else fresh(heap[b])
      ensures aborted <==> i.Ready? && !i.ok
      ensures View(if aborted then Aborted else Next) == Affected(old(View(Next)), i)
    {
      match i {
        case Call(a) =>
          queue := queue - multiset{Armed(a)} + multiset{Request(a)};
          aborted := false;
        case Ready(e, ok, spot) =>
          aborted := !ok;
          HandleReady(e, ok, spot);
      }
    }

    /** `HandleRPCs` on a new server makes only moves of the machine, and aborts on the first failed
        event. */
    method HandleRPCs(first: nat, inputs: seq<Input>) returns (aborted: bool, ghost moves: seq<Move>)
      requires Valid() && heap == map[] && queue == multiset{}
      requires AllAdmissible(Example(map[first := Process], multiset{Armed(first)}, Next), inputs)
      modifies this
      ensures Valid() && Playable(ExampleStart(), moves)
      ensures View(if aborted then Aborted else Next) == Played(ExampleStart(), moves)
      ensures aborted <==> exists k :: 0 <= k < |inputs| && inputs[k].Ready? && !inputs[k].ok
    {
      FirstPlays(first);
      NewCallData(first);
      moves := [Do(first)] + [Do(0), Do(0)];
      aborted := false;
      var k := 0;
      while k < |inputs| && !aborted
        invariant 0 <= k <= |inputs| && Valid() && forall b | b in heap :: fresh(heap[b])
        invariant Playable(ExampleStart(), moves)
        invariant View(if aborted then Aborted else Next) == Played(ExampleStart(), moves)
        invariant !aborted ==> AllAdmissible(View(Next), inputs[k..])
        invariant aborted <==> exists j :: 0 <= j < k && inputs[j].Ready? && !inputs[j].ok
      {
        ghost var x := View(Next);
        assert inputs[k..][1..] == inputs[k + 1..];
        InputPlays(x, inputs[k]);
        PlayOn(ExampleStart(), moves, InputMoves(x, inputs[k]));
        aborted := HandleInput(inputs[k]);
        moves := moves + InputMoves(x, inputs[k]);
        k := k + 1;
      }
    }
  }
}
