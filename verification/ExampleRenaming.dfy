/** Names for the call objects of the example.  An allocator may hand out the address of a deleted
    object again, so an address names an object only while the object is alive.  Numbering the
    allocations instead gives each object a name of its own; this module proves that a run keeps
    its meaning when addresses are replaced by these numbers. */
module ExampleRenaming {
  import opened RpcModel
  import opened RpcInvariant
  import opened CallDataExample

  // ---------------------------------------------------------------- names

  /** The number of each object allocated so far, the number of the next one, and how many numbers
      are left out after that. */
  datatype Naming = Naming(names: map<nat, nat>, next: nat, gap: nat)

  /** The numbering before the first allocation. */
  function Numbers(first: nat, gap: nat): Naming {
    Naming(map[], first, gap)
  }

  function Numbered(w: Naming, a: nat): Naming {
    Naming(w.names[a := w.next], w.next + 1 + w.gap, 0)
  }

  /** The number of the object that is, or was last, at address `a`. */
  function Name(w: Naming, a: nat): nat {
    if a in w.names then w.names[a] else 0
  }

  function NameEvent(w: Naming, e: Event): Event {
    match e
    case Armed(a) => Armed(Name(w, a))
    case Request(a) => Request(Name(w, a))
    case Done(a) => Done(Name(w, a))
  }

  function NamePurpose(w: Naming, why: Purpose): Purpose {
    match why
    case FirstCall => FirstCall
    case Successor(p) => Successor(Name(w, p))
  }

  function NamePoint(w: Naming, point: Point): Point {
    match point
    case Allocate(why) => Allocate(NamePurpose(w, why))
    case SetProcess(why, a) => SetProcess(NamePurpose(w, why), Name(w, a))
    case StartListener(why, a) => StartListener(NamePurpose(w, why), Name(w, a))
    case Next => Next
    case Took(e) => Took(NameEvent(w, e))
    case SetFinish(a) => SetFinish(Name(w, a))
    case StartFinish(a) => StartFinish(Name(w, a))
    case Delete(a) => Delete(Name(w, a))
    case Aborted => Aborted
  }

  function NameMove(w: Naming, m: Move): Move {
    match m
    case Arrive(a) => Arrive(Name(w, a))
    case Return(e, ok) => Return(NameEvent(w, e), ok)
    case Do(_) => Do(w.next)
  }

  function NameSight(w: Naming, g: Sight): Sight {
    match g
    case SawRequest(a) => SawRequest(Name(w, a))
    case SawAnswer(a) => SawAnswer(Name(w, a))
    case SawDelete(a) => SawDelete(Name(w, a))
  }

  function NameSights(w: Naming, sights: seq<Sight>): seq<Sight> {
    seq(|sights|, i requires 0 <= i < |sights| => NameSight(w, sights[i]))
  }

  /** An allocation gives the address a new number. */
  function Renaming(w: Naming, x: Example, m: Move): Naming {
    if m.Do? && x.point.Allocate? then Numbered(w, m.spot) else w
  }

  /** The numbers in force after the moves. */
  function NamesAfter(start: Naming, moves: seq<Move>): Naming {
    if moves == [] then start
    else
      var past := moves[..|moves| - 1];
      Renaming(NamesAfter(start, past), Played(ExampleStart(), past), moves[|moves| - 1])
  }

  /** The run in which each object has its number for an address. */
  function Renamed(start: Naming, moves: seq<Move>): seq<Move> {
    if moves == [] then []
    else
      var past := moves[..|moves| - 1];
      Renamed(start, past) + [NameMove(NamesAfter(start, past), moves[|moves| - 1])]
  }

  /** What the moves let see, each object called by its number. */
  function NamedSights(start: Naming, moves: seq<Move>): seq<Sight> {
    if moves == [] then []
    else
      var past := moves[..|moves| - 1];
      NamedSights(start, past) + NameSights(NamesAfter(start, past), Seen(Played(ExampleStart(), past), moves[|moves| - 1]))
  }

  /** Every allocation returns the next number. */
  ghost predicate Orderly(start: Naming, moves: seq<Move>) {
    moves == [] ||
    var past, m := moves[..|moves| - 1], moves[|moves| - 1];
    && Orderly(start, past)
    && (m.Do? && Played(ExampleStart(), past).point.Allocate? ==> m.spot == NamesAfter(start, past).next)
  }

  /** The number an allocation gets is never given again. */
  lemma {:induction false} NumbersGrow(start: Naming, moves: seq<Move>, k: nat)
    requires k < |moves| && moves[k].Do? && Played(ExampleStart(), moves[..k]).point.Allocate?
    ensures NamesAfter(start, moves[..k]).next < NamesAfter(start, moves).next
  {
    var past := moves[..|moves| - 1];
    if k < |past| {
      assert past[..k] == moves[..k];
      NumbersGrow(start, past, k);
    }
  }

  // ---------------------------------------------------------------- live tags

  function PurposeIds(why: Purpose): set<nat> {
    if why.Successor? then {why.parent} else {}
  }

  /** The objects the thread works on. */
  function InHand(point: Point): set<nat> {
    match point
    case Allocate(why) => PurposeIds(why)
    case SetProcess(why, a) => PurposeIds(why) + {a}
    case StartListener(why, a) => PurposeIds(why) + {a}
    case Took(e) => {e.id}
    case SetFinish(a) => {a}
    case StartFinish(a) => {a}
    case Delete(a) => {a}
    case _ => {}
  }

  /** No tag outlives its object, and each object is either worked on or waits for one event. */
  ghost predicate LiveTags(x: Example) {
    && (forall e | e in x.queue :: e.id in x.heap)
    && (forall a | a in InHand(x.point) :: a in x.heap)
    && (forall a | a in x.heap :: Pending(x.queue, a) <= if a in InHand(x.point) then 0 else 1)
    && (x.point.SetProcess? || x.point.StartListener? ==> x.point.address !in PurposeIds(x.point.purpose))
  }

  ghost predicate SameHeap(w: Naming, heap: map<nat, RpcState>, other: map<nat, RpcState>) {
    && (forall a | a in heap :: a in w.names && Name(w, a) < w.next && Name(w, a) in other && other[Name(w, a)] == heap[a])
    && (forall a, b | a in heap && b in heap && Name(w, a) == Name(w, b) :: a == b)
    && (forall b | b in other :: b < w.next)
  }

  ghost predicate SameQueue(w: Naming, live: set<nat>, queue: multiset<Event>, other: multiset<Event>) {
    && (forall e: Event | e.id in live :: other[NameEvent(w, e)] == queue[e])
    && (forall e | e in other :: e.id < w.next)
  }

  /** `y` is `x` with every live address replaced by its number. */
  ghost predicate SameUpTo(w: Naming, x: Example, y: Example) {
    SameHeap(w, x.heap, y.heap) && SameQueue(w, x.heap.Keys, x.queue, y.queue) && y.point == NamePoint(w, x.point)
  }

  // ---------------------------------------------------------------- live tags, move by move

  lemma LiveAllocate(x: Example, spot: nat)
    requires LiveTags(x) && x.point.Allocate? && spot !in x.heap
    ensures LiveTags(Perform(x, spot))
  {
    assert forall e | e in x.queue :: e.id != spot;
    assert Armed(spot) !in x.queue && Request(spot) !in x.queue && Done(spot) !in x.queue;
  }

  lemma LiveStatement(x: Example, spot: nat)
    requires LiveTags(x) && (x.point.SetProcess? || x.point.SetFinish? || x.point.Took?)
    ensures LiveTags(Perform(x, spot))
  {
    var x' := Perform(x, spot);
    assert (if x.point.Took? then x.point.event.id else x.point.address) in InHand(x.point);
    assert x'.queue == x.queue && x'.heap.Keys == x.heap.Keys;
    assert InHand(x'.point) == InHand(x.point);
  }

  lemma LiveStart(x: Example, spot: nat, a: nat, e: Event)
    requires LiveTags(x) && a in InHand(x.point) && e.id == a
    requires var x' := Perform(x, spot);
             x'.heap == x.heap && x'.queue == x.queue + multiset{e} && InHand(x'.point) == InHand(x.point) - {a}
             && !x'.point.SetProcess? && !x'.point.StartListener?
    ensures LiveTags(Perform(x, spot))
  {
    assert forall i :: Pending(x.queue + multiset{e}, i) == Pending(x.queue, i) + if i == a then 1 else 0;
  }

  lemma LiveDelete(x: Example, spot: nat)
    requires LiveTags(x) && x.point.Delete?
    ensures LiveTags(Perform(x, spot))
  {
    var a := x.point.address;
    assert a in InHand(x.point) && Pending(x.queue, a) == 0;
  }

  lemma LiveReturn(x: Example, e: Event)
    requires LiveTags(x) && e in x.queue && x.point.Next?
    ensures LiveTags(Made(x, Return(e, true)))
  {
    PendingTake(x.queue, e);
  }

  lemma LiveArrive(x: Example, a: nat)
    requires LiveTags(x) && Armed(a) in x.queue
    ensures LiveTags(Made(x, Arrive(a)))
  {
    assert Armed(a).id in x.heap;
  }

  lemma LiveMove(x: Example, m: Move)
    requires LiveTags(x) && Can(x, m) && (m.Return? ==> m.ok)
    ensures LiveTags(Made(x, m))
  {
    match m {
      case Arrive(a) => LiveArrive(x, a);
      case Return(e, _) => LiveReturn(x, e);
      case Do(spot) =>
        if x.point.Allocate? { LiveAllocate(x, spot); }
        else if x.point.Delete? { LiveDelete(x, spot); }
        else if x.point.StartListener? { LiveStart(x, spot, x.point.address, Armed(x.point.address)); }
        else if x.point.StartFinish? { LiveStart(x, spot, x.point.address, Done(x.point.address)); }
        else { LiveStatement(x, spot); }
    }
  }

  // ---------------------------------------------------------------- the same move on both sides

  lemma NameQueue(w: Naming, heap: map<nat, RpcState>, other: map<nat, RpcState>, q: multiset<Event>, p: multiset<Event>, e: Event)
    requires SameHeap(w, heap, other) && SameQueue(w, heap.Keys, q, p) && e.id in heap
    ensures e in q <==> NameEvent(w, e) in p
    ensures SameQueue(w, heap.Keys, q + multiset{e}, p + multiset{NameEvent(w, e)})
    ensures SameQueue(w, heap.Keys, q - multiset{e}, p - multiset{NameEvent(w, e)})
  {
    forall d: Event | d.id in heap ensures NameEvent(w, d) == NameEvent(w, e) <==> d == e {
      assert Name(w, d.id) == Name(w, e.id) <==> d.id == e.id;
    }
  }

  lemma NewHeap(w: Naming, heap: map<nat, RpcState>, other: map<nat, RpcState>, spot: nat)
    requires SameHeap(w, heap, other) && spot !in heap
    ensures SameHeap(Numbered(w, spot), heap[spot := Create], other[w.next := Create])
  {
    var v := Numbered(w, spot);
    assert forall a | a in heap :: Name(v, a) == Name(w, a);
  }

  lemma NewQueue(w: Naming, heap: map<nat, RpcState>, q: multiset<Event>, p: multiset<Event>, spot: nat)
    requires SameQueue(w, heap.Keys, q, p) && spot !in heap && forall e | e in q :: e.id in heap
    ensures SameQueue(Numbered(w, spot), heap[spot := Create].Keys, q, p)
  {
    var v := Numbered(w, spot);
    forall e: Event | e.id in heap[spot := Create] ensures p[NameEvent(v, e)] == q[e] {
      if e.id == spot {
        assert e !in q && NameEvent(v, e).id == w.next && NameEvent(v, e) !in p;
      } else {
        assert NameEvent(v, e) == NameEvent(w, e);
      }
    }
  }

  lemma SetHeap(w: Naming, heap: map<nat, RpcState>, other: map<nat, RpcState>, a: nat, st: RpcState)
    requires SameHeap(w, heap, other) && a in heap
    ensures SameHeap(w, heap[a := st], other[Name(w, a) := st]) && heap[a := st].Keys == heap.Keys
  {
  }

  lemma FewerNames(w: Naming, heap: map<nat, RpcState>, other: map<nat, RpcState>, q: multiset<Event>, p: multiset<Event>, a: nat)
    requires SameHeap(w, heap, other) && SameQueue(w, heap.Keys, q, p) && a in heap
    ensures SameHeap(w, heap - {a}, other - {Name(w, a)}) && SameQueue(w, (heap - {a}).Keys, q, p)
  {
  }

  lemma NameAllocate(w: Naming, x: Example, y: Example, spot: nat)
    requires SameUpTo(w, x, y) && x.point.Allocate? && spot !in x.heap
    requires (forall e | e in x.queue :: e.id in x.heap) && PurposeIds(x.point.purpose) <= x.heap.Keys
    ensures w.next !in y.heap
    ensures SameUpTo(Renaming(w, x, Do(spot)), Perform(x, spot), Perform(y, w.next))
  {
    NewHeap(w, x.heap, y.heap, spot);
    NewQueue(w, x.heap, x.queue, y.queue, spot);
    NewPurpose(w, x.point.purpose, spot);
  }

  lemma NewPurpose(w: Naming, why: Purpose, spot: nat)
    requires spot !in PurposeIds(why)
    ensures var v := Numbered(w, spot);
            NamePurpose(v, why) == NamePurpose(w, why) && Name(v, spot) == w.next
  {
  }

  lemma NameState(w: Naming, x: Example, y: Example, spot: nat, other: nat)
    requires SameUpTo(w, x, y) && (x.point.SetProcess? || x.point.SetFinish?) && x.point.address in x.heap
    ensures SameUpTo(w, Perform(x, spot), Perform(y, other))
  {
    SetHeap(w, x.heap, y.heap, x.point.address, if x.point.SetProcess? then Process else Finish);
  }

  lemma NameStart(w: Naming, x: Example, y: Example, spot: nat, other: nat)
    requires SameUpTo(w, x, y) && (x.point.StartListener? || x.point.StartFinish?) && x.point.address in x.heap
    ensures SameUpTo(w, Perform(x, spot), Perform(y, other))
  {
    var a := x.point.address;
    NameQueue(w, x.heap, y.heap, x.queue, y.queue, if x.point.StartListener? then Armed(a) else Done(a));
  }

  lemma NameTook(w: Naming, x: Example, y: Example, spot: nat, other: nat)
    requires SameUpTo(w, x, y) && x.point.Took? && x.point.event.id in x.heap
    ensures SameUpTo(w, Perform(x, spot), Perform(y, other))
  {
    assert NameEvent(w, x.point.event).id == Name(w, x.point.event.id);
  }

  lemma NameDelete(w: Naming, x: Example, y: Example, spot: nat, other: nat)
    requires SameUpTo(w, x, y) && x.point.Delete? && x.point.address in x.heap
    ensures SameUpTo(w, Perform(x, spot), Perform(y, other))
  {
    FewerNames(w, x.heap, y.heap, x.queue, y.queue, x.point.address);
  }

  /** The object that a statement of the thread is about. */
  function Subject(point: Point): set<nat> {
    match point
    case SetProcess(_, a) => {a}
    case StartListener(_, a) => {a}
    case Took(e) => {e.id}
    case SetFinish(a) => {a}
    case StartFinish(a) => {a}
    case Delete(a) => {a}
    case _ => {}
  }

  lemma SubjectLives(x: Example)
    requires LiveTags(x)
    ensures Subject(x.point) <= x.heap.Keys
  {
    assert Subject(x.point) <= InHand(x.point);
  }

  lemma NameDo(w: Naming, x: Example, y: Example, spot: nat)
    requires LiveTags(x) && SameUpTo(w, x, y) && Can(x, Do(spot))
    ensures Can(y, Do(w.next)) && SameUpTo(Renaming(w, x, Do(spot)), Perform(x, spot), Perform(y, w.next))
  {
    if x.point.Allocate? {
      assert InHand(x.point) == PurposeIds(x.point.purpose);
      NameAllocate(w, x, y, spot);
    } else {
      SubjectLives(x);
      NameRest(w, x, y, spot);
    }
  }

  lemma NameRest(w: Naming, x: Example, y: Example, spot: nat)
    requires SameUpTo(w, x, y) && Can(x, Do(spot)) && !x.point.Allocate? && Subject(x.point) <= x.heap.Keys
    ensures Can(y, Do(w.next)) && SameUpTo(w, Perform(x, spot), Perform(y, w.next))
  {
    if x.point.Delete? { NameDelete(w, x, y, spot, w.next); }
    else if x.point.Took? { NameTook(w, x, y, spot, w.next); }
    else if x.point.StartListener? || x.point.StartFinish? { NameStart(w, x, y, spot, w.next); }
    else { NameState(w, x, y, spot, w.next); }
  }

  lemma NameReturn(w: Naming, x: Example, y: Example, e: Event)
    requires SameUpTo(w, x, y) && Can(x, Return(e, true)) && e.id in x.heap
    ensures Can(y, Return(NameEvent(w, e), true))
    ensures SameUpTo(w, Made(x, Return(e, true)), Made(y, Return(NameEvent(w, e), true)))
  {
    NameQueue(w, x.heap, y.heap, x.queue, y.queue, e);
  }

  lemma NameSeen(w: Naming, x: Example, y: Example, m: Move)
    requires y.point == NamePoint(w, x.point)
    ensures Seen(y, NameMove(w, m)) == NameSights(w, Seen(x, m))
  {
  }

  lemma NameArrive(w: Naming, x: Example, y: Example, a: nat)
    requires SameUpTo(w, x, y) && Armed(a) in x.queue && a in x.heap
    ensures Armed(Name(w, a)) in y.queue && SameUpTo(w, Made(x, Arrive(a)), Made(y, Arrive(Name(w, a))))
  {
    NameQueue(w, x.heap, y.heap, x.queue, y.queue, Armed(a));
    NameQueue(w, x.heap, y.heap, x.queue - multiset{Armed(a)}, y.queue - multiset{Armed(Name(w, a))}, Request(a));
  }

  /** The two sides before and after a move. */
  ghost predicate Both(w: Naming, x: Example, y: Example) {
    LiveTags(x) && SameUpTo(w, x, y)
  }

  lemma NameOne(w: Naming, x: Example, y: Example, m: Move)
    requires Both(w, x, y) && Can(x, m) && (m.Return? ==> m.ok)
    ensures Can(y, NameMove(w, m)) && Both(Renaming(w, x, m), Made(x, m), Made(y, NameMove(w, m)))
    ensures Seen(y, NameMove(w, m)) == NameSights(w, Seen(x, m))
  {
    LiveMove(x, m);
    NameSeen(w, x, y, m);
    match m {
      case Arrive(a) => assert Armed(a).id in x.heap; NameArrive(w, x, y, a);
      case Return(e, _) => NameReturn(w, x, y, e);
      case Do(spot) => NameDo(w, x, y, spot);
    }
  }

  // ---------------------------------------------------------------- whole runs

  /** The same numbers are still to be used. */
  predicate SameNumbers(v: Naming, w: Naming) {
    v.next == w.next && v.gap == w.gap
  }

  /** What renaming is meant to keep. */
  ghost predicate SameMeaning(start: Naming, moves: seq<Move>, renamed: seq<Move>) {
    && Playable(ExampleStart(), renamed) && AllReturnOk(renamed) && Orderly(start, renamed)
    && Sights(ExampleStart(), renamed) == NamedSights(start, moves)
    && SameNumbers(NamesAfter(start, moves), NamesAfter(start, renamed))
  }

  lemma MeaningOn(start: Naming, past: seq<Move>, m: Move, renamed: seq<Move>, k: Move)
    requires SameMeaning(start, past, renamed)
    requires var x, y := Played(ExampleStart(), past), Played(ExampleStart(), renamed);
             && Can(y, k) && (k.Return? ==> k.ok) && (m.Do? <==> k.Do?) && (k.Do? ==> k.spot == NamesAfter(start, past).next)
             && (x.point.Allocate? <==> y.point.Allocate?)
             && Seen(y, k) == NameSights(NamesAfter(start, past), Seen(x, m))
    ensures SameMeaning(start, past + [m], renamed + [k])
    ensures Played(ExampleStart(), renamed + [k]) == Made(Played(ExampleStart(), renamed), k)
    ensures Played(ExampleStart(), past + [m]) == Made(Played(ExampleStart(), past), m)
  {
    assert (past + [m])[..|past|] == past && (renamed + [k])[..|renamed|] == renamed;
    PlayOn(ExampleStart(), past, [m]);
    PlayOne(Played(ExampleStart(), past), m);
    PlayOn(ExampleStart(), renamed, [k]);
    PlayOne(Played(ExampleStart(), renamed), k);
  }

  lemma PlayedFront(past: seq<Move>, m: Move)
    requires Playable(ExampleStart(), past + [m])
    ensures Playable(ExampleStart(), past) && Can(Played(ExampleStart(), past), m)
  {
    PlayOn(ExampleStart(), past, [m]);
    PlayOne(Played(ExampleStart(), past), m);
  }

  /** Every run of the example is, up to the names of its objects, an orderly run: the same moves are
      possible and let the same things be seen, also when the allocator reuses addresses. */
  lemma {:induction false} RenamingKeepsMeaning(start: Naming, moves: seq<Move>)
    requires Playable(ExampleStart(), moves) && AllReturnOk(moves)
    ensures SameMeaning(start, moves, Renamed(start, moves))
    ensures Both(NamesAfter(start, moves), Played(ExampleStart(), moves), Played(ExampleStart(), Renamed(start, moves)))
    decreases |moves|
  {
    if moves == [] {
      RenamingStart(start);
    } else {
      var past, m := moves[..|moves| - 1], moves[|moves| - 1];
      assert moves == past + [m];
      PlayedFront(past, m);
      RenamingKeepsMeaning(start, past);
      var w, renamed := NamesAfter(start, past), Renamed(start, past);
      var x, y := Played(ExampleStart(), past), Played(ExampleStart(), renamed);
      NameOne(w, x, y, m);
      SamePoint(w, x, y);
      MeaningOn(start, past, m, renamed, NameMove(w, m));
    }
  }

  lemma SamePoint(w: Naming, x: Example, y: Example)
    requires Both(w, x, y)
    ensures x.point.Allocate? <==> y.point.Allocate?
  {
  }

  lemma RenamingStart(start: Naming)
    ensures SameMeaning(start, [], Renamed(start, []))
    ensures Both(NamesAfter(start, []), ExampleStart(), ExampleStart())
  {
  }
}
