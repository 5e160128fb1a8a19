/** Element counts from shapes.  The request side accumulates in `int`, the response side in
    `size_t`; both differ from the true product of the dimensions. */
module Shapes {

  const P31 := 0x8000_0000
  const P32 := 0x1_0000_0000
  const P63 := 0x8000_0000_0000_0000
  const P64 := 0x1_0000_0000_0000_0000

  type I32 = x: int | -0x8000_0000 <= x < 0x8000_0000
  type U32 = x: int | 0 <= x < 0x1_0000_0000
  type I64 = x: int | -0x8000_0000_0000_0000 <= x < 0x8000_0000_0000_0000
  type U64 = x: int | 0 <= x < 0x1_0000_0000_0000_0000

  // ---------------------------------------------------------------- conversions

  function ToUint64(v: int): U64 {
    v % P64
  }

  function ToInt64(v: int): I64 {
    var u := v % P64;
    if u < P63 then u else u - P64
  }

  function ToInt32(v: int): I32 {
    var u := v % P32;
    if u < P31 then u else u - P32
  }

  /** A dimension survives the trip through the signed wire field. */
  lemma DimensionRoundTrip(d: U64)
    ensures ToUint64(ToInt64(d)) == d
  {
  }

  // ---------------------------------------------------------------- products

  function TrueProduct(shape: seq<U64>): nat {
    if shape == [] then 1 else TrueProduct(shape[..|shape| - 1]) * shape[|shape| - 1]
  }

  /** `int` times `uint64_t`, stored back into an `int`. */
  function IntTimes(acc: I32, d: U64): I32 {
    ToInt32((ToUint64(acc) * d) % P64)
  }

  function IntProduct(shape: seq<U64>): I32 {
    if shape == [] then 1 else IntTimes(IntProduct(shape[..|shape| - 1]), shape[|shape| - 1])
  }

  function SizeTimes(acc: U64, d: I64): U64 {
    (acc * ToUint64(d)) % P64
  }

  function SizeProduct(shape: seq<I64>): U64 {
    if shape == [] then 1 else SizeTimes(SizeProduct(shape[..|shape| - 1]), shape[|shape| - 1])
  }

  /** The count that `get_infer_request` passes on: the `int`, converted to `size_t`. */
  function RequestCount(shape: seq<U64>): U64 {
    ToUint64(IntProduct(shape))
  }

  function WireShape(shape: seq<U64>): seq<I64> {
    seq(|shape|, i requires 0 <= i < |shape| => ToInt64(shape[i]))
  }

  /** The count that `get_infer_response` computes for the same shape. */
  function ResponseCount(shape: seq<U64>): U64 {
    SizeProduct(WireShape(shape))
  }

  /** `std::accumulate` with initial value `1`, over the dimensions of a request tensor. */
  method AccumulateInt(shape: seq<U64>) returns (acc: I32)
    ensures acc == IntProduct(shape)
  {
    acc := 1;
    for i := 0 to |shape|
      invariant acc == IntProduct(shape[..i])
    {
      assert shape[..i + 1][..i] == shape[..i];
      acc := ToInt32((ToUint64(acc) * shape[i]) % P64);
    }
    assert shape[..|shape|] == shape;
  }

  /** `std::accumulate` with initial value `size_t(1)`, over the dimensions of a response tensor. */
  method AccumulateSize(shape: seq<I64>) returns (acc: U64)
    ensures acc == SizeProduct(shape)
  {
    acc := 1;
    for i := 0 to |shape|
      invariant acc == SizeProduct(shape[..i])
    {
      assert shape[..i + 1][..i] == shape[..i];
      acc := (acc * ToUint64(shape[i])) % P64;
    }
    assert shape[..|shape|] == shape;
  }

  // ---------------------------------------------------------------- congruence

  lemma Times32(a: int, b: int, d: int)
    requires a % P32 == b % P32
    ensures (a * d) % P32 == (b * d) % P32
  {
    var k := a / P32 - b / P32;
    assert a == b + k * P32;
    assert a * d == b * d + (k * d) * P32;
  }

  lemma Times64(a: int, b: int, d: int)
    requires a % P64 == b % P64
    ensures (a * d) % P64 == (b * d) % P64
  {
    var k := a / P64 - b / P64;
    assert a == b + k * P64;
    assert a * d == b * d + (k * d) * P64;
  }

  lemma LowWord(v: int)
    ensures (v % P64) % P32 == v % P32
  {
    var q := v / P64;
    assert v == q * P64 + v % P64 == (q * P32) * P32 + v % P64;
  }

  lemma IntTimesCongruent(acc: I32, d: U64)
    ensures IntTimes(acc, d) % P32 == (acc * d) % P32
  {
    var wide := ToUint64(acc);
    LowWord(acc);
    Times32(wide, acc, d);
    LowWord(wide * d);
    NarrowCongruent((wide * d) % P64);
  }

  lemma NarrowCongruent(v: int)
    ensures ToInt32(v) % P32 == v % P32
  {
  }

  /** The `int` result is the true product modulo 2^32, whatever overflowed on the way. */
  lemma {:induction false} IntProductCongruent(shape: seq<U64>)
    ensures IntProduct(shape) % P32 == TrueProduct(shape) % P32
  {
    if shape != [] {
      var front, d := shape[..|shape| - 1], shape[|shape| - 1];
      IntProductCongruent(front);
      IntTimesCongruent(IntProduct(front), d);
      Times32(IntProduct(front), TrueProduct(front), d);
    }
  }

  lemma NarrowUnique(v: I32, p: int)
    requires v % P32 == p % P32
    ensures v == ToInt32(p) && (0 <= p < P31 ==> v == p)
  {
  }

  /** Hence it is the 32-bit reading of the true product, and exact when that is below 2^31. */
  lemma IntProductExact(shape: seq<U64>)
    ensures IntProduct(shape) == ToInt32(TrueProduct(shape))
    ensures TrueProduct(shape) < P31 ==> IntProduct(shape) == TrueProduct(shape)
  {
    IntProductCongruent(shape);
    NarrowUnique(IntProduct(shape), TrueProduct(shape));
  }

  lemma {:induction false} ResponseCountCongruent(shape: seq<U64>)
    ensures ResponseCount(shape) == TrueProduct(shape) % P64
  {
    if shape != [] {
      var front, d := shape[..|shape| - 1], shape[|shape| - 1];
      ResponseCountCongruent(front);
      assert WireShape(shape)[..|shape| - 1] == WireShape(front);
      DimensionRoundTrip(d);
      Times64(TrueProduct(front) % P64, TrueProduct(front), d);
    }
  }

  // ---------------------------------------------------------------- agreement

  /** Narrowing to `int` and converting to `size_t` keeps the numbers whose upper 33 bits are
      equal, and keeps no other number as a non-negative `int` in order. */
  lemma NarrowThenWiden(x: U64)
    ensures ToUint64(ToInt32(x)) == x <==> x < P31 || x >= P64 - P31
    ensures ToUint64(ToInt32(x)) < P32 && x <= ToUint64(ToInt32(x)) <==> x < P31
  {
    var h, u := x / P32, x % P32;
    assert x == h * P32 + u && 0 <= h < P32;
    assert ToUint64(ToInt32(x)) == if u < P31 then u else (P32 - 1) * P32 + u;
  }

  lemma NarrowLow(v: int)
    ensures ToInt32(v) == ToInt32(v % P64)
  {
    LowWord(v);
  }

  /** The two sides compute the same count for exactly these shapes. */
  lemma CountsAgree(shape: seq<U64>)
    ensures RequestCount(shape) == ResponseCount(shape) <==>
              var p := TrueProduct(shape) % P64; p < P31 || p >= P64 - P31
  {
    IntProductExact(shape);
    ResponseCountCongruent(shape);
    NarrowLow(TrueProduct(shape));
    NarrowThenWiden(TrueProduct(shape) % P64);
  }

  lemma Below63(p: int)
    requires 0 <= p < P63
    ensures p % P64 == p
    ensures ToUint64(ToInt32(p)) == p <==> p < P31
  {
    NarrowThenWiden(p);
  }

  /** For products below 2^63 that means: below 2^31. */
  lemma CountsAgreeBelow63(shape: seq<U64>)
    requires TrueProduct(shape) < P63
    ensures ResponseCount(shape) == TrueProduct(shape)
    ensures RequestCount(shape) == ResponseCount(shape) <==> TrueProduct(shape) < P31
  {
    IntProductExact(shape);
    ResponseCountCongruent(shape);
    Below63(TrueProduct(shape));
  }

  /** The writer gets a count it can serve, and the reader finds at least as many elements as it
      copies, exactly when the product, reduced modulo 2^64, is below 2^31. */
  lemma TransferDefined(shape: seq<U64>)
    ensures RequestCount(shape) < P32 && ResponseCount(shape) <= RequestCount(shape) <==> TrueProduct(shape) % P64 < P31
    ensures TrueProduct(shape) % P64 < P31 ==> RequestCount(shape) == ResponseCount(shape) == TrueProduct(shape) % P64
  {
    IntProductExact(shape);
    ResponseCountCongruent(shape);
    NarrowLow(TrueProduct(shape));
    NarrowThenWiden(TrueProduct(shape) % P64);
  }

  /** An overflowing prefix does no harm when a later dimension is zero. */
  lemma ZeroDimension(shape: seq<U64>, i: nat)
    requires i < |shape| && shape[i] == 0
    ensures RequestCount(shape) == ResponseCount(shape) == 0
  {
    ProductZero(shape, i);
    TransferDefined(shape);
  }

  lemma {:induction false} ProductZero(shape: seq<U64>, i: nat)
    requires i < |shape| && shape[i] == 0
    ensures TrueProduct(shape) == 0
  {
    if i < |shape| - 1 {
      ProductZero(shape[..|shape| - 1], i);
    }
  }

  // ---------------------------------------------------------------- the loop index

  /** The 32-bit loop index of writer and reader after `k` increments. */
  function IndexAfter(k: nat): U32 {
    if k == 0 then 0 else (IndexAfter(k - 1) + 1) % P32
  }

  lemma NextWraps(k: nat)
    ensures (k % P32 + 1) % P32 == (k + 1) % P32
  {
    var q, u := k / P32, k % P32;
    assert k + 1 == q * P32 + (u + 1);
  }

  lemma {:induction false} IndexWraps(k: nat)
    ensures IndexAfter(k) == k % P32
  {
    if k > 0 {
      IndexWraps(k - 1);
      NextWraps(k - 1);
    }
  }

  /** The loop `for (i = 0U; i < size; ++i)` ends exactly for sizes below 2^32, and then after
      `size` iterations that visit the indices in order. */
  lemma LoopEnds(size: U64)
    ensures (exists k: nat :: IndexAfter(k) >= size) <==> size < P32
    ensures size < P32 ==> IndexAfter(size) == size && forall k: nat | k < size :: IndexAfter(k) == k
  {
    if size < P32 {
      IndexWraps(size);
      forall k: nat | k < size ensures IndexAfter(k) == k { IndexWraps(k); }
    }
  }

  lemma Sign(v: int)
    ensures ToUint64(ToInt32(v)) < P32 <==> ToInt32(v) >= 0
    ensures ToInt32(v) >= 0 <==> v % P32 < P31
  {
  }

  /** For the count of a request tensor: exactly when the accumulated `int` is not negative. */
  lemma WriterEnds(shape: seq<U64>)
    ensures (exists k: nat :: IndexAfter(k) >= RequestCount(shape)) <==> IntProduct(shape) >= 0
    ensures IntProduct(shape) >= 0 <==> TrueProduct(shape) % P32 < P31
  {
    LoopEnds(RequestCount(shape));
    IntProductExact(shape);
    Sign(TrueProduct(shape));
  }

  lemma OneDimension(d: U64)
    ensures TrueProduct([d]) == d
  {
    assert [d][..0] == [];
    assert TrueProduct([d]) == TrueProduct([]) * d;
  }

  /** A shape of one dimension, for which the accumulated `int` is negative. */
  lemma NeverEnds(d: U64)
    requires d % P32 >= P31
    ensures forall k: nat :: IndexAfter(k) < RequestCount([d])
  {
    OneDimension(d);
    WriterEnds([d]);
  }

  lemma OneCount(d: U64)
    ensures ResponseCount([d]) == d
    ensures RequestCount([d]) == d <==> d < P31 || d >= P64 - P31
  {
    OneDimension(d);
    Reduced(d);
    ResponseCountCongruent([d]);
    CountsAgree([d]);
  }

  lemma Reduced(d: U64)
    ensures d % P64 == d
  {
  }

  /** 2^31 elements: the two sides disagree, and the writer never ends. */
  lemma LargeShape()
    ensures RequestCount([P31]) != ResponseCount([P31])
    ensures forall k: nat :: IndexAfter(k) < RequestCount([P31])
  {
    OneCount(P31);
    NeverEnds(P31);
  }

  /** 2^64 - 2^31 elements: the two sides agree, and still the writer never ends. */
  lemma AgreedButEndless()
    ensures RequestCount([P64 - P31]) == ResponseCount([P64 - P31])
    ensures forall k: nat :: IndexAfter(k) < RequestCount([P64 - P31])
  {
    OneCount(P64 - P31);
    NeverEnds(P64 - P31);
  }
}
