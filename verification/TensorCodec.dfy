/** What the tensor converter computes, and the round trip through the wire. */
module TensorCodec {
  import opened LittleEndian
  import opened Shapes
  import opened Tensors

  // ---------------------------------------------------------------- writing

  /** The bytes of element `i` in an array of `w`-byte elements. */
  function Slice(b: seq<Byte>, i: nat, w: nat): (r: seq<Byte>)
    requires i * w + w <= |b|
    ensures |r| == w
  {
    b[i * w..i * w + w]
  }

  lemma SliceInside(i: nat, n: nat, w: nat)
    requires i < n
    ensures i * w + w <= n * w
  {
    assert (n - i - 1) * w >= 0;
    assert n * w == i * w + w + (n - i - 1) * w;
  }

  /** The first `n` elements of a client buffer. */
  function LoadAll(d: DataType, data: seq<Byte>, n: nat): (r: seq<int>)
    requires Elementwise(d) && n * SizeOf(d) <= |data|
    ensures |r| == n
  {
    if n == 0 then []
    else
      SliceInside(n - 1, n, SizeOf(d));
      LoadAll(d, data, n - 1) + [Load(d, Slice(data, n - 1, SizeOf(d)))]
  }

  lemma {:induction false} LoadAllFits(d: DataType, data: seq<Byte>, n: nat)
    requires Elementwise(d) && n * SizeOf(d) <= |data|
    ensures forall v | v in LoadAll(d, data, n) :: Fits(FieldOf(d), v)
  {
    if n > 0 {
      SliceInside(n - 1, n, SizeOf(d));
      LoadAllFits(d, data, n - 1);
      LoadFits(d, Slice(data, n - 1, SizeOf(d)));
    }
  }

  function AddAll(c: Contents, f: Field, vs: seq<int>): Contents
    requires forall v | v in vs :: Fits(f, v)
  {
    if vs == [] then c else Add(AddAll(c, f, vs[..|vs| - 1]), f, vs[|vs| - 1])
  }

  /** Adding elements appends them to their field, in order, and touches no other field. */
  lemma {:induction false} AddAllAppends(c: Contents, f: Field, vs: seq<int>)
    requires forall v | v in vs :: Fits(f, v)
    ensures Elements(AddAll(c, f, vs), f) == Elements(c, f) + vs
    ensures forall g | g != f :: Elements(AddAll(c, f, vs), g) == Elements(c, g)
    ensures AddAll(c, f, vs).bytes == c.bytes
  {
    if vs == [] {
      assert Elements(c, f) + vs == Elements(c, f);
    } else {
      AddAllAppends(c, f, vs[..|vs| - 1]);
      assert Elements(c, f) + vs == Elements(c, f) + vs[..|vs| - 1] + [vs[|vs| - 1]];
    }
  }

  function BytesOf(b: Buffer): seq<Byte> {
    if b.Data? then b.bytes else []
  }

  /** The bytes before the first zero byte. */
  function CString(b: seq<Byte>): (r: seq<Byte>)
    requires 0 in b
    ensures |r| < |b| && r == b[..|r|] && 0 !in r && b[|r|] == 0
  {
    if b[0] == 0 then [] else [b[0]] + CString(b[1..])
  }

  /** What `tensor_data_writer` needs to finish within the buffer: `size` elements and a size its
      32-bit index can reach, or a terminated string. */
  predicate Writable(d: DataType, data: Buffer, size: nat) {
    if Elementwise(d) then size < P32 && size * SizeOf(d) <= |BytesOf(data)|
    else d == String ==> 0 in BytesOf(data)
  }

  /** The message after the first `n` iterations of the writer. */
  function WrittenUpTo(d: DataType, c: Contents, data: seq<Byte>, n: nat): Contents
    requires Elementwise(d) && n * SizeOf(d) <= |data|
  {
    LoadAllFits(d, data, n);
    AddAll(c, FieldOf(d), LoadAll(d, data, n))
  }

  lemma WriteStep(d: DataType, c: Contents, data: seq<Byte>, i: nat, size: nat)
    requires Elementwise(d) && i < size && size * SizeOf(d) <= |data|
    ensures i * SizeOf(d) + SizeOf(d) <= |data| && (i + 1) * SizeOf(d) <= |data|
    ensures Fits(FieldOf(d), Load(d, Slice(data, i, SizeOf(d))))
    ensures WrittenUpTo(d, c, data, i + 1) == Add(WrittenUpTo(d, c, data, i), FieldOf(d), Load(d, Slice(data, i, SizeOf(d))))
  {
    var w := SizeOf(d);
    SliceInside(i, size, w);
    assert (i + 1) * w == i * w + w;
    LoadAllFits(d, data, i);
    LoadAllFits(d, data, i + 1);
    var vs, v := LoadAll(d, data, i), Load(d, Slice(data, i, w));
    LoadFits(d, Slice(data, i, w));
    assert LoadAll(d, data, i + 1) == vs + [v];
    assert (vs + [v])[..|vs|] == vs;
  }

  function Written(d: DataType, c: Contents, data: Buffer, size: nat): Contents
    requires Writable(d, data, size)
  {
    if Elementwise(d) then WrittenUpTo(d, c, BytesOf(data), size)
    else if d == String then c.(bytes := c.bytes + [CString(BytesOf(data))])
    else c
  }

  predicate Sendable(t: InferTensor) {
    Writable(t.dataType, t.data, RequestCount(t.shape))
  }

  function EncodeTensor(t: InferTensor): WireTensor
    requires Sendable(t)
  {
    WireTensor(t.name, Str(t.dataType), WireShape(t.shape), Written(t.dataType, EMPTY, t.data, RequestCount(t.shape)))
  }

  // ---------------------------------------------------------------- reading

  /** The low `sizeof(T)` bytes of each of the first `n` wire elements. */
  function StoreAll(d: DataType, elements: seq<int>, n: nat): (r: seq<Byte>)
    requires Elementwise(d) && n <= |elements|
    ensures |r| == n * SizeOf(d)
  {
    if n == 0 then [] else StoreAll(d, elements, n - 1) + Image(elements[n - 1], WireWidth(FieldOf(d)))[..SizeOf(d)]
  }

  lemma ReadStep(d: DataType, elements: seq<int>, i: nat, size: nat)
    requires Elementwise(d) && i < size <= |elements|
    ensures i * SizeOf(d) + SizeOf(d) == (i + 1) * SizeOf(d) <= size * SizeOf(d)
    ensures StoreAll(d, elements, i + 1) == StoreAll(d, elements, i) + Image(elements[i], WireWidth(FieldOf(d)))[..SizeOf(d)]
  {
    SliceInside(i, size, SizeOf(d));
    assert (i + 1) * SizeOf(d) == i * SizeOf(d) + SizeOf(d);
  }

  /** The wire elements in memory, one after the other. */
  function Memory(elements: seq<int>, width: nat): (r: seq<Byte>)
    ensures |r| == |elements| * width
  {
    if elements == [] then [] else Memory(elements[..|elements| - 1], width) + Image(elements[|elements| - 1], width)
  }

  /** The datatypes that the reader copies element by element. */
  predicate Narrow(d: DataType) {
    d == Int8 || d == Uint8 || d == Int16 || d == Uint16
  }

  /** What `tensor_data_reader` needs: enough elements, a byte count that fits `size_t`, and for the
      element loop a size that its 32-bit index can reach. */
  predicate Readable(d: DataType, c: Contents, size: nat) {
    d != String &&
    (Elementwise(d) ==> size <= |Elements(c, FieldOf(d))| && size * SizeOf(d) < P64 && (Narrow(d) ==> size < P32))
  }

  function ReadBack(d: DataType, c: Contents, size: nat): Buffer
    requires Readable(d, c, size)
  {
    if Elementwise(d) then Data(StoreAll(d, Elements(c, FieldOf(d)), size)) else NoData
  }

  predicate Receivable(w: WireTensor) {
    Readable(FromString(w.dataType), w.contents, SizeProduct(w.shape))
  }

  function ClientShape(shape: seq<I64>): seq<U64> {
    seq(|shape|, i requires 0 <= i < |shape| => ToUint64(shape[i]))
  }

  function DecodeTensor(w: WireTensor): InferTensor
    requires Receivable(w)
  {
    var d := FromString(w.dataType);
    InferTensor(w.name, ClientShape(w.shape), d, ReadBack(d, w.contents, SizeProduct(w.shape)))
  }

  // ---------------------------------------------------------------- one block or many

  /** Equal widths make the block copy and the element loop the same. */
  lemma {:induction false} BlockCopyIsLoop(d: DataType, elements: seq<int>, n: nat)
    requires Elementwise(d) && WireWidth(FieldOf(d)) == SizeOf(d) && n <= |elements|
    ensures Memory(elements[..n], SizeOf(d)) == StoreAll(d, elements, n)
    ensures n * SizeOf(d) <= |elements| * SizeOf(d)
    ensures Memory(elements, SizeOf(d))[..n * SizeOf(d)] == StoreAll(d, elements, n)
  {
    var w := SizeOf(d);
    if n > 0 {
      BlockCopyIsLoop(d, elements, n - 1);
      assert elements[..n][..n - 1] == elements[..n - 1];
      var image := Image(elements[n - 1], w);
      assert image[..w] == image;
    }
    MemoryPrefix(elements, n, w);
  }

  /** For the narrow integers a block copy would be wrong: the strides differ. */
  lemma NarrowNeedsLoop(d: DataType)
    requires Elementwise(d) && SizeOf(d) < WireWidth(FieldOf(d))
    ensures Memory([0, 1], WireWidth(FieldOf(d)))[..2 * SizeOf(d)] != StoreAll(d, [0, 1], 2)
  {
    var w, wide := SizeOf(d), WireWidth(FieldOf(d));
    SecondOfMemory(w, wide);
    SecondOfStore(d);
    assert Memory([0, 1], wide)[..2 * w][w] == 0;
  }

  lemma SecondOfMemory(w: nat, wide: nat)
    requires w < wide
    ensures |Memory([0, 1], wide)| == 2 * wide && Memory([0, 1], wide)[w] == 0
  {
    var m := Memory([0, 1], wide);
    MemoryPrefix([0, 1], 1, wide);
    assert [0, 1][..1] == [0] && [0][..0] == [];
    assert Memory([0], wide) == Memory([], wide) + Image(0, wide);
    ZeroImage(wide);
    assert m[..wide][w] == 0;
  }

  lemma SecondOfStore(d: DataType)
    requires Elementwise(d)
    ensures StoreAll(d, [0, 1], 2)[SizeOf(d)] == 1
  {
    var w := SizeOf(d);
    ImagePrefix(1, WireWidth(FieldOf(d)), w);
    assert Image(1, w)[0] == 1;
    assert |StoreAll(d, [0, 1], 1)| == w;
  }

  lemma {:induction false} ZeroImage(w: nat)
    ensures forall i | 0 <= i < w :: Image(0, w)[i] == 0
  {
    if w > 0 { ZeroImage(w - 1); }
  }

  /** The values that a narrow integer widens to. */
  predicate Narrowed(d: DataType, v: int)
    requires Narrow(d)
  {
    v == Load(d, Image(v, SizeOf(d)))
  }

  /** The value and the byte that extend the sign of `v`. */
  function Extension(v: int): int {
    if v < 0 then -1 else 0
  }

  function Pad(v: int): Byte {
    if v < 0 then 255 else 0
  }

  /** A widened integer fills the rest of its wire element with its sign. */
  lemma HighBytes(d: DataType, v: int, j: nat)
    requires Narrow(d) && Narrowed(d, v) && SizeOf(d) <= j < 4
    ensures Image(v, 4)[j] == Pad(v)
  {
    var w := SizeOf(d);
    UnsignedBounds(Image(v, w));
    Widths();
    var rest := v / 256;
    assert Image(v, 4) == [v % 256] + Image(rest, 3);
    assert Image(rest, 3) == [rest % 256] + Image(rest / 256, 2);
    assert Image(rest / 256, 2) == [rest / 256 % 256] + Image(rest / 256 / 256, 1);
  }

  lemma ExtensionImage(v: int, j: nat)
    requires j < 4
    ensures Image(Extension(v), 4)[j] == Pad(v)
  {
    var x := Extension(v);
    assert Image(x, 4) == [x % 256] + Image(x, 3);
    assert Image(x, 3) == [x % 256] + Image(x, 2);
    assert Image(x, 2) == [x % 256] + Image(x, 1);
  }

  /** Only the extension itself has nothing but extension bytes. */
  lemma OnlyExtension(d: DataType, v: int, first: int)
    requires Narrow(d) && Narrowed(d, v) && Narrowed(d, first)
    requires forall j | 0 <= j < SizeOf(d) :: Image(v, SizeOf(d))[j] == Pad(first)
    ensures v == Extension(first)
  {
    var b := Image(v, SizeOf(d));
    PadValue(b, Pad(first));
    if first < 0 { SignedNarrow(d, first); }
  }

  /** Bytes that are all 0 or all 255 stand for 0 or, signed, for -1. */
  lemma PadValue(b: seq<Byte>, p: Byte)
    requires |b| == 1 || |b| == 2
    requires (p == 0 || p == 255) && forall j | 0 <= j < |b| :: b[j] == p
    ensures p == 0 ==> Unsigned(b) == Signed(b) == 0
    ensures p == 255 ==> Signed(b) == -1
  {
    Widths();
    assert b[1..] == if |b| == 1 then [] else [p];
    assert Unsigned([p]) == p + 256 * Unsigned([]);
  }

  lemma SignedNarrow(d: DataType, v: int)
    requires Narrow(d) && Narrowed(d, v) && v < 0
    ensures d == Int8 || d == Int16
  {
  }

  lemma MemoryByte(elements: seq<int>, i: nat, j: nat)
    requires i < |elements| && j < 4
    ensures 4 * i + j < |Memory(elements, 4)| && Memory(elements, 4)[4 * i + j] == Image(elements[i], 4)[j]
  {
    MemoryPrefix(elements, i + 1, 4);
    assert elements[..i + 1][..i] == elements[..i];
    assert Memory(elements[..i + 1], 4) == Memory(elements[..i], 4) + Image(elements[i], 4);
  }

  lemma {:induction false} StoreByte(d: DataType, elements: seq<int>, n: nat, i: nat, j: nat)
    requires Narrow(d) && i < n <= |elements| && j < SizeOf(d)
    ensures SizeOf(d) * i + j < |StoreAll(d, elements, n)|
    ensures StoreAll(d, elements, n)[SizeOf(d) * i + j] == Image(elements[i], SizeOf(d))[j]
  {
    var w := SizeOf(d);
    StoreLast(d, elements, n);
    Swap(w, i);
    if i < n - 1 {
      SliceInside(i, n - 1, w);
      StoreByte(d, elements, n - 1, i, j);
    }
  }

  lemma StoreLast(d: DataType, elements: seq<int>, n: nat)
    requires Narrow(d) && 0 < n <= |elements|
    ensures StoreAll(d, elements, n) == StoreAll(d, elements, n - 1) + Image(elements[n - 1], SizeOf(d))
  {
    ImagePrefix(elements[n - 1], 4, SizeOf(d));
  }

  lemma Swap(a: nat, b: nat)
    ensures a * b == b * a
  {
  }

  /** Byte `k` of the wire elements, when all but the first are extensions. */
  lemma PaddedMemory(d: DataType, elements: seq<int>, m: nat, k: nat)
    requires Narrow(d) && 0 < m <= |elements| && Narrowed(d, elements[0])
    requires forall i | 1 <= i < m :: elements[i] == Extension(elements[0])
    requires SizeOf(d) <= k < 4 * m
    ensures k < |Memory(elements, 4)| && Memory(elements, 4)[k] == Pad(elements[0])
  {
    var i, j := k / 4, k % 4;
    assert k == 4 * i + j && i < m;
    PaddedElement(d, elements, m, i, j);
    MemoryByte(elements, i, j);
  }

  lemma PaddedElement(d: DataType, elements: seq<int>, m: nat, i: nat, j: nat)
    requires Narrow(d) && i < m <= |elements| && Narrowed(d, elements[0])
    requires forall k | 1 <= k < m :: elements[k] == Extension(elements[0])
    requires j < 4 && (i == 0 ==> SizeOf(d) <= j)
    ensures Image(elements[i], 4)[j] == Pad(elements[0])
  {
    if i == 0 { HighBytes(d, elements[0], j); } else { ExtensionImage(elements[0], j); }
  }

  predicate Padded(elements: seq<int>, n: nat)
    requires n <= |elements|
  {
    forall i | 1 <= i < n :: elements[i] == Extension(elements[0])
  }

  lemma CopiedByte(d: DataType, elements: seq<int>, n: nat, i: nat, j: nat)
    requires Narrow(d) && 0 < i < n <= |elements| && Narrowed(d, elements[0]) && Padded(elements, i) && j < SizeOf(d)
    requires Memory(elements, 4)[..n * SizeOf(d)] == StoreAll(d, elements, n)
    ensures Image(elements[i], SizeOf(d))[j] == Pad(elements[0])
  {
    Position(SizeOf(d), n, i, j);
    StoreByte(d, elements, n, i, j);
    PaddedMemory(d, elements, i, SizeOf(d) * i + j);
  }

  lemma Position(w: nat, n: nat, i: nat, j: nat)
    requires w <= 2 && j < w && 0 < i < n
    ensures w <= w * i + j < 4 * i && w * i + j < n * w
  {
    SliceInside(i, n, w);
    if w == 1 { assert w * i == i; } else { assert w * i == 2 * i; }
  }

  lemma {:induction false} PaddedUpTo(d: DataType, elements: seq<int>, n: nat, m: nat)
    requires Narrow(d) && 0 < m <= n <= |elements| && forall v | v in elements :: Narrowed(d, v)
    requires Memory(elements, 4)[..n * SizeOf(d)] == StoreAll(d, elements, n)
    ensures Padded(elements, m)
  {
    if m > 1 {
      PaddedUpTo(d, elements, n, m - 1);
      assert elements[m - 1] in elements && elements[0] in elements;
      var last := elements[m - 1];
      forall j | 0 <= j < SizeOf(d) ensures Image(last, SizeOf(d))[j] == Pad(elements[0]) {
        CopiedByte(d, elements, n, m - 1, j);
      }
      OnlyExtension(d, elements[m - 1], elements[0]);
    }
  }

  lemma Split(w: nat, n: nat, k: nat) returns (i: nat, j: nat)
    requires 1 <= w <= 2 && k < n * w
    ensures k == w * i + j && i < n && j < w && k < 4 * n && (i > 0 ==> w <= k)
  {
    if w == 1 { i, j := k, 0; } else { i, j := k / 2, k % 2; assert n * w == 2 * n; }
  }

  lemma PaddedCopies(d: DataType, elements: seq<int>, n: nat)
    requires Narrow(d) && 0 < n <= |elements| && Narrowed(d, elements[0]) && Padded(elements, n)
    ensures Memory(elements, 4)[..n * SizeOf(d)] == StoreAll(d, elements, n)
  {
    var w := SizeOf(d);
    forall k | 0 <= k < n * w ensures Memory(elements, 4)[..n * w][k] == StoreAll(d, elements, n)[k] {
      var i, j := Split(w, n, k);
      StoreByte(d, elements, n, i, j);
      ImagePrefix(elements[i], 4, w);
      if i == 0 {
        MemoryByte(elements, 0, j);
      } else {
        ExtensionImage(elements[0], j);
        PaddedMemory(d, elements, n, k);
      }
    }
  }

  /** For the narrow integers the block copy and the loop agree on exactly these sequences: every
      element after the first is the sign extension of the first. */
  lemma NarrowBlockExact(d: DataType, elements: seq<int>, n: nat)
    requires Narrow(d) && n <= |elements| && forall v | v in elements :: Narrowed(d, v)
    ensures n * SizeOf(d) <= |Memory(elements, 4)|
    ensures Memory(elements, 4)[..n * SizeOf(d)] == StoreAll(d, elements, n) <==> Padded(elements, n)
  {
    if n > 0 {
      assert elements[0] in elements;
      if Padded(elements, n) { PaddedCopies(d, elements, n); }
      if Memory(elements, 4)[..n * SizeOf(d)] == StoreAll(d, elements, n) { PaddedUpTo(d, elements, n, n); }
    }
  }

  lemma TakeLeft(a: seq<Byte>, b: seq<Byte>, k: nat)
    requires k <= |a|
    ensures (a + b)[..k] == a[..k]
  {
  }

  lemma Monotone(n: nat, m: nat, w: nat)
    requires n <= m
    ensures n * w <= m * w
  {
    assert (m - n) * w >= 0;
  }

  lemma {:induction false} MemoryPrefix(elements: seq<int>, n: nat, w: nat)
    requires n <= |elements|
    ensures n * w <= |elements| * w && Memory(elements, w)[..n * w] == Memory(elements[..n], w)
    decreases |elements|
  {
    Monotone(n, |elements|, w);
    if n == |elements| {
      assert elements[..n] == elements;
    } else {
      var front := elements[..|elements| - 1];
      Monotone(n, |front|, w);
      MemoryPrefix(front, n, w);
      assert front[..n] == elements[..n];
      TakeLeft(Memory(front, w), Image(elements[|elements| - 1], w), n * w);
    }
  }

  // ---------------------------------------------------------------- round trip

  /** A `bool` that is neither 0 nor 1 is read back as 1; all other elements come back unchanged. */
  function Normal(d: DataType, b: seq<Byte>): (r: seq<Byte>)
    ensures |r| == |b|
  {
    if d == Bool then seq(|b|, i requires 0 <= i < |b| => if b[i] == 0 then 0 else 1) else b
  }

  lemma ElementRoundTrip(d: DataType, b: seq<Byte>)
    requires Elementwise(d) && |b| == SizeOf(d)
    ensures Image(Load(d, b), WireWidth(FieldOf(d)))[..|b|] == Normal(d, b)
  {
    var wide := WireWidth(FieldOf(d));
    if d == Bool {
      assert Unsigned(b) == b[0];
      assert Image(Load(d, b), 1) == [Load(d, b)];
    } else {
      LoadThenStore(b, wide);
    }
  }

  lemma NormalAppend(d: DataType, a: seq<Byte>, b: seq<Byte>)
    ensures Normal(d, a + b) == Normal(d, a) + Normal(d, b)
  {
  }

  lemma SplitLast(data: seq<Byte>, n: nat, w: nat)
    requires n > 0 && n * w <= |data|
    ensures (n - 1) * w + w <= |data| && (n - 1) * w + w == n * w
    ensures data[..n * w] == data[..(n - 1) * w] + Slice(data, n - 1, w)
  {
    assert (n - 1) * w + w == n * w;
  }

  lemma StoreAppend(d: DataType, elements: seq<int>, v: int)
    requires Elementwise(d)
    ensures StoreAll(d, elements + [v], |elements| + 1) ==
              StoreAll(d, elements, |elements|) + Image(v, WireWidth(FieldOf(d)))[..SizeOf(d)]
  {
    StorePrefix(d, elements, v);
  }

  /** Widening every element and reading back its low bytes restores the buffer, for any length. */
  lemma {:induction false} BufferRoundTrip(d: DataType, data: seq<Byte>, n: nat)
    requires Elementwise(d) && n * SizeOf(d) <= |data|
    ensures StoreAll(d, LoadAll(d, data, n), n) == Normal(d, data[..n * SizeOf(d)])
  {
    var w := SizeOf(d);
    if n == 0 {
      assert data[..n * w] == [];
    } else {
      SplitLast(data, n, w);
      BufferRoundTrip(d, data, n - 1);
      var vs, last, before := LoadAll(d, data, n - 1), Slice(data, n - 1, w), data[..(n - 1) * w];
      LoadLast(d, data, n, last);
      LastRoundTrip(d, vs, last, before);
      assert data[..n * w] == before + last;
    }
  }

  lemma LoadLast(d: DataType, data: seq<Byte>, n: nat, last: seq<Byte>)
    requires Elementwise(d) && n > 0 && n * SizeOf(d) <= |data| && (n - 1) * SizeOf(d) <= |data|
    requires (n - 1) * SizeOf(d) + SizeOf(d) <= |data| && last == Slice(data, n - 1, SizeOf(d))
    ensures LoadAll(d, data, n) == LoadAll(d, data, n - 1) + [Load(d, last)]
  {
  }

  lemma LastRoundTrip(d: DataType, vs: seq<int>, last: seq<Byte>, before: seq<Byte>)
    requires Elementwise(d) && |last| == SizeOf(d) && StoreAll(d, vs, |vs|) == Normal(d, before)
    ensures StoreAll(d, vs + [Load(d, last)], |vs| + 1) == Normal(d, before + last)
  {
    ElementRoundTrip(d, last);
    StoreAppend(d, vs, Load(d, last));
    NormalAppend(d, before, last);
  }

  lemma {:induction false} StorePrefix(d: DataType, elements: seq<int>, v: int)
    requires Elementwise(d)
    ensures StoreAll(d, elements + [v], |elements|) == StoreAll(d, elements, |elements|)
  {
    StoreSame(d, elements + [v], elements, |elements|);
  }

  lemma {:induction false} StoreSame(d: DataType, a: seq<int>, b: seq<int>, n: nat)
    requires Elementwise(d) && n <= |a| && n <= |b| && forall i | 0 <= i < n :: a[i] == b[i]
    ensures StoreAll(d, a, n) == StoreAll(d, b, n)
  {
    if n > 0 { StoreSame(d, a, b, n - 1); }
  }

  /** The writer leaves exactly the loaded elements in the field of an empty message. */
  lemma WrittenElements(d: DataType, data: Buffer, n: nat)
    requires Elementwise(d) && Writable(d, data, n)
    ensures Elements(Written(d, EMPTY, data, n), FieldOf(d)) == LoadAll(d, BytesOf(data), n)
  {
    var vs := LoadAll(d, BytesOf(data), n);
    LoadAllFits(d, BytesOf(data), n);
    AddAllAppends(EMPTY, FieldOf(d), vs);
    assert Elements(EMPTY, FieldOf(d)) + vs == vs;
  }

  lemma BytesFit(m: nat, w: nat)
    requires m < P32 && w <= 8
    ensures m * w < P64
  {
    assert m * w <= m * 8 by { assert m * (8 - w) >= 0; }
  }

  /** Written for `n` elements, read for `m`. */
  lemma DataRoundTrip(d: DataType, data: Buffer, n: nat, m: nat)
    requires Elementwise(d) && Writable(d, data, n)
    ensures Readable(d, Written(d, EMPTY, data, n), m) <==> m <= n
    ensures m == n ==> ReadBack(d, Written(d, EMPTY, data, n), m) == Data(Normal(d, BytesOf(data)[..n * SizeOf(d)]))
  {
    WrittenElements(d, data, n);
    BufferRoundTrip(d, BytesOf(data), n);
    if m <= n { BytesFit(m, SizeOf(d)); }
  }

  lemma ShapeRoundTrip(shape: seq<U64>)
    ensures ClientShape(WireShape(shape)) == shape
  {
    forall i | 0 <= i < |shape| ensures ClientShape(WireShape(shape))[i] == shape[i] {
      DimensionRoundTrip(shape[i]);
    }
  }

  /** The bytes that the shape of a tensor asks for, with the product reduced modulo 2^64. */
  function Covered(t: InferTensor): nat {
    (TrueProduct(t.shape) % P64) * SizeOf(t.dataType)
  }

  /** What comes back for a tensor that was sent: it can be received exactly if the reduced product
      of its shape is below 2^31, and then with the bytes its shape covers. */
  lemma TensorRoundTrip(t: InferTensor)
    requires Sendable(t) && Elementwise(t.dataType)
    ensures Receivable(EncodeTensor(t)) <==> TrueProduct(t.shape) % P64 < P31
    ensures Receivable(EncodeTensor(t)) ==>
              && Covered(t) <= |BytesOf(t.data)|
              && DecodeTensor(EncodeTensor(t)) == t.(data := Data(Normal(t.dataType, BytesOf(t.data)[..Covered(t)])))
  {
    NameRoundTrip(t.dataType, "");
    ShapeRoundTrip(t.shape);
    TransferDefined(t.shape);
    DataRoundTrip(t.dataType, t.data, RequestCount(t.shape), ResponseCount(t.shape));
  }

  /** Datatypes that the dispatch skips keep their name, datatype and shape but carry no data. */
  lemma SkippedRoundTrip(t: InferTensor)
    requires t.dataType == Fp16 || t.dataType == Unknown
    ensures Sendable(t) && EncodeTensor(t).contents == EMPTY
    ensures Receivable(EncodeTensor(t)) && DecodeTensor(EncodeTensor(t)) == t.(data := NoData)
  {
    NameRoundTrip(t.dataType, "");
    ShapeRoundTrip(t.shape);
  }

  /** The tensors that arrive intact: the reduced product of the shape is below 2^31, the buffer has
      exactly the bytes the shape asks for, and a `bool` is 0 or 1. */
  predicate Intact(t: InferTensor) {
    && TrueProduct(t.shape) % P64 < P31
    && t.data.Data? && |t.data.bytes| == Covered(t)
    && Normalised(t.dataType, t.data.bytes)
  }

  predicate Normalised(d: DataType, b: seq<Byte>) {
    d == Bool ==> forall i | 0 <= i < |b| :: b[i] < 2
  }

  lemma NormalFixed(d: DataType, b: seq<Byte>)
    ensures Normal(d, b) == b <==> Normalised(d, b)
  {
    if d == Bool && Normal(d, b) == b {
      forall i | 0 <= i < |b| ensures b[i] < 2 {
        assert Normal(d, b)[i] < 2;
      }
    }
  }

  lemma IntactSendable(t: InferTensor)
    requires Elementwise(t.dataType) && Intact(t)
    ensures Sendable(t)
  {
    TransferDefined(t.shape);
  }

  lemma IntactRoundTrip(t: InferTensor)
    requires Elementwise(t.dataType)
    ensures Intact(t) <==> Sendable(t) && Receivable(EncodeTensor(t)) && DecodeTensor(EncodeTensor(t)) == t
  {
    if Intact(t) {
      IntactSendable(t);
    }
    if Sendable(t) {
      TensorRoundTrip(t);
      if TrueProduct(t.shape) % P64 < P31 {
        SameData(t.dataType, t.data, Covered(t));
      }
    }
  }

  lemma SameData(d: DataType, data: Buffer, n: nat)
    requires n <= |BytesOf(data)|
    ensures data == Data(Normal(d, BytesOf(data)[..n])) <==> data.Data? && |data.bytes| == n && Normalised(d, data.bytes)
  {
    if data.Data? && |data.bytes| == n {
      assert BytesOf(data)[..n] == data.bytes;
      NormalFixed(d, data.bytes);
    }
  }

  // ---------------------------------------------------------------- the copy as called

  /** The bytes are there: of each element in its place for the element loop, else in one block. */
  predicate Covers(d: DataType, length: nat, stride: nat, size: nat)
    requires Elementwise(d)
  {
    if Narrow(d) then size > 0 ==> (size - 1) * stride + SizeOf(d) <= length
    else size * SizeOf(d) <= length
  }

  /** What the reader copies from a pointer to `memory` whose target type takes `stride` bytes. */
  function Copied(d: DataType, memory: seq<Byte>, stride: nat, size: nat): (r: seq<Byte>)
    requires Elementwise(d) && Covers(d, |memory|, stride, size)
    ensures |r| == size * SizeOf(d)
    decreases size
  {
    if !Narrow(d) then memory[..size * SizeOf(d)]
    else if size == 0 then []
    else
      CoversLess(d, |memory|, stride, size);
      Copied(d, memory, stride, size - 1) + memory[(size - 1) * stride..(size - 1) * stride + SizeOf(d)]
  }

  lemma CoversLess(d: DataType, length: nat, stride: nat, size: nat)
    requires Elementwise(d) && Narrow(d) && size > 0 && Covers(d, length, stride, size)
    ensures Covers(d, length, stride, size - 1)
  {
    if size > 1 { assert (size - 1) * stride == (size - 2) * stride + stride; }
  }

  /** From a pointer to the elements, the `const` branch, the reader copies what it should. */
  lemma CopiedElements(d: DataType, elements: seq<int>, n: nat)
    requires Elementwise(d) && n <= |elements|
    ensures var w := WireWidth(FieldOf(d));
            && Covers(d, |Memory(elements, w)|, w, n)
            && Copied(d, Memory(elements, w), w, n) == StoreAll(d, elements, n)
  {
    if Narrow(d) { CopiedNarrow(d, elements, n); } else { BlockCopyIsLoop(d, elements, n); }
  }

  lemma {:induction false} CopiedNarrow(d: DataType, elements: seq<int>, n: nat)
    requires Narrow(d) && n <= |elements|
    ensures Covers(d, |Memory(elements, 4)|, 4, n) && Copied(d, Memory(elements, 4), 4, n) == StoreAll(d, elements, n)
  {
    if n > 0 {
      CopiedNarrow(d, elements, n - 1);
      CopiedLast(d, elements, n);
    }
  }

  lemma CopiedLast(d: DataType, elements: seq<int>, n: nat)
    requires Narrow(d) && 0 < n <= |elements|
    ensures Covers(d, |Memory(elements, 4)|, 4, n)
    ensures Memory(elements, 4)[(n - 1) * 4..(n - 1) * 4 + SizeOf(d)] == Image(elements[n - 1], 4)[..SizeOf(d)]
  {
    MemoryPrefix(elements, n, 4);
    assert elements[..n][..n - 1] == elements[..n - 1];
    assert Memory(elements[..n], 4) == Memory(elements[..n - 1], 4) + Image(elements[n - 1], 4);
    Inside(Memory(elements, 4), Memory(elements[..n - 1], 4), Image(elements[n - 1], 4), SizeOf(d));
  }

  lemma Inside(whole: seq<Byte>, front: seq<Byte>, part: seq<Byte>, w: nat)
    requires |front| + |part| <= |whole| && whole[..|front| + |part|] == front + part && w <= |part|
    ensures whole[|front|..|front| + w] == part[..w]
  {
    assert whole[|front|..|front| + w] == whole[..|front| + |part|][|front|..|front| + w];
  }

  lemma {:induction false} FirstCopied(d: DataType, memory: seq<Byte>, stride: nat, size: nat)
    requires Elementwise(d) && size > 0 && Covers(d, |memory|, stride, size)
    ensures |memory| > 0 && |Copied(d, memory, stride, size)| > 0 && Copied(d, memory, stride, size)[0] == memory[0]
    decreases size
  {
    Monotone(1, size, SizeOf(d));
    if Narrow(d) && size > 1 {
      CoversLess(d, |memory|, stride, size);
      FirstCopied(d, memory, stride, size - 1);
    }
  }

  /** From any other pointer, the result is the same for all that may lie behind it exactly if
      nothing is copied. */
  lemma CopyDetermined(d: DataType, length: nat, stride: nat, size: nat)
    requires Elementwise(d) && Covers(d, length, stride, size)
    ensures (forall a: seq<Byte>, b: seq<Byte> | |a| == |b| == length :: Copied(d, a, stride, size) == Copied(d, b, stride, size))
            <==> size == 0
  {
    if size > 0 {
      var a: seq<Byte> := seq(length, _ => 0);
      var b: seq<Byte> := seq(length, _ => 1);
      FirstCopied(d, a, stride, size);
      FirstCopied(d, b, stride, size);
      assert Copied(d, a, stride, size) != Copied(d, b, stride, size);
    }
  }

  /** A tensor whose product, reduced modulo 2^64, is zero comes back the same whatever branch the
      call selects: the reader copies nothing. */
  lemma NothingCopied(t: InferTensor, memory: seq<Byte>, stride: nat)
    requires Elementwise(t.dataType) && TrueProduct(t.shape) % P64 == 0
    ensures Sendable(t) && Receivable(EncodeTensor(t)) && SizeProduct(EncodeTensor(t).shape) == 0
    ensures Data(Copied(t.dataType, memory, stride, 0)) == DecodeTensor(EncodeTensor(t)).data == Data([])
  {
    TransferDefined(t.shape);
    TensorRoundTrip(t);
    assert BytesOf(t.data)[..0] == [];
  }

  // ---------------------------------------------------------------- whole messages

  function EncodeRequest(r: InferRequest): WireRequest
    requires forall t | t in r.inputs :: Sendable(t)
  {
    WireRequest(r.modelName, r.modelVersion, r.id, seq(|r.inputs|, i requires 0 <= i < |r.inputs| => EncodeTensor(r.inputs[i])))
  }

  /** A server that returns its inputs as outputs. */
  function Echo(w: WireRequest): WireResponse {
    WireResponse(w.modelName, w.modelVersion, w.id, w.inputs)
  }

  function DecodeResponse(w: WireResponse): InferResponse
    requires forall t | t in w.outputs :: Receivable(t)
  {
    InferResponse(w.modelName, w.modelVersion, w.id, seq(|w.outputs|, i requires 0 <= i < |w.outputs| => DecodeTensor(w.outputs[i])))
  }

  /** Request, echo and response are well defined and give back the same tensors in order. */
  predicate Delivered(r: InferRequest) {
    && (forall t | t in r.inputs :: Sendable(t))
    && var w := Echo(EncodeRequest(r));
       && (forall t | t in w.outputs :: Receivable(t))
       && DecodeResponse(w) == InferResponse(r.modelName, r.modelVersion, r.id, r.inputs)
  }

  lemma DeliveredOne(r: InferRequest, i: nat)
    requires i < |r.inputs| && Delivered(r)
    ensures Sendable(r.inputs[i]) && Receivable(EncodeTensor(r.inputs[i])) && DecodeTensor(EncodeTensor(r.inputs[i])) == r.inputs[i]
  {
    var w := Echo(EncodeRequest(r));
    assert r.inputs[i] in r.inputs;
    assert w.outputs[i] == EncodeTensor(r.inputs[i]) && w.outputs[i] in w.outputs;
    assert DecodeResponse(w).outputs[i] == DecodeTensor(w.outputs[i]);
  }

  lemma DeliveredAll(r: InferRequest)
    requires forall t | t in r.inputs :: Sendable(t) && Receivable(EncodeTensor(t)) && DecodeTensor(EncodeTensor(t)) == t
    ensures Delivered(r)
  {
    var w := Echo(EncodeRequest(r));
    assert forall i | 0 <= i < |r.inputs| :: w.outputs[i] == EncodeTensor(r.inputs[i]) && r.inputs[i] in r.inputs;
    assert forall t | t in w.outputs :: Receivable(t);
    assert DecodeResponse(w).outputs == r.inputs;
  }

  /** End-to-end round trip, for any list of tensors of the element-wise datatypes: names,
      datatypes, shapes and bytes come back exactly if every tensor is intact. */
  lemma EndToEnd(r: InferRequest)
    requires forall t | t in r.inputs :: Elementwise(t.dataType)
    ensures Delivered(r) <==> forall t | t in r.inputs :: Intact(t)
  {
    if Delivered(r) {
      forall t | t in r.inputs ensures Intact(t) {
        var i :| 0 <= i < |r.inputs| && r.inputs[i] == t;
        DeliveredOne(r, i);
        IntactRoundTrip(t);
      }
    }
    if forall t | t in r.inputs :: Intact(t) {
      forall t | t in r.inputs
        ensures Sendable(t) && Receivable(EncodeTensor(t)) && DecodeTensor(EncodeTensor(t)) == t
      {
        IntactRoundTrip(t);
      }
      DeliveredAll(r);
    }
  }

  /** A tensor that is sent and received without an error and still not returned: a `bool` stored
      as 2 comes back as 1. */
  lemma BoolNotDelivered(r: InferRequest)
    requires r.inputs == [InferTensor("flag", [1], Bool, Data([2]))]
    ensures !Delivered(r)
    ensures Sendable(r.inputs[0]) && Receivable(EncodeTensor(r.inputs[0]))
    ensures DecodeTensor(EncodeTensor(r.inputs[0])).data == Data([1])
  {
    var t := r.inputs[0];
    OneDimension(1);
    TransferDefined([1]);
    TensorRoundTrip(t);
    assert BytesOf(t.data)[..Covered(t)] == [2] && Normal(Bool, [2]) == [1];
    assert t in r.inputs && !Intact(t);
    EndToEnd(r);
  }
}
