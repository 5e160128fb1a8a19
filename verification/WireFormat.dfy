/** The wire format of a tensor, datatype by datatype, with every name, field, width and value
    written out.  The codec and the converter are proved to keep to it. */
module WireFormat {
  import opened LittleEndian
  import opened Shapes
  import opened Tensors

  // ---------------------------------------------------------------- names and shapes

  const NAMES := {"BOOL", "UINT8", "UINT16", "UINT32", "UINT64", "INT8", "INT16", "INT32", "INT64",
                  "FP16", "FP32", "FP64", "STRING"}

  predicate Names(name: string, d: DataType) {
    match d
    case Bool => name == "BOOL"
    case Uint8 => name == "UINT8"
    case Uint16 => name == "UINT16"
    case Uint32 => name == "UINT32"
    case Uint64 => name == "UINT64"
    case Int8 => name == "INT8"
    case Int16 => name == "INT16"
    case Int32 => name == "INT32"
    case Int64 => name == "INT64"
    case Fp16 => name == "FP16"
    case Fp32 => name == "FP32"
    case Fp64 => name == "FP64"
    case String => name == "STRING"
    case Unknown => name !in NAMES
  }

  /** The dimensions in order; one of 2^63 or more is negative in the signed wire field. */
  predicate SameShape(shape: seq<U64>, wire: seq<I64>) {
    && |wire| == |shape|
    && forall i | 0 <= i < |shape| ::
         wire[i] as int == if shape[i] < 0x8000_0000_0000_0000 then shape[i] as int else shape[i] as int - 0x1_0000_0000_0000_0000
  }

  // ---------------------------------------------------------------- words

  function Word16(b: seq<Byte>, k: nat): nat
    requires k + 2 <= |b|
  {
    b[k] as int + 0x100 * b[k + 1] as int
  }

  function Word32(b: seq<Byte>, k: nat): nat
    requires k + 4 <= |b|
  {
    b[k] as int + 0x100 * b[k + 1] as int + 0x1_0000 * b[k + 2] as int + 0x100_0000 * b[k + 3] as int
  }

  function Word64(b: seq<Byte>, k: nat): nat
    requires k + 8 <= |b|
  {
    Word32(b, k) + 0x1_0000_0000 * Word32(b, k + 4)
  }

  // ---------------------------------------------------------------- sent elements

  predicate Bools8(es: seq<int>, b: seq<Byte>, n: nat) {
    |es| == n <= |b| && forall i | 0 <= i < n :: es[i] == if b[i] == 0 then 0 else 1
  }

  predicate Unsigned8(es: seq<int>, b: seq<Byte>, n: nat) {
    |es| == n <= |b| && forall i | 0 <= i < n :: es[i] == b[i]
  }

  predicate Signed8(es: seq<int>, b: seq<Byte>, n: nat) {
    |es| == n <= |b| && forall i | 0 <= i < n :: es[i] == if b[i] < 128 then b[i] as int else b[i] as int - 0x100
  }

  predicate Unsigned16(es: seq<int>, b: seq<Byte>, n: nat) {
    |es| == n && 2 * n <= |b| && forall i | 0 <= i < n :: es[i] == Word16(b, 2 * i)
  }

  predicate Signed16(es: seq<int>, b: seq<Byte>, n: nat) {
    |es| == n && 2 * n <= |b| &&
    forall i | 0 <= i < n :: es[i] == if b[2 * i + 1] < 128 then Word16(b, 2 * i) else Word16(b, 2 * i) - 0x1_0000
  }

  predicate Unsigned32(es: seq<int>, b: seq<Byte>, n: nat) {
    |es| == n && 4 * n <= |b| && forall i | 0 <= i < n :: es[i] == Word32(b, 4 * i)
  }

  predicate Signed32(es: seq<int>, b: seq<Byte>, n: nat) {
    |es| == n && 4 * n <= |b| &&
    forall i | 0 <= i < n :: es[i] == if b[4 * i + 3] < 128 then Word32(b, 4 * i) else Word32(b, 4 * i) - 0x1_0000_0000
  }

  predicate Unsigned64(es: seq<int>, b: seq<Byte>, n: nat) {
    |es| == n && 8 * n <= |b| && forall i | 0 <= i < n :: es[i] == Word64(b, 8 * i)
  }

  predicate Signed64(es: seq<int>, b: seq<Byte>, n: nat) {
    |es| == n && 8 * n <= |b| &&
    forall i | 0 <= i < n ::
      es[i] == if b[8 * i + 7] < 128 then Word64(b, 8 * i) else Word64(b, 8 * i) - 0x1_0000_0000_0000_0000
  }

  /** One string: the bytes before the first zero byte. */
  predicate OneString(strings: seq<seq<Byte>>, b: seq<Byte>) {
    |strings| == 1 && var r := strings[0]; |r| < |b| && r == b[..|r|] && 0 !in r && b[|r|] == 0
  }

  /** The message contents for `n` elements of a buffer: one field is filled, all others are empty. */
  predicate Carries(d: DataType, c: Contents, b: seq<Byte>, n: nat) {
    match d
    case Bool => Bools8(c.bools, b, n) && c == Contents(c.bools, [], [], [], [], [], [], [])
    case Int8 => Signed8(c.ints, b, n) && c == Contents([], c.ints, [], [], [], [], [], [])
    case Int16 => Signed16(c.ints, b, n) && c == Contents([], c.ints, [], [], [], [], [], [])
    case Int32 => Signed32(c.ints, b, n) && c == Contents([], c.ints, [], [], [], [], [], [])
    case Int64 => Signed64(c.int64s, b, n) && c == Contents([], [], c.int64s, [], [], [], [], [])
    case Uint8 => Unsigned8(c.uints, b, n) && c == Contents([], [], [], c.uints, [], [], [], [])
    case Uint16 => Unsigned16(c.uints, b, n) && c == Contents([], [], [], c.uints, [], [], [], [])
    case Uint32 => Unsigned32(c.uints, b, n) && c == Contents([], [], [], c.uints, [], [], [], [])
    case Uint64 => Unsigned64(c.uint64s, b, n) && c == Contents([], [], [], [], c.uint64s, [], [], [])
    case Fp32 => Unsigned32(c.fp32s, b, n) && c == Contents([], [], [], [], [], c.fp32s, [], [])
    case Fp64 => Unsigned64(c.fp64s, b, n) && c == Contents([], [], [], [], [], [], c.fp64s, [])
    case String => OneString(c.bytes, b) && c == Contents([], [], [], [], [], [], [], c.bytes)
    case Fp16 => c == Contents([], [], [], [], [], [], [], [])
    case Unknown => c == Contents([], [], [], [], [], [], [], [])
  }

  /** The message for a client tensor whose buffer is read for `n` elements. */
  predicate SentAs(t: InferTensor, w: WireTensor, n: nat) {
    && w.name == t.name
    && Names(w.dataType, t.dataType) && (t.dataType == Unknown ==> w.dataType == "Unknown")
    && SameShape(t.shape, w.shape)
    && Carries(t.dataType, w.contents, if t.data.Data? then t.data.bytes else [], n)
  }

  // ---------------------------------------------------------------- received bytes

  predicate Low8(es: seq<int>, b: seq<Byte>, n: nat) {
    |b| == n <= |es| && forall i | 0 <= i < n :: es[i] % 0x100 == b[i]
  }

  predicate Low16(es: seq<int>, b: seq<Byte>, n: nat) {
    |b| == 2 * n && n <= |es| && forall i | 0 <= i < n :: es[i] % 0x1_0000 == Word16(b, 2 * i)
  }

  predicate Low32(es: seq<int>, b: seq<Byte>, n: nat) {
    |b| == 4 * n && n <= |es| && forall i | 0 <= i < n :: es[i] % 0x1_0000_0000 == Word32(b, 4 * i)
  }

  predicate Low64(es: seq<int>, b: seq<Byte>, n: nat) {
    |b| == 8 * n && n <= |es| && forall i | 0 <= i < n :: es[i] % 0x1_0000_0000_0000_0000 == Word64(b, 8 * i)
  }

  /** The low bytes of the first `n` elements, in as many bytes as an element of the type takes. */
  predicate LowBytes(d: DataType, es: seq<int>, b: seq<Byte>, n: nat) {
    match d
    case Bool => Low8(es, b, n)
    case Int8 => Low8(es, b, n)
    case Uint8 => Low8(es, b, n)
    case Int16 => Low16(es, b, n)
    case Uint16 => Low16(es, b, n)
    case Int32 => Low32(es, b, n)
    case Uint32 => Low32(es, b, n)
    case Fp32 => Low32(es, b, n)
    case Int64 => Low64(es, b, n)
    case Uint64 => Low64(es, b, n)
    case Fp64 => Low64(es, b, n)
    case _ => false
  }

  /** The buffer that is received for `n` elements: one field decides it. */
  predicate Restores(d: DataType, c: Contents, data: Buffer, n: nat) {
    match d
    case Bool => data.Data? && LowBytes(d, c.bools, data.bytes, n)
    case Int8 => data.Data? && LowBytes(d, c.ints, data.bytes, n)
    case Int16 => data.Data? && LowBytes(d, c.ints, data.bytes, n)
    case Int32 => data.Data? && LowBytes(d, c.ints, data.bytes, n)
    case Int64 => data.Data? && LowBytes(d, c.int64s, data.bytes, n)
    case Uint8 => data.Data? && LowBytes(d, c.uints, data.bytes, n)
    case Uint16 => data.Data? && LowBytes(d, c.uints, data.bytes, n)
    case Uint32 => data.Data? && LowBytes(d, c.uints, data.bytes, n)
    case Uint64 => data.Data? && LowBytes(d, c.uint64s, data.bytes, n)
    case Fp32 => data.Data? && LowBytes(d, c.fp32s, data.bytes, n)
    case Fp64 => data.Data? && LowBytes(d, c.fp64s, data.bytes, n)
    case String => false
    case Fp16 => data == NoData
    case Unknown => data == NoData
  }

  /** The client tensor for a message that is read for `n` elements. */
  predicate ReceivedAs(w: WireTensor, t: InferTensor, n: nat) {
    && t.name == w.name && Names(w.dataType, t.dataType) && SameShape(t.shape, w.shape)
    && Restores(t.dataType, w.contents, t.data, n)
  }

  /** The format leaves the receiver no choice. */
  lemma ReceivedOnce(w: WireTensor, t: InferTensor, u: InferTensor, n: nat)
    requires ReceivedAs(w, t, n) && ReceivedAs(w, u, n)
    ensures t == u
  {
    SameDims(t.shape, u.shape, w.shape);
    assert t.dataType == u.dataType;
    if t.data.Data? { SameBytes(t.dataType, FieldIn(t.dataType, w.contents), t.data.bytes, u.data.bytes, n); }
  }

  function FieldIn(d: DataType, c: Contents): seq<int> {
    match d
    case Bool => c.bools
    case Int64 => c.int64s
    case Uint64 => c.uint64s
    case Fp32 => c.fp32s
    case Fp64 => c.fp64s
    case Int8 => c.ints
    case Int16 => c.ints
    case Int32 => c.ints
    case _ => c.uints
  }

  lemma SameDims(a: seq<U64>, b: seq<U64>, wire: seq<I64>)
    requires SameShape(a, wire) && SameShape(b, wire)
    ensures a == b
  {
    forall i | 0 <= i < |a| ensures a[i] == b[i] {
      assert wire[i] as int == if a[i] < 0x8000_0000_0000_0000 then a[i] as int else a[i] as int - 0x1_0000_0000_0000_0000;
    }
  }

  lemma SameBytes(d: DataType, es: seq<int>, a: seq<Byte>, b: seq<Byte>, n: nat)
    requires LowBytes(d, es, a, n) && LowBytes(d, es, b, n)
    ensures a == b
  {
    if d == Bool || d == Int8 || d == Uint8 {
      assert forall i | 0 <= i < n :: es[i] % 0x100 == a[i] == b[i];
    } else if d == Int16 || d == Uint16 {
      SameWords16(es, a, b, n);
    } else if d == Int32 || d == Uint32 || d == Fp32 {
      SameWords32(es, a, b, n);
    } else {
      SameWords64(es, a, b, n);
    }
  }

  lemma SameWords16(es: seq<int>, a: seq<Byte>, b: seq<Byte>, n: nat)
    requires Low16(es, a, n) && Low16(es, b, n)
    ensures a == b
  {
    forall k | 0 <= k < |a| ensures a[k] == b[k] {
      var i := k / 2;
      assert k == 2 * i || k == 2 * i + 1;
      assert es[i] % 0x1_0000 == Word16(a, 2 * i) == Word16(b, 2 * i);
    }
  }

  lemma SameWords32(es: seq<int>, a: seq<Byte>, b: seq<Byte>, n: nat)
    requires Low32(es, a, n) && Low32(es, b, n)
    ensures a == b
  {
    forall k | 0 <= k < |a| ensures a[k] == b[k] {
      var i := k / 4;
      assert 4 * i <= k < 4 * i + 4;
      assert es[i] % 0x1_0000_0000 == Word32(a, 4 * i) == Word32(b, 4 * i);
      SameWord32(a, b, 4 * i);
    }
  }

  lemma SameWords64(es: seq<int>, a: seq<Byte>, b: seq<Byte>, n: nat)
    requires Low64(es, a, n) && Low64(es, b, n)
    ensures a == b
  {
    forall k | 0 <= k < |a| ensures a[k] == b[k] {
      var i := k / 8;
      assert 8 * i <= k < 8 * i + 8;
      assert es[i] % 0x1_0000_0000_0000_0000 == Word64(a, 8 * i) == Word64(b, 8 * i);
      Digit(Word32(a, 8 * i), Word32(b, 8 * i), Word32(a, 8 * i + 4), Word32(b, 8 * i + 4), 0x1_0000_0000);
      SameWord32(a, b, 8 * i);
      SameWord32(a, b, 8 * i + 4);
    }
  }

  /** The lowest digit and the rest of a number are unique. */
  lemma Digit(x: int, y: int, u: int, v: int, base: nat)
    requires 0 <= x < base && 0 <= y < base && x + base * u == y + base * v
    ensures x == y && u == v
  {
    Distribute(base, u, v);
    if u > v { AtLeast(base, u - v); }
    if u < v { AtLeast(base, v - u); }
  }

  lemma Distribute(base: int, u: int, v: int)
    ensures base * u - base * v == base * (u - v) == -(base * (v - u))
  {
  }

  lemma AtLeast(base: nat, k: int)
    requires k >= 1
    ensures base * k >= base
  {
    assert base * k == base + base * (k - 1);
  }

  lemma SameWord32(a: seq<Byte>, b: seq<Byte>, k: nat)
    requires k + 4 <= |a| && k + 4 <= |b| && Word32(a, k) == Word32(b, k)
    ensures forall i | k <= i < k + 4 :: a[i] == b[i]
  {
    Digit(a[k], b[k], a[k + 1] as int + 0x100 * a[k + 2] as int + 0x1_0000 * a[k + 3] as int,
          b[k + 1] as int + 0x100 * b[k + 2] as int + 0x1_0000 * b[k + 3] as int, 0x100);
    Digit(a[k + 1], b[k + 1], a[k + 2] as int + 0x100 * a[k + 3] as int, b[k + 2] as int + 0x100 * b[k + 3] as int, 0x100);
    Digit(a[k + 2], b[k + 2], a[k + 3], b[k + 3], 0x100);
  }
}
