/** The codec keeps to the wire format: what is encoded is what `WireFormat` writes out, and what is
    decoded is the only thing `WireFormat` admits. */
module WireCodec {
  import opened LittleEndian
  import opened Shapes
  import opened Tensors
  import opened TensorCodec
  import opened WireFormat

  // ---------------------------------------------------------------- words

  lemma OneByte(b: seq<Byte>)
    requires |b| == 1
    ensures Unsigned(b) == b[0]
  {
  }

  lemma TwoBytes(b: seq<Byte>)
    requires |b| == 2
    ensures Unsigned(b) == Word16(b, 0)
  {
    OneByte(b[1..]);
  }

  lemma FourBytes(b: seq<Byte>)
    requires |b| == 4
    ensures Unsigned(b) == Word32(b, 0)
  {
    TwoBytes(b[2..]);
    assert b[1..][1..] == b[2..];
  }

  lemma EightBytes(b: seq<Byte>)
    requires |b| == 8
    ensures Unsigned(b) == Word64(b, 0)
  {
    FourBytes(b[4..]);
    assert b[1..][1..] == b[2..] && b[2..][1..] == b[3..] && b[3..][1..] == b[4..];
    assert Unsigned(b) == b[0] as int + 0x100 * Unsigned(b[1..]);
    assert Unsigned(b[1..]) == b[1] as int + 0x100 * Unsigned(b[2..]);
    assert Unsigned(b[2..]) == b[2] as int + 0x100 * Unsigned(b[3..]);
    assert Unsigned(b[3..]) == b[3] as int + 0x100 * Unsigned(b[4..]);
  }

  /** The low bytes of a value are its unsigned remainder. */
  lemma {:induction false} UnsignedImage(v: int, w: nat)
    ensures Unsigned(Image(v, w)) == v % Pow256(w)
    decreases w
  {
    if w > 0 {
      UnsignedImage(v / 256, w - 1);
      assert Image(v, w)[1..] == Image(v / 256, w - 1);
      RemainderStep(v, Pow256(w - 1));
    }
  }

  lemma RemainderStep(v: int, p: nat)
    requires p > 0
    ensures v % (256 * p) == v % 256 + 256 * (v / 256 % p)
  {
    var q, r := v / 256 / p, v / 256 % p;
    assert v / 256 == q * p + r;
    assert v == q * (256 * p) + (v % 256 + 256 * r);
    RemainderUnique(v, 256 * p, q, v % 256 + 256 * r);
  }

  lemma RemainderUnique(v: int, m: nat, q: int, r: int)
    requires 0 <= r < m && v == q * m + r
    ensures v % m == r
  {
    var k := v / m - q;
    assert v == m * (v / m) + v % m;
    assert k * m == r - v % m;
    if k > 0 { AtLeast(m, k); }
    if k < 0 { AtLeast(m, -k); }
  }

  // ---------------------------------------------------------------- sent elements

  lemma {:induction false} LoadAllAt(d: DataType, data: seq<Byte>, n: nat, i: nat, w: nat)
    requires Elementwise(d) && w == SizeOf(d) && n * w <= |data| && i < n
    ensures i * w + w <= |data| && LoadAll(d, data, n)[i] == Load(d, Slice(data, i, w))
    decreases n
  {
    SliceInside(i, n, w);
    SplitLast(data, n, w);
    LoadLast(d, data, n, Slice(data, n - 1, w));
    if i < n - 1 {
      LoadAllAt(d, data, n - 1, i, w);
    }
  }

  /** Element `i` in an array of `w`-byte elements, for the widths there are. */
  lemma SliceWord(b: seq<Byte>, i: nat, w: nat)
    requires i * w + w <= |b|
    ensures w == 1 ==> Unsigned(Slice(b, i, w)) == b[i]
    ensures w == 2 ==> Unsigned(Slice(b, i, w)) == Word16(b, 2 * i)
    ensures w == 4 ==> Unsigned(Slice(b, i, w)) == Word32(b, 4 * i)
    ensures w == 8 ==> Unsigned(Slice(b, i, w)) == Word64(b, 8 * i)
  {
    var s := Slice(b, i, w);
    if w == 1 { OneByte(s); }
    if w == 2 { TwoBytes(s); }
    if w == 4 { FourBytes(s); }
    if w == 8 { EightBytes(s); }
  }

  lemma Element(d: DataType, b: seq<Byte>, n: nat, i: nat, w: nat)
    requires Elementwise(d) && w == SizeOf(d) && n * w <= |b| && i < n
    ensures i * w + w <= |b|
    ensures var v, u := LoadAll(d, b, n)[i], Unsigned(Slice(b, i, w));
            if d == Bool then v == if u == 0 then 0 else 1
            else if d == Int8 || d == Int16 || d == Int32 || d == Int64
            then v == if b[i * w + w - 1] < 128 then u else u - Pow256(w)
            else v == u
  {
    LoadAllAt(d, b, n, i, w);
  }

  lemma Sent8(d: DataType, b: seq<Byte>, n: nat)
    requires (d == Bool || d == Uint8 || d == Int8) && n * 1 <= |b|
    ensures |LoadAll(d, b, n)| == n
    ensures d == Bool ==> Bools8(LoadAll(d, b, n), b, n)
    ensures d == Uint8 ==> Unsigned8(LoadAll(d, b, n), b, n)
    ensures d == Int8 ==> Signed8(LoadAll(d, b, n), b, n)
  {
    Widths();
    forall i | 0 <= i < n
      ensures LoadAll(d, b, n)[i] == if d == Bool then (if b[i] == 0 then 0 else 1)
                                     else if d == Uint8 || b[i] < 128 then b[i] as int else b[i] as int - 0x100
    {
      Element(d, b, n, i, 1);
      SliceWord(b, i, 1);
    }
  }

  lemma Sent16(d: DataType, b: seq<Byte>, n: nat)
    requires (d == Uint16 || d == Int16) && n * 2 <= |b|
    ensures |LoadAll(d, b, n)| == n
    ensures d == Uint16 ==> Unsigned16(LoadAll(d, b, n), b, n)
    ensures d == Int16 ==> Signed16(LoadAll(d, b, n), b, n)
  {
    Widths();
    forall i | 0 <= i < n
      ensures LoadAll(d, b, n)[i] == if d == Uint16 || b[2 * i + 1] < 128 then Word16(b, 2 * i) else Word16(b, 2 * i) - 0x1_0000
    {
      Element(d, b, n, i, 2);
      SliceWord(b, i, 2);
    }
  }

  lemma Sent32(d: DataType, b: seq<Byte>, n: nat)
    requires (d == Uint32 || d == Int32 || d == Fp32) && n * 4 <= |b|
    ensures |LoadAll(d, b, n)| == n
    ensures d == Uint32 || d == Fp32 ==> Unsigned32(LoadAll(d, b, n), b, n)
    ensures d == Int32 ==> Signed32(LoadAll(d, b, n), b, n)
  {
    Widths();
    forall i | 0 <= i < n
      ensures LoadAll(d, b, n)[i] == if d != Int32 || b[4 * i + 3] < 128 then Word32(b, 4 * i) else Word32(b, 4 * i) - 0x1_0000_0000
    {
      Element(d, b, n, i, 4);
      SliceWord(b, i, 4);
    }
  }

  lemma Sent64(d: DataType, b: seq<Byte>, n: nat)
    requires (d == Uint64 || d == Int64 || d == Fp64) && n * 8 <= |b|
    ensures |LoadAll(d, b, n)| == n
    ensures d == Uint64 || d == Fp64 ==> Unsigned64(LoadAll(d, b, n), b, n)
    ensures d == Int64 ==> Signed64(LoadAll(d, b, n), b, n)
  {
    Widths();
    forall i | 0 <= i < n
      ensures LoadAll(d, b, n)[i] == if d != Int64 || b[8 * i + 7] < 128 then Word64(b, 8 * i)
                                     else Word64(b, 8 * i) - 0x1_0000_0000_0000_0000
    {
      Element(d, b, n, i, 8);
      SliceWord(b, i, 8);
    }
  }

  /** One field holds the elements and all others are empty. */
  predicate Alone(c: Contents, f: Field, es: seq<int>) {
    Elements(c, f) == es && c.bytes == [] && forall g: Field | g != f :: Elements(c, g) == []
  }

  lemma WrittenAlone(d: DataType, data: Buffer, n: nat)
    requires Elementwise(d) && Writable(d, data, n)
    ensures Alone(Written(d, EMPTY, data, n), FieldOf(d), LoadAll(d, BytesOf(data), n))
  {
    WrittenElements(d, data, n);
    LoadAllFits(d, BytesOf(data), n);
    AddAllAppends(EMPTY, FieldOf(d), LoadAll(d, BytesOf(data), n));
  }

  lemma AloneFields(c: Contents, f: Field, es: seq<int>)
    requires Alone(c, f, es)
    ensures (f == Bools || c.bools == []) && (f == Ints || c.ints == []) && (f == Int64s || c.int64s == [])
    ensures (f == Uints || c.uints == []) && (f == Uint64s || c.uint64s == [])
    ensures (f == Fp32s || c.fp32s == []) && (f == Fp64s || c.fp64s == [])
  {
    assert f == Bools || Elements(c, Bools) == [];
    assert f == Ints || Elements(c, Ints) == [];
    assert f == Int64s || Elements(c, Int64s) == [];
    assert f == Uints || Elements(c, Uints) == [];
    assert f == Uint64s || Elements(c, Uint64s) == [];
    assert f == Fp32s || Elements(c, Fp32s) == [];
    assert f == Fp64s || Elements(c, Fp64s) == [];
  }

  lemma CarriesNarrow(d: DataType, c: Contents, b: seq<Byte>, n: nat)
    requires d == Bool || d == Uint8 || d == Int8 || d == Uint16 || d == Int16
    requires n * SizeOf(d) <= |b| && Alone(c, FieldOf(d), LoadAll(d, b, n))
    ensures Carries(d, c, b, n)
  {
    AloneFields(c, FieldOf(d), LoadAll(d, b, n));
    if d == Uint16 || d == Int16 { Sent16(d, b, n); } else { Sent8(d, b, n); }
  }

  lemma CarriesWide(d: DataType, c: Contents, b: seq<Byte>, n: nat)
    requires d == Uint32 || d == Int32 || d == Fp32 || d == Uint64 || d == Int64 || d == Fp64
    requires n * SizeOf(d) <= |b| && Alone(c, FieldOf(d), LoadAll(d, b, n))
    ensures Carries(d, c, b, n)
  {
    AloneFields(c, FieldOf(d), LoadAll(d, b, n));
    if d == Uint32 || d == Int32 || d == Fp32 { Sent32(d, b, n); } else { Sent64(d, b, n); }
  }

  /** The contents that the writer leaves in an empty message are those of the format. */
  lemma WrittenCarries(d: DataType, data: Buffer, n: nat)
    requires Writable(d, data, n)
    ensures Carries(d, Written(d, EMPTY, data, n), BytesOf(data), n)
  {
    if Elementwise(d) {
      var c := Written(d, EMPTY, data, n);
      WrittenAlone(d, data, n);
      if SizeOf(d) <= 2 { CarriesNarrow(d, c, BytesOf(data), n); } else { CarriesWide(d, c, BytesOf(data), n); }
    }
  }

  lemma EncodedNames(d: DataType)
    ensures Names(Str(d), d) && (d == Unknown ==> Str(d) == "Unknown")
  {
  }

  lemma DecodedNames(name: string)
    ensures Names(name, FromString(name))
  {
  }

  lemma EncodedShape(shape: seq<U64>)
    ensures SameShape(shape, WireShape(shape))
  {
  }

  lemma DecodedShape(shape: seq<I64>)
    ensures SameShape(ClientShape(shape), shape)
  {
  }

  /** The message of a tensor is the one of the format. */
  lemma EncodedAsFormat(t: InferTensor)
    requires Sendable(t)
    ensures SentAs(t, EncodeTensor(t), RequestCount(t.shape))
  {
    EncodedNames(t.dataType);
    EncodedShape(t.shape);
    WrittenCarries(t.dataType, t.data, RequestCount(t.shape));
  }

  // ---------------------------------------------------------------- received bytes

  lemma StoreStep(d: DataType, es: seq<int>, n: nat)
    requires Elementwise(d) && 0 < n <= |es|
    ensures StoreAll(d, es, n) == StoreAll(d, es, n - 1) + Image(es[n - 1], SizeOf(d))
  {
    ImagePrefix(es[n - 1], WireWidth(FieldOf(d)), SizeOf(d));
  }

  lemma {:induction false} StoreAt(d: DataType, es: seq<int>, n: nat, i: nat)
    requires Elementwise(d) && i < n <= |es|
    ensures i * SizeOf(d) + SizeOf(d) <= n * SizeOf(d)
    ensures Slice(StoreAll(d, es, n), i, SizeOf(d)) == Image(es[i], SizeOf(d))
    decreases n
  {
    var w := SizeOf(d);
    SliceInside(i, n, w);
    StoreStep(d, es, n);
    if i < n - 1 {
      SliceInside(i, n - 1, w);
      StoreAt(d, es, n - 1, i);
      SliceFront(StoreAll(d, es, n - 1), Image(es[n - 1], w), i, w);
    } else {
      assert |StoreAll(d, es, n - 1)| == i * w;
    }
  }

  lemma SliceFront(a: seq<Byte>, b: seq<Byte>, i: nat, w: nat)
    requires i * w + w <= |a|
    ensures Slice(a + b, i, w) == Slice(a, i, w)
  {
  }

  lemma Stored(d: DataType, es: seq<int>, n: nat, i: nat, w: nat)
    requires Elementwise(d) && w == SizeOf(d) && i < n <= |es|
    ensures i * w + w <= |StoreAll(d, es, n)| && Unsigned(Slice(StoreAll(d, es, n), i, w)) == es[i] % Pow256(w)
  {
    StoreAt(d, es, n, i);
    UnsignedImage(es[i], w);
  }

  lemma Received8(d: DataType, es: seq<int>, n: nat)
    requires (d == Bool || d == Uint8 || d == Int8) && n <= |es|
    ensures Low8(es, StoreAll(d, es, n), n)
  {
    Widths();
    var b := StoreAll(d, es, n);
    forall i | 0 <= i < n ensures es[i] % 0x100 == b[i] {
      Stored(d, es, n, i, 1);
      SliceWord(b, i, 1);
    }
  }

  lemma Received16(d: DataType, es: seq<int>, n: nat)
    requires (d == Uint16 || d == Int16) && n <= |es|
    ensures Low16(es, StoreAll(d, es, n), n)
  {
    Widths();
    var b := StoreAll(d, es, n);
    forall i | 0 <= i < n ensures es[i] % 0x1_0000 == Word16(b, 2 * i) {
      Stored(d, es, n, i, 2);
      SliceWord(b, i, 2);
    }
  }

  lemma Received32(d: DataType, es: seq<int>, n: nat)
    requires (d == Uint32 || d == Int32 || d == Fp32) && n <= |es|
    ensures Low32(es, StoreAll(d, es, n), n)
  {
    Widths();
    var b := StoreAll(d, es, n);
    forall i | 0 <= i < n ensures es[i] % 0x1_0000_0000 == Word32(b, 4 * i) {
      Stored(d, es, n, i, 4);
      SliceWord(b, i, 4);
    }
  }

  lemma Received64(d: DataType, es: seq<int>, n: nat)
    requires (d == Uint64 || d == Int64 || d == Fp64) && n <= |es|
    ensures Low64(es, StoreAll(d, es, n), n)
  {
    Widths();
    var b := StoreAll(d, es, n);
    forall i | 0 <= i < n ensures es[i] % 0x1_0000_0000_0000_0000 == Word64(b, 8 * i) {
      Stored(d, es, n, i, 8);
      SliceWord(b, i, 8);
    }
  }

  /** The bytes that the reader stores are those of the format. */
  lemma StoredLow(d: DataType, es: seq<int>, n: nat)
    requires Elementwise(d) && n <= |es|
    ensures LowBytes(d, es, StoreAll(d, es, n), n)
  {
    match SizeOf(d) {
      case 1 => Received8(d, es, n);
      case 2 => Received16(d, es, n);
      case 4 => Received32(d, es, n);
      case _ => Received64(d, es, n);
    }
  }

  lemma ReadRestores(d: DataType, c: Contents, n: nat)
    requires Readable(d, c, n)
    ensures Restores(d, c, ReadBack(d, c, n), n)
  {
    if Elementwise(d) { StoredLow(d, Elements(c, FieldOf(d)), n); }
  }

  /** The tensor of a message is the one of the format. */
  lemma DecodedAsFormat(w: WireTensor)
    requires Receivable(w)
    ensures ReceivedAs(w, DecodeTensor(w), SizeProduct(w.shape))
  {
    DecodedNames(w.dataType);
    DecodedShape(w.shape);
    ReadRestores(FromString(w.dataType), w.contents, SizeProduct(w.shape));
  }

  // ---------------------------------------------------------------- whole messages

  lemma RequestAsFormat(r: InferRequest)
    requires forall t | t in r.inputs :: Sendable(t)
    ensures var w := EncodeRequest(r);
            && w.modelName == r.modelName && w.modelVersion == r.modelVersion && w.id == r.id
            && |w.inputs| == |r.inputs|
            && forall i | 0 <= i < |r.inputs| :: SentAs(r.inputs[i], w.inputs[i], RequestCount(r.inputs[i].shape))
  {
    forall i | 0 <= i < |r.inputs|
      ensures SentAs(r.inputs[i], EncodeRequest(r).inputs[i], RequestCount(r.inputs[i].shape))
    {
      assert r.inputs[i] in r.inputs;
      EncodedAsFormat(r.inputs[i]);
    }
  }

  lemma ResponseAsFormat(w: WireResponse)
    requires forall t | t in w.outputs :: Receivable(t)
    ensures var r := DecodeResponse(w);
            && r.modelName == w.modelName && r.modelVersion == w.modelVersion && r.id == w.id
            && |r.outputs| == |w.outputs|
            && forall i | 0 <= i < |w.outputs| :: ReceivedAs(w.outputs[i], r.outputs[i], SizeProduct(w.outputs[i].shape))
  {
    forall i | 0 <= i < |w.outputs|
      ensures ReceivedAs(w.outputs[i], DecodeResponse(w).outputs[i], SizeProduct(w.outputs[i].shape))
    {
      assert w.outputs[i] in w.outputs;
      DecodedAsFormat(w.outputs[i]);
    }
  }

  // ---------------------------------------------------------------- what is needed

  /** The bytes that one element takes in the client's buffer. */
  predicate Takes(d: DataType, width: nat) {
    match d
    case Bool => width == 1
    case Int8 => width == 1
    case Uint8 => width == 1
    case Int16 => width == 2
    case Uint16 => width == 2
    case Int32 => width == 4
    case Uint32 => width == 4
    case Fp32 => width == 4
    case Int64 => width == 8
    case Uint64 => width == 8
    case Fp64 => width == 8
    case _ => false
  }

  /** A tensor can be sent exactly if the 32-bit loop ends and the buffer holds that many elements. */
  lemma SendableExactly(t: InferTensor, width: nat)
    requires Takes(t.dataType, width)
    ensures Sendable(t) <==> RequestCount(t.shape) < 0x1_0000_0000 && RequestCount(t.shape) * width <= |BytesOf(t.data)|
    ensures Covered(t) == (TrueProduct(t.shape) % 0x1_0000_0000_0000_0000) * width
  {
  }

  /** A message can be received exactly if its field holds enough elements, their bytes can be
      counted, and the 32-bit loop, where there is one, ends. */
  lemma ReceivableExactly(w: WireTensor, d: DataType, width: nat)
    requires Names(w.dataType, d) && Takes(d, width)
    ensures var n := SizeProduct(w.shape);
            Receivable(w) <==>
              && n <= |FieldIn(d, w.contents)| && n * width < 0x1_0000_0000_0000_0000
              && (d == Int8 || d == Uint8 || d == Int16 || d == Uint16 ==> n < 0x1_0000_0000)
  {
    DecodedNames(w.dataType);
  }
}
