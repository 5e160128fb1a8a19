/** Datatypes, client tensors and the tensor messages of the inference service. */
module Tensors {
  import opened LittleEndian
  import opened Shapes

  datatype DataType =
    | Bool | Uint8 | Uint16 | Uint32 | Uint64 | Int8 | Int16 | Int32 | Int64
    | Fp16 | Fp32 | Fp64 | String | Unknown

  // ---------------------------------------------------------------- names

  function Str(d: DataType): string {
    match d
    case Bool => "BOOL"
    case Uint8 => "UINT8"
    case Uint16 => "UINT16"
    case Uint32 => "UINT32"
    case Uint64 => "UINT64"
    case Int8 => "INT8"
    case Int16 => "INT16"
    case Int32 => "INT32"
    case Int64 => "INT64"
    case Fp16 => "FP16"
    case Fp32 => "FP32"
    case Fp64 => "FP64"
    case String => "STRING"
    case Unknown => "Unknown"
  }

  /** A lookup in the table of names; any other string is `Unknown`. */
  function FromString(s: string): DataType {
    if s == "BOOL" then Bool
    else if s == "UINT8" then Uint8
    else if s == "UINT16" then Uint16
    else if s == "UINT32" then Uint32
    else if s == "UINT64" then Uint64
    else if s == "INT8" then Int8
    else if s == "INT16" then Int16
    else if s == "INT32" then Int32
    else if s == "INT64" then Int64
    else if s == "FP16" then Fp16
    else if s == "FP32" then Fp32
    else if s == "FP64" then Fp64
    else if s == "STRING" then String
    else Unknown
  }

  /** The name tables are inverse to each other: a datatype survives its name, and a string is
      understood only if it is the name of a datatype. */
  lemma NameRoundTrip(d: DataType, s: string)
    ensures FromString(Str(d)) == d
    ensures FromString(s) != Unknown ==> Str(FromString(s)) == s
  {
    assert |Str(d)| > 0;
  }

  // ---------------------------------------------------------------- elements

  /** The datatypes whose elements are transferred one by one. */
  predicate Elementwise(d: DataType) {
    d != Fp16 && d != String && d != Unknown
  }

  /** `sizeof(T)` of the element type. */
  function SizeOf(d: DataType): nat {
    match d
    case Uint16 => 2
    case Int16 => 2
    case Uint32 => 4
    case Int32 => 4
    case Fp32 => 4
    case Uint64 => 8
    case Int64 => 8
    case Fp64 => 8
    case _ => 1
  }

  /** The repeated fields of `InferTensorContents`. */
  datatype Field = Bools | Ints | Int64s | Uints | Uint64s | Fp32s | Fp64s

  /** The field that `getTensorContents<T>` selects. */
  function FieldOf(d: DataType): Field
    requires Elementwise(d)
  {
    match d
    case Bool => Bools
    case Uint8 => Uints
    case Uint16 => Uints
    case Uint32 => Uints
    case Uint64 => Uint64s
    case Int8 => Ints
    case Int16 => Ints
    case Int32 => Ints
    case Int64 => Int64s
    case Fp32 => Fp32s
    case Fp64 => Fp64s
  }

  /** The size of one wire element in memory. */
  function WireWidth(f: Field): nat {
    match f
    case Bools => 1
    case Ints => 4
    case Uints => 4
    case Fp32s => 4
    case _ => 8
  }

  /** The values a field can hold; floating-point elements are their bit patterns. */
  predicate Fits(f: Field, v: int) {
    match f
    case Bools => 0 <= v < 2
    case Ints => -P31 <= v < P31
    case Int64s => -P63 <= v < P63
    case Uints => 0 <= v < P32
    case Uint64s => 0 <= v < P64
    case Fp32s => 0 <= v < P32
    case Fp64s => 0 <= v < P64
  }

  type WireBool = x: int | 0 <= x < 2

  datatype Contents = Contents(
    bools: seq<WireBool>,
    ints: seq<I32>,
    int64s: seq<I64>,
    uints: seq<U32>,
    uint64s: seq<U64>,
    fp32s: seq<U32>,
    fp64s: seq<U64>,
    bytes: seq<seq<Byte>>)

  const EMPTY := Contents([], [], [], [], [], [], [], [])

  function Elements(c: Contents, f: Field): seq<int> {
    match f
    case Bools => c.bools
    case Ints => c.ints
    case Int64s => c.int64s
    case Uints => c.uints
    case Uint64s => c.uint64s
    case Fp32s => c.fp32s
    case Fp64s => c.fp64s
  }

  /** `contents->Add(v)`. */
  function Add(c: Contents, f: Field, v: int): Contents
    requires Fits(f, v)
  {
    match f
    case Bools => c.(bools := c.bools + [v])
    case Ints => c.(ints := c.ints + [v])
    case Int64s => c.(int64s := c.int64s + [v])
    case Uints => c.(uints := c.uints + [v])
    case Uint64s => c.(uint64s := c.uint64s + [v])
    case Fp32s => c.(fp32s := c.fp32s + [v])
    case Fp64s => c.(fp64s := c.fp64s + [v])
  }

  /** `data[i]` for an element type `T`, converted to the element type of its field: integers keep
      their value, a `bool` is true for any non-zero byte. */
  function Load(d: DataType, b: seq<Byte>): int
    requires Elementwise(d)
  {
    if d == Bool then (if Unsigned(b) != 0 then 1 else 0)
    else if d == Int8 || d == Int16 || d == Int32 || d == Int64 then Signed(b)
    else Unsigned(b)
  }

  lemma LoadFits(d: DataType, b: seq<Byte>)
    requires Elementwise(d) && |b| == SizeOf(d)
    ensures Fits(FieldOf(d), Load(d, b))
  {
    UnsignedBounds(b);
    Widths();
  }

  lemma Widths()
    ensures Pow256(1) == 256 && Pow256(2) == 0x1_0000 && Pow256(4) == P32 && Pow256(8) == P64
  {
    assert Pow256(2) == 256 * Pow256(1);
    assert Pow256(3) == 256 * Pow256(2);
    assert Pow256(4) == 256 * Pow256(3);
    assert Pow256(5) == 256 * Pow256(4);
    assert Pow256(6) == 256 * Pow256(5);
    assert Pow256(7) == 256 * Pow256(6);
    assert Pow256(8) == 256 * Pow256(7);
  }

  // ---------------------------------------------------------------- messages

  /** The data pointer of a client tensor with the bytes it points to, or no pointer. */
  datatype Buffer = NoData | Data(bytes: seq<Byte>)

  datatype InferTensor = InferTensor(name: string, shape: seq<U64>, dataType: DataType, data: Buffer)

  datatype InferRequest = InferRequest(modelName: string, modelVersion: string, id: string, inputs: seq<InferTensor>)

  datatype InferResponse = InferResponse(modelName: string, modelVersion: string, id: string, outputs: seq<InferTensor>)

  /** `InferInputTensor` and `InferOutputTensor` have the same fields. */
  datatype WireTensor = WireTensor(name: string, dataType: string, shape: seq<I64>, contents: Contents)

  datatype WireRequest = WireRequest(modelName: string, modelVersion: string, id: string, inputs: seq<WireTensor>)

  datatype WireResponse = WireResponse(modelName: string, modelVersion: string, id: string, outputs: seq<WireTensor>)
}
