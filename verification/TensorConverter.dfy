/** The tensor converter as it runs: messages filled field by field, a byte buffer filled in place. */
module TensorConverter {
  import opened LittleEndian
  import opened Shapes
  import opened Tensors
  import opened TensorCodec
  import opened WireFormat
  import opened WireCodec

  // ---------------------------------------------------------------- messages

  /** A tensor message under construction. */
  class TensorMessage {
    var name: string
    var dataType: string
    var shape: seq<I64>
    var contents: Contents

    constructor ()
      ensures View() == WireTensor("", "", [], EMPTY)
    {
      name, dataType, shape, contents := "", "", [], EMPTY;
    }

    function View(): WireTensor
      reads this
    {
      WireTensor(name, dataType, shape, contents)
    }
  }

  /** A request message under construction. */
  class RequestMessage {
    var modelName: string
    var modelVersion: string
    var id: string
    var inputs: seq<TensorMessage>

    constructor ()
      ensures modelName == modelVersion == id == "" && inputs == []
    {
      modelName, modelVersion, id, inputs := "", "", "", [];
    }

    function Tensors(): seq<WireTensor>
      reads this, inputs
    {
      seq(|inputs|, i requires 0 <= i < |inputs| reads this, inputs => inputs[i].View())
    }

    function View(): WireRequest
      reads this, inputs
    {
      WireRequest(modelName, modelVersion, id, Tensors())
    }

    method AddInputs() returns (t: TensorMessage)
      modifies this`inputs
      ensures fresh(t) && t.View() == WireTensor("", "", [], EMPTY)
      ensures inputs == old(inputs) + [t]
    {
      t := new TensorMessage();
      inputs := inputs + [t];
    }
  }

  // ---------------------------------------------------------------- request side

  /** The increment of the 32-bit loop index. */
  function Increment(i: U32, size: U64): (next: U32)
    requires i < size < P32
    ensures next == i + 1
  {
    (i + 1) % P32
  }

  /** `contents->Add(data[i])`. */
  method WriteOne(d: DataType, tensor: TensorMessage, data: seq<Byte>, i: U32, size: U64, ghost before: Contents)
    requires Elementwise(d) && i < size < P32 && size * SizeOf(d) <= |data| && i * SizeOf(d) <= |data|
    requires tensor.contents == WrittenUpTo(d, before, data, i)
    modifies tensor`contents
    ensures (i + 1) * SizeOf(d) <= |data|
    ensures tensor.contents == WrittenUpTo(d, before, data, i + 1)
  {
    WriteStep(d, before, data, i, size);
    tensor.contents := Add(tensor.contents, FieldOf(d), Load(d, Slice(data, i, SizeOf(d))));
  }

  /** Where the loop begins and ends. */
  lemma WriteEnds(d: DataType, before: Contents, data: seq<Byte>, size: nat)
    requires Elementwise(d) && size < P32 && size * SizeOf(d) <= |data|
    ensures WrittenUpTo(d, before, data, 0) == before
    ensures WrittenUpTo(d, before, data, size) == Written(d, before, Data(data), size)
  {
  }

  /** The loop of `tensor_data_writer<T>`: the index is 32 bits wide and wraps. */
  method WriteLoop(d: DataType, tensor: TensorMessage, data: seq<Byte>, size: U64)
    requires Elementwise(d) && size < P32 && size * SizeOf(d) <= |data|
    modifies tensor`contents
    ensures tensor.contents == Written(d, old(tensor.contents), Data(data), size)
  {
    WriteEnds(d, tensor.contents, data, size);
    var i: U32 := 0;
    while i < size
      invariant 0 <= i <= size && i * SizeOf(d) <= |data|
      invariant tensor.contents == WrittenUpTo(d, old(tensor.contents), data, i)
      decreases size - i
    {
      WriteOne(d, tensor, data, i, size, old(tensor.contents));
      i := Increment(i, size);
    }
  }

  /** `tensor_data_writer<T>`. */
  method WriteElements(d: DataType, tensor: TensorMessage, data: seq<Byte>, size: U64)
    requires Elementwise(d) && size < P32 && size * SizeOf(d) <= |data|
    modifies tensor`contents
    ensures tensor.contents == Written(d, old(tensor.contents), Data(data), size)
    ensures old(tensor.contents) == Contents([], [], [], [], [], [], [], []) ==> Carries(d, tensor.contents, data, size)
  {
    WriteLoop(d, tensor, data, size);
    WrittenCarries(d, Data(data), size);
  }

  /** The dispatch on the datatype, with the writer. */
  method CallWriter(d: DataType, tensor: TensorMessage, data: Buffer, size: U64)
    requires Writable(d, data, size)
    modifies tensor`contents
    ensures tensor.contents == Written(d, old(tensor.contents), data, size)
    ensures old(tensor.contents) == Contents([], [], [], [], [], [], [], []) ==> Carries(d, tensor.contents, BytesOf(data), size)
  {
    WrittenCarries(d, data, size);
    match d {
      case Fp16 => return;
      case Unknown => return;
      case String => tensor.contents := tensor.contents.(bytes := tensor.contents.bytes + [CString(BytesOf(data))]);
      case _ => WriteElements(d, tensor, BytesOf(data), size);
    }
  }

  method FillTensor(tensor: TensorMessage, t: InferTensor)
    requires Sendable(t) && tensor.View() == WireTensor("", "", [], EMPTY)
    modifies tensor
    ensures tensor.View() == EncodeTensor(t)
    ensures SentAs(t, tensor.View(), RequestCount(t.shape))
  {
    EncodedAsFormat(t);
    tensor.name := t.name;
    tensor.dataType := Str(t.dataType);
    for k := 0 to |t.shape|
      invariant tensor.name == t.name && tensor.dataType == Str(t.dataType) && tensor.contents == EMPTY
      invariant tensor.shape == WireShape(t.shape[..k])
    {
      assert t.shape[..k + 1] == t.shape[..k] + [t.shape[k]];
      tensor.shape := tensor.shape + [ToInt64(t.shape[k])];
    }
    assert t.shape[..|t.shape|] == t.shape;
    var acc := AccumulateInt(t.shape);
    var inputSize: U64 := ToUint64(acc);
    CallWriter(t.dataType, tensor, t.data, inputSize);
  }

  method AddTensor(request: RequestMessage, t: InferTensor) returns (tensor: TensorMessage)
    requires Sendable(t)
    modifies request`inputs
    ensures request.inputs == old(request.inputs) + [tensor]
    ensures fresh(tensor) && tensor.View() == EncodeTensor(t) && SentAs(t, tensor.View(), RequestCount(t.shape))
  {
    tensor := request.AddInputs();
    FillTensor(tensor, t);
  }

  method GetInferRequest(r: InferRequest) returns (request: RequestMessage)
    requires forall t | t in r.inputs :: Sendable(t)
    ensures fresh(request) && fresh(request.inputs) && request.View() == EncodeRequest(r)
    ensures request.modelName == r.modelName && request.modelVersion == r.modelVersion && request.id == r.id
    ensures |request.inputs| == |r.inputs|
    ensures forall i | 0 <= i < |r.inputs| :: SentAs(r.inputs[i], request.inputs[i].View(), RequestCount(r.inputs[i].shape))
  {
    request := new RequestMessage();
    request.modelName := r.modelName;
    request.modelVersion := r.modelVersion;
    request.id := r.id;
    ghost var expected := EncodeRequest(r).inputs;
    for k := 0 to |r.inputs|
      invariant fresh(request) && fresh(request.inputs) && |request.inputs| == k
      invariant request.modelName == r.modelName && request.modelVersion == r.modelVersion && request.id == r.id
      invariant forall i | 0 <= i < k :: request.inputs[i].View() == expected[i]
    {
      assert r.inputs[k] in r.inputs;
      var _ := AddTensor(request, r.inputs[k]);
    }
    assert request.Tensors() == expected;
    RequestAsFormat(r);
    assert forall i | 0 <= i < |r.inputs| :: request.inputs[i].View() == EncodeRequest(r).inputs[i];
  }

  // ---------------------------------------------------------------- response side

  /** `memcpy` into the buffer at offset `at`. */
  method Copy(buffer: array<Byte>, at: nat, source: seq<Byte>)
    requires at + |source| <= buffer.Length
    modifies buffer
    ensures buffer[..] == old(buffer[..at]) + source + old(buffer[at + |source|..])
  {
    forall k | 0 <= k < |source| {
      buffer[at + k] := source[k];
    }
  }

  /** `memcpy` of the low bytes of wire element `i` to slot `i` of the buffer. */
  method ReadOne(d: DataType, contents: seq<int>, i: U32, size: U64, buffer: array<Byte>)
    requires Elementwise(d) && i < size <= |contents| && size < P32 && buffer.Length == size * SizeOf(d)
    requires i * SizeOf(d) <= buffer.Length && buffer[..i * SizeOf(d)] == StoreAll(d, contents, i)
    modifies buffer
    ensures (i + 1) * SizeOf(d) <= buffer.Length && buffer[..(i + 1) * SizeOf(d)] == StoreAll(d, contents, i + 1)
  {
    ReadStep(d, contents, i, size);
    var done := i * SizeOf(d);
    var low := Image(contents[i], WireWidth(FieldOf(d)))[..SizeOf(d)];
    ghost var before := buffer[..done];
    Copy(buffer, done, low);
    assert buffer[..done + |low|] == before + low;
  }

  /** The element loop of the reader, for the narrow integers. */
  method ReadNarrow(d: DataType, contents: seq<int>, size: U64, buffer: array<Byte>)
    requires Elementwise(d) && size <= |contents| && size < P32 && buffer.Length == size * SizeOf(d)
    modifies buffer
    ensures buffer[..] == StoreAll(d, contents, size) && LowBytes(d, contents, buffer[..], size)
  {
    var i: U32 := 0;
    while i < size
      invariant 0 <= i <= size && i * SizeOf(d) <= buffer.Length
      invariant buffer[..i * SizeOf(d)] == StoreAll(d, contents, i)
      decreases size - i
    {
      ReadOne(d, contents, i, size, buffer);
      i := Increment(i, size);
    }
    assert buffer[..buffer.Length] == buffer[..];
    StoredLow(d, contents, size);
  }

  /** The single block copy of the reader, for elements that are as wide on the wire. */
  method ReadBlock(d: DataType, contents: seq<int>, size: U64, buffer: array<Byte>)
    requires Elementwise(d) && WireWidth(FieldOf(d)) == SizeOf(d)
    requires size <= |contents| && buffer.Length == size * SizeOf(d)
    modifies buffer
    ensures buffer[..] == StoreAll(d, contents, size) && LowBytes(d, contents, buffer[..], size)
  {
    BlockCopyIsLoop(d, contents, size);
    Copy(buffer, 0, Memory(contents, WireWidth(FieldOf(d)))[..buffer.Length]);
    StoredLow(d, contents, size);
  }

  /** `tensor_data_reader<T>`: narrow integers are copied one by one, everything else in one block.
      The result is the bytes of the buffer when it is assigned to the tensor. */
  method ReadElements(d: DataType, contents: seq<int>, size: U64) returns (data: seq<Byte>)
    requires Elementwise(d) && size <= |contents| && size * SizeOf(d) < P64 && (Narrow(d) ==> size < P32)
    ensures data == StoreAll(d, contents, size) && LowBytes(d, contents, data, size)
  {
    var bytesToCopy: U64 := (size * SizeOf(d)) % P64;
    assert bytesToCopy == size * SizeOf(d);
    var buffer := new Byte[bytesToCopy];
    if Narrow(d) {
      ReadNarrow(d, contents, size, buffer);
    } else {
      ReadBlock(d, contents, size, buffer);
    }
    data := buffer[..];
  }

  /** The dispatch on the datatype, with the reader. */
  method CallReader(d: DataType, contents: Contents, size: U64) returns (data: Buffer)
    requires Readable(d, contents, size)
    ensures data == ReadBack(d, contents, size) && Restores(d, contents, data, size)
  {
    ReadRestores(d, contents, size);
    if d == Fp16 || d == Unknown {
      return NoData;
    }
    var bytes := ReadElements(d, Elements(contents, FieldOf(d)), size);
    return Data(bytes);
  }

  method GetInferResponse(w: WireResponse) returns (response: InferResponse)
    requires forall t | t in w.outputs :: Receivable(t)
    ensures response == DecodeResponse(w)
    ensures response.modelName == w.modelName && response.modelVersion == w.modelVersion && response.id == w.id
    ensures |response.outputs| == |w.outputs|
    ensures forall i | 0 <= i < |w.outputs| :: ReceivedAs(w.outputs[i], response.outputs[i], SizeProduct(w.outputs[i].shape))
  {
    response := InferResponse(w.modelName, w.modelVersion, w.id, []);
    for k := 0 to |w.outputs|
      invariant (response.modelName, response.modelVersion, response.id) == (w.modelName, w.modelVersion, w.id)
      invariant |response.outputs| == k
      invariant forall i | 0 <= i < k :: response.outputs[i] == DecodeTensor(w.outputs[i])
    {
      var output := w.outputs[k];
      assert output in w.outputs;
      var d := FromString(output.dataType);
      var shape: seq<U64> := [];
      for j := 0 to |output.shape|
        invariant shape == ClientShape(output.shape[..j])
      {
        assert output.shape[..j + 1] == output.shape[..j] + [output.shape[j]];
        shape := shape + [ToUint64(output.shape[j])];
      }
      assert output.shape[..|output.shape|] == output.shape;
      var outputSize := AccumulateSize(output.shape);
      var data := CallReader(d, output.contents, outputSize);
      response := response.(outputs := response.outputs + [InferTensor(output.name, shape, d, data)]);
    }
    ResponseAsFormat(w);
  }

  /** The converter over the wire and back, as a client sees it. */
  method RoundTrip(r: InferRequest) returns (response: InferResponse)
    requires forall t | t in r.inputs :: Elementwise(t.dataType) && Intact(t)
    ensures response == InferResponse(r.modelName, r.modelVersion, r.id, r.inputs)
  {
    EndToEnd(r);
    var request := GetInferRequest(r);
    response := GetInferResponse(Echo(request.View()));
  }
}
