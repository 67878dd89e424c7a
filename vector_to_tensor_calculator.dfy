/** VectorToTensorCalculator: a graph node that turns a packet holding one of six
    vector types into a tensor of shape [1, N] with the matching element type. */
module VectorToTensorCalculator {
  import opened AbslStatus
  import opened Tensors

  /** The largest value of a C++ `int`, the type of a tensor dimension. */
  const INT_MAX: int := 0x7fff_ffff

  /** The payload of the "VECTOR" input packet. The first six constructors are the
      members of SupportedInputVectors; OtherType stands for a packet holding any
      other type, which only the defensive branch of the dispatch sees. */
  datatype VectorIn =
    | FloatVector(floats: seq<float32>)
    | UInt8Vector(uint8s: seq<uint8>)
    | Int8Vector(int8s: seq<int8>)
    | Int32Vector(int32s: seq<int32>)
    | CharVector(chars: seq<char8>)
    | BoolVector(bools: seq<bool>)
    | OtherType(typeName: string)

  /** The C++ types a packet can be queried for with `Has<T>()`. */
  datatype VectorType = FloatVec | UInt8Vec | Int8Vec | Int32Vec | CharVec | BoolVec

  /** SupportedInputVectors, in the order ConvertVectorToTensor tests them. */
  const SupportedInputVectors: seq<VectorType> := [FloatVec, UInt8Vec, Int8Vec, Int32Vec, CharVec, BoolVec]

  /** The type test on the input packet: whether it holds a vector of type `t`. */
  predicate Has(input: VectorIn, t: VectorType)
    ensures Has(input, t) <==> Supported(input) && TypeOfInput(input) == t
  {
    match t
    case FloatVec => input.FloatVector?
    case UInt8Vec => input.UInt8Vector?
    case Int8Vec => input.Int8Vector?
    case Int32Vec => input.Int32Vector?
    case CharVec => input.CharVector?
    case BoolVec => input.BoolVector?
  }

  /** The tensor element type each vector type is converted to: the type of
      every element that the conversion of such a vector stores. */
  function TensorTypeFor(t: VectorType): (r: ElementType)
    ensures forall input :: Supported(input) && TypeOfInput(input) == t ==> AllOfType(Elements(input), r)
  {
    match t
    case FloatVec => Float32
    case UInt8Vec => UInt8
    case Int8Vec => Int8
    case Int32Vec => Int32
    case CharVec => Char
    case BoolVec => Bool
  }

  predicate Supported(input: VectorIn)
  {
    !input.OtherType?
  }

  function TypeOfInput(input: VectorIn): VectorType
    requires Supported(input)
  {
    match input
    case FloatVector(_) => FloatVec
    case UInt8Vector(_) => UInt8Vec
    case Int8Vector(_) => Int8Vec
    case Int32Vector(_) => Int32Vec
    case CharVector(_) => CharVec
    case BoolVector(_) => BoolVec
  }

  /** The number of elements of the vector a packet holds. */
  function Length(input: VectorIn): nat
  {
    match input
    case FloatVector(s) => |s|
    case UInt8Vector(s) => |s|
    case Int8Vector(s) => |s|
    case Int32Vector(s) => |s|
    case CharVector(s) => |s|
    case BoolVector(s) => |s|
    case OtherType(_) => 0
  }

  /** The vector's length fits a C++ `int`, so the cast that makes it a tensor
      dimension keeps its value. */
  predicate FitsInt(input: VectorIn)
  {
    Length(input) <= INT_MAX
  }

  /** The elements of `s`, each stored as a tensor element by `store`. */
  function Stored<T>(s: seq<T>, store: T -> Element): seq<Element>
  {
    seq(|s|, i requires 0 <= i < |s| => store(s[i]))
  }

  /** The elements of the vector a supported packet holds, as tensor elements. */
  function Elements(input: VectorIn): seq<Element>
    requires Supported(input)
  {
    match input
    case FloatVector(s) => Stored(s, x => F32(x))
    case UInt8Vector(s) => Stored(s, x => U8(x))
    case Int8Vector(s) => Stored(s, x => I8(x))
    case Int32Vector(s) => Stored(s, x => I32(x))
    case CharVector(s) => Stored(s, x => Ch(x))
    case BoolVector(s) => Stored(s, x => B(x))
  }

  /** The error of the check that rejects an empty vector. */
  const EmptyInputError: Error := Error(Internal, "Input vector is empty")
  /** The error for a packet that holds none of the supported vector types. */
  const UnsupportedTypeError: Error := Error(InvalidArgument, "Unsupported type")

  /** What converting a packet yields: the reference definition that
      ConvertVectorToTensor is proved to implement. */
  function Conversion(input: VectorIn): StatusOr<TensorValue>
  {
    if !Supported(input) then Failure(UnsupportedTypeError)
    else if Length(input) == 0 then Failure(EmptyInputError)
    else Success(TensorValue(TensorTypeFor(TypeOfInput(input)), [1, Length(input)], Elements(input)))
  }

  /** Reading a tensor back through a CPU read view of its own element type,
      as a vector of the corresponding type. */
  function ReadAsVector(v: TensorValue): VectorIn
    requires AllOfType(v.elements, v.elementType)
  {
    var e := v.elements;
    match v.elementType
    case Float32 => FloatVector(seq(|e|, i requires 0 <= i < |e| => e[i].f))
    case UInt8 => UInt8Vector(seq(|e|, i requires 0 <= i < |e| => e[i].u8))
    case Int8 => Int8Vector(seq(|e|, i requires 0 <= i < |e| => e[i].i8))
    case Int32 => Int32Vector(seq(|e|, i requires 0 <= i < |e| => e[i].i32))
    case Char => CharVector(seq(|e|, i requires 0 <= i < |e| => e[i].ch))
    case Bool => BoolVector(seq(|e|, i requires 0 <= i < |e| => e[i].b))
  }

  /** Copies a vector into a newly allocated tensor of shape [1, N]. The element
      type of the vector is `T`; `store` writes one of its values into a tensor
      element of type `tensorType`. */
  method CopyVectorToNewTensor<T>(input: seq<T>, tensorType: ElementType, store: T -> Element)
      returns (r: StatusOr<Tensor>)
    requires forall x :: TypeOf(store(x)) == tensorType
    requires |input| <= INT_MAX
    ensures r.Failure? <==> |input| == 0
    ensures r.Failure? ==> r.error == EmptyInputError
    ensures r.Success? ==> fresh(r.value) && fresh(r.value.buffer) && r.value.Valid()
    ensures r.Success? ==> r.value.Value() == TensorValue(tensorType, [1, |input|], Stored(input, store))
  {
    if |input| == 0 {
      return Failure(EmptyInputError);
    }
    var dimensions := [1, |input|];
    NumElementsOfRow(|input|);
    var tensor := new Tensor(tensorType, dimensions);
    var i := 0;
    while i < |input|
      invariant 0 <= i <= |input| == tensor.buffer.Length
      invariant tensor.Valid()
      invariant forall k :: 0 <= k < i ==> tensor.buffer[k] == store(input[k])
    {
      tensor.Write(i, store(input[i]));
      i := i + 1;
    }
    assert tensor.buffer[..] == Stored(input, store);
    return Success(tensor);
  }

  /** Tests the packet against each supported vector type in turn and converts on
      the first match into a newly allocated tensor; a packet of any other type is
      rejected. */
  method ConvertVectorToTensor(input: VectorIn) returns (r: StatusOr<Tensor>)
    requires FitsInt(input)
    ensures match Conversion(input)
      case Success(v) =>
        r.Success? && fresh(r.value) && fresh(r.value.buffer) && r.value.Valid() && r.value.Value() == v
      case Failure(e) => r == Failure(e)
  {
    if Has(input, FloatVec) {
      r := CopyVectorToNewTensor(input.floats, Float32, x => F32(x));
      return;
    }
    if Has(input, UInt8Vec) {
      r := CopyVectorToNewTensor(input.uint8s, UInt8, x => U8(x));
      return;
    }
    if Has(input, Int8Vec) {
      r := CopyVectorToNewTensor(input.int8s, Int8, x => I8(x));
      return;
    }
    if Has(input, Int32Vec) {
      r := CopyVectorToNewTensor(input.int32s, Int32, x => I32(x));
      return;
    }
    if Has(input, CharVec) {
      r := CopyVectorToNewTensor(input.chars, Char, x => Ch(x));
      return;
    }
    if Has(input, BoolVec) {
      r := CopyVectorToNewTensor(input.bools, Bool, x => B(x));
      return;
    }
    return Failure(UnsupportedTypeError);
  }

  /** The part of CalculatorContext the node uses: the packet on the "VECTOR"
      input and the tensors sent so far on the "TENSOR" output. */
  class CalculatorContext {
    var input: VectorIn
    var tensorOutput: seq<Tensor>

    constructor (input: VectorIn)
      ensures this.input == input && tensorOutput == []
    {
      this.input := input;
      tensorOutput := [];
    }

    /** Sends a tensor on the "TENSOR" output, handing it over to the stream. */
    method Send(tensor: Tensor)
      modifies this`tensorOutput
      ensures tensorOutput == old(tensorOutput) + [tensor]
    {
      tensorOutput := tensorOutput + [tensor];
    }
  }

  /** Nothing to set up: opening always succeeds. */
  method Open(cc: CalculatorContext) returns (s: Status)
    ensures s == OkStatus
  {
    return OkStatus;
  }

  /** Converts the input packet and sends the new tensor, or returns the
      conversion's error and sends nothing. */
  method Process(cc: CalculatorContext) returns (s: Status)
    requires FitsInt(cc.input)
    modifies cc`tensorOutput
    ensures match Conversion(cc.input)
      case Failure(e) =>
        s == ErrorStatus(e) && cc.tensorOutput == old(cc.tensorOutput)
      case Success(v) =>
        && s == OkStatus
        && |cc.tensorOutput| == |old(cc.tensorOutput)| + 1
        && cc.tensorOutput[..|old(cc.tensorOutput)|] == old(cc.tensorOutput)
        && fresh(cc.tensorOutput[|old(cc.tensorOutput)|])
        && fresh(cc.tensorOutput[|old(cc.tensorOutput)|].buffer)
        && cc.tensorOutput[|old(cc.tensorOutput)|].Valid()
        && cc.tensorOutput[|old(cc.tensorOutput)|].Value() == v
  {
    var tensor := ConvertVectorToTensor(cc.input);
    if tensor.Failure? {
      return ErrorStatus(tensor.error);
    }
    cc.Send(tensor.value);
    return OkStatus;
  }

  // Properties of the conversion

  /** Conversion fails exactly on an unsupported packet or an empty vector,
      with the error of the check that rejected it. */
  lemma ConversionFailsIff(input: VectorIn)
    ensures Conversion(input).Failure? <==> !Supported(input) || Length(input) == 0
    ensures !Supported(input) ==> Conversion(input) == Failure(UnsupportedTypeError)
    ensures Supported(input) && Length(input) == 0 ==> Conversion(input) == Failure(EmptyInputError)
  {
  }

  /** A converted tensor has shape [1, N], exactly N elements, all of the element
      type that corresponds to the packet's vector type. */
  lemma ConversionShape(input: VectorIn)
    requires Conversion(input).Success?
    ensures Supported(input) && Length(input) > 0
    ensures Conversion(input).value.shape == [1, Length(input)]
    ensures |Conversion(input).value.shape| == 2
    ensures Conversion(input).value.elementType == TensorTypeFor(TypeOfInput(input))
    ensures WellFormed(Conversion(input).value)
  {
    var v := Conversion(input).value;
    NumElementsOfRow(Length(input));
    assert AllOfType(v.elements, v.elementType) by {
      match input
      case FloatVector(s) =>
      case UInt8Vector(s) =>
      case Int8Vector(s) =>
      case Int32Vector(s) =>
      case CharVector(s) =>
      case BoolVector(s) =>
    }
  }

  /** Round trip: reading a converted tensor back through a read view of its element
      type reproduces the input vector, element for element and in order. */
  lemma ConversionRoundTrip(input: VectorIn)
    requires Supported(input) && Length(input) > 0
    ensures Conversion(input).Success?
    ensures AllOfType(Conversion(input).value.elements, Conversion(input).value.elementType)
    ensures ReadAsVector(Conversion(input).value) == input
  {
  }

  /** No two different packets convert to the same tensor. */
  lemma ConversionInjective(a: VectorIn, b: VectorIn)
    requires Conversion(a).Success? && Conversion(a) == Conversion(b)
    ensures a == b
  {
    ConversionShape(a);
    ConversionShape(b);
    ConversionRoundTrip(a);
    ConversionRoundTrip(b);
  }

  /** The element-type correspondence is one-to-one: no vector type is converted
      into another's element type. */
  lemma TensorTypeForInjective(t: VectorType, u: VectorType)
    ensures TensorTypeFor(t) == TensorTypeFor(u) <==> t == u
  {
  }

  /** Exactly one branch of the dispatch applies to a supported packet, and none
      to any other: the first type in SupportedInputVectors that the packet has is
      its only one. */
  lemma DispatchExclusive(input: VectorIn)
    ensures Supported(input) <==> exists k :: 0 <= k < |SupportedInputVectors| && Has(input, SupportedInputVectors[k])
    ensures forall j, k ::
      (0 <= j < |SupportedInputVectors| && 0 <= k < |SupportedInputVectors| &&
       Has(input, SupportedInputVectors[j]) && Has(input, SupportedInputVectors[k])) ==> j == k
    ensures Supported(input) ==> Has(input, TypeOfInput(input))
  {
    if Supported(input) {
      var k := match input
        case FloatVector(_) => 0
        case UInt8Vector(_) => 1
        case Int8Vector(_) => 2
        case Int32Vector(_) => 3
        case CharVector(_) => 4
        case BoolVector(_) => 5;
      assert Has(input, SupportedInputVectors[k]);
    }
  }

  /** The concrete scenarios a user of the node expects. */
  method Scenarios()
  {
    var cc := new CalculatorContext(UInt8Vector([255, 0, 128]));
    var s := Open(cc);
    assert s == OkStatus;
    s := Process(cc);
    assert Elements(cc.input) == [U8(255), U8(0), U8(128)];
    assert s == OkStatus && |cc.tensorOutput| == 1;
    assert cc.tensorOutput[0].Value() == TensorValue(UInt8, [1, 3], [U8(255), U8(0), U8(128)]);

    cc.input := BoolVector([true, false, true]);
    s := Process(cc);
    assert s == OkStatus && |cc.tensorOutput| == 2 && cc.tensorOutput[0] != cc.tensorOutput[1];

    cc.input := Int32Vector([]);
    s := Process(cc);
    assert s == ErrorStatus(EmptyInputError) && |cc.tensorOutput| == 2;

    cc.input := OtherType("std::vector<double>");
    s := Process(cc);
    assert s == ErrorStatus(UnsupportedTypeError) && |cc.tensorOutput| == 2;
  }
}
