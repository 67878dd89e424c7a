/** The CPU side of mediapipe::Tensor that the calculator relies on: an element-type
    tag, a shape, and a buffer written element by element through a CPU write view. */
module Tensors {

  /** IEEE-754 binary32 values, represented by their 32-bit pattern: the calculator only
      copies them, so NaN payloads and infinities are carried unchanged. */
  newtype float32 = b: int | 0 <= b < 0x1_0000_0000
  newtype uint8 = x: int | 0 <= x < 0x100
  newtype int8 = x: int | -0x80 <= x < 0x80
  newtype int32 = x: int | -0x8000_0000 <= x < 0x8000_0000
  /** A C++ `char`, as its 8-bit code (its signedness plays no part in a copy). */
  newtype char8 = x: int | 0 <= x < 0x100

  /** Tensor::ElementType, restricted to the tags a vector can be converted to. */
  datatype ElementType = Float32 | UInt8 | Int8 | Int32 | Char | Bool

  /** One element of a tensor's memory, holding a value of one of the element types. */
  datatype Element =
    | F32(f: float32)
    | U8(u8: uint8)
    | I8(i8: int8)
    | I32(i32: int32)
    | Ch(ch: char8)
    | B(b: bool)

  function TypeOf(e: Element): ElementType
  {
    match e
    case F32(_) => Float32
    case U8(_) => UInt8
    case I8(_) => Int8
    case I32(_) => Int32
    case Ch(_) => Char
    case B(_) => Bool
  }

  /** The element a freshly allocated buffer of type `t` starts with. */
  function Zero(t: ElementType): (e: Element)
    ensures TypeOf(e) == t
  {
    match t
    case Float32 => F32(0)
    case UInt8 => U8(0)
    case Int8 => I8(0)
    case Int32 => I32(0)
    case Char => Ch(0)
    case Bool => B(false)
  }

  /** The number of elements a shape describes: the product of its dimensions. */
  function NumElements(dims: seq<int>): (n: int)
    ensures (forall i :: 0 <= i < |dims| ==> dims[i] >= 0) ==> n >= 0
  {
    if dims == [] then 1 else dims[0] * NumElements(dims[1..])
  }

  /** A single row of n elements holds n elements. */
  lemma NumElementsOfRow(n: int)
    ensures NumElements([1, n]) == n
  {
    var row := [1, n];
    assert row[1..] == [n] && row[1..][1..] == [];
    assert NumElements(row[1..]) == n * NumElements([]);
  }

  /** The observable state of a tensor. */
  datatype TensorValue = TensorValue(elementType: ElementType, shape: seq<int>, elements: seq<Element>)

  /** Every element of `elements` is of type `t`. */
  predicate AllOfType(elements: seq<Element>, t: ElementType)
  {
    forall i :: 0 <= i < |elements| ==> TypeOf(elements[i]) == t
  }

  /** A tensor's buffer holds exactly as many elements as its shape implies,
      all of its declared element type. */
  predicate WellFormed(v: TensorValue)
  {
    |v.elements| == NumElements(v.shape) && AllOfType(v.elements, v.elementType)
  }

  class Tensor {
    const elementType: ElementType
    const shape: seq<int>
    /** The CPU memory of the tensor. */
    const buffer: array<Element>

    function Value(): TensorValue
      reads buffer
    {
      TensorValue(elementType, shape, buffer[..])
    }

    ghost predicate Valid()
      reads buffer
    {
      WellFormed(Value())
    }

    /** Creates a tensor of the given element type and shape, allocating a
        buffer of NumElements(shape) elements of that type. */
    constructor (elementType: ElementType, shape: seq<int>)
      requires forall i :: 0 <= i < |shape| ==> shape[i] >= 0
      ensures Valid() && fresh(buffer)
      ensures this.elementType == elementType && this.shape == shape
      ensures buffer.Length == NumElements(shape)
    {
      this.elementType := elementType;
      this.shape := shape;
      buffer := new Element[NumElements(shape)](_ => Zero(elementType));
    }

    /** Stores `e` at index `i` through the CPU write view, whose typed buffer
        only admits elements of the tensor's own type. */
    method Write(i: nat, e: Element)
      requires Valid() && i < buffer.Length && TypeOf(e) == elementType
      modifies buffer
      ensures Valid()
      ensures buffer[..] == old(buffer[..])[i := e]
    {
      buffer[i] := e;
    }
  }
}
