# VectorToTensorCalculator, modelled in Dafny

MediaPipe's `VectorToTensorCalculator` is a graph node with one input port, `"VECTOR"`, and one
output port, `"TENSOR"`. The input packet holds one of six vector types: `std::vector` of `float`,
`uint8_t`, `int8_t`, `int32_t`, `char` or `bool`. On each invocation, `Process` checks the packet's
type against these six in a fixed order. It rejects an empty vector. Otherwise it allocates a tensor
of shape `[1, N]` whose element type matches the vector, copies the N elements into the tensor's CPU
memory in order, and sends the tensor. Any error is returned unchanged and nothing is sent.

The project has three files:

- `absl_status.dfy` (module `AbslStatus`): the `absl::Status` / `absl::StatusOr` values the node returns.
- `tensor.dfy` (module `Tensors`): the parts of `mediapipe::Tensor` the node uses.
  - Scalar types: `float32` is a 32-bit pattern, plus `uint8`, `int8`, `int32` and `char8`.
  - `ElementType` tags and the `Element` cells of tensor memory.
  - The `Tensor` class: constant element type, constant shape, and an `array` buffer. `Write` is the
    typed CPU write view, so it only accepts elements of the tensor's own type.
- `vector_to_tensor_calculator.dfy` (module `VectorToTensorCalculator`): the node itself.
  - The packet payload `VectorIn`: the six supported vectors, plus `OtherType` for any other type.
  - `Has`, the type test.
  - `Conversion`, a declarative reference definition of the conversion result.
  - The methods `CopyVectorToNewTensor` (a loop filling the buffer), `ConvertVectorToTensor` (the
    chain of type tests), `Open` and `Process`.
  - `CalculatorContext`: the input packet, and the output stream as a sequence of sent tensors.
  - Lemmas about `Conversion`.

The two methods are proved against `Conversion`. The shape, element type, round trip and error
properties are proved as lemmas about `Conversion`. The template `CopyVectorToNewTensor<VectorT, TensorT>`
becomes a generic method. It takes the element-type tag, and a function `store` that writes a `VectorT`
into a tensor cell of that tag.

`ConvertVectorToTensor` is a method, not a function, because it returns a newly allocated tensor.

The failure of `RET_CHECK_GT(input.size(), 0)` is modelled with code `Internal` and message
`"Input vector is empty"`. The unsupported-type failure has code `InvalidArgument` and message
`"Unsupported type"`.

## Model

| member | source | states |
|---|---|---|
| `VectorToTensorCalculator.CopyVectorToNewTensor` | mediapipe/calculators/tensor/vector_to_tensor_calculator.cc:74-84 | Fails, with the "Input vector is empty" error, exactly when the input is empty. Otherwise it returns a newly allocated tensor, with a newly allocated buffer. The tensor is well-formed, with the given element type, shape `[1, N]`, and buffer element i equal to input element i stored as that type, for every i < N. |
| `VectorToTensorCalculator.ConvertVectorToTensor` | mediapipe/calculators/tensor/vector_to_tensor_calculator.cc:86-113 | The chain of `Has` tests produces what `Conversion` defines. That is a newly allocated tensor, with a newly allocated buffer, whose value is the converted one, or exactly the same error. |
| `VectorToTensorCalculator.Process` | mediapipe/calculators/tensor/vector_to_tensor_calculator.cc:115-119 | If conversion fails, it returns that error and the output stream is unchanged. If it succeeds, it returns OK and appends exactly one tensor, keeping all earlier outputs. The appended tensor and its buffer are newly allocated, and its value is the converted one. |
| `VectorToTensorCalculator.Open` | mediapipe/calculators/tensor/vector_to_tensor_calculator.cc:70-72 | Always returns OK and changes no state, since it has no modifies clause. |
| `VectorToTensorCalculator.Has` | mediapipe/calculators/tensor/vector_to_tensor_calculator.cc:88-108 | The type test holds exactly when the packet holds a supported vector and that vector's type is the one asked for. |
| `VectorToTensorCalculator.TensorTypeFor` | mediapipe/calculators/tensor/vector_to_tensor_calculator.cc:89-110 | The tag paired with each vector type is the type of every element that the conversion of such a vector stores. |
| `Tensors.NumElements` | mediapipe/calculators/tensor/vector_to_tensor_calculator.cc:80 | Stands for the element count of a tensor shape. That function lives in `mediapipe/framework/formats/tensor.h`, which is not part of this model; the source reaches it through the tensor construction here. The product of dimensions is non-negative whenever every dimension is. |
| `VectorToTensorCalculator.CalculatorContext.Send` | mediapipe/calculators/tensor/vector_to_tensor_calculator.cc:117 | Appends the tensor to the output stream. |
| `VectorToTensorCalculator.ConversionFailsIff` | mediapipe/calculators/tensor/vector_to_tensor_calculator.cc:77-112 | Conversion fails if and only if the packet holds an unsupported type or an empty vector. The error is "Unsupported type" (InvalidArgument) in the first case and "Input vector is empty" in the second. |
| `VectorToTensorCalculator.ConversionShape` | mediapipe/calculators/tensor/vector_to_tensor_calculator.cc:78-80 | A successful conversion has a supported, non-empty input. The shape has exactly two dimensions, `[1, N]`. The element type corresponds to the vector type, and the buffer holds exactly NumElements(shape) elements of that type. |
| `VectorToTensorCalculator.ConversionRoundTrip` | mediapipe/calculators/tensor/vector_to_tensor_calculator.cc:81-82 | For every supported non-empty input, reading the tensor back through a read view of its own element type gives the input vector. Nothing is reordered, truncated, padded or numerically converted. |
| `VectorToTensorCalculator.ConversionInjective` | mediapipe/calculators/tensor/vector_to_tensor_calculator.cc:88-111 | Two packets that convert successfully to the same tensor are the same packet. |
| `VectorToTensorCalculator.TensorTypeForInjective` | mediapipe/calculators/tensor/vector_to_tensor_calculator.cc:88-111 | The map float to Float32, uint8 to UInt8, int8 to Int8, int32 to Int32, char to Char, bool to Bool is one-to-one. |
| `VectorToTensorCalculator.DispatchExclusive` | mediapipe/calculators/tensor/vector_to_tensor_calculator.cc:51-53 | A packet passes some `Has` test of SupportedInputVectors if and only if it is supported, and no packet passes two of them. So the first match in the fixed test order is the only match. |
| `Tensors.NumElementsOfRow` | mediapipe/calculators/tensor/vector_to_tensor_calculator.cc:78-80 | A shape `[1, N]` describes exactly N elements. |
| `Tensors.Tensor.constructor` | mediapipe/calculators/tensor/vector_to_tensor_calculator.cc:80 | Allocates a fresh, well-typed buffer of NumElements(shape) elements, with the given element type and shape. |
| `Tensors.Tensor.Write` | mediapipe/calculators/tensor/vector_to_tensor_calculator.cc:81-82 | Writing through the CPU write view changes exactly one element, and requires that element to have the tensor's type. |

## Left out

- `VectorToTensorCalculator.CopyVectorToNewTensor`: the model requires the vector length to be at most `INT_MAX`. Above that, `static_cast<int>(input.size())` does not preserve the length, and what `Tensor` does with the resulting dimension depends on `mediapipe/framework/formats/tensor.h`, which is not part of this model. `ConvertVectorToTensor` and `Process` carry the same requirement (`FitsInt`).
- The `RET_CHECK` failure message is only the user's text, "Input vector is empty". The source-location prefix that `RET_CHECK` adds is not modelled, and its `Internal` code follows MediaPipe's `RET_CHECK` convention; `ret_check.h` is not part of this model.
- GPU views, lazy host-to-device copies and the view caching of `Tensor` are not modelled. Only the CPU write view is, as `Tensor.Write`.
- Scoped acquisition and release of views is not modelled. The write view is the buffer itself.
- A new tensor's buffer starts with the zero element of its type. C++ leaves it uninitialised. Either way every element is overwritten before the tensor is returned.
- `Tensor::ElementType` values other than the six a vector can be converted to (for example float16 or int64) are not modelled.
- Float semantics are not modelled. A `float` is its 32-bit pattern, and the node only copies it.
- The bit-packing of `std::vector<bool>` is not modelled. The input is a `seq<bool>`.
- The graph framework is not modelled: packet reference counting, timestamp propagation to the sent packet, `MEDIAPIPE_NODE_CONTRACT` / `MEDIAPIPE_REGISTER_NODE`, the scheduler, and the unused `Close` hook. `Send` appends to the context's output sequence.
- An empty input packet, or one of any type outside the `OneOf`, is represented by `OtherType`. Both fail every `Has` test.
