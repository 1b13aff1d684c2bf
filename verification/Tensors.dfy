/** Tensors as the converters see them: a stack of rows along the first dimension. */
module Tensors {

  datatype Tensor = Scalar(value: int) | Stack(rows: seq<Tensor>)

  /** A named tensor of the output. */
  datatype Out = Out(name: string, value: Tensor)
}
