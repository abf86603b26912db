/** The part of the host graph the layout passes read and build: operator
    attributes, dataflow values, the four ARM operators and a rewrite. */
module Graph {
  import opened Wrappers
  import opened Shapes

  /** A signed 64-bit integer, the type of MaxPool-8's axis attribute. */
  newtype int64 = x: int | -0x8000_0000_0000_0000 <= x < 0x8000_0000_0000_0000

  datatype PadType = Explicit | SameLower | SameUpper | Valid
  datatype RoundingType = Floor | Ceil
  datatype IndexType = I32 | I64

  /** Convolution attributes; pads are signed coordinate differences. */
  datatype ConvAttrs = ConvAttrs(
    strides: seq<nat>, padsBegin: seq<int>, padsEnd: seq<int>,
    dilations: seq<nat>, autoPad: PadType)

  datatype MaxPoolV1Attrs = MaxPoolV1Attrs(
    strides: seq<nat>, padsBegin: seq<nat>, padsEnd: seq<nat>,
    kernel: seq<nat>, rounding: RoundingType, autoPad: PadType)

  datatype MaxPoolV8Attrs = MaxPoolV8Attrs(
    strides: seq<nat>, dilations: seq<nat>, padsBegin: seq<nat>, padsEnd: seq<nat>,
    kernel: seq<nat>, rounding: RoundingType, autoPad: PadType,
    indexType: IndexType, axis: int64)

  datatype AvgPoolAttrs = AvgPoolAttrs(
    strides: seq<nat>, padsBegin: seq<nat>, padsEnd: seq<nat>,
    kernel: seq<nat>, excludePad: bool, rounding: RoundingType, autoPad: PadType)

  /** A dataflow value: output `port` of some node outside the rewrite, or a
      Transpose node applied to a value with the given input order. */
  datatype Value =
    | Output(producer: nat, port: nat)
    | Transposed(arg: Value, order: seq<int>)

  /** The operator of a node with its inputs and attributes. `OtherOp` stands
      for every operator none of the passes matches. */
  datatype Op =
    | ArmConvolution(data: Value, weights: Value, bias: Option<Value>, conv: ConvAttrs)
    | ArmMaxPoolV1(data: Value, maxV1: MaxPoolV1Attrs)
    | ArmMaxPoolV8(data: Value, maxV8: MaxPoolV8Attrs)
    | ArmAvgPool(data: Value, avg: AvgPoolAttrs)
    | OtherOp(inputs: seq<Value>)

  /** A node: its operator, the partial shape of output 0, its friendly name. */
  datatype Node = Node(op: Op, shape: PartialShape, name: string)

  /** A Transpose node inserted after output `port` of the rebuilt operator;
      it replaces the original node's output of the same position. */
  datatype OutputTranspose = OutputTranspose(port: nat, order: seq<int>, name: string)

  /** What a successful pass builds: the rebuilt operator, the output shape it
      is constructed with, and the transposes that replace the old outputs in
      order. The rebuilt operator's own friendly name is assigned by the host. */
  datatype Rewrite = Rewrite(op: Op, shape: Shape, outputs: seq<OutputTranspose>)
}
