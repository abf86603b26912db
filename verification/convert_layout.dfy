/** The four matcher callbacks that move a convolution or pooling node to
    channel-last layout and restore channel-first on its outputs. */
module ConvertLayout {
  import opened Wrappers
  import opened Shapes
  import opened Permutations
  import opened Graph

  const UnsupportedRank: string := "ConvertLayout: unsupported rank"

  /** Wraps an input in the channel-first to channel-last Transpose; throws
      for a rank other than 4 or 5. */
  function TransposeOnInput(input: Value, rank: nat): (r: Result<Value, string>)
    ensures r.Success? <==> SupportedRank(rank)
    ensures r.Failure? ==> r.error == UnsupportedRank
    ensures r.Success? ==> r.value.Transposed? && r.value.arg == input
    ensures r.Success? ==> |r.value.order| == rank && IsPermutation(r.value.order)
    ensures r.Success? ==> r.value.order == ToChannelLast(rank)
  {
    match rank
    case 4 => Success(Transposed(input, NchwToNhwc))
    case 5 => Success(Transposed(input, NcdhwToNdhwc))
    case _ => Failure(UnsupportedRank)
  }

  /** Wraps an output in the channel-last to channel-first Transpose; throws
      for a rank other than 4 or 5. */
  function TransposeOnOutput(input: Value, rank: nat): (r: Result<Value, string>)
    ensures r.Success? <==> SupportedRank(rank)
    ensures r.Failure? ==> r.error == UnsupportedRank
    ensures r.Success? ==> r.value.Transposed? && r.value.arg == input
    ensures r.Success? ==> |r.value.order| == rank && IsPermutation(r.value.order)
    ensures r.Success? ==> r.value.order == ToChannelFirst(rank)
  {
    match rank
    case 4 => Success(Transposed(input, NhwcToNchw))
    case 5 => Success(Transposed(input, NdhwcToNcdhw))
    case _ => Failure(UnsupportedRank)
  }

  /** The orders the two helpers insert for one rank undo each other, in
      both directions. */
  lemma TransposeHelpersInverse(x: Value, y: Value, rank: nat)
    requires SupportedRank(rank)
    ensures var forward := TransposeOnInput(x, rank).value.order;
      var backward := TransposeOnOutput(y, rank).value.order;
      && Permute(forward, backward) == Identity(rank)
      && Permute(backward, forward) == Identity(rank)
  {
    TablesAreInverse(rank);
  }

  /** The table `transpose_output_shape` indexes with: rank 4 picks the
      4-D table and every other rank the 5-D one. */
  function ShapeOrder(rank: nat): seq<int> {
    if rank == 4 then NchwToNhwc else NcdhwToNdhwc
  }

  /** Builds the channel-last output shape, one dimension per position
      below `rank`. `transpose_output_shape` in convert_layout.cpp reads
      perm[i] and shape[perm[i]] without bounds checks, so both reads must be
      in bounds. */
  method TransposeOutputShape(shape: Shape, rank: nat) returns (r: Shape)
    requires rank <= |ShapeOrder(rank)|
    requires IndicesIn(ShapeOrder(rank)[..rank], |shape|)
    ensures |r| == rank
    ensures forall i :: 0 <= i < rank ==> r[i] == shape[ShapeOrder(rank)[i]]
    ensures rank == |shape| && SupportedRank(rank) ==> r == Permute(shape, ToChannelLast(rank))
    ensures rank == |shape| && SupportedRank(rank) ==> r[rank - 1] == shape[1]
  {
    var perm := ShapeOrder(rank);
    r := [];
    var i := 0;
    while i < rank
      invariant 0 <= i <= rank
      invariant |r| == i
      invariant forall k :: 0 <= k < i ==> r[k] == shape[perm[k]]
    {
      assert perm[..rank][i] == perm[i];
      r := r + [shape[perm[i]]];
      i := i + 1;
    }
  }

  /** The shape the rebuilt operator is constructed with. */
  function ChannelLastShape(shape: Shape): (r: Shape)
    requires SupportedRank(|shape|)
    ensures r == [shape[0]] + shape[2..] + [shape[1]]
  {
    ChannelMovesLast(shape);
    Permute(shape, ToChannelLast(|shape|))
  }

  /** The output rank of a node whose rank is static. */
  function RankOf(node: Node): nat
    requires node.shape.Ranked?
  {
    |node.shape.dims|
  }

  /** `v` is `original` behind the channel-last Transpose of `rank`. */
  predicate ChannelLastInput(v: Value, original: Value, rank: nat)
    requires SupportedRank(rank)
  {
    v == Transposed(original, ToChannelLast(rank))
  }

  /** `t` restores channel-first on output `port` and carries `name`. */
  predicate RestoresOutput(t: OutputTranspose, port: nat, rank: nat, name: string)
    requires SupportedRank(rank)
  {
    t == OutputTranspose(port, ToChannelFirst(rank), name)
  }

  // ---- pattern roots: operator type with a static output rank ----

  predicate ConvolutionPattern(node: Node) {
    node.op.ArmConvolution? && node.shape.Ranked?
  }

  predicate MaxPoolV1Pattern(node: Node) {
    node.op.ArmMaxPoolV1? && node.shape.Ranked?
  }

  predicate MaxPoolV8Pattern(node: Node) {
    node.op.ArmMaxPoolV8? && node.shape.Ranked?
  }

  predicate AvgPoolPattern(node: Node) {
    node.op.ArmAvgPool? && node.shape.Ranked?
  }

  /** The rebuilt node of a single-output pass. */
  function SingleOutput(op: Op, node: Node, rank: nat): Rewrite
    requires node.shape.Ranked? && SupportedRank(rank) && rank == RankOf(node)
  {
    Rewrite(op, ChannelLastShape(node.shape.dims),
            [OutputTranspose(0, TransposeOnOutput(Output(0, 0), rank).value.order, node.name)])
  }

  /** ConvertArmConvolutionLayout. Activations and weights get the same
      channel-last transpose, a bias input is passed through, attributes are
      copied, and one output transpose takes the original friendly name. */
  function ConvertConvolution(node: Node, vetoed: Node -> bool): (r: Option<Rewrite>)
    ensures r.Some? <==> ConvolutionPattern(node) && !vetoed(node) && SupportedRank(RankOf(node))
    ensures r.Some? ==>
      var rank := RankOf(node);
      && r.value.op.ArmConvolution?
      && ChannelLastInput(r.value.op.data, node.op.data, rank)
      && ChannelLastInput(r.value.op.weights, node.op.weights, rank)
      && r.value.op.bias == node.op.bias
      && r.value.op.conv == node.op.conv
      && r.value.shape == ChannelLastShape(node.shape.dims)
      && |r.value.outputs| == 1
      && RestoresOutput(r.value.outputs[0], 0, rank, node.name)
  {
    if !ConvolutionPattern(node) || vetoed(node) then None
    else
      var rank := RankOf(node);
      if rank < 4 || rank > 5 then None
      else
        var activations := TransposeOnInput(node.op.data, rank).value;
        var weights := TransposeOnInput(node.op.weights, rank).value;
        var conv := match node.op.bias
          case Some(b) => ArmConvolution(activations, weights, Some(b), node.op.conv)
          case None => ArmConvolution(activations, weights, None, node.op.conv);
        Some(SingleOutput(conv, node, rank))
  }

  /** ConvertArmMaxPoolV1Layout: one transposed input, attributes copied,
      one output transpose with the original friendly name. */
  function ConvertMaxPoolV1(node: Node, vetoed: Node -> bool): (r: Option<Rewrite>)
    ensures r.Some? <==> MaxPoolV1Pattern(node) && !vetoed(node) && SupportedRank(RankOf(node))
    ensures r.Some? ==>
      var rank := RankOf(node);
      && r.value.op.ArmMaxPoolV1?
      && ChannelLastInput(r.value.op.data, node.op.data, rank)
      && r.value.op.maxV1 == node.op.maxV1
      && r.value.shape == ChannelLastShape(node.shape.dims)
      && |r.value.outputs| == 1
      && RestoresOutput(r.value.outputs[0], 0, rank, node.name)
  {
    if !MaxPoolV1Pattern(node) || vetoed(node) then None
    else
      var rank := RankOf(node);
      if rank < 4 || rank > 5 then None
      else
        var activations := TransposeOnInput(node.op.data, rank).value;
        Some(SingleOutput(ArmMaxPoolV1(activations, node.op.maxV1), node, rank))
  }

  /** MaxPool-8's axis gate, computed like the C++ `int64_t` comparison in
      ConvertArmMaxPoolV8Layout: true when the pass declines the node. */
  function AxisRejected(axis: int64, rank: nat): (rejected: bool)
    requires rank < 0x8000_0000_0000_0000
    ensures rejected <==> axis as int > 1 || -(rank as int) <= axis as int <= -1
  {
    axis > 1 || (axis < 0 && axis > -(rank as int64) - 1)
  }

  /** ConvertArmMaxPoolV8Layout: additionally gated on the axis; both the
      values and the indices outputs get the inverse transpose, named with
      suffixes ".0" and ".1". */
  function ConvertMaxPoolV8(node: Node, vetoed: Node -> bool): (r: Option<Rewrite>)
    ensures r.Some? <==>
      && MaxPoolV8Pattern(node) && !vetoed(node) && SupportedRank(RankOf(node))
      && !AxisRejected(node.op.maxV8.axis, RankOf(node))
    ensures r.Some? ==>
      var rank := RankOf(node);
      && r.value.op.ArmMaxPoolV8?
      && ChannelLastInput(r.value.op.data, node.op.data, rank)
      && r.value.op.maxV8 == node.op.maxV8
      && r.value.shape == ChannelLastShape(node.shape.dims)
      && |r.value.outputs| == 2
      && RestoresOutput(r.value.outputs[0], 0, rank, node.name + ".0")
      && RestoresOutput(r.value.outputs[1], 1, rank, node.name + ".1")
  {
    if !MaxPoolV8Pattern(node) || vetoed(node) then None
    else
      var rank := RankOf(node);
      if rank < 4 || rank > 5 then None
      else if AxisRejected(node.op.maxV8.axis, rank) then None
      else
        var activations := TransposeOnInput(node.op.data, rank).value;
        var pool := ArmMaxPoolV8(activations, node.op.maxV8);
        var values := TransposeOnOutput(Output(0, 0), rank).value;
        var indices := TransposeOnOutput(Output(0, 1), rank).value;
        Some(Rewrite(pool, ChannelLastShape(node.shape.dims),
                     [OutputTranspose(0, values.order, node.name + ".0"),
                      OutputTranspose(1, indices.order, node.name + ".1")]))
  }

  /** ConvertArmAvgPoolLayout: one transposed input, attributes (including
      exclude-pad) copied, one output transpose with the original name. */
  function ConvertAvgPool(node: Node, vetoed: Node -> bool): (r: Option<Rewrite>)
    ensures r.Some? <==> AvgPoolPattern(node) && !vetoed(node) && SupportedRank(RankOf(node))
    ensures r.Some? ==>
      var rank := RankOf(node);
      && r.value.op.ArmAvgPool?
      && ChannelLastInput(r.value.op.data, node.op.data, rank)
      && r.value.op.avg == node.op.avg
      && r.value.shape == ChannelLastShape(node.shape.dims)
      && |r.value.outputs| == 1
      && RestoresOutput(r.value.outputs[0], 0, rank, node.name)
  {
    if !AvgPoolPattern(node) || vetoed(node) then None
    else
      var rank := RankOf(node);
      if rank < 4 || rank > 5 then None
      else
        var activations := TransposeOnInput(node.op.data, rank).value;
        Some(SingleOutput(ArmAvgPool(activations, node.op.avg), node, rank))
  }
}
