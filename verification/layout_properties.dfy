/** Properties that hold across the four layout passes. */
module LayoutProperties {
  import opened Wrappers
  import opened Shapes
  import opened Permutations
  import opened Graph
  import opened ConvertLayout

  /** The four matcher passes registered by the layout conversion. */
  datatype Pass = Convolution | MaxPoolV1 | MaxPoolV8 | AvgPool

  function Run(pass: Pass, node: Node, vetoed: Node -> bool): Option<Rewrite> {
    match pass
    case Convolution => ConvertConvolution(node, vetoed)
    case MaxPoolV1 => ConvertMaxPoolV1(node, vetoed)
    case MaxPoolV8 => ConvertMaxPoolV8(node, vetoed)
    case AvgPool => ConvertAvgPool(node, vetoed)
  }

  /** A positive transformation callback makes every pass decline. */
  lemma VetoBlocksEveryPass(pass: Pass, node: Node, vetoed: Node -> bool)
    requires vetoed(node)
    ensures Run(pass, node, vetoed).None?
  {
  }

  /** A pass rewrites only a node of static output rank 4 or 5; every other
      rank leaves the node alone. */
  lemma RewritesOnlyRank4Or5(pass: Pass, node: Node, vetoed: Node -> bool)
    ensures Run(pass, node, vetoed).Some? ==> node.shape.Ranked? && SupportedRank(RankOf(node))
    ensures node.shape.DynamicRank? ==> Run(pass, node, vetoed).None?
    ensures node.shape.Ranked? && !SupportedRank(RankOf(node)) ==> Run(pass, node, vetoed).None?
  {
  }

  /** Each node kind is claimed by at most one pass. */
  lemma PassesAreDisjoint(p: Pass, q: Pass, node: Node, vetoed: Node -> bool)
    requires Run(p, node, vetoed).Some? && Run(q, node, vetoed).Some?
    ensures p == q
  {
  }

  /** The externally observed layout is preserved: every output transpose
      turns the rebuilt operator's channel-last shape back into the original
      node's shape, and undoes the transpose on the data input. */
  lemma {:induction false} OutputsRestoreLayout(pass: Pass, node: Node, vetoed: Node -> bool)
    requires Run(pass, node, vetoed).Some?
    ensures var r := Run(pass, node, vetoed).value;
      forall k :: 0 <= k < |r.outputs| ==>
        && IndicesIn(r.outputs[k].order, |r.shape|)
        && Permute(r.shape, r.outputs[k].order) == node.shape.dims
        && r.op.data.Transposed?
        && Permute(r.op.data.order, r.outputs[k].order) == Identity(|r.shape|)
  {
    var r := Run(pass, node, vetoed).value;
    var rank := RankOf(node);
    var dims := node.shape.dims;
    assert r.shape == ChannelLastShape(dims);
    assert r.op.data == Transposed(node.op.data, ToChannelLast(rank));
    assert forall k :: 0 <= k < |r.outputs| ==> r.outputs[k].order == ToChannelFirst(rank);
    RestoresShape(dims);
  }

  /** The channel-first order maps the rebuilt operator's channel-last shape
      back to the original shape and inverts the channel-last order. */
  lemma RestoresShape(dims: Shape)
    requires SupportedRank(|dims|)
    ensures IndicesIn(ToChannelFirst(|dims|), |ChannelLastShape(dims)|)
    ensures Permute(ChannelLastShape(dims), ToChannelFirst(|dims|)) == dims
    ensures Permute(ToChannelLast(|dims|), ToChannelFirst(|dims|)) == Identity(|dims|)
  {
    TablesAreInverse(|dims|);
    LayoutRoundTrip(dims);
  }

  /** MaxPool-8 accepts exactly the axes 0 and 1 and every axis below
      -rank; every axis from -rank to -1 and every axis above 1 is declined. */
  lemma AxisGate(axis: int64, rank: nat)
    requires rank < 0x8000_0000_0000_0000
    ensures !AxisRejected(axis, rank) <==> axis == 0 || axis == 1 || axis as int <= -(rank as int) - 1
  {
  }

  /** Restricted to axes that name a dimension (-rank <= axis < rank), the
      gate accepts exactly 0 and 1, and so declines -rank and 1-rank although
      they denote the same dimensions. */
  lemma AxisGateOnValidAxes(axis: int64, rank: nat)
    requires 2 <= rank < 0x8000_0000_0000_0000
    requires -(rank as int) <= axis as int < rank as int
    ensures !AxisRejected(axis, rank) <==> axis == 0 || axis == 1
  {
  }

  /** The two outputs of a rewritten MaxPool-8 carry distinct friendly names
      derived from the original one. */
  lemma MaxPoolV8NamesDistinct(node: Node, vetoed: Node -> bool)
    requires ConvertMaxPoolV8(node, vetoed).Some?
    ensures var outs := ConvertMaxPoolV8(node, vetoed).value.outputs;
      && outs[0].name[..|node.name|] == node.name
      && outs[1].name[..|node.name|] == node.name
      && outs[0].name != outs[1].name
      && outs[0].port != outs[1].port
  {
    var outs := ConvertMaxPoolV8(node, vetoed).value.outputs;
    assert outs[0].name[|node.name| + 1] == '0';
    assert outs[1].name[|node.name| + 1] == '1';
  }
}
