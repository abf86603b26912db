# ARM plugin layout conversion, modelled in Dafny

The ARM plugin of the OpenVINO contrib repository runs convolution and
pooling in channel-last layout (NHWC for 4-D data, NDHWC for 5-D data) while
the graph around them stays channel-first (NCHW, NCDHW). Four matcher passes
in `convert_layout.cpp` do the conversion. Each one takes a matched
convolution, MaxPool-1, MaxPool-8 or AvgPool node and does three things:

- it puts a Transpose to channel-last on the operator's layout-carrying inputs;
- it rebuilds the operator with the same attributes and a channel-last output shape;
- it puts a Transpose back to channel-first on each output, and those
  transposes take over the original friendly name.

This project models those decisions as pure functions over immutable data:

- `Shapes`: dimensions (`Static(n)` or `Dynamic`), partial shapes, and
  `Permute`, which is the shape semantics of a Transpose node.
- `Permutations`: the four fixed permutation tables. Its lemmas show that
  each table is a permutation, that each table is the inverse of its partner
  in both directions, and how the channel axis moves.
- `Graph`: the host graph reduced to what the passes read and build. It
  holds operator attributes, dataflow values (`Output` of some node, or
  `Transposed`), nodes, and the `Rewrite` a pass returns.
- `ConvertLayout`: `transpose_on_input`, `transpose_on_output` (a `Result`
  that fails with the source's message on an unsupported rank),
  `transpose_output_shape` (a method with the source's loop), and the four
  callbacks, each returning `Option<Rewrite>`.
- `LayoutProperties`: properties that hold across all four passes.

The host's `transformation_callback` is a parameter `vetoed: Node -> bool`.
The matcher pattern `wrap_type<Op>(has_static_rank())` is a predicate on the
node: the right operator kind, and an output shape of known rank. The
callback's `as_type_ptr` check cannot fail once the pattern has matched, so
it is part of that predicate. `replace_node` is modelled by the order of
`Rewrite.outputs`: entry k replaces output k of the original node.

## Model

| member | source | states |
|---|---|---|
| Permutations.ToChannelLast | modules/arm_plugin/src/transformations/convert_layout.cpp:16-19 | the NCHW->NHWC and NCDHW->NDHWC tables have length equal to their rank, are permutations of 0..rank-1, keep axis 0 first, put the channel axis 1 last and shift the spatial axes forward |
| Permutations.ToChannelFirst | modules/arm_plugin/src/transformations/convert_layout.cpp:17-20 | the NHWC->NCHW and NDHWC->NCDHW tables have length equal to their rank, are permutations, and take the last axis back to position 1 |
| Permutations.TablesAreInverse | modules/arm_plugin/src/transformations/convert_layout.cpp:16-20 | each channel-first table composed with its channel-last partner is the identity, in both orders |
| Permutations.LayoutRoundTrip | modules/arm_plugin/src/transformations/convert_layout.cpp:16-20 | permuting any rank-4 or rank-5 shape to channel-last and back, or back and then forward, returns the original shape |
| Permutations.ChannelMovesLast | modules/arm_plugin/src/transformations/convert_layout.cpp:16-19 | the channel-last permutation of a shape is its batch dimension, then its spatial dimensions in their original order, then its channel dimension |
| Permutations.ChannelMovesBack | modules/arm_plugin/src/transformations/convert_layout.cpp:17-20 | the channel-first permutation moves the last dimension to position 1 and keeps the others in order |
| ConvertLayout.TransposeOnInput | modules/arm_plugin/src/transformations/convert_layout.cpp:22-33 | succeeds exactly for rank 4 or 5, with a Transpose of the given input whose order is exactly the channel-last table of that rank (`nchw_to_nhwc` or `ncdhw_to_ndhwc`); any other rank fails with "ConvertLayout: unsupported rank" |
| ConvertLayout.TransposeOnOutput | modules/arm_plugin/src/transformations/convert_layout.cpp:35-46 | succeeds exactly for rank 4 or 5, with a Transpose of the given value whose order is exactly the channel-first table of that rank (`nhwc_to_nchw` or `ndhwc_to_ncdhw`); any other rank fails with the same message |
| ConvertLayout.TransposeHelpersInverse | modules/arm_plugin/src/transformations/convert_layout.cpp:22-46 | for rank 4 or 5, the order `transpose_on_output` inserts composed with the order `transpose_on_input` inserts is the identity, in both directions |
| ConvertLayout.TransposeOutputShape | modules/arm_plugin/src/transformations/convert_layout.cpp:48-57 | the result has exactly rank dimensions and dimension i is shape[perm[i]]; whenever rank is the shape's own rank of 4 or 5, it is the channel-last permutation of the shape and ends with the channel dimension |
| ConvertLayout.ChannelLastShape | modules/arm_plugin/src/transformations/convert_layout.cpp:77 | the output shape every pass builds the rebuilt operator with (also lines 128, 170 and 213) is the original shape with its channel dimension moved from position 1 to the end and every other dimension kept in order |
| ConvertLayout.ConvertConvolution | modules/arm_plugin/src/transformations/convert_layout.cpp:59-109 | rewrites iff the node is a statically ranked convolution, not vetoed, of rank 4 or 5; then activations and weights get the same channel-last transpose, the bias is passed through untransposed, the attributes are copied, the output shape is channel-last, and one channel-first output transpose carries the original name |
| ConvertLayout.ConvertMaxPoolV1 | modules/arm_plugin/src/transformations/convert_layout.cpp:111-147 | rewrites iff the node is a statically ranked MaxPool-1, not vetoed, of rank 4 or 5; then the data input is transposed to channel-last, the attributes are copied, and one channel-first output transpose carries the original name |
| ConvertLayout.AxisRejected | modules/arm_plugin/src/transformations/convert_layout.cpp:166 | the `int64_t` axis test declines a MaxPool-8 node exactly when its axis is above 1 or lies from -rank to -1, with no overflow for any rank below 2^63 |
| ConvertLayout.ConvertMaxPoolV8 | modules/arm_plugin/src/transformations/convert_layout.cpp:149-194 | rewrites iff the node is a statically ranked MaxPool-8, not vetoed, of rank 4 or 5, whose axis passes the gate; then the data input is transposed to channel-last, the attributes are copied, and the values and indices outputs each get a channel-first transpose named with ".0" and ".1" |
| ConvertLayout.ConvertAvgPool | modules/arm_plugin/src/transformations/convert_layout.cpp:196-233 | rewrites iff the node is a statically ranked AvgPool, not vetoed, of rank 4 or 5; then the data input is transposed to channel-last, the attributes are copied, and one channel-first output transpose carries the original name |
| LayoutProperties.VetoBlocksEveryPass | modules/arm_plugin/src/transformations/convert_layout.cpp:64-66 | when the transformation callback vetoes a node, every one of the four passes declines it (the same check sits at lines 116-118, 154-156 and 201-203) |
| LayoutProperties.RewritesOnlyRank4Or5 | modules/arm_plugin/src/transformations/convert_layout.cpp:71-74 | every pass rewrites only a node of static output rank 4 or 5 and declines dynamic rank and every other rank (the same gate sits at lines 123-125, 161-163 and 208-210) |
| LayoutProperties.PassesAreDisjoint | modules/arm_plugin/src/transformations/convert_layout.cpp:60-70 | no node is rewritten by two different passes, because each pass's pattern names a different operator type |
| LayoutProperties.OutputsRestoreLayout | modules/arm_plugin/src/transformations/convert_layout.cpp:75-102 | after a rewrite by any of the four passes (output transposes also at lines 137-140, 182-187 and 223-226), every output transpose turns the rebuilt operator's shape back into the original node's shape and is the inverse of the transpose on the data input, so the shape seen outside is unchanged |
| LayoutProperties.AxisGate | modules/arm_plugin/src/transformations/convert_layout.cpp:165-168 | MaxPool-8's gate accepts exactly axis 0, axis 1 and every axis at or below -rank-1, and rejects every axis above 1 and every axis from -rank to -1 |
| LayoutProperties.AxisGateOnValidAxes | modules/arm_plugin/src/transformations/convert_layout.cpp:165-168 | among axes that name a dimension, the gate accepts exactly 0 and 1 |
| LayoutProperties.MaxPoolV8NamesDistinct | modules/arm_plugin/src/transformations/convert_layout.cpp:182-187 | the two output transposes of a rewritten MaxPool-8 sit on ports 0 and 1, both names start with the original friendly name, and the two names differ |

## Notes

- The MaxPool-8 axis gate rejects -rank and 1-rank, which denote the same
  dimensions as 0 and 1. It also accepts every axis below -rank, which names
  no dimension at all. The host validates the axis range when it builds the
  operator, so among valid axes only 0 and 1 pass (`AxisGateOnValidAxes`).
  This is recorded as behaviour, not as a defect: the source gives no sign
  of which negative axes it meant to accept.
- `transpose_output_shape` picks the 4-D table for rank 4 and the 5-D table
  for every other rank, and it indexes without bounds checks.
  `TransposeOutputShape` therefore requires exactly that both reads stay in
  bounds. The passes only call it with rank 4 or 5 and the shape's own rank.
- The passes use the output rank for every input transpose, the weights
  included. The model does the same.

## Left out

- The host pattern matcher, node construction, `copy_runtime_info` and
  `replace_node` live in the host framework. They are abstracted as
  described above; runtime-info propagation is not modelled.
- The rebuilt operator's own friendly name is generated by the host. The
  model records no name for it.
- Shape inference, the numeric semantics of convolution and pooling, and
  moving the tensor data are backend operators. They are not modelled. The
  shape a rebuilt operator is constructed with is taken as given.
- `convert_layout.hpp` only registers the four passes in a graph rewrite.
  Its order of application is not modelled; `PassesAreDisjoint` shows that
  the order does not matter for a single node.
- Whether the graph rewrite re-visits the nodes a pass creates is decided
  by the host and is not modelled.
- The CUDA `Mod` kernel declaration (`mod.hpp`) dispatches to GPU code that
  is not part of this model.
- An ArmConvolution has two or three inputs. The model encodes this as a
  required data and weights input plus an optional bias; the source's
  `get_input_size() > 2` test is the bias being present.
- Pad types, rounding types and index element types are opaque host
  enumerations. They appear as small datatypes that are only copied.
