# leaf: layers, containers and solver, modelled in Dafny

This project models the core of leaf, a machine-learning framework
written in Rust. It covers:

- shape inference for the filter layers (convolution and pooling), the
  linear layer, the reshape layer and the negative log-likelihood loss;
- the sequential container, which wires child layers into a chain and
  runs them forward in order and backward in reverse order;
- the older `Network`, with its registry of weights shared by name;
- the weight configuration and its dimension check;
- the heap `Blob`;
- the solver, which trains a minibatch at a time, its learning-rate
  schedule and the SGD worker that computes weight updates;
- the confusion matrix, which records predictions and reports accuracy.

Rust panics in pure functions become `Err` results (`FilterLayer.ShapeError`).
Index, unwrap and division panics inside methods become preconditions.
Shared tensors (`Arc<RwLock<SharedTensor>>`) are objects
(`Tensors.SharedTensor`), so aliasing between the layers' tensor lists is
explicit. The backends' numeric kernels are not modelled. These are the
convolution, pooling, gemm and BLAS calls. Where the modelled code uses
their results, those results are parameters; the gradients' L2 norm that
clipping uses is a parameter whose square must be the sum of squares of
the gradients (`Sgd.GradientsSumSquares`). Where only the order of calls matters, the object records
them in a `trace` field (the sequential container, `Network`, the
solver and the SGD worker).

f32 arithmetic is modelled over `real`. Integer casts (`usize as i32`,
`f32 as usize`) are written out explicitly.

## Model

| member | source | states |
|---|---|---|
| FilterLayer.OutputDim | src/layers/common/mod.rs:33 | one spatial output dimension is `(input + 2*padding - filter) / stride + 1`; an underflowing subtraction and a zero stride are the two panics, and the result is at least 1 |
| FilterLayer.SpatialOutputDims | src/layers/common/mod.rs:30-36 | `calculate_spatial_output_dims` succeeds iff every dimension is computable; the output has one entry per input dimension, each given by the formula; on failure the first failing dimension's error is reported |
| FilterLayer.Broadcast | src/layers/common/mod.rs:49-99 | one configured value is repeated once per spatial dimension; one value per dimension is rejected as unimplemented and any other count as wrong, naming the count supplied |
| FilterLayer.FilterConfig.SpatialFilterDims | src/layers/common/mod.rs:49-63 | `spatial_filter_dims` succeeds iff exactly one filter size is configured, repeated per spatial dimension; otherwise it fails with a filter-shape rejection |
| FilterLayer.FilterConfig.StrideDims | src/layers/common/mod.rs:67-81 | the same rule for the stride |
| FilterLayer.FilterConfig.PaddingDims | src/layers/common/mod.rs:85-99 | the same rule for the padding |
| FilterLayer.FilterConfig.SpatialOutput | src/layers/common/convolution.rs:79-88 | filter, padding and stride are broadcast in the order the source asks for them, so the first bad setting is the one reported; it succeeds iff all three broadcast and every dimension fits, and then gives the formula per dimension |
| Convolution.NumSpatialDims | src/layers/common/convolution.rs:71-76 | only 4-D input is supported, with 2 spatial dimensions; any other rank is an error naming the rank |
| Convolution.CalculateOutputShape | src/layers/common/convolution.rs:78-93 | `calculate_output_shape` succeeds iff the input is 4-D and the settings fit; any other rank is rejected naming the rank; the result is 4-D, keeps the batch size and has `num_output` channels |
| Convolution.OutputShapeSpec | src/layers/common/convolution.rs:78-93 | for an accepted input the output is `[batch, num_output, h', w']` with each spatial size given by the formula |
| Convolution.CalculateFilterShape | src/layers/common/convolution.rs:51-60 | `calculate_filter_shape` succeeds iff the input is 4-D and exactly one filter size is configured, giving `[num_output, channels, f, f]`; any other rank is rejected naming the rank |
| Convolution.ConvolutionLayer.AutoWeightBlobs | src/layers/common/convolution.rs:111-113 | the convolution layer asks for its weights to be created automatically |
| Convolution.ConvolutionLayer.Arity | src/layers/common/mod.rs:5-11 | exactly one input and one output blob |
| Convolution.AlexNetFirstLayer | src/layers/common/convolution.rs:78-93 | 64 filters of 11x11 with padding 2 and stride 4 on a 1x3x224x224 input give the filter `[64,3,11,11]` and the output `[1,64,55,55]` |
| Convolution.ConvolutionLayer.FromConfig | src/layers/common/convolution.rs:38-49 | the settings are copied; there is no workspace and no backend configuration yet |
| Convolution.ConvolutionLayer.Reshape | src/layers/common/convolution.rs:115-152 | for a non-empty input list, the output data and gradient take the output shape, the weights and their gradient take the filter shape, and the recorded configuration holds the input, output and filter shapes and the i32 stride and padding; with no input nothing is configured |
| Convolution.ConvolutionLayer.ResizeSharedWorkspace | src/layers/common/convolution.rs:154-170 | a given workspace at least as large as the configured requirement is kept; otherwise a fresh one of exactly the required size is made; the result is both stored and returned |
| Pooling.NumSpatialDims | src/layers/common/pooling.rs:49-55 | 4-D input has 2 spatial dimensions and 5-D input has 3; other ranks are errors |
| Pooling.CalculateOutputShape | src/layers/common/pooling.rs:57-71 | it succeeds iff the rank is 4 or 5 and the settings fit; batch and channel dimensions are kept and each spatial dimension follows the formula |
| Pooling.DescriptorFor | src/layers/common/pooling.rs:104-109 | the backend configuration holds the broadcast filter, padding and stride, one entry per spatial dimension, cast to i32 (unchanged when they fit) |
| Pooling.PoolingLayer.Arity | src/layers/common/mod.rs:5-11 | exactly one input and one output blob |
| Pooling.PoolingLayer.FromConfig | src/layers/common/pooling.rs:34-44 | mode, filter, stride and padding are copied; there are no pooling configurations yet |
| Pooling.PoolingLayer.Reshape | src/layers/common/pooling.rs:97-111 | for every input, the output data and gradient take the output shape and one more configuration is appended; the list is never cleared |
| Pooling.PoolingLayer.ReshapeOnce | src/layers/common/pooling.rs:98-110 | one turn of the reshape loop: both outputs resized and exactly one configuration appended |
| Pooling.PoolingLayer.ComputeOutput | src/layers/common/pooling.rs:116-127 | the backend's max pooling runs with the first configuration recorded, whatever was appended later |
| Pooling.PoolingLayer.ComputeInputGradient | src/layers/common/pooling.rs:131-142 | the max-pooling gradient also uses the first configuration |
| Pooling.ReshapeTwice | src/layers/common/pooling.rs:97-111 | two reshapes leave two equal configurations: the list grows on every reshape |
| Linear.CalculateInputSize | src/layers/common/linear.rs:54-56 | for a non-empty shape, the product of the dimensions after the batch size (1 when there are none); batch size times it is the element count |
| Linear.CalculateOutputShape | src/layers/common/linear.rs:58-61 | `[batch size, output size]`, holding batch times output elements |
| Linear.CalculateWeightShape | src/layers/common/linear.rs:63-66 | `[output size, input size]` |
| Linear.ShapesAgree | src/layers/common/linear.rs:58-66 | the batch dimension of the output times the row length of the weights is the input's element count, and the weight matrix has one row per output |
| Linear.LinearLayer.Arity | src/layers/common/mod.rs:5-11 | exactly one input and one output blob |
| Linear.LinearLayer.FromConfig | src/layers/common/linear.rs:41-51 | the output size, and fresh one-element tensors holding 1 and 0 |
| Linear.LinearLayer.Default | src/layers/common/linear.rs:164-172 | a linear layer with 10 outputs |
| Linear.LinearLayer.Reshape | src/layers/common/linear.rs:80-111 | the output data and gradient take the output shape; the first weight and weight gradient, when present, take the weight shape; an output that is also a weight ends with the weight shape, because that write comes last |
| ReshapeLayer.OfShape | src/layers/utility/reshape.rs:95-99 | the configuration holds the given shape |
| ReshapeLayer.WriteCapnp | src/layers/utility/reshape.rs:106-111 | the written list has one entry per dimension, each dimension at its own index |
| ReshapeLayer.Reshape.FromConfig | src/layers/utility/reshape.rs:32-36 | the configured shape is copied |
| ReshapeLayer.Reshape.ComputeInPlace | src/layers/utility/reshape.rs:40-42 | the reshape layer works in place |
| ReshapeLayer.Reshape.AutoOutputBlobs | src/layers/utility/reshape.rs:44-46 | the reshape layer does not create its output blobs automatically |
| ReshapeLayer.Reshape.Reshape | src/layers/utility/reshape.rs:48-58 | the first output data and gradient take the configured shape, whatever the input's shape |
| NegativeLogLikelihood.LossWeight | src/layers/loss/mod.rs:11-17 | output 0 has loss weight 1 and no other output has one |
| NegativeLogLikelihood.AutoOutputBlobs | src/layers/loss/mod.rs:9 | loss layers create their output blobs automatically |
| NegativeLogLikelihood.CalculateOuterNum | src/layers/loss/negative_log_likelihood.rs:22-24 | when the axis reaches past the last dimension the outer count is the whole element count |
| NegativeLogLikelihood.CalculateInnerNum | src/layers/loss/negative_log_likelihood.rs:26-28 | when no dimension is left after the axis the inner count is 1 |
| NegativeLogLikelihood.OuterTimesInner | src/layers/loss/negative_log_likelihood.rs:22-28 | the outer count (first `axis + 1` dimensions) times the inner count (the rest) is the element count |
| NegativeLogLikelihood.BatchSize | src/layers/loss/negative_log_likelihood.rs:30-36 | 1 for 1-D shapes, the first dimension for 2-D shapes; other ranks are errors |
| NegativeLogLikelihood.AsUsize | src/layers/loss/negative_log_likelihood.rs:79 | `f32 as usize`: values below 1 give 0; others are truncated |
| NegativeLogLikelihood.Picked | src/layers/loss/negative_log_likelihood.rs:78-81 | for each label position, the probability the label points at, one per label |
| NegativeLogLikelihood.SumNegated | src/layers/loss/negative_log_likelihood.rs:77-83 | summing the negated picks is negating the sum of the picks |
| NegativeLogLikelihood.NegativeLogLikelihoodLayer.Arity | src/layers/loss/mod.rs:5-10 | exactly one input and one output blob |
| NegativeLogLikelihood.NegativeLogLikelihoodLayer.FromConfig | src/layers/loss/negative_log_likelihood.rs:16-20 | the number of classes is copied |
| NegativeLogLikelihood.NegativeLogLikelihoodLayer.Reshape | src/layers/loss/negative_log_likelihood.rs:46-59 | the output takes the label shape; the input gradient takes the data shape unless it is the output tensor too |
| NegativeLogLikelihood.NegativeLogLikelihoodLayer.ComputeOutput | src/layers/loss/negative_log_likelihood.rs:63-88 | the first output element becomes minus the sum of the probabilities the labels point at, divided by the batch size of the label shape; the rest of the output is unchanged |
| NegativeLogLikelihood.NegativeLogLikelihoodLayer.ComputeInputGradient | src/layers/loss/negative_log_likelihood.rs:92-113 | every gradient element is -1 where some label position `n` points (`num_classes * n + label[n]`) and 0 everywhere else |
| NegativeLogLikelihood.LossOfThreeLabels | src/layers/loss/negative_log_likelihood.rs:77-84 | labels 1, 0, 1 over probabilities 0.25, 0.5, 0.25 give the loss -1.25 / 3 |
| Util.WriteToMemory | src/util.rs:26-37 | the data is copied to the front of a native buffer and the rest is unchanged; a device buffer is left alone |
| Util.NativeScalar | src/util.rs:40-46 | a fresh tensor of shape `[1]` holding the scalar |
| Util.AsI32 | src/util.rs:52 | `usize as i32` keeps the low 32 bits as two's complement: in i32 range, congruent mod 2^32, and unchanged when the value fits |
| Util.CastVecUsizeToI32 | src/util.rs:49-55 | the element-wise cast: same length, each entry in i32 range, congruent mod 2^32, unchanged when it fits |
| Util.AxpbyPlain | src/util.rs:62-66 | `scal` runs first and `axpy` runs only if `scal` succeeds; success means `y = a*x + b*y`; the first failure is returned |
| Util.ScalPlain | src/util.rs:63 | `y = b*y` element by element |
| Util.AxpyPlain | src/util.rs:64 | `y = a*x + y` element by element |
| Decimal.NatToString | src/network.rs:320 | `to_string` of a `usize`: a non-empty string of decimal digits with no leading zero except for 0 itself |
| Decimal.NatToStringRoundTrip | src/network.rs:320 | reading back the decimal digits printed for `n` gives `n` |
| Decimal.NatToStringInjective | src/network.rs:320 | distinct numbers print differently |
| Decimal.IntToString | src/blob.rs:41 | a leading minus sign exactly for negative numbers, then the decimal magnitude |
| Weight.WeightConfig.LrMult | src/weight.rs:96-101 | the stored learning-rate multiplier, or 1.0 when none is stored |
| Weight.WeightConfig.DecayMult | src/weight.rs:104-109 | the stored decay multiplier, or 1.0 when none is stored |
| Weight.DefaultWeightConfig | src/weight.rs:40-50 | the default is anonymous, strict and has no filler |
| Weight.DefaultMultipliers | src/weight.rs:40-50 | both multipliers of the default read 1.0, since none is stored |
| Weight.CheckDimensions | src/weight.rs:55-93 | as written: in both modes the check passes iff the element counts agree; the error names the mode, the three names and the owner and sharing shapes |
| Weight.PermissiveExamples | tests/layer_specs.rs:54-88 | permissive sharing accepts `[2,3,3]` with itself and with `[3,2,3]`, and rejects `[3,10,3]` against either |
| Weight.StrictAcceptsDifferentShapes | src/weight.rs:77-90 | the strict check as written accepts `[2,3,3]` against `[3,2,3]` |
| Weight.CheckDimensionsIntended | src/weight.rs:18-22 | permissive passes iff the counts agree and strict passes iff the shapes are equal |
| Weight.StrictIntendedExamples | tests/layer_specs.rs:31-52 | the intended strict check accepts `[2,3,3]` with itself and rejects it against `[3,2,3]` |
| Weight.IntendedIsStricter | src/weight.rs:62-90 | whatever the intended check accepts, the written one accepts too; in permissive mode the two agree |
| Weight.FillConstant | src/weight.rs:163-170 | every element of the native memory becomes the value |
| Blobs.DimsTextSpaces | src/blob.rs:40-43 | every dimension is followed by exactly one space |
| Blobs.ShapeTextRank | src/blob.rs:44-46 | after the dimensions comes `(`, then only decimal digits up to the closing `)`, and those digits read back as the rank |
| Blobs.ShapeTextInjective | src/blob.rs:38-49 | two shapes with the same shape string are equal: the string determines every dimension and the rank |
| Blobs.Blob.New | src/blob.rs:8-11 | shape `[0]` and nothing allocated |
| Blobs.Blob.OfShape | src/blob.rs:13-22 | the given shape, empty vectors, and a capacity of the element count when that count is positive |
| Blobs.Blob.Reshape | src/blob.rs:24-36 | the shape is always replaced; both vectors are reallocated empty with the new count as capacity iff that count exceeds the data capacity, and are untouched otherwise; capacity never shrinks |
| Blobs.Blob.Len | src/blob.rs:51-53 | the length of the data vector, at most its capacity |
| Blobs.Blob.ShapeString | src/blob.rs:38-49 | the loop builds exactly the shape text: the dimensions, each followed by a space, then the rank in parentheses; by `ShapeTextInjective` it determines the shape |
| Blobs.OfShapeCapacityExample | src/blob.rs:76-87 | `[2,3,2]` has 12 elements; `[0]` has none |
| Blobs.ShapeStringExample | src/blob.rs:89-94 | the shape string of `[2,3,2]` is `2 3 2 (3)` |
| Tensors.Take | src/layers/loss/negative_log_likelihood.rs:23 | taking `k` dimensions and skipping `k` split the shape |
| Tensors.SharedTensor.constructor | src/layers/common/convolution.rs:65 | a fresh buffer sized for the shape |
| Tensors.SharedTensor.Resize | src/layers/common/convolution.rs:129-130 | a new descriptor and a fresh buffer of its size |
| Layers.LayerConfig.AddInput | src/layers/common/sequential.rs:72 | the input name goes at the end of the inputs; nothing else changes |
| Layers.LayerConfig.AddOutput | src/layers/common/sequential.rs:85 | the output name goes at the end of the outputs; nothing else changes |
| Layers.Layer.BindContainerInputs | src/layers/common/sequential.rs:252-256 | input slot `i` takes container input `i` exactly when the slot is named like it; nothing else of the layer changes |
| Layers.Layer.SetOutputGradients | src/layers/common/sequential.rs:271-275 | the given gradients replace the first output gradient slots; nothing else changes |
| Layers.Layer.FromConfig | src/layers/common/sequential.rs:189-190 | the layer carries the configuration's name and blob names, with no weights |
| SequentialContainer.SearchBackSpec | src/layers/common/sequential.rs:362-368 | the backward search finds the first output of the nearest earlier layer that does not work in place, and fails only when there is none |
| SequentialContainer.SequentialConfig.FindInPlaceOutput | src/layers/common/sequential.rs:358-377 | only an existing in-place layer gets a tensor: the nearest earlier non-in-place layer's first output, else the container's first input |
| SequentialContainer.SequentialConfig.AddLayer | src/layers/common/sequential.rs:380-382 | the layer goes at the end; the inputs are unchanged |
| SequentialContainer.SequentialConfig.AddInput | src/layers/common/sequential.rs:385-387 | the named, shaped input goes at the end; the layers are unchanged |
| SequentialContainer.AddLayerKeepsInPlace | src/layers/common/sequential.rs:358-382 | appending a layer does not change the in-place tensor of any earlier layer |
| SequentialContainer.DefaultHasNoInPlace | src/layers/common/sequential.rs:431-439 | the default configuration is empty, does not force backward, and has no in-place tensor |
| SequentialContainer.WithContainerInputs | src/layers/common/sequential.rs:69-74 | the container's input names are appended to the first layer's inputs |
| SequentialContainer.ConnectStep | src/layers/common/sequential.rs:76-97 | one turn of the wiring loop keeps the number of layers and the inputs |
| SequentialContainer.ConnectStepEffect | src/layers/common/sequential.rs:77-95 | one turn touches only layer `i`'s outputs and layer `i+1`'s inputs. It skips already connected pairs, or links the pair through the in-place tensor or `SEQUENTIAL_i`. The last layer gains `SEQUENTIAL_OUTPUT_i` |
| SequentialContainer.StepsFrame | src/layers/common/sequential.rs:76-97 | after `k` turns every layer keeps its kind, and every list the loop has not reached is unchanged |
| SequentialContainer.StepsLinks | src/layers/common/sequential.rs:80-90 | after `k` turns, layer `j < k` has gained its link as output and layer `j+1` the same link as input |
| SequentialContainer.StepsLast | src/layers/common/sequential.rs:93-95 | once the loop is done, the last layer has gained its numbered output |
| SequentialContainer.StepsShape | src/layers/common/sequential.rs:76-97 | the three facts above together, for any number of turns |
| SequentialContainer.Wired | src/layers/common/sequential.rs:69-97 | the wiring keeps the number of layers, the container inputs and the force-backward flag |
| SequentialContainer.WiredSpec | src/layers/common/sequential.rs:69-97 | the wiring keeps names and kinds. It gives the first layer the container inputs, and chains every pair of neighbours through a shared tensor name. The last layer's new output is named after its index |
| SequentialContainer.ThreePlainLayers | src/layers/common/sequential.rs:88-94 | three plain layers are linked by `SEQUENTIAL_0` and `SEQUENTIAL_1`, and the last one outputs `SEQUENTIAL_OUTPUT_2` |
| SequentialContainer.InPlaceBetweenPlainLayers | src/layers/common/sequential.rs:84-86 | an in-place layer between two plain ones reads and writes the first layer's output |
| SequentialContainer.InPlaceFirstLayer | src/layers/common/sequential.rs:370-372 | an in-place first layer works on the container's first input |
| SequentialContainer.Names | src/layers/common/sequential.rs:166 | the names of the inputs, in order |
| SequentialContainer.DistinctInputsSpec | src/layers/common/sequential.rs:152-168 | the kept inputs have distinct names; every supplied name is kept, and nothing else is |
| SequentialContainer.RepeatedInputKeepsFirst | src/layers/common/sequential.rs:152-156 | a name supplied twice gets one tensor, shaped by its first occurrence |
| SequentialContainer.BackwardReversesForward | src/layers/common/sequential.rs:251-295 | both backward passes visit exactly the children the forward pass visits, in the opposite order. Forward ends by synchronizing the last child, and the backward passes end by synchronizing the first |
| SequentialContainer.Sequential.Empty | src/layers/common/sequential.rs:29-42 | no children, inputs, outputs or registered tensors |
| SequentialContainer.Sequential.LearnableWeights | src/layers/common/sequential.rs:220-223 | the children's weights concatenated, child by child |
| SequentialContainer.Sequential.LearnableWeightsGradients | src/layers/common/sequential.rs:225-228 | the same for the weight gradients |
| SequentialContainer.Sequential.LearnableWeightsNames | src/layers/common/sequential.rs:230-233 | the same for the weight names |
| SequentialContainer.LearnableWeightsAt | src/layers/common/sequential.rs:220-223 | child `k`'s weight `j` sits at `offset(k) + j` of the container's list |
| SequentialContainer.LearnableWeightsGradientsAt | src/layers/common/sequential.rs:225-228 | the same for the gradients |
| SequentialContainer.LearnableWeightsNamesAt | src/layers/common/sequential.rs:230-233 | the same for the names |
| SequentialContainer.Sequential.InitInputBlob | src/layers/common/sequential.rs:146-169 | a name already registered changes nothing; otherwise fresh data and gradient tensors of the shape are appended under the name and registered |
| SequentialContainer.Sequential.InitNextInput | src/layers/common/sequential.rs:65-67 | one turn of the input loop: the input is kept and registered iff its name is new |
| SequentialContainer.Sequential.InitInputs | src/layers/common/sequential.rs:65-67 | one tensor pair per distinct input name, appended in order and registered; the registry's keys are exactly the supplied names |
| SequentialContainer.Sequential.AppendChildren | src/layers/common/sequential.rs:100-103 | one fresh child per wired configuration, appended in order and built from it |
| SequentialContainer.Sequential.InitChildren | src/layers/common/sequential.rs:100-131 | the children are built from the wired configurations; the last child's outputs and output gradients become the container's |
| SequentialContainer.Sequential.InitLayers | src/layers/common/sequential.rs:60-136 | the inputs are registered, the configuration is wired with the container's input names, one child is built per layer from its wired configuration, and the last child's outputs become the container's |
| SequentialContainer.Sequential.Forward | src/layers/common/sequential.rs:246-262 | each child, in order, has its inputs bound by name and runs forward; the last child is then synchronized; the container's own lists are unchanged |
| SequentialContainer.Sequential.BackwardInput | src/layers/common/sequential.rs:264-282 | the output gradients are handed to the last child; the children run their input gradients in reverse order; the first child is synchronized |
| SequentialContainer.Sequential.BackwardParameters | src/layers/common/sequential.rs:284-296 | the children run their parameter gradients in reverse order; the first child is synchronized; the container stays well formed |
| SequentialContainer.WireLayers | src/layers/common/sequential.rs:69-97 | the loops of the initialization compute exactly the wiring `WiredSpec` describes |
| Networks.WeightName | src/network.rs:309-314 | as written: the configured name is read only when the network already holds more than `weight_id` weights; otherwise the name is empty |
| Networks.DisplayName | src/network.rs:316-321 | the weight's name, or its index in decimal when it is anonymous; never empty |
| Networks.AnonymousDisplayNamesDistinct | src/network.rs:316-321 | anonymous weights with different indices get different display names |
| Networks.ConfigFor | src/network.rs:328-331 | the layer's own weight configuration when it has one, else the default |
| Networks.MergeMult | src/network.rs:372-393 | a shared weight keeps its owner's multiplier when the owner has one; otherwise it takes the sharer's |
| Networks.MergeMultIdempotent | src/network.rs:372-393 | merging again with the same sharer changes nothing |
| Networks.EmptyRegistry | src/network.rs:101-111 | a fresh network has no weights, no learnable weights and no named weights |
| Networks.EmptyRegistryValid | src/network.rs:101-111 | the empty registry satisfies the registry invariant |
| Networks.AppendKeepsValid | src/network.rs:307-395 | appending a weight under any name keeps the invariant. Owners come before their sharers and own themselves. Learnable ids are shared with the owner, and every registered name points to an owner |
| Networks.AppendGrowsByOne | src/network.rs:316-326 | every append adds exactly one weight, origin, display name, owner entry and learnable id, with this weight's entries last |
| Networks.AppendOwner | src/network.rs:335-344 | an anonymous or first-seen weight owns itself. It becomes a new learnable weight with the configuration's multipliers, and a non-empty name is registered to it |
| Networks.AppendSharer | src/network.rs:345-393 | a weight whose name is registered is owned by the registered weight and takes its learnable id. No learnable weight is added. The owner's missing multipliers are filled in and set ones are kept |
| Networks.FirstNamedWeightNotShared | src/network.rs:309-314 | as written, two layers that both name their weight "shared" do not share: the first lookup yields the empty name |
| Networks.UnconfiguredWeightAfterFirst | src/network.rs:310-311 | as written, a later layer whose weight has no configuration cannot be appended, while the intended lookup accepts it as an anonymous owner |
| Networks.WeightNameIntended | src/network.rs:328-331 | the configured name whenever the layer configures this weight, else the empty name |
| Networks.IntendedNamedWeightShared | src/network.rs:335-371 | with the intended lookup the two layers share one learnable weight, and the second weight's owner is the first |
| Networks.Network.constructor | src/network.rs:90-113 | `Network::default`: no blobs, inputs, outputs or weights |
| Networks.Network.InitInputBlob | src/network.rs:269-296 | a registered name changes nothing; otherwise a new blob of the shape is appended to the blobs and the input blobs under the name, and registered |
| Networks.AppendedRegistry | src/network.rs:307-395 | as written, appending weight `weight_id` of a layer keeps the registry invariant and adds exactly one weight, the layer's blob, at the end |
| Networks.AppendedRegistryIntended | src/network.rs:307-395 | the same with the intended name lookup of src/network.rs:328-331 |
| Networks.Network.AppendWeight | src/network.rs:307-395 | the registry becomes `AppendedRegistry` and keeps its invariant |
| Networks.Network.ShareWeights | src/network.rs:245-258 | every shared weight is replaced by its owner's blob, owners keep theirs, and every weight is then its learnable weight |
| Networks.Network.ForwardFromTo | src/network.rs:471-481 | the layers `start..end` run forward in order, and the loss is the sum of their losses |
| Networks.Network.ForwardPrefilled | src/network.rs:444-457 | a forward pass over `0..len-1`: the last layer never runs; the output blobs are returned |
| Networks.ForwardCalls | src/network.rs:476-478 | the loop of `forward_from_to` visits every layer of `start..end` once, in increasing order, and none when `start >= end` |
| Networks.BackwardCalls | src/network.rs:510-512 | the loop of `backward_from_to` does the same for the backward passes |
| Networks.ForwardPrefilledSkipsLast | src/network.rs:445-449 | the prefilled pass misses exactly the last layer's loss and never runs the last layer |
| Networks.Network.Forward | src/network.rs:426-432 | the given inputs replace the first input blobs, then a prefilled forward pass runs |
| Networks.Network.SetInputs | src/network.rs:427-429 | input `i` replaces input blob `i` |
| Networks.Network.ForwardBackward | src/network.rs:407-414 | a forward pass then a backward pass; the forward loss is returned |
| Networks.Network.BackwardFromTo | src/network.rs:507-513 | the layers `start..end` run backward in increasing order |
| Networks.Network.Backward | src/network.rs:492-495 | `backward_from_to(len-1, 0)` is an empty range: no layer runs |
| Networks.Network.ClearWeightDiffs | src/network.rs:523-530 | the zeroing is commented out: no gradient changes |
| SolverConfigs.DefaultSolverConfig | src/solver/mod.rs:220-243 | the defaults: no name, SGD with momentum, minibatches of 1, the fixed rate 0.01, gamma 0.1, steps of 10, no clipping, decay or regularization, and momentum 0 |
| SolverConfigs.DefaultSchedule | src/solver/mod.rs:220-243 | the defaults train at the rate 0.01 at every iteration |
| SolverConfigs.SolverConfig.LearningRate | src/solver/mod.rs:258-301 | every policy starts at the base rate at iteration 0; under Step the rate stays at the base rate for the whole first step |
| SolverConfigs.FixedRateConstant | src/solver/mod.rs:260-262 | under Fixed every iteration uses the base rate |
| SolverConfigs.ExpRateDecays | src/solver/mod.rs:279-281 | under Exp the rate at iteration 0 is the base rate, and each iteration multiplies it by gamma |
| SolverConfigs.StepRateWithinStep | src/solver/mod.rs:263-266 | under Step, iterations of the same step share a rate |
| SolverConfigs.StepRateNextStep | src/solver/mod.rs:263-266 | under Step the first step runs at the base rate; `stepsize` iterations later the step index is one higher and the rate is gamma times lower |
| SolverConfigs.SolverConfig.StepIndex | src/solver/mod.rs:306-308 | `step(iter)` is the index of the step holding `iter`: `step * stepsize <= iter < (step + 1) * stepsize` |
| SolverConfigs.StepIndexUnique | src/solver/mod.rs:306-308 | no other step holds `iter` |
| SolverConfigs.PowAdd | src/solver/mod.rs:265 | `gamma^(m+n) = gamma^m * gamma^n` |
| SolverConfigs.FixedExample | tests/solver_specs.rs:13-18 | a fixed rate of 5 stays 5 at iterations 0, 100 and 1000 |
| SolverConfigs.StepExample | tests/solver_specs.rs:22-27 | base 5, gamma 0.5 and steps of 10 give 5, 2.5 and 1.25 at iterations 0, 10 and 20 |
| SolverConfigs.ExpExample | tests/solver_specs.rs:31-42 | base 5 gives 5, 2.5, 1.25, 0.625 with gamma 0.5, and 5, 1.25, 0.3125 with gamma 0.25 |
| Sgd.ClipScale | src/solvers/mod.rs:61-107 | there is a scale factor iff a threshold is set and the L2 norm exceeds it; the factor times the norm is the threshold |
| Sgd.SquarePositive | src/solvers/mod.rs:73 | a non-zero number has a positive square |
| Sgd.SumSquares | src/solvers/mod.rs:73 | the dot product of a gradient with itself is never negative, and is zero exactly when every element is |
| Sgd.GradientsSumSquares | src/solvers/mod.rs:67-83 | the intended clipping sum: never negative, and zero exactly when every element of every gradient is zero |
| Sgd.ClipIgnoresGradients | src/solvers/mod.rs:69-84 | as written the summed values are the fresh tensors', so the gradient `[3.0]` and the zero gradient give the same sum 0 and nothing is clipped; the intended sum is 9, and a threshold of 1 then scales by 1/3 |
| Sgd.NormalizeScale | src/solvers/mod.rs:115-130 | there is a scale factor iff the minibatch has more than one sample; the factor times the minibatch size is 1 |
| Sgd.UpdateOrderShape | src/solvers/sgd/mod.rs:44-58 | clipping comes first; then weight `i` is normalized and then updated at the global rate and its own rate multiplier, before weight `i+1` |
| Sgd.WeightCallsShape | src/solvers/sgd/mod.rs:48-57 | the per-weight steps come in pairs, normalize then update, in weight order |
| Sgd.SgdSolver.constructor | src/solvers/sgd/momentum.rs:45-50 | no history yet |
| Sgd.SgdSolver.Init | src/solvers/sgd/mod.rs:29-42 | one fresh history tensor per learnable weight gradient, in order, shaped like it and filled with zeros |
| Sgd.SgdSolver.ComputeUpdate | src/solvers/sgd/mod.rs:44-58 | the rate of iteration `iter` is taken once; the steps issued are clipping by the intended norm, then each weight's normalize and update in order; the history is unchanged |
| Solvers.MinibatchOrderShape | src/solver/mod.rs:72-88 | the weight gradients are cleared first and the weights change last. Both forward passes precede both backward passes, and the update is computed after the backward passes at the current iteration |
| Solvers.Solver.FromConfig | src/solver/mod.rs:40-54 | the worker is initialized on the network with zeroed history tensors shaped like the weight gradients, and the iteration counter starts at 0 |
| Solvers.Solver.TrainMinibatch | src/solver/mod.rs:72-88 | the minibatch's calls in order; the worker's update at the current iteration's rate, clipped by the intended norm; the counter advanced by one; the network's first output returned |
| ConfusionMatrices.Accuracy.Ratio | src/solver/confusion_matrix.rs:113-115 | a percentage between 0 and 100: 100 iff every sample is correct, 0 iff none is; no value without samples |
| ConfusionMatrices.CountCorrect | src/solver/confusion_matrix.rs:78 | exactly the number of positions holding a correct sample; hence at most the number of samples, equal to it iff all are correct, zero iff none is |
| ConfusionMatrices.Admit | src/solver/confusion_matrix.rs:30-35 | the new sample is last; the record grows by one unless a reached capacity drops the oldest first |
| ConfusionMatrices.AdmitKeepsNewest | src/solver/confusion_matrix.rs:31-34 | the samples before the new one are the newest of the old record, in order |
| ConfusionMatrices.AdmitIsNewest | src/solver/confusion_matrix.rs:30-35 | with a capacity `c >= 1` that the record respects, adding a sample keeps the newest `c` samples |
| ConfusionMatrices.AdmitZeroCapacity | src/solver/confusion_matrix.rs:31-34 | a capacity of 0 still admits the new sample, which is then all the record holds |
| ConfusionMatrices.AdmitAll | src/solver/confusion_matrix.rs:40-44 | adding no samples changes nothing; otherwise the last sample added is the last one recorded |
| ConfusionMatrices.AdmitAllUnbounded | src/solver/confusion_matrix.rs:40-44 | without a capacity the record keeps every sample, in order |
| ConfusionMatrices.AdmitAllBounded | src/solver/confusion_matrix.rs:40-44 | with a capacity `c >= 1` that the record respects, adding samples one by one keeps exactly the newest `c` of all, so the record never exceeds `c` |
| ConfusionMatrices.AdmitAllIsNewest | src/solver/confusion_matrix.rs:30-44 | with a capacity `c >= 1` that the record respects, adding samples one by one leaves the newest `c` of the old and new samples together |
| ConfusionMatrices.Zip | src/solver/confusion_matrix.rs:41 | pairs by position, as long as the shorter list |
| ConfusionMatrices.LastMaxIndex | src/solver/confusion_matrix.rs:57-59 | the index of a largest score, with ties going to the highest index |
| ConfusionMatrices.Predictions | src/solver/confusion_matrix.rs:56-60 | every prediction names one of the classes; there are predictions exactly when there are scores |
| ConfusionMatrices.PredictionsHead | src/solver/confusion_matrix.rs:56-59 | the first prediction is the last maximum of the first `num_classes` scores |
| ConfusionMatrices.PredictionsCount | src/solver/confusion_matrix.rs:56 | `m` whole chunks of scores give `m` predictions |
| ConfusionMatrices.ConfusionMatrix.New | src/solver/confusion_matrix.rs:21-27 | no capacity and no samples |
| ConfusionMatrices.ConfusionMatrix.AddSample | src/solver/confusion_matrix.rs:30-35 | the record becomes `Admit` of the old one |
| ConfusionMatrices.ConfusionMatrix.AddSamples | src/solver/confusion_matrix.rs:40-44 | each pair of prediction and target is admitted in order |
| ConfusionMatrices.ConfusionMatrix.SetCapacity | src/solver/confusion_matrix.rs:65-68 | the bound is stored, and a record that already exceeds it is left as it is |
| ConfusionMatrices.ConfusionMatrix.GetAccuracy | src/solver/confusion_matrix.rs:76-80 | every recorded sample is counted, and the correct count is exactly the number of correct samples recorded; it is at most the sample count, and equal to it iff every sample is correct |
| ConfusionMatrices.ConfusionMatrix.GetPredictions | src/solver/confusion_matrix.rs:50-62 | one predicted class per consecutive chunk of `num_classes` scores of the network output |

## Left out

- The backends' kernels are not modelled. These are convolution, pooling, gemm, the BLAS `scal`/`axpy`/`dot` and the momentum update value. Their results are parameters (`Pooling.PoolingLayer.ComputeOutput`), or the calls are recorded by name (`Sgd.SgdCall`).
- The `compute_output`, `compute_input_gradient` and `compute_parameters_gradient` of the convolution and linear layers, and the convolution workspace size, are backend calls.
- The generic `Layer` wrapper (configuration validation, `from_config` for each layer type, `connect`, the per-layer forward and backward passes, `init_backprop`, `init_force_backward`) is not part of this model. `Layers.Layer` keeps only the fields the modelled code reads and writes.
- SequentialContainer.Sequential.InitLayers does not model the sharing of tensors by name among children, which `connect` performs. It also omits the shared workspace loop and the backprop flags.
- `Network::from_config`, `init` and `init_layer`, and the `NetworkConfig` accessors, are not modelled. The index panic of `init_layer` is not modelled either. A network is given its layers.
- Networks.Network.AppendWeight does not model the dimension check on sharing weights, because its error is only logged.
- `update_weights`/`apply_diff` of the network and the solver's weight update are backend calls, recorded as `UpdateWeights`.
- The Glorot filler draws random numbers. After a reshape the weights' contents are unspecified.
- `Blob`'s `cpu_data`, `cpu_diff` and their mutable versions are plain accessors. `Vec` capacity rounding is not modelled, and neither is `isize` overflow in the capacity product.
- Learning rates, losses and scale factors are reals: f32 rounding, `powf` and NaN are not modelled.
- Sgd.ClipScale excludes a negative threshold over all-zero gradients, where the f32 division yields an infinite factor.
- Sgd.SgdSolver.ComputeUpdate takes the L2 norm of the gradients as a parameter whose square is `GradientsSumSquares`, the intended sum; the square root is f32 arithmetic and is left to the caller. `regularize` is unimplemented, and its call is commented out.
- Solvers.Solver.TrainMinibatch records the forward and backward passes instead of running them, so `l2norm` is required to match the gradient tensors as they stand when the update is computed.
- FilterLayer.OutputDim, Linear.CalculateInputSize, Tensors.Size, NegativeLogLikelihood.CalculateOuterNum and NegativeLogLikelihood.CalculateInnerNum: `usize` overflow (a panic in debug builds, wrap-around in release builds) is not modelled; integers are unbounded.
- ConfusionMatrices.Accuracy.Ratio gives `None` with no samples, where f32 division yields NaN.
- ConfusionMatrices.ConfusionMatrix.GetPredictions does not model NaN scores, which `partial_cmp` treats as equal. Reading the tensor from the native device is not modelled either.
- The solver's `init` and `init_net` (rebuilding the network from its configuration) are not modelled. Nor are the network and objective `LayerConfig` fields of `SolverConfig`.
- The `Display` implementations, the `samples()` accessor and the Cap'n Proto writers other than the reshape layer's are not modelled.
- Logging (`info!`, `error!`) is not modelled.

## Findings

| source | as written | input that shows it | evidently intended | confidence | as-written member | corrected member |
|---|---|---|---|---|---|---|
| src/weight.rs:77-90 | the Strict branch compares only element counts, exactly like Permissive | shapes `[2,3,3]` and `[3,2,3]` in Strict mode are accepted | Strict requires equal shapes (src/weight.rs:18-22, tests/layer_specs.rs:46-51) | not executed | Weight.StrictAcceptsDifferentShapes | Weight.CheckDimensionsIntended |
| src/solvers/mod.rs:69-84 | each gradient's dot product is written into a tensor that the next statement replaces with a freshly allocated one, and it is the fresh tensor's element that is summed | one gradient `[3.0]`, threshold 1.0, fresh tensors reading 0: the sum is 0, so nothing is clipped although the L2 norm is 3 | sum the gradients' dot products, the squared L2 norm, and clip by its square root | not executed | Sgd.ClipIgnoresGradients | Sgd.GradientsSumSquares |
| src/network.rs:310-314 | the weight's configured name is read only when `weights_len > weight_id` | two layers each configuring weight 0 as "shared" into an empty network: the first weight is anonymous, so the two do not share | read the name whenever the layer configures the weight, as the configuration lookup at src/network.rs:329 does | not executed | Networks.FirstNamedWeightNotShared | Networks.IntendedNamedWeightShared |
