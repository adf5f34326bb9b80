/**
 * Shape inference shared by the filter-based layers (convolution and
 * pooling): the spatial output formula and the one-value broadcast of
 * filter size, stride and padding. Every panic of the source is an
 * `Err(ShapeError)` here.
 */
module FilterLayer {
  import opened Wrappers

  /** Which of the three per-layer settings a broadcast error is about. */
  datatype FilterParam = FilterShape | Stride | Padding

  datatype ShapeError =
    | UnsupportedRank(rank: nat)
      // one value per spatial dimension is rejected as not implemented
    | PerDimensionUnimplemented(param: FilterParam)
      // neither one value nor one per spatial dimension
    | WrongCount(param: FilterParam, supplied: nat)
      // `input + 2*padding - filter` would underflow the unsigned subtraction
    | SubtractOverflow(dim: nat)
    | DivisionByZero(dim: nat)
  {
    /** Whether this is a broadcast rejection of `p`. */
    predicate Rejects(p: FilterParam)
    {
      (PerDimensionUnimplemented? || WrongCount?) && param == p
    }
  }

  /** The arity declared by every layer that uses the common layer macro. */
  datatype BlobArity = BlobArity(exactInputs: Option<nat>, exactOutputs: Option<nat>)

  const CommonArity: BlobArity := BlobArity(Some(1), Some(1))

  /** Whether dimension `i` of the formula can be evaluated without a panic. */
  predicate DimComputable(input: nat, filter: nat, padding: nat, stride: nat)
  {
    filter <= input + 2 * padding && stride > 0
  }

  /** One spatial output dimension, with the panics the source raises on the way. */
  function OutputDim(i: nat, input: nat, filter: nat, padding: nat, stride: nat): (r: Result<nat, ShapeError>)
    ensures r.Ok? <==> DimComputable(input, filter, padding, stride)
    ensures filter > input + 2 * padding ==> r == Err(SubtractOverflow(i))
    ensures filter <= input + 2 * padding && stride == 0 ==> r == Err(DivisionByZero(i))
    ensures r.Ok? ==> r.value >= 1 && r.value * stride <= input + 2 * padding - filter + stride
  {
    if filter > input + 2 * padding then Err(SubtractOverflow(i))
    else if stride == 0 then Err(DivisionByZero(i))
    else Ok((input + 2 * padding - filter) / stride + 1)
  }

  /**
   * `calculate_spatial_output_dims`: one output dimension per input
   * dimension, in order, each `(input + 2*padding - filter) / stride + 1`
   * with floor division. The first dimension that would panic is reported.
   */
  function SpatialOutputDims(input: seq<nat>, filter: seq<nat>, padding: seq<nat>, stride: seq<nat>): (r: Result<seq<nat>, ShapeError>)
    requires |filter| >= |input| && |padding| >= |input| && |stride| >= |input|
    ensures r.Ok? <==> forall i :: 0 <= i < |input| ==> DimComputable(input[i], filter[i], padding[i], stride[i])
    ensures r.Ok? ==> |r.value| == |input|
    ensures r.Ok? ==> forall i :: 0 <= i < |input| ==>
      r.value[i] == (input[i] + 2 * padding[i] - filter[i]) / stride[i] + 1
    ensures r.Err? ==> exists i :: (0 <= i < |input| && !DimComputable(input[i], filter[i], padding[i], stride[i])
      && r.error == OutputDim(i, input[i], filter[i], padding[i], stride[i]).error
      && forall j :: 0 <= j < i ==> DimComputable(input[j], filter[j], padding[j], stride[j]))
    decreases |input|
  {
    if |input| == 0 then Ok([])
    else
      var last := |input| - 1;
      var prefix := SpatialOutputDims(input[..last], filter, padding, stride);
      if prefix.Err? then prefix
      else
        var dim := OutputDim(last, input[last], filter[last], padding[last], stride[last]);
        if dim.Err? then Err(dim.error) else Ok(prefix.value + [dim.value])
  }

  /**
   * The rule shared by `spatial_filter_dims`, `stride_dims` and
   * `padding_dims`: a single configured value is repeated once per spatial
   * dimension; one value per dimension is rejected as unimplemented and any
   * other count as wrong. A single value always takes the first branch,
   * even when there is exactly one spatial dimension.
   */
  function Broadcast(values: seq<nat>, numSpatialDims: nat, param: FilterParam): (r: Result<seq<nat>, ShapeError>)
    ensures r.Ok? <==> |values| == 1
    ensures r.Ok? ==> |r.value| == numSpatialDims && forall i :: 0 <= i < numSpatialDims ==> r.value[i] == values[0]
    ensures |values| != 1 && |values| == numSpatialDims ==> r == Err(PerDimensionUnimplemented(param))
    ensures |values| != 1 && |values| != numSpatialDims ==> r == Err(WrongCount(param, |values|))
  {
    if |values| == 1 then Ok(seq(numSpatialDims, _ => values[0]))
    else if |values| == numSpatialDims then Err(PerDimensionUnimplemented(param))
    else Err(WrongCount(param, |values|))
  }

  /** The filter, stride and padding settings a filter-based layer is configured with. */
  datatype FilterConfig = FilterConfig(filterShape: seq<nat>, stride: seq<nat>, padding: seq<nat>)
  {
    function SpatialFilterDims(numSpatialDims: nat): (r: Result<seq<nat>, ShapeError>)
      ensures r.Ok? <==> |filterShape| == 1
      ensures r.Ok? ==> r.value == seq(numSpatialDims, _ => filterShape[0])
      ensures r.Err? ==> r.error.Rejects(FilterShape)
    {
      Broadcast(filterShape, numSpatialDims, FilterShape)
    }

    function StrideDims(numSpatialDims: nat): (r: Result<seq<nat>, ShapeError>)
      ensures r.Ok? <==> |stride| == 1
      ensures r.Ok? ==> r.value == seq(numSpatialDims, _ => stride[0])
      ensures r.Err? ==> r.error.Rejects(Stride)
    {
      Broadcast(stride, numSpatialDims, Stride)
    }

    function PaddingDims(numSpatialDims: nat): (r: Result<seq<nat>, ShapeError>)
      ensures r.Ok? <==> |padding| == 1
      ensures r.Ok? ==> r.value == seq(numSpatialDims, _ => padding[0])
      ensures r.Err? ==> r.error.Rejects(Padding)
    {
      Broadcast(padding, numSpatialDims, Padding)
    }

    /** Whether all three settings broadcast and every spatial dimension can be computed. */
    predicate AcceptsSpatial(inputSpatial: seq<nat>)
    {
      |filterShape| == 1 && |stride| == 1 && |padding| == 1 &&
      forall i :: 0 <= i < |inputSpatial| ==> DimComputable(inputSpatial[i], filterShape[0], padding[0], stride[0])
    }

    /**
     * The spatial part of `calculate_output_shape` for both filter layers:
     * broadcast the filter, then the padding, then the stride (the order
     * in which their panics are raised), then apply the formula.
     */
    function SpatialOutput(inputSpatial: seq<nat>): (r: Result<seq<nat>, ShapeError>)
      ensures r.Ok? <==> AcceptsSpatial(inputSpatial)
      ensures r.Ok? ==> |r.value| == |inputSpatial| && forall i :: 0 <= i < |inputSpatial| ==>
        r.value[i] == (inputSpatial[i] + 2 * padding[0] - filterShape[0]) / stride[0] + 1
      ensures |filterShape| != 1 ==> r.Err? && r.error.Rejects(FilterShape)
      ensures |filterShape| == 1 && |padding| != 1 ==> r.Err? && r.error.Rejects(Padding)
      ensures |filterShape| == 1 && |padding| == 1 && |stride| != 1 ==> r.Err? && r.error.Rejects(Stride)
    {
      var n := |inputSpatial|;
      var filter :- SpatialFilterDims(n);
      var pad :- PaddingDims(n);
      var str :- StrideDims(n);
      SpatialOutputDims(inputSpatial, filter, pad, str)
    }
  }
}
