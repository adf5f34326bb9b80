/**
 * Training configuration of a weight blob: the sharing check between two
 * weights, the learning-rate and decay multipliers with their defaults,
 * and the constant filler.
 */
module Weight {
  import opened Wrappers
  import opened Tensors

  /** How strictly two shared weights must agree. */
  datatype DimCheckMode = Strict | Permissive

  /** How a weight is initialised; the Glorot filler draws random numbers and is not modelled. */
  datatype FillerType = Constant(value: real) | Glorot(inputSize: nat, outputSize: nat)

  datatype WeightConfig = WeightConfig(
    name: string,
    shareMode: DimCheckMode,
    lrMult: Option<real>,
    decayMult: Option<real>,
    filler: Option<FillerType>)
  {
    /** The multiplier on the global learning rate: the stored one, 1.0 when none is stored. */
    function LrMult(): (r: real)
      ensures lrMult.Some? ==> r == lrMult.value
      ensures lrMult.None? ==> r == 1.0
    {
      lrMult.GetOr(1.0)
    }

    /** The multiplier on the global weight decay: the stored one, 1.0 when none is stored. */
    function DecayMult(): (r: real)
      ensures decayMult.Some? ==> r == decayMult.value
      ensures decayMult.None? ==> r == 1.0
    {
      decayMult.GetOr(1.0)
    }
  }

  /** The default: anonymous, strict sharing, no multipliers, no filler. */
  function DefaultWeightConfig(): (c: WeightConfig)
    ensures c.name == "" && c.shareMode == Strict && c.filler.None?
  {
    WeightConfig("", Strict, None, None, None)
  }

  /** The default configuration's multipliers both read as 1.0, as its documentation promises. */
  lemma DefaultMultipliers()
    ensures DefaultWeightConfig().LrMult() == 1.0 && DefaultWeightConfig().DecayMult() == 1.0
  {
  }

  /** What a failed sharing check reports: the mode, the three names and the two shapes. */
  datatype ShareError = ShareError(mode: DimCheckMode, paramName: string, ownerName: string, layerName: string,
                                   ownerShape: Shape, sharingShape: Shape)

  /**
   * `check_dimensions` as written: in BOTH modes only the element counts
   * of the sharing tensor `one` and the owner tensor `two` are compared.
   */
  function CheckDimensions(config: WeightConfig, one: Shape, two: Shape,
                           paramName: string, ownerName: string, layerName: string): (r: Result<(), ShareError>)
    ensures r.Ok? <==> Size(one) == Size(two)
    ensures r.Err? ==> r.error == ShareError(config.shareMode, paramName, ownerName, layerName, two, one)
  {
    if Size(one) != Size(two) then Err(ShareError(config.shareMode, paramName, ownerName, layerName, two, one))
    else Ok(())
  }

  /** Permissive sharing: `[2,3,3]` and `[3,2,3]` may share, `[3,10,3]` may share with neither. */
  lemma PermissiveExamples()
    ensures CheckDimensions(DefaultWeightConfig().(shareMode := Permissive), [2, 3, 3], [2, 3, 3], "foo", "owner", "layer").Ok?
    ensures CheckDimensions(DefaultWeightConfig().(shareMode := Permissive), [2, 3, 3], [3, 2, 3], "foo", "owner", "layer").Ok?
    ensures CheckDimensions(DefaultWeightConfig().(shareMode := Permissive), [2, 3, 3], [3, 10, 3], "foo", "owner", "layer").Err?
    ensures CheckDimensions(DefaultWeightConfig().(shareMode := Permissive), [3, 2, 3], [3, 10, 3], "foo", "owner", "layer").Err?
  {
    SizeOfThree(2, 3, 3);
    SizeOfThree(3, 2, 3);
    SizeOfThree(3, 10, 3);
  }

  lemma SizeOfThree(a: nat, b: nat, c: nat)
    ensures Size([a, b, c]) == a * b * c
  {
    assert [a, b, c][..2] == [a, b];
    SizePair(a, b);
  }

  /**
   * The strict check as written accepts two shapes that differ but hold
   * the same number of elements: the documented "shapes must match" is
   * not enforced.
   */
  lemma StrictAcceptsDifferentShapes()
    ensures [2, 3, 3] != [3, 2, 3]
    ensures CheckDimensions(DefaultWeightConfig(), [2, 3, 3], [3, 2, 3], "foo", "owner", "layer").Ok?
  {
    SizeOfThree(2, 3, 3);
    SizeOfThree(3, 2, 3);
    assert [2, 3, 3][0] != [3, 2, 3][0];
  }

  /**
   * The check as documented: Permissive compares element counts, Strict
   * demands identical shapes.
   */
  function CheckDimensionsIntended(config: WeightConfig, one: Shape, two: Shape,
                                   paramName: string, ownerName: string, layerName: string): (r: Result<(), ShareError>)
    ensures config.shareMode == Permissive ==> (r.Ok? <==> Size(one) == Size(two))
    ensures config.shareMode == Strict ==> (r.Ok? <==> one == two)
    ensures r.Err? ==> r.error == ShareError(config.shareMode, paramName, ownerName, layerName, two, one)
  {
    match config.shareMode
    case Permissive => CheckDimensions(config, one, two, paramName, ownerName, layerName)
    case Strict =>
      if one != two then Err(ShareError(Strict, paramName, ownerName, layerName, two, one)) else Ok(())
  }

  /** The intended strict check rejects the test's `[2,3,3]` against `[3,2,3]` and accepts a shape against itself. */
  lemma StrictIntendedExamples()
    ensures CheckDimensionsIntended(DefaultWeightConfig(), [2, 3, 3], [2, 3, 3], "foo", "owner", "layer").Ok?
    ensures CheckDimensionsIntended(DefaultWeightConfig(), [2, 3, 3], [3, 2, 3], "foo", "owner", "layer").Err?
  {
    assert [2, 3, 3][0] != [3, 2, 3][0];
  }

  /** Whatever the intended check accepts, the check as written accepts too; they differ only on Strict. */
  lemma IntendedIsStricter(config: WeightConfig, one: Shape, two: Shape, paramName: string, ownerName: string, layerName: string)
    ensures CheckDimensionsIntended(config, one, two, paramName, ownerName, layerName).Ok? ==>
      CheckDimensions(config, one, two, paramName, ownerName, layerName).Ok?
    ensures config.shareMode == Permissive ==>
      CheckDimensionsIntended(config, one, two, paramName, ownerName, layerName) ==
      CheckDimensions(config, one, two, paramName, ownerName, layerName)
  {
  }

  /** `fill_constant`: every element of the tensor's native memory becomes `value`. */
  method FillConstant(weight: SharedTensor, value: real)
    modifies weight.mem
    ensures forall i :: 0 <= i < weight.mem.Length ==> weight.mem[i] == value
  {
    var memory := weight.mem;
    for i := 0 to memory.Length
      invariant forall j :: 0 <= j < i ==> memory[j] == value
    {
      memory[i] := value;
    }
  }
}
