/**
 * The older network container: named input blobs, the registry of
 * weights shared by name between layers (owners, learnable ids and the
 * merged learning-rate and decay multipliers), and the index ranges its
 * forward and backward passes run over.
 */
module Networks {
  import opened Wrappers
  import opened Weight
  import opened Blobs
  import Decimal

  /**
   * What the network reads of one of its layers: the name, the weight
   * configurations of its configuration and its weight blobs.
   */
  datatype NetLayer = NetLayer(name: string, params: seq<WeightConfig>, blobs: seq<Blob>)

  /** A layer pass the network runs, in order. */
  datatype LayerCall = ForwardLayer(index: nat) | BackwardLayer(index: nat)

  /**
   * The name a weight is registered under: the configured name, read only
   * when the network already holds more than `weightId` weights.
   */
  function WeightName(params: seq<WeightConfig>, weightsLen: nat, weightId: nat): (name: string)
    requires weightsLen > weightId ==> weightId < |params|
    ensures weightsLen <= weightId ==> name == ""
    ensures weightsLen > weightId ==> name == params[weightId].name
  {
    if weightsLen > weightId then params[weightId].name else ""
  }

  /** The display name: the weight's name, or its index in decimal for an anonymous weight. */
  function DisplayName(weightName: string, weightId: nat): (r: string)
    ensures r != ""
    ensures weightName != "" ==> r == weightName
    ensures weightName == "" ==> forall i :: 0 <= i < |r| ==> Decimal.IsDigit(r[i])
    ensures weightName == "" ==> Decimal.DigitsValue(r) == weightId
  {
    Decimal.NatToStringRoundTrip(weightId);
    if weightName != "" then weightName else Decimal.NatToString(weightId)
  }

  /** Distinct anonymous weights get distinct display names. */
  lemma AnonymousDisplayNamesDistinct(m: nat, n: nat)
    requires m != n
    ensures DisplayName("", m) != DisplayName("", n)
  {
    if DisplayName("", m) == DisplayName("", n) {
      Decimal.NatToStringInjective(m, n);
    }
  }

  /** The weight configuration used for weight `weightId`: the layer's own, or the default. */
  function ConfigFor(params: seq<WeightConfig>, weightId: nat): (c: WeightConfig)
    ensures weightId < |params| ==> c == params[weightId]
    ensures weightId >= |params| ==> c == DefaultWeightConfig()
  {
    if |params| > weightId then params[weightId] else DefaultWeightConfig()
  }

  /**
   * A shared weight's multiplier: the owner's when it has one (a differing
   * sharer's value is only reported), the sharer's otherwise.
   */
  function MergeMult(owner: Option<real>, sharer: Option<real>): (r: Option<real>)
    ensures r.Some? <==> owner.Some? || sharer.Some?
    ensures owner.Some? ==> r == owner
    ensures owner.None? ==> r == sharer
  {
    match sharer
    case None => owner
    case Some(_) => if owner.Some? then owner else sharer
  }

  /** Merging is settled once: merging the result again with the same sharer changes nothing. */
  lemma MergeMultIdempotent(owner: Option<real>, sharer: Option<real>)
    ensures MergeMult(MergeMult(owner, sharer), sharer) == MergeMult(owner, sharer)
  {
  }

  /** Total loss of layers `start` up to but excluding `end`. */
  function SumLoss(layerLoss: nat -> real, start: nat, end: nat): real
    decreases end - start
  {
    if start < end then layerLoss(start) + SumLoss(layerLoss, start + 1, end) else 0.0
  }

  /** The layer passes of `start..end`, in increasing order. */
  function ForwardCalls(start: nat, end: nat): (r: seq<LayerCall>)
    ensures |r| == if start < end then end - start else 0
    ensures forall k :: 0 <= k < |r| ==> r[k] == ForwardLayer(start + k)
    decreases end - start
  {
    if start < end then [ForwardLayer(start)] + ForwardCalls(start + 1, end) else []
  }

  function BackwardCalls(start: nat, end: nat): (r: seq<LayerCall>)
    ensures |r| == if start < end then end - start else 0
    ensures forall k :: 0 <= k < |r| ==> r[k] == BackwardLayer(start + k)
    decreases end - start
  {
    if start < end then [BackwardLayer(start)] + BackwardCalls(start + 1, end) else []
  }

  lemma {:induction false} SumLossStep(layerLoss: nat -> real, start: nat, end: nat)
    requires start <= end
    ensures SumLoss(layerLoss, start, end + 1) == SumLoss(layerLoss, start, end) + layerLoss(end)
    decreases end - start
  {
    if start < end {
      SumLossStep(layerLoss, start + 1, end);
    }
  }

  /** The network's weight bookkeeping: its parallel lists and the index of weight names. */
  datatype Registry = Registry(
    weights: seq<Blob>, layerIndices: seq<(nat, nat)>, displayNames: seq<string>,
    owners: seq<Option<nat>>, namesIndex: map<string, nat>,
    learnable: seq<Blob>, learnableIds: seq<nat>, lr: seq<Option<real>>, decay: seq<Option<real>>)

  /**
   * The registry's invariant: the lists stay in step; every weight comes
   * from a layer blob; an owner-less weight is its own learnable weight;
   * a shared weight's owner comes before it, owns itself and hands it its
   * learnable id; every registered name points to an owner.
   */
  ghost predicate RegistryValid(layers: seq<NetLayer>, r: Registry)
  {
    |r.weights| == |r.layerIndices| == |r.displayNames| == |r.owners| == |r.learnableIds| &&
    |r.learnable| == |r.lr| == |r.decay| &&
    (forall i :: 0 <= i < |r.weights| ==>
      r.layerIndices[i].0 < |layers| && r.layerIndices[i].1 < |layers[r.layerIndices[i].0].blobs|) &&
    (forall i :: 0 <= i < |r.weights| ==> r.learnableIds[i] < |r.learnable|) &&
    (forall i :: 0 <= i < |r.weights| && r.owners[i].None? ==> r.learnable[r.learnableIds[i]] == r.weights[i]) &&
    (forall i :: 0 <= i < |r.weights| && r.owners[i].Some? ==>
      r.owners[i].value < i && r.owners[r.owners[i].value].None? &&
      r.learnableIds[i] == r.learnableIds[r.owners[i].value]) &&
    (forall name :: name in r.namesIndex ==> r.namesIndex[name] < |r.weights| && r.owners[r.namesIndex[name]].None?)
  }

  /** The registry of `Network::default`: every list empty. */
  function EmptyRegistry(): (r: Registry)
    ensures r.weights == [] && r.learnable == [] && r.namesIndex == map[]
  {
    Registry([], [], [], [], map[], [], [], [], [])
  }

  lemma EmptyRegistryValid(layers: seq<NetLayer>)
    ensures RegistryValid(layers, EmptyRegistry())
  {
  }

  /** Whether `append_weight` makes the weight an owner: it is anonymous or its name is new. */
  predicate Owns(name: string, r: Registry)
  {
    name == "" || name !in r.namesIndex
  }

  /**
   * The body of `append_weight` once the weight's name is known: weight
   * `weightId` of layer `layerId` joins the registry under `name`.
   */
  function AppendNamed(layers: seq<NetLayer>, r: Registry, layerId: nat, weightId: nat, name: string): Registry
    requires RegistryValid(layers, r)
    requires layerId < |layers| && weightId < |layers[layerId].blobs|
  {
    var config := ConfigFor(layers[layerId].params, weightId);
    var blob := layers[layerId].blobs[weightId];
    var common := r.(weights := r.weights + [blob], layerIndices := r.layerIndices + [(layerId, weightId)],
                     displayNames := r.displayNames + [DisplayName(name, weightId)]);
    if Owns(name, r) then
      common.(owners := r.owners + [None],
              namesIndex := if name == "" then r.namesIndex else r.namesIndex[name := |r.weights|],
              learnable := r.learnable + [blob], learnableIds := r.learnableIds + [|r.learnable|],
              lr := r.lr + [config.lrMult], decay := r.decay + [config.decayMult])
    else
      var owner := r.namesIndex[name];
      var id := r.learnableIds[owner];
      common.(owners := r.owners + [Some(owner)], learnableIds := r.learnableIds + [id],
              lr := r.lr[id := MergeMult(r.lr[id], config.lrMult)],
              decay := r.decay[id := MergeMult(r.decay[id], config.decayMult)])
  }

  /**
   * `append_weight` as written: the name is looked up with `WeightName`.
   * The registry stays valid and gains this weight as its last entry.
   */
  function AppendedRegistry(layers: seq<NetLayer>, r: Registry, layerId: nat, weightId: nat): (next: Registry)
    requires RegistryValid(layers, r)
    requires layerId < |layers| && weightId < |layers[layerId].blobs|
    requires |r.weights| > weightId ==> weightId < |layers[layerId].params|
    ensures RegistryValid(layers, next)
    ensures |next.weights| == |r.weights| + 1 && next.weights[|r.weights|] == layers[layerId].blobs[weightId]
  {
    var name := WeightName(layers[layerId].params, |r.weights|, weightId);
    AppendKeepsValid(layers, r, layerId, weightId, name);
    AppendGrowsByOne(layers, r, layerId, weightId, name);
    AppendNamed(layers, r, layerId, weightId, WeightName(layers[layerId].params, |r.weights|, weightId))
  }

  /** Appending a weight under any name keeps the registry's invariant. */
  lemma AppendKeepsValid(layers: seq<NetLayer>, r: Registry, layerId: nat, weightId: nat, name: string)
    requires RegistryValid(layers, r)
    requires layerId < |layers| && weightId < |layers[layerId].blobs|
    ensures RegistryValid(layers, AppendNamed(layers, r, layerId, weightId, name))
  {
    var next := AppendNamed(layers, r, layerId, weightId, name);
    if Owns(name, r) {
      assert next.learnable[next.learnableIds[|r.weights|]] == next.weights[|r.weights|];
    } else {
      var owner := r.namesIndex[name];
      assert next.owners[|r.weights|] == Some(owner) && owner < |r.weights|;
    }
  }

  /**
   * Every append grows the weights, their origins, display names, owners
   * and learnable ids by exactly one, with this weight's entries last.
   */
  lemma AppendGrowsByOne(layers: seq<NetLayer>, r: Registry, layerId: nat, weightId: nat, name: string)
    requires RegistryValid(layers, r)
    requires layerId < |layers| && weightId < |layers[layerId].blobs|
    ensures var next := AppendNamed(layers, r, layerId, weightId, name);
      |next.weights| == |next.layerIndices| == |next.displayNames| == |next.owners| == |next.learnableIds| == |r.weights| + 1 &&
      next.weights[..|r.weights|] == r.weights && next.weights[|r.weights|] == layers[layerId].blobs[weightId] &&
      next.layerIndices[|r.weights|] == (layerId, weightId) &&
      next.displayNames[|r.weights|] == DisplayName(name, weightId)
  {
    AppendKeepsValid(layers, r, layerId, weightId, name);
  }

  /**
   * An anonymous or first-seen weight owns itself: a new learnable weight
   * with the configuration's multipliers, and a non-empty name is
   * registered to it.
   */
  lemma AppendOwner(layers: seq<NetLayer>, r: Registry, layerId: nat, weightId: nat, name: string)
    requires RegistryValid(layers, r)
    requires layerId < |layers| && weightId < |layers[layerId].blobs|
    requires Owns(name, r)
    ensures var next := AppendNamed(layers, r, layerId, weightId, name);
      var config := ConfigFor(layers[layerId].params, weightId);
      next.owners[|r.weights|] == None &&
      (name != "" ==> name in next.namesIndex && next.namesIndex[name] == |r.weights|) &&
      |next.learnable| == |next.lr| == |next.decay| == |r.learnable| + 1 &&
      next.learnable[|r.learnable|] == layers[layerId].blobs[weightId] &&
      next.learnableIds[|r.weights|] == |r.learnable| &&
      next.lr[|r.learnable|] == config.lrMult && next.decay[|r.learnable|] == config.decayMult
  {
  }

  /**
   * A weight whose name is already registered shares: its owner is the
   * registered weight, it takes the owner's learnable id, no learnable
   * weight is added, and the owner's missing multipliers are filled in
   * from this weight's configuration while set ones are kept.
   */
  lemma AppendSharer(layers: seq<NetLayer>, r: Registry, layerId: nat, weightId: nat, name: string)
    requires RegistryValid(layers, r)
    requires layerId < |layers| && weightId < |layers[layerId].blobs|
    requires !Owns(name, r)
    ensures var next := AppendNamed(layers, r, layerId, weightId, name);
      var config := ConfigFor(layers[layerId].params, weightId);
      var owner := r.namesIndex[name];
      var id := r.learnableIds[owner];
      next.owners[|r.weights|] == Some(owner) && r.owners[owner].None? &&
      next.learnableIds[|r.weights|] == id && next.learnable == r.learnable && next.namesIndex == r.namesIndex &&
      |next.lr| == |r.lr| && (forall k :: 0 <= k < |r.lr| && k != id ==> next.lr[k] == r.lr[k]) &&
      (r.lr[id].Some? ==> next.lr[id] == r.lr[id]) && (r.lr[id].None? ==> next.lr[id] == config.lrMult) &&
      |next.decay| == |r.decay| && (forall k :: 0 <= k < |r.decay| && k != id ==> next.decay[k] == r.decay[k]) &&
      (r.decay[id].Some? ==> next.decay[id] == r.decay[id]) && (r.decay[id].None? ==> next.decay[id] == config.decayMult)
  {
  }

  /**
   * The name lookup as it is evidently meant (and as the configuration
   * lookup two steps later does it): the configured name whenever the
   * layer configures this weight, whatever the network already holds.
   */
  function WeightNameIntended(params: seq<WeightConfig>, weightId: nat): (name: string)
    ensures weightId < |params| ==> name == params[weightId].name
    ensures weightId >= |params| ==> name == ""
  {
    if |params| > weightId then params[weightId].name else ""
  }

  /** `append_weight` with the intended name lookup; it needs nothing of the layer's configuration. */
  function AppendedRegistryIntended(layers: seq<NetLayer>, r: Registry, layerId: nat, weightId: nat): (next: Registry)
    requires RegistryValid(layers, r)
    requires layerId < |layers| && weightId < |layers[layerId].blobs|
    ensures RegistryValid(layers, next)
    ensures |next.weights| == |r.weights| + 1 && next.weights[|r.weights|] == layers[layerId].blobs[weightId]
  {
    var name := WeightNameIntended(layers[layerId].params, weightId);
    AppendKeepsValid(layers, r, layerId, weightId, name);
    AppendGrowsByOne(layers, r, layerId, weightId, name);
    AppendNamed(layers, r, layerId, weightId, WeightNameIntended(layers[layerId].params, weightId))
  }

  /** A layer with one weight blob configured under `name`. */
  function OneWeightLayer(layerName: string, name: string, blob: Blob): NetLayer
  {
    NetLayer(layerName, [WeightConfig(name, Strict, None, None, None)], [blob])
  }

  /**
   * As written, the first weight of the first layer is always anonymous:
   * two layers that both configure their weight under "shared" do not
   * share, and the network ends with two learnable weights.
   */
  lemma FirstNamedWeightNotShared(b0: Blob, b1: Blob)
    ensures var layers := [OneWeightLayer("a", "shared", b0), OneWeightLayer("b", "shared", b1)];
      var r1 := AppendedRegistry(layers, EmptyRegistry(), 0, 0);
      var r2 := AppendedRegistry(layers, r1, 1, 0);
      r1.displayNames == ["0"] && r2.owners == [None, None] && |r2.learnable| == 2
  {
    var layers := [OneWeightLayer("a", "shared", b0), OneWeightLayer("b", "shared", b1)];
    EmptyRegistryValid(layers);
    AppendKeepsValid(layers, EmptyRegistry(), 0, 0, "");
    var r1 := AppendedRegistry(layers, EmptyRegistry(), 0, 0);
    assert Decimal.NatToString(0) == "0";
    assert r1.namesIndex == map[];
  }

  /**
   * With the intended lookup the same two layers share one learnable
   * weight: the second weight's owner is the first.
   */
  lemma IntendedNamedWeightShared(b0: Blob, b1: Blob)
    ensures var layers := [OneWeightLayer("a", "shared", b0), OneWeightLayer("b", "shared", b1)];
      var r1 := AppendedRegistryIntended(layers, EmptyRegistry(), 0, 0);
      var r2 := AppendedRegistryIntended(layers, r1, 1, 0);
      r1.displayNames == ["shared"] && r2.owners == [None, Some(0)] && |r2.learnable| == 1
  {
    var layers := [OneWeightLayer("a", "shared", b0), OneWeightLayer("b", "shared", b1)];
    EmptyRegistryValid(layers);
    AppendKeepsValid(layers, EmptyRegistry(), 0, 0, "shared");
    var r1 := AppendedRegistryIntended(layers, EmptyRegistry(), 0, 0);
    assert r1.namesIndex == map["shared" := 0];
  }

  /**
   * As written, a second layer whose weight has no configuration cannot
   * be appended: the lookup demands a configuration the layer lacks. The
   * intended lookup accepts it as an anonymous owner.
   */
  lemma UnconfiguredWeightAfterFirst(layers: seq<NetLayer>, r: Registry, layerId: nat)
    requires RegistryValid(layers, r) && |r.weights| > 0
    requires layerId < |layers| && |layers[layerId].blobs| > 0 && layers[layerId].params == []
    ensures !(|r.weights| > 0 ==> 0 < |layers[layerId].params|)
    ensures AppendedRegistryIntended(layers, r, layerId, 0).owners == r.owners + [None]
  {
  }

  class Network {
    var layers: seq<NetLayer>
    var blobs: seq<Blob>
    var blobNames: seq<string>
    var inputBlobs: seq<Blob>
    var outputBlobs: seq<Blob>
    /** The weights, their owners, display names and origins, and the learnable weights with their multipliers. */
    var reg: Registry
    /** The layer passes run so far. */
    var trace: seq<LayerCall>

    /** The blob names follow the blobs, and the weight registry keeps its invariant. */
    ghost predicate Valid()
      reads `blobs, `blobNames, `layers, `reg
    {
      |blobs| == |blobNames| && RegistryValid(layers, reg)
    }

    /** `Network::default`: nothing at all, over the given layers. */
    constructor (layers: seq<NetLayer>)
      ensures Valid() && this.layers == layers && trace == []
      ensures blobs == [] && blobNames == [] && inputBlobs == [] && outputBlobs == []
      ensures reg == EmptyRegistry()
    {
      this.layers := layers;
      blobs, blobNames, inputBlobs, outputBlobs := [], [], [], [];
      reg := EmptyRegistry();
      trace := [];
      new;
      EmptyRegistryValid(layers);
    }

    /**
     * `init_input_blob`: a name already in the registry changes nothing;
     * otherwise a new blob of the given shape is appended to the blobs
     * and the input blobs, under that name, and registered.
     */
    method InitInputBlob(blobName: string, inputShape: seq<nat>, registry: map<string, Blob>)
      returns (r: map<string, Blob>)
      requires Valid()
      modifies `blobs, `blobNames, `inputBlobs
      ensures Valid()
      ensures blobName in registry ==>
        r == registry && blobs == old(blobs) && blobNames == old(blobNames) && inputBlobs == old(inputBlobs)
      ensures blobName !in registry ==>
        |blobs| == |old(blobs)| + 1 && blobs[..|old(blobs)|] == old(blobs) &&
        var blob := blobs[|old(blobs)|];
        fresh(blob) && blob.Valid() && blob.shape == AsSigned(inputShape) &&
        blobNames == old(blobNames) + [blobName] && inputBlobs == old(inputBlobs) + [blob] &&
        r == registry[blobName := blob]
    {
      if blobName in registry {
        r := registry;
        return;
      }
      var blob := new Blob.New();
      blobs := blobs + [blob];
      blobNames := blobNames + [blobName];
      blob.Reshape(AsSigned(inputShape));
      inputBlobs := inputBlobs + [blob];
      r := registry[blobName := blob];
    }

    /**
     * `append_weight`: weight `weightId` of layer `layerId` joins the
     * registry as `AppendedRegistry` describes; the configured name is
     * read only when the network already holds more than `weightId`
     * weights, and then it must exist.
     */
    method AppendWeight(layerId: nat, weightId: nat)
      requires Valid()
      requires layerId < |layers| && weightId < |layers[layerId].blobs|
      requires |reg.weights| > weightId ==> weightId < |layers[layerId].params|
      modifies `reg
      ensures Valid()
      ensures reg == AppendedRegistry(layers, old(reg), layerId, weightId)
    {
      AppendKeepsValid(layers, reg, layerId, weightId, WeightName(layers[layerId].params, |reg.weights|, weightId));
      reg := AppendedRegistry(layers, reg, layerId, weightId);
    }

    /**
     * `share_weights`: every shared weight is replaced by its owner's blob,
     * owners keep theirs. Sharing asserts equal capacities.
     */
    method ShareWeights()
      requires Valid()
      requires forall i :: 0 <= i < |reg.weights| && reg.owners[i].Some? ==>
        reg.weights[i].dataCapacity == reg.weights[reg.owners[i].value].dataCapacity
      modifies `reg
      ensures Valid()
      ensures reg == old(reg).(weights := reg.weights)
      ensures |reg.weights| == |old(reg.weights)|
      ensures forall i :: 0 <= i < |reg.weights| ==>
        reg.weights[i] == if reg.owners[i].Some? then old(reg.weights)[reg.owners[i].value] else old(reg.weights)[i]
      ensures forall i :: 0 <= i < |reg.weights| ==> reg.weights[i] == reg.learnable[reg.learnableIds[i]]
    {
      var n := |reg.weights|;
      for i := 0 to n
        invariant Valid() && |reg.weights| == n
        invariant reg == old(reg).(weights := reg.weights)
        invariant forall j :: 0 <= j < n && reg.owners[j].None? ==> reg.weights[j] == old(reg.weights)[j]
        invariant forall j :: 0 <= j < i && reg.owners[j].Some? ==> reg.weights[j] == old(reg.weights)[reg.owners[j].value]
        invariant forall j :: i <= j < n ==> reg.weights[j] == old(reg.weights)[j]
      {
        match reg.owners[i]
        case Some(j) =>
          reg := reg.(weights := reg.weights[i := reg.weights[j]]);
        case None =>
      }
    }

    /**
     * `forward_from_to`: the layers `start` up to but excluding `end`, in
     * order, each adding its loss (supplied here by `layerLoss`).
     */
    method ForwardFromTo(start: nat, end: nat, layerLoss: nat -> real) returns (loss: real)
      requires end < |layers|
      modifies `trace
      ensures loss == SumLoss(layerLoss, start, end)
      ensures trace == old(trace) + ForwardCalls(start, end)
    {
      loss := 0.0;
      if start < end {
        for i := start to end
          invariant loss == SumLoss(layerLoss, start, i)
          invariant trace == old(trace) + ForwardCalls(start, i)
        {
          SumLossStep(layerLoss, start, i);
          ForwardCallsStep(start, i);
          loss := loss + layerLoss(i);
          trace := trace + [ForwardLayer(i)];
        }
      }
    }

    /**
     * `forward_prefilled`: a forward pass over `0..len - 1`, so the last
     * layer never runs; an empty network underflows.
     */
    method ForwardPrefilled(layerLoss: nat -> real) returns (outputs: seq<Blob>, loss: real)
      requires |layers| > 0
      modifies `trace
      ensures loss == SumLoss(layerLoss, 0, |layers| - 1)
      ensures trace == old(trace) + ForwardCalls(0, |layers| - 1)
      ensures ForwardLayer(|layers| - 1) !in trace[|old(trace)|..]
      ensures outputs == outputBlobs
    {
      loss := ForwardFromTo(0, |layers| - 1, layerLoss);
      assert trace[|old(trace)|..] == ForwardCalls(0, |layers| - 1);
      outputs := outputBlobs;
    }

    /** `forward`: the given inputs replace the first input blobs, then a prefilled forward pass. */
    method Forward(input: seq<Blob>, layerLoss: nat -> real) returns (outputs: seq<Blob>, loss: real)
      requires |input| <= |inputBlobs| && |layers| > 0
      modifies `inputBlobs, `trace
      ensures inputBlobs == input + old(inputBlobs)[|input|..]
      ensures loss == SumLoss(layerLoss, 0, |layers| - 1)
      ensures trace == old(trace) + ForwardCalls(0, |layers| - 1)
      ensures outputs == outputBlobs
    {
      SetInputs(input);
      outputs, loss := ForwardPrefilled(layerLoss);
    }

    /** The loop of `forward`: input `i` replaces input blob `i`. */
    method SetInputs(input: seq<Blob>)
      requires |input| <= |inputBlobs|
      modifies `inputBlobs
      ensures inputBlobs == input + old(inputBlobs)[|input|..]
    {
      for i := 0 to |input|
        invariant |inputBlobs| == |old(inputBlobs)|
        invariant forall j :: 0 <= j < i ==> inputBlobs[j] == input[j]
        invariant forall j :: i <= j < |inputBlobs| ==> inputBlobs[j] == old(inputBlobs)[j]
      {
        inputBlobs := inputBlobs[i := input[i]];
      }
      assert forall j :: 0 <= j < |inputBlobs| ==> inputBlobs[j] == (input + old(inputBlobs)[|input|..])[j];
    }

    /** `forward_backward`: a forward pass over the inputs, then a backward pass; the forward loss. */
    method ForwardBackward(input: seq<Blob>, layerLoss: nat -> real) returns (loss: real)
      requires |input| <= |inputBlobs| && |layers| > 0
      modifies `inputBlobs, `trace
      ensures inputBlobs == input + old(inputBlobs)[|input|..]
      ensures loss == SumLoss(layerLoss, 0, |layers| - 1)
      ensures trace == old(trace) + ForwardCalls(0, |layers| - 1)
    {
      var _, forwardLoss := Forward(input, layerLoss);
      Backward();
      loss := forwardLoss;
    }

    /** `backward_from_to`: the layers `start` up to but excluding `end`, in increasing order. */
    method BackwardFromTo(start: nat, end: nat)
      requires start < |layers|
      requires start < end ==> end <= |layers|
      modifies `trace
      ensures trace == old(trace) + BackwardCalls(start, end)
    {
      if start < end {
        for i := start to end
          invariant trace == old(trace) + BackwardCalls(start, i)
        {
          BackwardCallsStep(start, i);
          trace := trace + [BackwardLayer(i)];
        }
      }
    }

    /** `backward`: `backward_from_to(len - 1, 0)`, an empty range: no layer runs. */
    method Backward()
      requires |layers| > 0
      modifies `trace
      ensures trace == old(trace)
    {
      BackwardFromTo(|layers| - 1, 0);
    }

    /** `clear_weight_diffs`: the zeroing is commented out, so nothing changes. */
    method ClearWeightDiffs()
      ensures forall w :: w in reg.learnable ==> w.diff == old(w.diff)
    {
      for k := 0 to |reg.learnable| {
      }
    }
  }

  /** The unsigned dimensions of an input shape as the blob's signed ones. */
  function AsSigned(shape: seq<nat>): (r: seq<int>)
    ensures |r| == |shape| && forall k :: 0 <= k < |shape| ==> r[k] == shape[k]
  {
    if |shape| == 0 then [] else AsSigned(shape[..|shape| - 1]) + [shape[|shape| - 1] as int]
  }

  lemma {:induction false} ForwardCallsStep(start: nat, end: nat)
    requires start <= end
    ensures ForwardCalls(start, end + 1) == ForwardCalls(start, end) + [ForwardLayer(end)]
  {
  }

  lemma {:induction false} BackwardCallsStep(start: nat, end: nat)
    requires start <= end
    ensures BackwardCalls(start, end + 1) == BackwardCalls(start, end) + [BackwardLayer(end)]
  {
  }

  /** The prefilled pass over `n` layers never runs the last one and misses exactly its loss. */
  lemma ForwardPrefilledSkipsLast(layerLoss: nat -> real, n: nat)
    requires n > 0
    ensures SumLoss(layerLoss, 0, n - 1) == SumLoss(layerLoss, 0, n) - layerLoss(n - 1)
    ensures ForwardLayer(n - 1) !in ForwardCalls(0, n - 1)
  {
    SumLossStep(layerLoss, 0, n - 1);
  }
}
