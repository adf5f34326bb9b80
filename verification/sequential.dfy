/**
 * The sequential container: a configuration listing child layers and
 * named, shaped inputs; the wiring that chains each child's output to the
 * next child's input (reusing an earlier output for layers that compute
 * in place); and the container object that runs its children forward in
 * order and backward in reverse order.
 */
module SequentialContainer {
  import opened Wrappers
  import opened Tensors
  import opened Decimal
  import opened Seqs
  import opened Layers

  /** A layer that can lend its first output to a following in-place layer. */
  predicate InPlaceSource(l: LayerConfig)
  {
    !l.supportsInPlace && |l.outputs| > 0
  }

  /** Walks back from layer `k - 1` to the nearest in-place source. */
  function SearchBack(layers: seq<LayerConfig>, k: nat): Option<string>
    requires k <= |layers|
  {
    if k == 0 then None
    else if InPlaceSource(layers[k - 1]) then Some(layers[k - 1].outputs[0])
    else SearchBack(layers, k - 1)
  }

  /** The search finds the first output of the nearest in-place source before `k`, and fails only when there is none. */
  lemma {:induction false} SearchBackSpec(layers: seq<LayerConfig>, k: nat)
    requires k <= |layers|
    ensures SearchBack(layers, k).None? <==> forall j :: 0 <= j < k ==> !InPlaceSource(layers[j])
    ensures SearchBack(layers, k).Some? ==>
      exists j :: 0 <= j < k && InPlaceSource(layers[j]) && SearchBack(layers, k).value == layers[j].outputs[0] &&
        forall i :: j < i < k ==> !InPlaceSource(layers[i])
  {
    if k > 0 && !InPlaceSource(layers[k - 1]) {
      SearchBackSpec(layers, k - 1);
    }
  }

  datatype SequentialConfig = SequentialConfig(layers: seq<LayerConfig>, inputs: seq<(string, Shape)>, forceBackward: bool)
  {
    /**
     * The tensor an in-place layer `n` reads and writes: the first output
     * of the nearest earlier layer that does not work in place, else the
     * container's first input; nothing for other layers.
     */
    function FindInPlaceOutput(n: nat): (r: Option<string>)
      ensures r.Some? ==> n < |layers| && layers[n].supportsInPlace
      ensures n < |layers| && layers[n].supportsInPlace ==>
        (r.None? <==> (|inputs| == 0 && forall j :: 0 <= j < n ==> !InPlaceSource(layers[j])))
      ensures r.Some? && (forall j :: 0 <= j < n ==> !InPlaceSource(layers[j])) ==> r.value == inputs[0].0
      ensures r.Some? && (exists j :: 0 <= j < n && InPlaceSource(layers[j])) ==>
        exists j :: 0 <= j < n && InPlaceSource(layers[j]) && r.value == layers[j].outputs[0] &&
          forall i :: j < i < n ==> !InPlaceSource(layers[i])
    {
      if n < |layers| && layers[n].supportsInPlace then
        SearchBackSpec(layers, n);
        match SearchBack(layers, n)
        case Some(name) => Some(name)
        case None => if |inputs| > 0 then Some(inputs[0].0) else None
      else
        None
    }

    function AddLayer(layer: LayerConfig): (r: SequentialConfig)
      ensures r.layers == layers + [layer]
      ensures r.inputs == inputs && r.forceBackward == forceBackward
    {
      this.(layers := layers + [layer])
    }

    function AddInput(inputName: string, shape: Shape): (r: SequentialConfig)
      ensures r.inputs == inputs + [(inputName, shape)]
      ensures r.layers == layers && r.forceBackward == forceBackward
    {
      this.(inputs := inputs + [(inputName, shape)])
    }
  }

  function DefaultConfig(): SequentialConfig
  {
    SequentialConfig([], [], false)
  }

  /** Appending a layer does not change which tensor an earlier layer computes in place on. */
  lemma AddLayerKeepsInPlace(config: SequentialConfig, layer: LayerConfig, n: nat)
    requires n < |config.layers|
    ensures config.AddLayer(layer).FindInPlaceOutput(n) == config.FindInPlaceOutput(n)
  {
    var extended := config.AddLayer(layer).layers;
    assert forall j :: 0 <= j <= n ==> extended[j] == config.layers[j];
    SearchBackAgree(extended, config.layers, n);
  }

  lemma {:induction false} SearchBackAgree(a: seq<LayerConfig>, b: seq<LayerConfig>, k: nat)
    requires k <= |a| && k <= |b|
    requires forall j :: 0 <= j < k ==> a[j] == b[j]
    ensures SearchBack(a, k) == SearchBack(b, k)
  {
    if k > 0 {
      SearchBackAgree(a, b, k - 1);
    }
  }

  /** The default configuration is empty, so no layer computes in place. */
  lemma DefaultHasNoInPlace(n: nat)
    ensures DefaultConfig().layers == [] && DefaultConfig().inputs == [] && !DefaultConfig().forceBackward
    ensures DefaultConfig().FindInPlaceOutput(n) == None
  {
  }

  // ---------------------------------------------------------------------
  // Wiring

  /** The container's input names, appended to the inputs of the first layer. */
  function WithContainerInputs(layers: seq<LayerConfig>, names: seq<string>): (r: seq<LayerConfig>)
    ensures |r| == |layers|
  {
    if |layers| == 0 then layers else layers[0 := layers[0].(inputs := layers[0].inputs + names)]
  }

  /** The producer's first output is already the consumer's first input. */
  predicate AlreadyConnected(producer: LayerConfig, consumer: LayerConfig)
  {
    |producer.outputs| > 0 && |consumer.inputs| > 0 && producer.outputs[0] == consumer.inputs[0]
  }

  /** The name given to the link after layer `i`. */
  function LinkName(config: SequentialConfig, i: nat): string
  {
    match config.FindInPlaceOutput(i)
    case Some(name) => name
    case None => "SEQUENTIAL_" + NatToString(i)
  }

  function OutputName(i: nat): string
  {
    "SEQUENTIAL_OUTPUT_" + NatToString(i)
  }

  /** Step `i` of the wiring loop on the partly wired configuration. */
  function ConnectStep(config: SequentialConfig, i: nat): (r: SequentialConfig)
    requires i < |config.layers|
    ensures |r.layers| == |config.layers| && r.inputs == config.inputs && r.forceBackward == config.forceBackward
  {
    if i == |config.layers| - 1 then
      config.(layers := config.layers[i := config.layers[i].AddOutput(OutputName(i))])
    else if AlreadyConnected(config.layers[i], config.layers[i + 1]) then
      config
    else
      var name := LinkName(config, i);
      config.(layers := config.layers[i := config.layers[i].AddOutput(name)][i + 1 := config.layers[i + 1].AddInput(name)])
  }

  /** The configuration after the first `k` steps of the wiring loop. */
  function Steps(config: SequentialConfig, k: nat): (r: SequentialConfig)
    requires k <= |config.layers|
    ensures |r.layers| == |config.layers| && r.inputs == config.inputs && r.forceBackward == config.forceBackward
  {
    if k == 0 then config else ConnectStep(Steps(config, k - 1), k - 1)
  }

  /** The configuration after the container inputs are added and every step has run: no layer is added or lost. */
  function Wired(config: SequentialConfig, containerInputs: seq<string>): (r: SequentialConfig)
    ensures |r.layers| == |config.layers| && r.inputs == config.inputs && r.forceBackward == config.forceBackward
  {
    var withInputs := config.(layers := WithContainerInputs(config.layers, containerInputs));
    Steps(withInputs, |withInputs.layers|)
  }

  /** What step `j` appends to layer `j`'s outputs and layer `j + 1`'s inputs. */
  function Link(config: SequentialConfig, j: nat): seq<string>
    requires j + 1 < |config.layers|
  {
    if AlreadyConnected(config.layers[j], config.layers[j + 1]) then [] else [LinkName(Steps(config, j), j)]
  }

  predicate SameLayerKinds(a: seq<LayerConfig>, b: seq<LayerConfig>)
  {
    |a| == |b| && forall j :: 0 <= j < |a| ==> a[j].name == b[j].name && a[j].supportsInPlace == b[j].supportsInPlace
  }

  /** One step touches only layer `i`'s outputs and, before the last layer, layer `i + 1`'s inputs. */
  lemma ConnectStepEffect(config: SequentialConfig, i: nat)
    requires i < |config.layers|
    ensures SameLayerKinds(ConnectStep(config, i).layers, config.layers)
    ensures forall j :: 0 <= j < |config.layers| && j != i && j != i + 1 ==> ConnectStep(config, i).layers[j] == config.layers[j]
    ensures ConnectStep(config, i).layers[i].inputs == config.layers[i].inputs
    ensures i + 1 < |config.layers| ==> ConnectStep(config, i).layers[i + 1].outputs == config.layers[i + 1].outputs
    ensures i + 1 < |config.layers| ==>
      var link := if AlreadyConnected(config.layers[i], config.layers[i + 1]) then [] else [LinkName(config, i)];
      ConnectStep(config, i).layers[i].outputs == config.layers[i].outputs + link &&
      ConnectStep(config, i).layers[i + 1].inputs == config.layers[i + 1].inputs + link
    ensures i + 1 == |config.layers| ==> ConnectStep(config, i).layers[i].outputs == config.layers[i].outputs + [OutputName(i)]
  {
  }

  /** After `k` steps every layer keeps its kind, and every list the loop has not reached yet is unchanged. */
  lemma {:induction false} StepsFrame(config: SequentialConfig, k: nat)
    requires k <= |config.layers|
    ensures SameLayerKinds(Steps(config, k).layers, config.layers)
    ensures forall j :: k <= j < |config.layers| ==> Steps(config, k).layers[j].outputs == config.layers[j].outputs
    ensures forall j :: (j == 0 || k < j) && j < |config.layers| ==> Steps(config, k).layers[j].inputs == config.layers[j].inputs
  {
    if k > 0 {
      var i := k - 1;
      StepsFrame(config, i);
      var before, after := Steps(config, i), Steps(config, k);
      assert after == ConnectStep(before, i);
      ConnectStepEffect(before, i);
      forall j | k <= j < |config.layers|
        ensures after.layers[j].outputs == config.layers[j].outputs
      {
        assert after.layers[j].outputs == before.layers[j].outputs;
      }
      forall j | (j == 0 || k < j) && j < |config.layers|
        ensures after.layers[j].inputs == config.layers[j].inputs
      {
        assert after.layers[j].inputs == before.layers[j].inputs;
      }
    }
  }

  /** After `k` steps, layer `j < k` has gained its link as output and layer `j + 1` the same link as input. */
  lemma {:induction false} StepsLinks(config: SequentialConfig, k: nat)
    requires k <= |config.layers|
    ensures forall j :: 0 <= j < k && j + 1 < |config.layers| ==>
      Steps(config, k).layers[j].outputs == config.layers[j].outputs + Link(config, j) &&
      Steps(config, k).layers[j + 1].inputs == config.layers[j + 1].inputs + Link(config, j)
  {
    if k > 0 {
      var i := k - 1;
      StepsLinks(config, i);
      StepsFrame(config, i);
      var before, after := Steps(config, i), Steps(config, k);
      assert after == ConnectStep(before, i);
      ConnectStepEffect(before, i);
      forall j | 0 <= j < k && j + 1 < |config.layers|
        ensures after.layers[j].outputs == config.layers[j].outputs + Link(config, j)
        ensures after.layers[j + 1].inputs == config.layers[j + 1].inputs + Link(config, j)
      {
        if j < i {
          assert after.layers[j] == before.layers[j];
          assert after.layers[j + 1].inputs == before.layers[j + 1].inputs;
        } else {
          assert before.layers[i].outputs == config.layers[i].outputs;
          assert before.layers[i + 1].inputs == config.layers[i + 1].inputs;
        }
      }
    }
  }

  /** Once every step has run, the last layer has gained its numbered output name. */
  lemma StepsLast(config: SequentialConfig)
    requires |config.layers| > 0
    ensures var n := |config.layers|;
      Steps(config, n).layers[n - 1].outputs == config.layers[n - 1].outputs + [OutputName(n - 1)]
  {
    var i := |config.layers| - 1;
    StepsFrame(config, i);
    assert Steps(config, i + 1) == ConnectStep(Steps(config, i), i);
    ConnectStepEffect(Steps(config, i), i);
  }

  /**
   * After `k` steps: layer `j < k` has gained its link output (the last
   * one its output name), layer `j + 1` the same name as input, and every
   * list the loop has not reached yet is unchanged.
   */
  lemma StepsShape(config: SequentialConfig, k: nat)
    requires k <= |config.layers|
    ensures SameLayerKinds(Steps(config, k).layers, config.layers)
    ensures forall j :: k <= j < |config.layers| ==> Steps(config, k).layers[j].outputs == config.layers[j].outputs
    ensures forall j :: (j == 0 || k < j) && j < |config.layers| ==> Steps(config, k).layers[j].inputs == config.layers[j].inputs
    ensures forall j :: 0 <= j < k && j + 1 < |config.layers| ==>
      Steps(config, k).layers[j].outputs == config.layers[j].outputs + Link(config, j) &&
      Steps(config, k).layers[j + 1].inputs == config.layers[j + 1].inputs + Link(config, j)
    ensures k == |config.layers| > 0 ==>
      Steps(config, k).layers[k - 1].outputs == config.layers[k - 1].outputs + [OutputName(k - 1)]
  {
    StepsFrame(config, k);
    StepsLinks(config, k);
    if k == |config.layers| > 0 {
      StepsLast(config);
    }
  }

  /** Two consecutive wired layers share a tensor: their first names agree, or their last names do. */
  predicate Chained(producer: LayerConfig, consumer: LayerConfig)
  {
    |producer.outputs| > 0 && |consumer.inputs| > 0 &&
    (producer.outputs[0] == consumer.inputs[0] ||
     producer.outputs[|producer.outputs| - 1] == consumer.inputs[|consumer.inputs| - 1])
  }

  /**
   * The wiring keeps every layer's name and kind, gives the first layer
   * the container inputs, chains every pair of neighbours and names the
   * last layer's new output after its index.
   */
  lemma WiredSpec(config: SequentialConfig, containerInputs: seq<string>)
    ensures SameLayerKinds(Wired(config, containerInputs).layers, config.layers)
    ensures Wired(config, containerInputs).inputs == config.inputs
    ensures |config.layers| > 0 ==> Wired(config, containerInputs).layers[0].inputs == config.layers[0].inputs + containerInputs
    ensures forall j :: 0 <= j < |config.layers| - 1 ==>
      Chained(Wired(config, containerInputs).layers[j], Wired(config, containerInputs).layers[j + 1])
    ensures |config.layers| > 0 ==>
      var last := Wired(config, containerInputs).layers[|config.layers| - 1];
      last.outputs == config.layers[|config.layers| - 1].outputs + [OutputName(|config.layers| - 1)]
  {
    var withInputs := config.(layers := WithContainerInputs(config.layers, containerInputs));
    var n := |withInputs.layers|;
    StepsShape(withInputs, n);
    var wired := Steps(withInputs, n);
    assert wired == Wired(config, containerInputs);
    forall j | 0 <= j < n - 1
      ensures Chained(wired.layers[j], wired.layers[j + 1])
    {
      var link := Link(withInputs, j);
      var outs := withInputs.layers[j].outputs + link;
      var ins := withInputs.layers[j + 1].inputs + link;
      assert wired.layers[j].outputs == outs && wired.layers[j + 1].inputs == ins;
      if link == [] {
        assert outs[0] == ins[0];
      } else {
        assert outs[|outs| - 1] == ins[|ins| - 1];
      }
    }
    if n > 0 {
      if n > 1 {
        assert wired.layers[n - 1].outputs == withInputs.layers[n - 1].outputs + [OutputName(n - 1)];
      }
    }
  }

  /** Three plain layers: the links are named after the producing layer's index. */
  lemma ThreePlainLayers()
    ensures
      var plain := LayerConfig("", false, [], []);
      var config := SequentialConfig([plain.(name := "a"), plain.(name := "b"), plain.(name := "c")], [("data", [1, 4])], false);
      var wired := Wired(config, ["data"]).layers;
      wired[0].inputs == ["data"] && wired[0].outputs == ["SEQUENTIAL_0"] &&
      wired[1].inputs == ["SEQUENTIAL_0"] && wired[1].outputs == ["SEQUENTIAL_1"] &&
      wired[2].inputs == ["SEQUENTIAL_1"] && wired[2].outputs == ["SEQUENTIAL_OUTPUT_2"]
  {
    var plain := LayerConfig("", false, [], []);
    var config := SequentialConfig([plain.(name := "a"), plain.(name := "b"), plain.(name := "c")], [("data", [1, 4])], false);
    var withInputs := config.(layers := WithContainerInputs(config.layers, ["data"]));
    StepsShape(withInputs, 3);
    assert NatToString(0) == "0" && NatToString(1) == "1" && NatToString(2) == "2";
    assert withInputs.layers[0].inputs == ["data"];
    assert Steps(withInputs, 0) == withInputs;
    assert Steps(withInputs, 0).FindInPlaceOutput(0) == None;
    assert LinkName(Steps(withInputs, 0), 0) == "SEQUENTIAL_0";
    assert Link(withInputs, 0) == ["SEQUENTIAL_0"];
    assert Steps(withInputs, 1).FindInPlaceOutput(1) == None;
    assert LinkName(Steps(withInputs, 1), 1) == "SEQUENTIAL_1";
    assert Link(withInputs, 1) == ["SEQUENTIAL_1"];
    assert OutputName(2) == "SEQUENTIAL_OUTPUT_2";
  }

  /** A layer computing in place between two plain ones reads and writes the first layer's output. */
  lemma InPlaceBetweenPlainLayers()
    ensures
      var config := SequentialConfig([LayerConfig("linear1", false, [], []), LayerConfig("relu", true, [], []),
                                      LayerConfig("linear2", false, [], [])], [("data", [1, 4])], false);
      var wired := Wired(config, ["data"]).layers;
      wired[0].outputs == ["SEQUENTIAL_0"] &&
      wired[1].inputs == ["SEQUENTIAL_0"] && wired[1].outputs == ["SEQUENTIAL_0"] &&
      wired[2].inputs == ["SEQUENTIAL_0"] && wired[2].outputs == ["SEQUENTIAL_OUTPUT_2"]
  {
    var config := SequentialConfig([LayerConfig("linear1", false, [], []), LayerConfig("relu", true, [], []),
                                    LayerConfig("linear2", false, [], [])], [("data", [1, 4])], false);
    var withInputs := config.(layers := WithContainerInputs(config.layers, ["data"]));
    StepsShape(withInputs, 3);
    StepsShape(withInputs, 1);
    assert NatToString(0) == "0" && NatToString(2) == "2";
    assert Steps(withInputs, 0) == withInputs;
    assert Steps(withInputs, 0).FindInPlaceOutput(0) == None;
    assert LinkName(Steps(withInputs, 0), 0) == "SEQUENTIAL_0";
    assert Link(withInputs, 0) == ["SEQUENTIAL_0"];
    assert OutputName(2) == "SEQUENTIAL_OUTPUT_2";
    var s1 := Steps(withInputs, 1);
    assert s1.layers[0].outputs == ["SEQUENTIAL_0"];
    assert SearchBack(s1.layers, 1) == Some("SEQUENTIAL_0");
    assert Link(withInputs, 1) == ["SEQUENTIAL_0"];
  }

  /** The first layer computing in place works on the container's first input. */
  lemma InPlaceFirstLayer()
    ensures
      var config := SequentialConfig([LayerConfig("relu", true, [], []), LayerConfig("linear", false, [], [])],
                                     [("data", [1, 4])], false);
      var wired := Wired(config, ["data"]).layers;
      wired[0].inputs == ["data"] && wired[0].outputs == ["data"] && wired[1].inputs == ["data"]
  {
    var config := SequentialConfig([LayerConfig("relu", true, [], []), LayerConfig("linear", false, [], [])],
                                   [("data", [1, 4])], false);
    var withInputs := config.(layers := WithContainerInputs(config.layers, ["data"]));
    StepsShape(withInputs, 2);
    assert Steps(withInputs, 0) == withInputs;
    assert withInputs.FindInPlaceOutput(0) == Some("data");
    assert Link(withInputs, 0) == ["data"];
  }

  // ---------------------------------------------------------------------
  // Container inputs

  function Names(inputs: seq<(string, Shape)>): (r: seq<string>)
    ensures |r| == |inputs| && forall i :: 0 <= i < |inputs| ==> r[i] == inputs[i].0
  {
    if |inputs| == 0 then [] else Names(inputs[..|inputs| - 1]) + [inputs[|inputs| - 1].0]
  }

  /** The inputs that get a tensor: the first input of each name, in order. */
  function DistinctInputs(inputs: seq<(string, Shape)>): seq<(string, Shape)>
  {
    if |inputs| == 0 then []
    else
      var kept := DistinctInputs(inputs[..|inputs| - 1]);
      if inputs[|inputs| - 1].0 in Names(kept) then kept else kept + [inputs[|inputs| - 1]]
  }

  predicate NoDuplicates(names: seq<string>)
  {
    forall i, j :: 0 <= i < j < |names| ==> names[i] != names[j]
  }

  /** The kept inputs have distinct names, every input name is kept, and nothing else is. */
  lemma {:induction false} DistinctInputsSpec(inputs: seq<(string, Shape)>)
    ensures NoDuplicates(Names(DistinctInputs(inputs)))
    ensures forall p :: p in DistinctInputs(inputs) ==> p in inputs
    ensures forall name :: name in Names(DistinctInputs(inputs)) <==> name in Names(inputs)
  {
    if |inputs| > 0 {
      var init := inputs[..|inputs| - 1];
      DistinctInputsSpec(init);
      assert Names(inputs) == Names(init) + [inputs[|inputs| - 1].0];
    }
  }

  /**
   * The tensors `data` and `gradients` are one pair per kept input, shaped
   * like it and registered under its name.
   */
  ghost predicate Registered(data: seq<SharedTensor>, gradients: seq<SharedTensor>, kept: seq<(string, Shape)>,
                             reg: map<string, (SharedTensor, SharedTensor)>)
    reads data, gradients
  {
    |data| == |gradients| == |kept| && reg.Keys == KeySet(kept) &&
    forall i :: 0 <= i < |kept| ==>
      data[i].desc == kept[i].1 && gradients[i].desc == kept[i].1 &&
      kept[i].0 in reg && reg[kept[i].0] == (data[i], gradients[i])
  }

  function KeySet(kept: seq<(string, Shape)>): set<string>
  {
    if |kept| == 0 then {} else KeySet(kept[..|kept| - 1]) + {kept[|kept| - 1].0}
  }

  lemma RegisteredStep(data: seq<SharedTensor>, gradients: seq<SharedTensor>, kept: seq<(string, Shape)>,
                       reg: map<string, (SharedTensor, SharedTensor)>, d: SharedTensor, g: SharedTensor, input: (string, Shape))
    requires Registered(data, gradients, kept, reg)
    requires input.0 !in reg
    requires d.desc == input.1 && g.desc == input.1
    ensures Registered(data + [d], gradients + [g], kept + [input], reg[input.0 := (d, g)])
  {
    var next := kept + [input];
    assert next[..|next| - 1] == kept;
    KeySetNames(kept);
    forall i | 0 <= i < |kept|
      ensures kept[i].0 != input.0
    {
      assert Names(kept)[i] == kept[i].0;
    }
  }

  /** How the kept inputs grow by one input. */
  lemma DistinctInputsStep(inputs: seq<(string, Shape)>, k: nat)
    requires k < |inputs|
    ensures inputs[k].0 in KeySet(DistinctInputs(inputs[..k])) ==> DistinctInputs(inputs[..k + 1]) == DistinctInputs(inputs[..k])
    ensures inputs[k].0 !in KeySet(DistinctInputs(inputs[..k])) ==>
      DistinctInputs(inputs[..k + 1]) == DistinctInputs(inputs[..k]) + [inputs[k]]
  {
    assert inputs[..k + 1][..k] == inputs[..k];
    KeySetNames(DistinctInputs(inputs[..k]));
  }

  lemma NamesAppend(inputs: seq<(string, Shape)>, input: (string, Shape))
    ensures Names(inputs + [input]) == Names(inputs) + [input.0]
  {
    assert (inputs + [input])[..|inputs|] == inputs;
  }

  /** A new input name gets a pair of tensors, kept and registered at the end. */
  lemma NextInputAdded(kept: seq<(string, Shape)>, data: seq<SharedTensor>, gradients: seq<SharedTensor>,
                       reg: map<string, (SharedTensor, SharedTensor)>, d: SharedTensor, g: SharedTensor, input: (string, Shape))
    requires Registered(data, gradients, kept, reg) && input.0 !in reg
    requires d.desc == input.1 && g.desc == input.1
    ensures Names(kept + [input]) == Names(kept) + [input.0]
    ensures Registered(data + [d], gradients + [g], kept + [input], reg[input.0 := (d, g)])
  {
    NamesAppend(kept, input);
    RegisteredStep(data, gradients, kept, reg, d, g, input);
  }

  /** The names in `KeySet` are those `Names` lists. */
  lemma {:induction false} KeySetNames(kept: seq<(string, Shape)>)
    ensures forall name :: name in KeySet(kept) <==> name in Names(kept)
  {
    if |kept| > 0 {
      KeySetNames(kept[..|kept| - 1]);
    }
  }

  /** A name supplied twice gets one tensor, with the first shape. */
  lemma RepeatedInputKeepsFirst()
    ensures DistinctInputs([("data", [2]), ("label", [1]), ("data", [3])]) == [("data", [2]), ("label", [1])]
  {
    var a: (string, Shape) := ("data", [2]);
    var b: (string, Shape) := ("label", [1]);
    var c: (string, Shape) := ("data", [3]);
    assert [a, b, c][..2] == [a, b] && [a, b][..1] == [a] && [a][..0] == [];
    assert Names([a]) == ["data"];
    assert DistinctInputs([a]) == [a];
    assert DistinctInputs([a, b]) == [a, b];
    assert Names([a, b]) == Names([a]) + ["label"];
    assert "data" in Names([a, b]);
  }

  // ---------------------------------------------------------------------
  // The container

  /** The calls the container makes on its children, by child index. */
  datatype ChildCall = ForwardCall(layer: nat) | BackwardInputCall(layer: nat) | BackwardParametersCall(layer: nat) | SynchronizeCall(layer: nat)

  /** Children forward in order, then the last child is synchronized. */
  function ForwardOrder(n: nat): (r: seq<ChildCall>)
  {
    seq(n, k requires 0 <= k < n => ForwardCall(k)) + if n > 0 then [SynchronizeCall(n - 1)] else []
  }

  /** Children backward in reverse order, then the first child is synchronized. */
  function BackwardInputOrder(n: nat): (r: seq<ChildCall>)
  {
    seq(n, k requires 0 <= k < n => BackwardInputCall(n - 1 - k)) + if n > 0 then [SynchronizeCall(0)] else []
  }

  function BackwardParametersOrder(n: nat): (r: seq<ChildCall>)
  {
    seq(n, k requires 0 <= k < n => BackwardParametersCall(n - 1 - k)) + if n > 0 then [SynchronizeCall(0)] else []
  }

  /**
   * Both backward passes visit exactly the children the forward pass
   * visits, in the opposite order, and each synchronizes the child its
   * pass ends on.
   */
  lemma BackwardReversesForward(n: nat)
    ensures |BackwardInputOrder(n)| == |ForwardOrder(n)| == |BackwardParametersOrder(n)|
    ensures forall k :: 0 <= k < n ==>
      ForwardOrder(n)[k] == ForwardCall(k) &&
      BackwardInputOrder(n)[k] == BackwardInputCall(ForwardOrder(n)[n - 1 - k].layer) &&
      BackwardParametersOrder(n)[k] == BackwardParametersCall(ForwardOrder(n)[n - 1 - k].layer)
    ensures n > 0 ==>
      ForwardOrder(n)[n] == SynchronizeCall(ForwardOrder(n)[n - 1].layer) &&
      BackwardInputOrder(n)[n] == SynchronizeCall(BackwardInputOrder(n)[n - 1].layer) &&
      BackwardParametersOrder(n)[n] == SynchronizeCall(BackwardParametersOrder(n)[n - 1].layer)
  {
  }

  /** Each child's list selected by `part`, in child order. */
  function DataParts(ls: seq<Layer>): (r: seq<seq<SharedTensor>>)
    reads set l | l in ls
    ensures |r| == |ls| && forall k :: 0 <= k < |ls| ==> r[k] == ls[k].learnableWeightsData
  {
    if |ls| == 0 then [] else DataParts(ls[..|ls| - 1]) + [ls[|ls| - 1].learnableWeightsData]
  }

  function GradientParts(ls: seq<Layer>): (r: seq<seq<SharedTensor>>)
    reads set l | l in ls
    ensures |r| == |ls| && forall k :: 0 <= k < |ls| ==> r[k] == ls[k].learnableWeightsGradients
  {
    if |ls| == 0 then [] else GradientParts(ls[..|ls| - 1]) + [ls[|ls| - 1].learnableWeightsGradients]
  }

  function NameParts(ls: seq<Layer>): (r: seq<seq<string>>)
    reads set l | l in ls
    ensures |r| == |ls| && forall k :: 0 <= k < |ls| ==> r[k] == ls[k].learnableWeightsNames
  {
    if |ls| == 0 then [] else NameParts(ls[..|ls| - 1]) + [ls[|ls| - 1].learnableWeightsNames]
  }

  /** Each child was built from the wired configuration at the same position: its name and blob names are that configuration's. */
  ghost predicate BuiltFrom(children: seq<Layer>, wired: seq<LayerConfig>)
    reads set l | l in children
  {
    |children| == |wired| &&
    forall k :: 0 <= k < |wired| ==>
      children[k].name == wired[k].name &&
      children[k].inputBlobNames == wired[k].inputs && children[k].outputBlobNames == wired[k].outputs
  }

  class Sequential {
    var layers: seq<Layer>
    var inputTensorNames: seq<string>
    var inputDataTensors: seq<SharedTensor>
    var inputGradientTensors: seq<SharedTensor>
    var outputDataTensors: seq<SharedTensor>
    var outputGradientTensors: seq<SharedTensor>
    var registry: map<string, (SharedTensor, SharedTensor)>
    /** The calls made on the children so far. */
    var trace: seq<ChildCall>

    ghost predicate Valid()
      reads this, set l | l in layers
    {
      |inputTensorNames| == |inputDataTensors| == |inputGradientTensors| &&
      (forall i, j :: 0 <= i < j < |layers| ==> layers[i] != layers[j]) &&
      (forall k :: 0 <= k < |layers| ==> layers[k].Valid())
    }

    /** The container's own lists, which running the children leaves alone. */
    ghost function Structure(): (seq<Layer>, seq<string>, seq<SharedTensor>, seq<SharedTensor>, seq<SharedTensor>, seq<SharedTensor>,
                                 map<string, (SharedTensor, SharedTensor)>)
      reads this
    {
      (layers, inputTensorNames, inputDataTensors, inputGradientTensors, outputDataTensors, outputGradientTensors, registry)
    }

    constructor Empty()
      ensures Valid()
      ensures layers == [] && inputTensorNames == [] && inputDataTensors == [] && inputGradientTensors == []
      ensures outputDataTensors == [] && outputGradientTensors == [] && registry == map[] && trace == []
    {
      layers := [];
      inputTensorNames := [];
      inputDataTensors := [];
      inputGradientTensors := [];
      outputDataTensors := [];
      outputGradientTensors := [];
      registry := map[];
      trace := [];
    }

    /** The children's weights, child by child. */
    function LearnableWeights(): (r: seq<SharedTensor>)
      reads this, set l | l in layers
      ensures |r| == TotalLength(DataParts(layers))
    {
      Flatten(DataParts(layers))
    }

    function LearnableWeightsGradients(): (r: seq<SharedTensor>)
      reads this, set l | l in layers
      ensures |r| == TotalLength(GradientParts(layers))
    {
      Flatten(GradientParts(layers))
    }

    function LearnableWeightsNames(): (r: seq<string>)
      reads this, set l | l in layers
      ensures |r| == TotalLength(NameParts(layers))
    {
      Flatten(NameParts(layers))
    }

    /**
     * Adds a container input unless the registry already has one of that
     * name: a fresh data and gradient tensor of the given shape, recorded
     * in the registry.
     */
    method InitInputBlob(tensorName: string, inputShape: Shape, reg: map<string, (SharedTensor, SharedTensor)>)
      returns (r: map<string, (SharedTensor, SharedTensor)>)
      requires Valid()
      modifies this
      ensures Valid()
      ensures layers == old(layers) && outputDataTensors == old(outputDataTensors)
      ensures outputGradientTensors == old(outputGradientTensors) && registry == old(registry) && trace == old(trace)
      ensures tensorName in reg ==>
        r == reg && inputTensorNames == old(inputTensorNames) &&
        inputDataTensors == old(inputDataTensors) && inputGradientTensors == old(inputGradientTensors)
      ensures tensorName !in reg ==>
        |inputDataTensors| > 0 && |inputGradientTensors| > 0 &&
        var data := inputDataTensors[|inputDataTensors| - 1];
        var gradient := inputGradientTensors[|inputGradientTensors| - 1];
        inputTensorNames == old(inputTensorNames) + [tensorName] &&
        inputDataTensors == old(inputDataTensors) + [data] && inputGradientTensors == old(inputGradientTensors) + [gradient] &&
        fresh(data) && fresh(gradient) && data != gradient && data.desc == inputShape && gradient.desc == inputShape &&
        r == reg[tensorName := (data, gradient)]
    {
      if tensorName in reg {
        r := reg;
        return;
      }
      var dataTensor := new SharedTensor(inputShape);
      var gradientTensor := new SharedTensor(inputShape);
      inputDataTensors := inputDataTensors + [dataTensor];
      inputGradientTensors := inputGradientTensors + [gradientTensor];
      inputTensorNames := inputTensorNames + [tensorName];
      r := reg[tensorName := (dataTensor, gradientTensor)];
    }

    /**
     * One turn of the loop of `InitInputs`: the input is added unless its
     * name is registered already, and what held of the kept inputs holds
     * of them with this one.
     */
    method InitNextInput(input: (string, Shape), reg: map<string, (SharedTensor, SharedTensor)>,
                         ghost names0: seq<string>, ghost data0: seq<SharedTensor>, ghost gradients0: seq<SharedTensor>,
                         ghost kept: seq<(string, Shape)>, ghost addedData: seq<SharedTensor>, ghost addedGradients: seq<SharedTensor>)
      returns (r: map<string, (SharedTensor, SharedTensor)>, ghost kept': seq<(string, Shape)>,
               ghost addedData': seq<SharedTensor>, ghost addedGradients': seq<SharedTensor>)
      requires Valid()
      requires inputTensorNames == names0 + Names(kept)
      requires inputDataTensors == data0 + addedData && inputGradientTensors == gradients0 + addedGradients
      requires Registered(addedData, addedGradients, kept, reg)
      modifies this
      ensures Valid()
      ensures layers == old(layers) && outputDataTensors == old(outputDataTensors)
      ensures outputGradientTensors == old(outputGradientTensors) && registry == old(registry) && trace == old(trace)
      ensures kept' == if input.0 in reg then kept else kept + [input]
      ensures inputTensorNames == names0 + Names(kept')
      ensures inputDataTensors == data0 + addedData' && inputGradientTensors == gradients0 + addedGradients'
      ensures Registered(addedData', addedGradients', kept', r)
    {
      r := InitInputBlob(input.0, input.1, reg);
      if input.0 !in reg {
        var data, gradient := inputDataTensors[|inputDataTensors| - 1], inputGradientTensors[|inputGradientTensors| - 1];
        NextInputAdded(kept, addedData, addedGradients, reg, data, gradient, input);
        AppendAssoc(names0, Names(kept), [input.0]);
        AppendAssoc(data0, addedData, [data]);
        AppendAssoc(gradients0, addedGradients, [gradient]);
        addedData', addedGradients', kept' := addedData + [data], addedGradients + [gradient], kept + [input];
      } else {
        addedData', addedGradients', kept' := addedData, addedGradients, kept;
      }
    }

    /** One input tensor pair per distinct input name, appended in order, and the registry of them. */
    method InitInputs(inputs: seq<(string, Shape)>) returns (reg: map<string, (SharedTensor, SharedTensor)>)
      requires Valid()
      modifies this
      ensures Valid()
      ensures layers == old(layers) && outputDataTensors == old(outputDataTensors)
      ensures outputGradientTensors == old(outputGradientTensors) && registry == old(registry) && trace == old(trace)
      ensures inputTensorNames == old(inputTensorNames) + Names(DistinctInputs(inputs))
      ensures |old(inputDataTensors)| <= |inputDataTensors| && inputDataTensors[..|old(inputDataTensors)|] == old(inputDataTensors)
      ensures |old(inputGradientTensors)| <= |inputGradientTensors| && inputGradientTensors[..|old(inputGradientTensors)|] == old(inputGradientTensors)
      ensures Registered(inputDataTensors[|old(inputDataTensors)|..], inputGradientTensors[|old(inputGradientTensors)|..], DistinctInputs(inputs), reg)
      ensures forall name :: name in reg <==> name in Names(inputs)
    {
      reg := map[];
      ghost var names0, data0, gradients0 := inputTensorNames, inputDataTensors, inputGradientTensors;
      ghost var kept: seq<(string, Shape)> := [];
      ghost var addedData: seq<SharedTensor> := [];
      ghost var addedGradients: seq<SharedTensor> := [];
      for k := 0 to |inputs|
        invariant Valid()
        invariant layers == old(layers) && outputDataTensors == old(outputDataTensors)
        invariant outputGradientTensors == old(outputGradientTensors) && registry == old(registry) && trace == old(trace)
        invariant kept == DistinctInputs(inputs[..k])
        invariant inputTensorNames == names0 + Names(kept)
        invariant inputDataTensors == data0 + addedData
        invariant inputGradientTensors == gradients0 + addedGradients
        invariant Registered(addedData, addedGradients, kept, reg)
      {
        ghost var before := reg;
        reg, kept, addedData, addedGradients :=
          InitNextInput(inputs[k], reg, names0, data0, gradients0, kept, addedData, addedGradients);
        DistinctInputsStep(inputs, k);
        assert inputs[k].0 in before <==> inputs[k].0 in KeySet(DistinctInputs(inputs[..k]));
      }
      assert inputDataTensors[|old(inputDataTensors)|..] == addedData;
      assert inputGradientTensors[|old(inputGradientTensors)|..] == addedGradients;
      assert inputs[..|inputs|] == inputs;
      KeySetNames(kept);
      DistinctInputsSpec(inputs);
    }

    /** One new child per wired layer configuration, appended in order. */
    method AppendChildren(wired: seq<LayerConfig>)
      requires Valid()
      modifies this
      ensures Valid()
      ensures inputTensorNames == old(inputTensorNames) && inputDataTensors == old(inputDataTensors)
      ensures inputGradientTensors == old(inputGradientTensors) && outputDataTensors == old(outputDataTensors)
      ensures outputGradientTensors == old(outputGradientTensors) && registry == old(registry) && trace == old(trace)
      ensures |layers| == |old(layers)| + |wired| && layers[..|old(layers)|] == old(layers)
      ensures forall k :: 0 <= k < |wired| ==>
        var child := layers[|old(layers)| + k];
        fresh(child) && child.name == wired[k].name &&
        child.inputBlobNames == wired[k].inputs && child.outputBlobNames == wired[k].outputs
    {
      var existing := |layers|;
      for k := 0 to |wired|
        invariant |layers| == existing + k && layers[..existing] == old(layers)
        invariant inputTensorNames == old(inputTensorNames) && inputDataTensors == old(inputDataTensors)
        invariant inputGradientTensors == old(inputGradientTensors) && outputDataTensors == old(outputDataTensors)
        invariant outputGradientTensors == old(outputGradientTensors) && registry == old(registry) && trace == old(trace)
        invariant forall i, j :: 0 <= i < j < |layers| ==> layers[i] != layers[j]
        invariant forall i :: 0 <= i < |layers| ==> layers[i].Valid()
        invariant forall i :: existing <= i < |layers| ==>
          fresh(layers[i]) && layers[i].name == wired[i - existing].name &&
          layers[i].inputBlobNames == wired[i - existing].inputs &&
          layers[i].outputBlobNames == wired[i - existing].outputs
      {
        var child := new Layer.FromConfig(wired[k]);
        layers := layers + [child];
      }
    }

    /**
     * Sets up the container from a configuration: one input tensor pair
     * per distinct input name, the children built from the wired
     * configuration, and the last child's outputs as the container's.
     */
    method InitLayers(config: SequentialConfig) returns (wired: seq<LayerConfig>)
      requires Valid()
      modifies this
      ensures Valid()
      ensures trace == old(trace)
      ensures inputTensorNames == old(inputTensorNames) + Names(DistinctInputs(config.inputs))
      ensures |old(inputDataTensors)| <= |inputDataTensors| && inputDataTensors[..|old(inputDataTensors)|] == old(inputDataTensors)
      ensures |old(inputGradientTensors)| <= |inputGradientTensors| && inputGradientTensors[..|old(inputGradientTensors)|] == old(inputGradientTensors)
      ensures forall name :: name in registry <==> name in Names(config.inputs)
      ensures |layers| == |old(layers)| + |config.layers| && layers[..|old(layers)|] == old(layers)
      ensures wired == Wired(config, inputTensorNames).layers && |wired| == |config.layers|
      ensures BuiltFrom(layers[|old(layers)|..], wired)
      ensures forall k :: |old(layers)| <= k < |layers| ==> fresh(layers[k])
      ensures |layers| == 0 ==>
        outputDataTensors == old(outputDataTensors) && outputGradientTensors == old(outputGradientTensors)
      ensures |layers| > 0 ==>
        outputDataTensors == old(outputDataTensors) + layers[|layers| - 1].outputBlobsData &&
        outputGradientTensors == old(outputGradientTensors) + layers[|layers| - 1].outputBlobsGradient
    {
      registry := InitInputs(config.inputs);
      ghost var base := layers;
      assert base == old(layers);
      var wiredConfig := WireLayers(config, inputTensorNames);
      wired := wiredConfig.layers;
      InitChildren(wired);
    }

    /** The children built from the wired configurations, and the last child's outputs as the container's. */
    method InitChildren(wired: seq<LayerConfig>)
      requires Valid()
      modifies this
      ensures Valid()
      ensures inputTensorNames == old(inputTensorNames) && inputDataTensors == old(inputDataTensors)
      ensures inputGradientTensors == old(inputGradientTensors) && registry == old(registry) && trace == old(trace)
      ensures |layers| == |old(layers)| + |wired| && layers[..|old(layers)|] == old(layers)
      ensures BuiltFrom(layers[|old(layers)|..], wired)
      ensures forall k :: |old(layers)| <= k < |layers| ==> fresh(layers[k])
      ensures |layers| == 0 ==>
        outputDataTensors == old(outputDataTensors) && outputGradientTensors == old(outputGradientTensors)
      ensures |layers| > 0 ==>
        outputDataTensors == old(outputDataTensors) + layers[|layers| - 1].outputBlobsData &&
        outputGradientTensors == old(outputGradientTensors) + layers[|layers| - 1].outputBlobsGradient
    {
      AppendChildren(wired);
      if |layers| > 0 {
        var last := layers[|layers| - 1];
        outputDataTensors := outputDataTensors + last.outputBlobsData;
        outputGradientTensors := outputGradientTensors + last.outputBlobsGradient;
      }
    }

    /** Runs the children in order after binding the container inputs by name. */
    method Forward(inputData: seq<SharedTensor>)
      requires Valid()
      requires forall k :: 0 <= k < |layers| ==> Shorter(|inputData|, |inputTensorNames|) <= |layers[k].inputBlobNames|
      modifies this, set l | l in layers
      ensures Valid()
      ensures Structure() == old(Structure())
      ensures trace == old(trace) + ForwardOrder(|layers|)
      ensures forall k :: 0 <= k < |layers| ==>
        layers[k].AllButInputData() == old(layers[k].AllButInputData()) &&
        |layers[k].inputBlobsData| == |old(layers[k].inputBlobsData)|
      ensures forall k, i :: 0 <= k < |layers| && 0 <= i < |layers[k].inputBlobsData| ==>
        layers[k].inputBlobsData[i] ==
          BoundInput(old(layers[k].inputBlobsData), layers[k].inputBlobNames, inputData, inputTensorNames, i)
    {
      for k := 0 to |layers|
        invariant Valid()
        invariant Structure() == old(Structure())
        invariant trace == old(trace) + seq(k, j requires 0 <= j < k => ForwardCall(j))
        invariant forall j :: 0 <= j < |layers| ==>
          layers[j].AllButInputData() == old(layers[j].AllButInputData()) &&
          |layers[j].inputBlobsData| == |old(layers[j].inputBlobsData)| &&
          (j < k ==> forall i :: 0 <= i < |layers[j].inputBlobsData| ==>
            layers[j].inputBlobsData[i] ==
              BoundInput(old(layers[j].inputBlobsData), layers[j].inputBlobNames, inputData, inputTensorNames, i)) &&
          (k <= j ==> layers[j].inputBlobsData == old(layers[j].inputBlobsData))
      {
        layers[k].BindContainerInputs(inputData, inputTensorNames);
        trace := trace + [ForwardCall(k)];
      }
      if |layers| > 0 {
        trace := trace + [SynchronizeCall(|layers| - 1)];
      }
    }

    /** Hands the output gradients to the last child, then runs the children's input gradients in reverse order. */
    method BackwardInput(outputGradients: seq<SharedTensor>)
      requires Valid()
      requires |layers| > 0 ==> |outputGradients| <= |layers[|layers| - 1].outputBlobsGradient|
      modifies this, if |layers| > 0 then {layers[|layers| - 1]} else {}
      ensures Valid()
      ensures Structure() == old(Structure())
      ensures trace == old(trace) + BackwardInputOrder(|layers|)
      ensures |layers| > 0 ==>
        var last := layers[|layers| - 1];
        last.AllButOutputGradients() == old(last.AllButOutputGradients()) &&
        last.outputBlobsGradient == outputGradients + old(last.outputBlobsGradient)[|outputGradients|..]
    {
      var n := |layers|;
      if n > 0 {
        layers[n - 1].SetOutputGradients(outputGradients);
      }
      for k := 0 to n
        invariant Valid()
        invariant Structure() == old(Structure())
        invariant trace == old(trace) + seq(k, j requires 0 <= j < n => BackwardInputCall(n - 1 - j))
        invariant n > 0 ==>
          layers[n - 1].AllButOutputGradients() == old(layers[n - 1].AllButOutputGradients()) &&
          layers[n - 1].outputBlobsGradient == outputGradients + old(layers[n - 1].outputBlobsGradient)[|outputGradients|..]
      {
        trace := trace + [BackwardInputCall(n - 1 - k)];
      }
      if n > 0 {
        trace := trace + [SynchronizeCall(0)];
      }
      assert trace == old(trace) + BackwardInputOrder(n);
    }

    /** Runs the children's parameter gradients in reverse order. */
    method BackwardParameters()
      requires Valid()
      modifies this
      ensures Valid()
      ensures Structure() == old(Structure())
      ensures trace == old(trace) + BackwardParametersOrder(|layers|)
    {
      var n := |layers|;
      for k := 0 to n
        invariant Structure() == old(Structure())
        invariant trace == old(trace) + seq(k, j requires 0 <= j < n => BackwardParametersCall(n - 1 - j))
      {
        trace := trace + [BackwardParametersCall(n - 1 - k)];
      }
      if n > 0 {
        trace := trace + [SynchronizeCall(0)];
      }
    }
  }

  /** Child `k`'s weights sit contiguously, in child order, in the container's list of weights. */
  lemma LearnableWeightsAt(c: Sequential, k: nat, j: nat)
    requires k < |c.layers| && j < |c.layers[k].learnableWeightsData|
    ensures Offset(DataParts(c.layers), k) + j < |c.LearnableWeights()|
    ensures c.LearnableWeights()[Offset(DataParts(c.layers), k) + j] == c.layers[k].learnableWeightsData[j]
  {
    FlattenAt(DataParts(c.layers), k, j);
  }

  /** The same for the weights' gradients. */
  lemma LearnableWeightsGradientsAt(c: Sequential, k: nat, j: nat)
    requires k < |c.layers| && j < |c.layers[k].learnableWeightsGradients|
    ensures Offset(GradientParts(c.layers), k) + j < |c.LearnableWeightsGradients()|
    ensures c.LearnableWeightsGradients()[Offset(GradientParts(c.layers), k) + j] == c.layers[k].learnableWeightsGradients[j]
  {
    FlattenAt(GradientParts(c.layers), k, j);
  }

  /** The same for the weights' names. */
  lemma LearnableWeightsNamesAt(c: Sequential, k: nat, j: nat)
    requires k < |c.layers| && j < |c.layers[k].learnableWeightsNames|
    ensures Offset(NameParts(c.layers), k) + j < |c.LearnableWeightsNames()|
    ensures c.LearnableWeightsNames()[Offset(NameParts(c.layers), k) + j] == c.layers[k].learnableWeightsNames[j]
  {
    FlattenAt(NameParts(c.layers), k, j);
  }

  /** The wiring of the configuration, as the loops of the container's initialization perform it. */
  method WireLayers(config: SequentialConfig, containerInputs: seq<string>) returns (wired: SequentialConfig)
    ensures wired == Wired(config, containerInputs)
  {
    wired := config;
    if |wired.layers| > 0 {
      for k := 0 to |containerInputs|
        invariant |wired.layers| == |config.layers| && wired.inputs == config.inputs && wired.forceBackward == config.forceBackward
        invariant wired.layers[0] == config.layers[0].(inputs := config.layers[0].inputs + containerInputs[..k])
        invariant forall j :: 0 < j < |config.layers| ==> wired.layers[j] == config.layers[j]
      {
        wired := wired.(layers := wired.layers[0 := wired.layers[0].AddInput(containerInputs[k])]);
        assert containerInputs[..k + 1] == containerInputs[..k] + [containerInputs[k]];
      }
      assert containerInputs[..|containerInputs|] == containerInputs;
    }
    ghost var withInputs := config.(layers := WithContainerInputs(config.layers, containerInputs));
    assert wired.layers == withInputs.layers;
    var n := |wired.layers|;
    for i := 0 to n
      invariant wired == Steps(withInputs, i)
    {
      if i == n - 1 {
        wired := wired.(layers := wired.layers[i := wired.layers[i].AddOutput("SEQUENTIAL_OUTPUT_" + NatToString(i))]);
      } else if !AlreadyConnected(wired.layers[i], wired.layers[i + 1]) {
        var name: string;
        match wired.FindInPlaceOutput(i) {
          case Some(inPlace) => name := inPlace;
          case None => name := "SEQUENTIAL_" + NatToString(i);
        }
        wired := wired.(layers := wired.layers[i := wired.layers[i].AddOutput(name)][i + 1 := wired.layers[i + 1].AddInput(name)]);
      }
    }
  }
}
