/**
 * The confusion matrix a training loop keeps to report accuracy: a
 * first-in-first-out record of (prediction, target) samples, optionally
 * bounded by a capacity, and the conversion of a network's output into
 * one predicted class per example.
 */
module ConfusionMatrices {
  import opened Wrappers
  import opened Tensors
  import opened Seqs

  /** One classified example: the predicted and the true class. */
  datatype Sample = Sample(prediction: nat, target: nat)
  {
    /** `correct`: the prediction names the true class. */
    predicate Correct()
    {
      prediction == target
    }
  }

  /** How many samples were recorded and how many of them are correct. */
  datatype Accuracy = Accuracy(numSamples: nat, numCorrect: nat)
  {
    /**
     * `ratio`: the percentage of correct samples; with no samples the
     * `f32` division yields NaN, which is `None` here.
     */
    function Ratio(): (r: Option<real>)
      requires numCorrect <= numSamples
      ensures r.Some? <==> numSamples > 0
      ensures r.Some? ==> 0.0 <= r.value <= 100.0
      ensures r.Some? ==> (r.value == 100.0 <==> numCorrect == numSamples)
      ensures r.Some? ==> (r.value == 0.0 <==> numCorrect == 0)
    {
      if numSamples == 0 then None
      else Some((numCorrect as real) / (numSamples as real) * 100.0)
    }
  }

  /** The positions of the correct samples. */
  function CorrectIndices(samples: seq<Sample>): set<nat>
  {
    set i: nat | i < |samples| && samples[i].Correct()
  }

  /** The number of correct samples: exactly the number of positions holding one. */
  function CountCorrect(samples: seq<Sample>): (n: nat)
    ensures n == |CorrectIndices(samples)|
    ensures n <= |samples|
    ensures n == |samples| <==> forall i :: 0 <= i < |samples| ==> samples[i].Correct()
    ensures n == 0 <==> forall i :: 0 <= i < |samples| ==> !samples[i].Correct()
  {
    if |samples| == 0 then
      assert CorrectIndices(samples) == {};
      0
    else
      var init := samples[..|samples| - 1];
      var last := |samples| - 1;
      assert CorrectIndices(samples) ==
        CorrectIndices(init) + (if samples[last].Correct() then {last} else {});
      CountCorrect(init) + (if samples[last].Correct() then 1 else 0)
  }

  /** The newest `c` entries of `s` (all of them when there are fewer): what a FIFO of capacity `c` retains. */
  function Newest<T>(s: seq<T>, c: nat): (r: seq<T>)
    ensures |r| == if |s| <= c then |s| else c
  {
    if |s| <= c then s else s[|s| - c..]
  }

  /**
   * `add_sample` on the record `samples`: when a capacity is set and
   * already reached, the oldest sample is dropped first (an empty record
   * has nothing to drop); the new one goes to the back.
   */
  function Admit(samples: seq<Sample>, capacity: Option<nat>, s: Sample): (r: seq<Sample>)
    ensures |r| > 0 && r[|r| - 1] == s
    ensures |r| == if capacity.Some? && |samples| >= capacity.value && |samples| > 0 then |samples| else |samples| + 1
  {
    if capacity.Some? && |samples| >= capacity.value && |samples| > 0 then samples[1..] + [s] else samples + [s]
  }

  /** Before the new sample come the kept ones: the newest of the record, in their order. */
  lemma AdmitKeepsNewest(samples: seq<Sample>, capacity: Option<nat>, s: Sample)
    ensures var r := Admit(samples, capacity, s);
      r[..|r| - 1] == samples[|samples| - (|r| - 1)..]
  {
    var r := Admit(samples, capacity, s);
    if capacity.Some? && |samples| >= capacity.value && |samples| > 0 {
      assert r[..|r| - 1] == samples[1..];
    } else {
      assert r[..|r| - 1] == samples;
    }
  }

  /** `add_sample` applied to each of `news` in order: the last one admitted is the newest entry. */
  function AdmitAll(samples: seq<Sample>, capacity: Option<nat>, news: seq<Sample>): (r: seq<Sample>)
    ensures |news| > 0 ==> |r| > 0 && r[|r| - 1] == news[|news| - 1]
    ensures |news| == 0 ==> r == samples
  {
    if |news| == 0 then samples
    else Admit(AdmitAll(samples, capacity, news[..|news| - 1]), capacity, news[|news| - 1])
  }

  lemma AdmitAllSnoc(samples: seq<Sample>, capacity: Option<nat>, news: seq<Sample>, x: Sample)
    ensures AdmitAll(samples, capacity, news + [x]) == Admit(AdmitAll(samples, capacity, news), capacity, x)
  {
    assert (news + [x])[..|news|] == news;
  }

  /** With a capacity `c` of at least one that the record respects, a new sample keeps the newest `c` of all samples. */
  lemma AdmitIsNewest(samples: seq<Sample>, c: nat, s: Sample)
    requires c >= 1 && |samples| <= c
    ensures Admit(samples, Some(c), s) == Newest(samples + [s], c)
  {
    var r := Admit(samples, Some(c), s);
    var all := samples + [s];
    if |samples| < c {
      assert r == all;
    } else {
      assert all[|all| - c..] == samples[1..] + [s];
    }
  }

  /** A capacity of zero still lets one sample in: the record then always holds exactly the newest sample. */
  lemma AdmitZeroCapacity(samples: seq<Sample>, s: Sample)
    requires |samples| <= 1
    ensures Admit(samples, Some(0), s) == [s]
  {
  }

  /** Without a capacity the record keeps every sample, in order. */
  lemma {:induction false} AdmitAllUnbounded(samples: seq<Sample>, news: seq<Sample>)
    ensures AdmitAll(samples, None, news) == samples + news
  {
    if |news| > 0 {
      var init := news[..|news| - 1];
      var x := news[|news| - 1];
      AdmitAllUnbounded(samples, init);
      var before := AdmitAll(samples, None, init);
      assert AdmitAll(samples, None, news) == Admit(before, None, x);
      assert Admit(before, None, x) == before + [x];
      assert samples + news == (samples + init) + [x];
    }
  }

  /**
   * With a capacity `c` of at least one that the record respects, adding
   * samples one by one keeps exactly the newest `c` of all samples, so the
   * record never exceeds its capacity.
   */
  lemma AdmitAllBounded(samples: seq<Sample>, c: nat, news: seq<Sample>)
    requires c >= 1 && |samples| <= c
    ensures AdmitAll(samples, Some(c), news) == Newest(samples + news, c)
    ensures |AdmitAll(samples, Some(c), news)| <= c
  {
    AdmitAllIsNewest(samples, c, news);
  }

  lemma {:induction false} AdmitAllIsNewest(samples: seq<Sample>, c: nat, news: seq<Sample>)
    requires c >= 1 && |samples| <= c
    ensures AdmitAll(samples, Some(c), news) == Newest(samples + news, c)
  {
    if |news| > 0 {
      var init := news[..|news| - 1];
      var x := news[|news| - 1];
      AdmitAllIsNewest(samples, c, init);
      AdmitAllStep(samples, c, init, x);
      assert init + [x] == news;
    }
  }

  lemma AdmitAllStep(samples: seq<Sample>, c: nat, init: seq<Sample>, x: Sample)
    requires c >= 1 && AdmitAll(samples, Some(c), init) == Newest(samples + init, c)
    ensures AdmitAll(samples, Some(c), init + [x]) == Newest(samples + (init + [x]), c)
  {
    AdmitAllSnoc(samples, Some(c), init, x);
    AdmitNewestStep(samples + init, c, AdmitAll(samples, Some(c), init), x);
    assert samples + (init + [x]) == (samples + init) + [x];
  }

  /** One more sample on a record holding the newest `c` of `all` holds the newest `c` of `all` and the sample. */
  lemma AdmitNewestStep(all: seq<Sample>, c: nat, record: seq<Sample>, x: Sample)
    requires c >= 1 && record == Newest(all, c)
    ensures Admit(record, Some(c), x) == Newest(all + [x], c)
  {
    AdmitIsNewest(record, c, x);
    NewestSnoc(all, c, x);
  }

  /** Keeping the newest `c` and then the newest `c` after one more is the same as keeping the newest `c` of all. */
  lemma NewestSnoc<T>(s: seq<T>, c: nat, x: T)
    requires c >= 1
    ensures Newest(Newest(s, c) + [x], c) == Newest(s + [x], c)
  {
    var t := s + [x];
    if |s| > c {
      assert Newest(s, c) + [x] == t[|t| - c - 1..];
    }
  }

  /** Pairs the two lists by position; the extra elements of the longer one are ignored. */
  function Zip(predictions: seq<nat>, targets: seq<nat>): (r: seq<Sample>)
    ensures |r| == if |predictions| <= |targets| then |predictions| else |targets|
    ensures forall i :: 0 <= i < |r| ==> r[i] == Sample(predictions[i], targets[i])
  {
    var n := if |predictions| <= |targets| then |predictions| else |targets|;
    seq(n, i requires 0 <= i < n => Sample(predictions[i], targets[i]))
  }

  /**
   * The index `get_predictions` picks in one chunk: the position of the
   * largest value, ties going to the highest index (a stable ascending
   * sort keeps equal values in index order and the last entry is taken).
   */
  function LastMaxIndex(chunk: seq<real>): (r: nat)
    requires |chunk| > 0
    ensures r < |chunk|
    ensures forall j :: 0 <= j < |chunk| ==> chunk[j] <= chunk[r]
    ensures forall j :: r < j < |chunk| ==> chunk[j] < chunk[r]
  {
    if |chunk| == 1 then 0
    else
      var r := LastMaxIndex(chunk[..|chunk| - 1]);
      if chunk[|chunk| - 1] >= chunk[r] then |chunk| - 1 else r
  }

  /**
   * One prediction per `k`-sized chunk of `values`, the last chunk
   * possibly shorter: every prediction names one of the `k` classes, and
   * there is one as soon as there is a score.
   */
  function Predictions(values: seq<real>, k: nat): (r: seq<nat>)
    requires k > 0
    ensures |r| == 0 <==> |values| == 0
    ensures forall i :: 0 <= i < |r| ==> r[i] < k
    decreases |values|
  {
    if |values| == 0 then []
    else
      var n := if |values| <= k then |values| else k;
      [LastMaxIndex(values[..n])] + Predictions(values[n..], k)
  }

  /** The predictions from `start` on: the one for the chunk starting there, then those after it. */
  lemma PredictionsFrom(values: seq<real>, k: nat, start: nat, end: nat)
    requires k > 0 && start < |values|
    requires end == if |values| - start <= k then |values| else start + k
    ensures Predictions(values[start..], k) == [LastMaxIndex(values[start..end])] + Predictions(values[end..], k)
  {
    var rest := values[start..];
    assert rest[..end - start] == values[start..end];
    assert rest[end - start..] == values[end..];
  }

  /** The prediction for the first example is the last maximum of its `k` scores. */
  lemma PredictionsHead(values: seq<real>, k: nat)
    requires k > 0 && |values| >= k
    ensures var r := Predictions(values, k);
      |r| > 0 && r[0] == LastMaxIndex(values[..k]) &&
      forall j :: 0 <= j < k ==> values[j] <= values[r[0]]
  {
    var chunk := values[..k];
    var m := LastMaxIndex(chunk);
    assert Predictions(values, k)[0] == m;
    forall j | 0 <= j < k
      ensures values[j] <= values[m]
    {
      assert chunk[j] <= chunk[m];
    }
  }

  /** Examples that each fill a whole chunk get one prediction apiece. */
  lemma {:induction false} PredictionsCount(values: seq<real>, k: nat, m: nat)
    requires k > 0 && |values| == m * k
    ensures |Predictions(values, k)| == m
    decreases m
  {
    if m > 0 {
      assert |values| >= k by {
        assert m * k == (m - 1) * k + k;
      }
      assert |values[k..]| == (m - 1) * k;
      PredictionsCount(values[k..], k, m - 1);
    }
  }

  class ConfusionMatrix {
    const numClasses: nat
    var capacity: Option<nat>
    var samples: seq<Sample>

    /** `new`: no capacity and no samples. */
    constructor New(classes: nat)
      ensures numClasses == classes && capacity == None && samples == []
    {
      numClasses := classes;
      capacity := None;
      samples := [];
    }

    /** `add_sample`: drops the oldest sample when the capacity is reached, then records the new one. */
    method AddSample(prediction: nat, target: nat)
      modifies this
      ensures capacity == old(capacity)
      ensures samples == Admit(old(samples), capacity, Sample(prediction, target))
    {
      if capacity.Some? && |samples| >= capacity.value {
        if |samples| > 0 {
          samples := samples[1..];
        }
      }
      samples := samples + [Sample(prediction, target)];
    }

    /** `add_samples`: `add_sample` for each pair of a prediction and its target, in order. */
    method AddSamples(predictions: seq<nat>, targets: seq<nat>)
      modifies this
      ensures capacity == old(capacity)
      ensures samples == AdmitAll(old(samples), capacity, Zip(predictions, targets))
    {
      var pairs := Zip(predictions, targets);
      for i := 0 to |pairs|
        invariant capacity == old(capacity)
        invariant samples == AdmitAll(old(samples), capacity, pairs[..i])
      {
        AdmitAllSnoc(old(samples), capacity, pairs[..i], pairs[i]);
        assert pairs[..i + 1] == pairs[..i] + [pairs[i]];
        AddSample(predictions[i], targets[i]);
      }
      assert pairs[..|pairs|] == pairs;
    }

    /** `set_capacity`: stores the bound and leaves the record as it is, even when it holds more. */
    method SetCapacity(newCapacity: Option<nat>)
      modifies this
      ensures capacity == newCapacity && samples == old(samples)
    {
      capacity := newCapacity;
    }

    /** `accuracy`: every recorded sample counts, and the correct ones among them. */
    function GetAccuracy(): (a: Accuracy)
      reads this
      ensures a.numSamples == |samples|
      ensures a.numCorrect == |CorrectIndices(samples)|
      ensures a.numCorrect <= a.numSamples
      ensures a.numCorrect == a.numSamples <==> forall i :: 0 <= i < |samples| ==> samples[i].Correct()
    {
      Accuracy(|samples|, CountCorrect(samples))
    }

    /**
     * `get_predictions`: the network output read as consecutive chunks of
     * `numClasses` scores, one predicted class per chunk. Chunks of size
     * zero panic. NaN scores (which the source orders as equal) do not
     * arise over reals.
     */
    method GetPredictions(networkOut: SharedTensor) returns (predictions: seq<nat>)
      requires numClasses > 0
      ensures predictions == Predictions(networkOut.mem[..], numClasses)
    {
      var values := networkOut.mem[..];
      predictions := [];
      var start := 0;
      while start < |values|
        invariant start <= |values|
        invariant predictions + Predictions(values[start..], numClasses) == Predictions(values, numClasses)
        decreases |values| - start
      {
        var end := if |values| - start <= numClasses then |values| else start + numClasses;
        PredictionsFrom(values, numClasses, start, end);
        var p := LastMaxIndex(values[start..end]);
        AppendAssoc(predictions, [p], Predictions(values[end..], numClasses));
        predictions := predictions + [p];
        start := end;
      }
    }
  }
}
