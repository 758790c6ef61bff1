/** Naive Bayes terrain classifier: each mean channel intensity is bucketed as
    low (below 128) or high, the per-class bucket probabilities are multiplied
    into a likelihood, Bayes' rule with fixed priors gives the posteriors, and
    the last class holding the largest posterior is the prediction. */
module NaiveBayesClassifier {
  import opened Terrain

  /** Prior probability of each class, in the order tundra, forest, desert, ocean. */
  const Priors: seq<real> := [0.03, 0.10, 0.11, 0.76]

  /** The class named by each position of a score vector. */
  const Settings: seq<Label> := [Tundra, Forest, Desert, Ocean]

  /** P(channel high | class): one row per class, columns red, green, blue. */
  const HighTable: seq<seq<real>> :=
    [[0.85, 0.71, 0.89], [0.53, 0.88, 0.12], [0.94, 0.06, 0.03], [0.18, 0.27, 0.98]]

  /** P(channel low | class): one row per class, columns red, green, blue. */
  const LowTable: seq<seq<real>> :=
    [[0.15, 0.29, 0.11], [0.47, 0.12, 0.88], [0.06, 0.94, 0.97], [0.82, 0.73, 0.02]]

  /** The outcome of a division by the evidence: Python raises ZeroDivisionError. */
  datatype Result<T> = Ok(value: T) | DivisionByZero

  // Specification of each step

  /** P(bucket of `x` | class `setting`) for one channel: the low table when
      x < 128, the high table otherwise (128 itself counts as high). */
  function Conditional(setting: nat, channel: nat, x: real): (p: real)
    requires setting < 4 && channel < 3
    ensures 0.0 < p < 1.0
  {
    if x < 128.0 then LowTable[setting][channel] else HighTable[setting][channel]
  }

  /** P(R, G, B | class `setting`) under the naive independence assumption. */
  function Likelihood(setting: nat, red: real, green: real, blue: real): (l: real)
    requires setting < 4
    ensures 0.0 < l < 1.0
  {
    var first, second := Conditional(setting, 0, red), Conditional(setting, 1, green);
    var third := Conditional(setting, 2, blue);
    ProperFractionProduct(first, second);
    ProperFractionProduct(first * second, third);
    first * second * third
  }

  /** The four likelihoods in class order. */
  function LikelihoodVector(red: real, green: real, blue: real): (v: seq<real>)
    ensures |v| == 4 && forall i | 0 <= i < 4 :: 0.0 < v[i] < 1.0
  {
    seq(4, i requires 0 <= i < 4 => Likelihood(i, red, green, blue))
  }

  /** Prior-weighted sum of the first `n` likelihoods. */
  function WeightedSum(likelihoods: seq<real>, n: nat): real
    requires n <= |likelihoods| && n <= 4
  {
    if n == 0 then 0.0
    else WeightedSum(likelihoods, n - 1) + likelihoods[n - 1] * Priors[n - 1]
  }

  /** The evidence P(R, G, B): positive, and at most 1, for proper likelihoods. */
  function Evidence(likelihoods: seq<real>): (e: real)
    requires |likelihoods| == 4
    ensures (forall i | 0 <= i < 4 :: 0.0 < likelihoods[i]) ==> 0.0 < e
    ensures (forall i | 0 <= i < 4 :: 0.0 <= likelihoods[i] <= 1.0) ==> 0.0 <= e <= 1.0
  {
    EvidenceExpanded(likelihoods);
    WeightedSum(likelihoods, 4)
  }

  /** Bayes' rule: P(class | R, G, B) for each class. */
  function PosteriorVector(likelihoods: seq<real>, evidence: real): (v: seq<real>)
    requires |likelihoods| == 4 && evidence != 0.0
    ensures |v| == 4
  {
    seq(4, i requires 0 <= i < 4 => likelihoods[i] * Priors[i] / evidence)
  }

  /** The largest value of `v` (Python's built-in max). */
  function MaxOf(v: seq<real>): (m: real)
    requires |v| > 0
    ensures m in v && forall j | 0 <= j < |v| :: v[j] <= m
  {
    if |v| == 1 then v[0]
    else
      var m := MaxOf(v[..|v| - 1]);
      assert v[..|v| - 1] <= v;
      if v[|v| - 1] > m then v[|v| - 1] else m
  }

  /** The last position of `v` that holds `m`. */
  function LastIndexOf(v: seq<real>, m: real): (k: nat)
    requires m in v
    ensures k < |v| && v[k] == m && forall j | k < j < |v| :: v[j] != m
  {
    if v[|v| - 1] == m then |v| - 1
    else
      assert m in v[..|v| - 1] by {
        var j :| 0 <= j < |v| && v[j] == m;
        assert v[..|v| - 1][j] == m;
      }
      LastIndexOf(v[..|v| - 1], m)
  }

  /** `k` is the highest position holding the largest value of `v`. */
  predicate IsLastMax(v: seq<real>, k: nat)
  {
    k < |v| && (forall j | 0 <= j < |v| :: v[j] <= v[k]) && (forall j | k < j < |v| :: v[j] < v[k])
  }

  function LastMaxIndex(v: seq<real>): (k: nat)
    requires |v| > 0
    ensures IsLastMax(v, k)
  {
    LastIndexOf(v, MaxOf(v))
  }

  /** The whole classification as a value. */
  function Predict(red: real, green: real, blue: real): (p: Prediction)
    ensures |p.scores| == 4 && Sum(p.scores) == 1.0
    ensures forall i | 0 <= i < 4 :: 0.0 <= p.scores[i] <= 1.0
    ensures IsLastMax(p.scores, p.terrain.Index())
  {
    var likelihoods := LikelihoodVector(red, green, blue);
    var posteriors := PosteriorVector(likelihoods, Evidence(likelihoods));
    PosteriorsDistribution(likelihoods);
    Prediction(Settings[LastMaxIndex(posteriors)], posteriors)
  }

  // The classifier's steps, as the source performs them

  /** Step 1: the likelihood of the observed buckets under each class. */
  method ComputeLikelihoods(red: real, green: real, blue: real) returns (rgbGivenSetting: seq<real>)
    ensures rgbGivenSetting == LikelihoodVector(red, green, blue)
  {
    rgbGivenSetting := [];
    for i := 0 to 4
      invariant |rgbGivenSetting| == i
      invariant forall k | 0 <= k < i :: rgbGivenSetting[k] == Likelihood(k, red, green, blue)
    {
      var j := 0;
      var first, second, third;
      if red < 128.0 {
        first := LowTable[i][j];
      } else {
        first := HighTable[i][j];
      }
      if green < 128.0 {
        second := LowTable[i][j + 1];
      } else {
        second := HighTable[i][j + 1];
      }
      if blue < 128.0 {
        third := LowTable[i][j + 2];
      } else {
        third := HighTable[i][j + 2];
      }
      var product := first * second * third;
      rgbGivenSetting := rgbGivenSetting + [product];
    }
  }

  /** Step 2: the evidence, accumulated class by class. */
  method ComputeEvidence(rgbGivenSetting: seq<real>) returns (denominator: real)
    requires |rgbGivenSetting| == 4
    ensures denominator == Evidence(rgbGivenSetting)
  {
    denominator := 0.0;
    for i := 0 to 4
      invariant denominator == WeightedSum(rgbGivenSetting, i)
    {
      denominator := denominator + rgbGivenSetting[i] * Priors[i];
    }
  }

  /** Step 3: the posteriors, appended class by class; the first division by a
      zero evidence fails. */
  method ComputePosteriors(rgbGivenSetting: seq<real>, denominator: real) returns (result: Result<seq<real>>)
    requires |rgbGivenSetting| == 4
    ensures denominator == 0.0 ==> result == DivisionByZero
    ensures denominator != 0.0 ==> result == Ok(PosteriorVector(rgbGivenSetting, denominator))
  {
    var settingGivenRgb: seq<real> := [];
    for i := 0 to 4
      invariant |settingGivenRgb| == i
      invariant i > 0 ==> denominator != 0.0 && settingGivenRgb == PosteriorVector(rgbGivenSetting, denominator)[..i]
    {
      if denominator == 0.0 {
        return DivisionByZero;
      }
      settingGivenRgb := settingGivenRgb + [rgbGivenSetting[i] * Priors[i] / denominator];
    }
    assert settingGivenRgb == PosteriorVector(rgbGivenSetting, denominator);
    result := Ok(settingGivenRgb);
  }

  /** Step 4: every class whose posterior equals the maximum overwrites the
      answer, so the last such class wins. */
  method FindMostLikely(settingGivenRgb: seq<real>) returns (setting: Label)
    requires |settingGivenRgb| == 4
    ensures setting == Settings[LastMaxIndex(settingGivenRgb)]
    ensures IsLastMax(settingGivenRgb, setting.Index())
  {
    var maxP := MaxOf(settingGivenRgb);
    var found: Option<nat> := None;
    for i := 0 to 4
      invariant found.None? ==> forall j | 0 <= j < i :: settingGivenRgb[j] != maxP
      invariant found.Some? ==> found.value < i && settingGivenRgb[found.value] == maxP
      invariant found.Some? ==> forall j | found.value < j < i :: settingGivenRgb[j] != maxP
    {
      if settingGivenRgb[i] == maxP {
        found := Some(i);
      }
    }
    setting := Settings[found.value];
  }

  /** Classifies an image from its three mean channel intensities. */
  method Classify(red: real, green: real, blue: real) returns (terrain: Label, probabilities: seq<real>)
    ensures Prediction(terrain, probabilities) == Predict(red, green, blue)
    ensures |probabilities| == 4 && Sum(probabilities) == 1.0
    ensures forall i | 0 <= i < 4 :: 0.0 <= probabilities[i] <= 1.0
    ensures IsLastMax(probabilities, terrain.Index())
  {
    var rgbGivenSetting := ComputeLikelihoods(red, green, blue);
    var pRgb := ComputeEvidence(rgbGivenSetting);
    var outcome := ComputePosteriors(rgbGivenSetting, pRgb);
    probabilities := outcome.value;
    terrain := FindMostLikely(probabilities);
  }

  // Lemmas

  lemma ProperFractionProduct(x: real, y: real)
    ensures 0.0 < x < 1.0 && 0.0 < y < 1.0 ==> 0.0 < x * y < 1.0
  {
    if 0.0 < x < 1.0 && 0.0 < y < 1.0 {
      assert x * y < 1.0 * y;
    }
  }

  /** The evidence written out as the prior-weighted sum of all four classes. */
  lemma EvidenceExpanded(likelihoods: seq<real>)
    requires |likelihoods| == 4
    ensures WeightedSum(likelihoods, 4)
      == likelihoods[0] * 0.03 + likelihoods[1] * 0.10 + likelihoods[2] * 0.11 + likelihoods[3] * 0.76
  {
    assert WeightedSum(likelihoods, 1) == likelihoods[0] * 0.03;
    assert WeightedSum(likelihoods, 2) == likelihoods[0] * 0.03 + likelihoods[1] * 0.10;
    assert WeightedSum(likelihoods, 3) == likelihoods[0] * 0.03 + likelihoods[1] * 0.10 + likelihoods[2] * 0.11;
  }

  lemma SumOfFour(v: seq<real>)
    requires |v| == 4
    ensures Sum(v) == v[0] + v[1] + v[2] + v[3]
  {
    assert v[..3][..2] == v[..2] && v[..2][..1] == v[..1] && v[..1][..0] == [];
    assert Sum(v[..1]) == v[0];
    assert Sum(v[..2]) == v[0] + v[1];
    assert Sum(v[..3]) == v[0] + v[1] + v[2];
  }

  lemma FractionOfWhole(n: real, total: real)
    requires 0.0 <= n <= total && 0.0 < total
    ensures 0.0 <= n / total <= 1.0
  {
    if n / total > 1.0 {
      assert false;
    }
  }

  /** Four positive weights divided by their total sum to exactly 1. */
  lemma NormalisedSum(w0: real, w1: real, w2: real, w3: real)
    requires 0.0 < w0 && 0.0 < w1 && 0.0 < w2 && 0.0 < w3
    ensures var e := w0 + w1 + w2 + w3; w0 / e + w1 / e + w2 / e + w3 / e == 1.0
  {
    var e := w0 + w1 + w2 + w3;
    assert w0 / e + w1 / e == (w0 + w1) / e;
    assert (w0 + w1) / e + w2 / e == (w0 + w1 + w2) / e;
    assert (w0 + w1 + w2) / e + w3 / e == e / e;
  }

  /** Bayes' rule over the fixed priors yields a probability distribution:
      every posterior lies in [0, 1] and the four sum to exactly 1. */
  lemma PosteriorsDistribution(likelihoods: seq<real>)
    requires |likelihoods| == 4 && forall i | 0 <= i < 4 :: 0.0 < likelihoods[i]
    ensures var v := PosteriorVector(likelihoods, Evidence(likelihoods));
      Sum(v) == 1.0 && forall i | 0 <= i < 4 :: 0.0 <= v[i] <= 1.0
  {
    var e := Evidence(likelihoods);
    var v := PosteriorVector(likelihoods, e);
    var w0, w1 := likelihoods[0] * 0.03, likelihoods[1] * 0.10;
    var w2, w3 := likelihoods[2] * 0.11, likelihoods[3] * 0.76;
    EvidenceExpanded(likelihoods);
    assert e == w0 + w1 + w2 + w3;
    assert v == [w0 / e, w1 / e, w2 / e, w3 / e];
    SumOfFour(v);
    NormalisedSum(w0, w1, w2, w3);
    FractionOfWhole(w0, e);
    FractionOfWhole(w1, e);
    FractionOfWhole(w2, e);
    FractionOfWhole(w3, e);
  }

  // Properties of the configuration and of the classifier

  /** For every class and channel the two buckets' probabilities sum to 1, and
      the priors are a probability distribution. */
  lemma TablesAreDistributions()
    ensures forall i, c | 0 <= i < 4 && 0 <= c < 3 :: HighTable[i][c] + LowTable[i][c] == 1.0
    ensures forall i | 0 <= i < 4 :: 0.0 < Priors[i]
    ensures Sum(Priors) == 1.0
  {
    SumOfFour(Priors);
  }

  /** The `settings` list agrees with the position of every class. */
  lemma SettingsInClassOrder()
    ensures |Settings| == 4
    ensures forall i | 0 <= i < 4 :: Settings[i] == FromIndex(i) && Settings[i].Index() == i
  {
  }

  /** A channel selects the low table exactly when its mean is below 128. */
  lemma ThresholdAt128(setting: nat, channel: nat, x: real)
    requires setting < 4 && channel < 3
    ensures Conditional(setting, channel, x) == LowTable[setting][channel] <==> x < 128.0
    ensures Conditional(setting, channel, x) == HighTable[setting][channel] <==> 128.0 <= x
  {
    TablesAreDistributions();
  }

  /** The prediction depends only on which side of 128 each channel falls. */
  lemma PredictDependsOnlyOnBuckets(red: real, green: real, blue: real, red': real, green': real, blue': real)
    requires (red < 128.0 <==> red' < 128.0) && (green < 128.0 <==> green' < 128.0)
    requires (blue < 128.0 <==> blue' < 128.0)
    ensures Predict(red, green, blue) == Predict(red', green', blue')
  {
    var l, l' := LikelihoodVector(red, green, blue), LikelihoodVector(red', green', blue');
    forall i | 0 <= i < 4
      ensures l[i] == l'[i]
    {
      assert Conditional(i, 0, red) == Conditional(i, 0, red');
      assert Conditional(i, 1, green) == Conditional(i, 1, green');
      assert Conditional(i, 2, blue) == Conditional(i, 2, blue');
    }
    assert l == l';
  }

  /** Red and green high, blue low: the likelihoods and the evidence,
      computed by hand from the tables. */
  lemma BrightRedGreenEvidence()
    ensures LikelihoodVector(200.0, 200.0, 50.0) == [0.066385, 0.410432, 0.054708, 0.000972]
    ensures Evidence(LikelihoodVector(200.0, 200.0, 50.0)) == 0.04979135
  {
    var l := LikelihoodVector(200.0, 200.0, 50.0);
    assert l == [0.066385, 0.410432, 0.054708, 0.000972];
    EvidenceExpanded(l);
  }

  /** ... and the prediction: forest, by a wide margin. */
  lemma BrightRedGreenIsForest()
    ensures Predict(200.0, 200.0, 50.0).terrain == Forest
  {
    BrightRedGreenEvidence();
    var l := LikelihoodVector(200.0, 200.0, 50.0);
    var e := Evidence(l);
    var p := PosteriorVector(l, e);
    assert Predict(200.0, 200.0, 50.0).scores == p;
    assert p[0] == 0.00199155 / e && p[1] == 0.0410432 / e;
    assert p[2] == 0.00601788 / e && p[3] == 0.00073872 / e;
    assert p[0] < p[1] && p[2] < p[1] && p[3] < p[1];
  }
}
