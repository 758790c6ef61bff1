/** The two classifiers break ties between equal top scores in opposite ways:
    the fuzzy classifier keeps the first maximum, the naive Bayes classifier
    the last one. */
module ArgmaxTies {
  import opened Terrain
  import FuzzyClassifier
  import NaiveBayesClassifier

  /** `k` is the only position holding the largest value of `v`. */
  predicate IsUniqueMax(v: seq<real>, k: nat)
  {
    k < |v| && forall j | 0 <= j < |v| && j != k :: v[j] < v[k]
  }

  /** The two decision rules pick the same position exactly when the maximum
      is held by one position only. */
  lemma RulesAgreeIffUniqueMax(v: seq<real>)
    requires |v| > 0
    ensures FuzzyClassifier.FirstMaxIndex(v) == NaiveBayesClassifier.LastMaxIndex(v)
      <==> exists k :: IsUniqueMax(v, k)
  {
    var first, last := FuzzyClassifier.FirstMaxIndex(v), NaiveBayesClassifier.LastMaxIndex(v);
    if first == last {
      assert IsUniqueMax(v, first);
    }
    if k :| IsUniqueMax(v, k) {
      assert first == k && last == k;
    }
  }

  /** With tundra and forest tied on top, the fuzzy rule answers tundra and the
      naive Bayes rule forest. */
  lemma TieGoesOppositeWays(x: real, y: real)
    requires y < x
    ensures FuzzyClassifier.FirstMaxIndex([x, x, y, y]) == Tundra.Index()
    ensures NaiveBayesClassifier.LastMaxIndex([x, x, y, y]) == Forest.Index()
  {
    var v := [x, x, y, y];
    FuzzyClassifier.FirstMaxOfTie(v);
    var last := NaiveBayesClassifier.LastMaxIndex(v);
    assert v[1] <= v[last];
  }
}
