/** Fuzzy-logic terrain classifier: trapezoidal memberships of the three mean
    channel intensities, combined by the Goguen (product) t-norm and s-norm into
    one rule strength per class, and a first-maximum decision. */
module FuzzyClassifier {
  import opened Terrain

  /** A trapezoidal fuzzy set given by its four breakpoints. */
  datatype FuzzySet = FuzzySet(a: real, b: real, c: real, d: real)

  /** The shape a trapezoid is meant to have. */
  predicate Ordered(s: FuzzySet)
  {
    s.a <= s.b <= s.c <= s.d
  }

  const RedLow := FuzzySet(0.0, 0.0, 85.0, 125.0)
  const RedMed := FuzzySet(85.0, 125.0, 130.0, 190.0)
  const RedHigh := FuzzySet(130.0, 190.0, 255.0, 255.0)

  const GreenLow := FuzzySet(0.0, 0.0, 60.0, 120.0)
  const GreenMed := FuzzySet(60.0, 120.0, 125.0, 185.0)
  const GreenHigh := FuzzySet(125.0, 185.0, 255.0, 255.0)

  const BlueLow := FuzzySet(0.0, 0.0, 55.0, 130.0)
  const BlueMed := FuzzySet(55.0, 130.0, 140.0, 190.0)
  const BlueHigh := FuzzySet(140.0, 190.0, 255.0, 255.0)

  /** Degree to which `x` belongs to the trapezoid `s`. The branches are tried
      in order, so `x <= a` gives 0 even when `a == b` and `x >= d` gives 0 only
      when `x > c`. Neither division can be by zero, whatever the breakpoints:
      the rising ramp needs a < x < b and the falling ramp c < x < d. */
  function Membership(x: real, s: FuzzySet): (m: real)
    ensures x <= s.a ==> m == 0.0
    ensures s.a < x && s.b <= x <= s.c ==> m == 1.0
    ensures s.a < x < s.b ==> m * (s.b - s.a) == x - s.a && 0.0 < m < 1.0
    ensures s.a < x && s.b <= x && s.c < x < s.d ==> m * (s.d - s.c) == s.d - x && 0.0 < m < 1.0
    ensures s.a < x && s.b <= x && s.c < x && s.d <= x ==> m == 0.0
    ensures Ordered(s) ==> 0.0 <= m <= 1.0
  {
    if x <= s.a then 0.0
    else if x < s.b then RampFraction(x - s.a, s.b - s.a); (x - s.a) / (s.b - s.a)
    else if x <= s.c then 1.0
    else if x < s.d then RampFraction(s.d - x, s.d - s.c); (s.d - x) / (s.d - s.c)
    else 0.0
  }

  /** Goguen t-norm (fuzzy AND): the product. */
  function T(x: real, y: real): (r: real)
    ensures 0.0 <= x <= 1.0 && 0.0 <= y <= 1.0 ==> 0.0 <= r && r <= x && r <= y
  {
    ProductBounds(x, y);
    x * y
  }

  /** Goguen s-norm (fuzzy OR): the probabilistic sum. */
  function S(x: real, y: real): (r: real)
    ensures 0.0 <= x <= 1.0 && 0.0 <= y <= 1.0 ==> x <= r && y <= r && r <= 1.0
  {
    ProbabilisticSumBounds(x, y);
    (x + y) - (x * y)
  }

  lemma ProbabilisticSumBounds(x: real, y: real)
    ensures 0.0 <= x <= 1.0 && 0.0 <= y <= 1.0 ==> x <= (x + y) - (x * y) <= 1.0 && y <= (x + y) - (x * y)
  {
    if 0.0 <= x <= 1.0 && 0.0 <= y <= 1.0 {
      var u, v := 1.0 - x, 1.0 - y;
      ProductBounds(u, v);
      assert (x + y) - (x * y) == 1.0 - u * v;
    }
  }

  /** A proper fraction of a positive span: both ramps of a trapezoid. */
  lemma RampFraction(n: real, span: real)
    requires 0.0 < n < span
    ensures (n / span) * span == n && 0.0 < n / span < 1.0
  {
    var q := n / span;
    if q >= 1.0 {
      assert false;
    }
  }

  lemma ProductBounds(x: real, y: real)
    ensures 0.0 <= x <= 1.0 && 0.0 <= y <= 1.0 ==> 0.0 <= x * y && x * y <= x && x * y <= y
  {
    if 0.0 <= x <= 1.0 && 0.0 <= y <= 1.0 {
      assert x * y <= x * 1.0;
      assert x * y <= 1.0 * y;
    }
  }

  /** The four rule strengths, in the order tundra, forest, desert, ocean:
        tundra: red high AND green high AND blue high
        forest: (red low OR red medium) AND green high AND (blue low OR blue medium)
        desert: red high AND green low AND blue low
        ocean:  red low AND blue high
      Each is a degree of truth; they need not sum to 1. */
  function RuleStrengths(red: real, green: real, blue: real): (v: seq<real>)
    ensures |v| == 4
    ensures forall i | 0 <= i < 4 :: 0.0 <= v[i] <= 1.0
  {
    var rl, rm, rh := Membership(red, RedLow), Membership(red, RedMed), Membership(red, RedHigh);
    var gl, gh := Membership(green, GreenLow), Membership(green, GreenHigh);
    var bl, bm, bh := Membership(blue, BlueLow), Membership(blue, BlueMed), Membership(blue, BlueHigh);
    [T(T(rh, gh), bh), T(T(S(rl, rm), gh), S(bl, bm)), T(T(rh, gl), bl), T(rl, bh)]
  }

  /** `k` is the lowest position holding the largest value of `v`. */
  predicate IsFirstMax(v: seq<real>, k: nat)
  {
    k < |v| && (forall j | 0 <= j < |v| :: v[j] <= v[k]) && (forall j | 0 <= j < k :: v[j] < v[k])
  }

  /** The position a left-to-right scan ends on when it moves only to a value
      strictly greater than the best one seen so far. */
  function FirstMaxIndex(v: seq<real>): (k: nat)
    requires |v| > 0
    ensures IsFirstMax(v, k)
  {
    if |v| == 1 then 0
    else
      var k := FirstMaxIndex(v[..|v| - 1]);
      if v[|v| - 1] > v[k] then |v| - 1 else k
  }

  /** The class named at a position of the rule-strength vector; positions past
      the four classes name none. */
  function ClassAt(k: nat): (found: Option<Label>)
    ensures found.Some? <==> k < 4
    ensures found.Some? ==> found.value.Index() == k
  {
    if k < 4 then Some(FromIndex(k)) else None
  }

  /** Scans the strengths once, keeping the index of the first maximum, and
      names its class. An empty vector leaves the scan at index 0: tundra. */
  method FindClass(classes: seq<real>) returns (found: Option<Label>)
    ensures classes == [] ==> found == Some(Tundra)
    ensures classes != [] ==> found == ClassAt(FirstMaxIndex(classes))
    ensures classes != [] && found.Some? ==> IsFirstMax(classes, found.value.Index())
    ensures |classes| <= 4 ==> found.Some?
  {
    var maxValueIndex: nat := 0;
    var i := 0;
    while i < |classes|
      invariant 0 <= i <= |classes|
      invariant i == 0 ==> maxValueIndex == 0
      invariant i > 0 ==> maxValueIndex == FirstMaxIndex(classes[..i])
    {
      if classes[i] > classes[maxValueIndex] {
        maxValueIndex := i;
      }
      assert classes[..i + 1][..i] == classes[..i];
      i := i + 1;
    }
    assert classes != [] ==> classes[..i] == classes;
    found := ClassAt(maxValueIndex);
  }

  /** The whole classification as a value: strengths and their first maximum. */
  function Predict(red: real, green: real, blue: real): (p: Prediction)
    ensures |p.scores| == 4 && IsFirstMax(p.scores, p.terrain.Index())
  {
    var v := RuleStrengths(red, green, blue);
    Prediction(FromIndex(FirstMaxIndex(v)), v)
  }

  /** Classifies an image from its three mean channel intensities: the
      eight memberships the rules use (green medium is used by none), four
      rules, then the first-maximum decision. */
  method Classify(red: real, green: real, blue: real) returns (terrain: Label, memberships: seq<real>)
    ensures Prediction(terrain, memberships) == Predict(red, green, blue)
    ensures |memberships| == 4 && forall i | 0 <= i < 4 :: 0.0 <= memberships[i] <= 1.0
    ensures IsFirstMax(memberships, terrain.Index())
  {
    var mRl := Membership(red, RedLow);
    var mRm := Membership(red, RedMed);
    var mRh := Membership(red, RedHigh);

    var mGl := Membership(green, GreenLow);
    var mGh := Membership(green, GreenHigh);

    var mBl := Membership(blue, BlueLow);
    var mBm := Membership(blue, BlueMed);
    var mBh := Membership(blue, BlueHigh);

    var ruleTundra := T(T(mRh, mGh), mBh);
    var ruleForest := T(T(S(mRl, mRm), mGh), S(mBl, mBm));
    var ruleDesert := T(T(mRh, mGl), mBl);
    var ruleOcean := T(mRl, mBh);

    memberships := [ruleTundra, ruleForest, ruleDesert, ruleOcean];
    var found := FindClass(memberships);
    terrain := found.value;
  }

  /** When the first entry is a maximum, the first-maximum rule picks it,
      however many other entries tie with it. */
  lemma FirstMaxOfTie(v: seq<real>)
    requires |v| > 0 && forall j | 0 <= j < |v| :: v[j] <= v[0]
    ensures FirstMaxIndex(v) == 0
  {
  }

  // Properties of the membership function

  /** Every one of the nine configured sets is a well-formed trapezoid. */
  lemma ConfiguredSetsOrdered()
    ensures Ordered(RedLow) && Ordered(RedMed) && Ordered(RedHigh)
    ensures Ordered(GreenLow) && Ordered(GreenMed) && Ordered(GreenHigh)
    ensures Ordered(BlueLow) && Ordered(BlueMed) && Ordered(BlueHigh)
  {
  }

  lemma DivideMonotone(n1: real, n2: real, span: real)
    requires n1 <= n2 && 0.0 < span
    ensures n1 / span <= n2 / span
  {
    if n1 / span > n2 / span {
      assert false;
    }
  }

  /** Left of the plateau's end the membership never decreases. */
  lemma MembershipRises(s: FuzzySet, x: real, y: real)
    requires Ordered(s) && x <= y <= s.c
    ensures Membership(x, s) <= Membership(y, s)
  {
    if s.a < x && y < s.b {
      DivideMonotone(x - s.a, y - s.a, s.b - s.a);
    }
  }

  /** Right of the plateau's start the membership never increases, provided
      the start lies past `a`: when a == b the point x == a is outside. */
  lemma MembershipFalls(s: FuzzySet, x: real, y: real)
    requires Ordered(s) && s.b <= x <= y && s.a < x
    ensures Membership(y, s) <= Membership(x, s)
  {
    if s.c < x && y < s.d {
      DivideMonotone(s.d - y, s.d - x, s.d - s.c);
    }
  }

  /** The low sets start with a == b == 0, and `x <= a` is tested first, so a
      channel mean of exactly 0 is not "low" at all. */
  lemma LowSetsExcludeZero()
    ensures Membership(0.0, RedLow) == 0.0
    ensures Membership(0.0, GreenLow) == 0.0
    ensures Membership(0.0, BlueLow) == 0.0
    ensures Membership(0.000001, RedLow) == 1.0
  {
  }

  /** The high sets end with c == d == 255, and `x <= c` is tested before
      `x < d`, so a channel mean of exactly 255 is fully "high". */
  lemma HighSetsIncludeTop()
    ensures Membership(255.0, RedHigh) == 1.0
    ensures Membership(255.0, GreenHigh) == 1.0
    ensures Membership(255.0, BlueHigh) == 1.0
    ensures Membership(255.5, RedHigh) == 0.0
  {
  }

  // Properties of the norms

  lemma NormsCommute(x: real, y: real)
    ensures T(x, y) == T(y, x)
    ensures S(x, y) == S(y, x)
  {
  }

  /** The s-norm is the De Morgan dual of the t-norm under 1 - x. */
  lemma NormsDual(x: real, y: real)
    ensures S(x, y) == 1.0 - T(1.0 - x, 1.0 - y)
  {
  }

  /** 1 is neutral for AND, 0 for OR. */
  lemma NormsNeutral(x: real)
    ensures T(x, 1.0) == x && S(x, 0.0) == x
  {
  }

  // Properties of the rules and the decision

  /** Every channel fully on the "high" plateau makes the tundra rule fully true. */
  lemma TundraPlateau(red: real, green: real, blue: real)
    requires 190.0 <= red <= 255.0 && 185.0 <= green <= 255.0 && 190.0 <= blue <= 255.0
    ensures RuleStrengths(red, green, blue)[0] == 1.0
    ensures Predict(red, green, blue).terrain == Tundra
  {
    var v := RuleStrengths(red, green, blue);
    assert forall j | 0 <= j < 4 :: v[j] <= v[0];
  }

  /** A black image fires no rule; the first-maximum rule then names tundra. */
  lemma BlackImageIsTundra()
    ensures Predict(0.0, 0.0, 0.0) == Prediction(Tundra, [0.0, 0.0, 0.0, 0.0])
  {
    assert RuleStrengths(0.0, 0.0, 0.0) == [0.0, 0.0, 0.0, 0.0];
    FirstMaxOfTie([0.0, 0.0, 0.0, 0.0]);
  }

  /** A white image is fully tundra. */
  lemma WhiteImageIsTundra()
    ensures Predict(255.0, 255.0, 255.0) == Prediction(Tundra, [1.0, 0.0, 0.0, 0.0])
  {
    assert RuleStrengths(255.0, 255.0, 255.0) == [1.0, 0.0, 0.0, 0.0];
    FirstMaxOfTie([1.0, 0.0, 0.0, 0.0]);
  }

  /** Pure blue fires no ocean rule: red 0 is not "low" (LowSetsExcludeZero),
      so every strength is 0 and tundra wins the tie. */
  lemma PureBlueIsTundra()
    ensures Predict(0.0, 0.0, 255.0) == Prediction(Tundra, [0.0, 0.0, 0.0, 0.0])
  {
    assert RuleStrengths(0.0, 0.0, 255.0) == [0.0, 0.0, 0.0, 0.0];
    FirstMaxOfTie([0.0, 0.0, 0.0, 0.0]);
  }

  /** A red mean just above 0 is fully low, and then pure blue is fully ocean. */
  lemma NearlyPureBlueIsOcean()
    ensures Predict(1.0, 0.0, 255.0) == Prediction(Ocean, [0.0, 0.0, 0.0, 1.0])
  {
  }
}
