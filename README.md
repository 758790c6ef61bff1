# Nature image classifier: the two decision cores

This project models the two classifiers of a small terrain classifier for
photographs. Each classifier takes the mean red, green and blue intensities
of an image and returns one of four terrain classes (tundra, forest, desert,
ocean) together with a score vector in that order.

- `FuzzyClassifier` (fuzzy.dfy, from fuzzy.py). Nine trapezoidal fuzzy sets
  (low, medium and high for each channel) give membership degrees. The Goguen
  t-norm (product) and s-norm (probabilistic sum) combine them into four rule
  strengths. The first position holding the largest strength names the class.
- `NaiveBayesClassifier` (naive.dfy, from naive.py). Each channel is bucketed
  as low (below 128) or high. The per-class bucket probabilities are
  multiplied into a likelihood, weighted by fixed priors into the evidence,
  and normalised into posteriors. The last position holding the largest
  posterior names the class.
- `Terrain` (terrain.dfy) holds the four-class enumeration and the
  `Prediction` pair shared by both classifiers.
- `ArgmaxTies` (ties.dfy) relates the two decision rules to each other.

Arithmetic is over Dafny's `real`. The pure parts of fuzzy.py are functions.
`find_class` and every step of naive.py are loops in the source, so they are
methods with loop invariants. Each method is proved against a specification
function (`FirstMaxIndex`, `LikelihoodVector`, `Evidence`, `PosteriorVector`,
`LastMaxIndex`, `Predict`), and the lemmas state the classifiers' properties
in terms of those functions.

Two places where the code and a plain reading of its intent disagree. The
model follows the code in both.

- The low fuzzy sets start with `a == b == 0`, and the membership function
  tests `x <= a` first. So a channel mean of exactly 0 has membership 0 in
  "low". The rule comment at fuzzy.py:66 reads "IF red_low AND blue_high THEN
  ocean", yet the code gives a pure-blue image (0, 0, 255) ocean strength 0.
  Every rule strength is then 0 and the first-maximum rule names tundra
  (`PureBlueIsTundra`). A red mean of 1 instead gives full ocean
  (`NearlyPureBlueIsOcean`).
- The comment above the high table says "channel > 128". The code selects the
  low table when the value is `< 128`, so exactly 128 counts as high
  (`ThresholdAt128`).

## Model

| member | source | states |
|---|---|---|
| `Terrain.Label.Index` | naive.py:8 | positions 0..3 are tundra, forest, desert, ocean; every class has a position below 4 |
| `Terrain.FromIndex` | fuzzy.py:137-140 | the class at a position is the one whose position it is |
| `FuzzyClassifier.Membership` | fuzzy.py:76-104 | 0 whenever x <= a, even if a == b; exactly 1 on [b, c] past a; on the rising ramp m(b-a) == x-a with 0 < m < 1; on the falling ramp m(d-c) == d-x with 0 < m < 1; 0 past both c and d; in [0, 1] for ordered breakpoints; neither division can be by zero for any breakpoints |
| `FuzzyClassifier.ConfiguredSetsOrdered` | fuzzy.py:14-24 | all nine configured breakpoint tables satisfy a <= b <= c <= d |
| `FuzzyClassifier.MembershipRises` | fuzzy.py:93-98 | for an ordered set, membership never decreases up to the end of the plateau |
| `FuzzyClassifier.MembershipFalls` | fuzzy.py:97-102 | for an ordered set, membership never increases from the start of the plateau on, provided that start lies past a |
| `FuzzyClassifier.LowSetsExcludeZero` | fuzzy.py:93-94 | red, green and blue "low" all give 0 at input 0, while red "low" gives 1 just above 0 |
| `FuzzyClassifier.HighSetsIncludeTop` | fuzzy.py:97-98 | red, green and blue "high" all give exactly 1 at 255, because `x <= c` is tested before `x < d` |
| `FuzzyClassifier.T` | fuzzy.py:106-110 | on [0,1] x [0,1] the t-norm lies in [0, min(x, y)] |
| `FuzzyClassifier.S` | fuzzy.py:115-119 | on [0,1] x [0,1] the s-norm lies in [max(x, y), 1] |
| `FuzzyClassifier.NormsCommute` | fuzzy.py:106-119 | both norms are commutative |
| `FuzzyClassifier.NormsDual` | fuzzy.py:106-119 | s(x, y) == 1 - t(1 - x, 1 - y) |
| `FuzzyClassifier.NormsNeutral` | fuzzy.py:106-119 | 1 is neutral for t and 0 for s |
| `FuzzyClassifier.RuleStrengths` | fuzzy.py:43-69 | four strengths in the order tundra, forest, desert, ocean, each in [0, 1] for every input |
| `FuzzyClassifier.FirstMaxIndex` | fuzzy.py:132-135 | the scan ends on a position holding the maximum, and every earlier position holds strictly less |
| `FuzzyClassifier.ClassAt` | fuzzy.py:137-140 | positions 0..3 name their class and every other position names none |
| `FuzzyClassifier.FindClass` | fuzzy.py:124-140 | an empty vector gives tundra; otherwise the class of the first maximum, or none when that lies past position 3; vectors of at most four entries always name a class |
| `FuzzyClassifier.Predict` | fuzzy.py:42-74 | four scores, and the class is at their first maximum |
| `FuzzyClassifier.Classify` | fuzzy.py:42-74 | returns `Predict` of the three means: strengths in [0, 1] and the class at their first maximum |
| `FuzzyClassifier.FirstMaxOfTie` | fuzzy.py:132-137 | when position 0 holds a maximum, the first-maximum rule picks it whatever ties with it |
| `FuzzyClassifier.TundraPlateau` | fuzzy.py:58 | red in [190, 255], green in [185, 255] and blue in [190, 255] give tundra strength exactly 1 and predict tundra |
| `FuzzyClassifier.BlackImageIsTundra` | fuzzy.py:137 | means (0, 0, 0) give all strengths 0 and predict tundra |
| `FuzzyClassifier.WhiteImageIsTundra` | fuzzy.py:58 | means (255, 255, 255) give strengths [1, 0, 0, 0] and predict tundra |
| `FuzzyClassifier.PureBlueIsTundra` | fuzzy.py:67 | means (0, 0, 255) give all strengths 0, ocean included, and predict tundra |
| `FuzzyClassifier.NearlyPureBlueIsOcean` | fuzzy.py:67 | means (1, 0, 255) give strengths [0, 0, 0, 1] and predict ocean |
| `NaiveBayesClassifier.SettingsInClassOrder` | naive.py:8 | the `settings` list names, at each position, the same class as the fuzzy classifier's index-to-class mapping |
| `NaiveBayesClassifier.Conditional` | naive.py:55-66 | the selected table entry is a probability strictly between 0 and 1 |
| `NaiveBayesClassifier.ThresholdAt128` | naive.py:55-66 | a channel selects the low entry iff its value is < 128 and the high entry iff it is >= 128 |
| `NaiveBayesClassifier.Likelihood` | naive.py:68 | the product of the three selected entries lies strictly between 0 and 1 |
| `NaiveBayesClassifier.LikelihoodVector` | naive.py:53-71 | four likelihoods, each strictly between 0 and 1 |
| `NaiveBayesClassifier.ComputeLikelihoods` | naive.py:50-71 | the appended list is exactly the four likelihoods in class order |
| `NaiveBayesClassifier.TablesAreDistributions` | naive.py:7-15 | for every class and channel the high and low entries sum to 1; the priors are positive and sum to 1 |
| `NaiveBayesClassifier.Evidence` | naive.py:74-78 | positive when every likelihood is positive, and at most 1 when every likelihood is at most 1 |
| `NaiveBayesClassifier.EvidenceExpanded` | naive.py:76-77 | the accumulated evidence is the prior-weighted sum of the four likelihoods |
| `NaiveBayesClassifier.ComputeEvidence` | naive.py:74-78 | the accumulated denominator equals `Evidence` of the likelihoods |
| `NaiveBayesClassifier.PosteriorVector` | naive.py:81-87 | Bayes' rule gives four scores |
| `NaiveBayesClassifier.ComputePosteriors` | naive.py:81-87 | a zero denominator fails with a division by zero; any other gives the four values likelihood times prior over the denominator |
| `NaiveBayesClassifier.NormalisedSum` | naive.py:84 | four positive weights divided by their total sum to exactly 1 |
| `NaiveBayesClassifier.PosteriorsDistribution` | naive.py:81-87 | for positive likelihoods each posterior lies in [0, 1] and the four sum to exactly 1 |
| `NaiveBayesClassifier.MaxOf` | naive.py:91 | the result occurs in the list and no entry exceeds it |
| `NaiveBayesClassifier.LastIndexOf` | naive.py:92-94 | the last position holding the given value |
| `NaiveBayesClassifier.LastMaxIndex` | naive.py:91-94 | a position holding the maximum, with every later position strictly less |
| `NaiveBayesClassifier.FindMostLikely` | naive.py:90-95 | the class of the last position holding the maximum |
| `NaiveBayesClassifier.Predict` | naive.py:33-47 | the evidence is never 0; four posteriors in [0, 1] summing to 1; the class is at their last maximum |
| `NaiveBayesClassifier.Classify` | naive.py:33-47 | returns `Predict` of the three means: the steps never divide by zero, the posteriors sum to 1 and the class is at their last maximum |
| `NaiveBayesClassifier.PredictDependsOnlyOnBuckets` | naive.py:55-66 | two inputs on the same side of 128 in every channel get the same class and the same posteriors |
| `NaiveBayesClassifier.BrightRedGreenEvidence` | naive.py:53-78 | means (200, 200, 50) give likelihoods [0.066385, 0.410432, 0.054708, 0.000972] and evidence 0.04979135 |
| `NaiveBayesClassifier.BrightRedGreenIsForest` | naive.py:90-95 | means (200, 200, 50) predict forest |
| `ArgmaxTies.RulesAgreeIffUniqueMax` | naive.py:90-95 | the first-maximum and last-maximum rules pick the same position iff exactly one position holds the maximum |
| `ArgmaxTies.TieGoesOppositeWays` | fuzzy.py:132-135 | with tundra and forest tied on top, the fuzzy rule picks tundra and the naive Bayes rule picks forest |

## Left out

- Image loading and channel averaging (fuzzy.py:37-40, naive.py:27-31) call PIL and numpy on a file. The classifiers take the three channel means as inputs instead.
- main.py, the interactive console loop that calls both classifiers, is not part of this model.
- IEEE floating-point rounding and NaN propagation are not modelled. All arithmetic is over exact reals, so "sums to 1" and "exactly 1" hold over reals, not over doubles.
- The module-level globals `highest_membership_class` and `class_memberships` in fuzzy.py are never written; local variables shadow them.
- fuzzy.py:48 computes the green "medium" membership `m_gm`, but no rule uses it; the model does not compute it.
- The commented-out Gödel min/max norms in fuzzy.py are dead code.
- NaiveBayesClassifier.ComputeEvidence: requires exactly four likelihoods. In Python a shorter list raises IndexError and a longer one has its extra entries ignored; the classifier always passes four.
- NaiveBayesClassifier.ComputePosteriors: requires exactly four likelihoods, for the same reason as ComputeEvidence.
- NaiveBayesClassifier.FindMostLikely: requires exactly four posteriors. In Python an empty list raises ValueError, a shorter one IndexError, and a longer one whose maximum lies past position 3 raises UnboundLocalError; the classifier always passes four.
