# Pose-judging core of ml-exercise-validator, in Dafny

The system watches a person holding a high plank. A pose detector reports 33
landmarks per video frame, and a family of hand-written classifiers judges the
pose: correct or incorrect, with a message and a colour. This project models
that judging core and proves properties of it:

- the point algebra and the joint-triplet angle (`Point3D`);
- the local coordinate system built from two axes (`CoordinateSystem`);
- the rule-based empirical engine, a chain of five bilateral angle-interval
  checks (`Empirical`);
- k-nearest neighbours: the Minkowski distance, the neighbour selection and the
  weighted vote with its tie rule (`KnnNeighbors`, `KnnVote`, `Knn`);
- the random forest: the tree walk and the vote over trees (`RandomForest`);
- logistic regression: logits, sigmoid and softmax, and the reported
  confidence (`LogisticRegression`);
- the support-vector machine: four kernels and the two-class, one-vs-one and
  one-vs-rest decisions (`Svm`);
- the fully connected networks' feature extraction in a body-centred basis, and
  the reading of their output (`Fcnn`);
- the ensemble majority vote (`Ensemble`) and the hybrid fallback (`Hybrid`);
- the two model factories: the fixed classifier table with its sorted names
  (`ModelRegistry`), and the network table with its instance cache
  (`ModelCache`).

Shared pieces:

- `Types` holds the landmark table and the verdict record.
- `ArgMax` models the `indexOf(Math.max(...))` idiom.
- `Labels` holds the class-name lookup and the "correct"/"incorrect" translator.
- `Records` holds the lookup in an object literal used as a table.
- `MathOps` holds the transcendental functions.
- `Wrappers` holds `Option`, `Result` and `Outcome`.

How JavaScript's values are modelled:

- A computation that yields `NaN` or `undefined` is `None`.
- A thrown error is `Failure(message)`.
- KNN's `Infinity` weight is the extended value `Inf`.
- Objects whose fields the source updates in place are classes:
  - the classifiers that `fit`/`load` fill;
  - the model wrappers with their lazy `load`;
  - the caching factory.
- The ensemble and the random-forest classifier are classes as well.
- Values the source never mutates after construction are datatypes: points,
  frames, trees and descriptors.
- Loops in the source are methods with loop invariants, proved against
  reference functions:
  - the random-forest walk and vote;
  - the KNN vote;
  - the SVM decision sums and the one-vs-one and one-vs-rest loops;
  - the ensemble count.

## Behaviour worth knowing

- `get_angle` applies `acos` to the raw cosine without clamping it to [-1, 1].
- `CoordinateSystem3D` keeps the two given axes as they are and sets
  `zDir = xDir x yDir`. It performs no Gram–Schmidt step and normalises
  nothing. `toLocal` divides each dot product with the normalised axis once more
  by the axis length. Each coordinate is then `(relative . axis) / |axis|^2`,
  and the projection is not an orthonormal change of basis
  (`SkewedAxesProjection`).
- A zero-length axis makes only its own coordinate NaN. Two parallel given axes
  make `zDir` zero, and only the z coordinate is NaN (`ParallelAxesLoseOnlyZ`).
- The hybrid model keeps the primary verdict when the empirical model says
  correct, so an incorrect primary verdict is never turned into a correct one.
  When both say incorrect, it returns the empirical verdict, with its corrective
  message.
- A distance-weighted KNN neighbour at distance 0 gets weight `Infinity`, which
  ends up in the tally.
- Predicting before loading is not an error. It starts a load and returns `null`.

## Model

| member | source | states |
|---|---|---|
| Types.KeyAtIndex | src/types.ts:9-43 | reading back the landmark at a landmark's position gives that landmark |
| Types.IndexOnto | src/types.ts:9-43 | every position 0..32 is the position of some landmark |
| Types.IndexInjective | src/types.ts:9-43 | no two landmarks share a position |
| Types.RightFollowsLeft | src/types.ts:21-42 | from the shoulders down, each right landmark sits at the position just after its left twin |
| Types.SingleExercise | src/types.ts:3-6 | `high_plank` is the only exercise |
| ArgMax.Max | src/classes/models/logistic-regression.ts:30 | `Math.max` of a non-empty list is one of its elements and no element exceeds it |
| ArgMax.IndexOf | src/classes/models/random-forest.class.ts:60 | `indexOf` is -1 exactly when the value is absent; otherwise it is the first position holding it |
| ArgMax.FirstMaxIndex | src/classes/models/random-forest.class.ts:56 | `indexOf(Math.max(...xs))` is -1 on an empty list and otherwise the first position of a maximum |
| ArgMax.FirstMaxUnique | src/classes/models/svm.class.ts:145 | any position that is a first maximum is the arg-max, so the arg-max is fully determined by that property |
| ArgMax.FirstMaxOrderInvariant | src/classes/models/logistic-regression.ts:56 | two lists ordered the same way pairwise have the same arg-max (a strictly increasing map keeps the winner) |
| ArgMax.SumUpdate | src/classes/models/svm.class.ts:134-138 | incrementing one vote raises the total by one |
| Labels.ClassAt | src/classes/models/random-forest.class.ts:61 | `classes[i]` is defined exactly for an index inside the list, and is then that entry |
| Labels.TranslateLabel | src/classes/models/knn.class.ts:94-99 | "incorrect" maps to "Incorreto" and "correct" to "Correto", each in both directions; every other or missing label gives `undefined`, inherited `Object.prototype` names aside (see Left out) |
| Point3D.SubtractProperties | src/classes/point3d.class.ts:23-25 | adding `b` back undoes subtracting `b`, and a point minus itself is the origin |
| Point3D.MidPointProperties | src/classes/point3d.class.ts:27-33 | the midpoint is symmetric, the step from the first end to it equals the step from it to the second end, and it is the point itself for equal ends |
| Point3D.DotProperties | src/classes/point3d.class.ts:44-46 | the dot product is commutative, and a point dotted with itself is its squared norm |
| Point3D.CrossProperties | src/classes/point3d.class.ts:48-54 | the cross product is anti-commutative, orthogonal to both factors, and zero for equal factors |
| Point3D.NormZeroIff | src/classes/point3d.class.ts:35-37 | the norm is zero exactly when the squared norm is; the origin has norm 0 |
| Point3D.NormalizeInverse | src/classes/point3d.class.ts:39-42 | `normalize` is NaN exactly for a zero-length point; otherwise scaling the result by the norm gives the point back |
| Point3D.GetAngle | src/classes/point3d.class.ts:56-66 | defines `get_angle`: `acos` of the dot product over the product of the norms, times `180 / pi` in degrees; NaN for a zero-length vector (its properties are the two lemmas below) |
| Point3D.GetAngleSymmetric | src/classes/point3d.class.ts:56-66 | the angle does not depend on the order of the two vectors |
| Point3D.GetAngleNoneIff | src/classes/point3d.class.ts:56-66 | the angle is NaN exactly when one of the vectors has zero length, in particular for a zero vector |
| Point3D.TripletUsesConsecutiveEdges | src/classes/point3d.class.ts:78-102 | the triplet angle is the angle between the consecutive edges `b - a` and `c - b` |
| Point3D.GetAngleFromPointsTriplet | src/classes/point3d.class.ts:78-102 | defines `getAngleFromPointsTriplet`: the angle of the edges `b - a` and `c - b`, divided by 180 or pi when normalised (its properties are the lemmas around it) |
| Point3D.StraightLimbExample | src/classes/point3d.class.ts:86-92 | three collinear joints give `acos(1)` (angle 0), whereas the angle enclosed at the middle joint would be `acos(-1)` |
| Point3D.NormalizedTripletIsRadiansOverPi | src/classes/point3d.class.ts:83-99 | with normalisation on, the degree result over 180 and the radian result over pi are the same number, the raw angle over pi |
| CoordinateSystem.NewFrame | src/classes/coordinate-system-3d.class.ts:15-20 | defines the constructor: the given origin and axes, and `zDir = xDir x yDir` (its properties are in `NewFrameProperties`) |
| CoordinateSystem.ToLocal | src/classes/coordinate-system-3d.class.ts:22-36 | defines `toLocal`: the relative point dotted with each normalised axis, divided by that axis' norm, one coordinate at a time (its properties are the lemmas below) |
| CoordinateSystem.NewFrameProperties | src/classes/coordinate-system-3d.class.ts:15-20 | the constructor keeps origin and axes as given, and `zDir` is orthogonal to both axes and equals `-(yDir x xDir)` |
| CoordinateSystem.CanonicalIsConstructed | src/classes/coordinate-system-3d.class.ts:9-13 | `canonicalSystem` is the constructor applied to the origin and the x and y unit axes |
| CoordinateSystem.AxisCoordinateFormula | src/classes/coordinate-system-3d.class.ts:27-34 | a local coordinate is defined exactly when its axis has non-zero length, and is then `(relative . axis) / |axis|^2` |
| CoordinateSystem.ToLocalDefinedIff | src/classes/coordinate-system-3d.class.ts:22-36 | each local coordinate is NaN exactly when its own axis has zero length, so `toLocal` gives a finite point exactly when all three axes have non-zero length |
| CoordinateSystem.ToLocalOrigin | src/classes/coordinate-system-3d.class.ts:22-36 | the origin of a non-degenerate system has local coordinates 0 |
| CoordinateSystem.AxisOwnCoordinate | src/classes/coordinate-system-3d.class.ts:27-34 | an axis of non-zero length has coordinate 1 along itself |
| CoordinateSystem.OrthogonalCoordinate | src/classes/coordinate-system-3d.class.ts:27-34 | a vector orthogonal to an axis of non-zero length has coordinate 0 along it |
| CoordinateSystem.XAxisMapsToUnit | src/classes/coordinate-system-3d.class.ts:15-36 | in a constructed non-degenerate system, the end of `xDir` has x-coordinate 1, z-coordinate 0, and y-coordinate `(xDir . yDir) / |yDir|^2` |
| CoordinateSystem.ParallelAxesLoseOnlyZ | src/classes/coordinate-system-3d.class.ts:19-35 | with two non-zero parallel given axes, `zDir` is zero: only the z coordinate is NaN, and x and y stay numbers |
| CoordinateSystem.ToLocalTranslationInvariant | src/classes/coordinate-system-3d.class.ts:22-24 | moving the origin and the point by the same offset leaves the local coordinates unchanged |
| CoordinateSystem.UnitAxisCoordinate | src/classes/coordinate-system-3d.class.ts:27-34 | along a unit-length axis the local coordinate is the plain dot product |
| CoordinateSystem.UnitFrameCoordinates | src/classes/coordinate-system-3d.class.ts:22-36 | with unit-length axes the local point is the three dot products of the relative point with the axes |
| CoordinateSystem.CanonicalAxes | src/classes/coordinate-system-3d.class.ts:9-13 | the three canonical axes have length one, and dotting a point with them gives back its coordinates |
| CoordinateSystem.CanonicalIsIdentity | src/classes/coordinate-system-3d.class.ts:9-36 | in the canonical system every point keeps its coordinates |
| CoordinateSystem.SkewedAxesProjection | src/classes/coordinate-system-3d.class.ts:15-36 | with non-orthogonal unit axes, the point one `yDir` from the origin gets x-coordinate `yDir . xDir`, so `toLocal` is not a change of basis |
| Empirical.IntervalTable | src/classes/models/empirical-model.class.ts:7-13 | the five intervals, in visiting order, are [0,45], [75,100], [80,130], [0,25] and [0,25], each with min <= max |
| Empirical.Predict | src/classes/models/empirical-model.class.ts:17-136 | defines `predict`: the chain of the five bilateral checks (its properties are in `PredictSpec` and `PredictIsTableWalk`) |
| Empirical.Evaluate | src/classes/models/empirical-model.class.ts:17-136 | defines the walk over a list of checks that returns the first failing check's rejection (its properties are in `EvaluateFirstFailure`, `EvaluateAllPass`, `EvaluateStopsAt`) |
| Empirical.ChecksAreBilateral | src/classes/models/empirical-model.class.ts:20-128 | the right-side triplet of every check is the left-side triplet with left and right swapped, and back |
| Empirical.MessagesIdentifyCheck | src/classes/models/empirical-model.class.ts:35-131 | the five rejection messages are pairwise distinct and none is the success text, so a verdict names the check that failed |
| Empirical.FailsIffOneSideOutside | src/classes/models/empirical-model.class.ts:31-34 | a check fails exactly when the left or the right angle is NaN or lies outside the interval |
| Empirical.PredictIsTableWalk | src/classes/models/empirical-model.class.ts:17-136 | the if/return chain equals walking the table of five checks in order |
| Empirical.EvaluateFirstFailure | src/classes/models/empirical-model.class.ts:17-136 | a walk of any check chain succeeds, green, exactly when every check passes; otherwise it is the red rejection of the first failing check |
| Empirical.EvaluateAllPass | src/classes/models/empirical-model.class.ts:130-135 | the walk is correct, with the success verdict, exactly when all checks pass, and red otherwise |
| Empirical.EvaluateStopsAt | src/classes/models/empirical-model.class.ts:31-40 | the walk stops at the first failing check with that check's message |
| Empirical.LaterChecksIgnored | src/classes/models/empirical-model.class.ts:17-128 | checks after the first failing one do not affect the verdict |
| Empirical.PredictSpec | src/classes/models/empirical-model.class.ts:17-136 | `predict` is correct, green, "Correto! Continue assim!" exactly when all ten angles lie in their intervals; otherwise it is red, incorrect, with the first failing check's message |
| Empirical.AngleIsUnnormalisedDegrees | src/classes/models/empirical-model.class.ts:20-24 | the checks measure the raw consecutive-edge angle in degrees, not normalised |
| Ensemble.EnsembleModel.constructor | src/classes/models/ensemble-model.class.ts:8-10 | the ensemble keeps its members in the given order |
| Ensemble.EnsembleModel.Predict | src/classes/models/ensemble-model.class.ts:17-42 | the loops collect each member's verdict in order and count them; the result is the translation of the majority key of those verdicts |
| Ensemble.Collect | src/classes/models/ensemble-model.class.ts:24-28 | the collected verdicts are the members' verdicts, one per member, in member order |
| Ensemble.CountsPartition | src/classes/models/ensemble-model.class.ts:29-39 | every verdict is counted exactly once, as correct or as incorrect, and the correct count is the number of members saying correct |
| Ensemble.Verdict | src/classes/models/ensemble-model.class.ts:29-41 | defines the majority key from the members' verdicts (its properties are in `VerdictIsStrictMajority`, `VerdictOrderIndependent`, `UnanimousVerdict`) |
| Ensemble.VerdictIsStrictMajority | src/classes/models/ensemble-model.class.ts:40-41 | the key is "correct" exactly when more than half the members say correct; a tie and an empty ensemble give "incorrect" |
| Ensemble.VerdictOrderIndependent | src/classes/models/ensemble-model.class.ts:24-41 | reordering the members' verdicts does not change the outcome |
| Ensemble.UnanimousVerdict | src/classes/models/ensemble-model.class.ts:29-41 | a unanimous non-empty ensemble follows its members |
| Hybrid.Select | src/classes/models/hybrid-model.class.ts:25-30 | defines the choice between the primary and the empirical verdict (its properties are in `SelectKeepsPrimaryVerdict` and `SelectCases`) |
| Hybrid.Predict | src/classes/models/hybrid-model.class.ts:23-31 | defines `predict`: runs both models and selects (its property is in `HybridWithEmpiricalFallback`) |
| Hybrid.SelectKeepsPrimaryVerdict | src/classes/models/hybrid-model.class.ts:23-31 | the hybrid verdict is one of the two verdicts and is correct exactly when the primary is; the empirical one shows only when both are incorrect |
| Hybrid.CorrectPrimaryIgnoresFallback | src/classes/models/hybrid-model.class.ts:25-27 | with a correct primary verdict the empirical verdict plays no part |
| Hybrid.SelectCases | src/classes/models/hybrid-model.class.ts:29-30 | the message is the empirical one exactly when both verdicts are incorrect, and the primary one otherwise |
| Hybrid.HybridWithEmpiricalFallback | src/classes/models/hybrid-model.class.ts:23-31 | with the empirical engine as fallback, an incorrect primary verdict stays when all checks pass, and becomes the first failing check's rejection otherwise |
| Hybrid.LoadSkipsFallback | src/classes/models/hybrid-model.class.ts:18-21 | `load` loads the primary model and never the fallback, unless they are the same model |
| Knn.KNNClassifier.constructor | src/classes/models/knn.class.ts:26-36 | the parameters are stored and the training set starts empty |
| Knn.KNNClassifier.Fit | src/classes/models/knn.class.ts:38-45 | equal lengths store the training set; different lengths throw "X and y must have the same length" and keep the old set |
| Knn.KNNClassifier.Vote | src/classes/models/knn.class.ts:68-89 | the loop returns the winner of the reference tally over the neighbours |
| Knn.KNNClassifier.VoteStep | src/classes/models/knn.class.ts:72-86 | one iteration adds the neighbour's weight to its label and takes the lead on a strictly larger tally, as the reference step does |
| Knn.KNNClassifier.Predict | src/classes/models/knn.class.ts:91-100 | throws exactly when some training vector's length differs from the input's; otherwise the translated name of the vote winner among the `k` nearest |
| Knn.KnnModel.constructor | src/classes/models/knn.class.ts:105 | a new model has no classifier |
| Knn.KnnModel.Load | src/classes/models/knn.class.ts:107-119 | only the first load builds a classifier from the descriptor; it is stored before `fit`, so a failed fit leaves an empty classifier that later loads keep |
| Knn.ExactMatchDecides | src/classes/models/knn.class.ts:59-89 | with distance weights and `k >= 1`, an exact match in the training set decides the vote: the winner is the label of a training vector at distance 0 from the input |
| KnnNeighbors.MinkowskiDistance | src/classes/models/knn.class.ts:47-57 | the distance throws "Vectors must be of same length" exactly when the lengths differ |
| KnnNeighbors.PowerSumProperties | src/classes/models/knn.class.ts:52-55 | the sum of powered differences is non-negative, symmetric, and 0 from a vector to itself for `p > 0` |
| KnnNeighbors.DistanceProperties | src/classes/models/knn.class.ts:47-57 | the distance is non-negative and symmetric, and is 0 from a vector to itself for `p > 0` |
| KnnNeighbors.Insert | src/classes/models/knn.class.ts:64 | insertion adds exactly the new neighbour to the list's contents |
| KnnNeighbors.InsertSorted | src/classes/models/knn.class.ts:64 | inserting into a list sorted by distance keeps it sorted |
| KnnNeighbors.Sort | src/classes/models/knn.class.ts:64 | the sort is a permutation of its input, in ascending distance |
| KnnNeighbors.Take | src/classes/models/knn.class.ts:65 | `slice(0, k)` is a prefix of length `min(k, n)` for `k >= 0` |
| KnnNeighbors.PrefixOfSorted | src/classes/models/knn.class.ts:64-65 | a prefix of a sorted list is sorted, and no kept entry is farther than a dropped one |
| KnnNeighbors.CandidatesSpec | src/classes/models/knn.class.ts:59-63 | the candidate map throws exactly when some training vector has the wrong length; otherwise it pairs every label with its distance, in order |
| KnnNeighbors.Neighbors | src/classes/models/knn.class.ts:59-66 | defines `getNeighbors`: the candidates, sorted and cut to `k` (its properties are in `NeighborsSpec`) |
| KnnNeighbors.NeighborsSpec | src/classes/models/knn.class.ts:59-66 | `getNeighbors` throws exactly on a length mismatch; otherwise it returns `min(k, n)` candidates in ascending distance, none farther than any candidate left out |
| KnnNeighbors.NearestOf | src/classes/models/knn.class.ts:64-65 | the first `k` of the sorted candidates are sorted, have the stated length, and split the candidates into a near and a far part |
| KnnNeighbors.ExactMatchComesFirst | src/classes/models/knn.class.ts:59-66 | a training vector at distance 0 puts a zero-distance neighbour first |
| KnnVote.Tallies | src/classes/models/knn.class.ts:69-81 | defines the tally computed by the vote loop (its properties are in `TalliesAreSums` and `TalliedLabels`) |
| KnnVote.TalliesAreSums | src/classes/models/knn.class.ts:69-81 | each label's tally after the loop is the sum of the weights of the neighbours carrying that label |
| KnnVote.TalliedLabels | src/classes/models/knn.class.ts:78-81 | a label receives a tally exactly when some neighbour carries it |
| KnnVote.WinnerBounds | src/classes/models/knn.class.ts:82-85 | the winner's votes are never negative, and no tally reached during the loop exceeds them |
| KnnVote.WinnerIsFirstToReachMax | src/classes/models/knn.class.ts:71-88 | with no positive tally the winner is label 0; otherwise it is the label whose tally first reached the highest value, and the winner's votes are that value |
| KnnVote.FirstToReachMaxUnique | src/classes/models/knn.class.ts:82-85 | at most one step first reaches the highest tally, so the tie rule names a single winner |
| KnnVote.ExactMatchWins | src/classes/models/knn.class.ts:73-85 | with distance weights, a first neighbour at distance 0 wins with `Infinity` votes |
| KnnVote.EmptyVote | src/classes/models/knn.class.ts:69-71 | without neighbours the vote returns label 0 with 0 votes |
| RandomForest.LeafFrom | src/classes/models/random-forest.class.ts:39-47 | the walk from a node ends at a leaf at or after that node |
| RandomForest.Leaf | src/classes/models/random-forest.class.ts:38-47 | the walk from the root ends at a leaf of the tree |
| RandomForest.WalkStep | src/classes/models/random-forest.class.ts:40-46 | the walk stops at a leaf, goes left exactly when the node's feature is at most the threshold, and goes right otherwise, including when the feature is missing |
| RandomForest.RandomForestClassifier.constructor | src/classes/models/random-forest.class.ts:33-36 | stores the forest and the classes |
| RandomForest.RandomForestClassifier.PredictTree | src/classes/models/random-forest.class.ts:38-48 | the `while` loop returns the distribution stored at the leaf the walk reaches |
| RandomForest.CastVote | src/classes/models/random-forest.class.ts:57 | `votes[predicted]++` on the array adds the vote to the ballot (an index past the end makes it overflow) |
| RandomForest.RandomForestClassifier.Predict | src/classes/models/random-forest.class.ts:50-67 | the loop over the trees fills the vote array, and the result is the forest's reference prediction |
| RandomForest.Votes | src/classes/models/random-forest.class.ts:52-58 | the ballot has one entry per class |
| RandomForest.VotesCount | src/classes/models/random-forest.class.ts:54-58 | each class's vote count is the number of trees whose leaf favours that class |
| RandomForest.CastOverflow | src/classes/models/random-forest.class.ts:57 | a vote past the last class overflows the array; any other vote leaves the overflow state as it was |
| RandomForest.OverflowIff | src/classes/models/random-forest.class.ts:54-60 | the vote array breaks (NaN maximum) exactly when some tree chooses a class index past the last class |
| RandomForest.TreeClassInRange | src/classes/models/random-forest.class.ts:55-56 | a tree whose leaf distribution is non-empty and no longer than the class list votes for a listed class |
| RandomForest.CastCounts | src/classes/models/random-forest.class.ts:57 | a vote for a listed class adds one to the total without overflow |
| RandomForest.VotesSumToTrees | src/classes/models/random-forest.class.ts:52-58 | when every leaf fits the class list, there is no overflow and the votes add up to the number of trees |
| RandomForest.ForestPrediction | src/classes/models/random-forest.class.ts:50-67 | defines the forest's reference prediction (its properties are in `PredictionIsMostVotedClass` and `OverflowIff`) |
| RandomForest.PredictionIsMostVotedClass | src/classes/models/random-forest.class.ts:60-66 | the prediction is the translated name of the first class with the most votes |
| RandomForest.RandomForestModel.constructor | src/classes/models/random-forest.class.ts:72-73 | a new model has no classifier and no points |
| RandomForest.RandomForestModel.Load | src/classes/models/random-forest.class.ts:75-83 | only the first load builds the classifier and records the feature points; later loads change nothing |
| LogisticRegression.Sigmoid | src/classes/models/logistic-regression.ts:25-27 | defines `sigmoid` as `1 / (1 + exp(-z))` (its properties are in `BinaryProbabilitiesSumToOne` and `BinaryWinner`) |
| LogisticRegression.ExpSumPositive | src/classes/models/logistic-regression.ts:31-32 | the sum of the shifted exponentials is positive, so the softmax division is defined |
| LogisticRegression.Softmax | src/classes/models/logistic-regression.ts:29-34 | one probability per logit |
| LogisticRegression.Logits | src/classes/models/logistic-regression.ts:48-50 | one logit per coefficient row |
| LogisticRegression.LogitIsAffine | src/classes/models/logistic-regression.ts:49 | the left fold starting at the intercept is the intercept plus the dot product of the row with the input |
| LogisticRegression.LogitsFormula | src/classes/models/logistic-regression.ts:48-50 | `logits[i] = intercept[i] + sum_j coef[i][j] * x[j]` |
| LogisticRegression.SoftmaxSumsToOne | src/classes/models/logistic-regression.ts:29-34 | the softmax of a non-empty list of logits sums to 1 |
| LogisticRegression.SoftmaxKeepsOrder | src/classes/models/logistic-regression.ts:29-34 | the softmax orders probabilities exactly as their logits |
| LogisticRegression.BinaryProbabilitiesSumToOne | src/classes/models/logistic-regression.ts:51-53 | the one-row case yields two probabilities summing to 1 |
| LogisticRegression.LogisticPredict | src/classes/models/logistic-regression.ts:47-58 | defines `logisticPredict`: the first most probable class and its probability (its properties are in the lemmas below) |
| LogisticRegression.MulticlassWinnerIsLogitArgMax | src/classes/models/logistic-regression.ts:51-56 | with several rows the predicted class is the first largest logit |
| LogisticRegression.BinaryWinner | src/classes/models/logistic-regression.ts:51-56 | with one row the second class wins exactly when the logit is positive; a zero logit gives the first class |
| LogisticRegression.ConfidenceIsMaximal | src/classes/models/logistic-regression.ts:56-57 | the reported probability exists exactly when there are probabilities; it is the winner's and none exceeds it |
| LogisticRegression.Predict | src/classes/models/logistic-regression.ts:60-68 | defines `predict`: the translated label and the probability to format, or the throw of `toFixed` on `undefined` |
| LogisticRegression.PredictFailsIffNoRows | src/classes/models/logistic-regression.ts:60-68 | formatting the confidence throws exactly when the classifier has no coefficient rows |
| LogisticRegression.LogisticRegressionModel.constructor | src/classes/models/logistic-regression.ts:72-73 | a new model has no classifier and no points |
| LogisticRegression.LogisticRegressionModel.Load | src/classes/models/logistic-regression.ts:75-87 | only the first load builds the classifier from the descriptor and records the points |
| Svm.LinearKernel | src/classes/models/svm.class.ts:28-30 | defines the linear kernel, a left fold of products (its properties are in `LinearKernelSymmetric` and `KernelsReadPrefix`) |
| Svm.PolyKernel | src/classes/models/svm.class.ts:32-40 | defines the polynomial kernel `pow(gamma * linear + coef0, degree)` |
| Svm.RbfKernel | src/classes/models/svm.class.ts:42-48 | defines the RBF kernel `exp(-gamma * squared distance)` (its properties are in `RbfKernelBounds`) |
| Svm.SigmoidKernel | src/classes/models/svm.class.ts:50-57 | defines the sigmoid kernel `tanh(gamma * linear + coef0)` |
| Svm.ComputeKernel | src/classes/models/svm.class.ts:59-78 | the kernel throws exactly for an unknown kernel type, or for a missing support vector with a non-empty input |
| Svm.KernelsReadPrefix | src/classes/models/svm.class.ts:28-48 | the kernels read only as many entries of the support vector as the input has |
| Svm.LinearKernelSymmetric | src/classes/models/svm.class.ts:28-30 | the linear kernel is symmetric on equal-length vectors |
| Svm.SquaredDistanceProperties | src/classes/models/svm.class.ts:43-46 | the squared distance is non-negative and is 0 to a vector with the same leading entries |
| Svm.RbfKernelBounds | src/classes/models/svm.class.ts:42-48 | for `gamma >= 0` the RBF kernel lies in (0, 1], and is 1 from a vector to itself |
| Svm.UnknownKernelFails | src/classes/models/svm.class.ts:75-77 | with an unknown kernel every non-empty decision sum throws "Unsupported kernel type"; an empty one is 0 |
| Svm.Slice | src/classes/models/svm.class.ts:120 | `slice(a, b)` holds the entries from `a` on, exactly `min(b, n) - min(a, n)` of them |
| Svm.BlockSumFailureSticks | src/classes/models/svm.class.ts:122-131 | once a kernel has thrown, the decision sum keeps that error |
| Svm.BlockSumNegated | src/classes/models/svm.class.ts:94-103 | negating the coefficient row negates the decision sum and fails in the same cases |
| Svm.BlockSumKernelOnly | src/classes/models/svm.class.ts:64 | the decision sum reads the descriptor only through the kernel and its parameters |
| Svm.Decide | src/classes/models/svm.class.ts:122-131 | the decision loop computes the reference running total `sum coef[k] * K(input, svs[k])` |
| Svm.PredictBinary | src/classes/models/svm.class.ts:93-105 | the two-class loop computes the reference two-class decision |
| Svm.BinarySymmetry | src/classes/models/svm.class.ts:93-106 | the second class is chosen exactly when the decision is positive; negating the row and intercept negates the decision, swapping the class when non-zero and keeping the first class when zero |
| Svm.TwoClassesIgnoreShape | src/classes/models/svm.class.ts:92-106 | with two classes `decision_function_shape` plays no part |
| Svm.UnsupportedShapeFails | src/classes/models/svm.class.ts:173-177 | with more than two classes, any other shape throws "Unsupported decision_function_shape: " followed by the shape |
| Svm.OvoStart | src/classes/models/svm.class.ts:109-111 | one-vs-one starts from zero votes for every class, at support vector 0 and coefficient row 0 |
| Svm.PairStep | src/classes/models/svm.class.ts:115-141 | a pair contest casts exactly one vote, reads the next coefficient row, and keeps one vote counter per class |
| Svm.OvoInner | src/classes/models/svm.class.ts:114-142 | the inner loop keeps one vote counter per class |
| Svm.OvoOuter | src/classes/models/svm.class.ts:113-143 | the outer loop keeps one vote counter per class |
| Svm.PairStepWith | src/classes/models/svm.class.ts:115-141 | a pair's step either throws the decision sum's error, or votes for `j` on a positive decision and for `i` otherwise (a missing intercept votes `i`), advancing past `n_i + n_j` support vectors |
| Svm.DecidePair | src/classes/models/svm.class.ts:118-131 | the pair's decision loop computes the reference sum over its slice of support vectors |
| Svm.VotePair | src/classes/models/svm.class.ts:115-141 | one iteration of the inner loop performs exactly the reference pair step, or throws its error |
| Svm.PredictOvo | src/classes/models/svm.class.ts:108-147 | the nested loops yield the reference one-vs-one votes, or the first error thrown |
| Svm.OvoInnerCounts | src/classes/models/svm.class.ts:114-142 | the inner loop from `j` casts `n - j` votes and reads `n - j` coefficient rows |
| Svm.OvoOuterCounts | src/classes/models/svm.class.ts:113-143 | the outer loop from `i` casts one vote per remaining pair and reads one row per pair |
| Svm.PairsFromClosed | src/classes/models/svm.class.ts:113-114 | the number of pairs from row `i` on is `(n - i)(n - i - 1) / 2` |
| Svm.OvoVotesCountPairs | src/classes/models/svm.class.ts:108-147 | with `n` classes, one-vs-one casts `n (n - 1) / 2` votes and reads that many coefficient rows |
| Svm.RestStep | src/classes/models/svm.class.ts:154-168 | one class against the rest appends exactly one decision |
| Svm.OvrPrefix | src/classes/models/svm.class.ts:150-169 | after `n` classes there are `n` decisions |
| Svm.RestStepExtends | src/classes/models/svm.class.ts:154-168 | a one-vs-rest step keeps the earlier decisions and appends one that is NaN exactly when the class's intercept is missing |
| Svm.DecideRest | src/classes/models/svm.class.ts:154-168 | one iteration of the one-vs-rest loop performs the reference step |
| Svm.PredictOvr | src/classes/models/svm.class.ts:149-172 | the loop yields the reference one-vs-rest decisions, or the first error thrown |
| Svm.OvrDecisionAt | src/classes/models/svm.class.ts:153-169 | decision `i` is NaN exactly when intercept `i` is missing |
| Svm.DecisionArgMaxSpec | src/classes/models/svm.class.ts:171 | the one-vs-rest arg-max is -1 when a decision is NaN or there are none; otherwise it is the first position of the largest decision |
| Svm.OvrMissingIntercept | src/classes/models/svm.class.ts:155-172 | with an intercept missing, one-vs-rest returns `undefined` |
| Svm.Classify | src/classes/models/svm.class.ts:80-179 | defines the branch-by-branch reference for `predict` (its properties are in `BinarySymmetry`, `TwoClassesIgnoreShape`, `UnsupportedShapeFails`, `OvrMissingIntercept`) |
| Svm.Predict | src/classes/models/svm.class.ts:80-179 | `predict` follows the two-class, one-vs-one and one-vs-rest branches, or throws for an unknown shape, as the branch-by-branch reference does |
| Svm.PoseInput | src/classes/models/svm.class.ts:81-83 | one input entry per triplet of the descriptor |
| Svm.Values | src/classes/models/svm.class.ts:81-83 | the numbers of an input with no NaN entry, in order |
| Svm.PoseInputEntry | src/classes/models/svm.class.ts:81-83 | input entry `i` is the raw consecutive-edge angle of triplet `i` divided by pi, and is NaN exactly when one of its two edges has zero length |
| Svm.PredictPose | src/classes/models/svm.class.ts:80-179 | `predict` on a pose classifies the angles of the descriptor's triplets, radians normalised by pi, as the branch-by-branch reference does |
| Fcnn.CustomBasis | src/classes/models/fcnn.class.ts:41-72 | defines `getCustomBasis`: origin at the foot midpoint, x axis to the wrist midpoint, y axis on to the shoulder midpoint (its properties are in `BasisProperties`) |
| Fcnn.Features | src/classes/models/fcnn.class.ts:80-114 | one network input point per feature landmark |
| Fcnn.BasisProperties | src/classes/models/fcnn.class.ts:41-72 | the basis origin is the foot midpoint and the x axis points from it to the wrist midpoint, the y axis then to the shoulder midpoint, and `zDir` is orthogonal to both; a non-degenerate basis maps the foot midpoint to 0 |
| Fcnn.FeatureLayout | src/classes/models/fcnn.class.ts:81-94 | the twelve feature landmarks are distinct left/right pairs of arm and leg joints, between the shoulders and the ankles |
| Fcnn.FeaturesAreScaledLocalPoints | src/classes/models/fcnn.class.ts:95-114 | coordinate by coordinate, an input coordinate is a number exactly when the local coordinate is one and the body height is non-zero, and multiplying it by the height gives the local coordinate back; a zero height leaves no finite coordinate |
| Fcnn.DivideByInverse | src/classes/models/fcnn.class.ts:110-114 | dividing a local point by a non-zero height is undone coordinate by coordinate by multiplying by it, and NaN coordinates stay NaN |
| Fcnn.FeaturesTranslationInvariant | src/classes/models/fcnn.class.ts:80-114 | moving the whole body by an offset does not change the network input |
| Fcnn.BasisTranslated | src/classes/models/fcnn.class.ts:41-72 | the basis of a moved body is the basis moved, and the body height is unchanged |
| Fcnn.ReadOutput | src/classes/models/fcnn.class.ts:119-123 | defines the read-out: the label at the first maximum and the maximum (its properties are in `ReadOutputSpec`) |
| Fcnn.ReadOutputSpec | src/classes/models/fcnn.class.ts:119-123 | of two outputs, "Correto" is chosen exactly when the second is strictly larger, with that output as the confidence; an empty output has no class and no maximum; a class name exists exactly when the arg-max is 0 or 1 |
| Fcnn.FcnnModel.constructor | src/classes/models/fcnn.class.ts:25-27 | a new network model has no network |
| Fcnn.FcnnModel.Load | src/classes/models/fcnn.class.ts:29-33 | only the first load stores the network |
| Fcnn.FcnnModel.Predict | src/classes/models/fcnn.class.ts:74-178 | without a network it starts a load and returns `null`; the points models return the read-out of the network on the features; the angles model throws |
| ModelRegistry.InsertName | src/classes/models/model-factory.class.ts:42 | insertion adds exactly the new name to the list's contents |
| ModelRegistry.SortNames | src/classes/models/model-factory.class.ts:42 | the sort is a permutation of its input |
| ModelRegistry.InsertNameSorted | src/classes/models/model-factory.class.ts:42 | inserting into a sorted list keeps it sorted |
| ModelRegistry.SortNamesSpec | src/classes/models/model-factory.class.ts:42 | `sort()` returns the same names in code-unit order |
| ModelRegistry.SortSortedNames | src/classes/models/model-factory.class.ts:42 | sorting an ordered list leaves it unchanged |
| ModelRegistry.HighPlankKeys | src/classes/models/model-factory.class.ts:22-39 | the table's keys in declaration order |
| ModelRegistry.GetExerciseModelNames | src/classes/models/model-factory.class.ts:41-43 | defines `getExerciseModelNames`: the table's keys, sorted (its properties are in `HighPlankNames`) |
| ModelRegistry.HighPlankNames | src/classes/models/model-factory.class.ts:41-43 | `getExerciseModelNames` lists the eight names sorted, which is their declaration order |
| ModelRegistry.HighPlankKeysDistinct | src/classes/models/model-factory.class.ts:22-39 | no two entries of the table share a name |
| Records.Keys | src/classes/models/model.class.ts:28-30 | `Object.keys` of a table lists its own keys in declaration order, one per entry |
| Records.Lookup | src/classes/models/model-factory.class.ts:46 | looking up a name in a table (the classifier table here, and the network table at model.class.ts:37-39) is `undefined` exactly when it is not one of the table's own keys, and otherwise returns an entry with that name; inherited `Object.prototype` names are not modelled (see Left out) |
| Records.LookupFirst | src/classes/models/model-factory.class.ts:46 | a name that no earlier entry carries finds its own entry |
| ModelRegistry.GetModel | src/classes/models/model-factory.class.ts:45-47 | defines `getModel` as the lookup in the exercise's table (its properties are in `GetModelFindsEntry` and `GetModelSpec`) |
| ModelRegistry.GetModelFindsEntry | src/classes/models/model-factory.class.ts:45-47 | every name in the table finds its own entry |
| ModelRegistry.RegisteredEntries | src/classes/models/model-factory.class.ts:22-39 | each of the eight names yields its classifier: the ensemble of the five engines, and the hybrid of the random forest with the empirical engine |
| ModelRegistry.CompositesShareInstances | src/classes/models/model-factory.class.ts:7-39 | the ensemble and the hybrid hold the same instances that are listed on their own |
| ModelRegistry.GetModelSpec | src/classes/models/model-factory.class.ts:41-47 | `getModel` gives an instance exactly for a name that `getExerciseModelNames` lists, inherited `Object.prototype` names aside (see Left out) |
| ModelRegistry.HybridEntryFollowsRandomForest | src/classes/models/model-factory.class.ts:33 | the hybrid entry's verdict is correct exactly when the random forest's is |
| ModelCache.ExerciseModelNames | src/classes/models/model.class.ts:28-30 | defines `getExerciseModelNames` as the network table's keys in declaration order (its properties are in `RegisteredNames`) |
| ModelCache.RegisteredNames | src/classes/models/model.class.ts:16-30 | the network table's names are the two listed, and only they can be built |
| ModelCache.RegisteredKinds | src/classes/models/model.class.ts:20-23 | the angles name builds the angles network and the points name the points network |
| ModelCache.ModelFactory.constructor | src/classes/models/model.class.ts:26 | the cache starts empty |
| ModelCache.ModelFactory.GetModel | src/classes/models/model.class.ts:32-43 | a cached instance is returned unchanged; otherwise a new instance of the registered class is cached and returned; a name that is not an own key of the table throws after creating the exercise's empty cache (inherited `Object.prototype` names aside, see Left out); no other entry changes, and cached instances stay of their registered class |

## Left out

- JavaScript numbers are modelled as mathematical reals.
  - Rounding, overflow and `toFixed` formatting are not modelled.
  - A `NaN` that arises from an out-of-domain `acos`, `Math.sqrt` or `Math.pow` argument is not modelled.
  - `NaN` and `undefined` are modelled only where the code reaches them by a division by zero, a missing array entry or a missing intercept, and they are lumped together as `None`.
- `Math.sqrt`, `Math.acos`, `Math.exp`, `Math.tanh` and `Math.pow` are uninterpreted functions passed as a parameter. The lemmas that need facts about them require the laws stated in `MathOps`: `SqrtLaws`, `ExpLaws` and `PowLaws`. The cosine is not proved to lie in [-1, 1], which would need the Cauchy–Schwarz inequality.
- I/O and asynchrony are parameters:
  - `fetch` and reading the descriptor files;
  - `loadLayersModel`;
  - awaiting promises;
  - `Promise.all` in `EnsembleModel.load`.
  - A descriptor is given as a value. A network is given as its forward pass. The order of asynchronous completions is not modelled.
- Tensors and the network's internals are not modelled. The network is its forward-pass function from features to outputs.
- `Utils.translate` and `Utils.isBetween` are not part of this model:
  - The ensemble gets `translate` as a function parameter.
  - The SVM result records whether its label went through `translate`.
  - `isBetween` is taken to mean membership in the closed interval, with `NaN` never inside.
- `sklearn-model.class.ts` (the ONNX models `SklearnModel` and `KerasModel`) is not part of this model. The registry identifies those instances by their model path.
- The per-exercise wrappers that turn a pose into a feature vector and call `predict` are not modelled (`high_plank/*`, the drafters, the validators and the UI). The classifiers take that vector as input.
- `LogisticRegression`: the record form of the classifier requires `Shaped`: an intercept per row, and rows no longer than the input. Without it the code reads `undefined` entries and computes `NaN`. The wrong-length cases are not modelled.
- `Svm.Predict`: requires `Shaped`:
  - a support-vector count per class, none negative;
  - support vectors at least as long as the input.
  - Reading past the end of a short support vector yields `NaN` in the source, which is not modelled. Missing coefficient rows, missing intercepts and missing support vectors are modelled.
- `Svm.PredictPose`: requires every angle of the input to be a number. An edge of zero length makes an angle NaN, which then runs through the kernels and the comparisons in the source; that path is not modelled.
- `Labels.TranslateLabel`: the translator record is looked up by its own keys only. In the source a label naming an inherited `Object.prototype` property, such as "constructor" or "toString", finds that property, so the KNN, random-forest and logistic-regression translators return it instead of `undefined`.
- `Records.Lookup`: a table is looked up by its own keys only, both the classifier table and the network table. A name such as "constructor" or "toString" finds the inherited `Object.prototype` property in the source.
- `ModelRegistry.GetModel`: as for `Records.Lookup`, `getModel` on an inherited `Object.prototype` name returns that property in the source, not `undefined`.
- `ModelRegistry.GetModelSpec`: holds for own keys; an inherited `Object.prototype` name is not listed by `getExerciseModelNames` yet gives a non-`undefined` value in the source.
- `ModelCache.ModelFactory.GetModel`: for an inherited `Object.prototype` name such as "constructor" or "toString", the cache lookup in the source already finds the inherited property (for "constructor", the `Object` function), which is returned without constructing or throwing; the model throws for every name that is not an own key.
- `Svm.PredictOvo`: the vote array is a sequence value that the loop reassigns, not an array updated in place. In the source it is a local array with no aliasing.
- `RandomForest.RandomForestClassifier.PredictTree`: requires a well-formed tree: arrays of one length, and children numbered after their parent (as a fitted tree stores them). A malformed tree can loop forever or read `undefined` in the source.
- `KnnNeighbors.MinkowskiDistance`: requires `p != 0`. With `p = 0` the source raises to the power `Infinity`, which reals cannot express.
- `KnnNeighbors.Sort`: `Array.prototype.sort` is modelled by a stable insertion sort. Stability is built into the definition but not stated as a lemma.
- `KnnVote`: the vote keys are label numbers. The JavaScript record's string keys are not modelled.
- `LogisticRegression.LogisticRegressionModel.Load`: the source names its classifier class `RandomForestClassifier`. The model calls it `LogisticClassifier`.
- `ModelCache.ModelFactory.GetModel`: the factory's static fields are the fields of one object, and class identity is modelled by the `FcnnKind` tag.
  - `model.class.ts` imports `FCNNHighPlank...` names, while `fcnn.class.ts` exports `FcnnHighPlank...`. The two are taken to be the same classes.
  - The first key is the mis-encoded `"FCNN - Ã‚ngulos"`, kept as written.
- `Fcnn.FcnnModel.Predict`: the angles network calls `Point3d.get_angle_from_joints_triplet`, which `Point3d` does not define, so its prediction is modelled as the resulting throw. The network's own angle features are therefore not modelled.
- `Fcnn.FcnnModel.Load`: the load started by `predict` is not awaited. The model records that a load was started and does not store a network.
- The empirical `load` and the ensemble's `load` do nothing observable. They are not modelled.
- `ModelRegistry.SortNames`: JavaScript's default `sort()` compares UTF-16 code units, while the model compares Unicode characters. The two orders agree on names without characters beyond U+FFFF, which covers every name in the table.
