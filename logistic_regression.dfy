/** Logistic regression: one linear logit per coefficient row, turned into class
    probabilities by the sigmoid (one row) or by a max-shifted softmax (several
    rows); the first most probable class wins and its probability is reported. */
module LogisticRegression {
  import opened Wrappers
  import opened MathOps
  import opened ArgMax
  import opened Labels
  import opened Types

  /** `1 / (1 + exp(-z))`. */
  function Sigmoid(m: Ops, z: real): real
    requires ExpLaws(m)
  {
    assert m.exp(-z) > 0.0;
    1.0 / (1.0 + m.exp(-z))
  }

  function RealSum(v: seq<real>): real
    decreases |v|
  {
    if v == [] then 0.0 else RealSum(v[..|v| - 1]) + v[|v| - 1]
  }

  /** `logits.map(z => exp(z - max))`. */
  function ShiftedExps(m: Ops, logits: seq<real>, mx: real): (e: seq<real>)
    ensures |e| == |logits|
    ensures forall i :: 0 <= i < |logits| ==> e[i] == m.exp(logits[i] - mx)
  {
    seq(|logits|, i requires 0 <= i < |logits| => m.exp(logits[i] - mx))
  }

  function Divide(v: seq<real>, d: real): (r: seq<real>)
    requires d != 0.0
    ensures |r| == |v|
    ensures forall i :: 0 <= i < |v| ==> r[i] == v[i] / d
  {
    seq(|v|, i requires 0 <= i < |v| => v[i] / d)
  }

  lemma ExpSumPositive(m: Ops, logits: seq<real>, mx: real)
    requires ExpLaws(m) && logits != []
    ensures RealSum(ShiftedExps(m, logits, mx)) > 0.0
  {
    var e := ShiftedExps(m, logits, mx);
    forall i | 0 <= i < |e| ensures e[i] > 0.0 {
      assert e[i] == m.exp(logits[i] - mx);
    }
    PositiveSum(e);
  }

  /** A non-empty sum of positive numbers is positive. */
  lemma {:induction false} PositiveSum(v: seq<real>)
    requires v != [] && forall i :: 0 <= i < |v| ==> v[i] > 0.0
    ensures RealSum(v) > 0.0
    decreases |v|
  {
    var n := |v| - 1;
    if n > 0 {
      var init := v[..n];
      assert forall i :: 0 <= i < |init| ==> init[i] == v[i];
      PositiveSum(init);
    }
  }

  /** `softmax`: shift by the largest logit, exponentiate, divide by the sum. With no
      logits it is the empty list. */
  function Softmax(m: Ops, logits: seq<real>): (probs: seq<real>)
    requires ExpLaws(m)
    ensures |probs| == |logits|
  {
    if logits == [] then []
    else
      var mx := Max(logits);
      var exps := ShiftedExps(m, logits, mx);
      ExpSumPositive(m, logits, mx);
      Divide(exps, RealSum(exps))
  }

  /** `weights.reduce((sum, wj, j) => sum + wj * x[j], intercept)`, from the left. */
  function Logit(weights: seq<real>, x: seq<real>, intercept: real): real
    requires |weights| <= |x|
    decreases |weights|
  {
    if weights == [] then intercept
    else
      var n := |weights| - 1;
      Logit(weights[..n], x, intercept) + weights[n] * x[n]
  }

  /** Reference: the dot product `sum_j w[j] * x[j]`, summed from the front. */
  function DotSum(w: seq<real>, x: seq<real>): real
    requires |w| <= |x|
    decreases |w|
  {
    if w == [] then 0.0 else w[0] * x[0] + DotSum(w[1..], x[1..])
  }

  /** The fitted parameters: one coefficient row and one intercept per logit. */
  datatype LogisticClassifier = LogisticClassifier(coef: seq<seq<real>>, intercept: seq<real>, classes: seq<string>)

  /** Every row has an intercept and no more weights than the input has features. */
  predicate Shaped(c: LogisticClassifier, x: seq<real>) {
    |c.intercept| == |c.coef| && forall i :: 0 <= i < |c.coef| ==> |c.coef[i]| <= |x|
  }

  function Logits(c: LogisticClassifier, x: seq<real>): (logits: seq<real>)
    requires Shaped(c, x)
    ensures |logits| == |c.coef|
  {
    seq(|c.coef|, i requires 0 <= i < |c.coef| && Shaped(c, x) => Logit(c.coef[i], x, c.intercept[i]))
  }

  /** One row: `[1 - sigmoid(z), sigmoid(z)]`; otherwise the softmax. */
  function Probabilities(m: Ops, c: LogisticClassifier, x: seq<real>): seq<real>
    requires ExpLaws(m) && Shaped(c, x)
  {
    var logits := Logits(c, x);
    if |c.coef| == 1 then [1.0 - Sigmoid(m, logits[0]), Sigmoid(m, logits[0])]
    else Softmax(m, logits)
  }

  /** `logisticPredict`: the index of the first largest probability and that
      probability, `undefined` (None) when there is none. */
  function LogisticPredict(m: Ops, c: LogisticClassifier, x: seq<real>): (int, Option<real>)
    requires ExpLaws(m) && Shaped(c, x)
  {
    var probs := Probabilities(m, c, x);
    var maxIdx := FirstMaxIndex(probs);
    (maxIdx, if 0 <= maxIdx < |probs| then Some(probs[maxIdx]) else None)
  }

  /** The two parts of the displayed `${label}(${prob.toFixed(2)})`. */
  datatype Verdict = Verdict(name: Option<string>, confidence: real)

  /** Stands for some TypeError; the wording is one engine's. */
  const NoProbability: string := "TypeError: prob is undefined"

  /** `predict`: with no probability to format, `toFixed` throws. */
  function Predict(m: Ops, c: LogisticClassifier, x: seq<real>): Result<Verdict, string>
    requires ExpLaws(m) && Shaped(c, x)
  {
    var (prediction, prob) := LogisticPredict(m, c, x);
    match prob
    case None => Failure(NoProbability)
    case Some(p) => Success(Verdict(TranslateLabel(ClassAt(c.classes, prediction)), p))
  }

  /** The content of a logistic-regression descriptor file that the model keeps. */
  datatype LogisticDescriptor = LogisticDescriptor(
    classes: seq<string>, points: seq<LandmarkKey>, coef: seq<seq<real>>, intercept: seq<real>)

  class LogisticRegressionModel {
    var model: Option<LogisticClassifier>
    var points: seq<LandmarkKey>

    constructor ()
      ensures model == None && points == []
    {
      model := None;
      points := [];
    }

    /** `load`: builds the classifier and records the feature points only when
        there is no classifier yet. */
    method Load(d: LogisticDescriptor)
      modifies this
      ensures old(model).Some? ==> model == old(model) && points == old(points)
      ensures old(model).None? ==>
        model == Some(LogisticClassifier(d.coef, d.intercept, d.classes)) && points == d.points
    {
      if model.None? {
        points := d.points;
        model := Some(LogisticClassifier(d.coef, d.intercept, d.classes));
      }
    }
  }

  // ---------------------------------------------------------------------------
  // Properties

  lemma {:induction false} DotSumSnoc(w: seq<real>, x: seq<real>)
    requires 0 < |w| <= |x|
    ensures DotSum(w, x) == DotSum(w[..|w| - 1], x) + w[|w| - 1] * x[|w| - 1]
    decreases |w|
  {
    if |w| > 1 {
      DotSumSnoc(w[1..], x[1..]);
      assert w[1..][..|w| - 2] == w[..|w| - 1][1..];
    }
  }

  /** Each logit is the intercept plus the dot product of its row with the input. */
  lemma {:induction false} LogitIsAffine(weights: seq<real>, x: seq<real>, intercept: real)
    requires |weights| <= |x|
    ensures Logit(weights, x, intercept) == intercept + DotSum(weights, x)
    decreases |weights|
  {
    if weights != [] {
      var n := |weights| - 1;
      LogitIsAffine(weights[..n], x, intercept);
      DotSumSnoc(weights, x);
    }
  }

  /** `logits[i] = intercept[i] + sum_j coef[i][j] * x[j]`. */
  lemma LogitsFormula(c: LogisticClassifier, x: seq<real>, i: int)
    requires Shaped(c, x) && 0 <= i < |c.coef|
    ensures Logits(c, x)[i] == c.intercept[i] + DotSum(c.coef[i], x)
  {
    LogitIsAffine(c.coef[i], x, c.intercept[i]);
  }

  lemma {:induction false} SumDivided(v: seq<real>, d: real)
    requires d != 0.0
    ensures RealSum(Divide(v, d)) == RealSum(v) / d
    decreases |v|
  {
    if v != [] {
      var n := |v| - 1;
      SumDivided(v[..n], d);
      assert Divide(v, d)[..n] == Divide(v[..n], d);
      DivAdd(RealSum(v[..n]), v[n], d);
    }
  }

  lemma DivAdd(a: real, b: real, d: real)
    requires d != 0.0
    ensures a / d + b / d == (a + b) / d
  {
  }

  /** The softmax of a non-empty list of logits sums to 1. */
  lemma SoftmaxSumsToOne(m: Ops, logits: seq<real>)
    requires ExpLaws(m) && logits != []
    ensures RealSum(Softmax(m, logits)) == 1.0
  {
    var mx := Max(logits);
    var exps := ShiftedExps(m, logits, mx);
    ExpSumPositive(m, logits, mx);
    var total := RealSum(exps);
    assert Softmax(m, logits) == Divide(exps, total);
    SumDivided(exps, total);
    DivSelf(total);
  }

  lemma DivSelf(d: real)
    requires d != 0.0
    ensures d / d == 1.0
  {
  }

  /** The two probabilities of the one-row case sum to 1. */
  lemma BinaryProbabilitiesSumToOne(m: Ops, c: LogisticClassifier, x: seq<real>)
    requires ExpLaws(m) && Shaped(c, x) && |c.coef| == 1
    ensures |Probabilities(m, c, x)| == 2
    ensures Probabilities(m, c, x)[0] + Probabilities(m, c, x)[1] == 1.0
  {
  }

  lemma DivLess(a: real, b: real, d: real)
    requires d > 0.0
    ensures a / d < b / d <==> a < b
  {
    assert a == (a / d) * d;
    assert b == (b / d) * d;
    if a / d < b / d {
      MulLess(a / d, b / d, d);
    } else {
      MulLessEq(b / d, a / d, d);
    }
  }

  lemma MulLess(a: real, b: real, d: real)
    requires d > 0.0 && a < b
    ensures a * d < b * d
  {
  }

  lemma MulLessEq(a: real, b: real, d: real)
    requires d > 0.0 && a <= b
    ensures a * d <= b * d
  {
  }

  /** Softmax keeps the order of the logits, since `exp` is increasing. */
  lemma SoftmaxKeepsOrder(m: Ops, logits: seq<real>, i: int, j: int)
    requires ExpLaws(m) && 0 <= i < |logits| && 0 <= j < |logits|
    ensures Softmax(m, logits)[i] < Softmax(m, logits)[j] <==> logits[i] < logits[j]
  {
    var mx := Max(logits);
    var exps := ShiftedExps(m, logits, mx);
    ExpSumPositive(m, logits, mx);
    DivLess(exps[i], exps[j], RealSum(exps));
    if logits[i] < logits[j] {
      assert m.exp(logits[i] - mx) < m.exp(logits[j] - mx);
    } else if logits[j] < logits[i] {
      assert m.exp(logits[j] - mx) < m.exp(logits[i] - mx);
    }
  }

  /** With several rows the winner is the first largest logit: the softmax does not
      change which class wins. */
  lemma MulticlassWinnerIsLogitArgMax(m: Ops, c: LogisticClassifier, x: seq<real>)
    requires ExpLaws(m) && Shaped(c, x) && |c.coef| != 1
    ensures LogisticPredict(m, c, x).0 == FirstMaxIndex(Logits(c, x))
  {
    var logits := Logits(c, x);
    var probs := Softmax(m, logits);
    forall i, j | 0 <= i < |probs| && 0 <= j < |probs|
      ensures probs[i] < probs[j] <==> logits[i] < logits[j]
    {
      SoftmaxKeepsOrder(m, logits, i, j);
    }
    FirstMaxOrderInvariant(probs, logits);
  }

  /** With one row the second class wins exactly when the logit is positive (a zero
      logit gives two equal probabilities, and the first one wins). */
  lemma BinaryWinner(m: Ops, c: LogisticClassifier, x: seq<real>)
    requires ExpLaws(m) && Shaped(c, x) && |c.coef| == 1
    ensures LogisticPredict(m, c, x).0 == if Logits(c, x)[0] > 0.0 then 1 else 0
  {
    var z := Logits(c, x)[0];
    var e := m.exp(-z);
    var d := 1.0 + e;
    assert e > 0.0;
    var s := Sigmoid(m, z);
    assert s == 1.0 / d;
    assert 1.0 - s == e / d by {
      DivAdd(1.0, -1.0 + e, d);
    }
    DivLess(e, 1.0, d);
    DivLess(1.0, e, d);
    if z > 0.0 {
      assert m.exp(-z) < m.exp(0.0);
    } else if z < 0.0 {
      assert m.exp(0.0) < m.exp(-z);
    }
    var probs := Probabilities(m, c, x);
    assert probs == [1.0 - s, s];
    if z > 0.0 {
      FirstMaxUnique(probs, 1);
    } else {
      FirstMaxUnique(probs, 0);
    }
  }

  /** The reported confidence is the winning probability, and no class is more probable. */
  lemma ConfidenceIsMaximal(m: Ops, c: LogisticClassifier, x: seq<real>)
    requires ExpLaws(m) && Shaped(c, x)
    ensures LogisticPredict(m, c, x).1.Some? <==> Probabilities(m, c, x) != []
    ensures LogisticPredict(m, c, x).1.Some? ==>
      var probs := Probabilities(m, c, x);
      && LogisticPredict(m, c, x).1.value == probs[LogisticPredict(m, c, x).0]
      && forall j :: 0 <= j < |probs| ==> probs[j] <= LogisticPredict(m, c, x).1.value
  {
  }

  /** `predict` fails exactly when there is no probability, which happens only
      without coefficient rows. */
  lemma PredictFailsIffNoRows(m: Ops, c: LogisticClassifier, x: seq<real>)
    requires ExpLaws(m) && Shaped(c, x)
    ensures Predict(m, c, x).Failure? <==> |c.coef| == 0
  {
  }
}
