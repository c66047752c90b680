/** The support-vector-machine classifier: four kernels, the kernel dispatch, and
    the decision logic for two classes, one-vs-one and one-vs-rest. */
module Svm {
  import opened Wrappers
  import opened MathOps
  import opened ArgMax
  import opened Labels
  import opened Point3D

  /** `OtherKernel(name)` is any kernel string other than the four; the type itself
      does not exclude the four names there, and nothing in the model depends on it. */
  datatype KernelType = Linear | Poly | Rbf | Sigmoid | OtherKernel(name: string)

  /** `OtherShape(name)` is any shape string other than "ovo" and "ovr", under the
      same reading as `OtherKernel`. */
  datatype DecisionShape = Ovo | Ovr | OtherShape(name: string)

  datatype SvmModelData = SvmModelData(
    kernel: KernelType, supportVectors: seq<seq<real>>, dualCoef: seq<seq<real>>,
    intercept: seq<real>, gamma: real, coef0: real, degree: real, nSupport: seq<int>)

  /** The parts of the descriptor that `predict` reads: the decision shape, the
      classes, the model data and the joint triplets whose angles are the input. */
  datatype SvmJson = SvmJson(shape: DecisionShape, classes: seq<string>, data: SvmModelData, angles: seq<Triplet>)

  /** The result of `predict`: a label passed through `Utils.translate`, or (one-vs-rest)
      a class name returned as it is. None stands for `undefined`. `Utils.translate`
      is not part of this model. */
  datatype SvmLabel = Translated(name: Option<string>) | Untranslated(name: Option<string>)

  /** Stands for the TypeError of reading a field of `undefined`; the wording is
      one engine's. */
  const ReadOfUndefined: string := "TypeError: Cannot read properties of undefined"

  // ---------------------------------------------------------------------------
  // Kernels

  /** `x.reduce((sum, xi, i) => sum + xi * y[i], 0)`. */
  function LinearKernel(x: seq<real>, y: seq<real>): real
    requires |x| <= |y|
    decreases |x|
  {
    if x == [] then 0.0
    else
      var n := |x| - 1;
      LinearKernel(x[..n], y) + x[n] * y[n]
  }

  function PolyKernel(m: Ops, x: seq<real>, y: seq<real>, degree: real, coef0: real, gamma: real): real
    requires |x| <= |y|
  {
    m.pow(gamma * LinearKernel(x, y) + coef0, degree)
  }

  /** The squared distance `sum (x[i] - y[i])^2`, folded from the left. */
  function SquaredDistance(x: seq<real>, y: seq<real>): real
    requires |x| <= |y|
    decreases |x|
  {
    if x == [] then 0.0
    else
      var n := |x| - 1;
      var diff := x[n] - y[n];
      SquaredDistance(x[..n], y) + diff * diff
  }

  function RbfKernel(m: Ops, x: seq<real>, y: seq<real>, gamma: real): real
    requires |x| <= |y|
  {
    m.exp(-gamma * SquaredDistance(x, y))
  }

  function SigmoidKernel(m: Ops, x: seq<real>, y: seq<real>, gamma: real, coef0: real): real
    requires |x| <= |y|
  {
    m.tanh(gamma * LinearKernel(x, y) + coef0)
  }

  /** `computeKernel`. The support vector may be missing (`undefined`): the kernels
      read it only when the input is non-empty, and reading it throws. An unknown
      kernel throws before the vector is touched. */
  function ComputeKernel(m: Ops, x: seq<real>, y: Option<seq<real>>, md: SvmModelData): (r: Result<real, string>)
    requires y.Some? ==> |x| <= |y.value|
    ensures r.Failure? <==> md.kernel.OtherKernel? || (y.None? && x != [])
  {
    if md.kernel.OtherKernel? then Failure("Unsupported kernel type: " + md.kernel.name)
    else if y.None? && x != [] then Failure(ReadOfUndefined)
    else
      var v := if y.Some? then y.value else [];
      match md.kernel
      case Linear => Success(LinearKernel(x, v))
      case Poly => Success(PolyKernel(m, x, v, md.degree, md.coef0, md.gamma))
      case Rbf => Success(RbfKernel(m, x, v, md.gamma))
      case Sigmoid => Success(SigmoidKernel(m, x, v, md.gamma, md.coef0))
  }

  // ---------------------------------------------------------------------------
  // Decision values

  /** `svs[k]`, `undefined` past the end. */
  function VectorAt(svs: seq<seq<real>>, k: nat): Option<seq<real>> {
    if k < |svs| then Some(svs[k]) else None
  }

  /** Every support vector is at least as long as the input. */
  ghost predicate VectorsFit(svs: seq<seq<real>>, input: seq<real>) {
    forall i :: 0 <= i < |svs| ==> |input| <= |svs[i]|
  }

  /** `sum_{k < n} coef[k] * K(input, svs[k])`, the decision loop's running total. */
  function BlockSum(m: Ops, md: SvmModelData, input: seq<real>, svs: seq<seq<real>>, coef: seq<real>, n: nat): Result<real, string>
    requires VectorsFit(svs, input) && n <= |coef|
  {
    if n == 0 then Success(0.0)
    else Accumulate(BlockSum(m, md, input, svs, coef, n - 1), coef[n - 1], ComputeKernel(m, input, VectorAt(svs, n - 1), md))
  }

  /** `decision += coef * kernel`, where either may have thrown. */
  function Accumulate(total: Result<real, string>, coef: real, kernel: Result<real, string>): Result<real, string> {
    if total.Failure? then total
    else if kernel.Failure? then Failure(kernel.error)
    else Success(total.value + coef * kernel.value)
  }

  /** `support_vectors.slice(a, b)` for `0 <= a <= b`. */
  function Slice(s: seq<seq<real>>, a: int, b: int): (r: seq<seq<real>>)
    requires 0 <= a <= b
    ensures |r| <= |s| && forall i :: 0 <= i < |r| ==> a + i < |s| && r[i] == s[a + i]
    ensures |r| == (if b < |s| then b else |s|) - (if a < |s| then a else |s|)
  {
    var lo := if a < |s| then a else |s|;
    var hi := if b < |s| then b else |s|;
    s[lo..hi]
  }

  /** `decision` plus an intercept that may be missing, which makes it `NaN` (None). */
  function AddIntercept(s: real, intercept: seq<real>, p: nat): Option<real> {
    if p < |intercept| then Some(s + intercept[p]) else None
  }

  /** `decision > 0`; a `NaN` decision compares false. */
  predicate Positive(d: Option<real>) {
    d.Some? && d.value > 0.0
  }

  /** What the descriptor must provide beyond what `predict` checks: a support-vector
      count per class, none negative, and support vectors that cover the input. */
  ghost predicate Shaped(json: SvmJson, input: seq<real>) {
    && |json.data.nSupport| >= |json.classes|
    && (forall i :: 0 <= i < |json.data.nSupport| ==> json.data.nSupport[i] >= 0)
    && VectorsFit(json.data.supportVectors, input)
  }

  lemma SliceFits(s: seq<seq<real>>, input: seq<real>, a: int, b: int)
    requires VectorsFit(s, input) && 0 <= a <= b
    ensures VectorsFit(Slice(s, a, b), input)
  {
  }

  /** The two-class decision: the whole first row against the support vectors. */
  function BinaryDecision(m: Ops, json: SvmJson, input: seq<real>): Result<Option<real>, string>
    requires Shaped(json, input)
  {
    var md := json.data;
    if |md.dualCoef| == 0 then Failure(ReadOfUndefined)
    else match BlockSum(m, md, input, md.supportVectors, md.dualCoef[0], |md.dualCoef[0]|)
      case Failure(e) => Failure(e)
      case Success(s) => Success(AddIntercept(s, md.intercept, 0))
  }

  // ---------------------------------------------------------------------------
  // One-vs-one

  datatype OvoState = OvoState(votes: seq<int>, svIndex: int, pairIndex: int)

  predicate OvoValid(n: nat, st: OvoState) {
    |st.votes| == n && st.svIndex >= 0 && st.pairIndex >= 0
  }

  /** One pair `(i, j)`: its coefficient row and intercept are at `pairIndex`, its
      support vectors are the next `n_support[i] + n_support[j]` from `svIndex`; a
      positive decision is a vote for `j`, anything else a vote for `i`. */
  function PairStep(m: Ops, json: SvmJson, input: seq<real>, i: int, j: int, st: OvoState): (r: Result<OvoState, string>)
    requires Shaped(json, input) && 0 <= i < j < |json.classes| && OvoValid(|json.classes|, st)
    ensures r.Success? ==> OvoValid(|json.classes|, r.value)
    ensures r.Success? ==> Sum(r.value.votes) == Sum(st.votes) + 1 && r.value.pairIndex == st.pairIndex + 1
  {
    var md := json.data;
    if st.pairIndex >= |md.dualCoef| then Failure(ReadOfUndefined)
    else
      match PairSum(m, json, input, i, j, st.svIndex, st.pairIndex)
      case Failure(e) => Failure(e)
      case Success(s) =>
        var winner := if Positive(AddIntercept(s, md.intercept, st.pairIndex)) then j else i;
        SumUpdate(st.votes, winner);
        Success(OvoState(st.votes[winner := st.votes[winner] + 1], st.svIndex + (md.nSupport[i] + md.nSupport[j]), st.pairIndex + 1))
  }

  /** The decision sum of pair `(i, j)`: its coefficient row at `pairIndex` against
      the next `n_support[i] + n_support[j]` support vectors from `svIndex`. */
  function PairSum(m: Ops, json: SvmJson, input: seq<real>, i: int, j: int, svIndex: int, pairIndex: int): Result<real, string>
    requires Shaped(json, input) && 0 <= i < j < |json.classes| && svIndex >= 0
    requires 0 <= pairIndex < |json.data.dualCoef|
  {
    var md := json.data;
    var coef := md.dualCoef[pairIndex];
    var size := md.nSupport[i] + md.nSupport[j];
    SliceFits(md.supportVectors, input, svIndex, svIndex + size);
    BlockSum(m, md, input, Slice(md.supportVectors, svIndex, svIndex + size), coef, |coef|)
  }

  /** The inner loop: pairs `(i, j), (i, j + 1), ..., (i, n - 1)`. */
  function OvoInner(m: Ops, json: SvmJson, input: seq<real>, i: int, j: int, st: OvoState): (r: Result<OvoState, string>)
    requires Shaped(json, input) && 0 <= i < j <= |json.classes| && OvoValid(|json.classes|, st)
    ensures r.Success? ==> OvoValid(|json.classes|, r.value)
    decreases |json.classes| - j
  {
    if j == |json.classes| then Success(st)
    else match PairStep(m, json, input, i, j, st)
      case Failure(e) => Failure(e)
      case Success(next) => OvoInner(m, json, input, i, j + 1, next)
  }

  /** The outer loop from row `i` on. */
  function OvoOuter(m: Ops, json: SvmJson, input: seq<real>, i: int, st: OvoState): (r: Result<OvoState, string>)
    requires Shaped(json, input) && 0 <= i <= |json.classes| && OvoValid(|json.classes|, st)
    ensures r.Success? ==> OvoValid(|json.classes|, r.value)
    decreases |json.classes| - i
  {
    if i == |json.classes| then Success(st)
    else match OvoInner(m, json, input, i, i + 1, st)
      case Failure(e) => Failure(e)
      case Success(next) => OvoOuter(m, json, input, i + 1, next)
  }

  /** The rest of the one-vs-one computation from pair `(i, j)` on. */
  function OvoFrom(m: Ops, json: SvmJson, input: seq<real>, i: int, j: int, st: OvoState): Result<OvoState, string>
    requires Shaped(json, input) && 0 <= i < j <= |json.classes| && OvoValid(|json.classes|, st)
  {
    match OvoInner(m, json, input, i, j, st)
    case Failure(e) => Failure(e)
    case Success(next) => OvoOuter(m, json, input, i + 1, next)
  }

  /** `votes = new Array(n).fill(0)`, starting at the first support vector and row. */
  function OvoStart(n: nat): (st: OvoState)
    ensures OvoValid(n, st)
    ensures (forall c :: 0 <= c < n ==> st.votes[c] == 0) && st.svIndex == 0 && st.pairIndex == 0
  {
    OvoState(seq(n, _ => 0), 0, 0)
  }

  // ---------------------------------------------------------------------------
  // One-vs-rest

  datatype OvrState = OvrState(decisions: seq<Option<real>>, svIndex: int)

  /** One class against the rest: its coefficient row and intercept are at `i`, its
      support vectors are the next `n_support[i]` from `svIndex`. */
  function RestStep(m: Ops, json: SvmJson, input: seq<real>, i: int, st: OvrState): (r: Result<OvrState, string>)
    requires Shaped(json, input) && 0 <= i < |json.classes| && st.svIndex >= 0
    ensures r.Success? ==> r.value.svIndex >= 0 && |r.value.decisions| == |st.decisions| + 1
  {
    var md := json.data;
    if i >= |md.dualCoef| then Failure(ReadOfUndefined)
    else
      match RestSum(m, json, input, i, st.svIndex)
      case Failure(e) => Failure(e)
      case Success(s) =>
        Success(OvrState(st.decisions + [AddIntercept(s, md.intercept, i)], st.svIndex + md.nSupport[i]))
  }

  /** The decision sum of class `i` against the rest: its coefficient row against the
      next `n_support[i]` support vectors from `svIndex`. */
  function RestSum(m: Ops, json: SvmJson, input: seq<real>, i: int, svIndex: int): Result<real, string>
    requires Shaped(json, input) && 0 <= i < |json.classes| && svIndex >= 0
    requires i < |json.data.dualCoef|
  {
    var md := json.data;
    var coef := md.dualCoef[i];
    SliceFits(md.supportVectors, input, svIndex, svIndex + md.nSupport[i]);
    BlockSum(m, md, input, Slice(md.supportVectors, svIndex, svIndex + md.nSupport[i]), coef, |coef|)
  }

  /** The loop state after the first `n` classes. */
  function OvrPrefix(m: Ops, json: SvmJson, input: seq<real>, n: nat): (r: Result<OvrState, string>)
    requires Shaped(json, input) && n <= |json.classes|
    ensures r.Success? ==> |r.value.decisions| == n && r.value.svIndex >= 0
  {
    if n == 0 then Success(OvrState([], 0))
    else match OvrPrefix(m, json, input, n - 1)
      case Failure(e) => Failure(e)
      case Success(st) => RestStep(m, json, input, n - 1, st)
  }

  /** `decisions.indexOf(Math.max(...decisions))`: a `NaN` decision makes the maximum
      `NaN`, which `indexOf` never finds. */
  function DecisionArgMax(ds: seq<Option<real>>): int {
    if forall i :: 0 <= i < |ds| ==> ds[i].Some? then
      FirstMaxIndex(seq(|ds|, i requires 0 <= i < |ds| && ds[i].Some? => ds[i].value))
    else -1
  }

  // ---------------------------------------------------------------------------
  // predict

  /** What `predict` computes, branch by branch. */
  function Classify(m: Ops, json: SvmJson, input: seq<real>): Result<SvmLabel, string>
    requires Shaped(json, input)
  {
    var n := |json.classes|;
    if n == 2 then
      match BinaryDecision(m, json, input)
      case Failure(e) => Failure(e)
      case Success(d) => Success(Translated(Some(if Positive(d) then json.classes[1] else json.classes[0])))
    else if json.shape == Ovo then
      match OvoOuter(m, json, input, 0, OvoStart(n))
      case Failure(e) => Failure(e)
      case Success(st) => Success(Translated(ClassAt(json.classes, FirstMaxIndex(AsReals(st.votes)))))
    else if json.shape == Ovr then
      match OvrPrefix(m, json, input, n)
      case Failure(e) => Failure(e)
      case Success(st) => Success(Untranslated(ClassAt(json.classes, DecisionArgMax(st.decisions))))
    else Failure("Unsupported decision_function_shape: " + json.shape.name)
  }

  /** Once the running total has failed, it stays failed with the same error. */
  lemma {:induction false} BlockSumFailureSticks(m: Ops, md: SvmModelData, input: seq<real>, svs: seq<seq<real>>, coef: seq<real>, n: nat, n': nat)
    requires VectorsFit(svs, input) && n <= n' <= |coef|
    requires BlockSum(m, md, input, svs, coef, n).Failure?
    ensures BlockSum(m, md, input, svs, coef, n') == BlockSum(m, md, input, svs, coef, n)
    decreases n' - n
  {
    if n < n' {
      BlockSumFailureSticks(m, md, input, svs, coef, n, n' - 1);
    }
  }

  /** The decision loop shared by the three branches. */
  method Decide(m: Ops, md: SvmModelData, input: seq<real>, svs: seq<seq<real>>, coef: seq<real>) returns (r: Result<real, string>)
    requires VectorsFit(svs, input)
    ensures r == BlockSum(m, md, input, svs, coef, |coef|)
  {
    var decision: Result<real, string> := Success(0.0);
    for k := 0 to |coef|
      invariant decision == BlockSum(m, md, input, svs, coef, k) && decision.Success?
    {
      var kernel := ComputeKernel(m, input, VectorAt(svs, k), md);
      decision := Accumulate(decision, coef[k], kernel);
      if decision.Failure? {
        BlockSumFailureSticks(m, md, input, svs, coef, k + 1, |coef|);
        return decision;
      }
    }
    r := decision;
  }

  /** The two-class branch. */
  method PredictBinary(m: Ops, json: SvmJson, input: seq<real>) returns (r: Result<Option<real>, string>)
    requires Shaped(json, input)
    ensures r == BinaryDecision(m, json, input)
  {
    var md := json.data;
    if |md.dualCoef| == 0 {
      return Failure(ReadOfUndefined);
    }
    var s := Decide(m, md, input, md.supportVectors, md.dualCoef[0]);
    if s.Failure? {
      return Failure(s.error);
    }
    r := Success(AddIntercept(s.value, md.intercept, 0));
  }

  /** `PairStep` once the pair's decision sum `s` is known. */
  lemma PairStepWith(m: Ops, json: SvmJson, input: seq<real>, i: int, j: int, st: OvoState, s: Result<real, string>)
    requires Shaped(json, input) && 0 <= i < j < |json.classes| && OvoValid(|json.classes|, st)
    requires st.pairIndex < |json.data.dualCoef|
    requires s == PairSum(m, json, input, i, j, st.svIndex, st.pairIndex)
    ensures s.Failure? ==> PairStep(m, json, input, i, j, st) == Failure(s.error)
    ensures s.Success? && Positive(AddIntercept(s.value, json.data.intercept, st.pairIndex)) ==>
      PairStep(m, json, input, i, j, st) == Success(OvoState(st.votes[j := st.votes[j] + 1],
        st.svIndex + (json.data.nSupport[i] + json.data.nSupport[j]), st.pairIndex + 1))
    ensures s.Success? && !Positive(AddIntercept(s.value, json.data.intercept, st.pairIndex)) ==>
      PairStep(m, json, input, i, j, st) == Success(OvoState(st.votes[i := st.votes[i] + 1],
        st.svIndex + (json.data.nSupport[i] + json.data.nSupport[j]), st.pairIndex + 1))
  {
  }

  /** One iteration of the one-vs-one inner loop: the pair's decision and its vote. */
  method VotePair(m: Ops, json: SvmJson, input: seq<real>, votes: seq<int>, i: int, j: int, svIndex: int, pairIndex: int)
    returns (r: Outcome<string>, votes': seq<int>, svIndex': int, pairIndex': int)
    requires Shaped(json, input) && 0 <= i < j < |json.classes| && |votes| == |json.classes|
    requires svIndex >= 0 && pairIndex >= 0
    ensures r.Fail? ==> PairStep(m, json, input, i, j, OvoState(votes, svIndex, pairIndex)) == Failure(r.error)
    ensures r.Pass? ==> PairStep(m, json, input, i, j, OvoState(votes, svIndex, pairIndex)) == Success(OvoState(votes', svIndex', pairIndex'))
  {
    var md := json.data;
    votes', svIndex', pairIndex' := votes, svIndex, pairIndex;
    if pairIndex >= |md.dualCoef| {
      return Fail(ReadOfUndefined), votes', svIndex', pairIndex';
    }
    var size := md.nSupport[i] + md.nSupport[j];
    var s := DecidePair(m, json, input, i, j, svIndex, pairIndex);
    PairStepWith(m, json, input, i, j, OvoState(votes, svIndex, pairIndex), s);
    if s.Failure? {
      return Fail(s.error), votes', svIndex', pairIndex';
    }
    if Positive(AddIntercept(s.value, md.intercept, pairIndex)) {
      votes' := votes'[j := votes'[j] + 1];
    } else {
      votes' := votes'[i := votes'[i] + 1];
    }
    r := Pass;
    pairIndex' := pairIndex + 1;
    svIndex' := svIndex + size;
  }

  /** The decision loop over the pair's coefficient row and support vectors. */
  method DecidePair(m: Ops, json: SvmJson, input: seq<real>, i: int, j: int, svIndex: int, pairIndex: int)
    returns (s: Result<real, string>)
    requires Shaped(json, input) && 0 <= i < j < |json.classes| && svIndex >= 0
    requires 0 <= pairIndex < |json.data.dualCoef|
    ensures s == PairSum(m, json, input, i, j, svIndex, pairIndex)
  {
    var md := json.data;
    var size := md.nSupport[i] + md.nSupport[j];
    var svs := Slice(md.supportVectors, svIndex, svIndex + size);
    SliceFits(md.supportVectors, input, svIndex, svIndex + size);
    s := Decide(m, md, input, svs, md.dualCoef[pairIndex]);
  }

  lemma OvoOuterUnfold(m: Ops, json: SvmJson, input: seq<real>, i: int, st: OvoState)
    requires Shaped(json, input) && 0 <= i < |json.classes| && OvoValid(|json.classes|, st)
    ensures OvoOuter(m, json, input, i, st) == OvoFrom(m, json, input, i, i + 1, st)
  {
  }

  lemma OvoInnerDone(m: Ops, json: SvmJson, input: seq<real>, i: int, st: OvoState)
    requires Shaped(json, input) && 0 <= i < |json.classes| && OvoValid(|json.classes|, st)
    ensures OvoFrom(m, json, input, i, |json.classes|, st) == OvoOuter(m, json, input, i + 1, st)
  {
  }

  lemma OvoFromStep(m: Ops, json: SvmJson, input: seq<real>, i: int, j: int, st: OvoState)
    requires Shaped(json, input) && 0 <= i < j < |json.classes| && OvoValid(|json.classes|, st)
    ensures PairStep(m, json, input, i, j, st).Failure? ==>
      OvoFrom(m, json, input, i, j, st) == Failure(PairStep(m, json, input, i, j, st).error)
    ensures PairStep(m, json, input, i, j, st).Success? ==>
      OvoFrom(m, json, input, i, j, st) == OvoFrom(m, json, input, i, j + 1, PairStep(m, json, input, i, j, st).value)
  {
  }

  /** The one-vs-one branch: the nested loops over the pairs, counting votes per class. */
  method PredictOvo(m: Ops, json: SvmJson, input: seq<real>) returns (r: Result<seq<int>, string>)
    requires Shaped(json, input)
    ensures r == (match OvoOuter(m, json, input, 0, OvoStart(|json.classes|))
                  case Failure(e) => Failure(e)
                  case Success(st) => Success(st.votes))
  {
    var n := |json.classes|;
    var votes := seq(n, _ => 0);
    var svIndex := 0;
    var pairIndex := 0;
    ghost var final := OvoOuter(m, json, input, 0, OvoStart(n));
    for i := 0 to n
      invariant svIndex >= 0 && pairIndex >= 0 && |votes| == n
      invariant OvoOuter(m, json, input, i, OvoState(votes, svIndex, pairIndex)) == final
    {
      OvoOuterUnfold(m, json, input, i, OvoState(votes, svIndex, pairIndex));
      for j := i + 1 to n
        invariant svIndex >= 0 && pairIndex >= 0 && |votes| == n
        invariant OvoFrom(m, json, input, i, j, OvoState(votes, svIndex, pairIndex)) == final
      {
        OvoFromStep(m, json, input, i, j, OvoState(votes, svIndex, pairIndex));
        var o;
        o, votes, svIndex, pairIndex := VotePair(m, json, input, votes, i, j, svIndex, pairIndex);
        if o.Fail? {
          return Failure(o.error);
        }
      }
      OvoInnerDone(m, json, input, i, OvoState(votes, svIndex, pairIndex));
    }
    r := Success(votes);
  }

  /** One iteration of the one-vs-rest loop. */
  method DecideRest(m: Ops, json: SvmJson, input: seq<real>, i: int, st: OvrState) returns (r: Result<OvrState, string>)
    requires Shaped(json, input) && 0 <= i < |json.classes| && st.svIndex >= 0
    ensures r == RestStep(m, json, input, i, st)
  {
    var md := json.data;
    if i >= |md.dualCoef| {
      return Failure(ReadOfUndefined);
    }
    var coef := md.dualCoef[i];
    var nI := md.nSupport[i];
    var svs := Slice(md.supportVectors, st.svIndex, st.svIndex + nI);
    SliceFits(md.supportVectors, input, st.svIndex, st.svIndex + nI);
    var s := Decide(m, md, input, svs, coef);
    assert s == RestSum(m, json, input, i, st.svIndex);
    if s.Failure? {
      return Failure(s.error);
    }
    r := Success(OvrState(st.decisions + [AddIntercept(s.value, md.intercept, i)], st.svIndex + nI));
  }

  /** The one-vs-rest branch: one decision per class. */
  method PredictOvr(m: Ops, json: SvmJson, input: seq<real>) returns (r: Result<seq<Option<real>>, string>)
    requires Shaped(json, input)
    ensures r == (match OvrPrefix(m, json, input, |json.classes|)
                  case Failure(e) => Failure(e)
                  case Success(st) => Success(st.decisions))
  {
    var st := OvrState([], 0);
    for i := 0 to |json.classes|
      invariant OvrPrefix(m, json, input, i) == Success(st)
    {
      var next := DecideRest(m, json, input, i, st);
      if next.Failure? {
        OvrFailureSticks(m, json, input, i + 1, |json.classes|);
        return Failure(next.error);
      }
      st := next.value;
    }
    r := Success(st.decisions);
  }

  lemma {:induction false} OvrFailureSticks(m: Ops, json: SvmJson, input: seq<real>, n: nat, n': nat)
    requires Shaped(json, input) && n <= n' <= |json.classes|
    requires OvrPrefix(m, json, input, n).Failure?
    ensures OvrPrefix(m, json, input, n') == OvrPrefix(m, json, input, n)
    decreases n' - n
  {
    if n < n' {
      OvrFailureSticks(m, json, input, n, n' - 1);
    }
  }

  /** `predict`. */
  method Predict(m: Ops, json: SvmJson, input: seq<real>) returns (r: Result<SvmLabel, string>)
    requires Shaped(json, input)
    ensures r == Classify(m, json, input)
  {
    var n := |json.classes|;
    if n == 2 {
      var decision := PredictBinary(m, json, input);
      if decision.Failure? {
        return Failure(decision.error);
      }
      r := Success(Translated(Some(if Positive(decision.value) then json.classes[1] else json.classes[0])));
    } else if json.shape == Ovo {
      var votes := PredictOvo(m, json, input);
      if votes.Failure? {
        return Failure(votes.error);
      }
      r := Success(Translated(ClassAt(json.classes, FirstMaxIndex(AsReals(votes.value)))));
    } else if json.shape == Ovr {
      var decisions := PredictOvr(m, json, input);
      if decisions.Failure? {
        return Failure(decisions.error);
      }
      r := Success(Untranslated(ClassAt(json.classes, DecisionArgMax(decisions.value))));
    } else {
      r := Failure("Unsupported decision_function_shape: " + json.shape.name);
    }
  }

  /** `features.angles.map(t => getAngleFromPointsTriplet(landmarks, t))` with the
      helper's defaults: radians, normalised. None stands for NaN. */
  function PoseInput(m: Ops, json: SvmJson, pose: seq<Point3>): (r: seq<Option<real>>)
    requires IsPose(pose)
    ensures |r| == |json.angles|
  {
    seq(|json.angles|, i requires 0 <= i < |json.angles| => GetAngleFromPointsTriplet(m, pose, json.angles[i], false, true))
  }

  predicate AllDefined(s: seq<Option<real>>) {
    forall i :: 0 <= i < |s| ==> s[i].Some?
  }

  /** The numbers of a sequence with no NaN. */
  function Values(s: seq<Option<real>>): (r: seq<real>)
    requires AllDefined(s)
    ensures |r| == |s| && forall i :: 0 <= i < |s| ==> s[i] == Some(r[i])
  {
    seq(|s|, i requires 0 <= i < |s| => s[i].value)
  }

  /** `predict` on a pose: the angles of the descriptor's triplets are the input. */
  method PredictPose(m: Ops, json: SvmJson, pose: seq<Point3>) returns (r: Result<SvmLabel, string>)
    requires IsPose(pose) && AllDefined(PoseInput(m, json, pose))
    requires Shaped(json, Values(PoseInput(m, json, pose)))
    ensures r == Classify(m, json, Values(PoseInput(m, json, pose)))
  {
    var input := Values(PoseInput(m, json, pose));
    r := Predict(m, json, input);
  }

  /** Entry `i` of the input is the raw angle between the triplet's consecutive edges
      divided by pi, and is NaN exactly when one of those edges has length zero. */
  lemma PoseInputEntry(m: Ops, json: SvmJson, pose: seq<Point3>, i: int)
    requires IsPose(pose) && SqrtLaws(m) && 0 <= i < |json.angles|
    ensures
      var t := json.angles[i];
      var a, b, c := Joint(pose, t.first), Joint(pose, t.middle), Joint(pose, t.last);
      var raw := GetAngle(m, Subtract(b, a), Subtract(c, b), false);
      && PoseInput(m, json, pose)[i] == (if raw.None? then None else Some(raw.value / PI))
      && (PoseInput(m, json, pose)[i].None? <==> SquaredNorm(Subtract(b, a)) == 0.0 || SquaredNorm(Subtract(c, b)) == 0.0)
  {
    var t := json.angles[i];
    var a, b, c := Joint(pose, t.first), Joint(pose, t.middle), Joint(pose, t.last);
    NormalizedTripletIsRadiansOverPi(m, pose, t);
    GetAngleNoneIff(m, Subtract(b, a), Subtract(c, b), false);
  }

  // ---------------------------------------------------------------------------
  // Properties

  /** The kernels read only as many entries of the support vector as the input has. */
  lemma {:induction false} KernelsReadPrefix(x: seq<real>, y: seq<real>, k: nat)
    requires |x| <= k <= |y|
    ensures LinearKernel(x, y) == LinearKernel(x, y[..k])
    ensures SquaredDistance(x, y) == SquaredDistance(x, y[..k])
    decreases |x|
  {
    if x != [] {
      KernelsReadPrefix(x[..|x| - 1], y, k);
    }
  }

  /** The linear kernel is symmetric on vectors of one length, and so are the
      polynomial and sigmoid kernels built on it. */
  lemma {:induction false} LinearKernelSymmetric(x: seq<real>, y: seq<real>)
    requires |x| == |y|
    ensures LinearKernel(x, y) == LinearKernel(y, x)
    decreases |x|
  {
    if x != [] {
      var n := |x| - 1;
      KernelsReadPrefix(x[..n], y, n);
      KernelsReadPrefix(y[..n], x, n);
      LinearKernelSymmetric(x[..n], y[..n]);
      assert LinearKernel(x, y) == LinearKernel(x[..n], y[..n]) + x[n] * y[n];
      assert LinearKernel(y, x) == LinearKernel(y[..n], x[..n]) + y[n] * x[n];
    }
  }

  /** The squared distance is never negative, and it is 0 from a vector to itself. */
  lemma {:induction false} SquaredDistanceProperties(x: seq<real>, y: seq<real>)
    requires |x| <= |y|
    ensures SquaredDistance(x, y) >= 0.0
    ensures x == y[..|x|] ==> SquaredDistance(x, y) == 0.0
    decreases |x|
  {
    if x != [] {
      var n := |x| - 1;
      SquaredDistanceProperties(x[..n], y);
      var diff := x[n] - y[n];
      assert diff * diff >= 0.0;
      if x == y[..|x|] {
        assert x[..n] == y[..n];
        assert diff == 0.0;
      }
    }
  }

  /** The RBF kernel is 1 from a vector to itself and, for `gamma >= 0`, lies in (0, 1]. */
  lemma RbfKernelBounds(m: Ops, x: seq<real>, y: seq<real>, gamma: real)
    requires ExpLaws(m) && |x| <= |y| && gamma >= 0.0
    ensures 0.0 < RbfKernel(m, x, y, gamma) <= 1.0
    ensures x == y[..|x|] ==> RbfKernel(m, x, y, gamma) == 1.0
  {
    SquaredDistanceProperties(x, y);
    var d := SquaredDistance(x, y);
    assert gamma * d >= 0.0;
    if -gamma * d < 0.0 {
      assert m.exp(-gamma * d) < m.exp(0.0);
    }
  }

  /** An unknown kernel makes every non-empty decision sum throw its error; an empty
      coefficient row never evaluates the kernel and sums to 0. */
  lemma UnknownKernelFails(m: Ops, md: SvmModelData, input: seq<real>, svs: seq<seq<real>>, coef: seq<real>)
    requires VectorsFit(svs, input) && md.kernel.OtherKernel?
    ensures coef == [] ==> BlockSum(m, md, input, svs, coef, |coef|) == Success(0.0)
    ensures coef != [] ==>
      BlockSum(m, md, input, svs, coef, |coef|) == Failure("Unsupported kernel type: " + md.kernel.name)
  {
    if coef != [] {
      assert BlockSum(m, md, input, svs, coef, 1).Failure?;
      BlockSumFailureSticks(m, md, input, svs, coef, 1, |coef|);
    }
  }

  /** `coef` with every entry negated. */
  function Negated(coef: seq<real>): (r: seq<real>)
    ensures |r| == |coef| && forall i :: 0 <= i < |coef| ==> r[i] == -coef[i]
  {
    seq(|coef|, i requires 0 <= i < |coef| => -coef[i])
  }

  /** Negating the coefficient row negates the decision sum. */
  lemma {:induction false} BlockSumNegated(m: Ops, md: SvmModelData, input: seq<real>, svs: seq<seq<real>>, coef: seq<real>, n: nat)
    requires VectorsFit(svs, input) && n <= |coef|
    ensures BlockSum(m, md, input, svs, Negated(coef), n).Success? == BlockSum(m, md, input, svs, coef, n).Success?
    ensures BlockSum(m, md, input, svs, coef, n).Success? ==>
      BlockSum(m, md, input, svs, Negated(coef), n).value == -BlockSum(m, md, input, svs, coef, n).value
    decreases n
  {
    if n > 0 {
      BlockSumNegated(m, md, input, svs, coef, n - 1);
      var kernel := ComputeKernel(m, input, VectorAt(svs, n - 1), md);
      assert Negated(coef)[n - 1] == -coef[n - 1];
      AccumulateNegated(BlockSum(m, md, input, svs, coef, n - 1), BlockSum(m, md, input, svs, Negated(coef), n - 1),
        coef[n - 1], kernel);
    }
  }

  /** One step of the running total with the coefficient negated, from a negated total. */
  lemma AccumulateNegated(t: Result<real, string>, t': Result<real, string>, c: real, kernel: Result<real, string>)
    requires t'.Success? == t.Success? && (t.Success? ==> t'.value == -t.value)
    ensures Accumulate(t', -c, kernel).Success? == Accumulate(t, c, kernel).Success?
    ensures Accumulate(t, c, kernel).Success? ==> Accumulate(t', -c, kernel).value == -Accumulate(t, c, kernel).value
  {
    if t.Success? && kernel.Success? {
      assert (-c) * kernel.value == -(c * kernel.value);
    }
  }

  /** The decision sum depends on the descriptor only through the kernel and its
      parameters, not through the coefficients stored in it. */
  lemma {:induction false} BlockSumKernelOnly(m: Ops, md: SvmModelData, md': SvmModelData, input: seq<real>, svs: seq<seq<real>>, coef: seq<real>, n: nat)
    requires VectorsFit(svs, input) && n <= |coef|
    requires md.kernel == md'.kernel && md.gamma == md'.gamma && md.coef0 == md'.coef0 && md.degree == md'.degree
    ensures BlockSum(m, md, input, svs, coef, n) == BlockSum(m, md', input, svs, coef, n)
    decreases n
  {
    if n > 0 {
      BlockSumKernelOnly(m, md, md', input, svs, coef, n - 1);
    }
  }

  /** The two-class descriptor with the first coefficient row and intercept negated. */
  function Flipped(json: SvmJson): (r: SvmJson)
    requires |json.data.dualCoef| > 0 && |json.data.intercept| > 0
    ensures r.classes == json.classes && r.data.supportVectors == json.data.supportVectors
    ensures r.data.nSupport == json.data.nSupport
  {
    var md := json.data;
    json.(data := md.(dualCoef := md.dualCoef[0 := Negated(md.dualCoef[0])],
                      intercept := md.intercept[0 := -md.intercept[0]]))
  }

  /** Two classes: the label is the second class exactly when the decision is positive.
      Negating the first coefficient row and the intercept negates the decision, so a
      non-zero decision picks the other class, and a zero decision picks the first
      class both times. */
  lemma BinarySymmetry(m: Ops, json: SvmJson, input: seq<real>)
    requires Shaped(json, input) && |json.classes| == 2
    requires |json.data.dualCoef| > 0 && |json.data.intercept| > 0
    ensures Shaped(Flipped(json), input)
    ensures BinaryDecision(m, Flipped(json), input).Success? == BinaryDecision(m, json, input).Success?
    ensures BinaryDecision(m, json, input).Success? ==>
      && BinaryDecision(m, json, input).value.Some?
      && BinaryDecision(m, Flipped(json), input).value == Some(-BinaryDecision(m, json, input).value.value)
    ensures BinaryDecision(m, json, input).Success? && json.classes[0] != json.classes[1] ==>
      && (Classify(m, json, input).value.name == Some(json.classes[1]) <==> BinaryDecision(m, json, input).value.value > 0.0)
      && (BinaryDecision(m, json, input).value.value != 0.0 ==>
            Classify(m, json, input).value.name != Classify(m, Flipped(json), input).value.name)
    ensures BinaryDecision(m, json, input).Success? ==>
      (BinaryDecision(m, json, input).value.value == 0.0 ==>
            Classify(m, json, input).value.name == Classify(m, Flipped(json), input).value.name ==
              Some(json.classes[0]))
  {
    var md := json.data;
    var fj := Flipped(json);
    assert Shaped(fj, input);
    var coef := md.dualCoef[0];
    assert fj.data.dualCoef[0] == Negated(coef);
    BlockSumNegated(m, md, input, md.supportVectors, coef, |coef|);
    BlockSumKernelOnly(m, md, fj.data, input, md.supportVectors, Negated(coef), |coef|);
  }

  /** Two classes never consult `decision_function_shape`. */
  lemma TwoClassesIgnoreShape(m: Ops, json: SvmJson, input: seq<real>, shape: DecisionShape)
    requires Shaped(json, input) && |json.classes| == 2
    ensures Shaped(json.(shape := shape), input)
    ensures Classify(m, json.(shape := shape), input) == Classify(m, json, input)
  {
    assert json.(shape := shape).data == json.data;
  }

  /** More than two classes with any other shape throw the unsupported-shape error. */
  lemma UnsupportedShapeFails(m: Ops, json: SvmJson, input: seq<real>)
    requires Shaped(json, input) && |json.classes| != 2 && json.shape.OtherShape?
    ensures Classify(m, json, input) == Failure("Unsupported decision_function_shape: " + json.shape.name)
  {
  }

  /** The number of pairs `(i', j)` with `i <= i' < j < n`. */
  function PairsFrom(n: nat, i: nat): nat
    decreases n - i
  {
    if i >= n then 0 else (n - 1 - i) + PairsFrom(n, i + 1)
  }

  lemma {:induction false} PairsFromClosed(n: nat, i: nat)
    requires i <= n
    ensures 2 * PairsFrom(n, i) == (n - i) * (n - i - 1)
    decreases n - i
  {
    if i < n {
      PairsFromClosed(n, i + 1);
      var k := n - i;
      assert (k - 1) * (k - 2) + 2 * (k - 1) == k * (k - 1);
    }
  }

  /** The inner loop casts one vote and consumes one coefficient row per pair. */
  lemma {:induction false} OvoInnerCounts(m: Ops, json: SvmJson, input: seq<real>, i: int, j: int, st: OvoState)
    requires Shaped(json, input) && 0 <= i < j <= |json.classes| && OvoValid(|json.classes|, st)
    requires OvoInner(m, json, input, i, j, st).Success?
    ensures Sum(OvoInner(m, json, input, i, j, st).value.votes) == Sum(st.votes) + (|json.classes| - j)
    ensures OvoInner(m, json, input, i, j, st).value.pairIndex == st.pairIndex + (|json.classes| - j)
    decreases |json.classes| - j
  {
    if j < |json.classes| {
      var next := PairStep(m, json, input, i, j, st).value;
      OvoInnerCounts(m, json, input, i, j + 1, next);
    }
  }

  lemma {:induction false} OvoOuterCounts(m: Ops, json: SvmJson, input: seq<real>, i: int, st: OvoState)
    requires Shaped(json, input) && 0 <= i <= |json.classes| && OvoValid(|json.classes|, st)
    requires OvoOuter(m, json, input, i, st).Success?
    ensures Sum(OvoOuter(m, json, input, i, st).value.votes) == Sum(st.votes) + PairsFrom(|json.classes|, i)
    ensures OvoOuter(m, json, input, i, st).value.pairIndex == st.pairIndex + PairsFrom(|json.classes|, i)
    decreases |json.classes| - i
  {
    if i < |json.classes| {
      var next := OvoInner(m, json, input, i, i + 1, st).value;
      OvoInnerCounts(m, json, input, i, i + 1, st);
      OvoOuterCounts(m, json, input, i + 1, next);
    }
  }

  /** One-vs-one with `n` classes holds `n (n - 1) / 2` contests: the votes add up to
      that, and that many coefficient rows are read. */
  lemma OvoVotesCountPairs(m: Ops, json: SvmJson, input: seq<real>)
    requires Shaped(json, input)
    requires OvoOuter(m, json, input, 0, OvoStart(|json.classes|)).Success?
    ensures 2 * Sum(OvoOuter(m, json, input, 0, OvoStart(|json.classes|)).value.votes) ==
      |json.classes| * (|json.classes| - 1)
    ensures 2 * OvoOuter(m, json, input, 0, OvoStart(|json.classes|)).value.pairIndex ==
      |json.classes| * (|json.classes| - 1)
  {
    var n := |json.classes|;
    SumZeros(n);
    OvoOuterCounts(m, json, input, 0, OvoStart(n));
    PairsFromClosed(n, 0);
  }

  /** The one-vs-rest arg-max: -1 when some decision is `NaN` (or there are none),
      and otherwise the first position of the largest decision. */
  lemma DecisionArgMaxSpec(ds: seq<Option<real>>)
    ensures (exists i :: 0 <= i < |ds| && ds[i].None?) ==> DecisionArgMax(ds) == -1
    ensures ds == [] ==> DecisionArgMax(ds) == -1
    ensures (ds != [] && forall i :: 0 <= i < |ds| ==> ds[i].Some?) ==>
      && 0 <= DecisionArgMax(ds) < |ds|
      && (forall j :: 0 <= j < |ds| ==> ds[j].value <= ds[DecisionArgMax(ds)].value)
      && (forall j :: 0 <= j < DecisionArgMax(ds) ==> ds[j].value < ds[DecisionArgMax(ds)].value)
  {
    if ds != [] && forall i :: 0 <= i < |ds| ==> ds[i].Some? {
      var vs := seq(|ds|, i requires 0 <= i < |ds| && ds[i].Some? => ds[i].value);
      assert forall j :: 0 <= j < |ds| ==> vs[j] == ds[j].value;
      assert IsFirstMax(vs, FirstMaxIndex(vs));
    }
  }

  /** One-vs-rest with an intercept missing for some class: that decision is `NaN`,
      so the result is `undefined`. */
  lemma OvrMissingIntercept(m: Ops, json: SvmJson, input: seq<real>)
    requires Shaped(json, input) && |json.classes| != 2 && json.shape == Ovr
    requires |json.data.intercept| < |json.classes|
    requires OvrPrefix(m, json, input, |json.classes|).Success?
    ensures Classify(m, json, input) == Success(Untranslated(None))
  {
    var n := |json.classes|;
    OvrDecisionAt(m, json, input, n, |json.data.intercept|);
    DecisionArgMaxSpec(OvrPrefix(m, json, input, n).value.decisions);
  }

  /** Decision `i` of the one-vs-rest loop is `NaN` exactly when intercept `i` is missing. */
  lemma {:induction false} OvrDecisionAt(m: Ops, json: SvmJson, input: seq<real>, n: nat, i: nat)
    requires Shaped(json, input) && i < n <= |json.classes|
    requires OvrPrefix(m, json, input, n).Success?
    ensures OvrPrefix(m, json, input, n).value.decisions[i].None? <==> i >= |json.data.intercept|
    decreases n
  {
    var prev := OvrPrefix(m, json, input, n - 1).value;
    RestStepExtends(m, json, input, n - 1, prev);
    if i < n - 1 {
      OvrDecisionAt(m, json, input, n - 1, i);
    }
  }

  /** One class against the rest appends its decision, `NaN` when its intercept is missing. */
  lemma RestStepExtends(m: Ops, json: SvmJson, input: seq<real>, i: int, st: OvrState)
    requires Shaped(json, input) && 0 <= i < |json.classes| && st.svIndex >= 0
    requires RestStep(m, json, input, i, st).Success?
    ensures forall k :: 0 <= k < |st.decisions| ==> RestStep(m, json, input, i, st).value.decisions[k] == st.decisions[k]
    ensures RestStep(m, json, input, i, st).value.decisions[|st.decisions|].None? <==> i >= |json.data.intercept|
  {
  }
}
