/** The hybrid model: a statistical classifier whose "incorrect" verdicts are
    reconsidered by the rule-based empirical model. */
module Hybrid {
  import opened MathOps
  import opened Types
  import opened Point3D
  import Empirical

  /** The primary classifier and the empirical fallback. */
  datatype HybridModel<M> = HybridModel(primary: M, fallback: M)

  /** The selection in `predict`: a correct primary verdict is returned as it is;
      otherwise the empirical verdict is consulted, and the primary verdict is kept
      when the empirical model finds the pose correct, the empirical one (with its
      corrective message) when it does not. */
  function Select(primary: ValidationResult, empirical: ValidationResult): ValidationResult {
    if primary.isCorrect then primary
    else if empirical.isCorrect then primary
    else empirical
  }

  /** `predict`, with each member's verdict on the pose given by `run`. */
  function Predict<M>(h: HybridModel<M>, run: M -> ValidationResult): ValidationResult {
    Select(run(h.primary), run(h.fallback))
  }

  /** The members `load` loads, in order: only the primary. */
  function LoadTargets<M>(h: HybridModel<M>): seq<M> {
    [h.primary]
  }

  // ---------------------------------------------------------------------------
  // Properties

  /** The hybrid verdict is always one of the two verdicts, and it is correct exactly
      when the primary one is: the fallback never turns an incorrect verdict into a
      correct one, nor a correct one into an incorrect one. */
  lemma SelectKeepsPrimaryVerdict(primary: ValidationResult, empirical: ValidationResult)
    ensures Select(primary, empirical).isCorrect == primary.isCorrect
    ensures Select(primary, empirical) == primary || Select(primary, empirical) == empirical
    ensures Select(primary, empirical) == empirical && empirical != primary ==>
      !primary.isCorrect && !empirical.isCorrect
  {
  }

  /** With a correct primary verdict the empirical verdict does not matter. */
  lemma CorrectPrimaryIgnoresFallback(primary: ValidationResult, e1: ValidationResult, e2: ValidationResult)
    requires primary.isCorrect
    ensures Select(primary, e1) == Select(primary, e2) == primary
  {
  }

  /** The empirical verdict shows through only when both are incorrect; the primary
      text is kept otherwise. */
  lemma SelectCases(primary: ValidationResult, empirical: ValidationResult)
    ensures Select(primary, empirical).text == (if !primary.isCorrect && !empirical.isCorrect then empirical.text else primary.text)
  {
  }

  /** With the empirical model as fallback: an incorrect primary verdict on a pose that
      passes every angle check stays the primary verdict; on a pose that fails one, the
      result is the rejection of the first failing check. */
  lemma HybridWithEmpiricalFallback(m: Ops, pose: seq<Point3>, primary: ValidationResult)
    requires IsPose(pose) && !primary.isCorrect
    ensures (forall i :: 0 <= i < |Empirical.Checks| ==> Empirical.Passes(m, pose, Empirical.Checks[i])) ==>
      Select(primary, Empirical.Predict(m, pose)) == primary
    ensures forall i :: (0 <= i < |Empirical.Checks| && !Empirical.Passes(m, pose, Empirical.Checks[i]) &&
      (forall j :: 0 <= j < i ==> Empirical.Passes(m, pose, Empirical.Checks[j]))) ==>
      Select(primary, Empirical.Predict(m, pose)) == Empirical.Rejected(Empirical.Checks[i].message)
  {
    Empirical.PredictSpec(m, pose);
  }

  /** Loading never loads the fallback unless it is the primary itself. */
  lemma LoadSkipsFallback<M>(h: HybridModel<M>)
    ensures h.primary in LoadTargets(h)
    ensures h.fallback in LoadTargets(h) <==> h.fallback == h.primary
  {
  }
}
