/** The ensemble: every member classifier judges the pose, one after the other, and
    the pose is correct when strictly more members say correct than incorrect. The
    members' own predictions are given as a function, and so is `Utils.translate`,
    which is not part of this model. */
module Ensemble {
  import opened Types

  /** The members' verdicts, in member order. */
  function Collect<M>(models: seq<M>, run: M -> ValidationResult): (r: seq<ValidationResult>)
    ensures |r| == |models| && forall i :: 0 <= i < |models| ==> r[i] == run(models[i])
  {
    seq(|models|, i requires 0 <= i < |models| => run(models[i]))
  }

  /** How many verdicts say correct. */
  function CorrectCount(results: seq<ValidationResult>): nat
    decreases |results|
  {
    if results == [] then 0
    else CorrectCount(results[..|results| - 1]) + (if results[|results| - 1].isCorrect then 1 else 0)
  }

  /** How many verdicts say incorrect. */
  function IncorrectCount(results: seq<ValidationResult>): nat
    decreases |results|
  {
    if results == [] then 0
    else IncorrectCount(results[..|results| - 1]) + (if results[|results| - 1].isCorrect then 0 else 1)
  }

  /** The translation key of the ensemble's verdict. */
  function Verdict(results: seq<ValidationResult>): string {
    if CorrectCount(results) > IncorrectCount(results) then "correct" else "incorrect"
  }

  class EnsembleModel<M> {
    const models: seq<M>

    constructor (models: seq<M>)
      ensures this.models == models
    {
      this.models := models;
    }

    /** `predict`: runs the members in order, collecting their verdicts, counts the
        correct and incorrect ones, and translates the majority key. */
    method Predict(run: M -> ValidationResult, translate: string -> ValidationResult) returns (r: ValidationResult)
      ensures r == translate(Verdict(Collect(models, run)))
    {
      var results: seq<ValidationResult> := [];
      for i := 0 to |models|
        invariant results == Collect(models[..i], run)
      {
        results := results + [run(models[i])];
      }
      assert models[..|models|] == models;
      var isCorrectCount := 0;
      var isIncorrectCount := 0;
      for i := 0 to |results|
        invariant isCorrectCount == CorrectCount(results[..i])
        invariant isIncorrectCount == IncorrectCount(results[..i])
      {
        assert results[..i + 1][..i] == results[..i];
        if results[i].isCorrect {
          isCorrectCount := isCorrectCount + 1;
        } else {
          isIncorrectCount := isIncorrectCount + 1;
        }
      }
      assert results[..|results|] == results;
      var isCorrect := isCorrectCount > isIncorrectCount;
      r := translate(if isCorrect then "correct" else "incorrect");
    }
  }

  // ---------------------------------------------------------------------------
  // Properties

  /** Every verdict is counted once, as correct or as incorrect, and the correct count
      is the number of members saying correct. */
  lemma {:induction false} CountsPartition(results: seq<ValidationResult>)
    ensures CorrectCount(results) + IncorrectCount(results) == |results|
    ensures CorrectCount(results) == |set i | 0 <= i < |results| && results[i].isCorrect|
    decreases |results|
  {
    if results != [] {
      var n := |results| - 1;
      var init := results[..n];
      CountsPartition(init);
      var before := set i | 0 <= i < n && init[i].isCorrect;
      var after := set i | 0 <= i < |results| && results[i].isCorrect;
      if results[n].isCorrect {
        assert after == before + {n};
      } else {
        assert after == before;
      }
    }
  }

  /** The verdict is "correct" exactly when more than half of the members say correct,
      so an even split and an empty ensemble give "incorrect". */
  lemma VerdictIsStrictMajority(results: seq<ValidationResult>)
    ensures Verdict(results) == "correct" <==> 2 * CorrectCount(results) > |results|
    ensures Verdict(results) == "correct" || Verdict(results) == "incorrect"
    ensures 2 * CorrectCount(results) == |results| ==> Verdict(results) == "incorrect"
    ensures results == [] ==> Verdict(results) == "incorrect"
  {
    CountsPartition(results);
  }

  /** The verdict depends only on which members say correct, not on their order. */
  lemma VerdictOrderIndependent(a: seq<ValidationResult>, b: seq<ValidationResult>)
    requires multiset(a) == multiset(b)
    ensures Verdict(a) == Verdict(b)
  {
    CountsPartition(a);
    CountsPartition(b);
    assert |a| == |multiset(a)| == |multiset(b)| == |b|;
    CorrectCountOfMultiset(a, b);
  }

  /** Two sequences holding the same verdicts have the same correct count. */
  lemma {:induction false} CorrectCountOfMultiset(a: seq<ValidationResult>, b: seq<ValidationResult>)
    requires multiset(a) == multiset(b)
    ensures CorrectCount(a) == CorrectCount(b)
    decreases |a|
  {
    if a == [] {
      assert |b| == |multiset(b)| == 0;
    } else {
      var n := |a| - 1;
      assert a[n] in multiset(a);
      var k :| 0 <= k < |b| && b[k] == a[n];
      var rest := b[..k] + b[k + 1..];
      RemoveFromBoth(a, b, k);
      CorrectCountOfMultiset(a[..n], rest);
      CorrectCountRemove(b, k);
    }
  }

  lemma RemoveFromBoth(a: seq<ValidationResult>, b: seq<ValidationResult>, k: int)
    requires multiset(a) == multiset(b) && a != [] && 0 <= k < |b| && b[k] == a[|a| - 1]
    ensures multiset(a[..|a| - 1]) == multiset(b[..k] + b[k + 1..])
  {
    var n := |a| - 1;
    assert a == a[..n] + [a[n]];
    assert b == b[..k] + [b[k]] + b[k + 1..];
    assert multiset(a) == multiset(a[..n]) + multiset{a[n]};
    assert multiset(b) == multiset(b[..k] + b[k + 1..]) + multiset{b[k]};
    assert multiset(a[..n]) == multiset(a) - multiset{a[n]};
    assert multiset(b[..k] + b[k + 1..]) == multiset(b) - multiset{b[k]};
  }

  /** Removing entry `k` removes its contribution to the correct count. */
  lemma CorrectCountRemove(b: seq<ValidationResult>, k: int)
    requires 0 <= k < |b|
    ensures CorrectCount(b) == CorrectCount(b[..k] + b[k + 1..]) + (if b[k].isCorrect then 1 else 0)
  {
    var pre := b[..k];
    var post := b[k + 1..];
    var single := [b[k]] + post;
    assert b == pre + single;
    CorrectCountSplit(pre, single);
    CorrectCountSplit([b[k]], post);
    CorrectCountSplit(pre, post);
    CorrectCountSingle(b[k]);
  }

  lemma CorrectCountSingle(r: ValidationResult)
    ensures CorrectCount([r]) == if r.isCorrect then 1 else 0
  {
    assert [r][..0] == [];
  }

  lemma {:induction false} CorrectCountSplit(a: seq<ValidationResult>, b: seq<ValidationResult>)
    ensures CorrectCount(a + b) == CorrectCount(a) + CorrectCount(b)
    decreases |b|
  {
    if b == [] {
      assert a + b == a;
    } else {
      var n := |b| - 1;
      assert (a + b)[..|a + b| - 1] == a + b[..n];
      CorrectCountSplit(a, b[..n]);
    }
  }

  /** A unanimous ensemble of at least one member follows its members. */
  lemma {:induction false} UnanimousVerdict(results: seq<ValidationResult>, value: bool)
    requires forall i :: 0 <= i < |results| ==> results[i].isCorrect == value
    ensures CorrectCount(results) == if value then |results| else 0
    ensures results != [] ==> Verdict(results) == if value then "correct" else "incorrect"
    decreases |results|
  {
    CountsPartition(results);
    if results != [] {
      UnanimousVerdict(results[..|results| - 1], value);
    }
  }
}
