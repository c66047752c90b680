/** The classifier registry: one fixed table per exercise mapping display names to
    shared classifier instances, the sorted list of its names, and lookup by name. */
module ModelRegistry {
  import opened Wrappers
  import opened Types
  import opened Records
  import Ensemble
  import Hybrid

  /** The leaf classifiers. The ONNX-backed classes are identified by their model
      file (and, for the network, its labels); their code is not part of this model. */
  datatype Engine =
    | EmpiricalEngine
    | Keras(path: string, labels: seq<string>)
    | Sklearn(path: string)

  /** A registry entry: a leaf classifier, an ensemble of leaves, or a hybrid. */
  datatype Classifier =
    | Single(engine: Engine)
    | EnsembleOf(members: seq<Engine>)
    | HybridOf(hybrid: Hybrid.HybridModel<Engine>)

  const EmpiricalModel: Engine := EmpiricalEngine
  const Fcnn: Engine := Keras("/models/high-plank/fcnn/full_body_model.onnx", ["correct", "incorrect"])
  const Knn: Engine := Sklearn("/models/high-plank/knn/full_body_model.onnx")
  const RandomForest: Engine := Sklearn("/models/high-plank/random-forest/full_body_model.onnx")
  const LogisticRegression: Engine := Sklearn("/models/high-plank/logistic-regression/full_body_model.onnx")
  const Svm: Engine := Sklearn("/models/high-plank/svm/full_body_model.onnx")

  /** The table for the exercise, in its declaration order. */
  function Entries(e: Exercise): seq<(string, Classifier)> {
    match e
    case HighPlank => [
      ("Emp\U{ED}rico", Single(EmpiricalModel)),
      ("Ensenble", EnsembleOf([Fcnn, Knn, RandomForest, LogisticRegression, Svm])),
      ("FCNN", Single(Fcnn)),
      ("H\U{ED}brido", HybridOf(Hybrid.HybridModel(RandomForest, EmpiricalModel))),
      ("KNN", Single(Knn)),
      ("Random Forest", Single(RandomForest)),
      ("Regress\U{E3}o Log\U{ED}stica", Single(LogisticRegression)),
      ("SVM", Single(Svm))]
  }

  // ---------------------------------------------------------------------------
  // Sorting names as `Array.prototype.sort` does by default: by character codes

  /** `a` sorts strictly before `b`. */
  predicate Below(a: string, b: string)
    decreases |a|
  {
    if a == [] then b != []
    else if b == [] then false
    else if a[0] != b[0] then a[0] < b[0]
    else Below(a[1..], b[1..])
  }

  predicate SortedNames(s: seq<string>) {
    forall i, j :: 0 <= i < j < |s| ==> !Below(s[j], s[i])
  }

  /** Insert `x` before the first name that sorts after it. */
  function InsertName(s: seq<string>, x: string): (r: seq<string>)
    ensures multiset(r) == multiset(s) + multiset{x}
    ensures |r| == |s| + 1
  {
    if s == [] then [x]
    else if Below(x, s[0]) then [x] + s
    else
      assert s == [s[0]] + s[1..];
      [s[0]] + InsertName(s[1..], x)
  }

  function SortNames(s: seq<string>): (r: seq<string>)
    ensures multiset(r) == multiset(s)
  {
    if s == [] then []
    else
      assert s == s[..|s| - 1] + [s[|s| - 1]];
      InsertName(SortNames(s[..|s| - 1]), s[|s| - 1])
  }

  lemma {:induction false} BelowOrder(a: string, b: string, c: string)
    ensures !Below(a, a)
    ensures Below(a, b) ==> !Below(b, a)
    ensures !Below(a, b) ==> a == b || Below(b, a)
    ensures !Below(b, a) && !Below(c, b) ==> !Below(c, a)
    decreases |a|
  {
    if a != [] && b != [] && c != [] {
      BelowOrder(a[1..], b[1..], c[1..]);
    }
    if a != [] && b != [] {
      BelowOrder(a[1..], b[1..], a[1..]);
      if a[0] == b[0] && a[1..] == b[1..] {
        assert a == [a[0]] + a[1..] && b == [b[0]] + b[1..];
      }
    }
    if a != [] {
      BelowOrder(a[1..], a[1..], a[1..]);
    }
  }

  lemma {:induction false} InsertNameSorted(s: seq<string>, x: string)
    requires SortedNames(s)
    ensures SortedNames(InsertName(s, x))
    decreases |s|
  {
    if s == [] {
    } else if Below(x, s[0]) {
      forall k | 0 <= k < |s| ensures !Below(s[k], x) {
        BelowOrder(x, s[0], s[k]);
      }
      SortedCons(x, s);
    } else {
      var tail := s[1..];
      assert SortedNames(tail) by {
        forall i, j | 0 <= i < j < |tail| ensures !Below(tail[j], tail[i]) {
          assert tail[i] == s[i + 1] && tail[j] == s[j + 1];
        }
      }
      forall k | 0 <= k < |tail| ensures !Below(tail[k], s[0]) {
        assert tail[k] == s[k + 1];
      }
      InsertNameSorted(tail, x);
      InsertNameAbove(tail, x, s[0]);
      SortedCons(s[0], InsertName(tail, x));
    }
  }

  /** A name that no later name sorts below can head a sorted list. */
  lemma SortedCons(h: string, t: seq<string>)
    requires SortedNames(t) && forall k :: 0 <= k < |t| ==> !Below(t[k], h)
    ensures SortedNames([h] + t)
  {
    var r := [h] + t;
    forall i, j | 0 <= i < j < |r| ensures !Below(r[j], r[i]) {
      if i == 0 {
        assert r[j] == t[j - 1];
      } else {
        assert r[i] == t[i - 1] && r[j] == t[j - 1];
      }
    }
  }

  /** Inserting a name not below `b` into names not below `b` keeps them all so. */
  lemma InsertNameAbove(s: seq<string>, x: string, b: string)
    requires forall k :: 0 <= k < |s| ==> !Below(s[k], b)
    requires !Below(x, b)
    ensures forall k :: 0 <= k < |InsertName(s, x)| ==> !Below(InsertName(s, x)[k], b)
  {
    var r := InsertName(s, x);
    forall k | 0 <= k < |r| ensures !Below(r[k], b) {
      assert r[k] in multiset(r);
      if r[k] != x {
        assert r[k] in multiset(s);
        var i :| 0 <= i < |s| && s[i] == r[k];
      }
    }
  }

  /** The sorted names: in order, and the same names as the input. */
  lemma {:induction false} SortNamesSpec(s: seq<string>)
    ensures SortedNames(SortNames(s)) && multiset(SortNames(s)) == multiset(s)
    decreases |s|
  {
    if s != [] {
      SortNamesSpec(s[..|s| - 1]);
      InsertNameSorted(SortNames(s[..|s| - 1]), s[|s| - 1]);
    }
  }

  /** Sorting a list that is already in order leaves it as it is. */
  lemma {:induction false} SortSortedNames(s: seq<string>)
    requires SortedNames(s)
    ensures SortNames(s) == s
    decreases |s|
  {
    if s != [] {
      var n := |s| - 1;
      var init := s[..n];
      assert SortedNames(init);
      SortSortedNames(init);
      InsertAtEnd(init, s[n]);
      assert init + [s[n]] == s;
    }
  }

  lemma {:induction false} InsertAtEnd(s: seq<string>, x: string)
    requires forall i :: 0 <= i < |s| ==> !Below(x, s[i])
    ensures InsertName(s, x) == s + [x]
    decreases |s|
  {
    if s != [] {
      InsertAtEnd(s[1..], x);
      assert [s[0]] + (s[1..] + [x]) == s + [x];
    }
  }

  // ---------------------------------------------------------------------------
  // The two static methods

  /** `getExerciseModelNames`: the table's names, sorted. */
  function GetExerciseModelNames(e: Exercise): seq<string> {
    SortNames(Keys(Entries(e)))
  }

  /** `getModel`: the registered instance, or `undefined` (None) for an unknown name. */
  function GetModel(e: Exercise, name: string): Option<Classifier> {
    Lookup(Entries(e), name)
  }

  /** What an entry says about a pose, given each leaf's verdict `run` and the
      translation of the ensemble's key. */
  function Evaluate(c: Classifier, run: Engine -> ValidationResult, translate: string -> ValidationResult): ValidationResult {
    match c
    case Single(engine) => run(engine)
    case EnsembleOf(members) => translate(Ensemble.Verdict(Ensemble.Collect(members, run)))
    case HybridOf(h) => Hybrid.Predict(h, run)
  }

  // ---------------------------------------------------------------------------
  // Properties

  lemma HighPlankNamesAreSorted()
    ensures SortedNames(Keys(Entries(HighPlank)))
  {
    var k := Keys(Entries(HighPlank));
    assert Below(k[0], k[1]) && Below(k[1], k[2]) && Below(k[2], k[3]) && Below(k[3], k[4]);
    assert Below(k[4], k[5]) && Below(k[5], k[6]) && Below(k[6], k[7]);
    forall i, j | 0 <= i < j < |k| ensures !Below(k[j], k[i]) {
      ChainBelow(k, i, j);
      BelowOrder(k[i], k[j], k[i]);
    }
  }

  lemma {:induction false} ChainBelow(k: seq<string>, i: int, j: int)
    requires 0 <= i < j < |k| && forall t :: 0 <= t < |k| - 1 ==> Below(k[t], k[t + 1])
    ensures Below(k[i], k[j])
    decreases j - i
  {
    if j > i + 1 {
      ChainBelow(k, i, j - 1);
      BelowTransitive(k[i], k[j - 1], k[j]);
    }
  }

  lemma {:induction false} BelowTransitive(a: string, b: string, c: string)
    requires Below(a, b) && Below(b, c)
    ensures Below(a, c)
    decreases |a|
  {
    if a != [] && a[0] == b[0] && b[0] == c[0] {
      BelowTransitive(a[1..], b[1..], c[1..]);
    }
  }

  /** The names of the high-plank table, sorted: the table is declared in order. */
  lemma HighPlankNames()
    ensures GetExerciseModelNames(HighPlank) == [
      "Emp\U{ED}rico", "Ensenble", "FCNN", "H\U{ED}brido", "KNN",
      "Random Forest", "Regress\U{E3}o Log\U{ED}stica", "SVM"]
  {
    HighPlankNamesAreSorted();
    SortSortedNames(Keys(Entries(HighPlank)));
    HighPlankKeys();
  }

  lemma HighPlankKeys()
    ensures Keys(Entries(HighPlank)) == [
      "Emp\U{ED}rico", "Ensenble", "FCNN", "H\U{ED}brido", "KNN",
      "Random Forest", "Regress\U{E3}o Log\U{ED}stica", "SVM"]
  {
    var k := Keys(Entries(HighPlank));
    assert |k| == 8;
    assert k[0] == "Emp\U{ED}rico" && k[1] == "Ensenble" && k[2] == "FCNN" && k[3] == "H\U{ED}brido";
    assert k[4] == "KNN" && k[5] == "Random Forest" && k[6] == "Regress\U{E3}o Log\U{ED}stica" && k[7] == "SVM";
  }

  /** No two entries of the table share a name. */
  lemma HighPlankKeysDistinct()
    ensures forall i, j :: 0 <= i < j < |Entries(HighPlank)| ==> Entries(HighPlank)[i].0 != Entries(HighPlank)[j].0
  {
    var k := Keys(Entries(HighPlank));
    assert Below(k[0], k[1]) && Below(k[1], k[2]) && Below(k[2], k[3]) && Below(k[3], k[4]);
    assert Below(k[4], k[5]) && Below(k[5], k[6]) && Below(k[6], k[7]);
    forall i, j | 0 <= i < j < |k| ensures k[i] != k[j] {
      ChainBelow(k, i, j);
      BelowOrder(k[i], k[j], k[i]);
    }
  }

  /** Every name of the table finds its own entry. */
  lemma GetModelFindsEntry(i: int)
    requires 0 <= i < |Entries(HighPlank)|
    ensures GetModel(HighPlank, Entries(HighPlank)[i].0) == Some(Entries(HighPlank)[i].1)
  {
    HighPlankKeysDistinct();
    LookupFirst(Entries(HighPlank), i);
  }

  /** The entries by name. */
  lemma RegisteredEntries()
    ensures GetModel(HighPlank, "Emp\U{ED}rico") == Some(Single(EmpiricalModel))
    ensures GetModel(HighPlank, "Ensenble") == Some(EnsembleOf([Fcnn, Knn, RandomForest, LogisticRegression, Svm]))
    ensures GetModel(HighPlank, "FCNN") == Some(Single(Fcnn))
    ensures GetModel(HighPlank, "H\U{ED}brido") == Some(HybridOf(Hybrid.HybridModel(RandomForest, EmpiricalModel)))
    ensures GetModel(HighPlank, "KNN") == Some(Single(Knn))
    ensures GetModel(HighPlank, "Random Forest") == Some(Single(RandomForest))
    ensures GetModel(HighPlank, "Regress\U{E3}o Log\U{ED}stica") == Some(Single(LogisticRegression))
    ensures GetModel(HighPlank, "SVM") == Some(Single(Svm))
  {
    GetModelFindsEntry(0);
    GetModelFindsEntry(1);
    GetModelFindsEntry(2);
    GetModelFindsEntry(3);
    GetModelFindsEntry(4);
    GetModelFindsEntry(5);
    GetModelFindsEntry(6);
    GetModelFindsEntry(7);
  }

  /** The composite entries share the instances listed on their own: the ensemble
      runs the network, KNN, random forest, logistic regression and SVM in that
      order, and the hybrid uses the random forest with the empirical fallback. */
  lemma CompositesShareInstances()
    ensures exists fcnn, knn, forest, logistic, svm ::
      && GetModel(HighPlank, "FCNN") == Some(Single(fcnn))
      && GetModel(HighPlank, "KNN") == Some(Single(knn))
      && GetModel(HighPlank, "Random Forest") == Some(Single(forest))
      && GetModel(HighPlank, "Regress\U{E3}o Log\U{ED}stica") == Some(Single(logistic))
      && GetModel(HighPlank, "SVM") == Some(Single(svm))
      && GetModel(HighPlank, "Ensenble") == Some(EnsembleOf([fcnn, knn, forest, logistic, svm]))
    ensures exists forest, empirical ::
      && GetModel(HighPlank, "Random Forest") == Some(Single(forest))
      && GetModel(HighPlank, "Emp\U{ED}rico") == Some(Single(empirical))
      && GetModel(HighPlank, "H\U{ED}brido") == Some(HybridOf(Hybrid.HybridModel(forest, empirical)))
  {
    RegisteredEntries();
    assert GetModel(HighPlank, "Ensenble") == Some(EnsembleOf([Fcnn, Knn, RandomForest, LogisticRegression, Svm]));
    assert GetModel(HighPlank, "H\U{ED}brido") == Some(HybridOf(Hybrid.HybridModel(RandomForest, EmpiricalModel)));
  }

  /** An unknown name yields `undefined`; each listed name yields its entry. */
  lemma GetModelSpec(name: string)
    ensures GetModel(HighPlank, name).Some? <==> name in GetExerciseModelNames(HighPlank)
  {
    HighPlankNamesAreSorted();
    SortSortedNames(Keys(Entries(HighPlank)));
  }

  /** The hybrid entry is correct exactly when the random forest is. */
  lemma HybridEntryFollowsRandomForest(run: Engine -> ValidationResult, translate: string -> ValidationResult)
    ensures forall c :: GetModel(HighPlank, "H\U{ED}brido") == Some(c) ==>
      Evaluate(c, run, translate).isCorrect == run(RandomForest).isCorrect
  {
    GetModelFindsEntry(3);
    Hybrid.SelectKeepsPrimaryVerdict(run(RandomForest), run(EmpiricalModel));
  }
}
