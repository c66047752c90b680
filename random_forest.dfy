/** The random-forest classifier: each decision tree is walked from its root to a
    leaf, the leaf's class distribution gives the tree's vote, and the class with
    the most votes (the first one on a tie) is the prediction. */
module RandomForest {
  import opened Wrappers
  import opened ArgMax
  import opened Labels
  import opened Types

  /** A fitted tree in array form: node `i` is a leaf when `childrenLeft[i] == -1`;
      otherwise it tests `x[feature[i]] <= threshold[i]`. */
  datatype Tree = Tree(
    childrenLeft: seq<int>, childrenRight: seq<int>,
    feature: seq<int>, threshold: seq<real>, value: seq<seq<real>>)

  /** All arrays have one entry per node, node 0 exists, and the children of an
      inner node come after it, as a fitted tree stores them. */
  ghost predicate WellFormed(t: Tree) {
    && |t.childrenLeft| > 0
    && |t.childrenRight| == |t.childrenLeft|
    && |t.feature| == |t.childrenLeft|
    && |t.threshold| == |t.childrenLeft|
    && |t.value| == |t.childrenLeft|
    && forall i :: 0 <= i < |t.childrenLeft| && t.childrenLeft[i] != -1 ==>
         && i < t.childrenLeft[i] < |t.childrenLeft|
         && i < t.childrenRight[i] < |t.childrenLeft|
  }

  predicate IsLeaf(t: Tree, node: int)
    requires 0 <= node < |t.childrenLeft|
  {
    t.childrenLeft[node] == -1
  }

  /** The test at an inner node. A feature index outside `x` reads `undefined`, and
      `undefined <= threshold` is false, so the walk goes right. */
  predicate GoesLeft(t: Tree, x: seq<real>, node: int)
    requires WellFormed(t) && 0 <= node < |t.childrenLeft|
  {
    0 <= t.feature[node] < |x| && x[t.feature[node]] <= t.threshold[node]
  }

  /** The leaf reached from `node`. */
  function LeafFrom(t: Tree, x: seq<real>, node: int): (leaf: int)
    requires WellFormed(t) && 0 <= node < |t.childrenLeft|
    ensures node <= leaf < |t.childrenLeft| && IsLeaf(t, leaf)
    decreases |t.childrenLeft| - node
  {
    if IsLeaf(t, node) then node
    else if GoesLeft(t, x, node) then LeafFrom(t, x, t.childrenLeft[node])
    else LeafFrom(t, x, t.childrenRight[node])
  }

  function Leaf(t: Tree, x: seq<real>): (leaf: int)
    requires WellFormed(t)
    ensures 0 <= leaf < |t.childrenLeft| && IsLeaf(t, leaf)
  {
    LeafFrom(t, x, 0)
  }

  /** The class a tree votes for: the first maximum of its leaf distribution (-1 for
      an empty distribution). */
  function TreeClass(t: Tree, x: seq<real>): int
    requires WellFormed(t)
  {
    FirstMaxIndex(t.value[Leaf(t, x)])
  }

  /** The ballot after some trees have voted. `votes[predicted]++` on an index past
      the end of the array grows it with `undefined` and `NaN` entries, after which
      `Math.max` is `NaN` and no class is found: that is `overflow`. An index of -1
      names a property that is not an array element and is ignored by `Math.max`. */
  datatype Ballot = Ballot(votes: seq<int>, overflow: bool)

  function Cast(b: Ballot, c: int): Ballot {
    if 0 <= c < |b.votes| then b.(votes := b.votes[c := b.votes[c] + 1])
    else if c >= |b.votes| then b.(overflow := true)
    else b
  }

  ghost predicate AllWellFormed(forest: seq<Tree>) {
    forall i :: 0 <= i < |forest| ==> WellFormed(forest[i])
  }

  function Votes(forest: seq<Tree>, x: seq<real>, numClasses: nat): (b: Ballot)
    requires AllWellFormed(forest)
    ensures |b.votes| == numClasses
    decreases |forest|
  {
    if forest == [] then Ballot(seq(numClasses, _ => 0), false)
    else
      var n := |forest| - 1;
      Cast(Votes(forest[..n], x, numClasses), TreeClass(forest[n], x))
  }

  /** The forest's answer: the translated name of the class with the most votes. */
  function ForestPrediction(forest: seq<Tree>, classes: seq<string>, x: seq<real>): Option<string>
    requires AllWellFormed(forest)
  {
    var b := Votes(forest, x, |classes|);
    if b.overflow then None
    else TranslateLabel(ClassAt(classes, FirstMaxIndex(AsReals(b.votes))))
  }

  /** The number of trees that vote for class `c`. */
  function CountVotes(forest: seq<Tree>, x: seq<real>, c: int): nat
    requires AllWellFormed(forest)
    decreases |forest|
  {
    if forest == [] then 0
    else
      var n := |forest| - 1;
      CountVotes(forest[..n], x, c) + (if TreeClass(forest[n], x) == c then 1 else 0)
  }

  class RandomForestClassifier {
    const forest: seq<Tree>
    const classes: seq<string>

    constructor (forest: seq<Tree>, classes: seq<string>)
      ensures this.forest == forest && this.classes == classes
    {
      this.forest := forest;
      this.classes := classes;
    }

    /** `predictTree`: the `while` loop from the root down to a leaf. */
    method PredictTree(tree: Tree, x: seq<real>) returns (probs: seq<real>)
      requires WellFormed(tree)
      ensures probs == tree.value[Leaf(tree, x)]
    {
      var node := 0;
      while tree.childrenLeft[node] != -1
        invariant 0 <= node < |tree.childrenLeft|
        invariant LeafFrom(tree, x, node) == Leaf(tree, x)
        decreases |tree.childrenLeft| - node
      {
        if 0 <= tree.feature[node] < |x| && x[tree.feature[node]] <= tree.threshold[node] {
          node := tree.childrenLeft[node];
        } else {
          node := tree.childrenRight[node];
        }
      }
      probs := tree.value[node];
    }

    /** `predict`: one vote per tree into a fresh array, then the arg-max class. */
    method Predict(x: seq<real>) returns (r: Option<string>)
      requires AllWellFormed(forest)
      ensures r == ForestPrediction(forest, classes, x)
    {
      var votes := new int[|classes|](_ => 0);
      var overflow := false;
      assert votes[..] == seq(|classes|, _ => 0);
      for t := 0 to |forest|
        invariant votes.Length == |classes|
        invariant Ballot(votes[..], overflow) == Votes(forest[..t], x, |classes|)
      {
        assert forest[..t + 1][..t] == forest[..t];
        assert Votes(forest[..t + 1], x, |classes|) == Cast(Ballot(votes[..], overflow), TreeClass(forest[t], x));
        var probs := PredictTree(forest[t], x);
        overflow := CastVote(votes, overflow, FirstMaxIndex(probs));
      }
      assert forest[..|forest|] == forest;
      if overflow {
        return None;
      }
      var prediction := FirstMaxIndex(AsReals(votes[..]));
      r := TranslateLabel(ClassAt(classes, prediction));
    }
  }

  /** `votes[predicted]++` on the vote array. */
  method CastVote(votes: array<int>, overflow: bool, predicted: int) returns (overflow': bool)
    modifies votes
    ensures Ballot(votes[..], overflow') == Cast(Ballot(old(votes[..]), overflow), predicted)
  {
    overflow' := overflow;
    if 0 <= predicted < votes.Length {
      votes[predicted] := votes[predicted] + 1;
    } else if predicted >= votes.Length {
      overflow' := true;
    }
  }

  /** The content of a random-forest descriptor file that the model keeps. */
  datatype ForestDescriptor = ForestDescriptor(forest: seq<Tree>, classes: seq<string>, points: seq<LandmarkKey>)

  class RandomForestModel {
    var model: RandomForestClassifier?
    var points: seq<LandmarkKey>

    constructor ()
      ensures model == null && points == []
    {
      model := null;
      points := [];
    }

    /** `load`: builds the classifier and records the feature points only when
        there is no classifier yet. */
    method Load(d: ForestDescriptor)
      modifies this
      ensures old(model) != null ==> model == old(model) && points == old(points)
      ensures old(model) == null ==>
        model != null && fresh(model) && model.forest == d.forest &&
        model.classes == d.classes && points == d.points
    {
      if model == null {
        points := d.points;
        model := new RandomForestClassifier(d.forest, d.classes);
      }
    }
  }

  // ---------------------------------------------------------------------------
  // Properties

  /** The walk takes the left child exactly when the feature it reads is at most the
      threshold, and stops at the first leaf. */
  lemma WalkStep(t: Tree, x: seq<real>, node: int)
    requires WellFormed(t) && 0 <= node < |t.childrenLeft|
    ensures IsLeaf(t, node) ==> LeafFrom(t, x, node) == node
    ensures !IsLeaf(t, node) && 0 <= t.feature[node] < |x| && x[t.feature[node]] <= t.threshold[node] ==>
      LeafFrom(t, x, node) == LeafFrom(t, x, t.childrenLeft[node])
    ensures !IsLeaf(t, node) && !(0 <= t.feature[node] < |x| && x[t.feature[node]] <= t.threshold[node]) ==>
      LeafFrom(t, x, node) == LeafFrom(t, x, t.childrenRight[node])
  {
  }

  lemma PrefixWellFormed(forest: seq<Tree>, n: nat)
    requires AllWellFormed(forest) && n <= |forest|
    ensures AllWellFormed(forest[..n])
  {
    forall i | 0 <= i < n ensures WellFormed(forest[..n][i]) {
      assert forest[..n][i] == forest[i];
    }
  }

  /** Each recorded vote counts the trees that chose that class. */
  lemma {:induction false} VotesCount(forest: seq<Tree>, x: seq<real>, numClasses: nat)
    requires AllWellFormed(forest)
    ensures forall c :: 0 <= c < numClasses ==> Votes(forest, x, numClasses).votes[c] == CountVotes(forest, x, c)
    decreases |forest|
  {
    if forest != [] {
      var n := |forest| - 1;
      PrefixWellFormed(forest, n);
      VotesCount(forest[..n], x, numClasses);
    }
  }

  /** A vote past the last class overflows the ballot; any other vote keeps the
      overflow flag as it was. */
  lemma CastOverflow(b: Ballot, c: int)
    ensures Cast(b, c).overflow == (b.overflow || c >= |b.votes|)
  {
  }

  /** The ballot overflows exactly when some tree chose a class index past the last class. */
  lemma {:induction false} OverflowIff(forest: seq<Tree>, x: seq<real>, numClasses: nat)
    requires AllWellFormed(forest)
    ensures Votes(forest, x, numClasses).overflow <==>
      exists i :: 0 <= i < |forest| && TreeClass(forest[i], x) >= numClasses
    decreases |forest|
  {
    if forest != [] {
      var n := |forest| - 1;
      var init := forest[..n];
      PrefixWellFormed(forest, n);
      OverflowIff(init, x, numClasses);
      var b := Votes(init, x, numClasses);
      CastOverflow(b, TreeClass(forest[n], x));
      assert Votes(forest, x, numClasses) == Cast(b, TreeClass(forest[n], x));
      if b.overflow {
        var i :| 0 <= i < n && TreeClass(init[i], x) >= numClasses;
        assert init[i] == forest[i];
      } else if TreeClass(forest[n], x) < numClasses {
        forall i | 0 <= i < |forest| ensures TreeClass(forest[i], x) < numClasses {
          if i < n {
            assert init[i] == forest[i];
          }
        }
      }
    }
  }

  /** The leaf `x` reaches has a non-empty distribution no longer than the class list. */
  ghost predicate DistributionFits(t: Tree, x: seq<real>, numClasses: nat)
    requires WellFormed(t)
  {
    0 < |t.value[Leaf(t, x)]| <= numClasses
  }

  /** A tree whose leaf distribution is non-empty and no longer than the class list
      votes for one of the classes. */
  lemma TreeClassInRange(t: Tree, x: seq<real>, numClasses: nat)
    requires WellFormed(t) && DistributionFits(t, x, numClasses)
    ensures 0 <= TreeClass(t, x) < numClasses
  {
    var dist := t.value[Leaf(t, x)];
    assert IsFirstMax(dist, FirstMaxIndex(dist));
  }

  /** A vote for a listed class adds one to the total and does not overflow. */
  lemma CastCounts(b: Ballot, c: int)
    requires 0 <= c < |b.votes|
    ensures Cast(b, c).overflow == b.overflow && |Cast(b, c).votes| == |b.votes|
    ensures Sum(Cast(b, c).votes) == Sum(b.votes) + 1
  {
    SumUpdate(b.votes, c);
  }

  /** When every leaf distribution is non-empty and no longer than the class list,
      no vote is lost or overflows: the vote array has one entry per class and the
      votes add up to the number of trees. */
  lemma {:induction false} VotesSumToTrees(forest: seq<Tree>, x: seq<real>, numClasses: nat)
    requires AllWellFormed(forest)
    requires forall i :: 0 <= i < |forest| ==> DistributionFits(forest[i], x, numClasses)
    ensures !Votes(forest, x, numClasses).overflow
    ensures |Votes(forest, x, numClasses).votes| == numClasses
    ensures Sum(Votes(forest, x, numClasses).votes) == |forest|
    decreases |forest|
  {
    if forest == [] {
      SumZeros(numClasses);
    } else {
      var n := |forest| - 1;
      var init := forest[..n];
      PrefixWellFormed(forest, n);
      forall i | 0 <= i < |init| ensures DistributionFits(init[i], x, numClasses) {
        assert init[i] == forest[i];
      }
      VotesSumToTrees(init, x, numClasses);
      TreeClassInRange(forest[n], x, numClasses);
      var b := Votes(init, x, numClasses);
      CastCounts(b, TreeClass(forest[n], x));
      assert Votes(forest, x, numClasses) == Cast(b, TreeClass(forest[n], x));
    }
  }

  /** The forest's answer is the translated name of the first class with the most
      trees voting for it. */
  lemma PredictionIsMostVotedClass(forest: seq<Tree>, classes: seq<string>, x: seq<real>, c: int)
    requires AllWellFormed(forest)
    requires !Votes(forest, x, |classes|).overflow
    requires 0 <= c < |classes|
    requires forall d :: 0 <= d < |classes| ==> CountVotes(forest, x, d) <= CountVotes(forest, x, c)
    requires forall d :: 0 <= d < c ==> CountVotes(forest, x, d) < CountVotes(forest, x, c)
    ensures ForestPrediction(forest, classes, x) == TranslateLabel(Some(classes[c]))
  {
    VotesCount(forest, x, |classes|);
    var v := AsReals(Votes(forest, x, |classes|).votes);
    FirstMaxUnique(v, c);
  }
}
