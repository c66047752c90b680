/** The k-nearest-neighbours classifier object and the model that loads it once. */
module Knn {
  import opened Wrappers
  import opened MathOps
  import opened Labels
  import opened KnnNeighbors
  import opened KnnVote

  const SameLengthError: string := "X and y must have the same length"

  class KNNClassifier {
    var X: seq<seq<real>>
    var y: seq<int>
    const classes: seq<string>
    const k: int
    const p: real
    const weights: WeightStrategy

    /** Every training vector has a label. */
    ghost predicate Valid()
      reads this
    {
      |X| == |y|
    }

    constructor (classes: seq<string>, k: int, p: real, weights: WeightStrategy)
      ensures Valid() && X == [] && y == []
      ensures this.classes == classes && this.k == k && this.p == p && this.weights == weights
    {
      this.classes := classes;
      this.k := k;
      this.p := p;
      this.weights := weights;
      X := [];
      y := [];
    }

    /** `fit`: stores the training set, or throws when the lengths differ and
        leaves the old one in place. */
    method Fit(X: seq<seq<real>>, y: seq<int>) returns (o: Outcome<string>)
      requires Valid()
      modifies this
      ensures Valid()
      ensures o == if |X| == |y| then Pass else Fail(SameLengthError)
      ensures o.Pass? ==> this.X == X && this.y == y
      ensures o.Fail? ==> this.X == old(this.X) && this.y == old(this.y)
    {
      if |X| != |y| {
        return Fail(SameLengthError);
      }
      this.X := X;
      this.y := y;
      o := Pass;
    }

    /** `vote`: the loop over the neighbours, updating the tallies and the winner in place. */
    method Vote(neighbors: seq<Neighbor>) returns (winner: int)
      ensures winner == Tallies(neighbors, weights).winnerLabel
    {
      var votes: map<int, Weight> := map[];
      var winnerLabel := 0;
      var winnerVotes := Fin(0.0);
      for i := 0 to |neighbors|
        invariant Tally(votes, winnerLabel, winnerVotes) == Tallies(neighbors[..i], weights)
      {
        assert neighbors[..i + 1][..i] == neighbors[..i];
        votes, winnerLabel, winnerVotes := VoteStep(votes, winnerLabel, winnerVotes, neighbors[i]);
      }
      assert neighbors[..|neighbors|] == neighbors;
      winner := winnerLabel;
    }

    /** One iteration of the vote loop: add the neighbour's weight to its label's
        tally and take the lead on a strictly larger tally. */
    method VoteStep(votes: map<int, Weight>, winnerLabel: int, winnerVotes: Weight, n: Neighbor)
      returns (votes': map<int, Weight>, winnerLabel': int, winnerVotes': Weight)
      ensures Tally(votes', winnerLabel', winnerVotes') == Step(Tally(votes, winnerLabel, winnerVotes), n, weights)
    {
      var weight := Fin(1.0);
      if weights == Distance {
        weight := if n.distance == 0.0 then Inf else Fin(1.0 / n.distance);
      }
      votes' := votes;
      if n.labelId !in votes' {
        votes' := votes'[n.labelId := Fin(0.0)];
      }
      assert weight == WeightOf(n, weights);
      assert votes'[n.labelId] == Current(Tally(votes, winnerLabel, winnerVotes), n.labelId);
      votes' := votes'[n.labelId := Plus(votes'[n.labelId], weight)];
      assert votes' == votes[n.labelId := votes'[n.labelId]];
      winnerLabel', winnerVotes' := winnerLabel, winnerVotes;
      if Greater(votes'[n.labelId], winnerVotes) {
        winnerLabel' := n.labelId;
        winnerVotes' := votes'[n.labelId];
      }
    }

    /** `predict`: neighbours, vote, class name, translation. A training vector of
        the wrong length throws from the distance. */
    method Predict(m: Ops, input: seq<real>) returns (r: Result<Option<string>, string>)
      requires Valid() && p != 0.0
      ensures r.Failure? <==> exists i :: 0 <= i < |X| && |X[i]| != |input|
      ensures r.Success? ==> Neighbors(m, p, k, input, X, y).Success?
      ensures r.Success? ==>
        r.value == TranslateLabel(ClassAt(classes, Tallies(Neighbors(m, p, k, input, X, y).value, weights).winnerLabel))
    {
      NeighborsSpec(m, p, k, input, X, y);
      var neighbors := Neighbors(m, p, k, input, X, y);
      if neighbors.Failure? {
        return Failure(neighbors.error);
      }
      var prediction := Vote(neighbors.value);
      var name := ClassAt(classes, prediction);
      r := Success(TranslateLabel(name));
    }
  }

  /** The content of a KNN descriptor file. */
  datatype KnnDescriptor = KnnDescriptor(
    classes: seq<string>, nNeighbors: int, p: real, weights: WeightStrategy,
    X: seq<seq<real>>, y: seq<int>)

  class KnnModel {
    var model: KNNClassifier?

    constructor ()
      ensures model == null
    {
      model := null;
    }

    /** `load`: builds and fits the classifier only when there is none yet. The
        classifier is stored before `fit` runs, so a failing fit leaves an empty
        classifier in place and later loads keep it. */
    method Load(d: KnnDescriptor) returns (o: Outcome<string>)
      modifies this
      ensures old(model) != null ==> model == old(model) && o == Pass
      ensures old(model) == null ==>
        && model != null && fresh(model) && model.Valid()
        && model.classes == d.classes && model.k == d.nNeighbors
        && model.p == d.p && model.weights == d.weights
        && (if |d.X| == |d.y| then o == Pass && model.X == d.X && model.y == d.y
            else o == Fail(SameLengthError) && model.X == [] && model.y == [])
    {
      if model != null {
        return Pass;
      }
      var c := new KNNClassifier(d.classes, d.nNeighbors, d.p, d.weights);
      model := c;
      o := c.Fit(d.X, d.y);
    }
  }

  // ---------------------------------------------------------------------------
  // Properties

  /** With distance weights and `k >= 1`, a training vector identical to the input
      (distance 0) decides the vote: the winner is the label of such a vector. */
  lemma ExactMatchDecides(m: Ops, p: real, k: int, input: seq<real>, X: seq<seq<real>>, y: seq<int>, i: int)
    requires PowLaws(m) && p != 0.0 && |X| == |y| && k >= 1
    requires forall j :: 0 <= j < |X| ==> |X[j]| == |input|
    requires 0 <= i < |X| && MinkowskiDistance(m, p, input, X[i]).value == 0.0
    ensures Neighbors(m, p, k, input, X, y).Success?
    ensures exists j :: 0 <= j < |X| && MinkowskiDistance(m, p, input, X[j]).value == 0.0 &&
                        Tallies(Neighbors(m, p, k, input, X, y).value, Distance).winnerLabel == y[j]
  {
    ExactMatchComesFirst(m, p, k, input, X, y, i);
    CandidatesSpec(m, p, input, X, y);
    var ns := Neighbors(m, p, k, input, X, y).value;
    ExactMatchWins(ns);
    var c := Candidates(m, p, input, X, y).value;
    var s := Sort(c);
    assert ns == Take(s, k);
    assert ns[0] == s[0];
    assert s[0] in multiset(c);
    var j :| 0 <= j < |c| && c[j] == s[0];
  }
}
