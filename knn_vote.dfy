/** The weighted vote of the k-nearest-neighbours classifier. Each neighbour adds
    its weight to its label's tally, and the winner changes only when a tally
    strictly exceeds the best seen so far. Weights live in the reals extended with
    the `Infinity` that `1 / 0` produces. */
module KnnVote {
  import opened KnnNeighbors

  /** A tally or a weight: a finite number or `Infinity`. */
  datatype Weight = Fin(r: real) | Inf

  /** `+` on such numbers: `Infinity` absorbs everything. */
  function Plus(a: Weight, b: Weight): Weight {
    if a.Inf? || b.Inf? then Inf else Fin(a.r + b.r)
  }

  /** `>` on such numbers: `Infinity` is above every finite number and not above itself. */
  predicate Greater(a: Weight, b: Weight) {
    match (a, b)
    case (Inf, Fin(_)) => true
    case (Fin(x), Fin(y)) => x > y
    case _ => false
  }

  datatype WeightStrategy = Uniform | Distance

  /** One neighbour's weight: 1, or `1 / distance` with `Infinity` at distance 0. */
  function WeightOf(n: Neighbor, w: WeightStrategy): Weight {
    match w
    case Uniform => Fin(1.0)
    case Distance => if n.distance == 0.0 then Inf else Fin(1.0 / n.distance)
  }

  /** The state of the vote loop: the tallies and the current winner. */
  datatype Tally = Tally(votes: map<int, Weight>, winnerLabel: int, winnerVotes: Weight)

  /** A label's tally, 0 when it has none yet. */
  function Current(t: Tally, l: int): Weight {
    if l in t.votes then t.votes[l] else Fin(0.0)
  }

  /** One iteration of the vote loop. */
  function Step(t: Tally, n: Neighbor, w: WeightStrategy): Tally {
    var total := Plus(Current(t, n.labelId), WeightOf(n, w));
    var votes := t.votes[n.labelId := total];
    if Greater(total, t.winnerVotes) then Tally(votes, n.labelId, total)
    else Tally(votes, t.winnerLabel, t.winnerVotes)
  }

  /** The loop state after visiting `ns` in order, starting from `{ label: 0, votes: 0 }`. */
  function Tallies(ns: seq<Neighbor>, w: WeightStrategy): Tally
    decreases |ns|
  {
    if ns == [] then Tally(map[], 0, Fin(0.0))
    else Step(Tallies(ns[..|ns| - 1], w), ns[|ns| - 1], w)
  }

  /** Reference: the sum of the weights of the neighbours carrying label `l`. */
  function WeightSum(ns: seq<Neighbor>, l: int, w: WeightStrategy): Weight
    decreases |ns|
  {
    if ns == [] then Fin(0.0)
    else
      var last := ns[|ns| - 1];
      var before := WeightSum(ns[..|ns| - 1], l, w);
      if last.labelId == l then Plus(before, WeightOf(last, w)) else before
  }

  /** The tally of the label visited at step `t`, just after that step. */
  function StepTally(ns: seq<Neighbor>, t: int, w: WeightStrategy): Weight
    requires 0 <= t < |ns|
  {
    WeightSum(ns[..t + 1], ns[t].labelId, w)
  }

  /** Step `t` is where the highest step tally is first reached, and that tally is positive. */
  ghost predicate FirstToReachMax(ns: seq<Neighbor>, t: int, w: WeightStrategy) {
    && 0 <= t < |ns|
    && Greater(StepTally(ns, t, w), Fin(0.0))
    && (forall u :: 0 <= u < t ==> Greater(StepTally(ns, t, w), StepTally(ns, u, w)))
    && (forall u :: t < u < |ns| ==> !Greater(StepTally(ns, u, w), StepTally(ns, t, w)))
  }

  // ---------------------------------------------------------------------------
  // Properties

  lemma GreaterTransitive(a: Weight, b: Weight, c: Weight)
    requires Greater(a, b) && Greater(b, c)
    ensures Greater(a, c)
  {
  }

  /** `!Greater` is the non-strict order: it is transitive and mixes with `Greater`. */
  lemma OrderMixed(a: Weight, b: Weight, c: Weight)
    ensures !Greater(a, b) && !Greater(b, c) ==> !Greater(a, c)
    ensures Greater(a, b) && !Greater(c, b) ==> Greater(a, c)
    ensures Greater(a, c) && !Greater(a, b) ==> Greater(b, c)
  {
  }

  /** The tallies are the reference sums. */
  lemma {:induction false} TalliesAreSums(ns: seq<Neighbor>, w: WeightStrategy)
    ensures forall l :: Current(Tallies(ns, w), l) == WeightSum(ns, l, w)
    decreases |ns|
  {
    if ns != [] {
      TalliesAreSums(ns[..|ns| - 1], w);
    }
  }

  /** A label has a tally exactly when some neighbour carries it. */
  lemma {:induction false} TalliedLabels(ns: seq<Neighbor>, w: WeightStrategy)
    ensures forall l :: l in Tallies(ns, w).votes <==> exists i :: 0 <= i < |ns| && ns[i].labelId == l
    decreases |ns|
  {
    if ns != [] {
      var init := ns[..|ns| - 1];
      TalliedLabels(init, w);
      forall l ensures l in Tallies(ns, w).votes <==> exists i :: 0 <= i < |ns| && ns[i].labelId == l {
        if exists i :: 0 <= i < |init| && init[i].labelId == l {
          var i :| 0 <= i < |init| && init[i].labelId == l;
          assert ns[i] == init[i];
        }
        if exists i :: 0 <= i < |ns| && ns[i].labelId == l {
          var i :| 0 <= i < |ns| && ns[i].labelId == l;
          if i < |init| {
            assert init[i] == ns[i];
          }
        }
      }
    }
  }

  /** A step tally depends only on the neighbours up to that step. */
  lemma StepTallyOfPrefix(ns: seq<Neighbor>, n: nat, t: int, w: WeightStrategy)
    requires 0 <= t < n <= |ns|
    ensures StepTally(ns[..n], t, w) == StepTally(ns, t, w)
  {
    assert ns[..n][..t + 1] == ns[..t + 1];
  }

  /** A step that was first to reach the maximum stays so when the next step's
      tally does not exceed it. */
  lemma KeepFirstToReachMax(ns: seq<Neighbor>, t: int, w: WeightStrategy)
    requires ns != [] && FirstToReachMax(ns[..|ns| - 1], t, w)
    requires !Greater(StepTally(ns, |ns| - 1, w), StepTally(ns, t, w))
    ensures FirstToReachMax(ns, t, w)
  {
    var n := |ns| - 1;
    var init := ns[..n];
    forall u | 0 <= u < n ensures StepTally(init, u, w) == StepTally(ns, u, w) {
      StepTallyOfPrefix(ns, n, u, w);
    }
    forall u | 0 <= u < t ensures Greater(StepTally(ns, t, w), StepTally(ns, u, w)) {
      assert Greater(StepTally(init, t, w), StepTally(init, u, w));
    }
    forall u | t < u < |ns| ensures !Greater(StepTally(ns, u, w), StepTally(ns, t, w)) {
      if u < n {
        assert !Greater(StepTally(init, u, w), StepTally(init, t, w));
      }
    }
  }

  /** The tally reached at the last step is that label's tally before it plus the
      last weight, and the loop state is one `Step` further. */
  lemma LastStep(ns: seq<Neighbor>, w: WeightStrategy)
    requires ns != []
    ensures StepTally(ns, |ns| - 1, w) ==
      Plus(Current(Tallies(ns[..|ns| - 1], w), ns[|ns| - 1].labelId), WeightOf(ns[|ns| - 1], w))
    ensures Tallies(ns, w) == Step(Tallies(ns[..|ns| - 1], w), ns[|ns| - 1], w)
  {
    var n := |ns| - 1;
    TalliesAreSums(ns[..n], w);
    assert ns[..n + 1] == ns;
  }

  /** The winner's votes are never negative and no step tally exceeds them. */
  lemma {:induction false} WinnerBounds(ns: seq<Neighbor>, w: WeightStrategy)
    ensures !Greater(Fin(0.0), Tallies(ns, w).winnerVotes)
    ensures forall u :: 0 <= u < |ns| ==> !Greater(StepTally(ns, u, w), Tallies(ns, w).winnerVotes)
    decreases |ns|
  {
    if ns != [] {
      var n := |ns| - 1;
      var init := ns[..n];
      WinnerBounds(init, w);
      LastStep(ns, w);
      var prev := Tallies(init, w);
      var total := StepTally(ns, n, w);
      forall u | 0 <= u < n ensures !Greater(StepTally(ns, u, w), Tallies(ns, w).winnerVotes) {
        StepTallyOfPrefix(ns, n, u, w);
        OrderMixed(total, prev.winnerVotes, StepTally(ns, u, w));
      }
      OrderMixed(total, prev.winnerVotes, Fin(0.0));
    }
  }

  /** Without a positive step tally the winner stays label 0 with 0 votes. */
  lemma {:induction false} WinnerWithoutPositiveTally(ns: seq<Neighbor>, w: WeightStrategy)
    requires forall u :: 0 <= u < |ns| ==> !Greater(StepTally(ns, u, w), Fin(0.0))
    ensures Tallies(ns, w).winnerLabel == 0 && Tallies(ns, w).winnerVotes == Fin(0.0)
    decreases |ns|
  {
    if ns != [] {
      var n := |ns| - 1;
      forall u | 0 <= u < n ensures !Greater(StepTally(ns[..n], u, w), Fin(0.0)) {
        StepTallyOfPrefix(ns, n, u, w);
      }
      WinnerWithoutPositiveTally(ns[..n], w);
      LastStep(ns, w);
    }
  }

  /** A last step that does not take the lead after steps without a positive tally
      has no positive tally either. */
  lemma StillNoPositiveTally(ns: seq<Neighbor>, init: seq<Neighbor>, w: WeightStrategy)
    requires ns != [] && init == ns[..|ns| - 1]
    requires forall u :: 0 <= u < |init| ==> !Greater(StepTally(init, u, w), Fin(0.0))
    requires !Greater(StepTally(ns, |ns| - 1, w), Tallies(init, w).winnerVotes)
    ensures forall u :: 0 <= u < |ns| ==> !Greater(StepTally(ns, u, w), Fin(0.0))
  {
    var n := |ns| - 1;
    WinnerWithoutPositiveTally(init, w);
    forall u | 0 <= u < |ns| ensures !Greater(StepTally(ns, u, w), Fin(0.0)) {
      if u < n {
        StepTallyOfPrefix(ns, n, u, w);
      }
    }
  }

  /** With a positive step tally the winner is the label of the first step that
      reaches the highest step tally. */
  lemma {:induction false} WinnerWithPositiveTally(ns: seq<Neighbor>, w: WeightStrategy)
    ensures (exists u :: 0 <= u < |ns| && Greater(StepTally(ns, u, w), Fin(0.0))) ==>
      exists t :: FirstToReachMax(ns, t, w) &&
        Tallies(ns, w).winnerLabel == ns[t].labelId && Tallies(ns, w).winnerVotes == StepTally(ns, t, w)
    decreases |ns|
  {
    if ns != [] {
      var n := |ns| - 1;
      var init := ns[..n];
      LastStep(ns, w);
      var prev := Tallies(init, w);
      var total := StepTally(ns, n, w);
      if Greater(total, prev.winnerVotes) {
        WinnerBounds(init, w);
        NewLeader(ns, init, w);
        assert Tallies(ns, w).winnerLabel == ns[n].labelId && Tallies(ns, w).winnerVotes == total;
      } else if !exists u :: 0 <= u < n && Greater(StepTally(init, u, w), Fin(0.0)) {
        StillNoPositiveTally(ns, init, w);
      } else {
        WinnerWithPositiveTally(init, w);
        var t :| FirstToReachMax(init, t, w) &&
          prev.winnerLabel == init[t].labelId && prev.winnerVotes == StepTally(init, t, w);
        StepTallyOfPrefix(ns, n, t, w);
        assert StepTally(ns, t, w) == prev.winnerVotes;
        KeepFirstToReachMax(ns, t, w);
        assert Tallies(ns, w).winnerLabel == ns[t].labelId && Tallies(ns, w).winnerVotes == StepTally(ns, t, w);
      }
    }
  }

  /** The tie rule. With no positive step tally the winner stays label 0 with 0
      votes; otherwise the winner is the label visited at the first step whose
      tally reaches the highest step tally, and its votes are that tally. */
  lemma WinnerIsFirstToReachMax(ns: seq<Neighbor>, w: WeightStrategy)
    ensures !Greater(Fin(0.0), Tallies(ns, w).winnerVotes)
    ensures forall u :: 0 <= u < |ns| ==> !Greater(StepTally(ns, u, w), Tallies(ns, w).winnerVotes)
    ensures (forall u :: 0 <= u < |ns| ==> !Greater(StepTally(ns, u, w), Fin(0.0))) ==>
      Tallies(ns, w).winnerLabel == 0 && Tallies(ns, w).winnerVotes == Fin(0.0)
    ensures (exists u :: 0 <= u < |ns| && Greater(StepTally(ns, u, w), Fin(0.0))) ==>
      exists t :: FirstToReachMax(ns, t, w) &&
        Tallies(ns, w).winnerLabel == ns[t].labelId && Tallies(ns, w).winnerVotes == StepTally(ns, t, w)
  {
    WinnerBounds(ns, w);
    if forall u :: 0 <= u < |ns| ==> !Greater(StepTally(ns, u, w), Fin(0.0)) {
      WinnerWithoutPositiveTally(ns, w);
    }
    WinnerWithPositiveTally(ns, w);
  }

  /** A step whose tally exceeds the best tally so far is the first to reach the maximum. */
  lemma NewLeader(ns: seq<Neighbor>, init: seq<Neighbor>, w: WeightStrategy)
    requires ns != [] && init == ns[..|ns| - 1]
    requires !Greater(Fin(0.0), Tallies(init, w).winnerVotes)
    requires forall u :: 0 <= u < |init| ==> !Greater(StepTally(init, u, w), Tallies(init, w).winnerVotes)
    requires Greater(StepTally(ns, |ns| - 1, w), Tallies(init, w).winnerVotes)
    ensures FirstToReachMax(ns, |ns| - 1, w)
  {
    var n := |ns| - 1;
    var best := Tallies(ns[..n], w).winnerVotes;
    var total := StepTally(ns, n, w);
    forall u | 0 <= u < n ensures Greater(total, StepTally(ns, u, w)) {
      StepTallyOfPrefix(ns, n, u, w);
      OrderMixed(total, best, StepTally(ns, u, w));
    }
    OrderMixed(total, best, Fin(0.0));
  }

  /** At most one step is the first to reach the highest step tally. */
  lemma FirstToReachMaxUnique(ns: seq<Neighbor>, t1: int, t2: int, w: WeightStrategy)
    requires FirstToReachMax(ns, t1, w) && FirstToReachMax(ns, t2, w)
    ensures t1 == t2
  {
  }

  /** With distance weights, a first neighbour at distance 0 wins outright: its
      tally is `Infinity`, which nothing strictly exceeds. */
  lemma ExactMatchWins(ns: seq<Neighbor>)
    requires ns != [] && ns[0].distance == 0.0
    ensures Tallies(ns, Distance).winnerLabel == ns[0].labelId
    ensures Tallies(ns, Distance).winnerVotes == Inf
  {
    assert ns[..1] == [ns[0]];
    assert StepTally(ns, 0, Distance) == Inf;
    WinnerIsFirstToReachMax(ns, Distance);
    var t :| FirstToReachMax(ns, t, Distance) &&
      Tallies(ns, Distance).winnerLabel == ns[t].labelId &&
      Tallies(ns, Distance).winnerVotes == StepTally(ns, t, Distance);
  }

  /** With no neighbours the vote returns label 0. */
  lemma EmptyVote(w: WeightStrategy)
    ensures Tallies([], w) == Tally(map[], 0, Fin(0.0))
  {
  }
}
