/** The neighbour search of the k-nearest-neighbours classifier: the Minkowski
    distance from the input to every training vector, a stable ascending sort by
    distance and the first `k` entries of it (`slice(0, k)`). */
module KnnNeighbors {
  import opened Wrappers
  import opened MathOps

  /** A training sample's label paired with its distance to the input. */
  datatype Neighbor = Neighbor(labelId: int, distance: real)

  const LengthMismatch: string := "Vectors must be of same length"

  /** `a.reduce((acc, val, i) => acc + |val - b[i]|^p, 0)`, folded from the left. */
  function PowerSum(m: Ops, p: real, a: seq<real>, b: seq<real>): real
    requires |a| == |b|
    decreases |a|
  {
    if a == [] then 0.0
    else
      var n := |a| - 1;
      PowerSum(m, p, a[..n], b[..n]) + m.pow(Abs(a[n] - b[n]), p)
  }

  function Abs(x: real): (r: real)
    ensures r >= 0.0 && (r == x || r == -x)
  {
    if x < 0.0 then -x else x
  }

  /** `minkowskiDistance`: a length mismatch throws; otherwise the p-th root of the power sum. */
  function MinkowskiDistance(m: Ops, p: real, a: seq<real>, b: seq<real>): (r: Result<real, string>)
    requires p != 0.0
    ensures r.Failure? <==> |a| != |b|
    ensures r.Failure? ==> r.error == LengthMismatch
  {
    if |a| != |b| then Failure(LengthMismatch)
    else Success(m.pow(PowerSum(m, p, a, b), 1.0 / p))
  }

  /** `X.map((xVec, i) => ({ label: y[i], distance: minkowskiDistance(input, xVec) }))`;
      the first training vector of the wrong length aborts the map. */
  function Candidates(m: Ops, p: real, input: seq<real>, X: seq<seq<real>>, y: seq<int>): Result<seq<Neighbor>, string>
    requires p != 0.0 && |X| == |y|
    decreases |X|
  {
    if X == [] then Success([])
    else match MinkowskiDistance(m, p, input, X[0])
      case Failure(e) => Failure(e)
      case Success(d) =>
        match Candidates(m, p, input, X[1..], y[1..])
        case Failure(e) => Failure(e)
        case Success(rest) => Success([Neighbor(y[0], d)] + rest)
  }

  predicate SortedByDistance(s: seq<Neighbor>) {
    forall i, j :: 0 <= i < j < |s| ==> s[i].distance <= s[j].distance
  }

  /** Places `n` before the first entry that is not strictly nearer, that is,
      before the first entry at a distance at least its own; `Sort` inserts each
      entry into the sorted rest after it, so equal distances keep their order. */
  function Insert(n: Neighbor, s: seq<Neighbor>): (r: seq<Neighbor>)
    ensures multiset(r) == multiset(s) + multiset{n}
  {
    if s == [] || n.distance <= s[0].distance then [n] + s
    else
      assert s == [s[0]] + s[1..];
      [s[0]] + Insert(n, s[1..])
  }

  /** Every entry of `Insert(n, s)` is as far as a bound that `n` and all of `s` respect. */
  lemma InsertLowerBound(n: Neighbor, s: seq<Neighbor>, lo: real)
    requires lo <= n.distance && forall i :: 0 <= i < |s| ==> lo <= s[i].distance
    ensures forall i :: 0 <= i < |Insert(n, s)| ==> lo <= Insert(n, s)[i].distance
  {
    var r := Insert(n, s);
    forall i | 0 <= i < |r| ensures lo <= r[i].distance {
      assert r[i] in multiset(r);
      if r[i] != n {
        assert r[i] in multiset(s);
        var j :| 0 <= j < |s| && s[j] == r[i];
      }
    }
  }

  lemma ConsSorted(x: Neighbor, s: seq<Neighbor>)
    requires SortedByDistance(s) && forall i :: 0 <= i < |s| ==> x.distance <= s[i].distance
    ensures SortedByDistance([x] + s)
  {
    var r := [x] + s;
    forall i, j | 0 <= i < j < |r| ensures r[i].distance <= r[j].distance {
      assert r[j] == s[j - 1];
      if i > 0 {
        assert r[i] == s[i - 1];
      }
    }
  }

  lemma {:induction false} InsertSorted(n: Neighbor, s: seq<Neighbor>)
    requires SortedByDistance(s)
    ensures SortedByDistance(Insert(n, s))
  {
    if s == [] || n.distance <= s[0].distance {
      ConsSorted(n, s);
    } else {
      var tail := s[1..];
      assert forall i :: 0 <= i < |tail| ==> tail[i] == s[i + 1];
      InsertSorted(n, tail);
      InsertLowerBound(n, tail, s[0].distance);
      ConsSorted(s[0], Insert(n, tail));
    }
  }

  /** `sort((a, b) => a.distance - b.distance)`: a stable ascending insertion sort. */
  function Sort(s: seq<Neighbor>): (r: seq<Neighbor>)
    ensures multiset(r) == multiset(s)
    ensures SortedByDistance(r)
  {
    if s == [] then []
    else
      assert s == [s[0]] + s[1..];
      InsertSorted(s[0], Sort(s[1..]));
      Insert(s[0], Sort(s[1..]))
  }

  /** `slice(0, k)`: a negative `k` counts back from the end. */
  function Take(s: seq<Neighbor>, k: int): (r: seq<Neighbor>)
    ensures k >= 0 ==> |r| == if k < |s| then k else |s|
    ensures |r| <= |s| && r == s[..|r|]
  {
    if k >= 0 then (if k < |s| then s[..k] else s)
    else if |s| + k > 0 then s[..|s| + k]
    else []
  }

  /** `getNeighbors`. */
  function Neighbors(m: Ops, p: real, k: int, input: seq<real>, X: seq<seq<real>>, y: seq<int>): Result<seq<Neighbor>, string>
    requires p != 0.0 && |X| == |y|
  {
    match Candidates(m, p, input, X, y)
    case Failure(e) => Failure(e)
    case Success(c) => Success(Take(Sort(c), k))
  }

  // ---------------------------------------------------------------------------
  // Properties

  /** The candidate list fails exactly when some training vector has the wrong
      length; otherwise it pairs every sample's label with its distance, in order. */
  lemma {:induction false} CandidatesSpec(m: Ops, p: real, input: seq<real>, X: seq<seq<real>>, y: seq<int>)
    requires p != 0.0 && |X| == |y|
    ensures Candidates(m, p, input, X, y).Failure? <==> exists i :: 0 <= i < |X| && |X[i]| != |input|
    ensures Candidates(m, p, input, X, y).Failure? ==> Candidates(m, p, input, X, y).error == LengthMismatch
    ensures Candidates(m, p, input, X, y).Success? ==>
      var c := Candidates(m, p, input, X, y).value;
      && |c| == |X|
      && forall i :: 0 <= i < |X| ==> c[i] == Neighbor(y[i], MinkowskiDistance(m, p, input, X[i]).value)
    decreases |X|
  {
    if X != [] {
      CandidatesSpec(m, p, input, X[1..], y[1..]);
      if |X[0]| == |input| {
        if !exists i :: 0 <= i < |X| && |X[i]| != |input| {
          forall i | 0 <= i < |X[1..]| ensures |X[1..][i]| == |input| {
            assert X[1..][i] == X[i + 1];
          }
        } else {
          var i :| 0 <= i < |X| && |X[i]| != |input|;
          assert X[1..][i - 1] == X[i];
        }
      }
    }
  }

  /** A prefix of a sorted list is sorted, and it is the near part of a split of
      the list: no kept entry is farther than a dropped one. */
  lemma PrefixOfSorted(s: seq<Neighbor>, n: nat)
    requires SortedByDistance(s) && n <= |s|
    ensures SortedByDistance(s[..n])
    ensures multiset(s[..n]) + multiset(s[n..]) == multiset(s)
    ensures forall a, b :: a in s[..n] && b in s[n..] ==> a.distance <= b.distance
  {
    assert s == s[..n] + s[n..];
    forall a, b | a in s[..n] && b in s[n..] ensures a.distance <= b.distance {
      var i :| 0 <= i < n && s[..n][i] == a;
      var j :| 0 <= j < |s| - n && s[n..][j] == b;
      assert s[i] == a && s[n + j] == b;
    }
  }

  /** The neighbour list: `min(k, |X|)` entries for `k >= 0`, in ascending distance,
      drawn from the candidates, and none farther than any candidate left out. */
  lemma NeighborsSpec(m: Ops, p: real, k: int, input: seq<real>, X: seq<seq<real>>, y: seq<int>)
    requires p != 0.0 && |X| == |y|
    ensures Neighbors(m, p, k, input, X, y).Failure? <==> exists i :: 0 <= i < |X| && |X[i]| != |input|
    ensures Neighbors(m, p, k, input, X, y).Success? ==>
      var r := Neighbors(m, p, k, input, X, y).value;
      var c := Candidates(m, p, input, X, y).value;
      && (k >= 0 ==> |r| == if k < |X| then k else |X|)
      && SortedByDistance(r)
      && exists rest: seq<Neighbor> :: multiset(r) + multiset(rest) == multiset(c) &&
           forall a, b :: a in r && b in rest ==> a.distance <= b.distance
  {
    CandidatesSpec(m, p, input, X, y);
    var cands := Candidates(m, p, input, X, y);
    if cands.Success? {
      NearestOf(cands.value, k);
    }
  }

  /** The first `k` of the sorted candidates. */
  lemma NearestOf(c: seq<Neighbor>, k: int)
    ensures k >= 0 ==> |Take(Sort(c), k)| == if k < |c| then k else |c|
    ensures SortedByDistance(Take(Sort(c), k))
    ensures exists rest: seq<Neighbor> ::
      && multiset(Take(Sort(c), k)) + multiset(rest) == multiset(c)
      && forall a, b :: a in Take(Sort(c), k) && b in rest ==> a.distance <= b.distance
  {
    var s := Sort(c);
    assert |s| == |multiset(s)| == |c|;
    NearestSplit(s, Take(s, k));
  }

  /** A prefix of a sorted list is sorted and leaves out only entries at least as far. */
  lemma NearestSplit(s: seq<Neighbor>, r: seq<Neighbor>)
    requires SortedByDistance(s) && |r| <= |s| && r == s[..|r|]
    ensures SortedByDistance(r)
    ensures exists rest: seq<Neighbor> ::
      && multiset(r) + multiset(rest) == multiset(s)
      && forall a, b :: a in r && b in rest ==> a.distance <= b.distance
  {
    PrefixOfSorted(s, |r|);
    var rest := s[|r|..];
    assert multiset(r) + multiset(rest) == multiset(s);
  }

  /** With a non-negative power sum and the usual laws of `pow`, distances are
      non-negative, symmetric, and zero from a vector to itself when `p > 0`. */
  lemma {:induction false} PowerSumProperties(m: Ops, p: real, a: seq<real>, b: seq<real>)
    requires PowLaws(m) && |a| == |b|
    ensures PowerSum(m, p, a, b) >= 0.0
    ensures PowerSum(m, p, a, b) == PowerSum(m, p, b, a)
    ensures p > 0.0 ==> PowerSum(m, p, a, a) == 0.0
    decreases |a|
  {
    if a != [] {
      var n := |a| - 1;
      PowerSumProperties(m, p, a[..n], b[..n]);
      assert Abs(a[n] - b[n]) == Abs(b[n] - a[n]);
    }
  }

  lemma DistanceProperties(m: Ops, p: real, a: seq<real>, b: seq<real>)
    requires PowLaws(m) && p != 0.0 && |a| == |b|
    ensures MinkowskiDistance(m, p, a, b).value >= 0.0
    ensures MinkowskiDistance(m, p, a, b) == MinkowskiDistance(m, p, b, a)
    ensures p > 0.0 ==> MinkowskiDistance(m, p, a, a) == Success(0.0)
  {
    PowerSumProperties(m, p, a, b);
    PowerSumProperties(m, p, a, a);
  }

  /** A training vector at distance zero puts a zero-distance entry first in the
      neighbour list, whenever `k >= 1` and distances are non-negative. */
  lemma ExactMatchComesFirst(m: Ops, p: real, k: int, input: seq<real>, X: seq<seq<real>>, y: seq<int>, i: int)
    requires PowLaws(m) && p != 0.0 && |X| == |y| && k >= 1
    requires forall j :: 0 <= j < |X| ==> |X[j]| == |input|
    requires 0 <= i < |X| && MinkowskiDistance(m, p, input, X[i]).value == 0.0
    ensures Neighbors(m, p, k, input, X, y).Success?
    ensures Neighbors(m, p, k, input, X, y).value != []
    ensures Neighbors(m, p, k, input, X, y).value[0].distance == 0.0
  {
    CandidatesSpec(m, p, input, X, y);
    var c := Candidates(m, p, input, X, y).value;
    var s := Sort(c);
    assert c[i] in multiset(s);
    var j :| 0 <= j < |s| && s[j] == c[i];
    assert s[0].distance <= 0.0;
    assert s[0] in multiset(c);
    var l :| 0 <= l < |c| && c[l] == s[0];
    DistanceProperties(m, p, input, X[l]);
  }
}
