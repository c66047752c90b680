/** `xs.indexOf(Math.max(...xs))`, the arg-max idiom every engine uses to pick a
    class: the first index holding the maximum, or -1 for an empty sequence
    (`Math.max()` is -Infinity, which `indexOf` does not find). */
module ArgMax {

  /** `i` is the first position of a maximum of `xs`. */
  ghost predicate IsFirstMax(xs: seq<real>, i: int) {
    && 0 <= i < |xs|
    && (forall j :: 0 <= j < |xs| ==> xs[j] <= xs[i])
    && (forall j :: 0 <= j < i ==> xs[j] < xs[i])
  }

  /** `Math.max(...xs)` on a non-empty sequence. */
  function Max(xs: seq<real>): (r: real)
    requires xs != []
    ensures r in xs
    ensures forall j :: 0 <= j < |xs| ==> xs[j] <= r
  {
    if |xs| == 1 then xs[0]
    else
      var rest := Max(xs[1..]);
      if xs[0] >= rest then xs[0] else rest
  }

  /** `xs.indexOf(v)`: the first position holding `v`, or -1. */
  function IndexOf(xs: seq<real>, v: real): (i: int)
    ensures -1 <= i < |xs|
    ensures i == -1 <==> v !in xs
    ensures i >= 0 ==> xs[i] == v && forall j :: 0 <= j < i ==> xs[j] != v
  {
    if xs == [] then -1
    else if xs[0] == v then 0
    else
      var r := IndexOf(xs[1..], v);
      if r == -1 then -1 else r + 1
  }

  function FirstMaxIndex(xs: seq<real>): (i: int)
    ensures xs == [] ==> i == -1
    ensures xs != [] ==> IsFirstMax(xs, i)
  {
    if xs == [] then -1 else IndexOf(xs, Max(xs))
  }

  /** The arg-max is determined by the first-maximum property alone. */
  lemma FirstMaxUnique(xs: seq<real>, i: int)
    requires IsFirstMax(xs, i)
    ensures FirstMaxIndex(xs) == i
  {
    var k := FirstMaxIndex(xs);
    assert IsFirstMax(xs, k);
  }

  /** Two sequences whose elements compare the same way pairwise have the same arg-max:
      applying a strictly increasing function does not change the winner. */
  lemma FirstMaxOrderInvariant(xs: seq<real>, ys: seq<real>)
    requires |xs| == |ys|
    requires forall i, j :: 0 <= i < |xs| && 0 <= j < |xs| ==> (xs[i] < xs[j] <==> ys[i] < ys[j])
    ensures FirstMaxIndex(xs) == FirstMaxIndex(ys)
  {
    if xs != [] {
      var k := FirstMaxIndex(xs);
      assert IsFirstMax(xs, k);
      forall j | 0 <= j < |ys|
        ensures ys[j] <= ys[k]
      {
        assert !(xs[k] < xs[j]);
      }
      forall j | 0 <= j < k
        ensures ys[j] < ys[k]
      {
        assert xs[j] < xs[k];
      }
      FirstMaxUnique(ys, k);
    }
  }

  /** Vote counts seen as the numbers JavaScript compares. */
  function AsReals(v: seq<int>): (r: seq<real>)
    ensures |r| == |v|
    ensures forall i :: 0 <= i < |v| ==> r[i] == v[i] as real
  {
    seq(|v|, i requires 0 <= i < |v| => v[i] as real)
  }

  /** The total of a vote array. */
  function Sum(v: seq<int>): int
    decreases |v|
  {
    if v == [] then 0 else Sum(v[..|v| - 1]) + v[|v| - 1]
  }

  lemma SumUpdate(v: seq<int>, c: int)
    requires 0 <= c < |v|
    ensures Sum(v[c := v[c] + 1]) == Sum(v) + 1
    decreases |v|
  {
    var w := v[c := v[c] + 1];
    if c < |v| - 1 {
      assert w[..|w| - 1] == v[..|v| - 1][c := v[c] + 1];
      SumUpdate(v[..|v| - 1], c);
    } else {
      assert w[..|w| - 1] == v[..|v| - 1];
    }
  }

  lemma SumZeros(n: nat)
    ensures Sum(seq(n, _ => 0)) == 0
  {
    if n > 0 {
      assert seq(n, _ => 0)[..n - 1] == seq(n - 1, _ => 0);
      SumZeros(n - 1);
    }
  }
}
