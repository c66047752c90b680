/** The transcendental functions the source takes from JavaScript's `Math` object.
    They are left uninterpreted: every operation that needs one receives an `Ops`
    value, and the few facts the code relies on are stated as separate laws that
    only the lemmas needing them require. */
module MathOps {

  /** `Math.sqrt`, `Math.acos`, `Math.exp`, `Math.tanh` and `Math.pow`. */
  datatype Ops = Ops(
    sqrt: real -> real,
    acos: real -> real,
    exp: real -> real,
    tanh: real -> real,
    pow: (real, real) -> real)

  /** `Math.PI`, the double nearest to pi. */
  const PI: real := 3.141592653589793

  /** The square root is zero exactly at zero (the root of a negative number is NaN,
      which is not zero), is non-negative on non-negative numbers, squares back to
      its argument there, and maps 1 to 1. */
  ghost predicate SqrtLaws(m: Ops) {
    && (forall s {:trigger m.sqrt(s)} :: m.sqrt(s) == 0.0 <==> s == 0.0)
    && (forall s {:trigger m.sqrt(s)} :: s >= 0.0 ==> m.sqrt(s) >= 0.0)
    && (forall s {:trigger m.sqrt(s)} :: s >= 0.0 ==> m.sqrt(s) * m.sqrt(s) == s)
    && m.sqrt(1.0) == 1.0
  }

  /** `exp` is positive, strictly increasing and maps 0 to 1. */
  ghost predicate ExpLaws(m: Ops) {
    && m.exp(0.0) == 1.0
    && (forall z {:trigger m.exp(z)} :: m.exp(z) > 0.0)
    && (forall a, b {:trigger m.exp(a), m.exp(b)} :: a < b ==> m.exp(a) < m.exp(b))
  }

  /** `pow` of a non-negative base is non-negative, and 0 to a positive power is 0. */
  ghost predicate PowLaws(m: Ops) {
    && (forall b, e {:trigger m.pow(b, e)} :: b >= 0.0 ==> m.pow(b, e) >= 0.0)
    && (forall e {:trigger m.pow(0.0, e)} :: e > 0.0 ==> m.pow(0.0, e) == 0.0)
  }

  /** A product vanishes exactly when one of its factors does. */
  lemma ProductZero(a: real, b: real)
    ensures a * b == 0.0 <==> a == 0.0 || b == 0.0
  {
  }
}
