/**
 * The floating-point library functions the estimator calls, left uninterpreted.
 * Each one comes with the single fact the proofs rely on, collected in `Sound`.
 */
module Numerics {

  datatype Functions = Functions(
    log: real -> real,
    tanh: real -> real,
    sqrt: real -> real,
    qNormal: real -> real)

  ghost predicate Sound(m: Functions) {
    // sqrt is the non-negative square root on non-negative input
    && (forall x :: 0.0 <= x ==> 0.0 <= m.sqrt(x) && m.sqrt(x) * m.sqrt(x) == x)
    // tanh is non-decreasing
    && (forall x, y :: x <= y ==> m.tanh(x) <= m.tanh(y))
    // tanh inverts half the logarithm: tanh(log(x) / 2) == (x - 1) / (x + 1)
    && (forall x :: 0.0 < x ==> m.tanh(0.5 * m.log(x)) == (x - 1.0) / (x + 1.0))
    // the standard normal quantile is non-decreasing with median 0
    && (forall u, v :: u <= v ==> m.qNormal(u) <= m.qNormal(v))
    && m.qNormal(0.5) == 0.0
  }

  lemma SqrtPositive(m: Functions, x: real)
    requires Sound(m) && 0.0 < x
    ensures 0.0 < m.sqrt(x)
  {
    assert m.sqrt(x) * m.sqrt(x) == x;
  }
}
