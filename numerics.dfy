/** The natural logarithm and exponential that the reactor formulas call
    (`np.log` and `np.exp`). Dafny has neither, so the model receives them as
    a pair of functions on `real` and states, in `Natural()`, the laws of the
    real logarithm and exponential that the reactor proofs rely on. Every
    consequence used elsewhere is proved below from those laws alone. */
module Numerics {
  import opened RealArith

  datatype LogExp = LogExp(log: real -> real, exp: real -> real) {

    /** True of the real `ln` and `exp`. No law's trigger makes the solver
        create a new `log` or `exp` term (the two inverse laws fire only on
        a composition already present), so none of them sets off a
        matching loop. */
    ghost predicate Natural() {
      && (forall z :: 0.0 < exp(z))
      && (forall z {:trigger log(exp(z))} :: log(exp(z)) == z)
      && (forall y {:trigger exp(log(y))} :: 0.0 < y ==> exp(log(y)) == y)
      && log(1.0) == 0.0
      && (forall a, b :: 0.0 < a < b ==> log(a) < log(b))
      // the tangent-line bound e^w > 1 + w, written at w = -z
      && (forall z :: z < 0.0 ==> exp(z) < 1.0 / (1.0 - z))
    }
  }

  /** exp(0) = 1, from log(1) = 0 and exp undoing log. */
  lemma ExpZero(m: LogExp)
    requires m.Natural()
    ensures m.exp(0.0) == 1.0
  {
    assert m.exp(m.log(1.0)) == 1.0;
  }

  /** On (0, 1] the logarithm is non-positive, and zero only at 1. */
  lemma LogAtMostOne(m: LogExp, y: real)
    requires m.Natural() && 0.0 < y <= 1.0
    ensures m.log(y) <= 0.0
    ensures m.log(y) == 0.0 <==> y == 1.0
  {
    if y < 1.0 {
      assert m.log(y) < m.log(1.0);
    }
  }

  /** A name for the monotonicity law, to use it at chosen points. */
  lemma LogIncreasing(m: LogExp, a: real, b: real)
    requires m.Natural() && 0.0 < a < b
    ensures m.log(a) < m.log(b)
  {
  }

  /** The exponential is strictly increasing: a consequence of log being
      strictly increasing and the two being inverses. */
  lemma ExpIncreasing(m: LogExp, a: real, b: real)
    requires m.Natural() && a < b
    ensures m.exp(a) < m.exp(b)
  {
    var ea, eb := m.exp(a), m.exp(b);
    assert m.log(ea) == a && m.log(eb) == b;
    if eb <= ea {
      if eb < ea {
        LogIncreasing(m, eb, ea);
      }
      assert false;
    }
  }

  /** On the non-positive reals the exponential lies in (0, 1], reaching 1
      only at 0. */
  lemma ExpNonPositive(m: LogExp, z: real)
    requires m.Natural() && z <= 0.0
    ensures 0.0 < m.exp(z) <= 1.0
    ensures m.exp(z) == 1.0 <==> z == 0.0
  {
    ExpZero(m);
    if z < 0.0 {
      ExpIncreasing(m, z, 0.0);
    }
  }

  /** The lower bound ln y > 1 - 1/y on (0, 1), from the tangent-line bound
      at z = ln y. */
  lemma LogLowerBound(m: LogExp, y: real)
    requires m.Natural() && 0.0 < y < 1.0
    ensures 1.0 - 1.0 / y < m.log(y)
  {
    var z := m.log(y);
    LogAtMostOne(m, y);
    assert m.exp(z) == y;
    var d := 1.0 - z;
    assert y < 1.0 / d;
    ReciprocalSwap(y, d);
  }
}
