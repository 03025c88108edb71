/** Sign facts about real products, stated once for the modules that need them. */
module RealArith {

  /** A product kept behind a function, so that its sign facts can be used
      where the solver would not find them on a bare `*`. */
  function Product(a: real, b: real): real {
    a * b
  }

  lemma ProductPositive(a: real, b: real)
    requires a > 0.0 && b > 0.0
    ensures a * b > 0.0 && Product(a, b) > 0.0
  {
  }

  lemma ProductNonNegative(a: real, b: real)
    requires a >= 0.0 && b >= 0.0
    ensures a * b >= 0.0
  {
  }

  lemma ProductNegate(a: real, b: real)
    ensures Product(-a, -b) == Product(a, b)
  {
  }

  /** A product of two values in [0, 1] stays in [0, 1]. */
  lemma ProductInUnitInterval(u: real, v: real)
    requires 0.0 <= u <= 1.0 && 0.0 <= v <= 1.0
    ensures 0.0 <= u * v <= 1.0
  {
    assert 0.0 <= u * v;
    assert u * v <= v by {
      assert u * v + (1.0 - u) * v == v;
      assert 0.0 <= (1.0 - u) * v;
    }
  }
}
