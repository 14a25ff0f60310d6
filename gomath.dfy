/** The parts of Go's `math` package the simulation calls, over the reals.

    `math.Sqrt`, `math.Atan2`, `math.Cos`, `math.Sin` and `math.Pi` are
    not computed here: a caller supplies them as a `MathLib` value, and
    `Lawful()` states the few laws the model relies on. */
module GoMath {

  datatype MathLib = MathLib(
    sqrt: real -> real,
    atan2: (real, real) -> real,
    cos: real -> real,
    sin: real -> real,
    pi: real)
  {
    /** The laws of the real functions that the Go functions approximate:
        the non-negative square root, the special values of `Atan2` on the
        axes (as Go documents them), and `cos² + sin² = 1`. */
    ghost predicate Lawful() {
      && pi > 0.0
      && (forall x :: 0.0 <= x ==> 0.0 <= sqrt(x) && sqrt(x) * sqrt(x) == x)
      && (forall y :: 0.0 < y ==> atan2(y, 0.0) == pi / 2.0)
      && (forall y :: y < 0.0 ==> atan2(y, 0.0) == -pi / 2.0)
      && (forall x :: 0.0 <= x ==> atan2(0.0, x) == 0.0)
      && (forall x :: x < 0.0 ==> atan2(0.0, x) == pi)
      && (forall a :: cos(a) * cos(a) + sin(a) * sin(a) == 1.0)
    }
  }

  /** The square root is monotone with respect to a non-negative bound:
      it exceeds `bound` exactly when its argument exceeds `bound²`. */
  lemma SqrtVersusBound(m: MathLib, q: real, bound: real)
    requires m.Lawful()
    requires 0.0 <= q && 0.0 <= bound
    ensures m.sqrt(q) > bound <==> q > bound * bound
  {
    var s := m.sqrt(q);
    assert 0.0 <= s && s * s == q;
    if s > bound {
      SquareLess(bound, s);
    } else {
      SquareLe(s, bound);
    }
  }

  /** Squaring is strictly monotone on the non-negative reals. */
  lemma SquareLess(x: real, y: real)
    requires 0.0 <= x < y
    ensures x * x < y * y
  {
    var xy := x * y;
    assert x * x <= xy by { assert xy - x * x == x * (y - x); }
    assert xy < y * y by { assert y * y - xy == y * (y - x); }
  }

  /** Squaring is monotone on the non-negative reals. */
  lemma SquareLe(x: real, y: real)
    requires 0.0 <= x <= y
    ensures x * x <= y * y
  {
    var xy := x * y;
    assert x * x <= xy by { assert xy - x * x == x * (y - x); }
    assert xy <= y * y by { assert y * y - xy == y * (y - x); }
  }

  /** Converting `k·π` radians to degrees gives `k·180`. */
  lemma DegreesOfMultiple(k: real, pi: real)
    requires pi > 0.0
    ensures (k * pi) * 180.0 / pi == k * 180.0
  {
    assert (k * pi) * 180.0 == (k * 180.0) * pi;
  }
}
