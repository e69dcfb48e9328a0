/** Logarithm, exponential and square root as parameters, with the few laws the proofs use,
    and two facts about fractions. */
module Maths {

  datatype Maths = Maths(ln: real -> real, exp: real -> real, sqrt: real -> real)

  function Ratio(x: real, y: real): real
    requires y != 0.0
  {
    x / y
  }

  ghost predicate Lawful(f: Maths)
  {
    && (forall x: real, y: real :: 0.0 < x < y ==> f.ln(x) < f.ln(y))
    && (forall x: real, y: real {:trigger f.ln(Ratio(x, y))} ::
          x > 0.0 && y > 0.0 ==> f.ln(Ratio(x, y)) == f.ln(x) - f.ln(y))
    && (forall x: real :: f.exp(x) > 0.0 && f.ln(f.exp(x)) == x)
    && (forall x: real :: x >= 0.0 ==> f.sqrt(x) >= 0.0 && f.sqrt(x) * f.sqrt(x) == x)
  }

  /** The logarithm preserves and reflects the order of positive numbers. */
  lemma LnOrder(f: Maths, x: real, y: real)
    requires Lawful(f) && x > 0.0 && y > 0.0
    ensures x <= y <==> f.ln(x) <= f.ln(y)
  {
    if y < x { assert f.ln(y) < f.ln(x); }
    if x < y { assert f.ln(x) < f.ln(y); }
  }

  lemma LnQuotient(f: Maths, x: real, y: real)
    requires Lawful(f) && x > 0.0 && y > 0.0
    ensures f.ln(x / y) == f.ln(x) - f.ln(y)
  {
    assert f.ln(Ratio(x, y)) == f.ln(x) - f.ln(y);
  }

  lemma SqrtOf(f: Maths, x: real)
    requires Lawful(f) && x >= 0.0
    ensures f.sqrt(x) >= 0.0 && f.sqrt(x) * f.sqrt(x) == x && (x > 0.0 ==> f.sqrt(x) > 0.0)
  {
    if f.sqrt(x) == 0.0 { assert f.sqrt(x) * f.sqrt(x) == 0.0; }
  }

  // ---- fractions ----

  lemma AddFractions(a: real, b: real, c: real)
    requires c > 0.0
    ensures (a + b) / c == a / c + b / c
  {
    var x, y := a / c, b / c;
    assert a == x * c && b == y * c;
    assert (x + y) * c == a + b;
  }

  lemma UnitFraction(a: real, b: real)
    requires 0.0 <= a <= b && b > 0.0
    ensures 0.0 <= a / b <= 1.0
  {
  }
}
