/** Facts about real arithmetic that the solver does not find on its own. */
module Arith {

  function Max(a: real, b: real): real { if a >= b then a else b }
  function Min(a: real, b: real): real { if a <= b then a else b }

  lemma MulMono(a: real, b: real, t: real)
    requires a <= b && t >= 0.0
    ensures a * t <= b * t
  {
  }

  lemma MulCancel(a: real, b: real, t: real)
    requires t > 0.0 && a * t <= b * t
    ensures a <= b
  {
  }

  lemma MulCancelEq(a: real, b: real, t: real)
    requires t > 0.0 && a * t == b * t
    ensures a == b
  {
    MulCancel(a, b, t);
    MulCancel(b, a, t);
  }

  lemma DivMul(a: real, b: real)
    requires b > 0.0
    ensures (a / b) * b == a
  {
  }

  lemma DivSelf(a: real)
    requires a > 0.0
    ensures a / a == 1.0
  {
    DivMul(a, a);
    MulCancelEq(a / a, 1.0, a);
  }
}
