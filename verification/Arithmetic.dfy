/** Products and quotients the solver does not reason about unaided. */
module Arithmetic {
  lemma MulMonotone(a: nat, b: nat, unit: nat)
    requires a <= b
    ensures a * unit <= b * unit
  {
    assert b * unit == a * unit + (b - a) * unit;
  }

  lemma MulStep(q: nat, unit: nat)
    requires unit > 0
    ensures q * unit < (q + 1) * unit == q * unit + unit
  {
  }

  lemma DivFloor(i: nat, unit: nat)
    requires unit > 0
    ensures i / unit * unit <= i < (i / unit + 1) * unit
  {
  }

  lemma DivIs(i: nat, q: nat, unit: nat)
    requires unit > 0 && q * unit <= i < (q + 1) * unit
    ensures i / unit == q
  {
    var d := i / unit;
    assert d * unit <= i < (d + 1) * unit;
    if d < q {
      MulMonotone(d + 1, q, unit);
      assert false;
    } else if q < d {
      MulMonotone(q + 1, d, unit);
      assert false;
    }
  }

  lemma DivMonotone(a: nat, b: nat, unit: nat)
    requires unit > 0 && a <= b
    ensures a / unit <= b / unit
  {
    var d, e := a / unit, b / unit;
    assert d * unit <= a && b < (e + 1) * unit;
    if e < d {
      MulMonotone(e + 1, d, unit);
      assert false;
    }
  }

  lemma MulCancel(a: nat, b: nat, unit: nat)
    requires unit > 0 && a * unit <= b * unit
    ensures a <= b
  {
    if b < a {
      MulMonotone(b + 1, a, unit);
      MulStep(b, unit);
    }
  }

  function Lesser(a: nat, b: nat): nat {
    if a < b then a else b
  }

  function Pow2(k: nat): (p: nat)
    ensures p >= 1
  {
    if k == 0 then 1 else 2 * Pow2(k - 1)
  }
}
