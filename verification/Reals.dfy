/** Products and quotients of reals by name, and how they order. */
module Reals {
  function Times(x: real, y: real): real { x * y }

  function Over(x: real, y: real): real
    requires y != 0.0
  {
    x / y
  }

  lemma ProductSum(x: real, y: real, z: real)
    ensures (x + y) * z == x * z + y * z && (x - y) * z == x * z - y * z
    ensures z * (x + y) == z * x + z * y && z * (x - y) == z * x - z * y && (-x) * z == -(x * z)
  {
  }

  lemma ProductGrows(x: real, y: real, k: real)
    requires k >= 0.0
    ensures x <= y ==> x * k <= y * k
    ensures x < y && k > 0.0 ==> x * k < y * k
  {
    if x <= y { assert (y - x) * k >= 0.0; }
    if x < y && k > 0.0 { assert (y - x) * k > 0.0; }
  }

  lemma TimesSum(x: real, y: real, z: real)
    ensures Times(x + y, z) == Times(x, z) + Times(y, z) && Times(x - y, z) == Times(x, z) - Times(y, z)
    ensures Times(z, x + y) == Times(z, x) + Times(z, y) && Times(z, x - y) == Times(z, x) - Times(z, y)
    ensures Times(x, z) == Times(z, x) && Times(-x, z) == -Times(x, z) && Times(z, 0.0) == 0.0 == Times(0.0, z)
  {
    ProductSum(x, y, z);
  }

  lemma TimesGrows(x: real, y: real, k: real)
    requires x <= y && k >= 0.0
    ensures Times(x, k) <= Times(y, k) && Times(k, x) <= Times(k, y)
  {
    ProductGrows(x, y, k);
  }

  lemma TimesLess(x: real, y: real, k: real)
    requires x < y && k > 0.0
    ensures Times(x, k) < Times(y, k)
  {
    ProductGrows(x, y, k);
  }

  lemma TimesOrders(x: real, y: real, k: real)
    requires k >= 0.0
    ensures x <= y ==> Times(x, k) <= Times(y, k) && Times(k, x) <= Times(k, y)
    ensures k > 0.0 ==> (x <= y <==> Times(x, k) <= Times(y, k))
  {
    hide Times;
    if x <= y {
      TimesGrows(x, y, k);
    } else if k > 0.0 {
      TimesLess(y, x, k);
    }
  }

  lemma OverBounds(x: real, y: real, z: real)
    requires y > 0.0
    ensures z <= Over(x, y) <==> Times(z, y) <= x
    ensures Over(x, y) <= z <==> x <= Times(z, y)
    ensures x > 0.0 <==> Over(x, y) > 0.0
  {
    var q := Over(x, y);
    assert Times(q, y) == x;
    TimesOrders(z, q, y);
    TimesOrders(q, z, y);
    TimesOrders(q, 0.0, y);
    TimesSum(0.0, 0.0, y);
  }

  lemma OverGrows(x: real, y: real, d: real)
    requires x <= y && d > 0.0
    ensures Over(x, d) <= Over(y, d)
  {
  }
}
