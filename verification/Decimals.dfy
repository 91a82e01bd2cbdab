/** Step rounding (LIGHTER_ASTER_BOT/src/decimal.rs), over exact reals. */
module Decimals {
  import opened Reals

  /** A whole number of steps. */
  ghost predicate OnStep(x: real, step: real) { exists k: int :: x == Steps(k, step) }

  function Steps(k: int, step: real): real { Times(k as real, step) }

  /** Rounded down to a step; unchanged when the step is not positive. */
  function FloorToStep(x: real, step: real): real {
    if step <= 0.0 then x else Steps((x / step).Floor, step)
  }

  /** Rounded up to a step; unchanged when the step is not positive. */
  function CeilToStep(x: real, step: real): real {
    if step <= 0.0 then x else Steps(-((-(x / step)).Floor), step)
  }

  lemma Quotient(x: real, step: real)
    requires step > 0.0
    ensures Times(x / step, step) == x
  {
  }

  lemma StepsOrder(j: int, k: int, step: real)
    requires step > 0.0
    ensures j <= k ==> Steps(j, step) <= Steps(k, step)
  {
    hide Times;
    TimesOrders(j as real, k as real, step);
  }

  lemma StepsNext(k: int, step: real)
    ensures Steps(k + 1, step) == Steps(k, step) + step && Steps(-k, step) == -Steps(k, step) && Steps(1, step) == step
  {
    assert (k + 1) as real == k as real + 1.0 && (-k) as real == -(k as real);
    TimesSum(k as real, 1.0, step);
  }

  lemma BoundsAt(x: real, step: real, q: real, n: int)
    requires step > 0.0 && Times(q, step) == x && n as real <= q < n as real + 1.0
    ensures Steps(n, step) <= x < Steps(n + 1, step)
  {
    hide Times;
    assert (n + 1) as real == n as real + 1.0;
    TimesOrders(n as real, q, step);
    TimesOrders(n as real + 1.0, q, step);
  }

  lemma FloorBounds(x: real, step: real)
    requires step > 0.0
    ensures var n := (x / step).Floor; Steps(n, step) <= x < Steps(n + 1, step)
  {
    hide Steps;
    Quotient(x, step);
    BoundsAt(x, step, x / step, (x / step).Floor);
  }

  lemma NoStepAbove(k: int, n: int, x: real, step: real)
    requires step > 0.0 && x < Steps(n + 1, step)
    ensures Steps(k, step) <= x ==> Steps(k, step) <= Steps(n, step)
  {
    hide Steps;
    if k <= n { StepsOrder(k, n, step); } else { StepsOrder(n + 1, k, step); }
  }

  /** The largest step at or below. */
  lemma FloorIsLargest(x: real, step: real)
    requires step > 0.0
    ensures var r := FloorToStep(x, step);
      r <= x < r + step && OnStep(r, step) && forall k: int :: Steps(k, step) <= x ==> Steps(k, step) <= r
  {
    hide Steps;
    var n := (x / step).Floor;
    FloorBounds(x, step);
    StepsNext(n, step);
    forall k: int ensures Steps(k, step) <= x ==> Steps(k, step) <= Steps(n, step) { NoStepAbove(k, n, x, step); }
  }

  lemma Mirror(x: real, step: real)
    requires step > 0.0
    ensures CeilToStep(x, step) == -FloorToStep(-x, step)
  {
    Quotient(x, step);
    Quotient(-x, step);
    assert -(x / step) * step == -x == -x / step * step;
    SameQuotient(-(x / step), -x / step, step);
    StepsNext((-(x / step)).Floor, step);
  }

  lemma SameQuotient(p: real, q: real, step: real)
    requires step > 0.0 && p * step == q * step
    ensures p == q
  {
    ProductGrows(p, q, step);
    ProductGrows(q, p, step);
  }

  /** The smallest step at or above. */
  lemma CeilIsSmallest(x: real, step: real)
    requires step > 0.0
    ensures var r := CeilToStep(x, step);
      r - step < x <= r && OnStep(r, step) && forall k: int :: x <= Steps(k, step) ==> r <= Steps(k, step)
  {
    hide Steps, FloorToStep;
    Mirror(x, step);
    FloorIsLargest(-x, step);
    var r := FloorToStep(-x, step);
    var j: int :| r == Steps(j, step);
    StepsNext(j, step);
    forall k: int ensures x <= Steps(k, step) ==> -r <= Steps(k, step) {
      StepsNext(k, step);
      assert Steps(-k, step) <= -x ==> Steps(-k, step) <= r;
    }
    assert -r == Steps(-j, step);
  }
}
