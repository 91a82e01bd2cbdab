/** Sums of a real weight over a sequence and over a finite set. */
module Sums {
  import opened Common
  import opened Reals

  function Sum<T>(s: seq<T>, w: T -> real): real {
    if s == [] then 0.0 else Sum(s[..|s| - 1], w) + w(s[|s| - 1])
  }

  lemma SumNext<T>(s: seq<T>, x: T, w: T -> real)
    ensures Sum(s + [x], w) == Sum(s, w) + w(x)
  {
    assert (s + [x])[..|s|] == s;
  }

  ghost function Total<T>(s: set<T>, w: T -> real): real {
    if s == {} then 0.0
    else
      var x := Pick(s);
      w(x) + Total(s - {x}, w)
  }

  lemma {:induction false} TotalTakes<T>(s: set<T>, x: T, w: T -> real)
    requires x in s
    ensures Total(s, w) == w(x) + Total(s - {x}, w)
  {
    var y := Pick(s);
    if y != x {
      TotalTakes(s - {y}, x, w);
      TotalTakes(s - {x}, y, w);
      assert s - {y} - {x} == s - {x} - {y};
    }
  }

  lemma {:induction false} TotalSame<T>(s: set<T>, f: T -> real, g: T -> real)
    requires forall x :: x in s ==> f(x) == g(x)
    ensures Total(s, f) == Total(s, g)
  {
    if s != {} { TotalSame(s - {Pick(s)}, f, g); }
  }

  lemma {:induction false} TotalAtMost<T>(s: set<T>, f: T -> real, g: T -> real)
    requires forall x :: x in s ==> f(x) <= g(x)
    ensures Total(s, f) <= Total(s, g)
  {
    if s != {} { TotalAtMost(s - {Pick(s)}, f, g); }
  }

  lemma {:induction false} TotalSum<T>(s: set<T>, f: T -> real, g: T -> real, h: T -> real)
    requires forall x :: x in s ==> h(x) == f(x) + g(x)
    ensures Total(s, h) == Total(s, f) + Total(s, g)
  {
    if s != {} { TotalSum(s - {Pick(s)}, f, g, h); }
  }

  /** One element's weight changes the total by as much; an element not there before weighed nothing. */
  lemma TotalMoves<T>(s: set<T>, x: T, f: T -> real, g: T -> real)
    requires forall y :: y in s && y != x ==> g(y) == f(y)
    requires x !in s ==> f(x) == 0.0
    ensures Total(s + {x}, g) == Total(s, f) + g(x) - f(x)
  {
    var others := s - {x};
    TotalTakes(s + {x}, x, g);
    assert s + {x} - {x} == others;
    TotalSame(others, f, g);
    if x in s {
      TotalTakes(s, x, f);
    } else {
      assert others == s;
    }
  }

  lemma {:induction false} TotalScales<T>(s: set<T>, f: T -> real, g: T -> real, k: real)
    requires forall x :: x in s ==> g(x) == Times(f(x), k)
    ensures Total(s, g) == Times(Total(s, f), k)
  {
    hide Times;
    if s == {} {
      TimesSum(0.0, 0.0, k);
    } else {
      TotalScales(s - {Pick(s)}, f, g, k);
      TimesSum(f(Pick(s)), Total(s - {Pick(s)}, f), k);
    }
  }
}
