/** Definitions every module shares: optional values, small arithmetic and stable sorting by an integer key. */
module Common {
  datatype Option<+T> = None | Some(value: T)

  datatype Side = Buy | Sell

  function Opposite(s: Side): Side { if s == Buy then Sell else Buy }

  function Max(x: int, y: int): int { if x >= y then x else y }

  function Min(x: int, y: int): int { if x <= y then x else y }

  function RMax(x: real, y: real): real { if x >= y then x else y }

  function RMin(x: real, y: real): real { if x <= y then x else y }

  function RAbs(x: real): real { if x >= 0.0 then x else -x }

  function Ceil(x: real): int { -((-x).Floor) }

  lemma NoneOrSome<T>(s: set<T>)
    ensures s == {} || exists x :: x in s
  {
    if forall x :: x !in s { assert s == {}; }
  }

  ghost function Pick<T>(s: set<T>): (x: T)
    requires s != {}
    ensures x in s
  {
    NoneOrSome(s);
    var x :| x in s;
    x
  }

  ghost predicate SortedBy<T>(s: seq<T>, key: T -> int) {
    forall i, j :: 0 <= i < j < |s| ==> key(s[i]) <= key(s[j])
  }

  /** Places `x` after every element whose key does not exceed its own. */
  function InsertBy<T>(s: seq<T>, x: T, key: T -> int): (r: seq<T>) {
    if s == [] || key(s[|s| - 1]) <= key(x) then s + [x]
    else InsertBy(s[..|s| - 1], x, key) + [s[|s| - 1]]
  }

  /** The stable sort by key. */
  function SortBy<T>(s: seq<T>, key: T -> int): (r: seq<T>) {
    if s == [] then [] else InsertBy(SortBy(s[..|s| - 1], key), s[|s| - 1], key)
  }

  /** The elements of `s` with key `k`, in their order. */
  function WithKey<T>(s: seq<T>, key: T -> int, k: int): seq<T> {
    if s == [] then []
    else WithKey(s[..|s| - 1], key, k) + (if key(s[|s| - 1]) == k then [s[|s| - 1]] else [])
  }

  lemma {:induction false} InsertBySorted<T>(s: seq<T>, x: T, key: T -> int)
    requires SortedBy(s, key)
    ensures SortedBy(InsertBy(s, x, key), key)
    ensures forall y :: y in InsertBy(s, x, key) ==> y in s || y == x
  {
    if s == [] || key(s[|s| - 1]) <= key(x) {
    } else {
      var init, z := s[..|s| - 1], s[|s| - 1];
      InsertBySorted(init, x, key);
      var t := InsertBy(init, x, key);
      forall i | 0 <= i < |t| ensures key(t[i]) <= key(z) {
        assert t[i] in t;
      }
    }
  }

  lemma {:induction false} InsertByStable<T>(s: seq<T>, x: T, key: T -> int, k: int)
    ensures WithKey(InsertBy(s, x, key), key, k) == WithKey(s, key, k) + (if key(x) == k then [x] else [])
  {
    if s == [] || key(s[|s| - 1]) <= key(x) {
      assert (s + [x])[..|s|] == s;
    } else {
      var init, z := s[..|s| - 1], s[|s| - 1];
      InsertByStable(init, x, key, k);
      var t := InsertBy(init, x, key);
      assert (t + [z])[..|t|] == t;
    }
  }

  /** `SortBy` is the stable sort: ordered by key, and within one key the original order. */
  lemma {:induction false} SortByIsStable<T>(s: seq<T>, key: T -> int)
    ensures SortedBy(SortBy(s, key), key)
    ensures forall k :: WithKey(SortBy(s, key), key, k) == WithKey(s, key, k)
  {
    if s != [] {
      SortByIsStable(s[..|s| - 1], key);
      var init, x := SortBy(s[..|s| - 1], key), s[|s| - 1];
      InsertBySorted(init, x, key);
      forall k ensures WithKey(SortBy(s, key), key, k) == WithKey(s, key, k) {
        InsertByStable(init, x, key, k);
      }
    }
  }

  lemma {:induction false} InsertByAdds<T>(s: seq<T>, x: T, key: T -> int)
    ensures multiset(InsertBy(s, x, key)) == multiset(s) + multiset{x}
  {
    if s == [] || key(s[|s| - 1]) <= key(x) {
    } else {
      InsertByAdds(s[..|s| - 1], x, key);
      assert s == s[..|s| - 1] + [s[|s| - 1]];
    }
  }

  /** Sorting loses and adds nothing. */
  lemma {:induction false} SortByPermutes<T>(s: seq<T>, key: T -> int)
    ensures multiset(SortBy(s, key)) == multiset(s)
  {
    if s != [] {
      SortByPermutes(s[..|s| - 1], key);
      InsertByAdds(SortBy(s[..|s| - 1], key), s[|s| - 1], key);
      assert s == s[..|s| - 1] + [s[|s| - 1]];
    }
  }

  lemma {:induction false} WithKeysCommute<T>(s: seq<T>, key: T -> int, k: int, other: T -> int, o: int)
    ensures WithKey(WithKey(s, key, k), other, o) == WithKey(WithKey(s, other, o), key, k)
  {
    if s != [] {
      var init, x := s[..|s| - 1], s[|s| - 1];
      WithKeysCommute(init, key, k, other, o);
      var one, two := WithKey(init, key, k), WithKey(init, other, o);
      WithKeyNext(one, x, other, o);
      WithKeyNext(two, x, key, k);
      assert one + [] == one && two + [] == two && WithKey(one, other, o) + [] == WithKey(one, other, o);
    }
  }

  lemma WithKeyNext<T>(s: seq<T>, x: T, key: T -> int, k: int)
    ensures WithKey(s + [x], key, k) == WithKey(s, key, k) + (if key(x) == k then [x] else [])
  {
    assert (s + [x])[..|s|] == s;
  }

  predicate Before<T>(x: T, y: T, first: T -> int, second: T -> int) {
    first(x) < first(y) || (first(x) == first(y) && second(x) <= second(y))
  }

  ghost predicate AllBefore<T>(s: seq<T>, y: T, first: T -> int, second: T -> int) {
    forall i :: 0 <= i < |s| ==> Before(s[i], y, first, second)
  }

  /** In order by `first`, and within one `first` by `second`. */
  ghost predicate SortedByBoth<T>(s: seq<T>, first: T -> int, second: T -> int) {
    forall i, j :: 0 <= i < j < |s| ==> Before(s[i], s[j], first, second)
  }

  ghost predicate AtMost<T>(s: seq<T>, key: T -> int, k: int) { forall i :: 0 <= i < |s| ==> key(s[i]) <= k }

  lemma {:induction false} InsertAtMost<T>(s: seq<T>, x: T, first: T -> int, key: T -> int, k: int)
    requires AtMost(s, key, k) && key(x) <= k
    ensures AtMost(InsertBy(s, x, first), key, k)
  {
    if s == [] || first(s[|s| - 1]) <= first(x) {
    } else {
      InsertAtMost(s[..|s| - 1], x, first, key, k);
    }
  }

  lemma {:induction false} SortAtMost<T>(s: seq<T>, first: T -> int, key: T -> int, k: int)
    requires AtMost(s, key, k)
    ensures AtMost(SortBy(s, first), key, k)
  {
    if s != [] {
      SortAtMost(s[..|s| - 1], first, key, k);
      InsertAtMost(SortBy(s[..|s| - 1], first), s[|s| - 1], first, key, k);
    }
  }

  lemma {:induction false} InsertAllBefore<T>(s: seq<T>, x: T, y: T, first: T -> int, second: T -> int)
    requires AllBefore(s, y, first, second) && Before(x, y, first, second)
    ensures AllBefore(InsertBy(s, x, first), y, first, second)
  {
    if s == [] || first(s[|s| - 1]) <= first(x) {
    } else {
      InsertAllBefore(s[..|s| - 1], x, y, first, second);
    }
  }

  /** Placed by the first key, an element with the largest second one keeps both in order. */
  lemma {:induction false} InsertKeepsBoth<T>(s: seq<T>, x: T, first: T -> int, second: T -> int)
    requires SortedByBoth(s, first, second) && AtMost(s, second, second(x))
    ensures SortedByBoth(InsertBy(s, x, first), first, second)
  {
    if s == [] || first(s[|s| - 1]) <= first(x) {
    } else {
      InsertKeepsBoth(s[..|s| - 1], x, first, second);
      InsertAllBefore(s[..|s| - 1], x, s[|s| - 1], first, second);
    }
  }

  lemma {:induction false} SortKeepsBoth<T>(s: seq<T>, first: T -> int, second: T -> int)
    requires SortedBy(s, second)
    ensures SortedByBoth(SortBy(s, first), first, second)
  {
    if s != [] {
      SortKeepsBoth(s[..|s| - 1], first, second);
      SortAtMost(s[..|s| - 1], first, second, second(s[|s| - 1]));
      InsertKeepsBoth(SortBy(s[..|s| - 1], first), s[|s| - 1], first, second);
    }
  }

  /** The stable sort by two keys: sort by the second, then by the first. */
  function SortByBoth<T>(s: seq<T>, first: T -> int, second: T -> int): seq<T> { SortBy(SortBy(s, second), first) }

  lemma SortByBothIsStable<T>(s: seq<T>, first: T -> int, second: T -> int)
    ensures var r := SortByBoth(s, first, second);
      && SortedByBoth(r, first, second) && multiset(r) == multiset(s)
      && forall k, o :: WithKey(WithKey(r, first, k), second, o) == WithKey(WithKey(s, first, k), second, o)
  {
    hide SortBy;
    var t := SortBy(s, second);
    var r := SortBy(t, first);
    SortByIsStable(s, second);
    SortByIsStable(t, first);
    SortByPermutes(s, second);
    SortByPermutes(t, first);
    SortKeepsBoth(t, first, second);
    forall k, o ensures WithKey(WithKey(r, first, k), second, o) == WithKey(WithKey(s, first, k), second, o) {
      WithKeysCommute(t, first, k, second, o);
      WithKeysCommute(s, first, k, second, o);
    }
  }

  /** A sequence already in order is left alone. */
  lemma {:induction false} SortByFixed<T>(s: seq<T>, key: T -> int)
    requires SortedBy(s, key)
    ensures SortBy(s, key) == s
  {
    if s != [] {
      SortByFixed(s[..|s| - 1], key);
      InsertLast(s, key);
    }
  }

  lemma InsertLast<T>(s: seq<T>, key: T -> int)
    requires s != [] && SortedBy(s, key)
    ensures InsertBy(s[..|s| - 1], s[|s| - 1], key) == s
  {
    if |s| > 1 { assert key(s[|s| - 2]) <= key(s[|s| - 1]); }
    assert s == s[..|s| - 1] + [s[|s| - 1]];
  }
}
