/** Weighted sums over sequences and finite sets: the meaning of the SQL SUM queries. */
module Sums {

  function Sum<T>(xs: seq<T>, w: T -> int): int {
    if |xs| == 0 then 0 else Sum(xs[..|xs| - 1], w) + w(xs[|xs| - 1])
  }

  lemma {:induction false} SumConcat<T>(xs: seq<T>, ys: seq<T>, w: T -> int)
    ensures Sum(xs + ys, w) == Sum(xs, w) + Sum(ys, w)
  {
    if |ys| == 0 {
      assert xs + ys == xs;
    } else {
      var front := ys[..|ys| - 1];
      assert (xs + ys)[..|xs + ys| - 1] == xs + front;
      SumConcat(xs, front, w);
    }
  }

  lemma SumOne<T>(x: T, w: T -> int)
    ensures Sum([x], w) == w(x)
  {
    assert [x][..0] == [];
  }

  lemma SumAppend<T>(xs: seq<T>, x: T, w: T -> int)
    ensures Sum(xs + [x], w) == Sum(xs, w) + w(x)
  {
    assert (xs + [x])[..|xs|] == xs;
  }

  lemma SumAppendTwo<T>(xs: seq<T>, x: T, y: T, w: T -> int)
    ensures Sum(xs + [x, y], w) == Sum(xs, w) + w(x) + w(y)
  {
    assert xs + [x, y] == (xs + [x]) + [y];
    SumAppend(xs, x, w);
    SumAppend(xs + [x], y, w);
  }

  lemma SumSplitAt<T>(xs: seq<T>, i: nat, w: T -> int)
    requires i < |xs|
    ensures Sum(xs, w) == Sum(xs[..i], w) + w(xs[i]) + Sum(xs[i + 1..], w)
  {
    assert xs == (xs[..i] + [xs[i]]) + xs[i + 1..];
    SumConcat(xs[..i] + [xs[i]], xs[i + 1..], w);
    SumAppend(xs[..i], xs[i], w);
  }

  lemma SumUpdate<T>(xs: seq<T>, i: nat, x: T, w: T -> int)
    requires i < |xs|
    ensures Sum(xs[i := x], w) == Sum(xs, w) - w(xs[i]) + w(x)
  {
    SumSplitAt(xs, i, w);
    SumSplitAt(xs[i := x], i, w);
    assert xs[i := x][..i] == xs[..i] && xs[i := x][i + 1..] == xs[i + 1..];
  }

  lemma {:induction false} SumAgree<T>(xs: seq<T>, w: T -> int, v: T -> int)
    requires forall x <- xs :: w(x) == v(x)
    ensures Sum(xs, w) == Sum(xs, v)
  {
    if |xs| != 0 {
      SumAgree(xs[..|xs| - 1], w, v);
    }
  }

  /** Sums are linear: a weight that splits pointwise into two splits the sum. */
  lemma {:induction false} SumPlus<T>(xs: seq<T>, w: T -> int, u: T -> int, v: T -> int)
    requires forall x <- xs :: w(x) == u(x) + v(x)
    ensures Sum(xs, w) == Sum(xs, u) + Sum(xs, v)
  {
    if |xs| != 0 {
      SumPlus(xs[..|xs| - 1], w, u, v);
    }
  }

  lemma {:induction false} SumNonNegative<T>(xs: seq<T>, w: T -> int)
    requires forall x <- xs :: 0 <= w(x)
    ensures 0 <= Sum(xs, w)
    ensures forall x <- xs :: w(x) <= Sum(xs, w)
  {
    if |xs| != 0 {
      SumNonNegative(xs[..|xs| - 1], w);
    }
  }

  lemma {:induction false} SumZero<T>(xs: seq<T>, w: T -> int)
    requires forall x <- xs :: w(x) == 0
    ensures Sum(xs, w) == 0
  {
    if |xs| != 0 {
      SumZero(xs[..|xs| - 1], w);
    }
  }

  /** The order of the rows does not matter to a sum. */
  lemma {:induction false} SumPermutation<T>(xs: seq<T>, ys: seq<T>, w: T -> int)
    requires multiset(xs) == multiset(ys)
    ensures Sum(xs, w) == Sum(ys, w)
    decreases |xs|
  {
    if |xs| == 0 {
      assert |multiset(ys)| == 0;
    } else {
      var last := |xs| - 1;
      assert xs == xs[..last] + [xs[last]];
      assert xs[last] in multiset(ys);
      var j :| 0 <= j < |ys| && ys[j] == xs[last];
      var rest := ys[..j] + ys[j + 1..];
      assert ys == ys[..j] + [ys[j]] + ys[j + 1..];
      assert multiset(xs[..last]) == multiset(xs) - multiset{xs[last]};
      assert multiset(rest) == multiset(ys) - multiset{ys[j]};
      SumPermutation(xs[..last], rest, w);
      SumSplitAt(ys, j, w);
      SumConcat(ys[..j], ys[j + 1..], w);
    }
  }

  /** The sum of a weight over a finite set. */
  ghost function SumOver<T(!new)>(s: set<T>, w: T -> int): int {
    if s == {} then 0 else var x :| x in s; w(x) + SumOver(s - {x}, w)
  }

  lemma {:induction false} SumOverRemove<T(!new)>(s: set<T>, x: T, w: T -> int)
    requires x in s
    ensures SumOver(s, w) == w(x) + SumOver(s - {x}, w)
    decreases s
  {
    var y :| y in s && SumOver(s, w) == w(y) + SumOver(s - {y}, w);
    if x != y {
      SumOverRemove(s - {y}, x, w);
      SumOverRemove(s - {x}, y, w);
      assert s - {y} - {x} == s - {x} - {y};
    }
  }

  lemma SumOverInsert<T(!new)>(s: set<T>, x: T, w: T -> int)
    requires x !in s
    ensures SumOver(s + {x}, w) == SumOver(s, w) + w(x)
  {
    SumOverRemove(s + {x}, x, w);
    assert s + {x} - {x} == s;
  }

  lemma AtMostOneElement<T>(s: set<T>)
    ensures |s| <= 1 <==> forall x, y :: x in s && y in s ==> x == y
  {
    if s != {} {
      var x :| x in s;
      assert s == {x} + (s - {x});
      if |s| <= 1 {
        assert |s - {x}| == 0;
      } else {
        var y :| y in s - {x};
      }
    }
  }

  lemma {:induction false} SomePositive<T>(xs: seq<T>, w: T -> int) returns (k: nat)
    requires Sum(xs, w) > 0
    ensures k < |xs| && w(xs[k]) > 0
  {
    var last := |xs| - 1;
    if w(xs[last]) > 0 {
      k := last;
    } else {
      k := SomePositive(xs[..last], w);
    }
  }
}
